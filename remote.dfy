/** The client of the remote pigpio daemon (src/pi.rs): pin numbers, the connection
    typestate, the daemon calls and the scoped remote file.

    The daemon itself is an external collaborator. It is modelled by the class
    Daemon: a log of every request it has received with the reply it gave, and a
    reply function `respond` that may answer any request with any status, so that
    every call may fail. Every operation below is specified by the requests it
    issues, in order, and by where it stops. */
module Remote {
  import opened Wrappers
  import opened CTypes
  import PigpioErrors

  // ---------------------------------------------------------------
  // Errors of this layer
  // ---------------------------------------------------------------

  /** What `Error::other` wraps: the conversions this file defines (`From<...> for Error`). */
  datatype Cause =
    | ParseIntError
    | NulError
    | TryFromSliceError
    | Io(io: IoError)

  /** An `io::Error` made by `io::Error::other` from an error of this layer. */
  datatype IoError = IoOther(inner: Error)

  /** `enum Error { Pi(&CStr), Other(Box<dyn Error>) }`. The daemon variant holds the
      message `pigpio_error(code)` looks up; the model keeps the code it was looked up by. */
  datatype Error = Pi(code: i32) | Other(cause: Cause)

  /** The pigpio constant `PI_BAD_GPIO`. */
  const PI_BAD_GPIO: i32 := -3

  // ---------------------------------------------------------------
  // Pin numbers
  // ---------------------------------------------------------------

  /** The largest GPIO number the daemon accepts. */
  const MaxGpio: u32 := 53

  /** `struct Gpio(c_uint)`. */
  datatype Gpio = Gpio(index: u32)

  /** `Gpio::new`: only 0..=53 make a pin. */
  function NewGpio(gpio: u32): (r: Option<Gpio>)
    ensures r.Some? <==> gpio <= MaxGpio
    ensures r.Some? ==> r.value.index == gpio
  {
    if gpio > MaxGpio then None else Some(Gpio(gpio))
  }

  predicate IsDigit(c: char) { '0' <= c <= '9' }

  predicate AllDigits(s: string) { forall i :: 0 <= i < |s| ==> IsDigit(s[i]) }

  /** The number a string of decimal digits denotes (leading zeros allowed). */
  function DigitsValue(s: string): nat
    requires AllDigits(s)
  {
    if s == [] then 0 else DigitsValue(s[..|s| - 1]) * 10 + (s[|s| - 1] as int - '0' as int)
  }

  /** `str::parse::<c_uint>()`: an optional leading '+' and then at least one decimal
      digit, with a value below 2^32; anything else is an error. */
  function ParseU32(s: string): (r: Option<u32>)
    ensures r.Some? ==> |s| > 0 && AllDigits(if s[0] == '+' then s[1..] else s)
  {
    if |s| == 0 then None
    else
      var digits := if s[0] == '+' then s[1..] else s;
      if |digits| == 0 || !AllDigits(digits) then None
      else
        var v := DigitsValue(digits);
        if v < 0x1_0000_0000 then Some(v) else None
  }

  /** `<Gpio as FromStr>::from_str`: parse, then apply Gpio::new's bound. */
  function GpioFromStr(s: string): (r: Result<Gpio, Error>)
    ensures ParseU32(s).None? ==> r == Err(Other(ParseIntError))
    ensures ParseU32(s).Some? && ParseU32(s).value > MaxGpio ==> r == Err(Pi(PI_BAD_GPIO))
    ensures r.Ok? <==> ParseU32(s).Some? && ParseU32(s).value <= MaxGpio
    ensures r.Ok? ==> r.value.index == ParseU32(s).value
  {
    match ParseU32(s)
    case None => Err(Other(ParseIntError))
    case Some(raw) =>
      match NewGpio(raw)
      case None => Err(Pi(PI_BAD_GPIO))
      case Some(gpio) => Ok(gpio)
  }

  /** The shortest decimal form of n, the form a command line gives a pin in. */
  function Decimal(n: nat): (s: string)
    ensures |s| > 0 && AllDigits(s)
    decreases n
  {
    var d := ['0' + (n % 10) as char];
    if n < 10 then d else Decimal(n / 10) + d
  }

  lemma {:induction false} DigitsValueOfDecimal(n: nat)
    ensures DigitsValue(Decimal(n)) == n
    decreases n
  {
    var d := ['0' + (n % 10) as char];
    if n >= 10 {
      var s := Decimal(n / 10) + d;
      assert s[..|s| - 1] == Decimal(n / 10);
      DigitsValueOfDecimal(n / 10);
    }
  }

  /** Every pin parses back from its decimal form, also with a leading '+'. */
  lemma GpioFromStrOfDecimal(gpio: Gpio)
    requires gpio.index <= MaxGpio
    ensures GpioFromStr(Decimal(gpio.index)) == Ok(gpio)
    ensures GpioFromStr("+" + Decimal(gpio.index)) == Ok(gpio)
  {
    ParseU32OfDecimal(gpio.index);
  }

  /** A number past the last pin is refused with `PI_BAD_GPIO`, and one that does not fit
      a `u32` with a parse error. */
  lemma GpioFromStrOutOfRange(n: nat)
    requires n > MaxGpio as int
    ensures GpioFromStr(Decimal(n)) == if n < 0x1_0000_0000 then Err(Pi(PI_BAD_GPIO)) else Err(Other(ParseIntError))
  {
    ParseU32OfDecimal(n);
  }

  /** The status a pin out of range is refused with is the daemon's "GPIO not 0-53". */
  lemma BadGpioStatus()
    ensures PigpioErrors.FromCode(PI_BAD_GPIO) == PigpioErrors.BadGpio
    ensures PigpioErrors.AsStr(PigpioErrors.FromCode(PI_BAD_GPIO)) == "GPIO not 0-53"
  {
    PigpioErrors.FromCodeArms1To40();
  }

  /** What `str::parse` refuses: the empty string, a lone sign, a minus sign, and
      anything that is not a digit. A leading '+' and leading zeros are accepted. */
  lemma ParseU32Rejects()
    ensures ParseU32("") == None && ParseU32("+") == None
    ensures ParseU32("-1") == None && ParseU32(" 1") == None && ParseU32("1a") == None
    ensures ParseU32("+007") == Some(7)
  {
    assert !IsDigit("1a"[1]);
    assert "+007"[1..] == "007";
    assert "007"[..2] == "00" && "00"[..1] == "0";
  }

  /** The decimal form of every number parses back to it exactly when it fits in a
      `u32`, with or without a leading '+'. */
  lemma ParseU32OfDecimal(n: nat)
    ensures ParseU32(Decimal(n)) == (if n < 0x1_0000_0000 then Some(n) else None)
    ensures ParseU32("+" + Decimal(n)) == ParseU32(Decimal(n))
  {
    var s := Decimal(n);
    DigitsValueOfDecimal(n);
    assert s[0] != '+' by { assert IsDigit(s[0]); }
    assert ("+" + s)[1..] == s;
  }

  // ---------------------------------------------------------------
  // The daemon and its requests
  // ---------------------------------------------------------------

  datatype Mode = Input | Output
  datatype Level = Low | High
  /** `FileMode`: PI_FILE_READ, PI_FILE_WRITE, PI_FILE_RW. */
  datatype FileMode = Read | Write | ReadWrite

  /** One call of the pigpiod_if2 interface. An absent address or port of `Start`
      is the null pointer `pigpio_start` takes for the default. */
  datatype Request =
    | Start(addr: Option<string>, port: Option<string>)
    | Stop
    | SetMode(gpio: Gpio, mode: Mode)
    | GpioWrite(gpio: Gpio, level: Level)
    | FileOpen(path: string, fileMode: FileMode)
    | FileRead(handle: u32, count: u32)
    | FileClose(handle: u32)

  /** A request the daemon received, with its reply. */
  datatype Event = Event(request: Request, reply: i32)

  /** How the daemon answers a request, given everything it has received before. */
  type Responder = (seq<Event>, Request) -> i32

  /** The remote daemon. */
  class Daemon {
    var log: seq<Event>
    const respond: Responder

    constructor (respond: Responder)
      ensures log == [] && this.respond == respond
    {
      log := [];
      this.respond := respond;
    }

    /** One round trip: the request is sent, logged and answered. */
    method Call(request: Request) returns (reply: i32)
      modifies this
      ensures reply == respond(old(log), request)
      ensures log == old(log) + [Event(request, reply)]
    {
      reply := respond(log, request);
      log := log + [Event(request, reply)];
    }
  }

  /** The log after a run of calls and the status it stopped at, if it stopped early. */
  datatype Outcome = Outcome(log: seq<Event>, failure: Option<i32>)

  /** Issue `calls` in order; a negative reply stops the run and is its failure. This is
      the `?` after each daemon call in the source. */
  function Run(respond: Responder, log: seq<Event>, calls: seq<Request>): (o: Outcome)
    ensures |log| <= |o.log| <= |log| + |calls| && o.log[..|log|] == log
    ensures o.failure.Some? ==> o.failure.value < 0
    decreases |calls|
  {
    if calls == [] then Outcome(log, None)
    else
      var reply := respond(log, calls[0]);
      var next := log + [Event(calls[0], reply)];
      if reply < 0 then Outcome(next, Some(reply))
      else
        var o := Run(respond, next, calls[1..]);
        assert o.log[..|next|] == next;
        assert next[..|log|] == log;
        o
  }

  /** The requests of a log, in order. */
  function Requests(events: seq<Event>): (r: seq<Request>)
    ensures |r| == |events|
    ensures forall i | 0 <= i < |events| :: r[i] == events[i].request
  {
    if events == [] then [] else Requests(events[..|events| - 1]) + [events[|events| - 1].request]
  }

  /** Every event from `from` on is answered by the daemon as `respond` says. */
  ghost predicate Answered(respond: Responder, log: seq<Event>, from: nat)
  {
    forall i | from <= i < |log| :: log[i].reply == respond(log[..i], log[i].request)
  }

  /** A run sends a prefix of its calls, in order, and all of them when it does not fail. */
  lemma RunSendsPrefix(respond: Responder, log: seq<Event>, calls: seq<Request>)
    ensures var o := Run(respond, log, calls); var n := |o.log| - |log|;
      && Requests(o.log[|log|..]) == calls[..n]
      && (o.failure.None? ==> n == |calls|)
  {
    var o := Run(respond, log, calls);
    RunSendsInOrder(respond, log, calls);
    var n := |o.log| - |log|;
    assert forall i | 0 <= i < n :: Requests(o.log[|log|..])[i] == o.log[|log| + i].request;
  }

  lemma {:induction false} RunSendsInOrder(respond: Responder, log: seq<Event>, calls: seq<Request>)
    ensures var o := Run(respond, log, calls);
      && (forall i | 0 <= i < |o.log| - |log| :: o.log[|log| + i].request == calls[i])
      && (o.failure.None? ==> |o.log| - |log| == |calls|)
    decreases |calls|
  {
    if calls != [] {
      var o := Run(respond, log, calls);
      var reply := respond(log, calls[0]);
      var e := Event(calls[0], reply);
      var next := log + [e];
      if reply >= 0 {
        var rest := Run(respond, next, calls[1..]);
        RunSendsInOrder(respond, next, calls[1..]);
        assert o == rest;
        assert rest.log[..|next|] == next;
        assert o.log[|log|] == e;
        forall i | 1 <= i < |o.log| - |log|
          ensures o.log[|log| + i].request == calls[i]
        {
          assert o.log[|log| + i] == rest.log[|next| + (i - 1)];
        }
      }
    }
  }

  /** A run that did not fail sent every call and had every one accepted. */
  lemma RunAccepted(respond: Responder, log: seq<Event>, calls: seq<Request>)
    requires Run(respond, log, calls).failure.None?
    ensures var added := Run(respond, log, calls).log[|log|..];
      && Requests(added) == calls
      && forall i | 0 <= i < |added| :: added[i].reply >= 0
  {
    var o := Run(respond, log, calls);
    var added := o.log[|log|..];
    RunSendsInOrder(respond, log, calls);
    RunStopsAtFirstFailure(respond, log, calls);
    forall i | 0 <= i < |added|
      ensures added[i].request == calls[i] && added[i].reply >= 0
    {
      assert added[i] == o.log[|log| + i];
      if |log| + i == |o.log| - 1 {
        assert !(o.log[|o.log| - 1].reply < 0);
      }
    }
    assert |added| == |calls|;
    assert forall i | 0 <= i < |calls| :: Requests(added)[i] == calls[i];
  }

  /** Every event a run adds is the daemon's answer to that request at that point. */
  lemma {:induction false} RunAnswered(respond: Responder, log: seq<Event>, calls: seq<Request>)
    ensures Answered(respond, Run(respond, log, calls).log, |log|)
    decreases |calls|
  {
    var o := Run(respond, log, calls);
    if calls != [] {
      var reply := respond(log, calls[0]);
      var next := log + [Event(calls[0], reply)];
      if reply >= 0 {
        RunAnswered(respond, next, calls[1..]);
        forall i | |log| <= i < |o.log|
          ensures o.log[i].reply == respond(o.log[..i], o.log[i].request)
        {
          if i == |log| {
            assert o.log[..|next|] == next;
            assert o.log[..i] == log;
          }
        }
      }
    }
  }

  /** A run stops at the first negative reply: every reply before the last one sent is
      non-negative, and the run failed exactly when the last reply was negative. */
  lemma {:induction false} RunStopsAtFirstFailure(respond: Responder, log: seq<Event>, calls: seq<Request>)
    ensures var o := Run(respond, log, calls);
      && (forall i | |log| <= i < |o.log| - 1 :: o.log[i].reply >= 0)
      && (o.failure.Some? <==> |o.log| > |log| && o.log[|o.log| - 1].reply < 0)
      && (o.failure.Some? ==> o.failure.value == o.log[|o.log| - 1].reply)
    decreases |calls|
  {
    var o := Run(respond, log, calls);
    if calls != [] {
      var reply := respond(log, calls[0]);
      var next := log + [Event(calls[0], reply)];
      if reply >= 0 {
        RunStopsAtFirstFailure(respond, next, calls[1..]);
        assert o.log[..|next|] == next;
        assert o.log[|log|] == next[|log|];
      }
    }
  }

  /** Running two lists of calls one after the other is running their concatenation:
      the second list is sent only if the first ran to the end. */
  lemma {:induction false} RunAppend(respond: Responder, log: seq<Event>, a: seq<Request>, b: seq<Request>)
    ensures Run(respond, log, a + b) ==
      if Run(respond, log, a).failure.Some? then Run(respond, log, a)
      else Run(respond, Run(respond, log, a).log, b)
    decreases |a|
  {
    if a != [] {
      assert (a + b)[0] == a[0];
      assert (a + b)[1..] == a[1..] + b;
      var reply := respond(log, a[0]);
      if reply >= 0 {
        RunAppend(respond, log + [Event(a[0], reply)], a[1..], b);
      }
    } else {
      assert a + b == b;
    }
  }

  /** Extending a run that has not failed: the next calls continue from its log, and
      once they fail, nothing later in `all` is sent. */
  lemma RunThen(respond: Responder, log: seq<Event>, done: seq<Request>, next: seq<Request>, all: seq<Request>)
    requires Run(respond, log, done).failure.None?
    requires done + next <= all
    ensures Run(respond, log, done + next) == Run(respond, Run(respond, log, done).log, next)
    ensures Run(respond, log, done + next).failure.Some? ==> Run(respond, log, all) == Run(respond, log, done + next)
  {
    RunAppend(respond, log, done, next);
    var rest := all[|done + next|..];
    assert all == (done + next) + rest;
    RunAppend(respond, log, done + next, rest);
  }

  /** The result a wrapper returns for a run: `Ok(())`, or the first failure as a daemon error. */
  function Status(o: Outcome): (r: Result<Unit, Error>)
    ensures r.Ok? <==> o.failure.None?
    ensures r.Err? ==> r.error == Pi(o.failure.value)
  {
    match o.failure
    case None => Ok(Unit)
    case Some(code) => Err(Pi(code))
  }

  /** The rule every daemon wrapper follows: a negative reply is the error `Pi(reply)`,
      any other reply is the success value. */
  function Check(reply: i32): (r: Result<nat, Error>)
    ensures r.Ok? <==> reply >= 0
    ensures r.Ok? ==> r.value == reply
    ensures r.Err? ==> r.error == Pi(reply)
  {
    if reply < 0 then Err(Pi(reply)) else Ok(reply)
  }

  /** A one-call run succeeds exactly when the wrapper's check does. */
  lemma StatusOfOneCall(respond: Responder, log: seq<Event>, request: Request)
    ensures var reply := respond(log, request);
      && Run(respond, log, [request]) == Outcome(log + [Event(request, reply)], if reply < 0 then Some(reply) else None)
      && (Status(Run(respond, log, [request])).Ok? <==> Check(reply).Ok?)
  {
    assert [request][1..] == [];
  }

  // ---------------------------------------------------------------
  // The connection typestate
  // ---------------------------------------------------------------

  /** `Pi<Uninit<A, P>>`: an address and a port, each either given or not. */
  datatype Uninit = Uninit(addr: Option<string>, port: Option<string>)

  /** `Pi::new()` (and `Default`): neither address nor port. */
  function NewUninit(): (u: Uninit)
    ensures u.addr.None? && u.port.None?
  {
    Uninit(None, None)
  }

  /** `Pi::addr`: replaces the address and keeps the port. */
  function WithAddr(u: Uninit, addr: string): (r: Uninit)
    ensures r.addr == Some(addr) && r.port == u.port
  {
    u.(addr := Some(addr))
  }

  /** `Pi::port`: replaces the port and keeps the address. */
  function WithPort(u: Uninit, port: string): (r: Uninit)
    ensures r.port == Some(port) && r.addr == u.addr
  {
    u.(port := Some(port))
  }

  /** The two setters touch different fields, and a later call of one overrides an earlier one. */
  lemma SettersCommute(u: Uninit, addr: string, port: string, addr2: string)
    ensures WithPort(WithAddr(u, addr), port) == WithAddr(WithPort(u, port), addr)
    ensures WithAddr(WithAddr(u, addr), addr2) == WithAddr(u, addr2)
  {
  }

  predicate HasNul(s: string) { '\0' in s }

  /** What `CString::new` finds before the connect call: a NUL in the address, then in the port. */
  function ConnectPrecheck(u: Uninit): (r: Option<Error>)
    ensures r.Some? ==> r.value == Other(NulError)
    ensures r.None? <==> !(u.addr.Some? && HasNul(u.addr.value)) && !(u.port.Some? && HasNul(u.port.value))
  {
    if u.addr.Some? && HasNul(u.addr.value) then Some(Other(NulError))
    else if u.port.Some? && HasNul(u.port.value) then Some(Other(NulError))
    else None
  }

  /** `Pi<Init>`: a live session, identified by the non-negative handle `pigpio_start` returned. */
  class Pi {
    const daemon: Daemon
    const handle: nat

    constructor (daemon: Daemon, handle: nat)
      ensures this.daemon == daemon && this.handle == handle
    {
      this.daemon := daemon;
      this.handle := handle;
    }

    /** `set_mode`. */
    method SetMode(gpio: Gpio, mode: Mode) returns (r: Result<Unit, Error>)
      modifies daemon
      ensures var o := Run(daemon.respond, old(daemon.log), [Request.SetMode(gpio, mode)]);
        daemon.log == o.log && r == Status(o)
    {
      var reply := daemon.Call(Request.SetMode(gpio, mode));
      StatusOfOneCall(daemon.respond, old(daemon.log), Request.SetMode(gpio, mode));
      if reply < 0 {
        return Err(Pi(reply));
      }
      return Ok(Unit);
    }

    /** `gpio_write`. */
    method GpioWrite(gpio: Gpio, level: Level) returns (r: Result<Unit, Error>)
      modifies daemon
      ensures var o := Run(daemon.respond, old(daemon.log), [Request.GpioWrite(gpio, level)]);
        daemon.log == o.log && r == Status(o)
    {
      var reply := daemon.Call(Request.GpioWrite(gpio, level));
      StatusOfOneCall(daemon.respond, old(daemon.log), Request.GpioWrite(gpio, level));
      if reply < 0 {
        return Err(Pi(reply));
      }
      return Ok(Unit);
    }

    /** `file_open`: a path holding a NUL fails before any call; otherwise the handle
        is the non-negative reply. */
    method FileOpen(path: string, mode: FileMode) returns (r: Result<u32, Error>)
      modifies daemon
      ensures HasNul(path) ==> r == Err(Other(NulError)) && daemon.log == old(daemon.log)
      ensures !HasNul(path) ==>
        var reply := daemon.respond(old(daemon.log), Request.FileOpen(path, mode));
        && daemon.log == old(daemon.log) + [Event(Request.FileOpen(path, mode), reply)]
        && r == (if reply < 0 then Err(Pi(reply)) else Ok(reply))
    {
      if HasNul(path) {
        return Err(Other(NulError));
      }
      var reply := daemon.Call(Request.FileOpen(path, mode));
      if reply < 0 {
        return Err(Pi(reply));
      }
      return Ok(reply);
    }

    /** `file_read` into a buffer of `bufLen` bytes: the count is the non-negative reply. */
    method FileRead(handle: u32, bufLen: nat) returns (r: Result<nat, Error>)
      modifies daemon
      ensures var reply := daemon.respond(old(daemon.log), Request.FileRead(handle, AsU32(bufLen)));
        && daemon.log == old(daemon.log) + [Event(Request.FileRead(handle, AsU32(bufLen)), reply)]
        && r == Check(reply)
    {
      var reply := daemon.Call(Request.FileRead(handle, AsU32(bufLen)));
      if reply < 0 {
        return Err(Pi(reply));
      }
      return Ok(reply);
    }

    /** `file_close`: the reply is ignored. */
    method FileClose(handle: u32)
      modifies daemon
      ensures daemon.log == old(daemon.log) + [Event(Request.FileClose(handle), daemon.respond(old(daemon.log), Request.FileClose(handle)))]
    {
      var _ := daemon.Call(Request.FileClose(handle));
    }

    /** `Drop for Init`: `pigpio_stop` ends the session. */
    method Stop()
      modifies daemon
      ensures daemon.log == old(daemon.log) + [Event(Request.Stop, daemon.respond(old(daemon.log), Request.Stop))]
    {
      var _ := daemon.Call(Request.Stop);
    }
  }

  /** `connect`, all four typestate variants: a NUL in a given address or port fails
      before any call; otherwise `pigpio_start` is sent with an absent field as null,
      and a negative reply is the error while any other is the session handle. */
  method Connect(u: Uninit, daemon: Daemon) returns (r: Result<Pi, Error>)
    modifies daemon
    ensures ConnectPrecheck(u).Some? ==> r == Err(ConnectPrecheck(u).value) && daemon.log == old(daemon.log)
    ensures ConnectPrecheck(u).None? ==>
      var reply := daemon.respond(old(daemon.log), Start(u.addr, u.port));
      && daemon.log == old(daemon.log) + [Event(Start(u.addr, u.port), reply)]
      && (r.Err? <==> reply < 0)
      && (r.Err? ==> r.error == Pi(reply))
      && (r.Ok? ==> fresh(r.value) && r.value.daemon == daemon && r.value.handle == reply)
  {
    var pre := ConnectPrecheck(u);
    if pre.Some? {
      return Err(pre.value);
    }
    var reply := daemon.Call(Start(u.addr, u.port));
    if reply < 0 {
      return Err(Pi(reply));
    }
    var pi := new Pi(daemon, reply);
    return Ok(pi);
  }

  /** `Pi::try_with_addr`. */
  method TryWithAddr(addr: string, daemon: Daemon) returns (r: Result<Pi, Error>)
    modifies daemon
    ensures HasNul(addr) ==> r == Err(Other(NulError)) && daemon.log == old(daemon.log)
    ensures !HasNul(addr) ==>
      var reply := daemon.respond(old(daemon.log), Start(Some(addr), None));
      && daemon.log == old(daemon.log) + [Event(Start(Some(addr), None), reply)]
      && (r.Err? <==> reply < 0)
      && (r.Err? ==> r.error == Pi(reply))
      && (r.Ok? ==> fresh(r.value) && r.value.daemon == daemon && r.value.handle == reply)
  {
    r := Connect(WithAddr(NewUninit(), addr), daemon);
  }

  /** `Pi::try_with_addr_and_port`. */
  method TryWithAddrAndPort(addr: string, port: string, daemon: Daemon) returns (r: Result<Pi, Error>)
    modifies daemon
    ensures (HasNul(addr) || HasNul(port)) ==> r == Err(Other(NulError)) && daemon.log == old(daemon.log)
    ensures !HasNul(addr) && !HasNul(port) ==>
      var reply := daemon.respond(old(daemon.log), Start(Some(addr), Some(port)));
      && daemon.log == old(daemon.log) + [Event(Start(Some(addr), Some(port)), reply)]
      && (r.Err? <==> reply < 0)
      && (r.Err? ==> r.error == Pi(reply))
      && (r.Ok? ==> fresh(r.value) && r.value.daemon == daemon && r.value.handle == reply)
  {
    r := Connect(WithPort(WithAddr(NewUninit(), addr), port), daemon);
  }

  // ---------------------------------------------------------------
  // Remote files
  // ---------------------------------------------------------------

  /** The conversions `?` applies on the way through `io::Read`: an error of this layer
      becomes `io::Error::other`, and that becomes `Error::other` again. */
  function IoWrap(e: Error): (r: IoError)
    ensures r.inner == e
  {
    IoOther(e)
  }

  function FromIo(e: IoError): (r: Error)
    ensures r.Other? && r.cause == Io(e)
  {
    Other(Io(e))
  }

  /** `File`: a file opened on the daemon, closed by `drop`. */
  class File {
    const pi: Pi
    const handle: u32

    constructor (pi: Pi, handle: u32)
      ensures this.pi == pi && this.handle == handle
    {
      this.pi := pi;
      this.handle := handle;
    }

    /** `File::open`: the file exists only if the daemon opened it. */
    static method Open(pi: Pi, path: string, mode: FileMode) returns (r: Result<File, Error>)
      modifies pi.daemon
      ensures HasNul(path) ==> r == Err(Other(NulError)) && pi.daemon.log == old(pi.daemon.log)
      ensures !HasNul(path) ==>
        var reply := pi.daemon.respond(old(pi.daemon.log), Request.FileOpen(path, mode));
        && pi.daemon.log == old(pi.daemon.log) + [Event(Request.FileOpen(path, mode), reply)]
        && (r.Err? <==> reply < 0)
        && (r.Err? ==> r.error == Pi(reply))
        && (r.Ok? ==> fresh(r.value) && r.value.pi == pi && r.value.handle == reply)
    {
      var h := pi.FileOpen(path, mode);
      if h.Err? {
        return Err(h.error);
      }
      var file := new File(pi, h.value);
      return Ok(file);
    }

    /** `<File as io::Read>::read` into a buffer of `bufLen` bytes. */
    method Read(bufLen: nat) returns (r: Result<nat, IoError>)
      modifies pi.daemon
      ensures var reply := pi.daemon.respond(old(pi.daemon.log), Request.FileRead(handle, AsU32(bufLen)));
        && pi.daemon.log == old(pi.daemon.log) + [Event(Request.FileRead(handle, AsU32(bufLen)), reply)]
        && (r.Ok? <==> reply >= 0)
        && (r.Ok? ==> r.value == reply)
        && (r.Err? ==> r.error == IoOther(Pi(reply)))
    {
      var n := pi.FileRead(handle, bufLen);
      if n.Err? {
        return Err(IoWrap(n.error));
      }
      return Ok(n.value);
    }

    /** `Drop for File`, which is also all `File::close` does. */
    method Close()
      modifies pi.daemon
      ensures pi.daemon.log == old(pi.daemon.log) + [Event(Request.FileClose(handle), pi.daemon.respond(old(pi.daemon.log), Request.FileClose(handle)))]
    {
      pi.FileClose(handle);
    }
  }

  /** Where reading a remote file got to: the log, and the verdict, absent while the
      model has stopped following a file that is still being read. */
  datatype ReadOutcome = ReadOutcome(log: seq<Event>, result: Option<Result<nat, Error>>)

  /** The loop of `io::Read::read_to_string` over an open file, with at most `fuel`
      reads: read until the daemon reports the end (a count of 0) or fails, adding up
      the bytes read after `total`. */
  function ReadLoop(respond: Responder, log: seq<Event>, handle: u32, count: u32, total: nat, fuel: nat): (o: ReadOutcome)
    ensures |o.log| >= |log| && o.log[..|log|] == log
    ensures o.result.None? ==> |o.log| == |log| + fuel
    decreases fuel
  {
    if fuel == 0 then ReadOutcome(log, None)
    else
      var reply := respond(log, FileRead(handle, count));
      var next := log + [Event(FileRead(handle, count), reply)];
      if reply < 0 then ReadOutcome(next, Some(Err(FromIo(IoWrap(Pi(reply))))))
      else if reply == 0 then ReadOutcome(next, Some(Ok(total)))
      else
        var o := ReadLoop(respond, next, handle, count, total + reply, fuel - 1);
        assert o.log[..|next|] == next;
        assert next[..|log|] == log;
        o
  }

  /** The whole of `read_to_string`, with buffers of `chunk` bytes: open in read mode,
      read to the end, then drop (close) the file. */
  function ReadToStringSpec(respond: Responder, log: seq<Event>, path: string, chunk: nat, maxReads: nat): ReadOutcome
  {
    if HasNul(path) then ReadOutcome(log, Some(Err(Other(NulError))))
    else
      var reply := respond(log, FileOpen(path, Read));
      var afterOpen := log + [Event(FileOpen(path, Read), reply)];
      if reply < 0 then ReadOutcome(afterOpen, Some(Err(Pi(reply))))
      else
        var o := ReadLoop(respond, afterOpen, reply, AsU32(chunk), 0, maxReads);
        if o.result.None? then o
        else ReadOutcome(o.log + [Event(FileClose(reply), respond(o.log, FileClose(reply)))], o.result)
  }

  /** `read_to_string`: the number of bytes the file held, or the first error. */
  method ReadToString(pi: Pi, path: string, chunk: nat, maxReads: nat) returns (r: Option<Result<nat, Error>>)
    modifies pi.daemon
    ensures var o := ReadToStringSpec(pi.daemon.respond, old(pi.daemon.log), path, chunk, maxReads);
      pi.daemon.log == o.log && r == o.result
  {
    var openResult := File.Open(pi, path, Read);
    if openResult.Err? {
      return Some(Err(openResult.error));
    }
    var file := openResult.value;
    var total := 0;
    var fuel := maxReads;
    ghost var start := pi.daemon.log;
    while fuel > 0
      invariant ReadLoop(pi.daemon.respond, pi.daemon.log, file.handle, AsU32(chunk), total, fuel)
        == ReadLoop(pi.daemon.respond, start, file.handle, AsU32(chunk), 0, maxReads)
      decreases fuel
    {
      var n := file.Read(chunk);
      if n.Err? {
        file.Close();
        return Some(Err(FromIo(n.error)));
      }
      if n.value == 0 {
        file.Close();
        return Some(Ok(total));
      }
      total := total + n.value;
      fuel := fuel - 1;
    }
    return None;
  }

  /** The sum of the replies of a list of events. */
  function ReplySum(events: seq<Event>): int
  {
    if events == [] then 0 else events[0].reply + ReplySum(events[1..])
  }

  /** One turn of the read loop: a read is logged; data continues the loop from the
      new log, anything else ends it with that one event added. */
  lemma ReadLoopStep(respond: Responder, log: seq<Event>, handle: u32, count: u32, total: nat, fuel: nat)
    requires fuel > 0
    ensures var reply := respond(log, FileRead(handle, count));
      var e := Event(FileRead(handle, count), reply);
      var o := ReadLoop(respond, log, handle, count, total, fuel);
      && (reply <= 0 ==> o.log == log + [e])
      && (reply < 0 ==> o.result == Some(Err(FromIo(IoWrap(Pi(reply))))))
      && (reply == 0 ==> o.result == Some(Ok(total)))
      && (reply > 0 ==> o == ReadLoop(respond, log + [e], handle, count, total + reply, fuel - 1))
  {
  }

  /** The read loop sends only reads of its one file, and keeps going only while the
      daemon returns data. */
  lemma {:induction false} ReadLoopSendsReads(respond: Responder, log: seq<Event>, handle: u32, count: u32, total: nat, fuel: nat)
    ensures var o := ReadLoop(respond, log, handle, count, total, fuel);
      && (forall i | |log| <= i < |o.log| :: o.log[i].request == FileRead(handle, count))
      && (forall i | |log| <= i < |o.log| - 1 :: o.log[i].reply > 0)
    decreases fuel
  {
    if fuel > 0 {
      var reply := respond(log, FileRead(handle, count));
      var next := log + [Event(FileRead(handle, count), reply)];
      ReadLoopStep(respond, log, handle, count, total, fuel);
      if reply > 0 {
        var rest := ReadLoop(respond, next, handle, count, total + reply, fuel - 1);
        ReadLoopSendsReads(respond, next, handle, count, total + reply, fuel - 1);
        assert rest.log[|log|] == next[|log|] by {
          assert rest.log[..|next|] == next;
        }
      }
    }
  }

  /** The read loop ends with the end-of-file count 0, and its verdict is then success,
      or with the first failure, and its verdict is then that failure. */
  lemma {:induction false} ReadLoopVerdict(respond: Responder, log: seq<Event>, handle: u32, count: u32, total: nat, fuel: nat)
    ensures var o := ReadLoop(respond, log, handle, count, total, fuel);
      && (o.result.Some? ==> |o.log| > |log|)
      && (o.result.Some? && o.result.value.Ok? ==> o.log[|o.log| - 1].reply == 0)
      && (o.result.Some? && o.result.value.Err? ==>
            o.log[|o.log| - 1].reply < 0 && o.result.value.error == Other(Io(IoOther(Pi(o.log[|o.log| - 1].reply)))))
    decreases fuel
  {
    if fuel > 0 {
      var reply := respond(log, FileRead(handle, count));
      var next := log + [Event(FileRead(handle, count), reply)];
      ReadLoopStep(respond, log, handle, count, total, fuel);
      if reply > 0 {
        ReadLoopVerdict(respond, next, handle, count, total + reply, fuel - 1);
      }
    }
  }

  /** A successful read loop's count is `total` plus the counts the reads returned. */
  lemma {:induction false} ReadLoopCounts(respond: Responder, log: seq<Event>, handle: u32, count: u32, total: nat, fuel: nat)
    ensures var o := ReadLoop(respond, log, handle, count, total, fuel);
      o.result.Some? && o.result.value.Ok? ==> o.result.value.value == total + ReplySum(o.log[|log|..])
    decreases fuel
  {
    if fuel > 0 {
      var reply := respond(log, FileRead(handle, count));
      var e := Event(FileRead(handle, count), reply);
      var next := log + [e];
      ReadLoopStep(respond, log, handle, count, total, fuel);
      if reply > 0 {
        var rest := ReadLoop(respond, next, handle, count, total + reply, fuel - 1);
        ReadLoopCounts(respond, next, handle, count, total + reply, fuel - 1);
        var added := rest.log[|log|..];
        assert added[0] == e && added[1..] == rest.log[|next|..] by {
          assert rest.log[..|next|] == next;
        }
      } else if reply == 0 {
        assert ReplySum([e]) == reply + ReplySum([]);
      }
    }
  }

  /** `read_to_string` starts by opening the path, once and in read mode; a path that
      holds a NUL is refused before any call, and a failed open is its only call. */
  lemma ReadToStringOpensFirst(respond: Responder, log: seq<Event>, path: string, chunk: nat, maxReads: nat)
    ensures var o := ReadToStringSpec(respond, log, path, chunk, maxReads); var added := o.log[|log|..];
      && |o.log| >= |log| && o.log[..|log|] == log
      && (HasNul(path) ==> added == [] && o.result == Some(Err(Other(NulError))))
      && (!HasNul(path) ==> |added| > 0 && added[0] == Event(FileOpen(path, Read), respond(log, FileOpen(path, Read))))
      && (!HasNul(path) && added[0].reply < 0 ==> |added| == 1 && o.result == Some(Err(Pi(added[0].reply))))
  {
    if !HasNul(path) {
      var reply := respond(log, FileOpen(path, Read));
      var afterOpen := log + [Event(FileOpen(path, Read), reply)];
      if reply >= 0 {
        var l := ReadLoop(respond, afterOpen, reply, AsU32(chunk), 0, maxReads);
        assert l.log[..|afterOpen|] == afterOpen;
        assert l.log[|log|] == afterOpen[|log|];
      }
    }
  }

  /** Once the file is open, the log of `read_to_string` is the open, the read loop's
      events, and the close once the loop has a verdict. */
  lemma ReadToStringLog(respond: Responder, log: seq<Event>, path: string, chunk: nat, maxReads: nat)
    requires !HasNul(path) && respond(log, FileOpen(path, Read)) >= 0
    ensures var reply := respond(log, FileOpen(path, Read));
      var afterOpen := log + [Event(FileOpen(path, Read), reply)];
      var l := ReadLoop(respond, afterOpen, reply, AsU32(chunk), 0, maxReads);
      var o := ReadToStringSpec(respond, log, path, chunk, maxReads);
      && o.result == l.result
      && (l.result.None? ==> o.log[|log|..] == [Event(FileOpen(path, Read), reply)] + l.log[|afterOpen|..])
      && (l.result.Some? ==>
            o.log[|log|..] == [Event(FileOpen(path, Read), reply)] + l.log[|afterOpen|..]
              + [Event(FileClose(reply), respond(l.log, FileClose(reply)))])
  {
    var reply := respond(log, FileOpen(path, Read));
    var afterOpen := log + [Event(FileOpen(path, Read), reply)];
    var l := ReadLoop(respond, afterOpen, reply, AsU32(chunk), 0, maxReads);
    assert l.log == log + [Event(FileOpen(path, Read), reply)] + l.log[|afterOpen|..] by {
      assert l.log[..|afterOpen|] == afterOpen;
    }
  }

  /** The events the read loop adds: reads of its file, at least one once there is a
      verdict, and on success the bytes they returned add up to the count. */
  lemma ReadLoopBody(respond: Responder, log: seq<Event>, handle: u32, count: u32, fuel: nat)
    ensures var o := ReadLoop(respond, log, handle, count, 0, fuel); var body := o.log[|log|..];
      && (forall k | 0 <= k < |body| :: body[k].request == FileRead(handle, count))
      && (o.result.Some? ==> |body| > 0)
      && (o.result.Some? && o.result.value.Ok? ==> o.result.value.value == ReplySum(body))
  {
    var o := ReadLoop(respond, log, handle, count, 0, fuel);
    var body := o.log[|log|..];
    ReadLoopSendsReads(respond, log, handle, count, 0, fuel);
    ReadLoopVerdict(respond, log, handle, count, 0, fuel);
    ReadLoopCounts(respond, log, handle, count, 0, fuel);
    assert forall k | 0 <= k < |body| :: body[k] == o.log[|log| + k];
  }

  /** The open, then reads of one file, then at most its close: only the first call is
      not a read or the close, and the close comes last. */
  lemma EnclosedReads(first: Event, body: seq<Event>, tail: seq<Event>, handle: u32, count: u32)
    requires !first.request.FileClose?
    requires forall i | 0 <= i < |body| :: body[i].request == FileRead(handle, count)
    requires |tail| <= 1 && forall k | 0 <= k < |tail| :: tail[k].request == FileClose(handle)
    ensures var added := [first] + body + tail;
      && (forall i | 1 <= i < |added| :: added[i].request == FileRead(handle, count) || added[i].request == FileClose(handle))
      && (forall i | 0 <= i < |added| - 1 :: !added[i].request.FileClose?)
      && (tail != [] ==> added[|added| - 1].request == FileClose(handle) && added[1..|added| - 1] == body)
  {
    var added := [first] + body + tail;
    assert forall i | 1 <= i < 1 + |body| :: added[i] == body[i - 1];
    assert forall i | 1 + |body| <= i < |added| :: added[i] == tail[i - 1 - |body|];
    if tail != [] {
      assert added[1..|added| - 1] == body;
    }
  }

  /** Once the file is open, `read_to_string` reads and closes only that handle; once it
      has a verdict it has closed the file exactly once, as its last call, after at
      least one read; and a successful verdict is the sum of the counts the reads
      returned. */
  lemma ReadToStringClosesOnce(respond: Responder, log: seq<Event>, path: string, chunk: nat, maxReads: nat)
    requires !HasNul(path) && respond(log, FileOpen(path, Read)) >= 0
    ensures var o := ReadToStringSpec(respond, log, path, chunk, maxReads); var added := o.log[|log|..];
      var h := respond(log, FileOpen(path, Read)) as u32;
      && |added| > 0
      && (forall i | 1 <= i < |added| :: added[i].request == FileRead(h, AsU32(chunk)) || added[i].request == FileClose(h))
      && (forall i | 0 <= i < |added| - 1 :: !added[i].request.FileClose?)
      && (o.result.Some? ==> |added| >= 3 && added[|added| - 1].request == FileClose(h))
      && (o.result.Some? && o.result.value.Ok? ==> o.result.value.value == ReplySum(added[1..|added| - 1]))
  {
    var reply := respond(log, FileOpen(path, Read));
    var afterOpen := log + [Event(FileOpen(path, Read), reply)];
    var l := ReadLoop(respond, afterOpen, reply, AsU32(chunk), 0, maxReads);
    var first := Event(FileOpen(path, Read), reply);
    var body := l.log[|afterOpen|..];
    ReadToStringLog(respond, log, path, chunk, maxReads);
    ReadLoopBody(respond, afterOpen, reply, AsU32(chunk), maxReads);
    if l.result.Some? {
      EnclosedReads(first, body, [Event(FileClose(reply), respond(l.log, FileClose(reply)))], reply, AsU32(chunk));
    } else {
      EnclosedReads(first, body, [], reply, AsU32(chunk));
      assert [first] + body + [] == [first] + body;
    }
  }
}
