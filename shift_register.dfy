/** A chain of `n` 74HC595-style 8-bit shift registers driven over three pins of the
    remote daemon (src/shift_register.rs): the data pin DS, the shift clock SH_CP and
    the storage (latch) clock ST_CP.

    Each operation is specified by the list of daemon calls it issues (run with
    `Remote.Run`, so that it stops at the first failing call), and those lists are given
    a meaning by a model of the chip: a rising edge on SH_CP shifts in the level on DS,
    a rising edge on ST_CP copies the shifted bits to the outputs. */
module ShiftRegisters {
  import opened Wrappers
  import opened CTypes
  import opened Remote

  // ---------------------------------------------------------------
  // Bits of a byte
  // ---------------------------------------------------------------

  /** Bit `i` of `byte`, as `(byte >> i) & MASK == 1` tests it. */
  predicate Bit(byte: bv8, i: nat)
    requires i < 8
  {
    (byte >> i) & 1 == 1
  }

  /** The bits of a byte in the order `push` sends them: most significant first. */
  function Bits(byte: bv8): (bits: seq<bool>)
    ensures |bits| == 8
  {
    seq(8, k requires 0 <= k < 8 => Bit(byte, 7 - k))
  }

  /** What one rising edge of SH_CP does to an 8-bit register with `bit` on DS: every
      bit moves one place up and the new bit enters at the bottom. */
  function ShiftIn(register: bv8, bit: bool): bv8
  {
    (register << 1) | (if bit then 1 else 0)
  }

  /** What a register holds once eight bits have been shifted into it, whatever it held
      before: the first bit ends up at the top. */
  function Pack(bits: seq<bool>): bv8
    requires |bits| == 8
  {
    ShiftIn(ShiftIn(ShiftIn(ShiftIn(ShiftIn(ShiftIn(ShiftIn(ShiftIn(0,
      bits[0]), bits[1]), bits[2]), bits[3]), bits[4]), bits[5]), bits[6]), bits[7])
  }

  /** The bits `push` sends describe the byte exactly: a register that shifts them in
      holds the byte afterwards. */
  lemma BitsRoundTrip(byte: bv8)
    ensures Pack(Bits(byte)) == byte
  {
  }

  /** Two bytes that send the same bits are the same byte. */
  lemma BitsInjective(a: bv8, b: bv8)
    requires Bits(a) == Bits(b)
    ensures a == b
  {
    BitsRoundTrip(a);
    BitsRoundTrip(b);
  }

  // ---------------------------------------------------------------
  // The calls each operation issues
  // ---------------------------------------------------------------

  function LevelOf(bit: bool): (level: Level)
    ensures level == High <==> bit
  {
    if bit then High else Low
  }

  /** `strobe`: pull the pin low, then high, which is one rising edge. */
  function StrobeCalls(gpio: Gpio): (calls: seq<Request>)
    ensures |calls| == 2 && calls[|calls| - 1] == GpioWrite(gpio, High)
  {
    [GpioWrite(gpio, Low), GpioWrite(gpio, High)]
  }

  /** One bit of `push`: put the bit on DS, then `shift`. */
  function BitCalls(ds: Gpio, shCp: Gpio, bit: bool): (calls: seq<Request>)
    ensures |calls| == 3 && calls[0] == GpioWrite(ds, LevelOf(bit))
  {
    [GpioWrite(ds, LevelOf(bit))] + StrobeCalls(shCp)
  }

  /** The bits of `bits`, one after the other. */
  function SendCalls(ds: Gpio, shCp: Gpio, bits: seq<bool>): (calls: seq<Request>)
    ensures |calls| == 3 * |bits|
  {
    if bits == [] then [] else SendCalls(ds, shCp, bits[..|bits| - 1]) + BitCalls(ds, shCp, bits[|bits| - 1])
  }

  /** `push`: the eight bits of the byte, most significant first. */
  function PushCalls(ds: Gpio, shCp: Gpio, byte: bv8): (calls: seq<Request>)
    ensures |calls| == 24
  {
    SendCalls(ds, shCp, Bits(byte))
  }

  /** `push_n`: the bytes in order. */
  function PushNCalls(ds: Gpio, shCp: Gpio, bytes: seq<bv8>): (calls: seq<Request>)
    ensures |calls| == 24 * |bytes|
  {
    if bytes == [] then [] else PushNCalls(ds, shCp, bytes[..|bytes| - 1]) + PushCalls(ds, shCp, bytes[|bytes| - 1])
  }

  /** `build`: the three pins become outputs, DS first, then SH_CP, then ST_CP. */
  function SetupCalls(ds: Gpio, shCp: Gpio, stCp: Gpio): (calls: seq<Request>)
    ensures |calls| == 3
    ensures forall k | 0 <= k < 3 :: calls[k].SetMode? && calls[k].mode == Output
  {
    [SetMode(ds, Output), SetMode(shCp, Output), SetMode(stCp, Output)]
  }

  lemma {:induction false} SendCallsPrefix(ds: Gpio, shCp: Gpio, bits: seq<bool>, k: nat)
    requires k <= |bits|
    ensures SendCalls(ds, shCp, bits[..k]) <= SendCalls(ds, shCp, bits)
    decreases |bits| - k
  {
    if k < |bits| {
      SendCallsPrefix(ds, shCp, bits, k + 1);
      assert bits[..k + 1][..k] == bits[..k];
      assert SendCalls(ds, shCp, bits[..k + 1]) == SendCalls(ds, shCp, bits[..k]) + BitCalls(ds, shCp, bits[k]);
    } else {
      assert bits[..k] == bits;
    }
  }

  lemma {:induction false} PushNCallsPrefix(ds: Gpio, shCp: Gpio, bytes: seq<bv8>, k: nat)
    requires k <= |bytes|
    ensures PushNCalls(ds, shCp, bytes[..k]) <= PushNCalls(ds, shCp, bytes)
    decreases |bytes| - k
  {
    if k < |bytes| {
      PushNCallsPrefix(ds, shCp, bytes, k + 1);
      assert bytes[..k + 1][..k] == bytes[..k];
      assert PushNCalls(ds, shCp, bytes[..k + 1]) == PushNCalls(ds, shCp, bytes[..k]) + PushCalls(ds, shCp, bytes[k]);
    } else {
      assert bytes[..k] == bytes;
    }
  }

  /** `push` and `push_n` only ever write DS and SH_CP. */
  lemma {:induction false} PushNWritesOnlyDataAndClock(ds: Gpio, shCp: Gpio, bytes: seq<bv8>)
    ensures forall k | 0 <= k < |PushNCalls(ds, shCp, bytes)| ::
      PushNCalls(ds, shCp, bytes)[k].GpioWrite? && PushNCalls(ds, shCp, bytes)[k].gpio in {ds, shCp}
    decreases |bytes|
  {
    if bytes != [] {
      PushNWritesOnlyDataAndClock(ds, shCp, bytes[..|bytes| - 1]);
      SendWritesOnlyDataAndClock(ds, shCp, Bits(bytes[|bytes| - 1]));
    }
  }

  lemma {:induction false} SendWritesOnlyDataAndClock(ds: Gpio, shCp: Gpio, bits: seq<bool>)
    ensures forall k | 0 <= k < |SendCalls(ds, shCp, bits)| ::
      SendCalls(ds, shCp, bits)[k].GpioWrite? && SendCalls(ds, shCp, bits)[k].gpio in {ds, shCp}
    decreases |bits|
  {
    if bits != [] {
      SendWritesOnlyDataAndClock(ds, shCp, bits[..|bits| - 1]);
    }
  }

  /** The calls `push` makes for bit `i`, the one it sends once the bits above it are out. */
  lemma PushStep(ds: Gpio, shCp: Gpio, byte: bv8, i: nat)
    requires i < 8
    ensures var bits := Bits(byte); var level := if (byte >> i) & 1 == 1 then High else Low;
      && SendCalls(ds, shCp, bits[..7 - i]) + [GpioWrite(ds, level)] + StrobeCalls(shCp) == SendCalls(ds, shCp, bits[..8 - i])
      && SendCalls(ds, shCp, bits[..7 - i]) + [GpioWrite(ds, level)] <= PushCalls(ds, shCp, byte)
      && SendCalls(ds, shCp, bits[..8 - i]) <= PushCalls(ds, shCp, byte)
  {
    var bits := Bits(byte);
    var level := if (byte >> i) & 1 == 1 then High else Low;
    assert bits[7 - i] == Bit(byte, i);
    NextBitCalls(ds, shCp, bits, 7 - i, level);
    SendCallsPrefix(ds, shCp, bits, 8 - i);
    PrefixOfPrefix(SendCalls(ds, shCp, bits[..7 - i]) + [GpioWrite(ds, level)], StrobeCalls(shCp), PushCalls(ds, shCp, byte));
  }

  lemma PrefixOfPrefix(a: seq<Request>, b: seq<Request>, c: seq<Request>)
    requires a + b <= c
    ensures a <= c
  {
    assert (a + b)[..|a|] == a;
  }

  lemma NextBitCalls(ds: Gpio, shCp: Gpio, bits: seq<bool>, k: nat, level: Level)
    requires k < |bits| && level == LevelOf(bits[k])
    ensures SendCalls(ds, shCp, bits[..k]) + [GpioWrite(ds, level)] + StrobeCalls(shCp) == SendCalls(ds, shCp, bits[..k + 1])
  {
    assert bits[..k + 1][..k] == bits[..k];
  }

  // ---------------------------------------------------------------
  // The chip
  // ---------------------------------------------------------------

  /** Which pins of the daemon the chip's inputs are wired to. */
  datatype Wiring = Wiring(ds: Gpio, shCp: Gpio, stCp: Gpio)

  predicate Distinct(w: Wiring)
  {
    w.ds != w.shCp && w.ds != w.stCp && w.shCp != w.stCp
  }

  /** The levels on the three inputs, every bit shifted in so far (the last `8 * n` of
      them are in the chain), and the bits the outputs show. */
  datatype Chip = Chip(ds: Level, shCp: Level, stCp: Level, shifted: seq<bool>, latched: seq<bool>)

  /** The effect of one accepted write on the chip. */
  function Step(w: Wiring, c: Chip, request: Request): (next: Chip)
    ensures !request.GpioWrite? ==> next == c
    ensures request.GpioWrite? && request.gpio !in {w.ds, w.shCp, w.stCp} ==> next == c
  {
    match request
    case GpioWrite(gpio, level) =>
      var c1 := if gpio == w.ds then c.(ds := level) else c;
      var c2 :=
        if gpio != w.shCp then c1
        else if c1.shCp == Low && level == High then c1.(shCp := level, shifted := c1.shifted + [c1.ds == High])
        else c1.(shCp := level);
      if gpio != w.stCp then c2
      else if c2.stCp == Low && level == High then c2.(stCp := level, latched := c2.shifted)
      else c2.(stCp := level)
    case _ => c
  }

  /** The chip after a list of writes, all accepted. */
  function Apply(w: Wiring, c: Chip, calls: seq<Request>): Chip
  {
    if calls == [] then c else Step(w, Apply(w, c, calls[..|calls| - 1]), calls[|calls| - 1])
  }

  /** The chip after the events of a log: a write the daemon refused changes nothing. */
  function Replay(w: Wiring, c: Chip, events: seq<Event>): Chip
  {
    if events == [] then c
    else
      var before := Replay(w, c, events[..|events| - 1]);
      var e := events[|events| - 1];
      if e.reply < 0 then before else Step(w, before, e.request)
  }

  lemma {:induction false} ApplyAppend(w: Wiring, c: Chip, a: seq<Request>, b: seq<Request>)
    ensures Apply(w, c, a + b) == Apply(w, Apply(w, c, a), b)
    decreases |b|
  {
    if b == [] {
      assert a + b == a;
    } else {
      assert (a + b)[..|a + b| - 1] == a + b[..|b| - 1];
      ApplyAppend(w, c, a, b[..|b| - 1]);
    }
  }

  /** A log in which every call was accepted replays as its requests. */
  lemma {:induction false} ReplayAccepted(w: Wiring, c: Chip, events: seq<Event>)
    requires forall i | 0 <= i < |events| :: events[i].reply >= 0
    ensures Replay(w, c, events) == Apply(w, c, Requests(events))
    decreases |events|
  {
    if events != [] {
      var front := events[..|events| - 1];
      ReplayAccepted(w, c, front);
      assert Requests(events)[..|events| - 1] == Requests(front);
    }
  }

  /** A run that did not fail leaves the chip as if every call had been applied. */
  lemma RunReplay(w: Wiring, c: Chip, respond: Responder, log: seq<Event>, calls: seq<Request>)
    requires Run(respond, log, calls).failure.None?
    ensures Replay(w, c, Run(respond, log, calls).log[|log|..]) == Apply(w, c, calls)
  {
    var added := Run(respond, log, calls).log[|log|..];
    RunAccepted(respond, log, calls);
    ReplayAccepted(w, c, added);
  }

  /** Sending a bit shifts exactly that bit in and leaves the outputs alone; SH_CP ends
      high. This holds whatever levels the pins had before, because the strobe first
      pulls SH_CP low. */
  lemma SendBit(w: Wiring, c: Chip, bit: bool)
    requires Distinct(w)
    ensures var next := Apply(w, c, BitCalls(w.ds, w.shCp, bit));
      next.shifted == c.shifted + [bit] && next.latched == c.latched && next.stCp == c.stCp
  {
    var calls := BitCalls(w.ds, w.shCp, bit);
    var c1 := Step(w, c, GpioWrite(w.ds, LevelOf(bit)));
    var c2 := Step(w, c1, GpioWrite(w.shCp, Low));
    var c3 := Step(w, c2, GpioWrite(w.shCp, High));
    assert Apply(w, c, calls[..1]) == c1 by {
      assert calls[..1][..0] == [];
    }
    assert Apply(w, c, calls[..2]) == c2 by {
      assert calls[..2][..1] == calls[..1];
    }
    assert Apply(w, c, calls) == c3 by {
      assert calls[..2] == calls[..|calls| - 1];
    }
  }

  /** Sending a list of bits shifts them in, in order, and leaves the outputs alone. */
  lemma {:induction false} SendShiftsIn(w: Wiring, c: Chip, bits: seq<bool>)
    requires Distinct(w)
    ensures var next := Apply(w, c, SendCalls(w.ds, w.shCp, bits));
      next.shifted == c.shifted + bits && next.latched == c.latched && next.stCp == c.stCp
    decreases |bits|
  {
    if bits != [] {
      var front := bits[..|bits| - 1];
      SendShiftsIn(w, c, front);
      var mid := Apply(w, c, SendCalls(w.ds, w.shCp, front));
      ApplyAppend(w, c, SendCalls(w.ds, w.shCp, front), BitCalls(w.ds, w.shCp, bits[|bits| - 1]));
      SendBit(w, mid, bits[|bits| - 1]);
      assert front + [bits[|bits| - 1]] == bits;
    }
  }

  /** The bits of a list of bytes, in the order `push_n` sends them. */
  function BytesBits(bytes: seq<bv8>): (bits: seq<bool>)
    ensures |bits| == 8 * |bytes|
  {
    if bytes == [] then [] else BytesBits(bytes[..|bytes| - 1]) + Bits(bytes[|bytes| - 1])
  }

  /** `push_n` shifts in the bits of every byte, in order, and leaves the outputs alone. */
  lemma {:induction false} PushNShiftsIn(w: Wiring, c: Chip, bytes: seq<bv8>)
    requires Distinct(w)
    ensures var next := Apply(w, c, PushNCalls(w.ds, w.shCp, bytes));
      next.shifted == c.shifted + BytesBits(bytes) && next.latched == c.latched && next.stCp == c.stCp
    decreases |bytes|
  {
    if bytes != [] {
      var front := bytes[..|bytes| - 1];
      var last := bytes[|bytes| - 1];
      PushNShiftsIn(w, c, front);
      var mid := Apply(w, c, PushNCalls(w.ds, w.shCp, front));
      ApplyAppend(w, c, PushNCalls(w.ds, w.shCp, front), PushCalls(w.ds, w.shCp, last));
      SendShiftsIn(w, mid, Bits(last));
    }
  }

  /** `save` copies the shifted bits to the outputs and shifts nothing. */
  lemma SaveLatches(w: Wiring, c: Chip)
    requires Distinct(w)
    ensures var next := Apply(w, c, StrobeCalls(w.stCp));
      next.latched == c.shifted && next.shifted == c.shifted
  {
    var calls := StrobeCalls(w.stCp);
    var c1 := Step(w, c, GpioWrite(w.stCp, Low));
    var c2 := Step(w, c1, GpioWrite(w.stCp, High));
    assert Apply(w, c, calls[..1]) == c1 by {
      assert calls[..1][..0] == [];
    }
    assert Apply(w, c, calls) == c2 by {
      assert calls[..1] == calls[..|calls| - 1];
    }
  }

  /** Pushing `n` bytes and saving puts the bytes on the chain's outputs: the last
      `8 * n` latched bits are the bytes' bits, the first byte pushed in the register
      farthest along the chain. */
  lemma PushNThenSaveShows(w: Wiring, c: Chip, bytes: seq<bv8>)
    requires Distinct(w)
    ensures var next := Apply(w, c, PushNCalls(w.ds, w.shCp, bytes) + StrobeCalls(w.stCp));
      var out := next.latched;
      |out| >= 8 * |bytes| && out[|out| - 8 * |bytes|..] == BytesBits(bytes)
  {
    ApplyAppend(w, c, PushNCalls(w.ds, w.shCp, bytes), StrobeCalls(w.stCp));
    PushNShiftsIn(w, c, bytes);
    SaveLatches(w, Apply(w, c, PushNCalls(w.ds, w.shCp, bytes)));
  }

  /** Byte `j` of a list occupies bits `8 * j` to `8 * j + 8` of its bits. */
  lemma {:induction false} BytesBitsSlice(bytes: seq<bv8>, j: nat)
    requires j < |bytes|
    ensures BytesBits(bytes)[8 * j..8 * j + 8] == Bits(bytes[j])
    decreases |bytes|
  {
    var front := bytes[..|bytes| - 1];
    if j < |bytes| - 1 {
      BytesBitsSlice(front, j);
      assert 8 * j + 8 <= 8 * |front|;
      assert BytesBits(bytes)[..8 * |front|] == BytesBits(front);
    } else {
      assert 8 * j == |BytesBits(front)|;
    }
  }

  /** After `push_n` and `save`, register `j` of the chain holds byte `j`: the eight
      latched bits that belong to it pack to that byte. */
  lemma PushNThenSaveLoadsRegisters(w: Wiring, c: Chip, bytes: seq<bv8>, j: nat)
    requires Distinct(w) && j < |bytes|
    ensures var out := Apply(w, c, PushNCalls(w.ds, w.shCp, bytes) + StrobeCalls(w.stCp)).latched;
      var start := |out| - 8 * |bytes|;
      start >= 0 && Pack(out[start + 8 * j..start + 8 * j + 8]) == bytes[j]
  {
    var next := Apply(w, c, PushNCalls(w.ds, w.shCp, bytes) + StrobeCalls(w.stCp));
    PushNThenSaveShows(w, c, bytes);
    RegisterHolds(next.latched, bytes, j);
  }

  /** Outputs that end in the bits of `bytes` hold byte `j` in register `j`. */
  lemma RegisterHolds(out: seq<bool>, bytes: seq<bv8>, j: nat)
    requires j < |bytes| && |out| >= 8 * |bytes| && out[|out| - 8 * |bytes|..] == BytesBits(bytes)
    ensures var start := |out| - 8 * |bytes|; Pack(out[start + 8 * j..start + 8 * j + 8]) == bytes[j]
  {
    var start := |out| - 8 * |bytes|;
    RegisterBits(out, bytes, j);
    BitsRoundTrip(bytes[j]);
    assert out[start + 8 * j..start + 8 * j + 8] == Bits(bytes[j]);
  }

  lemma RegisterBits(out: seq<bool>, bytes: seq<bv8>, j: nat)
    requires j < |bytes| && |out| >= 8 * |bytes| && out[|out| - 8 * |bytes|..] == BytesBits(bytes)
    ensures var start := |out| - 8 * |bytes|; out[start + 8 * j..start + 8 * j + 8] == Bits(bytes[j])
  {
    var start := |out| - 8 * |bytes|;
    var lo := 8 * j;
    var hi := lo + 8;
    assert hi <= 8 * |bytes|;
    SliceOfSuffix(out, start, lo, hi);
    BytesBitsSlice(bytes, j);
    calc {
      out[start + lo..start + hi];
      out[start..][lo..hi];
      BytesBits(bytes)[lo..hi];
      Bits(bytes[j]);
    }
  }

  lemma SliceOfSuffix(s: seq<bool>, start: nat, lo: nat, hi: nat)
    requires start + hi <= |s| && lo <= hi
    ensures s[start..][lo..hi] == s[start + lo..start + hi]
  {
  }

  /** A `push_n` that succeeded shifted every byte into the chip, in order, and did not
      change what the outputs show. */
  lemma SucceededPushNShiftsIn(w: Wiring, c: Chip, respond: Responder, log: seq<Event>, bytes: seq<bv8>)
    requires Distinct(w)
    requires Run(respond, log, PushNCalls(w.ds, w.shCp, bytes)).failure.None?
    ensures var chip := Replay(w, c, Run(respond, log, PushNCalls(w.ds, w.shCp, bytes)).log[|log|..]);
      chip.shifted == c.shifted + BytesBits(bytes) && chip.latched == c.latched
  {
    RunReplay(w, c, respond, log, PushNCalls(w.ds, w.shCp, bytes));
    PushNShiftsIn(w, c, bytes);
  }

  /** A `save` that succeeded put the shifted bits on the outputs. */
  lemma SucceededSaveLatches(w: Wiring, c: Chip, respond: Responder, log: seq<Event>)
    requires Distinct(w)
    requires Run(respond, log, StrobeCalls(w.stCp)).failure.None?
    ensures var chip := Replay(w, c, Run(respond, log, StrobeCalls(w.stCp)).log[|log|..]);
      chip.latched == c.shifted && chip.shifted == c.shifted
  {
    RunReplay(w, c, respond, log, StrobeCalls(w.stCp));
    SaveLatches(w, c);
  }

  // ---------------------------------------------------------------
  // The builder
  // ---------------------------------------------------------------

  /** `ShiftRegisterBuilder`: the session and the three pins, each set or not yet,
      for a chain of `n` registers. */
  datatype Builder = Builder(n: nat, pi: Option<Pi>, ds: Option<Gpio>, shCp: Option<Gpio>, stCp: Option<Gpio>)

  /** `ShiftRegister::builder`: nothing set yet. */
  function NewBuilder(n: nat): (b: Builder)
    ensures b.n == n && b.pi.None? && b.ds.None? && b.shCp.None? && b.stCp.None?
  {
    Builder(n, None, None, None, None)
  }

  /** `ShiftRegisterBuilder::pi`: sets the session, keeps the rest. */
  function WithPi(b: Builder, pi: Pi): (r: Builder)
    ensures r.pi == Some(pi) && r.n == b.n && r.ds == b.ds && r.shCp == b.shCp && r.stCp == b.stCp
  {
    b.(pi := Some(pi))
  }

  /** `ShiftRegisterBuilder::ds`: sets DS, keeps the rest. */
  function WithDs(b: Builder, ds: Gpio): (r: Builder)
    ensures r.ds == Some(ds) && r.n == b.n && r.pi == b.pi && r.shCp == b.shCp && r.stCp == b.stCp
  {
    b.(ds := Some(ds))
  }

  /** `ShiftRegisterBuilder::sh_cp`: sets SH_CP, keeps the rest. */
  function WithShCp(b: Builder, shCp: Gpio): (r: Builder)
    ensures r.shCp == Some(shCp) && r.n == b.n && r.pi == b.pi && r.ds == b.ds && r.stCp == b.stCp
  {
    b.(shCp := Some(shCp))
  }

  /** `ShiftRegisterBuilder::st_cp`: sets ST_CP, keeps the rest. */
  function WithStCp(b: Builder, stCp: Gpio): (r: Builder)
    ensures r.stCp == Some(stCp) && r.n == b.n && r.pi == b.pi && r.ds == b.ds && r.shCp == b.shCp
  {
    b.(stCp := Some(stCp))
  }

  /** `build` exists only for a builder with everything set. */
  predicate Complete(b: Builder)
  {
    b.pi.Some? && b.ds.Some? && b.shCp.Some? && b.stCp.Some?
  }

  /** The setters can be called in any order: setting all four from any builder gives
      the same complete builder, whichever order is used. */
  lemma SettersAnyOrder(b: Builder, pi: Pi, ds: Gpio, shCp: Gpio, stCp: Gpio)
    ensures var r := WithStCp(WithShCp(WithDs(WithPi(b, pi), ds), shCp), stCp);
      && Complete(r)
      && r == WithPi(WithDs(WithShCp(WithStCp(b, stCp), shCp), ds), pi)
      && r == WithDs(WithPi(WithStCp(WithShCp(b, shCp), stCp), pi), ds)
      && r == Builder(b.n, Some(pi), Some(ds), Some(shCp), Some(stCp))
  {
  }

  /** `ShiftRegister`: the session and the three pins of a chain of `n` registers. */
  class ShiftRegister {
    const pi: Pi
    const ds: Gpio
    const shCp: Gpio
    const stCp: Gpio
    const n: nat

    constructor (pi: Pi, ds: Gpio, shCp: Gpio, stCp: Gpio, n: nat)
      ensures this.pi == pi && this.ds == ds && this.shCp == shCp && this.stCp == stCp && this.n == n
    {
      this.pi := pi;
      this.ds := ds;
      this.shCp := shCp;
      this.stCp := stCp;
      this.n := n;
    }

    /** `strobe`. */
    method Strobe(gpio: Gpio) returns (r: Result<Unit, Error>)
      modifies pi.daemon
      ensures var o := Run(pi.daemon.respond, old(pi.daemon.log), StrobeCalls(gpio));
        pi.daemon.log == o.log && r == Status(o)
    {
      ghost var start := pi.daemon.log;
      ghost var all := StrobeCalls(gpio);
      r := pi.GpioWrite(gpio, Low);
      RunThen(pi.daemon.respond, start, [], [GpioWrite(gpio, Low)], all);
      if r.Err? {
        return;
      }
      r := pi.GpioWrite(gpio, High);
      RunThen(pi.daemon.respond, start, [GpioWrite(gpio, Low)], [GpioWrite(gpio, High)], all);
    }

    /** `shift`: a rising edge on SH_CP. */
    method Shift() returns (r: Result<Unit, Error>)
      modifies pi.daemon
      ensures var o := Run(pi.daemon.respond, old(pi.daemon.log), StrobeCalls(shCp));
        pi.daemon.log == o.log && r == Status(o)
    {
      r := Strobe(shCp);
    }

    /** `save`: a rising edge on ST_CP. */
    method Save() returns (r: Result<Unit, Error>)
      modifies pi.daemon
      ensures var o := Run(pi.daemon.respond, old(pi.daemon.log), StrobeCalls(stCp));
        pi.daemon.log == o.log && r == Status(o)
    {
      r := Strobe(stCp);
    }

    /** `push`: each bit from the most significant down, put on DS and shifted in. */
    method Push(byte: bv8) returns (r: Result<Unit, Error>)
      modifies pi.daemon
      ensures var o := Run(pi.daemon.respond, old(pi.daemon.log), PushCalls(ds, shCp, byte));
        pi.daemon.log == o.log && r == Status(o)
    {
      ghost var start := pi.daemon.log;
      ghost var bits := Bits(byte);
      ghost var all := PushCalls(ds, shCp, byte);
      for i := 8 downto 0
        invariant pi.daemon.log == Run(pi.daemon.respond, start, SendCalls(ds, shCp, bits[..8 - i])).log
        invariant Run(pi.daemon.respond, start, SendCalls(ds, shCp, bits[..8 - i])).failure.None?
      {
        ghost var done := SendCalls(ds, shCp, bits[..7 - i]);
        var level := if (byte >> i) & 1 == 1 then High else Low;
        PushStep(ds, shCp, byte, i);
        r := pi.GpioWrite(ds, level);
        RunThen(pi.daemon.respond, start, done, [GpioWrite(ds, level)], all);
        if r.Err? {
          return;
        }
        r := Shift();
        RunThen(pi.daemon.respond, start, done + [GpioWrite(ds, level)], StrobeCalls(shCp), all);
        if r.Err? {
          return;
        }
      }
      assert bits[..8] == bits;
      return Ok(Unit);
    }

    /** `push_n`: the bytes in order, stopping at the first failure. */
    method PushN(bytes: seq<bv8>) returns (r: Result<Unit, Error>)
      requires |bytes| == n
      modifies pi.daemon
      ensures var o := Run(pi.daemon.respond, old(pi.daemon.log), PushNCalls(ds, shCp, bytes));
        pi.daemon.log == o.log && r == Status(o)
    {
      ghost var start := pi.daemon.log;
      ghost var all := PushNCalls(ds, shCp, bytes);
      for k := 0 to |bytes|
        invariant pi.daemon.log == Run(pi.daemon.respond, start, PushNCalls(ds, shCp, bytes[..k])).log
        invariant Run(pi.daemon.respond, start, PushNCalls(ds, shCp, bytes[..k])).failure.None?
      {
        ghost var done := PushNCalls(ds, shCp, bytes[..k]);
        assert bytes[..k + 1][..k] == bytes[..k];
        PushNCallsPrefix(ds, shCp, bytes, k + 1);
        assert PushNCalls(ds, shCp, bytes[..k + 1]) == done + PushCalls(ds, shCp, bytes[k]);
        r := Push(bytes[k]);
        RunThen(pi.daemon.respond, start, done, PushCalls(ds, shCp, bytes[k]), all);
        if r.Err? {
          return;
        }
      }
      assert bytes[..|bytes|] == bytes;
      return Ok(Unit);
    }

    /** `clear`: pushes `n` zero bytes. It does not latch them. */
    method Clear() returns (r: Result<Unit, Error>)
      modifies pi.daemon
      ensures var o := Run(pi.daemon.respond, old(pi.daemon.log), PushNCalls(ds, shCp, Zeros(n)));
        pi.daemon.log == o.log && r == Status(o)
    {
      r := PushN(Zeros(n));
    }
  }

  /** `[0; N]`. */
  function Zeros(n: nat): (z: seq<bv8>)
    ensures |z| == n && forall k | 0 <= k < n :: z[k] == 0
  {
    seq(n, _ => 0)
  }

  /** What `clear` leaves in the chain: `8 * n` low bits, with the outputs untouched.
      Because the segments of a display are active low, these are all segments lit once
      they are saved. */
  lemma ClearShiftsInZeros(w: Wiring, c: Chip, n: nat)
    requires Distinct(w)
    ensures var next := Apply(w, c, PushNCalls(w.ds, w.shCp, Zeros(n)));
      && next.latched == c.latched
      && |next.shifted| == |c.shifted| + 8 * n
      && forall k | |c.shifted| <= k < |next.shifted| :: !next.shifted[k]
  {
    PushNShiftsIn(w, c, Zeros(n));
    ZerosBits(n);
  }

  lemma {:induction false} ZerosBits(n: nat)
    ensures forall k | 0 <= k < |BytesBits(Zeros(n))| :: !BytesBits(Zeros(n))[k]
  {
    if n > 0 {
      ZerosBits(n - 1);
      assert Zeros(n)[..n - 1] == Zeros(n - 1);
      assert Bits(0) == [false, false, false, false, false, false, false, false];
    }
  }

  /** `build`: set the three pins to outputs, in order, and make the register only if
      every call succeeded. */
  method Build(b: Builder) returns (r: Result<ShiftRegister, Error>)
    requires Complete(b)
    modifies b.pi.value.daemon
    ensures var pi := b.pi.value;
      var o := Run(pi.daemon.respond, old(pi.daemon.log), SetupCalls(b.ds.value, b.shCp.value, b.stCp.value));
      && pi.daemon.log == o.log
      && (r.Ok? <==> o.failure.None?)
      && (r.Err? ==> r.error == Pi(o.failure.value))
      && (r.Ok? ==>
            fresh(r.value) && r.value.pi == pi && r.value.n == b.n
            && r.value.ds == b.ds.value && r.value.shCp == b.shCp.value && r.value.stCp == b.stCp.value)
  {
    var pi := b.pi.value;
    var ds, shCp, stCp := b.ds.value, b.shCp.value, b.stCp.value;
    ghost var start := pi.daemon.log;
    ghost var all := SetupCalls(ds, shCp, stCp);
    var s := pi.SetMode(ds, Output);
    RunThen(pi.daemon.respond, start, [], [SetMode(ds, Output)], all);
    if s.Err? {
      return Err(s.error);
    }
    s := pi.SetMode(shCp, Output);
    RunThen(pi.daemon.respond, start, [SetMode(ds, Output)], [SetMode(shCp, Output)], all);
    if s.Err? {
      return Err(s.error);
    }
    s := pi.SetMode(stCp, Output);
    RunThen(pi.daemon.respond, start, [SetMode(ds, Output), SetMode(shCp, Output)], [SetMode(stCp, Output)], all);
    if s.Err? {
      return Err(s.error);
    }
    var reg := new ShiftRegister(pi, ds, shCp, stCp, b.n);
    return Ok(reg);
  }
}
