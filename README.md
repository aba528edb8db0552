# cps: seven-segment display over a remote pigpio daemon, in Dafny

This project models the core of `cps`. That program drives a chain of 8-bit serial-in, parallel-out shift registers (74HC595 style) behind a multi-digit seven-segment display. It does so through the remote GPIO daemon `pigpiod`. It also reads files, such as a one-wire temperature sensor, through the same daemon. The model covers four source files:

- `src/error.rs` (module `PigpioErrors`): the daemon's status codes, decoded into `ErrorKind`, with their messages, and the crate's `Error` type.
- `src/pi.rs` (module `Remote`):
  - the client side of the daemon: pin numbers and how they are parsed;
  - the connection typestate (`Pi<Uninit<A, P>>` to `Pi<Init>`);
  - the wrappers `set_mode`, `gpio_write`, `file_open`, `file_read` and `file_close`, plus `pigpio_stop` on drop;
  - the scoped remote `File`, and `read_to_string`.
- `src/shift_register.rs` (module `ShiftRegisters`):
  - the typestate builder;
  - `strobe`, `shift`, `save`, `push`, `push_n` and `clear`.
- `src/segment_display.rs` (module `SegmentDisplay`):
  - `SegmentCode::new` and `to_u8`, with the `NUMERALS` and `LETTERS` fonts;
  - the default `SegmentDisplay::write`.

`wrappers.dfy` holds `Option`, `Result` and `Unit`. `ctypes.dfy` holds the C integer types `i32` and `u32`, and the `as c_uint` cast.

## How the daemon is modelled

The daemon is a class `Remote.Daemon`. It has a log of every request it received and the reply it gave. It also has a reply function `respond`, which may answer anything with any status. Any call may therefore fail, and the proofs hold for every daemon behaviour.

A sequence of calls joined by `?` is the function `Remote.Run`. It sends the calls in order and stops after the first negative reply. Each method of the shift register, `Build`, and `Pi.SetMode` and `Pi.GpioWrite` state their new log as `Run` of the call list they issue, and their result as that run's status. The call lists are specification functions (`StrobeCalls`, `PushCalls`, `PushNCalls`, `SetupCalls`). The other single-call wrappers of `Remote` (`Connect`, `TryWithAddr`, `TryWithAddrAndPort`, the other `Pi` methods and the `File` methods) state their new log as the old one plus the one event they add. `ReadToString` states its log and result as those of the function `ReadToStringSpec`.

The call lists are given meaning by a model of the chip (`ShiftRegisters.Chip`). A rising edge on SH_CP shifts in the DS level. A rising edge on ST_CP copies the shifted bits to the outputs. A write the daemon refused changes nothing. The lemmas prove the following:

- a `push_n` that succeeded shifted in the bits of every byte, most significant first;
- a `save` that succeeded latched them;
- after both, register `j` of the chain holds byte `j` (`PushNThenSaveLoadsRegisters`).

The segment font is given meaning by the set of segments each code lights (`SegmentDisplay.Lit`, active low, bit order `.GFE_DCBA`).

## Where the code differs from the intended display behaviour

The model follows the code in both cases:

- `clear` (src/shift_register.rs:62-65) pushes `N` zero bytes and does not latch them. With active-low segments, zero bytes light every segment and the decimal point once they are saved; they do not blank the display. `ShiftRegisters.ClearShiftsInZeros` states what the code does.
- `new` gives the pair of two adjacent dots a case of its own (src/segment_display.rs:12), evidently so that it shows as a standalone dot. In the code, the pair `('.', '.')` becomes `Just('.')`, and `to_u8` maps `'.'` to blank. See "## Findings".

## Model

| member | source | states |
|---|---|---|
| CTypes.AsU32 | src/pi.rs:260 | `buf.len() as c_uint` is exact for lengths that fit a `u32`; the body wraps modulo 2^32 |
| PigpioErrors.FromCode | src/error.rs:426-591 | the decoder is total; it yields `Other` exactly for values outside the daemon range -1..-146 and the client range -2000..-2012; a daemon code names a daemon kind |
| PigpioErrors.FromCodeArms1To40 | src/error.rs:429-468 | codes -1 to -40 decode to the kinds their arms name |
| PigpioErrors.FromCodeArms41To80 | src/error.rs:469-508 | codes -41 to -80 decode to the kinds their arms name |
| PigpioErrors.FromCodeArms81To120 | src/error.rs:509-548 | codes -81 to -120 decode to the kinds their arms name |
| PigpioErrors.FromCodeArms121To146 | src/error.rs:549-574 | codes -121 to -146 decode to the kinds their arms name |
| PigpioErrors.FromCodeArms2000To2012 | src/error.rs:575-587 | codes -2000 to -2012 decode to the client kinds their arms name |
| PigpioErrors.Code | src/error.rs:428-588 | every kind but `Other` has the status code its arm lists; `Other` has none |
| PigpioErrors.FromCodeOfCode | src/error.rs:428-588 | decoding a kind's code gives the kind back |
| PigpioErrors.CodeOfFromCode | src/error.rs:428-588 | a code that decodes to a named kind is that kind's code |
| PigpioErrors.FromCodeInjective | src/error.rs:428-588 | no two codes decode to the same named kind |
| PigpioErrors.FromCodeMonotone | src/error.rs:32-343 | within a range, a code further down names a later variant of the declaration |
| PigpioErrors.DaemonKindsBeforeClientKinds | src/error.rs:32-343 | every daemon kind is declared before every client kind, and both before `Other` |
| PigpioErrors.AsStr | src/error.rs:593-757 | the message of each kind; `Other` is "unknown error" |
| PigpioErrors.Kind | src/error.rs:370-376 | a daemon error's kind is its decoded code; a simple error's kind is the one it holds; a custom error's kind is the one it was made with |
| PigpioErrors.GetRef | src/error.rs:378-383 | the wrapped error is present exactly for a custom error |
| PigpioErrors.IntoInner | src/error.rs:385-390 | present exactly for a custom error, and equal to `get_ref` |
| PigpioErrors.RawPiError | src/error.rs:396-401 | the raw code is present exactly for a daemon error |
| PigpioErrors.New | src/error.rs:352-361 | a custom error has the given kind and wraps the given error, with no raw code |
| PigpioErrors.OtherError | src/error.rs:363-368 | `Error::other` has kind `Other` and wraps the given error |
| PigpioErrors.FromRawPiError | src/error.rs:392-394 | a daemon error gives back its code, and its kind is the decoded code |
| PigpioErrors.RawPiErrorInverse | src/error.rs:392-401 | a daemon error is rebuilt from its raw code |
| Remote.NewGpio | src/pi.rs:182-191 | a pin exists exactly for numbers 0 to 53 |
| Remote.ParseU32 | src/pi.rs:198 | `parse::<c_uint>` accepts only an optional '+' followed by decimal digits |
| Remote.ParseU32Rejects | src/pi.rs:198 | the empty string, a lone '+', a minus sign and stray characters are refused; '+' and leading zeros are accepted |
| Remote.ParseU32OfDecimal | src/pi.rs:198 | a number's decimal form parses back to it exactly when it fits a `u32`, with or without '+' |
| Remote.GpioFromStr | src/pi.rs:194-202 | a parse failure is a `ParseIntError`; a number above 53 is `PI_BAD_GPIO`; otherwise the pin of that number |
| Remote.GpioFromStrOfDecimal | src/pi.rs:194-202 | every pin parses back from its decimal form |
| Remote.GpioFromStrOutOfRange | src/pi.rs:197-200 | numbers past 53 are refused with `PI_BAD_GPIO`, or with a parse error once past `u32` |
| Remote.BadGpioStatus | src/pi.rs:199 | `PI_BAD_GPIO` decodes to `BadGpio`, "GPIO not 0-53" |
| Remote.Daemon.Call | src/pi.rs:226 | one daemon call: the reply is the daemon's answer and the call is logged |
| Remote.Run | src/shift_register.rs:21-25 | a `?` chain only extends the log, by at most one event per call; its failure is negative |
| Remote.RunSendsPrefix | src/shift_register.rs:21-25 | a chain sends a prefix of its calls in order, and all of them when it succeeds |
| Remote.RunAccepted | src/shift_register.rs:21-25 | a chain that did not fail sent every call, in order, and each was accepted |
| Remote.RunAnswered | src/shift_register.rs:21-25 | every event a chain adds holds the daemon's answer to that request |
| Remote.RunStopsAtFirstFailure | src/shift_register.rs:21-25 | every reply before the last is non-negative; a chain fails exactly when its last reply is negative, with that status |
| Remote.RunAppend | src/shift_register.rs:54-60 | two chains in sequence are one chain, and the second runs only if the first succeeded |
| Remote.RunThen | src/shift_register.rs:54-60 | once a prefix of a chain fails, the rest is never sent |
| Remote.Status | src/pi.rs:228-232 | `Ok(())` exactly when nothing failed, otherwise the failing code as a daemon error |
| Remote.Check | src/pi.rs:262-268 | a negative reply is `Error::new(reply)`, otherwise the count |
| Remote.StatusOfOneCall | src/pi.rs:225-233 | a single-call chain logs one event, and succeeds exactly when its reply is not negative |
| Remote.NewUninit | src/pi.rs:94-101 | a new configuration has neither address nor port |
| Remote.WithAddr | src/pi.rs:110-113 | sets the address and keeps the port |
| Remote.WithPort | src/pi.rs:115-118 | sets the port and keeps the address |
| Remote.SettersCommute | src/pi.rs:109-119 | the two setters commute, and a later call of one overrides an earlier one |
| Remote.ConnectPrecheck | src/pi.rs:133-177 | a NUL in a given address or port is a `NulError`; otherwise the configuration goes through |
| Remote.Connect | src/pi.rs:121-177 | a NUL fails with no call; otherwise `pigpio_start` is sent once, and a negative reply is the error while any other is the new session's handle |
| Remote.TryWithAddr | src/pi.rs:217-219 | connects with the address and the default port: a NUL fails with no call; otherwise one `pigpio_start`, a negative reply is `Pi(reply)` and any other is the handle |
| Remote.TryWithAddrAndPort | src/pi.rs:221-223 | connects with both address and port: a NUL in either fails with no call; otherwise one `pigpio_start`, a negative reply is `Pi(reply)` and any other is the handle |
| Remote.Pi.SetMode | src/pi.rs:225-233 | one `set_mode` call; the result is its status |
| Remote.Pi.GpioWrite | src/pi.rs:235-243 | one `gpio_write` call; the result is its status |
| Remote.Pi.FileOpen | src/pi.rs:245-256 | a path holding a NUL fails with no call; otherwise the handle is the non-negative reply |
| Remote.Pi.FileRead | src/pi.rs:258-269 | one read with the buffer length cast to `c_uint`; the result is the count or the error |
| Remote.Pi.FileClose | src/pi.rs:271-273 | one close call; its reply is ignored |
| Remote.Pi.Stop | src/pi.rs:276-280 | dropping the session sends `pigpio_stop` |
| Remote.IoWrap | src/pi.rs:58-62 | an error of this layer becomes an `io::Error` that wraps it |
| Remote.FromIo | src/pi.rs:64-68 | an `io::Error` becomes `Error::other` wrapping it |
| Remote.File.Open | src/pi.rs:298-304 | the file exists only if the daemon opened it, and it holds the returned handle |
| Remote.File.Read | src/pi.rs:309-313 | a read of this handle; a failure comes back as an `io::Error` wrapping `Pi(code)` |
| Remote.File.Close | src/pi.rs:315-319 | dropping or closing the file sends one `file_close` of its handle |
| Remote.ReadLoop | src/pi.rs:330 | the read loop only extends the log; cut short by the bound, it has made exactly that many reads |
| Remote.ReadLoopSendsReads | src/pi.rs:330 | the loop sends only reads of its one handle, and keeps going only while data comes back |
| Remote.ReadLoopVerdict | src/pi.rs:330 | a verdict comes after at least one read; success ends at a count of 0, failure at the first negative count, wrapped twice |
| Remote.ReadLoopCounts | src/pi.rs:330 | a successful loop's count is the sum of the counts the reads returned |
| Remote.ReadToString | src/pi.rs:321-331 | the log and the result are those of open, read to the end, close |
| Remote.ReadToStringLog | src/pi.rs:321-331 | once open, the log is the open, the loop's reads, and the close once there is a verdict, which is the loop's |
| Remote.ReadToStringOpensFirst | src/pi.rs:321-331 | a NUL path makes no call; otherwise the first call opens the path in read mode, and a failed open is the only call |
| Remote.ReadToStringClosesOnce | src/pi.rs:321-331 | once open, only that handle is read and closed; with a verdict it is closed exactly once, last, after at least one read; success is the sum of the counts |
| ShiftRegisters.BitsRoundTrip | src/shift_register.rs:40-46 | an 8-bit register that shifts in the bits `push` sends, most significant first, holds the byte |
| ShiftRegisters.BitsInjective | src/shift_register.rs:40-46 | different bytes send different bits |
| ShiftRegisters.LevelOf | src/shift_register.rs:41-45 | a set bit is `High`, a clear one `Low` |
| ShiftRegisters.StrobeCalls | src/shift_register.rs:21-25 | a strobe is two writes that end with the pin high |
| ShiftRegisters.BitCalls | src/shift_register.rs:41-48 | one bit is three calls, starting with its level on DS |
| ShiftRegisters.SendCalls | src/shift_register.rs:40-49 | three calls per bit |
| ShiftRegisters.PushCalls | src/shift_register.rs:37-52 | a push is 24 calls |
| ShiftRegisters.PushNCalls | src/shift_register.rs:54-60 | `push_n` is 24 calls per byte |
| ShiftRegisters.SetupCalls | src/shift_register.rs:134-136 | `build` makes three `set_mode` calls, all to `Output` |
| ShiftRegisters.PushNWritesOnlyDataAndClock | src/shift_register.rs:37-60 | `push` and `push_n` write only DS and SH_CP and never touch ST_CP |
| ShiftRegisters.SendBit | src/shift_register.rs:41-48 | one bit shifts that bit in and leaves the outputs alone, whatever the previous pin levels |
| ShiftRegisters.SendShiftsIn | src/shift_register.rs:40-49 | the bits are shifted in in order; the outputs are untouched |
| ShiftRegisters.PushNShiftsIn | src/shift_register.rs:54-60 | `push_n` shifts in every byte's bits, in order |
| ShiftRegisters.SaveLatches | src/shift_register.rs:32-35 | `save` copies the shifted bits to the outputs |
| ShiftRegisters.PushNThenSaveShows | src/shift_register.rs:32-60 | after `push_n` and `save`, the outputs end in the bytes' bits |
| ShiftRegisters.PushNThenSaveLoadsRegisters | src/shift_register.rs:32-60 | after `push_n` and `save`, register `j` of the chain holds byte `j` |
| ShiftRegisters.SucceededPushNShiftsIn | src/shift_register.rs:54-60 | a `push_n` the daemon accepted shifted the bytes into the chip, outputs untouched |
| ShiftRegisters.SucceededSaveLatches | src/shift_register.rs:32-35 | a `save` the daemon accepted put the shifted bits on the outputs |
| ShiftRegisters.Zeros | src/shift_register.rs:63 | `[0; N]` is `N` zero bytes |
| ShiftRegisters.ClearShiftsInZeros | src/shift_register.rs:62-65 | `clear` shifts in `8 * N` low bits and does not change the outputs |
| ShiftRegisters.NewBuilder | src/shift_register.rs:12-19 | a new builder has nothing set |
| ShiftRegisters.WithPi | src/shift_register.rs:81-91 | sets the session, keeps the rest |
| ShiftRegisters.WithDs | src/shift_register.rs:93-103 | sets DS, keeps the rest |
| ShiftRegisters.WithShCp | src/shift_register.rs:105-113 | sets SH_CP, keeps the rest |
| ShiftRegisters.WithStCp | src/shift_register.rs:115-123 | sets ST_CP, keeps the rest |
| ShiftRegisters.SettersAnyOrder | src/shift_register.rs:80-124 | the setters can be called in any order, with the same complete builder as result |
| ShiftRegisters.Build | src/shift_register.rs:126-144 | DS, SH_CP, ST_CP become outputs, in that order; the register exists only if all three succeeded, with those pins |
| ShiftRegisters.ShiftRegister.Strobe | src/shift_register.rs:21-25 | low then high on the pin, stopping at a failure |
| ShiftRegisters.ShiftRegister.Shift | src/shift_register.rs:27-30 | a strobe of SH_CP |
| ShiftRegisters.ShiftRegister.Save | src/shift_register.rs:32-35 | a strobe of ST_CP |
| ShiftRegisters.ShiftRegister.Push | src/shift_register.rs:37-52 | for bits 7 down to 0, the level on DS, then a shift, stopping at the first failure |
| ShiftRegisters.ShiftRegister.PushN | src/shift_register.rs:54-60 | the bytes pushed in order, stopping at the first failure |
| ShiftRegisters.ShiftRegister.Clear | src/shift_register.rs:62-65 | `push_n` of `N` zero bytes |
| SegmentDisplay.Lit | src/segment_display.rs:45 | active low, bit order `.GFE_DCBA`: a segment is lit exactly when its bit is clear |
| SegmentDisplay.NumeralsAreStandard | src/segment_display.rs:44-56 | each digit code lights that digit's segments and not the dot |
| SegmentDisplay.ToAsciiUppercase | src/segment_display.rs:23 | lower-case ASCII letters move to upper case; everything else is unchanged |
| SegmentDisplay.New | src/segment_display.rs:10-17 | two dots make a lone dot; a dot followed by anything else is dropped; a character then a dot is that character with its dot; otherwise the character alone |
| SegmentDisplay.Glyph | src/segment_display.rs:22-39 | an upper-cased character's code never lights the decimal point |
| SegmentDisplay.ToU8 | src/segment_display.rs:19-41 | the decimal point is lit exactly for a character with its dot |
| SegmentDisplay.DigitCode | src/segment_display.rs:25-27 | a digit `d` is `NUMERALS[d - '0']` |
| SegmentDisplay.UpperCode | src/segment_display.rs:28-30 | an upper-case letter `L` is `LETTERS[L - 'A']` |
| SegmentDisplay.LowerCode | src/segment_display.rs:23-30 | a lower-case letter `l` is `LETTERS[l - 'a']` |
| SegmentDisplay.CaseInsensitive | src/segment_display.rs:23 | a lower-case letter has the code of its upper case, with or without its dot |
| SegmentDisplay.WithDotClearsBit7 | src/segment_display.rs:21 | a character with its dot is the plain code with bit 7 cleared |
| SegmentDisplay.SpecialCharacters | src/segment_display.rs:32-37 | space and characters outside the font are blank; `-` lights only G, `_` only D |
| SegmentDisplay.FontHasNoDot | src/segment_display.rs:44-85 | every font entry and special code has bit 7 set |
| SegmentDisplay.JustNeverLightsDot | src/segment_display.rs:19-41 | a plain character never lights the decimal point |
| SegmentDisplay.WithDotAddsOnlyTheDot | src/segment_display.rs:21 | with its dot, a character lights the same segments plus the decimal point |
| SegmentDisplay.LoneDotIsBlank | src/segment_display.rs:12 | as written, the lone dot made of two dots lights nothing |
| SegmentDisplay.ToU8Corrected | src/segment_display.rs:19-41 | `to_u8` with a code for the lone dot; agrees with `to_u8` on every other code |
| SegmentDisplay.LoneDotCorrected | src/segment_display.rs:12 | with the correction, two dots light the decimal point alone |
| SegmentDisplay.Write | src/segment_display.rs:91-94 | a value `parse` refuses fails with no call; otherwise the codes are pushed |

## Left out

- The FFI bodies of `pigpiod_if2` are not modelled beyond the reply each call returns. The daemon is the `Daemon` class with an arbitrary reply function.
- `pigpio_error`, the daemon's message table, is a foreign call. `Remote.Error.Pi` keeps the status code the message is looked up by.
- Both `Display` implementations (src/error.rs:404-415, src/pi.rs:34-50) and `Error::source` are string formatting and are not modelled.
- `From<NulError>` and `From<Utf8Error>` for the `error.rs` error (src/error.rs:17-27) are `Error::other`, which is `PigpioErrors.OtherError`. The boxed foreign errors are the value `Inner`.
- The other `From` conversions of `pi.rs` (src/pi.rs:52-56, 70-80) become the `Remote.Cause` constructors.
- `Remote.ReadToString`: std's `read_to_string` loop has no bound of its own. The model reads at most `maxReads` times and returns no verdict when the bound is reached, without closing the file.
- `Remote.ReadToString` reads with one fixed buffer size, `chunk`. std's growing read buffers are not modelled.
- `Remote.ReadToString` counts the bytes rather than keeping them. The file's content and std's UTF-8 check of it are not modelled.
- `Remote.ReadToString` does not distinguish a daemon count larger than the buffer.
- `Remote.Connect`: the typestate's four `connect` implementations are one method over optional address and port. The NUL checks come in the code's order, address first.
- Every daemon object serves one session. Requests do not carry the session handle.
- The daemon's `c_int` replies are the `i32` type. The cast `handle as c_uint` (src/pi.rs:255) is exact on the non-negative handles it is applied to, so the model keeps the handle as it was returned.
- `SegmentDisplay::parse` (src/segment_display.rs:89) is a trait method without a body. `Write` takes it as a parameter, and there is no whole-string encoder, padding or overflow policy to model.
- `SegmentDisplay::shift_register` (src/segment_display.rs:88) is the register parameter of `Write`.
- `push_arr` (src/segment_display.rs:92) is not defined in `src/shift_register.rs`. `Write` uses `push_n`, the only routine of that shape.
- The pin-level timing of the bit-banging is not modelled, since the daemon calls are sequential.
- The chip model takes a refused write (negative reply) to change nothing.
- `PigpioErrors.AsStr`: its contract states only the `Other` message. Each other message is in the function's table, and `Remote.BadGpioStatus` checks one of them.
- `ErrorKind` is modelled by its declaration index (0 to 159) with one named constant per variant, not as 160 constructors. This keeps the lemmas about the decoder within the verifier's limits.
- The sensor loop, the command line, the time-series store and the build scripts are outside `src/shift_register.rs`, `src/segment_display.rs`, `src/pi.rs` and `src/error.rs`, and are not part of this model.

## Findings

| source | as written | input that shows it | evidently intended | confidence | as-written member | corrected member |
|---|---|---|---|---|---|---|
| src/segment_display.rs:12 | `new(('.', '.'))` makes `Just('.')`, but `to_u8` has no case for `'.'`, which falls to the blank code 0xFF | the character pair `('.', '.')` | the lone dot lights the decimal point and nothing else, 0b0111_1111 | medium; not executed | SegmentDisplay.LoneDotIsBlank | SegmentDisplay.LoneDotCorrected |
