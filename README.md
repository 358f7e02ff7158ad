# Safety I/O tester serial protocol, in Dafny

The safety I/O tester is a desktop tool that drives a dual-channel (A/B)
safety I/O controller over a serial line. The host writes one-line ASCII
command frames:

- `M` sets the mode bits.
- `E` sets the emergency stop and `I` sets the interlock. Either can be
  immediate, or staggered: a first channel, then the other after a delay.
- `P` switches power.
- `S` sets the echo string.
- `R` polls the pin table.
- `H` asks for the heartbeat rate.

The controller answers `OK`, a 19-character status frame, or a 12-character
heartbeat frame.

This project models three parts of that protocol:

- the host-side driver (`Model`, in `safety-io-tester-gui/model.py`);
- the controller simulator (`MockSerialPort`, in
  `safety-io-tester-gui/mock_serial_port.py`);
- the older emulator (`MockSerialPort`, in `safety_io_tester_emulator.py`).
  The repository keeps a second, byte-identical copy of the emulator under
  `safety-io-tester-gui/`. Module `Emulator` models both files: every row
  below that cites one of them holds at the same lines of the other.

Modules:

- `Pins`: the pin table (`PinBank`: eight signals, each a `Pair` of channel
  bits), field order, and the `stop == estop` rule.
- `Text`: Python's `str.strip()` on ASCII text, and fixed-width decimal
  fields, with their read-back lemmas.
- `HostCodec`: the frames the host builds and the replies it parses. These
  are pure functions of their arguments and of the driver's cached table.
  The module also holds the as-written parsers behind the findings below.
- `HostDriver`: the `Driver` class. Its fields are the port name, the
  open/closed state and the cached table. Every exchange on the line is an
  `Exchange` parameter: a transport failure, or the line that came back.
- `Device`: what both controllers share. This is the status and heartbeat
  encoders, the `M` and `P` command readers, and the vocabulary of effects
  and exceptions.
- `Simulator`:
  - `Apply` is the specification of one `write`.
  - `Settle` is the specification of one timer callback.
  - Lemmas cover the `stop == estop` invariant, the error paths and the
    staggered transitions.
  - `MockSerialPort` is a class whose methods update its fields in place and
    are proved against `Apply` and `Settle`. A `threading.Timer` becomes an
    entry of the `pending` sequence, and `Fire(i)` runs one entry.
- `Emulator`: the same for the older emulator. Its `E` and `I` frames take
  effect at once, it never derives `stop`, and it ignores unknown letters.
- `Conformance`: how the two ends fit together.
  - Status and heartbeat round trips.
  - Every host frame as each controller applies it.
  - A staggered e-stop example: `E11B00100`, the example in `toggle_estop`'s
    docstring.
  - One full poll of the simulator by the driver.

Reading the frames follows the source exactly:

- The controllers choose the command from the stripped text.
- They read the channel bits from the raw frame bytes.
- A frame too short for the bytes read raises `IndexError`, which is
  modelled as `IndexOutOfRange`. A four-byte `M` frame has already set mode1
  when it raises.
- An `E`/`I` frame checks its length first, then parses the delay
  (`ValueError`), then checks the channel letter.

Three behaviours of the code worth knowing:

- Delays above 99999 ms are not rejected. The host sends the delay modulo
  100000 (`HostCodec.DelayDigitsValue`, `HostCodec.DelayBoundaries`).
- Not every failed exchange disconnects. A status reply that fails to parse
  keeps the port open. `request_heartbeat` never disconnects, and it does not
  raise on a failed exchange.
- No timer is ever cancelled. A new staggered command does not replace a
  pending one, so `pending` only grows until `Fire` runs.

## Model

| member | source | states |
|---|---|---|
| `HostCodec.ModeFrame` | safety-io-tester-gui/model.py:246-248 | a mode frame is 6 characters, `M` first and newline last, and characters 1..4 read back as exactly the bits A1, A2, B1, B2 it was built from |
| `HostCodec.ModeSetting` | safety-io-tester-gui/model.py:236-244 | each channel gets exactly one of its two mode bits; A1 is set for Stop and Manual, B1 for Automatic and Stop (values pinned in `SetModeFrames`) |
| `HostCodec.SetModeFrame` | safety-io-tester-gui/model.py:246-248 | a 6-character `M` frame with exactly one set mode bit per channel, carrying the chosen mode's bits |
| `HostCodec.SetModeFrames` | safety-io-tester-gui/model.py:236-248 | Automatic sends `M0110`, Stop `M1010`, Manual `M1001`, Mute `M0101`, and no two modes send the same frame |
| `HostCodec.FlipBit` | safety-io-tester-gui/model.py:280-289 | the named bit (A1, A2, B1 or B2) is negated and the other three are copied; an unknown name changes nothing |
| `HostCodec.CachedModeBits` | safety-io-tester-gui/model.py:270-277 | A1 and B1 are the cached mode1 pair, A2 and B2 the cached mode2 pair |
| `HostCodec.ToggleModeBitFrame` | safety-io-tester-gui/model.py:280-293 | a 6-character `M` frame in which the named bit is the cached bit negated and the other three are the cached bits; an unknown name sends the cached bits unchanged |
| `HostCodec.DelayDigits` | safety-io-tester-gui/model.py:346-350 | five characters; their meaning is stated by `DelayDigitsAreDecimal` and `DelayDigitsValue` |
| `HostCodec.DelayDigitsAreDecimal` | safety-io-tester-gui/model.py:346-350 | the five delay characters are the zero-padded decimal form of `delay_ms mod 100000`, most significant digit first |
| `HostCodec.DelayDigitsValue` | safety-io-tester-gui/model.py:411-415 | reading the delay characters back gives `delay_ms mod 100000`, so every delay in 0..99999 survives and larger ones are truncated |
| `HostCodec.DelayBoundaries` | safety-io-tester-gui/model.py:346-350 | 0 is sent as `00000`, 99999 as `99999`, 100000 as `00000` and 123456 as `23456` |
| `HostCodec.ChannelFrame` | safety-io-tester-gui/model.py:333-358 | an E/I frame has length 4, or length 10 when the first channel is `A` or `B`; each channel bit is the cached bit, negated when its toggle flag is set; the first channel is at index 3 and the delay digits at 4..8 |
| `HostCodec.ChannelFrameDelay` | safety-io-tester-gui/model.py:405-423 | the delay field of a staggered frame reads back as the delay modulo 100000, and delays that agree modulo 100000 send the same frame |
| `HostCodec.EStopFrame` | safety-io-tester-gui/model.py:332-358 | an `E` frame of length 4, or 10 when staggered, whose bits are the cached e-stop bits, each negated when its toggle flag is set |
| `HostCodec.InterlockFrame` | safety-io-tester-gui/model.py:397-423 | an `I` frame of length 4, or 10 when staggered, whose bits are the cached interlock bits, each negated when its toggle flag is set |
| `HostCodec.PowerFrame` | safety-io-tester-gui/model.py:442-452 | `P0` when either cached power channel is on, `P1` when both are off |
| `HostCodec.EchoFrame` | safety-io-tester-gui/model.py:525-526 | `S`, then the text unchanged, then newline |
| `HostCodec.IsAck` | safety-io-tester-gui/model.py:140-142 | an accepted line is `OK` with only whitespace around it, and a line without whitespace is accepted exactly when it is `OK` |
| `HostCodec.AckShape` | safety-io-tester-gui/model.py:140-142 | the `OK` of an accepted line sits right after the leading whitespace, and every other character is whitespace |
| `HostCodec.StatusFields` | safety-io-tester-gui/model.py:198-207 | field i in table order is `(response[1+i] == '1', response[10+i] == '1')` |
| `HostCodec.DecodeStatus` | safety-io-tester-gui/model.py:193-207 | a table exactly when the reply has length 18 with `A` at 0 and `B` at 9, and then the table the frame spells |
| `HostCodec.DecodeHeartbeat` | safety-io-tester-gui/model.py:497-503 | two values exactly when the reply has length 12 with `A` at 0, `B` at 6 and digits elsewhere; both values are below 100000 |
| `HostCodec.HeartbeatFields` | safety-io-tester-gui/model.py:498-501 | the two fields parse exactly when both are all digits, and each value is below 100000 |
| `HostCodec.DecodeHeartbeatDigits` | safety-io-tester-gui/model.py:499 | a parsed heartbeat re-encodes digit for digit to the fields it was read from |
| `HostCodec.ChangeIgnoresHeartbeat` | safety-io-tester-gui/model.py:536-544 | a change is reported exactly when the two tables differ once the heartbeat pair is disregarded |
| `HostCodec.DecodeStatusAsWritten` | safety-io-tester-gui/model.py:193 | the as-written status check raises exactly on an empty reply or on a reply that starts with `A` and has at most 9 characters |
| `HostCodec.DecodeHeartbeatAsWritten` | safety-io-tester-gui/model.py:497 | the as-written heartbeat check raises exactly on an empty reply or on a reply that starts with `A` and has at most 6 characters |
| `HostCodec.AsWrittenParsersCrashOnlyOnShortLines` | safety-io-tester-gui/model.py:193-194 | both as-written checks raise on `""` and on `"A1"`; wherever they do not raise, they agree with the length-first decoders |
| `HostDriver.Driver.constructor` | safety-io-tester-gui/model.py:59-68 | a new driver is disconnected and its cache has every pin cleared |
| `HostDriver.Driver.Connect` | safety-io-tester-gui/model.py:94-100 | remembers the port name; reports success and is connected exactly when the port opened |
| `HostDriver.Driver.Disconnect` | safety-io-tester-gui/model.py:102-106 | the port is closed afterwards |
| `HostDriver.Driver.WriteData` | safety-io-tester-gui/model.py:117-142 | success exactly when the port was open and the reply line strips to `OK`; any other reply or transport failure disconnects (fail-closed); the port is open afterwards exactly when the call succeeded |
| `HostDriver.Driver.SetMode` | safety-io-tester-gui/model.py:246-248 | sends the frame of the chosen mode, with the acknowledgement rule of `WriteData` |
| `HostDriver.Driver.ToggleModeBit` | safety-io-tester-gui/model.py:271-293 | sends the cached mode bits with the named bit flipped, with the acknowledgement rule |
| `HostDriver.Driver.ToggleEStop` | safety-io-tester-gui/model.py:332-358 | sends the E frame built from the cached e-stop pair, with the acknowledgement rule |
| `HostDriver.Driver.ToggleInterlock` | safety-io-tester-gui/model.py:397-423 | sends the I frame built from the cached interlock pair, with the acknowledgement rule |
| `HostDriver.Driver.TogglePower` | safety-io-tester-gui/model.py:441-452 | sends the power frame chosen from the cached power pair, with the acknowledgement rule |
| `HostDriver.Driver.SetEchoString` | safety-io-tester-gui/model.py:525-526 | sends the echo frame of the text, with the acknowledgement rule |
| `HostDriver.Driver.DetectPinChange` | safety-io-tester-gui/model.py:536-544 | the loop over the signals in table order answers true exactly when some signal other than the heartbeat differs from the cache |
| `HostDriver.Driver.RequestOutputPinStates` | safety-io-tester-gui/model.py:183-213 | a failed exchange disconnects and yields nothing; a reply that is not a status frame yields nothing and keeps the port open; a status frame is returned, and it replaces the cache exactly when a signal other than the heartbeat changed |
| `HostDriver.Driver.RequestHeartbeat` | safety-io-tester-gui/model.py:486-503 | values only for an open port and a well-formed reply, and then the decoded values, each below 100000; the port state is never changed |
| `HostDriver.PollKeepsCacheCurrent` | safety-io-tester-gui/model.py:209-213 | after the conditional cache replacement, the cache equals the polled table except possibly in the heartbeat pair |
| `Device.EncodeStatus` | safety-io-tester-gui/mock_serial_port.py:174-196 | the status frame is 19 characters with `A` at 0, `B` at 9 and newline at 18 |
| `Device.EncodeStatusFields` | safety-io-tester-gui/mock_serial_port.py:174-194 | field i in table order is sent at 1+i for channel A and at 10+i for channel B, the layout the host decodes |
| `Device.EncodeHeartbeat` | safety-io-tester-gui/mock_serial_port.py:223-226 | the heartbeat frame is 12 characters with `A` at 0 and `B` at 6, and no line terminator |
| `Device.EncodeHeartbeatFields` | safety-io-tester-gui/mock_serial_port.py:226 | each five-digit field reads back as the value it was written from |
| `Device.ModeUpdate` | safety-io-tester-gui/mock_serial_port.py:239-253 | mode1 := (byte 1, byte 3) and mode2 := (byte 2, byte 4) of the raw frame, nothing else changes; a frame shorter than 5 bytes raises, after setting mode1 when it has 4 bytes |
| `Device.PowerUpdate` | safety-io-tester-gui/mock_serial_port.py:400-409 | both power channels := byte 1, nothing else changes; a 1-byte frame raises and changes nothing |
| `Simulator.Apply` | safety-io-tester-gui/mock_serial_port.py:82-113 | a raising write arms no reply and no timer; at most one timer, and only from a 9-character `E`/`I` frame; the status and heartbeat replies are armed exactly by `R` and `H` frames (the other cases: `WhichWritesRaise`, `RaisingWriteChangesNothing`, `ModeCommand`, `SimultaneousCommand`, `StaggeredCommand`, `PowerCommand`, `StopMirrorIsInvariant`) |
| `Simulator.EStopUpdate` | safety-io-tester-gui/mock_serial_port.py:255-309 | changes only e-stop and stop, and leaves stop mirroring e-stop; fails exactly on a malformed frame, and then changes nothing; arms at most one timer, an e-stop one |
| `Simulator.InterlockUpdate` | safety-io-tester-gui/mock_serial_port.py:335-386 | changes only the interlock; fails exactly on a malformed frame, and then changes nothing; arms at most one timer, an interlock one |
| `Simulator.Settle` | safety-io-tester-gui/mock_serial_port.py:311-323 | an e-stop timer leaves stop mirroring e-stop and the interlock alone; an interlock timer leaves stop and e-stop alone (the channel it sets: `SettleSetsOneChannel`) |
| `Simulator.ParseChannelCommand` | safety-io-tester-gui/mock_serial_port.py:264-306 | stripped length 3 gives both bits from raw bytes 1 and 2; length 9 gives a staggered command with the first channel from index 3 and the delay from digits 4..8; anything else is rejected as bad data, bad delay or bad channel |
| `Simulator.ChannelStep` | safety-io-tester-gui/mock_serial_port.py:278-302 | simultaneous: both channels now, no timer; staggered: only the first channel now, the other kept, and exactly one timer for the other channel with its bit from the frame and the parsed delay |
| `Simulator.StopMirrorIsInvariant` | safety-io-tester-gui/mock_serial_port.py:308-333 | every write and every timer keeps `stop == estop` |
| `Simulator.RaisingWriteChangesNothing` | safety-io-tester-gui/mock_serial_port.py:85-113 | a write that raises arms no reply and no timer and changes no pin, except that a 4-byte `M` frame has already set mode1 |
| `Simulator.WhichWritesRaise` | safety-io-tester-gui/mock_serial_port.py:85-113 | a write raises exactly for an empty frame, an unknown letter, a malformed E/I frame, or an `M`/`P` frame too short for the bytes read |
| `Simulator.ModeCommand` | safety-io-tester-gui/mock_serial_port.py:94-96 | an `M` frame sets both mode pairs from the raw bytes, arms `OK` and touches no other pin |
| `Simulator.SimultaneousCommand` | safety-io-tester-gui/mock_serial_port.py:267-271 | a 3-character `E` or `I` frame sets both channels of its signal from raw bytes 1 and 2 and arms `OK`; for `E` stop follows and only e-stop and stop change, for `I` only the interlock changes |
| `Simulator.StaggeredCommand` | safety-io-tester-gui/mock_serial_port.py:274-302 | a well-formed 9-character E/I frame sets the first channel, keeps the other, and arms exactly one timer for the other channel after the parsed delay |
| `Simulator.SettleSetsOneChannel` | safety-io-tester-gui/mock_serial_port.py:311-323 | a timer sets only its own channel of its own signal, plus stop for the e-stop; an interlock timer leaves stop alone |
| `Simulator.InterlockLeavesStop` | safety-io-tester-gui/mock_serial_port.py:335-398 | interlock frames and interlock timers never modify stop |
| `Simulator.StaggeredSettlesLikeSimultaneous` | safety-io-tester-gui/mock_serial_port.py:296-302 | once its timer has fired, a staggered command leaves the signal holding both bits of the frame |
| `Simulator.PowerCommand` | safety-io-tester-gui/mock_serial_port.py:103-105 | a `P` frame sets both power channels from byte 1, arms `OK` and touches no other pin |
| `Simulator.MockSerialPort.constructor` | safety-io-tester-gui/mock_serial_port.py:36-58 | a new port is closed, has no reply armed and no timer, and holds the factory table, which satisfies `stop == estop` |
| `Simulator.MockSerialPort.Open` | safety-io-tester-gui/mock_serial_port.py:60-64 | only sets the open flag |
| `Simulator.MockSerialPort.Close` | safety-io-tester-gui/mock_serial_port.py:66-70 | only clears the open flag |
| `Simulator.MockSerialPort.Write` | safety-io-tester-gui/mock_serial_port.py:82-113 | on a closed port raises and changes nothing; otherwise the table, timers, reply flags and outcome are those `Apply` gives, and `stop == estop` is kept |
| `Simulator.MockSerialPort.WriteOpen` | safety-io-tester-gui/mock_serial_port.py:85-113 | on an open port, the table, timers, reply flags and outcome are those `Apply` gives, and `stop == estop` is kept |
| `Simulator.MockSerialPort.RunSetter` | safety-io-tester-gui/mock_serial_port.py:94-105 | for `M`, `E`, `I` and `P`, the table, new timers and exception are those of the helper `Apply` selects, and the acknowledgement is armed exactly when it does not raise |
| `Simulator.MockSerialPort.Read` | safety-io-tester-gui/mock_serial_port.py:127-143 | on a closed port raises and changes nothing; otherwise returns `OK` if armed, else the status frame of the current table if requested, else the heartbeat frame if requested, clearing only the flag served; a status reply re-rolls only the heartbeat pins |
| `Simulator.MockSerialPort.UpdateHeartbeat` | safety-io-tester-gui/mock_serial_port.py:228-237 | only the heartbeat pair changes, to the given bits |
| `Simulator.MockSerialPort.Fire` | safety-io-tester-gui/mock_serial_port.py:297-302 | the chosen timer is removed from the queue and its transition applied as `Settle` gives; `stop == estop` is kept |
| `Simulator.MockSerialPort.SetModeFromSerialData` | safety-io-tester-gui/mock_serial_port.py:239-253 | the table and outcome are those of `ModeUpdate` |
| `Simulator.MockSerialPort.SetEStopFromSerialData` | safety-io-tester-gui/mock_serial_port.py:255-309 | the table, the timers added and the outcome are those of `EStopUpdate` |
| `Simulator.MockSerialPort.ProcessEStopDelay` | safety-io-tester-gui/mock_serial_port.py:311-323 | sets one e-stop channel and then stop from e-stop |
| `Simulator.MockSerialPort.UpdateStopPinState` | safety-io-tester-gui/mock_serial_port.py:325-333 | stop := estop and nothing else changes |
| `Simulator.MockSerialPort.SetInterlockFromSerialData` | safety-io-tester-gui/mock_serial_port.py:335-386 | the table, the timers added and the outcome are those of `InterlockUpdate` |
| `Simulator.MockSerialPort.ProcessInterlockDelay` | safety-io-tester-gui/mock_serial_port.py:388-398 | sets one interlock channel and nothing else |
| `Simulator.MockSerialPort.SetPowerFromSerialData` | safety-io-tester-gui/mock_serial_port.py:400-409 | the table and outcome are those of `PowerUpdate` |
| `Emulator.BothChannelsUpdate` | safety_io_tester_emulator.py:97-108 | both channels of the signal := raw bytes 1 and 2, nothing else changes; a frame shorter than 3 bytes raises and changes nothing |
| `Emulator.EmulatorApply` | safety_io_tester_emulator.py:68-121 | the only exception on an open port is `IndexError`, and a raising write arms no reply; the status and heartbeat replies are armed exactly by `R` and `H` frames (the other cases: `WhichWritesRaise`, `ModeCommand`, `PowerCommand`, `DelaySuffixIgnored`, `StopNeverWritten`, `UnknownLetterIsSilent`) |
| `Emulator.ModeCommand` | safety-io-tester-gui/safety_io_tester_emulator.py:87-96 | an `M` frame of at least 5 bytes sets mode1 from bytes 1 and 3 and mode2 from bytes 2 and 4, arms `OK` and touches no other pin |
| `Emulator.PowerCommand` | safety_io_tester_emulator.py:109-114 | a `P` frame sets both power channels from byte 1, arms `OK` and touches no other pin |
| `Emulator.DelaySuffixIgnored` | safety-io-tester-gui/safety_io_tester_emulator.py:97-108 | an E/I frame with a delay suffix acts exactly like the plain frame with the same bits, and no timer is ever armed |
| `Emulator.StopNeverWritten` | safety_io_tester_emulator.py:87-114 | no frame changes stop and no frame arms a timer |
| `Emulator.UnknownLetterIsSilent` | safety-io-tester-gui/safety_io_tester_emulator.py:118-121 | an unknown command letter raises nothing and changes no flag and no pin |
| `Emulator.WhichWritesRaise` | safety_io_tester_emulator.py:77-121 | a write raises only for a blank frame, or an `M`/`E`/`I`/`P` frame too short for the bytes read |
| `Emulator.StopMirrorCanBreak` | safety-io-tester-gui/safety_io_tester_emulator.py:97-102 | from the factory table, where stop mirrors e-stop, the frame `E00` leaves stop no longer mirroring e-stop |
| `Emulator.MockSerialPort.constructor` | safety_io_tester_emulator.py:32-54 | a new port is closed, has no reply armed, and holds the factory table |
| `Emulator.MockSerialPort.Open` | safety-io-tester-gui/safety_io_tester_emulator.py:56-60 | only sets the open flag |
| `Emulator.MockSerialPort.Close` | safety_io_tester_emulator.py:62-66 | only clears the open flag |
| `Emulator.MockSerialPort.Write` | safety-io-tester-gui/safety_io_tester_emulator.py:68-121 | on a closed port raises and changes nothing; otherwise the table, reply flags and outcome are those `EmulatorApply` gives |
| `Emulator.MockSerialPort.Read` | safety_io_tester_emulator.py:123-151 | on a closed port raises; otherwise `OK`, else status, else heartbeat (values in 0..99999), clearing only the flag served; no read changes a pin |
| `Conformance.StatusRoundTrip` | safety-io-tester-gui/mock_serial_port.py:174-196 | the host decodes every status frame a controller sends to the very table it was built from |
| `Conformance.HeartbeatRoundTrip` | safety-io-tester-gui/model.py:497-501 | the host decodes every heartbeat frame with values in 0..99999 to those two values |
| `Conformance.AckIsAccepted` | safety-io-tester-gui/model.py:140-142 | the `OK` reply both controllers send is the one the host accepts |
| `Conformance.ModeFrameApplied` | safety-io-tester-gui/safety_io_tester_emulator.py:87-96 | on both controllers a mode frame is acknowledged and leaves the controller's mode bits equal to the bits it carries, touching no other pin |
| `Conformance.SetModeReachesMode` | safety-io-tester-gui/model.py:236-248 | after `set_mode(m)` the simulator holds the mode bits of `m` |
| `Conformance.ToggleModeBitApplied` | safety-io-tester-gui/model.py:272-293 | when the cache matches the simulator, `toggle_mode_bit` flips exactly the named bit there |
| `Conformance.PowerToggleApplied` | safety-io-tester-gui/model.py:441-452 | on both controllers, `toggle_power` is acknowledged and switches power fully off when the cache shows any power channel on, and fully on otherwise, touching no other pin |
| `Conformance.EchoFrameApplied` | safety-io-tester-gui/mock_serial_port.py:106-107 | on both controllers an echo frame is acknowledged and changes nothing |
| `Conformance.RequestFramesApplied` | safety-io-tester-gui/mock_serial_port.py:88-93 | `R` arms the status reply and `H` the heartbeat reply, and nothing else changes |
| `Conformance.SimultaneousToggleApplied` | safety-io-tester-gui/model.py:353-358 | an E/I frame without a first channel sets both channels of the signal to the toggled cache bits (for the e-stop, stop with them) |
| `Conformance.EmulatorToggleApplied` | safety_io_tester_emulator.py:97-108 | the old emulator applies every host E/I frame at once: both channels take the toggled cache bits, with or without a delay |
| `Conformance.ChannelFrameParses` | safety-io-tester-gui/mock_serial_port.py:274-276 | the simulator reads a host staggered frame as the staggered command with the toggled bits, the chosen first channel and the delay modulo 100000 |
| `Conformance.StaggeredToggleApplied` | safety-io-tester-gui/model.py:340-358 | a host staggered frame sets the first channel at once, leaves the other, and arms one timer after the delay modulo 100000; once it fires, the signal holds both toggled bits |
| `Conformance.StaggeredEStopExample` | safety-io-tester-gui/model.py:322 | `E11B00100` on a cleared table sets e-stop B and stop B at once and arms e-stop A := 1 after 100 ms; firing it sets both channels of e-stop and stop |
| `Conformance.PolledCacheAgrees` | safety-io-tester-gui/model.py:209-213 | after a poll, the cache agrees with the controller on every signal but the heartbeat, whatever the heartbeat re-roll |
| `Conformance.PollSimulator` | safety-io-tester-gui/model.py:183-213 | one `R` poll of the simulator by the driver returns the controller's table, keeps the port open, and leaves the cache agreeing with the controller outside the heartbeat |

## Left out

- The GUI files are not part of this model: `view.py`, `presenter.py`,
  `main.py` and `safety-io-tester-gui.py`.
- Serial-port discovery (`detect_arduino_ports`), baud rate and timeouts,
  logging, and the one-second `sleep` in `request_heartbeat` are left out.
  They have no protocol effect.
- The host never reads from a real port. Each exchange is an `Exchange`
  parameter. `readline.decode()` is modelled as the intended "read one line".
  As written, it names the bound method `readline` and never reads.
- Time and concurrency are left out. A `threading.Timer` is a `pending` entry
  that `Fire` runs on demand, in any order. No clock is modelled and no
  timer is cancelled. Races between a timer and a write are not modelled.
- Randomness becomes parameters:
  - the simulator's heartbeat values (5..15) and status-time heartbeat bits;
  - the emulator's heartbeat values (0..99999).
- The standard-input and standard-output fallbacks are left out. A read with
  nothing armed returns `ConsoleFallback`, and the echo of an unknown frame
  to standard output is not modelled.
- Frames are ASCII `string`s. `bytes.decode()` failures on non-UTF-8 input
  are not modelled.
- `HostCodec.DecodeHeartbeat`, `HostCodec.HeartbeatFields` and the parsed
  case of `HostCodec.DecodeHeartbeatAsWritten`: each field must be exactly
  five ASCII digits. Python's `int()` also accepts a sign, inner spaces and
  `_` separators, so the source accepts some replies this model rejects.
- `HostDriver.Driver.SetEchoString` and `HostCodec.EchoFrame` require ASCII
  text. In the source, a character above U+00FF makes `bytearray` raise
  `ValueError`, and `write_data`'s `data.decode()` raises on bytes that are
  not UTF-8; neither is caught. Non-ASCII text that happens to survive both
  is not modelled.
- `Simulator.ParseChannelCommand`: the delay field must be exactly five
  ASCII digits. Python's `int()` also accepts a sign, leading spaces and `_`
  separators, so the simulator accepts some frames this model rejects.
- `HostDriver.Driver.SetMode`: the mode is an enumeration. An unlisted mode
  name, which has no case in the source, cannot be expressed.
- The driver does not share state with a simulator object; the
  `serial = MockSerialPort()` wiring in the constructor is not modelled. The
  two ends meet only in `Conformance`.

## Findings

| source | as written | input that shows it | evidently intended | confidence | as-written member | corrected member |
|---|---|---|---|---|---|---|
| safety-io-tester-gui/model.py:193 | the status reply is indexed at 0 and 9 before its length is compared, so a short reply raises an uncaught `IndexError` | the empty line of a read timeout, or `A1` | a reply that is not an 18-character status frame returns the empty table | not executed; only once `readline` is actually called | `HostCodec.DecodeStatusAsWritten` with `HostCodec.AsWrittenParsersCrashOnlyOnShortLines` | `HostCodec.DecodeStatus` |
| safety-io-tester-gui/model.py:497 | the heartbeat reply is indexed at 0 and 6 before its length is compared, so a short reply raises an uncaught `IndexError` | the empty line of a read timeout, or `A1` | a reply that is not a 12-character heartbeat frame returns `None` | not executed; only once `readline` is actually called | `HostCodec.DecodeHeartbeatAsWritten` with `HostCodec.AsWrittenParsersCrashOnlyOnShortLines` | `HostCodec.DecodeHeartbeat` |
