/** What the two simulated controllers share: the frames they answer with, the
    way they read `M` and `P` command frames, and the vocabulary of what a
    written frame does to a simulated port. */
module Device {
  import opened Pins
  import opened Text

  /** The two signals that accept a staggered (delayed) transition. */
  datatype Signal = EStopSignal | InterlockSignal

  /** A timer armed by a staggered command: when it fires, `channel` of
      `signal` becomes `value`. The delay is kept for the record only; no
      clock is modelled. */
  datatype Transition = Transition(signal: Signal, channel: Channel, value: bool, delayMs: nat)

  /** The reply a written frame arms: the `expect_ok`, `read_requested` and
      `heartbeat_requested` flags. */
  datatype Request = NoRequest | AckRequest | StatusRequest | HeartbeatRequest

  /** The exceptions a simulated port raises. */
  datatype PortError =
    | NotOpen          // SerialException: the port is closed
    | UnexpectedOutput // SerialException: unknown command letter
    | InvalidData      // SerialException: `E`/`I` frame of the wrong length
    | InvalidChannel   // SerialException: first channel neither A nor B
    | InvalidDelay     // ValueError: delay field is not a number
    | IndexOutOfRange  // IndexError: frame shorter than the bytes it is read at

  /** What a command helper does to the pin table and the timers. */
  datatype Update = Update(bank: PinBank, timers: seq<Transition>, error: Option<PortError>)

  /** What one `write` does: new table, timers armed, reply armed, exception. */
  datatype Effect = Effect(bank: PinBank, timers: seq<Transition>, request: Request, error: Option<PortError>)

  datatype WriteResult = Accepted | Raised(error: PortError)

  /** What one `read` returns; `ConsoleFallback` is the read from standard
      input when no reply is armed. */
  datatype ReadResult = Frame(bytes: string) | ConsoleFallback | ReadRaised(error: PortError)

  /** A set-command helper followed by `expect_ok = True` when it did not
      raise. */
  function Acked(u: Update): (e: Effect)
    ensures e.bank == u.bank && e.timers == u.timers && e.error == u.error
    ensures e.request == (if u.error.None? then AckRequest else NoRequest)
  {
    Effect(u.bank, u.timers, if u.error.None? then AckRequest else NoRequest, u.error)
  }

  const AckFrame: string := "OK\n"

  /** The command letters the simulators act on: status request,
      heartbeat request, mode, e-stop, interlock, power, echo string. */
  predicate IsCommandLetter(c: char) {
    c == 'R' || c == 'H' || c == 'M' || c == 'E' || c == 'I' || c == 'P' || c == 'S'
  }

  /** The letters of the two signals with a staggered form. */
  predicate IsChannelLetter(c: char) {
    c == 'E' || c == 'I'
  }

  /** `_encode_pin_states`: 'A', the eight channel-A bits, 'B', the eight
      channel-B bits, newline. */
  function EncodeStatus(bank: PinBank): (frame: string)
    ensures |frame| == 19 && frame[0] == 'A' && frame[9] == 'B' && frame[18] == '\n'
  {
    ['A', Bit(bank.mode1.a), Bit(bank.mode2.a), Bit(bank.estop.a), Bit(bank.interlock.a),
     Bit(bank.stop.a), Bit(bank.teach.a), Bit(bank.heartbeat.a), Bit(bank.power.a),
     'B', Bit(bank.mode1.b), Bit(bank.mode2.b), Bit(bank.estop.b), Bit(bank.interlock.b),
     Bit(bank.stop.b), Bit(bank.teach.b), Bit(bank.heartbeat.b), Bit(bank.power.b),
     '\n']
  }

  /** Field i of `FieldOrder` is sent at offset 1 + i for channel A and at
      offset 10 + i for channel B, the layout the host decodes. */
  lemma EncodeStatusFields(bank: PinBank, i: int)
    requires 0 <= i < 8
    ensures EncodeStatus(bank)[1 + i] == Bit(Get(bank, FieldOrder[i]).a)
    ensures EncodeStatus(bank)[10 + i] == Bit(Get(bank, FieldOrder[i]).b)
  {
    if i == 0 {} else if i == 1 {} else if i == 2 {} else if i == 3 {}
    else if i == 4 {} else if i == 5 {} else if i == 6 {} else {}
  }

  /** `_encode_heartbeat`: `A%05dB%05d`, no line terminator. */
  function EncodeHeartbeat(hzA: int, hzB: int): (frame: string)
    requires 0 <= hzA <= 99999 && 0 <= hzB <= 99999
    ensures |frame| == 12 && frame[0] == 'A' && frame[6] == 'B'
  {
    "A" + DecimalDigits(hzA, 5) + "B" + DecimalDigits(hzB, 5)
  }

  /** Each heartbeat field reads back as the value it was written from. */
  lemma EncodeHeartbeatFields(hzA: int, hzB: int)
    requires 0 <= hzA <= 99999 && 0 <= hzB <= 99999
    ensures DigitsValue(EncodeHeartbeat(hzA, hzB)[1..6]) == Some(hzA)
    ensures DigitsValue(EncodeHeartbeat(hzA, hzB)[7..12]) == Some(hzB)
  {
    HeartbeatSlices(hzA, hzB);
    FiveDigitsValue(hzA);
    FiveDigitsValue(hzB);
  }

  lemma HeartbeatSlices(hzA: int, hzB: int)
    requires 0 <= hzA <= 99999 && 0 <= hzB <= 99999
    ensures EncodeHeartbeat(hzA, hzB)[1..6] == DecimalDigits(hzA, 5)
    ensures EncodeHeartbeat(hzA, hzB)[7..12] == DecimalDigits(hzB, 5)
  {
    var da, db := DecimalDigits(hzA, 5), DecimalDigits(hzB, 5);
    var frame := EncodeHeartbeat(hzA, hzB);
    assert frame == ("A" + da) + ("B" + db);
    assert frame[1..6] == da;
    assert frame[7..12] == db;
  }

  lemma FiveDigitsValue(hz: int)
    requires 0 <= hz <= 99999
    ensures DigitsValue(DecimalDigits(hz, 5)) == Some(hz)
  {
    var w := 5;
    assert Pow10(w) == 100000;
    DecimalDigitsValue(hz, w);
    DivModUnique(hz, Pow10(w), 0, hz);
  }

  /** `_set_mode_from_serial_data`: mode1 from bytes 1 and 3, mode2 from
      bytes 2 and 4 of the raw frame. A frame of four bytes has mode1 set
      before the read of byte 4 raises. */
  function ModeUpdate(bank: PinBank, data: string): (u: Update)
    ensures u.timers == [] && AgreeExcept(bank, u.bank, {Mode1, Mode2})
    ensures u.error.None? <==> |data| >= 5
    ensures u.error.Some? ==> u.error == Some(IndexOutOfRange) && u.bank.mode2 == bank.mode2
    ensures |data| < 4 ==> u.bank == bank
    ensures |data| >= 4 ==> u.bank.mode1 == Pair(IsOne(data[1]), IsOne(data[3]))
    ensures |data| >= 5 ==> u.bank.mode2 == Pair(IsOne(data[2]), IsOne(data[4]))
  {
    if |data| < 4 then Update(bank, [], Some(IndexOutOfRange))
    else
      var withMode1 := bank.(mode1 := Pair(IsOne(data[1]), IsOne(data[3])));
      if |data| < 5 then Update(withMode1, [], Some(IndexOutOfRange))
      else Update(withMode1.(mode2 := Pair(IsOne(data[2]), IsOne(data[4]))), [], None)
  }

  /** `_set_power_from_serial_data`: both power channels from byte 1. */
  function PowerUpdate(bank: PinBank, data: string): (u: Update)
    ensures u.timers == [] && AgreeExcept(bank, u.bank, {Power})
    ensures u.error.None? <==> |data| >= 2
    ensures u.error.None? ==> u.bank.power.a == u.bank.power.b == IsOne(data[1])
    ensures u.error.Some? ==> u.bank == bank && u.error == Some(IndexOutOfRange)
  {
    if |data| < 2 then Update(bank, [], Some(IndexOutOfRange))
    else Update(bank.(power := Pair(IsOne(data[1]), IsOne(data[1]))), [], None)
  }
}
