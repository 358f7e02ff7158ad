/** The host driver's frame codec (safety-io-tester-gui/model.py): the command
    frames it writes and the status and heartbeat replies it parses. Every
    builder is a pure function of its arguments and of the driver's cached pin
    table. */
module HostCodec {
  import opened Pins
  import opened Text

  // ---------------------------------------------------------------- mode

  /** The mode names `set_mode` accepts. */
  datatype ModeName = Automatic | Stop | Manual | Mute

  /** The four mode bits in wire order A1, A2, B1, B2. */
  datatype ModeBits = ModeBits(a1: bool, a2: bool, b1: bool, b2: bool)

  /** `set_mode`'s table from mode name to mode bits: each channel has
      exactly one of its two mode bits set; A1 for Stop and Manual, B1 for
      Automatic and Stop. */
  function ModeSetting(mode: ModeName): (bits: ModeBits)
    ensures bits.a1 <==> mode.Stop? || mode.Manual?
    ensures bits.b1 <==> mode.Automatic? || mode.Stop?
    ensures bits.a2 == !bits.a1 && bits.b2 == !bits.b1
  {
    if mode == Automatic then ModeBits(false, true, true, false)
    else if mode == ModeName.Stop then ModeBits(true, false, true, false)
    else if mode == Manual then ModeBits(true, false, false, true)
    else ModeBits(false, true, false, true)
  }

  /** `M` + A1 A2 B1 B2 + newline. */
  function ModeFrame(bits: ModeBits): (frame: string)
    ensures |frame| == 6 && frame[0] == 'M' && frame[5] == '\n'
    ensures ModeBits(IsOne(frame[1]), IsOne(frame[2]), IsOne(frame[3]), IsOne(frame[4])) == bits
  {
    ['M', Bit(bits.a1), Bit(bits.a2), Bit(bits.b1), Bit(bits.b2), '\n']
  }

  /** The bits A1, A2, B1, B2 as they sit at offsets 1 .. 4 of a mode frame. */
  function FrameModeBits(frame: string): ModeBits
    requires |frame| >= 5
  {
    ModeBits(IsOne(frame[1]), IsOne(frame[2]), IsOne(frame[3]), IsOne(frame[4]))
  }

  /** `set_mode`: a 6-character `M` frame carrying exactly one set mode bit
      per channel, the bits of the chosen mode. */
  function SetModeFrame(mode: ModeName): (frame: string)
    ensures |frame| == 6 && frame[0] == 'M' && frame[5] == '\n'
    ensures IsOne(frame[1]) != IsOne(frame[2]) && IsOne(frame[3]) != IsOne(frame[4])
    ensures FrameModeBits(frame) == ModeSetting(mode)
  {
    ModeFrame(ModeSetting(mode))
  }

  /** The four frames `set_mode` can send, and no two modes share one. */
  lemma SetModeFrames()
    ensures SetModeFrame(Automatic) == "M0110\n"
    ensures SetModeFrame(ModeName.Stop) == "M1010\n"
    ensures SetModeFrame(Manual) == "M1001\n"
    ensures SetModeFrame(Mute) == "M0101\n"
    ensures forall m, n :: SetModeFrame(m) == SetModeFrame(n) ==> m == n
  {
    forall m: ModeName, n: ModeName | SetModeFrame(m) == SetModeFrame(n)
      ensures m == n
    {
      assert ModeSetting(m) == ModeSetting(n);
    }
  }

  /** The mode bits as `toggle_mode_bit` reads them from the cache:
      A1 = mode1.a, A2 = mode2.a, B1 = mode1.b, B2 = mode2.b. */
  function CachedModeBits(cache: PinBank): (bits: ModeBits)
    ensures Pair(bits.a1, bits.b1) == cache.mode1 && Pair(bits.a2, bits.b2) == cache.mode2
  {
    ModeBits(cache.mode1.a, cache.mode2.a, cache.mode1.b, cache.mode2.b)
  }

  /** The bit named "A1", "A2", "B1" or "B2". */
  function NamedBit(bits: ModeBits, id: string): bool
    requires id in {"A1", "A2", "B1", "B2"}
  {
    if id == "A1" then bits.a1
    else if id == "A2" then bits.a2
    else if id == "B1" then bits.b1
    else bits.b2
  }

  /** `toggle_mode_bit`'s match: flip the named bit. A name outside the four
      matches no case, so nothing is flipped. */
  function FlipBit(bits: ModeBits, id: string): (r: ModeBits)
    ensures forall k :: k in {"A1", "A2", "B1", "B2"} ==>
      NamedBit(r, k) == (if k == id then !NamedBit(bits, k) else NamedBit(bits, k))
    ensures id !in {"A1", "A2", "B1", "B2"} ==> r == bits
  {
    match id
    case "A1" => bits.(a1 := !bits.a1)
    case "A2" => bits.(a2 := !bits.a2)
    case "B1" => bits.(b1 := !bits.b1)
    case "B2" => bits.(b2 := !bits.b2)
    case _ => bits
  }

  /** `toggle_mode_bit`: the cached mode bits with the named one flipped, and
      the cached bits unchanged for any other name. */
  function ToggleModeBitFrame(cache: PinBank, id: string): (frame: string)
    ensures |frame| == 6 && frame[0] == 'M' && frame[5] == '\n'
    ensures forall k :: k in {"A1", "A2", "B1", "B2"} ==>
      NamedBit(FrameModeBits(frame), k) == (NamedBit(CachedModeBits(cache), k) != (k == id))
    ensures id !in {"A1", "A2", "B1", "B2"} ==> FrameModeBits(frame) == CachedModeBits(cache)
  {
    ModeFrame(FlipBit(CachedModeBits(cache), id))
  }

  // ------------------------------------------------------ e-stop, interlock

  /** `first_channel` asks for a staggered transition. */
  predicate Delayed(first: string) {
    first == "A" || first == "B"
  }

  /** The five delay characters, `delay_ms // 10**k % 10` for k = 4 .. 0. */
  function DelayDigits(delayMs: int): (digits: string)
    ensures |digits| == 5
  {
    [DigitChar(delayMs / 10000 % 10), DigitChar(delayMs / 1000 % 10), DigitChar(delayMs / 100 % 10),
     DigitChar(delayMs / 10 % 10), DigitChar(delayMs % 10)]
  }

  /** The delay characters are the zero-padded decimal form of the delay
      modulo 100000. */
  lemma DelayDigitsAreDecimal(delayMs: int)
    ensures DelayDigits(delayMs) == DecimalDigits(delayMs % 100000, 5)
  {
    var d, m, k := delayMs, delayMs % 100000, delayMs / 100000;
    var m1, m2, m3, m4 := m / 10, m / 10 / 10, m / 10 / 10 / 10, m / 10 / 10 / 10 / 10;
    ShiftDown(d, 10000, k, m);
    ShiftDown(d / 10, 1000, k, m1);
    DivDiv(d, 10, 10);
    ShiftDown(d / 100, 100, k, m2);
    DivDiv(d, 100, 10);
    ShiftDown(d / 1000, 10, k, m3);
    DivDiv(d, 1000, 10);
    DivModUnique(d / 10000, 10, k, m4);
    DecimalDigitsFive(m);
  }

  /** Dropping the last decimal digit of `10p * k + m`, with `m < 10p`, leaves
      `p * k + m // 10`; the last digit is that of `m`. */
  lemma ShiftDown(x: int, p: int, k: int, m: int)
    requires p >= 1 && 0 <= m < 10 * p && x == 10 * p * k + m
    ensures x / 10 == p * k + m / 10 && x % 10 == m % 10
    ensures 0 <= m / 10 < p
  {
    assert x == 10 * (p * k + m / 10) + m % 10;
    DivModUnique(x, 10, p * k + m / 10, m % 10);
  }

  lemma DecimalDigitsFive(m: int)
    ensures DecimalDigits(m, 5) ==
      [DigitChar(m / 10 / 10 / 10 / 10 % 10), DigitChar(m / 10 / 10 / 10 % 10), DigitChar(m / 10 / 10 % 10),
       DigitChar(m / 10 % 10), DigitChar(m % 10)]
  {
    assert DecimalDigits(m / 10 / 10 / 10 / 10, 1) == [DigitChar(m / 10 / 10 / 10 / 10 % 10)];
  }

  /** Reading the five delay characters back as a number gives the delay
      modulo 100000: every delay in 0 .. 99999 survives, larger ones are
      truncated rather than rejected. */
  lemma DelayDigitsValue(delayMs: int)
    ensures DigitsValue(DelayDigits(delayMs)) == Some(delayMs % 100000)
    ensures 0 <= delayMs <= 99999 ==> DigitsValue(DelayDigits(delayMs)) == Some(delayMs)
  {
    var m, w := delayMs % 100000, 5;
    assert Pow10(w) == 100000;
    DelayDigitsAreDecimal(delayMs);
    DecimalDigitsValue(m, w);
    DivModUnique(m, Pow10(w), 0, m);
    if 0 <= delayMs <= 99999 {
      DivModUnique(delayMs, Pow10(w), 0, delayMs);
    }
  }

  /** The boundary delays: 0 and 99999 are sent as written, 100000 is sent
      as `00000` and 123456 as `23456`. */
  lemma DelayBoundaries()
    ensures DelayDigits(0) == "00000" && DelayDigits(99999) == "99999"
    ensures DelayDigits(100000) == "00000" && DelayDigits(123456) == "23456"
  {
  }

  /** `toggle_estop` / `toggle_interlock`: the command letter, the new bit of
      each channel (the cached bit, negated when its toggle flag is set), and
      for a staggered transition the first channel and the five delay digits. */
  function ChannelFrame(letter: char, current: Pair, toggleA: bool, toggleB: bool, first: string, delayMs: int)
    : (frame: string)
    ensures |frame| == (if Delayed(first) then 10 else 4)
    ensures frame[0] == letter && frame[|frame| - 1] == '\n'
    ensures IsOne(frame[1]) == (current.a != toggleA) && IsOne(frame[2]) == (current.b != toggleB)
    ensures Delayed(first) ==> frame[3] == first[0] && frame[4..9] == DelayDigits(delayMs)
  {
    var a := if toggleA then !current.a else current.a;
    var b := if toggleB then !current.b else current.b;
    if first == "A" || first == "B" then
      [letter, Bit(a), Bit(b)] + first + DelayDigits(delayMs) + "\n"
    else
      [letter, Bit(a), Bit(b), '\n']
  }

  /** `toggle_estop`: an `E` frame whose bits are the cached e-stop bits,
      each negated when its toggle flag is set. */
  function EStopFrame(cache: PinBank, toggleA: bool, toggleB: bool, first: string, delayMs: int): (frame: string)
    ensures |frame| == (if Delayed(first) then 10 else 4) && frame[0] == 'E'
    ensures IsOne(frame[1]) == (cache.estop.a != toggleA) && IsOne(frame[2]) == (cache.estop.b != toggleB)
  {
    ChannelFrame('E', cache.estop, toggleA, toggleB, first, delayMs)
  }

  /** `toggle_interlock`: an `I` frame whose bits are the cached interlock
      bits, each negated when its toggle flag is set. */
  function InterlockFrame(cache: PinBank, toggleA: bool, toggleB: bool, first: string, delayMs: int): (frame: string)
    ensures |frame| == (if Delayed(first) then 10 else 4) && frame[0] == 'I'
    ensures IsOne(frame[1]) == (cache.interlock.a != toggleA) && IsOne(frame[2]) == (cache.interlock.b != toggleB)
  {
    ChannelFrame('I', cache.interlock, toggleA, toggleB, first, delayMs)
  }

  /** The staggered frame's delay field reads back as the delay modulo
      100000, and two delays that agree modulo 100000 send the same frame. */
  lemma ChannelFrameDelay(letter: char, current: Pair, toggleA: bool, toggleB: bool, first: string, delayMs: int)
    requires Delayed(first)
    ensures DigitsValue(ChannelFrame(letter, current, toggleA, toggleB, first, delayMs)[4..9]) == Some(delayMs % 100000)
    ensures ChannelFrame(letter, current, toggleA, toggleB, first, delayMs + 100000)
         == ChannelFrame(letter, current, toggleA, toggleB, first, delayMs)
  {
    DelayDigitsValue(delayMs);
    DelayDigitsAreDecimal(delayMs);
    DelayDigitsAreDecimal(delayMs + 100000);
    assert (delayMs + 100000) % 100000 == delayMs % 100000;
  }

  // ------------------------------------------------------- power, echo, reads

  /** `toggle_power`: `P0` when either cached power channel is on, else `P1`. */
  function PowerFrame(cache: PinBank): (frame: string)
    ensures |frame| == 3 && frame[0] == 'P' && frame[2] == '\n'
    ensures IsOne(frame[1]) <==> !cache.power.a && !cache.power.b
  {
    if cache.power.a || cache.power.b then "P0\n" else "P1\n"
  }

  /** `set_echo_string`: `S`, the text, newline. The text is ASCII: a
      character above U+00FF makes `bytearray` raise, and the frame is decoded
      as UTF-8 before it is written. */
  function EchoFrame(text: string): (frame: string)
    requires forall c | c in text :: c < '\U{80}'
    ensures |frame| == |text| + 2 && frame[0] == 'S' && frame[|frame| - 1] == '\n'
    ensures frame[1..|frame| - 1] == text
  {
    "S" + text + "\n"
  }

  const StatusRequestFrame: string := "R\n"
  const HeartbeatRequestFrame: string := "H\n"

  // ------------------------------------------------------------- replies

  /** Every character of `line` outside `[lo, hi)` is whitespace. */
  predicate BlankOutside(line: string, lo: int, hi: int) {
    forall j :: 0 <= j < |line| && (j < lo || hi <= j) ==> IsSpace(line[j])
  }

  /** `read_response_OK`: the stripped reply line is exactly `OK`. An
      accepted line is `OK` with only whitespace around it, and a line
      without whitespace is accepted only when it is `OK` itself. */
  predicate IsAck(line: string)
    ensures IsAck(line) ==>
      exists i :: 0 <= i < |line| - 1 && line[i] == 'O' && line[i + 1] == 'K' && BlankOutside(line, i, i + 2)
    ensures (forall j :: 0 <= j < |line| ==> !IsSpace(line[j])) ==> (IsAck(line) <==> line == "OK")
  {
    AckShape(line);
    Strip(line) == "OK"
  }

  /** An accepted line: the `OK` sits right after the leading whitespace
      `TrimLeft` removes, and everything around it is whitespace. A line
      without whitespace strips to itself. */
  lemma AckShape(line: string)
    ensures Strip(line) == "OK" ==>
      var i := |line| - |TrimLeft(line)|;
      0 <= i < |line| - 1 && line[i] == 'O' && line[i + 1] == 'K' && BlankOutside(line, i, i + 2)
    ensures (forall j :: 0 <= j < |line| ==> !IsSpace(line[j])) ==> Strip(line) == line
  {
    if Strip(line) == "OK" {
      AckAfterLeadingBlanks(line);
    }
    if forall j :: 0 <= j < |line| ==> !IsSpace(line[j]) {
      if line != [] {
        assert TrimLeft(line) == line;
        assert !IsSpace(line[|line| - 1]);
      }
    }
  }

  lemma AckAfterLeadingBlanks(line: string)
    requires Strip(line) == "OK"
    ensures var i := |line| - |TrimLeft(line)|;
      0 <= i < |line| - 1 && line[i] == 'O' && line[i + 1] == 'K' && BlankOutside(line, i, i + 2)
  {
    var l := TrimLeft(line);
    var i := |line| - |l|;
    assert l == line[i..];
    assert TrimRight(l) == "OK";
    assert l[..2] == "OK";
    assert line[i] == l[0] && line[i + 1] == l[1];
    forall j | 0 <= j < |line| && (j < i || i + 2 <= j)
      ensures IsSpace(line[j])
    {
      if i + 2 <= j {
        assert line[j] == l[j - i];
      }
    }
  }

  /** The status frame's marker characters are where they belong. */
  predicate StatusFramed(response: string) {
    |response| == 18 && response[0] == 'A' && response[9] == 'B'
  }

  /** The eight pairs of a status frame: field i (in `FieldOrder`) is
      `(response[1 + i] == '1', response[10 + i] == '1')`. */
  function StatusFields(response: string): (bank: PinBank)
    requires |response| >= 18
    ensures forall i :: 0 <= i < 8 ==>
      Get(bank, FieldOrder[i]) == Pair(IsOne(response[1 + i]), IsOne(response[10 + i]))
  {
    PinBank(
      Pair(IsOne(response[1]), IsOne(response[10])),
      Pair(IsOne(response[2]), IsOne(response[11])),
      Pair(IsOne(response[3]), IsOne(response[12])),
      Pair(IsOne(response[4]), IsOne(response[13])),
      Pair(IsOne(response[5]), IsOne(response[14])),
      Pair(IsOne(response[6]), IsOne(response[15])),
      Pair(IsOne(response[7]), IsOne(response[16])),
      Pair(IsOne(response[8]), IsOne(response[17])))
  }

  /** Status parsing in `request_output_pin_states`, with the length checked
      before any character is read: a table only for a well-framed reply, and
      then exactly the table the frame spells. */
  function DecodeStatus(response: string): (r: Option<PinBank>)
    ensures r.Some? <==> StatusFramed(response)
    ensures r.Some? ==> forall i :: 0 <= i < 8 ==>
      Get(r.value, FieldOrder[i]) == Pair(IsOne(response[1 + i]), IsOne(response[10 + i]))
  {
    if StatusFramed(response) then Some(StatusFields(response)) else None
  }

  /** Heartbeat parsing in `request_heartbeat`, the length checked first and
      each field read as exactly five ASCII digits. */
  function DecodeHeartbeat(data: string): (r: Option<(nat, nat)>)
    ensures r.Some? <==> |data| == 12 && data[0] == 'A' && data[6] == 'B' &&
                         forall i :: 0 <= i < 12 && i != 0 && i != 6 ==> IsDigit(data[i])
    ensures r.Some? ==> r.value.0 < 100000 && r.value.1 < 100000
  {
    if |data| == 12 && data[0] == 'A' && data[6] == 'B' then
      HeartbeatFields(data)
    else
      None
  }

  /** `(int(data[1:6]), int(data[7:12]))`, None when either field is not
      all digits. */
  function HeartbeatFields(data: string): (r: Option<(nat, nat)>)
    requires |data| >= 12
    ensures r.Some? <==> (forall i :: 1 <= i < 6 ==> IsDigit(data[i])) && (forall i :: 7 <= i < 12 ==> IsDigit(data[i]))
    ensures r.Some? ==> r.value.0 < 100000 && r.value.1 < 100000
  {
    assert Pow10(5) == 100000;
    assert forall i :: 1 <= i < 6 ==> data[1..6][i - 1] == data[i];
    assert forall i :: 7 <= i < 12 ==> data[7..12][i - 7] == data[i];
    match (DigitsValue(data[1..6]), DigitsValue(data[7..12]))
    case (Some(x), Some(y)) => Some((x, y))
    case _ => None
  }

  /** A parsed heartbeat is the one the frame spells digit for digit. */
  lemma DecodeHeartbeatDigits(data: string)
    requires DecodeHeartbeat(data).Some?
    ensures DecimalDigits(DecodeHeartbeat(data).value.0, 5) == data[1..6]
    ensures DecimalDigits(DecodeHeartbeat(data).value.1, 5) == data[7..12]
  {
    DigitsValueDecimal(data[1..6], DecodeHeartbeat(data).value.0);
    DigitsValueDecimal(data[7..12], DecodeHeartbeat(data).value.1);
  }

  // -------------------------------------------------- change detection

  /** Some pin other than the heartbeat differs between the two tables. */
  ghost predicate ChangedOutsideHeartbeat(cached: PinBank, polled: PinBank) {
    exists f :: f != Heartbeat && Get(polled, f) != Get(cached, f)
  }

  /** A change is reported exactly when the tables differ once the heartbeat
      pair is disregarded. */
  lemma ChangeIgnoresHeartbeat(cached: PinBank, polled: PinBank)
    ensures ChangedOutsideHeartbeat(cached, polled) <==> polled.(heartbeat := cached.heartbeat) != cached
  {
    if polled.(heartbeat := cached.heartbeat) != cached {
      var g := polled.(heartbeat := cached.heartbeat);
      if g.mode1 != cached.mode1 { assert Get(polled, Mode1) != Get(cached, Mode1); }
      else if g.mode2 != cached.mode2 { assert Get(polled, Mode2) != Get(cached, Mode2); }
      else if g.estop != cached.estop { assert Get(polled, EStop) != Get(cached, EStop); }
      else if g.interlock != cached.interlock { assert Get(polled, Interlock) != Get(cached, Interlock); }
      else if g.stop != cached.stop { assert Get(polled, Pins.Stop) != Get(cached, Pins.Stop); }
      else if g.teach != cached.teach { assert Get(polled, Teach) != Get(cached, Teach); }
      else { assert Get(polled, Power) != Get(cached, Power); }
    }
  }

  // ------------------------------------------- the parsers as written

  /** Outcome of a parser that may raise an uncaught Python exception. */
  datatype Guarded<T> = Crash | Rejected | Parsed(value: T)

  /** The status check as written: `response[0]` and `response[9]` are read
      before the length is compared, so a short reply raises IndexError. */
  function DecodeStatusAsWritten(response: string): (r: Guarded<PinBank>)
    ensures r == Crash <==> |response| == 0 || (response[0] == 'A' && |response| <= 9)
  {
    if |response| == 0 then Crash
    else if response[0] != 'A' then Rejected
    else if |response| <= 9 then Crash
    else if response[9] != 'B' || |response| != 18 then Rejected
    else Parsed(StatusFields(response))
  }

  /** The heartbeat check as written: `data[0]` and `data[6]` before the
      length. A field that is not all digits raises ValueError, which is
      caught and gives None. */
  function DecodeHeartbeatAsWritten(data: string): (r: Guarded<(nat, nat)>)
    ensures r == Crash <==> |data| == 0 || (data[0] == 'A' && |data| <= 6)
  {
    if |data| == 0 then Crash
    else if data[0] != 'A' then Rejected
    else if |data| <= 6 then Crash
    else if data[6] != 'B' || |data| != 12 then Rejected
    else match HeartbeatFields(data)
      case Some(v) => Parsed(v)
      case None => Rejected
  }

  /** Where the as-written checks do not raise, they agree with the
      length-first decoders; they raise on the empty line a read timeout
      returns, and on a short line starting with 'A'. */
  lemma AsWrittenParsersCrashOnlyOnShortLines(line: string)
    ensures DecodeStatusAsWritten("") == Crash && DecodeHeartbeatAsWritten("") == Crash
    ensures DecodeStatusAsWritten("A1") == Crash && DecodeHeartbeatAsWritten("A1") == Crash
    ensures DecodeStatusAsWritten(line) != Crash ==>
      DecodeStatus(line) == (if DecodeStatusAsWritten(line).Parsed? then Some(DecodeStatusAsWritten(line).value) else None)
    ensures DecodeHeartbeatAsWritten(line) != Crash ==>
      DecodeHeartbeat(line) == (if DecodeHeartbeatAsWritten(line).Parsed? then Some(DecodeHeartbeatAsWritten(line).value) else None)
  {
  }
}
