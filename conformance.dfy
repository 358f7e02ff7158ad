/** How the two ends fit together: the frames the host driver builds, as the
    simulated controllers read them, and the replies the controllers send, as
    the host driver parses them. */
module Conformance {
  import opened Pins
  import opened Text
  import opened HostCodec
  import opened HostDriver
  import opened Device
  import Simulator
  import Emulator

  // ------------------------------------------------------------- replies

  /** A status frame sent by either controller decodes to the table it was
      built from. */
  lemma {:induction false} StatusRoundTrip(bank: PinBank)
    ensures DecodeStatus(Strip(EncodeStatus(bank))) == Some(bank)
  {
    var frame := EncodeStatus(bank);
    assert frame == frame[..18] + "\n";
    assert !IsSpace(frame[17]) by { assert frame[17] == Bit(bank.power.b); }
    StripKeepsBody(frame[..18], "\n");
    var body := frame[..18];
    var decoded := DecodeStatus(body).value;
    forall i | 0 <= i < 8
      ensures Get(decoded, FieldOrder[i]) == Get(bank, FieldOrder[i])
    {
      EncodeStatusFields(bank, i);
      BitIsOne(Get(bank, FieldOrder[i]).a);
      BitIsOne(Get(bank, FieldOrder[i]).b);
      assert body[1 + i] == frame[1 + i] && body[10 + i] == frame[10 + i];
    }
    assert Get(decoded, FieldOrder[0]) == Get(bank, FieldOrder[0]);
    assert Get(decoded, FieldOrder[1]) == Get(bank, FieldOrder[1]);
    assert Get(decoded, FieldOrder[2]) == Get(bank, FieldOrder[2]);
    assert Get(decoded, FieldOrder[3]) == Get(bank, FieldOrder[3]);
    assert Get(decoded, FieldOrder[4]) == Get(bank, FieldOrder[4]);
    assert Get(decoded, FieldOrder[5]) == Get(bank, FieldOrder[5]);
    assert Get(decoded, FieldOrder[6]) == Get(bank, FieldOrder[6]);
    assert Get(decoded, FieldOrder[7]) == Get(bank, FieldOrder[7]);
  }

  /** A heartbeat frame decodes to the two values it was built from. */
  lemma {:induction false} HeartbeatRoundTrip(hzA: int, hzB: int)
    requires 0 <= hzA <= 99999 && 0 <= hzB <= 99999
    ensures DecodeHeartbeat(Strip(EncodeHeartbeat(hzA, hzB))) == Some((hzA, hzB))
  {
    var frame := EncodeHeartbeat(hzA, hzB);
    EncodeHeartbeatFields(hzA, hzB);
    HeartbeatSlices(hzA, hzB);
    assert IsDigit(frame[11]) by { assert frame[11] == frame[7..12][4]; }
    assert frame + [] == frame;
    StripKeepsBody(frame, []);
  }

  /** The acknowledgement both controllers send is what `read_response_OK`
      accepts. */
  lemma AckIsAccepted()
    ensures IsAck(AckFrame)
  {
    StripKeepsBody("OK", "\n");
    assert AckFrame == "OK" + "\n";
  }

  // -------------------------------------------------------------- frames

  /** Every mode frame is acknowledged and leaves the controller with the
      mode bits it carries, on both controllers. */
  lemma ModeFrameApplied(bank: PinBank, bits: ModeBits)
    ensures var e := Simulator.Apply(bank, ModeFrame(bits));
      e.error == None && e.request == AckRequest && CachedModeBits(e.bank) == bits
      && AgreeExcept(bank, e.bank, {Mode1, Mode2})
    ensures var e := Emulator.EmulatorApply(bank, ModeFrame(bits));
      e.error == None && e.request == AckRequest && CachedModeBits(e.bank) == bits
      && AgreeExcept(bank, e.bank, {Mode1, Mode2})
  {
    StripKeepsFirst(ModeFrame(bits));
  }

  /** `set_mode(m)` puts the controller in mode `m`. */
  lemma SetModeReachesMode(bank: PinBank, mode: ModeName)
    ensures CachedModeBits(Simulator.Apply(bank, SetModeFrame(mode)).bank) == ModeSetting(mode)
  {
    ModeFrameApplied(bank, ModeSetting(mode));
  }

  /** `toggle_mode_bit` on a cache that matches the controller flips exactly
      the named bit there. */
  lemma ToggleModeBitApplied(bank: PinBank, id: string)
    ensures CachedModeBits(Simulator.Apply(bank, ToggleModeBitFrame(bank, id)).bank)
      == FlipBit(CachedModeBits(bank), id)
  {
    ModeFrameApplied(bank, FlipBit(CachedModeBits(bank), id));
  }

  /** `toggle_power` switches a controller that reports any power channel on
      to both off, and one with both off to both on; both controllers agree. */
  lemma PowerToggleApplied(cache: PinBank, bank: PinBank)
    ensures var e := Simulator.Apply(bank, PowerFrame(cache));
      e.error == None && e.request == AckRequest && AgreeExcept(bank, e.bank, {Power})
      && e.bank.power == (if cache.power.a || cache.power.b then Pair(false, false) else Pair(true, true))
    ensures var e := Emulator.EmulatorApply(bank, PowerFrame(cache));
      e.error == None && e.request == AckRequest && AgreeExcept(bank, e.bank, {Power})
      && e.bank.power == (if cache.power.a || cache.power.b then Pair(false, false) else Pair(true, true))
  {
    StripKeepsFirst(PowerFrame(cache));
  }

  /** An echo-string frame is acknowledged and changes no pin. */
  lemma EchoFrameApplied(bank: PinBank, text: string)
    requires forall c | c in text :: c < '\U{80}'
    ensures Simulator.Apply(bank, EchoFrame(text)) == Effect(bank, [], AckRequest, None)
    ensures Emulator.EmulatorApply(bank, EchoFrame(text)) == Effect(bank, [], AckRequest, None)
  {
    StripKeepsFirst(EchoFrame(text));
  }

  /** The two request frames arm the status and heartbeat replies. */
  lemma RequestFramesApplied(bank: PinBank)
    ensures Simulator.Apply(bank, StatusRequestFrame) == Effect(bank, [], StatusRequest, None)
    ensures Simulator.Apply(bank, HeartbeatRequestFrame) == Effect(bank, [], HeartbeatRequest, None)
  {
    StripKeepsFirst(StatusRequestFrame);
    StripKeepsFirst(HeartbeatRequestFrame);
  }

  /** The letter and body of an `E`/`I` frame survive stripping. */
  lemma ChannelFrameStrip(letter: char, current: Pair, toggleA: bool, toggleB: bool, first: string, delayMs: int)
    requires letter == 'E' || letter == 'I'
    ensures var frame := ChannelFrame(letter, current, toggleA, toggleB, first, delayMs);
      Strip(frame) == frame[..|frame| - 1]
  {
    var frame := ChannelFrame(letter, current, toggleA, toggleB, first, delayMs);
    var body := frame[..|frame| - 1];
    assert frame == body + "\n";
    if Delayed(first) {
      assert IsDigit(body[8]) by {
        assert body[8] == frame[4..9][4];
        DelayDigitsAreDecimal(delayMs);
      }
    } else {
      assert body[2] == Bit(current.b != toggleB);
    }
    StripKeepsBody(body, "\n");
  }

  /** A frame from `toggle_estop` or `toggle_interlock` without a first
      channel sets both channels of the signal to the toggled cache values
      (for the e-stop, stop with them); the interlock leaves stop alone. */
  lemma SimultaneousToggleApplied(letter: char, current: Pair, bank: PinBank, toggleA: bool, toggleB: bool, first: string, delayMs: int)
    requires letter == 'E' || letter == 'I'
    requires !Delayed(first)
    ensures var field := if letter == 'E' then EStop else Interlock;
      var e := Simulator.Apply(bank, ChannelFrame(letter, current, toggleA, toggleB, first, delayMs));
      && e.error == None && e.request == AckRequest && e.timers == []
      && Get(e.bank, field) == Pair(current.a != toggleA, current.b != toggleB)
      && AgreeExcept(bank, e.bank, {field, Field.Stop})
      && (letter == 'E' ==> StopMirrorsEStop(e.bank))
      && (letter == 'I' ==> e.bank.stop == bank.stop)
  {
    var frame := ChannelFrame(letter, current, toggleA, toggleB, first, delayMs);
    ChannelFrameStrip(letter, current, toggleA, toggleB, first, delayMs);
    var s := Strip(frame);
    assert s == frame[..3] && s[0] == letter;
    var cmd := Simulator.ParseChannelCommand(frame);
    assert cmd == Simulator.Simultaneous(current.a != toggleA, current.b != toggleB);
    if letter == 'E' {
      assert Simulator.Apply(bank, frame) == Acked(Simulator.EStopUpdate(bank, frame));
    } else {
      assert Simulator.Apply(bank, frame) == Acked(Simulator.InterlockUpdate(bank, frame));
    }
  }

  /** The earlier emulator applies every `E`/`I` frame from the host at once,
      with or without a first channel and delay: both channels take the
      toggled cache values, no timer is armed and stop is not touched. */
  lemma EmulatorToggleApplied(letter: char, current: Pair, bank: PinBank, toggleA: bool, toggleB: bool, first: string, delayMs: int)
    requires letter == 'E' || letter == 'I'
    ensures var field := if letter == 'E' then EStop else Interlock;
      var e := Emulator.EmulatorApply(bank, ChannelFrame(letter, current, toggleA, toggleB, first, delayMs));
      && e.error == None && e.request == AckRequest && e.timers == []
      && Get(e.bank, field) == Pair(current.a != toggleA, current.b != toggleB)
      && AgreeExcept(bank, e.bank, {field})
  {
    var frame := ChannelFrame(letter, current, toggleA, toggleB, first, delayMs);
    ChannelFrameStrip(letter, current, toggleA, toggleB, first, delayMs);
    var field := if letter == 'E' then EStop else Interlock;
    assert Strip(frame)[0] == letter && |frame| >= 3;
    var u := Emulator.BothChannelsUpdate(bank, field, frame);
    assert Emulator.EmulatorApply(bank, frame) == Acked(u);
  }

  /** A frame with a first channel reads back, on the simulator, as the
      staggered command with the toggled bits, that channel and the delay
      reduced modulo 100000. */
  lemma ChannelFrameParses(letter: char, current: Pair, toggleA: bool, toggleB: bool, first: string, delayMs: int)
    requires letter == 'E' || letter == 'I'
    requires Delayed(first)
    ensures var frame := ChannelFrame(letter, current, toggleA, toggleB, first, delayMs);
      && Strip(frame) != [] && Strip(frame)[0] == letter
      && Simulator.ParseChannelCommand(frame)
         == Simulator.Staggered(if first == "A" then A else B, current.a != toggleA, current.b != toggleB, delayMs % 100000)
  {
    var frame := ChannelFrame(letter, current, toggleA, toggleB, first, delayMs);
    ChannelFrameStrip(letter, current, toggleA, toggleB, first, delayMs);
    ChannelFrameDelay(letter, current, toggleA, toggleB, first, delayMs);
    var s := Strip(frame);
    assert s == frame[..9];
    assert |s| == 9 && s[0] == letter && s[3] == first[0];
    assert s[4..9] == frame[4..9];
    assert DigitsValue(s[4..9]) == Some(delayMs % 100000);
    assert first[0] == 'A' <==> first == "A";
  }

  /** A frame from `toggle_estop` or `toggle_interlock` with a first channel
      sets that channel at once and arms one timer for the other channel,
      due after the delay reduced modulo 100000; once it fires the signal
      holds the toggled cache values on both channels. */
  lemma StaggeredToggleApplied(letter: char, current: Pair, bank: PinBank, toggleA: bool, toggleB: bool, first: string, delayMs: int)
    requires letter == 'E' || letter == 'I'
    requires Delayed(first)
    ensures var field := if letter == 'E' then EStop else Interlock;
      var e := Simulator.Apply(bank, ChannelFrame(letter, current, toggleA, toggleB, first, delayMs));
      var firstChannel := if first == "A" then A else B;
      var target := Pair(current.a != toggleA, current.b != toggleB);
      && e.error == None && e.request == AckRequest && |e.timers| == 1
      && Get(e.bank, field).Get(firstChannel) == target.Get(firstChannel)
      && Get(e.bank, field).Get(Other(firstChannel)) == Get(bank, field).Get(Other(firstChannel))
      && e.timers[0].channel == Other(firstChannel) && e.timers[0].delayMs == delayMs % 100000
      && Get(Simulator.Settle(e.bank, e.timers[0].signal, e.timers[0].channel, e.timers[0].value), field) == target
  {
    var frame := ChannelFrame(letter, current, toggleA, toggleB, first, delayMs);
    ChannelFrameParses(letter, current, toggleA, toggleB, first, delayMs);
    var t := Strip(frame);
    assert t == frame[..9] && t[0] == letter && t[3] == first[0];
    assert DigitsValue(t[4..9]) == Some(delayMs % 100000) by {
      assert t[4..9] == frame[4..9];
      ChannelFrameDelay(letter, current, toggleA, toggleB, first, delayMs);
    }
    Simulator.StaggeredCommand(bank, frame);
    Simulator.StaggeredSettlesLikeSimultaneous(bank, frame);
  }

  lemma DelayFieldExample()
    ensures DigitsValue("00100") == Some(100)
  {
    assert "00100"[..4] == "0010" && "0010"[..3] == "001" && "001"[..2] == "00" && "00"[..1] == "0";
  }

  /** The example of `toggle_estop`'s documentation, `E11B00100`: e-stop B
      (and stop B) goes on at once, and e-stop A 100 ms later. */
  lemma StaggeredEStopExample()
    ensures var e := Simulator.Apply(AllClear, "E11B00100\n");
      && e.bank.estop == Pair(false, true) && e.bank.stop == Pair(false, true)
      && e.timers == [Transition(EStopSignal, A, true, 100)]
      && Simulator.Settle(e.bank, EStopSignal, A, true).estop == Pair(true, true)
      && Simulator.Settle(e.bank, EStopSignal, A, true).stop == Pair(true, true)
  {
    var data := "E11B00100\n";
    assert data == "E11B00100" + "\n";
    StripKeepsBody("E11B00100", "\n");
    DelayFieldExample();
    var s := Strip(data);
    assert s == "E11B00100";
    assert |s| == 9 && s[3] == 'B' && s[4..9] == "00100";
    assert data[1] == '1' && data[2] == '1';
    assert Simulator.ParseChannelCommand(data) == Simulator.Staggered(B, true, true, 100);
  }

  // -------------------------------------------------------- a full poll

  /** Whether or not a poll replaced the cache, the cache afterwards agrees
      with the polled table, and with that table after any heartbeat
      re-roll, on every signal but the heartbeat. */
  lemma PolledCacheAgrees(cached: PinBank, polled: PinBank, jitter: Pair)
    ensures var next := if ChangedOutsideHeartbeat(cached, polled) then polled else cached;
      AgreeExcept(next, polled.(heartbeat := jitter), {Heartbeat})
  {
    var next := if ChangedOutsideHeartbeat(cached, polled) then polled else cached;
    PollKeepsCacheCurrent(cached, polled);
    forall f | f != Heartbeat
      ensures Get(next, f) == Get(polled.(heartbeat := jitter), f)
    {
      assert Get(next, f) == Get(next.(heartbeat := polled.heartbeat), f);
    }
  }

  /** One status poll of the simulated controller by the host driver:
      `R` is written, the reply is read and handed to the driver. Afterwards
      the driver's cache agrees with the controller's table on every signal
      except the heartbeat, which the controller re-rolled while replying. */
  method PollSimulator(driver: Driver, port: Simulator.MockSerialPort, jitter: Pair)
    returns (states: Option<PinBank>)
    requires port.Valid() && port.isOpen && !port.expectOk && driver.connected
    modifies driver, port
    ensures port.Valid()
    ensures states == Some(old(port.pins)) && driver.connected
    ensures AgreeExcept(driver.cache, port.pins, {Heartbeat})
  {
    ghost var bank, cached := port.pins, driver.cache;
    RequestFramesApplied(bank);
    var written := port.Write(StatusRequestFrame);
    assert port.pins == bank && port.readRequested && !port.expectOk;
    var reply := port.Read(jitter, 5, 5);
    assert reply == Frame(EncodeStatus(bank)) && port.pins == bank.(heartbeat := jitter);
    assert driver.connected && driver.cache == cached;
    StatusRoundTrip(bank);
    assert DecodeStatus(Strip(reply.bytes)) == Some(bank);
    states := driver.RequestOutputPinStates(Line(reply.bytes));
    assert states == Some(bank) && driver.connected;
    PolledCacheAgrees(cached, bank, jitter);
  }
}
