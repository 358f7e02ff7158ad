/** The earlier controller simulator, safety_io_tester_emulator.py (kept in
    two byte-identical copies): `E` and `I` frames set both channels at once,
    nothing derives `stop` from `estop`, and an unknown command letter is
    echoed to standard output instead of raising. */
module Emulator {
  import opened Pins
  import opened Text
  import opened Device

  /** Both channels of a signal from bytes 1 and 2 of the raw frame; the
      rest of the frame, a delay suffix included, is not read. */
  function BothChannelsUpdate(bank: PinBank, field: Field, data: string): (u: Update)
    requires field == EStop || field == Interlock
    ensures u.timers == [] && AgreeExcept(bank, u.bank, {field})
    ensures u.error.None? <==> |data| >= 3
    ensures u.error.None? ==> Get(u.bank, field) == Pair(IsOne(data[1]), IsOne(data[2]))
    ensures u.error.Some? ==> u.bank == bank && u.error == Some(IndexOutOfRange)
  {
    if |data| < 3 then Update(bank, [], Some(IndexOutOfRange))
    else
      var bits := Pair(IsOne(data[1]), IsOne(data[2]));
      if field == EStop then Update(bank.(estop := bits), [], None)
      else Update(bank.(interlock := bits), [], None)
  }

  /** What `write` does on an open port. */
  function EmulatorApply(bank: PinBank, data: string): (e: Effect)
    ensures e.error.Some? ==> e.error == Some(IndexOutOfRange) && e.request == NoRequest
    ensures e.request == StatusRequest <==> Strip(data) != [] && Strip(data)[0] == 'R'
    ensures e.request == HeartbeatRequest <==> Strip(data) != [] && Strip(data)[0] == 'H'
  {
    var s := Strip(data);
    if |s| == 0 then Effect(bank, [], NoRequest, Some(IndexOutOfRange))
    else if s[0] == 'R' then Effect(bank, [], StatusRequest, None)
    else if s[0] == 'H' then Effect(bank, [], HeartbeatRequest, None)
    else if s[0] == 'M' then Acked(ModeUpdate(bank, data))
    else if s[0] == 'E' then Acked(BothChannelsUpdate(bank, EStop, data))
    else if s[0] == 'I' then Acked(BothChannelsUpdate(bank, Interlock, data))
    else if s[0] == 'P' then Acked(PowerUpdate(bank, data))
    else if s[0] == 'S' then Effect(bank, [], AckRequest, None)
    else Effect(bank, [], NoRequest, None)
  }

  // ----------------------------------------------------------- properties

  /** `E`/`I` frames are applied at once whatever follows byte 2: a delayed
      frame and the plain frame with the same bits have the same effect, and
      no timer is ever armed. */
  lemma DelaySuffixIgnored(bank: PinBank, plain: string, delayed: string)
    requires |plain| >= 3 && |delayed| >= 3 && plain[..3] == delayed[..3]
    requires IsChannelLetter(plain[0]) && Strip(plain) != [] && Strip(delayed) != []
    requires Strip(plain)[0] == plain[0] && Strip(delayed)[0] == plain[0]
    ensures EmulatorApply(bank, plain) == EmulatorApply(bank, delayed)
    ensures EmulatorApply(bank, plain).timers == []
  {
    assert plain[1] == delayed[1] && plain[2] == delayed[2] by {
      assert plain[1] == plain[..3][1] && delayed[1] == delayed[..3][1];
      assert plain[2] == plain[..3][2] && delayed[2] == delayed[..3][2];
    }
  }

  /** An `M` frame sets mode1 = (byte 1, byte 3), mode2 = (byte 2, byte 4),
      arms the acknowledgement and touches no other pin. */
  lemma ModeCommand(bank: PinBank, data: string)
    requires |Strip(data)| > 0 && Strip(data)[0] == 'M' && |data| >= 5
    ensures var e := EmulatorApply(bank, data);
      e.error == None && e.request == AckRequest
      && e.bank.mode1 == Pair(IsOne(data[1]), IsOne(data[3]))
      && e.bank.mode2 == Pair(IsOne(data[2]), IsOne(data[4]))
      && AgreeExcept(bank, e.bank, {Mode1, Mode2})
  {
  }

  /** `P` sets both power channels to byte 1, arms the acknowledgement and
      touches no other pin. */
  lemma PowerCommand(bank: PinBank, data: string)
    requires |Strip(data)| > 0 && Strip(data)[0] == 'P' && |data| >= 2
    ensures var e := EmulatorApply(bank, data);
      e.error == None && e.request == AckRequest
      && e.bank.power == Pair(IsOne(data[1]), IsOne(data[1]))
      && AgreeExcept(bank, e.bank, {Power})
  {
  }

  /** No frame touches `stop`, and no frame arms a timer. */
  lemma StopNeverWritten(bank: PinBank, data: string)
    ensures EmulatorApply(bank, data).bank.stop == bank.stop
    ensures EmulatorApply(bank, data).timers == []
  {
    var s, e := Strip(data), EmulatorApply(bank, data);
    if |s| == 0 || !IsCommandLetter(s[0]) {
    } else if s[0] == 'E' {
      assert e == Acked(BothChannelsUpdate(bank, EStop, data));
    } else if s[0] == 'I' {
      assert e == Acked(BothChannelsUpdate(bank, Interlock, data));
    } else if s[0] == 'M' {
      assert e == Acked(ModeUpdate(bank, data));
    } else if s[0] == 'P' {
      assert e == Acked(PowerUpdate(bank, data));
    }
  }

  /** An unknown command letter changes nothing, arms no reply and raises
      nothing. */
  lemma UnknownLetterIsSilent(bank: PinBank, data: string)
    requires Strip(data) != [] && !IsCommandLetter(Strip(data)[0])
    ensures EmulatorApply(bank, data) == Effect(bank, [], NoRequest, None)
  {
  }

  /** The only frames that raise are the blank frame and `M`, `E`, `I`, `P`
      frames too short for the bytes they read. */
  lemma WhichWritesRaise(bank: PinBank, data: string)
    ensures var s := Strip(data);
      EmulatorApply(bank, data).error.Some? <==>
        |s| == 0
        || (s[0] == 'M' && |data| < 5)
        || (IsChannelLetter(s[0]) && |data| < 3)
        || (s[0] == 'P' && |data| < 2)
  {
    var s, e := Strip(data), EmulatorApply(bank, data);
    if |s| == 0 || !IsCommandLetter(s[0]) {
    } else if s[0] == 'E' {
      assert e == Acked(BothChannelsUpdate(bank, EStop, data));
    } else if s[0] == 'I' {
      assert e == Acked(BothChannelsUpdate(bank, Interlock, data));
    } else if s[0] == 'M' {
      assert e == Acked(ModeUpdate(bank, data));
    } else if s[0] == 'P' {
      assert e == Acked(PowerUpdate(bank, data));
    }
  }

  /** Because `stop` is never derived, the e-stop frame `E00` leaves the
      factory table with `stop` no longer mirroring `estop`. */
  lemma {:induction false} StopMirrorCanBreak()
    ensures StopMirrorsEStop(FactoryDefault)
    ensures !StopMirrorsEStop(EmulatorApply(FactoryDefault, "E00\n").bank)
  {
    StripKeepsBody("E00", "\n");
    assert "E00\n" == "E00" + "\n";
  }

  // ------------------------------------------------------------- the port

  class MockSerialPort {
    var isOpen: bool
    var expectOk: bool
    var readRequested: bool
    var heartbeatRequested: bool
    var pins: PinBank

    constructor ()
      ensures !isOpen && !expectOk && !readRequested && !heartbeatRequested
      ensures pins == FactoryDefault
    {
      isOpen := false;
      expectOk := false;
      readRequested := false;
      heartbeatRequested := false;
      pins := FactoryDefault;
    }

    method Open()
      modifies this`isOpen
      ensures isOpen
    {
      isOpen := true;
    }

    method Close()
      modifies this`isOpen
      ensures !isOpen
    {
      isOpen := false;
    }

    /** `write`: on a closed port raise; otherwise apply the frame in place
      and arm the reply it asks for. */
    method Write(data: string) returns (result: WriteResult)
      modifies this`expectOk, this`readRequested, this`heartbeatRequested, this`pins
      ensures var e := if old(isOpen) then EmulatorApply(old(pins), data) else Effect(old(pins), [], NoRequest, Some(NotOpen));
        result == (if e.error.Some? then Raised(e.error.value) else Accepted)
        && pins == e.bank
        && expectOk == (old(expectOk) || e.request == AckRequest)
        && readRequested == (old(readRequested) || e.request == StatusRequest)
        && heartbeatRequested == (old(heartbeatRequested) || e.request == HeartbeatRequest)
    {
      if !isOpen {
        return Raised(NotOpen);
      }
      var s := Strip(data);
      if |s| == 0 {
        return Raised(IndexOutOfRange);
      }
      if s[0] == 'R' {
        readRequested := true;
      } else if s[0] == 'H' {
        heartbeatRequested := true;
      } else if s[0] == 'M' {
        if |data| < 4 {
          return Raised(IndexOutOfRange);
        }
        pins := pins.(mode1 := Pair(IsOne(data[1]), IsOne(data[3])));
        if |data| < 5 {
          return Raised(IndexOutOfRange);
        }
        pins := pins.(mode2 := Pair(IsOne(data[2]), IsOne(data[4])));
        expectOk := true;
      } else if s[0] == 'E' || s[0] == 'I' {
        if |data| < 3 {
          return Raised(IndexOutOfRange);
        }
        var bits := Pair(IsOne(data[1]), IsOne(data[2]));
        if s[0] == 'E' {
          pins := pins.(estop := bits);
        } else {
          pins := pins.(interlock := bits);
        }
        expectOk := true;
      } else if s[0] == 'P' {
        if |data| < 2 {
          return Raised(IndexOutOfRange);
        }
        pins := pins.(power := Pair(IsOne(data[1]), IsOne(data[1])));
        expectOk := true;
      } else if s[0] == 'S' {
        expectOk := true;
      }
      return Accepted;
    }

    /** `read`: the acknowledgement if armed, else the status frame if
      requested, else the heartbeat frame (two values drawn from
      0 .. 99999) if requested, clearing only the flag it serves. No read
      changes a pin. */
    method Read(hzA: int, hzB: int) returns (r: ReadResult)
      requires 0 <= hzA <= 99999 && 0 <= hzB <= 99999
      modifies this`expectOk, this`readRequested, this`heartbeatRequested
      ensures pins == old(pins)
      ensures !old(isOpen) ==> r == ReadRaised(NotOpen)
      ensures !old(isOpen) || (!old(expectOk) && !old(readRequested) && !old(heartbeatRequested)) ==>
        (old(isOpen) ==> r == ConsoleFallback) && unchanged(this)
      ensures old(isOpen) && old(expectOk) ==>
        r == Frame(AckFrame) && !expectOk
        && readRequested == old(readRequested) && heartbeatRequested == old(heartbeatRequested)
      ensures old(isOpen) && !old(expectOk) && old(readRequested) ==>
        r == Frame(EncodeStatus(pins)) && !readRequested
        && expectOk == old(expectOk) && heartbeatRequested == old(heartbeatRequested)
      ensures old(isOpen) && !old(expectOk) && !old(readRequested) && old(heartbeatRequested) ==>
        r == Frame(EncodeHeartbeat(hzA, hzB)) && !heartbeatRequested
        && expectOk == old(expectOk) && readRequested == old(readRequested)
    {
      if !isOpen {
        return ReadRaised(NotOpen);
      }
      if expectOk {
        expectOk := false;
        return Frame(AckFrame);
      } else if readRequested {
        readRequested := false;
        return Frame(EncodeStatus(pins));
      } else if heartbeatRequested {
        heartbeatRequested := false;
        return Frame(EncodeHeartbeat(hzA, hzB));
      } else {
        return ConsoleFallback;
      }
    }
  }
}
