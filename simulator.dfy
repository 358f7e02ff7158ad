/** The controller simulator of safety-io-tester-gui/mock_serial_port.py: a
    port object holding the pin table, the three reply flags, and the timers
    armed by staggered E-Stop and Interlock commands. A timer is an entry of
    `pending`; `Fire` runs one of them. */
module Simulator {
  import opened Pins
  import opened Text
  import opened Device

  /** How an `E` or `I` frame reads: the letter is taken from the stripped
      text, the two bits from bytes 1 and 2 of the raw frame, the first
      channel and the delay from the stripped text. */
  datatype ChannelCommand =
    | Simultaneous(a: bool, b: bool)
    | Staggered(first: Channel, a: bool, b: bool, delayMs: nat)
    | Malformed(error: PortError)

  /** The length test, then (for 9 characters) the delay parse, then the
      channel test, in the order the source performs them. */
  function ParseChannelCommand(data: string): (cmd: ChannelCommand)
    ensures cmd.Simultaneous? <==> |Strip(data)| == 3
    ensures cmd.Simultaneous? ==> cmd.a == IsOne(data[1]) && cmd.b == IsOne(data[2])
    ensures cmd.Staggered? ==>
      && |Strip(data)| == 9 && cmd.a == IsOne(data[1]) && cmd.b == IsOne(data[2])
      && DigitsValue(Strip(data)[4..9]) == Some(cmd.delayMs)
      && Strip(data)[3] == (if cmd.first == A then 'A' else 'B')
    ensures cmd.Malformed? ==> cmd.error in {InvalidData, InvalidDelay, InvalidChannel}
  {
    var s := Strip(data);
    if |s| == 3 then
      Simultaneous(IsOne(data[1]), IsOne(data[2]))
    else if |s| == 9 then
      match DigitsValue(s[4..9])
      case None => Malformed(InvalidDelay)
      case Some(delay) =>
        if s[3] == 'A' then Staggered(A, IsOne(data[1]), IsOne(data[2]), delay)
        else if s[3] == 'B' then Staggered(B, IsOne(data[1]), IsOne(data[2]), delay)
        else Malformed(InvalidChannel)
    else
      Malformed(InvalidData)
  }

  /** The new pair of the addressed signal and the timer armed: both
      channels at once, or the first channel now and one timer for the other
      channel with its bit from the frame. */
  function ChannelStep(signal: Signal, pair: Pair, cmd: ChannelCommand): (r: (Pair, seq<Transition>))
    requires !cmd.Malformed?
    ensures cmd.Simultaneous? ==> r == (Pair(cmd.a, cmd.b), [])
    ensures cmd.Staggered? ==>
      var bits, first := Pair(cmd.a, cmd.b), cmd.first;
      r.0.Get(first) == bits.Get(first) && r.0.Get(Other(first)) == pair.Get(Other(first))
      && r.1 == [Transition(signal, Other(first), bits.Get(Other(first)), cmd.delayMs)]
  {
    match cmd
    case Simultaneous(a, b) => (Pair(a, b), [])
    case Staggered(first, a, b, delay) =>
      var bits := Pair(a, b);
      (pair.With(first, bits.Get(first)), [Transition(signal, Other(first), bits.Get(Other(first)), delay)])
  }

  /** `_set_estop_from_serial_data`, ending with the stop pins copied from
      the e-stop pins. */
  function EStopUpdate(bank: PinBank, data: string): (u: Update)
    ensures AgreeExcept(bank, u.bank, {EStop, Stop}) && |u.timers| <= 1
    ensures u.error.None? <==> !ParseChannelCommand(data).Malformed?
    ensures u.error.Some? ==> u.bank == bank && u.timers == []
    ensures u.error.None? ==> StopMirrorsEStop(u.bank)
    ensures forall t | t in u.timers :: t.signal == EStopSignal
  {
    var cmd := ParseChannelCommand(data);
    if cmd.Malformed? then Update(bank, [], Some(cmd.error))
    else
      var (estop, timers) := ChannelStep(EStopSignal, bank.estop, cmd);
      Update(bank.(estop := estop, stop := estop), timers, None)
  }

  /** `_set_interlock_from_serial_data`. */
  function InterlockUpdate(bank: PinBank, data: string): (u: Update)
    ensures AgreeExcept(bank, u.bank, {Interlock}) && |u.timers| <= 1
    ensures u.error.None? <==> !ParseChannelCommand(data).Malformed?
    ensures u.error.Some? ==> u.bank == bank && u.timers == []
    ensures forall t | t in u.timers :: t.signal == InterlockSignal
  {
    var cmd := ParseChannelCommand(data);
    if cmd.Malformed? then Update(bank, [], Some(cmd.error))
    else
      var (interlock, timers) := ChannelStep(InterlockSignal, bank.interlock, cmd);
      Update(bank.(interlock := interlock), timers, None)
  }

  /** What `write` does on an open port: dispatch on the first character of
      the stripped frame. */
  function Apply(bank: PinBank, data: string): (e: Effect)
    ensures e.error.Some? ==> e.request == NoRequest && e.timers == []
    ensures |e.timers| <= 1
    ensures e.timers != [] ==> |Strip(data)| == 9 && IsChannelLetter(Strip(data)[0])
    ensures e.request == StatusRequest <==> Strip(data) != [] && Strip(data)[0] == 'R'
    ensures e.request == HeartbeatRequest <==> Strip(data) != [] && Strip(data)[0] == 'H'
  {
    var s := Strip(data);
    if |s| == 0 then Effect(bank, [], NoRequest, Some(IndexOutOfRange))
    else if s[0] == 'R' then Effect(bank, [], StatusRequest, None)
    else if s[0] == 'H' then Effect(bank, [], HeartbeatRequest, None)
    else if s[0] == 'M' then Acked(ModeUpdate(bank, data))
    else if s[0] == 'E' then Acked(EStopUpdate(bank, data))
    else if s[0] == 'I' then Acked(InterlockUpdate(bank, data))
    else if s[0] == 'P' then Acked(PowerUpdate(bank, data))
    else if s[0] == 'S' then Effect(bank, [], AckRequest, None)
    else Effect(bank, [], NoRequest, Some(UnexpectedOutput))
  }

  /** `_process_estop_delay` / `_process_interlock_delay`: one channel of one
      signal set; for the e-stop the stop pins follow. */
  function Settle(bank: PinBank, signal: Signal, channel: Channel, value: bool): (r: PinBank)
    ensures signal == EStopSignal ==> StopMirrorsEStop(r) && r.interlock == bank.interlock
    ensures signal == InterlockSignal ==> r.stop == bank.stop && r.estop == bank.estop
  {
    match signal
    case EStopSignal =>
      var estop := bank.estop.With(channel, value);
      bank.(estop := estop, stop := estop)
    case InterlockSignal =>
      bank.(interlock := bank.interlock.With(channel, value))
  }

  // ----------------------------------------------------------- properties

  /** Every write and every timer keeps `stop == estop`. */
  lemma StopMirrorIsInvariant(bank: PinBank, data: string, t: Transition)
    requires StopMirrorsEStop(bank)
    ensures StopMirrorsEStop(Apply(bank, data).bank)
    ensures StopMirrorsEStop(Settle(bank, t.signal, t.channel, t.value))
  {
  }

  /** A write that raises arms no reply and no timer and changes no pin,
      except that a four-byte `M` frame has set mode1 before raising. */
  lemma RaisingWriteChangesNothing(bank: PinBank, data: string)
    requires Apply(bank, data).error.Some?
    ensures Apply(bank, data).request == NoRequest && Apply(bank, data).timers == []
    ensures AgreeExcept(bank, Apply(bank, data).bank, {Mode1})
    ensures !(|Strip(data)| > 0 && Strip(data)[0] == 'M') ==> Apply(bank, data).bank == bank
  {
    var s, e := Strip(data), Apply(bank, data);
    if |s| == 0 || !IsCommandLetter(s[0]) {
    } else if s[0] == 'E' {
      assert e == Acked(EStopUpdate(bank, data));
      assert ParseChannelCommand(data).Malformed?;
    } else if s[0] == 'I' {
      assert e == Acked(InterlockUpdate(bank, data));
      assert ParseChannelCommand(data).Malformed?;
    } else if s[0] == 'M' {
      assert e == Acked(ModeUpdate(bank, data));
    } else if s[0] == 'P' {
      assert e == Acked(PowerUpdate(bank, data));
    }
  }

  /** Which frames raise: an empty frame, an unknown letter, an `E`/`I`
      frame of a length other than 3 and 9, a 9-character one whose delay
      is not five digits or whose channel is neither A nor B, and `M`/`P`
      frames too short for the bytes read. */
  lemma WhichWritesRaise(bank: PinBank, data: string)
    ensures var s := Strip(data);
      Apply(bank, data).error.Some? <==>
        |s| == 0
        || !IsCommandLetter(s[0])
        || (IsChannelLetter(s[0]) && ParseChannelCommand(data).Malformed?)
        || (s[0] == 'M' && |data| < 5)
        || (s[0] == 'P' && |data| < 2)
  {
    var s, e := Strip(data), Apply(bank, data);
    if |s| == 0 || !IsCommandLetter(s[0]) {
    } else if s[0] == 'E' {
      assert e == Acked(EStopUpdate(bank, data));
    } else if s[0] == 'I' {
      assert e == Acked(InterlockUpdate(bank, data));
    } else if s[0] == 'M' {
      assert e == Acked(ModeUpdate(bank, data));
    } else if s[0] == 'P' {
      assert e == Acked(PowerUpdate(bank, data));
    }
  }

  /** An `M` frame sets mode1 = (byte 1, byte 3), mode2 = (byte 2, byte 4),
      arms the acknowledgement and touches no other pin. */
  lemma ModeCommand(bank: PinBank, data: string)
    requires |Strip(data)| > 0 && Strip(data)[0] == 'M' && |data| >= 5
    ensures var e := Apply(bank, data);
      e.error == None && e.request == AckRequest && e.timers == []
      && e.bank.mode1 == Pair(IsOne(data[1]), IsOne(data[3]))
      && e.bank.mode2 == Pair(IsOne(data[2]), IsOne(data[4]))
      && AgreeExcept(bank, e.bank, {Mode1, Mode2})
  {
  }

  /** A 3-character `E` or `I` frame sets both channels of its signal from
      bytes 1 and 2 at once; for the e-stop the stop pins follow, for the
      interlock nothing else changes. */
  lemma SimultaneousCommand(bank: PinBank, data: string)
    requires |Strip(data)| == 3 && IsChannelLetter(Strip(data)[0])
    ensures var e, field := Apply(bank, data), if Strip(data)[0] == 'E' then EStop else Interlock;
      e.error == None && e.request == AckRequest && e.timers == []
      && Get(e.bank, field) == Pair(IsOne(data[1]), IsOne(data[2]))
      && (Strip(data)[0] == 'E' ==> e.bank.stop == e.bank.estop && AgreeExcept(bank, e.bank, {EStop, Stop}))
      && (Strip(data)[0] == 'I' ==> AgreeExcept(bank, e.bank, {Interlock}))
  {
    if Strip(data)[0] == 'E' {
      assert Apply(bank, data) == Acked(EStopUpdate(bank, data));
    } else {
      assert Apply(bank, data) == Acked(InterlockUpdate(bank, data));
    }
  }

  /** A well-formed 9-character `E` or `I` frame sets the first-named channel
      at once, leaves the other, and arms exactly one timer that will set the
      other channel to its bit from the frame after the parsed delay. */
  lemma StaggeredCommand(bank: PinBank, data: string)
    requires |Strip(data)| == 9 && IsChannelLetter(Strip(data)[0]) && (Strip(data)[3] == 'A' || Strip(data)[3] == 'B')
    requires DigitsValue(Strip(data)[4..9]).Some?
    ensures var s, e := Strip(data), Apply(bank, data);
      var signal := if s[0] == 'E' then EStopSignal else InterlockSignal;
      var field := if s[0] == 'E' then EStop else Interlock;
      var first := if s[3] == 'A' then A else B;
      var bits := Pair(IsOne(data[1]), IsOne(data[2]));
      e.error == None && e.request == AckRequest
      && Get(e.bank, field).Get(first) == bits.Get(first)
      && Get(e.bank, field).Get(Other(first)) == Get(bank, field).Get(Other(first))
      && e.timers == [Transition(signal, Other(first), bits.Get(Other(first)), DigitsValue(s[4..9]).value)]
      && AgreeExcept(bank, e.bank, {EStop, Stop, Interlock})
  {
  }

  /** A timer sets only its own channel of its own signal (and, for the
      e-stop, the stop pins that mirror it). */
  lemma SettleSetsOneChannel(bank: PinBank, t: Transition)
    ensures var r, field := Settle(bank, t.signal, t.channel, t.value), if t.signal == EStopSignal then EStop else Interlock;
      Get(r, field).Get(t.channel) == t.value
      && Get(r, field).Get(Other(t.channel)) == Get(bank, field).Get(Other(t.channel))
      && AgreeExcept(bank, r, {field, Stop})
      && (t.signal == InterlockSignal ==> r.stop == bank.stop)
  {
  }

  /** Interlock commands and interlock timers never modify `stop`. */
  lemma InterlockLeavesStop(bank: PinBank, data: string, channel: Channel, value: bool)
    requires |Strip(data)| > 0 && Strip(data)[0] == 'I'
    ensures Apply(bank, data).bank.stop == bank.stop
    ensures Settle(bank, InterlockSignal, channel, value).stop == bank.stop
  {
  }

  /** A staggered command, once its timer has fired with nothing in between,
      leaves the signal as the simultaneous command with the same bits would. */
  lemma {:induction false} StaggeredSettlesLikeSimultaneous(bank: PinBank, data: string)
    requires |Strip(data)| == 9 && IsChannelLetter(Strip(data)[0]) && (Strip(data)[3] == 'A' || Strip(data)[3] == 'B')
    requires DigitsValue(Strip(data)[4..9]).Some?
    ensures var e := Apply(bank, data);
      |e.timers| == 1 &&
      var settled := Settle(e.bank, e.timers[0].signal, e.timers[0].channel, e.timers[0].value);
      var field := if Strip(data)[0] == 'E' then EStop else Interlock;
      && Get(settled, field) == Pair(IsOne(data[1]), IsOne(data[2]))
      && AgreeExcept(bank, settled, {EStop, Stop, Interlock})
      && (StopMirrorsEStop(bank) ==> StopMirrorsEStop(settled))
  {
    StaggeredCommand(bank, data);
    var e := Apply(bank, data);
    SettleSetsOneChannel(e.bank, e.timers[0]);
  }

  /** `P` sets both power channels to byte 1 and touches no other pin. */
  lemma PowerCommand(bank: PinBank, data: string)
    requires |Strip(data)| > 0 && Strip(data)[0] == 'P' && |data| >= 2
    ensures var e := Apply(bank, data);
      e.error == None && e.request == AckRequest && e.timers == []
      && e.bank.power == Pair(IsOne(data[1]), IsOne(data[1]))
      && AgreeExcept(bank, e.bank, {Power})
  {
  }

  // ------------------------------------------------------------- the port

  class MockSerialPort {
    var isOpen: bool
    var expectOk: bool
    var readRequested: bool
    var heartbeatRequested: bool
    var pins: PinBank
    /** Timers armed and not yet fired, oldest first. */
    var pending: seq<Transition>

    ghost predicate Valid()
      reads this
    {
      StopMirrorsEStop(pins)
    }

    constructor ()
      ensures Valid()
      ensures !isOpen && !expectOk && !readRequested && !heartbeatRequested
      ensures pins == FactoryDefault && pending == []
    {
      isOpen := false;
      expectOk := false;
      readRequested := false;
      heartbeatRequested := false;
      pins := FactoryDefault;
      pending := [];
    }

    method Open()
      modifies this`isOpen
      ensures isOpen
    {
      isOpen := true;
    }

    method Close()
      modifies this`isOpen
      ensures !isOpen
    {
      isOpen := false;
    }

    /** `write`: on a closed port raise; otherwise apply the frame and arm
      the reply it asks for. */
    method Write(data: string) returns (result: WriteResult)
      requires Valid()
      modifies this`expectOk, this`readRequested, this`heartbeatRequested, this`pins, this`pending
      ensures Valid()
      ensures var e := if old(isOpen) then Apply(old(pins), data) else Effect(old(pins), [], NoRequest, Some(NotOpen));
        result == (if e.error.Some? then Raised(e.error.value) else Accepted)
        && pins == e.bank && pending == old(pending) + e.timers
        && expectOk == (old(expectOk) || e.request == AckRequest)
        && readRequested == (old(readRequested) || e.request == StatusRequest)
        && heartbeatRequested == (old(heartbeatRequested) || e.request == HeartbeatRequest)
    {
      if !isOpen {
        return Raised(NotOpen);
      }
      result := WriteOpen(data);
    }

    /** The body of `write` past the open-port test: dispatch on the first
      character of the stripped frame. */
    method WriteOpen(data: string) returns (result: WriteResult)
      requires Valid() && isOpen
      modifies this`expectOk, this`readRequested, this`heartbeatRequested, this`pins, this`pending
      ensures Valid()
      ensures var e := Apply(old(pins), data);
        result == (if e.error.Some? then Raised(e.error.value) else Accepted)
        && pins == e.bank && pending == old(pending) + e.timers
        && expectOk == (old(expectOk) || e.request == AckRequest)
        && readRequested == (old(readRequested) || e.request == StatusRequest)
        && heartbeatRequested == (old(heartbeatRequested) || e.request == HeartbeatRequest)
    {
      ghost var e := Apply(pins, data);
      var s := Strip(data);
      if |s| == 0 {
        return Raised(IndexOutOfRange);
      }
      var error: Option<PortError> := None;
      if s[0] == 'R' {
        assert e == Effect(pins, [], StatusRequest, None);
        readRequested := true;
        return Accepted;
      } else if s[0] == 'H' {
        assert e == Effect(pins, [], HeartbeatRequest, None);
        heartbeatRequested := true;
        return Accepted;
      } else if s[0] == 'S' {
        assert e == Effect(pins, [], AckRequest, None);
        expectOk := true;
        return Accepted;
      } else if !IsCommandLetter(s[0]) {
        assert e == Effect(pins, [], NoRequest, Some(UnexpectedOutput));
        return Raised(UnexpectedOutput);
      }
      error := RunSetter(data, s[0]);
      if error.Some? {
        return Raised(error.value);
      }
      expectOk := true;
      return Accepted;
    }

    /** The `_set_*_from_serial_data` helper the command letter selects. */
    method RunSetter(data: string, letter: char) returns (error: Option<PortError>)
      requires Valid() && |Strip(data)| > 0 && letter == Strip(data)[0]
      requires letter == 'M' || letter == 'E' || letter == 'I' || letter == 'P'
      modifies this`pins, this`pending
      ensures Valid()
      ensures var e := Apply(old(pins), data);
        error == e.error && pins == e.bank && pending == old(pending) + e.timers
        && e.request == (if error.None? then AckRequest else NoRequest)
    {
      StopMirrorIsInvariant(pins, data, Transition(EStopSignal, A, false, 0));
      ghost var e := Apply(pins, data);
      if letter == 'M' {
        assert e == Acked(ModeUpdate(pins, data));
        error := SetModeFromSerialData(data);
      } else if letter == 'E' {
        assert e == Acked(EStopUpdate(pins, data));
        error := SetEStopFromSerialData(data);
      } else if letter == 'I' {
        assert e == Acked(InterlockUpdate(pins, data));
        error := SetInterlockFromSerialData(data);
      } else {
        assert e == Acked(PowerUpdate(pins, data));
        error := SetPowerFromSerialData(data);
      }
    }

    /** `read`: the acknowledgement if armed, else the status frame if
      requested, else the heartbeat frame if requested, clearing only the
      flag it serves. Building the status frame re-rolls the heartbeat pins
      (`jitter`); the heartbeat values are drawn from 5 .. 15. */
    method Read(jitter: Pair, hzA: int, hzB: int) returns (r: ReadResult)
      requires Valid() && 5 <= hzA <= 15 && 5 <= hzB <= 15
      modifies this`expectOk, this`readRequested, this`heartbeatRequested, this`pins
      ensures Valid()
      ensures !old(isOpen) ==> r == ReadRaised(NotOpen)
      ensures !old(isOpen) || (!old(expectOk) && !old(readRequested) && !old(heartbeatRequested)) ==>
        (old(isOpen) ==> r == ConsoleFallback) && unchanged(this)
      ensures old(isOpen) && old(expectOk) ==>
        r == Frame(AckFrame) && !expectOk && pins == old(pins)
        && readRequested == old(readRequested) && heartbeatRequested == old(heartbeatRequested)
      ensures old(isOpen) && !old(expectOk) && old(readRequested) ==>
        r == Frame(EncodeStatus(old(pins))) && !readRequested && pins == old(pins).(heartbeat := jitter)
        && expectOk == old(expectOk) && heartbeatRequested == old(heartbeatRequested)
      ensures old(isOpen) && !old(expectOk) && !old(readRequested) && old(heartbeatRequested) ==>
        r == Frame(EncodeHeartbeat(hzA, hzB)) && !heartbeatRequested && pins == old(pins)
        && expectOk == old(expectOk) && readRequested == old(readRequested)
    {
      if !isOpen {
        return ReadRaised(NotOpen);
      }
      if expectOk {
        expectOk := false;
        return Frame(AckFrame);
      } else if readRequested {
        readRequested := false;
        r := Frame(EncodeStatus(pins));
        UpdateHeartbeat(jitter);
      } else if heartbeatRequested {
        heartbeatRequested := false;
        return Frame(EncodeHeartbeat(hzA, hzB));
      } else {
        return ConsoleFallback;
      }
    }

    /** `_update_heartbeat`, with the random bits as a parameter. */
    method UpdateHeartbeat(jitter: Pair)
      modifies this`pins
      ensures pins == old(pins).(heartbeat := jitter)
    {
      pins := pins.(heartbeat := jitter);
    }

    /** Run the timer at `i` of `pending` and discard it. */
    method Fire(i: nat)
      requires Valid() && i < |pending|
      modifies this`pins, this`pending
      ensures Valid()
      ensures pins == Settle(old(pins), old(pending)[i].signal, old(pending)[i].channel, old(pending)[i].value)
      ensures pending == old(pending)[..i] + old(pending)[i + 1..]
    {
      var t := pending[i];
      pending := pending[..i] + pending[i + 1..];
      match t.signal
      case EStopSignal => ProcessEStopDelay(t.channel, t.value);
      case InterlockSignal => ProcessInterlockDelay(t.channel, t.value);
    }

    method SetModeFromSerialData(data: string) returns (error: Option<PortError>)
      modifies this`pins
      ensures pins == ModeUpdate(old(pins), data).bank && error == ModeUpdate(old(pins), data).error
    {
      if |data| < 4 {
        return Some(IndexOutOfRange);
      }
      pins := pins.(mode1 := Pair(IsOne(data[1]), IsOne(data[3])));
      if |data| < 5 {
        return Some(IndexOutOfRange);
      }
      pins := pins.(mode2 := Pair(IsOne(data[2]), IsOne(data[4])));
      return None;
    }

    method SetEStopFromSerialData(data: string) returns (error: Option<PortError>)
      modifies this`pins, this`pending
      ensures var u := EStopUpdate(old(pins), data);
        pins == u.bank && pending == old(pending) + u.timers && error == u.error
    {
      var s := Strip(data);
      if |s| == 3 {
        pins := pins.(estop := Pair(IsOne(data[1]), IsOne(data[2])));
      } else if |s| == 9 {
        var delay := DigitsValue(s[4..9]);
        if delay.None? {
          return Some(InvalidDelay);
        }
        var second: Channel, secondState: bool;
        if s[3] == 'A' {
          pins := pins.(estop := Pair(IsOne(data[1]), pins.estop.b));
          second, secondState := B, IsOne(data[2]);
        } else if s[3] == 'B' {
          pins := pins.(estop := Pair(pins.estop.a, IsOne(data[2])));
          second, secondState := A, IsOne(data[1]);
        } else {
          return Some(InvalidChannel);
        }
        pending := pending + [Transition(EStopSignal, second, secondState, delay.value)];
      } else {
        return Some(InvalidData);
      }
      UpdateStopPinState();
      return None;
    }

    method ProcessEStopDelay(channel: Channel, state: bool)
      modifies this`pins
      ensures pins == Settle(old(pins), EStopSignal, channel, state)
    {
      if channel == A {
        pins := pins.(estop := Pair(state, pins.estop.b));
      } else {
        pins := pins.(estop := Pair(pins.estop.a, state));
      }
      UpdateStopPinState();
    }

    method UpdateStopPinState()
      modifies this`pins
      ensures pins == old(pins).(stop := old(pins).estop)
    {
      pins := pins.(stop := Pair(pins.estop.a, pins.estop.b));
    }

    method SetInterlockFromSerialData(data: string) returns (error: Option<PortError>)
      modifies this`pins, this`pending
      ensures var u := InterlockUpdate(old(pins), data);
        pins == u.bank && pending == old(pending) + u.timers && error == u.error
    {
      var s := Strip(data);
      if |s| == 3 {
        pins := pins.(interlock := Pair(IsOne(data[1]), IsOne(data[2])));
      } else if |s| == 9 {
        var delay := DigitsValue(s[4..9]);
        if delay.None? {
          return Some(InvalidDelay);
        }
        var second: Channel, secondState: bool;
        if s[3] == 'A' {
          pins := pins.(interlock := Pair(IsOne(data[1]), pins.interlock.b));
          second, secondState := B, IsOne(data[2]);
        } else if s[3] == 'B' {
          pins := pins.(interlock := Pair(pins.interlock.a, IsOne(data[2])));
          second, secondState := A, IsOne(data[1]);
        } else {
          return Some(InvalidChannel);
        }
        pending := pending + [Transition(InterlockSignal, second, secondState, delay.value)];
      } else {
        return Some(InvalidData);
      }
      return None;
    }

    method ProcessInterlockDelay(channel: Channel, state: bool)
      modifies this`pins
      ensures pins == Settle(old(pins), InterlockSignal, channel, state)
    {
      match channel
      case A => pins := pins.(interlock := Pair(state, pins.interlock.b));
      case B => pins := pins.(interlock := Pair(pins.interlock.a, state));
    }

    method SetPowerFromSerialData(data: string) returns (error: Option<PortError>)
      modifies this`pins
      ensures pins == PowerUpdate(old(pins), data).bank && error == PowerUpdate(old(pins), data).error
    {
      if |data| < 2 {
        return Some(IndexOutOfRange);
      }
      pins := pins.(power := Pair(IsOne(data[1]), IsOne(data[1])));
      return None;
    }
  }
}
