/** The host side of safety-io-tester-gui/model.py: the `Model` object that
    owns the serial port and the cached output pin table. The port is seen
    only through whether it is open and through the reply line each
    exchange produced, which is a parameter of every exchanging method. */
module HostDriver {
  import opened Pins
  import opened Text
  import opened HostCodec

  /** What one write-then-readline exchange produced: the write or the read
      raised `SerialException` / `SerialTimeoutException`, or a line came
      back (possibly empty, when the read timed out). */
  datatype Exchange = TransportFailure | Line(text: string)

  /** The exchange as the host sees it: a closed port makes the write raise
      whatever the line would have been. */
  function Reply(connected: bool, reply: Exchange): (line: Option<string>)
    ensures line.Some? <==> connected && reply.Line?
    ensures line.Some? ==> line.value == reply.text
  {
    if connected && reply.Line? then Some(reply.text) else None
  }

  class Driver {
    /** The name of the serial port last connected to. */
    var port: string
    /** `serial.is_open`. */
    var connected: bool
    /** `output_pin_states`: the last status that differed from its
      predecessor outside the heartbeat pins. */
    var cache: PinBank

    constructor ()
      ensures port == [] && !connected && cache == AllClear
    {
      port := [];
      connected := false;
      cache := AllClear;
    }

    /** `connect_to_serial_port`: `opens` says whether `open()` succeeded. */
    method Connect(name: string, opens: bool) returns (ok: bool)
      modifies this`port, this`connected
      ensures port == name && ok == opens && connected == opens
    {
      port := name;
      if opens {
        connected := true;
        return true;
      }
      Disconnect();
      return false;
    }

    /** `disconnect_from_serial_port`. */
    method Disconnect()
      modifies this`connected
      ensures !connected
    {
      connected := false;
    }

    /** `write_data` with `read_response_OK`: success only when the port was
      open and the reply line strips to `OK`; every other outcome closes the
      port. The cache is never touched. */
    method WriteData(frame: string, reply: Exchange) returns (ok: bool)
      modifies this`connected
      ensures ok <==> old(connected) && reply.Line? && IsAck(reply.text)
      ensures connected == ok
    {
      var line := Reply(connected, reply);
      if line.Some? && Strip(line.value) == "OK" {
        return true;
      }
      Disconnect();
      return false;
    }

    /** `set_mode`. */
    method SetMode(mode: ModeName, reply: Exchange) returns (sent: string, ok: bool)
      modifies this`connected
      ensures sent == SetModeFrame(mode)
      ensures ok <==> old(connected) && reply.Line? && IsAck(reply.text)
      ensures connected == ok
    {
      sent := SetModeFrame(mode);
      ok := WriteData(sent, reply);
    }

    /** `toggle_mode_bit`: the cached mode bits with the named one flipped. */
    method ToggleModeBit(id: string, reply: Exchange) returns (sent: string, ok: bool)
      modifies this`connected
      ensures sent == ToggleModeBitFrame(cache, id)
      ensures ok <==> old(connected) && reply.Line? && IsAck(reply.text)
      ensures connected == ok
    {
      sent := ToggleModeBitFrame(cache, id);
      ok := WriteData(sent, reply);
    }

    /** `toggle_estop`. */
    method ToggleEStop(toggleA: bool, toggleB: bool, first: string, delayMs: int, reply: Exchange)
      returns (sent: string, ok: bool)
      modifies this`connected
      ensures sent == EStopFrame(cache, toggleA, toggleB, first, delayMs)
      ensures ok <==> old(connected) && reply.Line? && IsAck(reply.text)
      ensures connected == ok
    {
      sent := EStopFrame(cache, toggleA, toggleB, first, delayMs);
      ok := WriteData(sent, reply);
    }

    /** `toggle_interlock`. */
    method ToggleInterlock(toggleA: bool, toggleB: bool, first: string, delayMs: int, reply: Exchange)
      returns (sent: string, ok: bool)
      modifies this`connected
      ensures sent == InterlockFrame(cache, toggleA, toggleB, first, delayMs)
      ensures ok <==> old(connected) && reply.Line? && IsAck(reply.text)
      ensures connected == ok
    {
      sent := InterlockFrame(cache, toggleA, toggleB, first, delayMs);
      ok := WriteData(sent, reply);
    }

    /** `toggle_power`. */
    method TogglePower(reply: Exchange) returns (sent: string, ok: bool)
      modifies this`connected
      ensures sent == PowerFrame(cache)
      ensures ok <==> old(connected) && reply.Line? && IsAck(reply.text)
      ensures connected == ok
    {
      sent := PowerFrame(cache);
      ok := WriteData(sent, reply);
    }

    /** `set_echo_string`. */
    method SetEchoString(text: string, reply: Exchange) returns (sent: string, ok: bool)
      requires forall c | c in text :: c < '\U{80}'
      modifies this`connected
      ensures sent == EchoFrame(text)
      ensures ok <==> old(connected) && reply.Line? && IsAck(reply.text)
      ensures connected == ok
    {
      sent := EchoFrame(text);
      ok := WriteData(sent, reply);
    }

    /** `detect_pin_change`: walk the signals in table order, skip the
      heartbeat, and report the first one whose pair differs from the cache. */
    method DetectPinChange(polled: PinBank) returns (changed: bool)
      ensures changed <==> ChangedOutsideHeartbeat(cache, polled)
    {
      var i := 0;
      while i < |FieldOrder|
        invariant 0 <= i <= |FieldOrder|
        invariant forall j :: 0 <= j < i && FieldOrder[j] != Heartbeat ==>
          Get(polled, FieldOrder[j]) == Get(cache, FieldOrder[j])
      {
        var pin := FieldOrder[i];
        if pin != Heartbeat && Get(polled, pin) != Get(cache, pin) {
          return true;
        }
        i := i + 1;
      }
      forall f | f != Heartbeat
        ensures Get(polled, f) == Get(cache, f)
      {
        FieldOrderIsComplete(f);
      }
      return false;
    }

    /** `request_output_pin_states`: a failed exchange closes the port and
      yields nothing; a line that is not a status frame yields nothing and
      keeps the port open; a status frame is returned, and it replaces the
      cache exactly when some signal other than the heartbeat changed. */
    method RequestOutputPinStates(reply: Exchange) returns (states: Option<PinBank>)
      modifies this`connected, this`cache
      ensures Reply(old(connected), reply).None? ==> states.None? && !connected && cache == old(cache)
      ensures Reply(old(connected), reply).Some? ==>
        && connected
        && states == DecodeStatus(Strip(reply.text))
        && cache == (if states.Some? && ChangedOutsideHeartbeat(old(cache), states.value) then states.value
                     else old(cache))
    {
      var line := Reply(connected, reply);
      if line.None? {
        Disconnect();
        return None;
      }
      states := DecodeStatus(Strip(line.value));
      if states.Some? {
        var changed := DetectPinChange(states.value);
        if changed {
          cache := states.value;
        }
      }
    }

    /** `request_heartbeat`: a failed exchange yields nothing and, unlike the
      other requests, leaves the port open. */
    method RequestHeartbeat(reply: Exchange) returns (hz: Option<(nat, nat)>)
      ensures hz.Some? <==> connected && reply.Line? && DecodeHeartbeat(Strip(reply.text)).Some?
      ensures hz.Some? ==> hz == DecodeHeartbeat(Strip(reply.text)) && hz.value.0 < 100000 && hz.value.1 < 100000
    {
      var line := Reply(connected, reply);
      if line.None? {
        return None;
      }
      hz := DecodeHeartbeat(Strip(line.value));
    }
  }

  /** After any poll the cache differs from the polled status at most in the
      heartbeat pins, or equals it. */
  lemma {:induction false} PollKeepsCacheCurrent(cached: PinBank, polled: PinBank)
    ensures var next := if ChangedOutsideHeartbeat(cached, polled) then polled else cached;
      next.(heartbeat := polled.heartbeat) == polled
  {
    ChangeIgnoresHeartbeat(cached, polled);
  }
}
