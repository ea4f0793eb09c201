/**
 * One fan-coil appliance's session on the hub: its capability store, the status poll
 * that refreshes it, the command handlers that change the appliance, the flow cards
 * that read and set it, and the recurring refresh timer.
 */
module FancoilDevice {

  import opened Wrappers
  import opened FancoilStatus
  import opened FancoilCommands

  /** The refresh period of the status poll, in milliseconds. */
  const RefreshPeriodMs: nat := 300000

  /** The body of a status GET: the appliance's flag and its status record, if present. */
  datatype StatusResponse = StatusResponse(success: bool, result: Option<RawStatus>)

  /** How a status GET ends. */
  datatype StatusFetch =
    | FetchFailed                        // the request rejects
    | NoResponse                         // it resolves to nothing
    | Fetched(response: StatusResponse)  // it resolves to a response body

  /**
   * The record a fetch hands to the decoder. A body without a record makes the
   * decoder throw before its first write; the body's own `success` flag is not read.
   */
  function Polled(fetch: StatusFetch): (r: Option<RawStatus>)
    ensures r.Some? <==> fetch.Fetched? && fetch.response.result.Some?
    ensures r.Some? ==> r.value == fetch.response.result.value
  {
    match fetch
    case Fetched(response) => response.result
    case _ => None
  }

  /** The record a refresh projects: the canned one under the development toggle. */
  function Delivered(debug: bool, fetch: StatusFetch): (r: Option<RawStatus>)
    ensures debug ==> r == Some(MockResult)
    ensures !debug ==> (r.Some? <==> fetch.Fetched? && fetch.response.result.Some?)
    ensures !debug && r.Some? ==> r.value == fetch.response.result.value
  {
    if debug then Some(MockResult) else Polled(fetch)
  }

  /** The flow condition "mode is X": compares with the stored `fancoil_mode`; it holds for one mode at most. */
  predicate ModeIs(caps: map<Capability, Value>, mode: Mode)
    ensures ModeIs(caps, mode) ==>
      FancoilModeCap in caps && forall m: Mode :: caps[FancoilModeCap] == Text(m.Name()) ==> m == mode
  {
    FancoilModeCap in caps && caps[FancoilModeCap] == Text(mode.Name())
  }

  /** The flow condition "fan speed is X": compares with the stored `fan_speed_state`; it holds for one speed at most. */
  predicate FanSpeedIs(caps: map<Capability, Value>, speed: FanSpeed)
    ensures FanSpeedIs(caps, speed) ==>
      FanSpeedState in caps && forall s: FanSpeed :: caps[FanSpeedState] == Text(s.Name()) ==> s == speed
  {
    FanSpeedState in caps && caps[FanSpeedState] == Text(speed.Name())
  }

  /** After a poll, the flow conditions hold exactly for the decoded mode and fan speed. */
  lemma ConditionsAfterPoll(caps: map<Capability, Value>, r: RawStatus, mode: Mode, speed: FanSpeed)
    ensures ModeIs(Projected(caps, r), mode) <==> GetFancoilMode(r.wm) == mode
    ensures FanSpeedIs(Projected(caps, r), speed) <==> GetFanSpeed(r.fn) == speed
  {
  }

  /** "fan speed is X" does not look at `fan_speed`, and "mode is X" not at `fancoil_mode_state`. */
  lemma ConditionsIgnoreOtherCapability(caps: map<Capability, Value>, v: Value, mode: Mode, speed: FanSpeed)
    ensures FanSpeedIs(caps[FanSpeedCap := v], speed) == FanSpeedIs(caps, speed)
    ensures ModeIs(caps[FancoilModeState := v], mode) == ModeIs(caps, mode)
  {
  }

  class Fancoil {
    /** The development toggle: a canned status record and no network traffic. */
    const debug: bool
    /** The appliance's address, from the device settings. */
    var ip: string
    /** The hub's capability values for this device; a missing key has no value yet. */
    var caps: map<Capability, Value>
    /** The display title of `alarm_generic` while it is raised. */
    var alarmTitle: Option<string>
    /** The handle of the refresh timer, once one has been armed. */
    var refreshInterval: Option<nat>
    /** The runtime's live recurring timers for this device: handle to period. */
    var intervals: map<nat, nat>
    /** The handle the runtime gives the next timer it arms. */
    var nextHandle: nat

    /** Only the refresh timer can be live, and it runs at the refresh period. */
    ghost predicate Valid()
      reads this
    {
      forall h :: h in intervals ==> refreshInterval == Some(h) && intervals[h] == RefreshPeriodMs
    }

    constructor (debug: bool, ip: string)
      ensures Valid()
      ensures this.debug == debug && this.ip == ip
      ensures caps == map[] && alarmTitle == None
      ensures refreshInterval == None && intervals == map[]
    {
      this.debug := debug;
      this.ip := ip;
      caps := map[];
      alarmTitle := None;
      refreshInterval := None;
      intervals := map[];
      nextHandle := 0;
    }

    /** At most one recurring timer is live for a device. */
    lemma AtMostOneInterval()
      requires Valid()
      ensures |intervals| <= 1
    {
      if refreshInterval.Some? {
        var h := refreshInterval.value;
        assert intervals.Keys <= {h};
        assert intervals.Keys == {} || intervals.Keys == {h};
      } else {
        assert intervals.Keys == {};
      }
    }

    /** Writes one status record into the capability store, capability by capability. */
    method SetCapabilityValues(r: RawStatus)
      modifies this`caps, this`alarmTitle
      ensures caps == Projected(old(caps), r)
      ensures alarmTitle == ProjectedTitle(old(alarmTitle), r)
    {
      var c := caps;
      c := c[OnOff := Flag(r.ps == 1)];
      c := c[Scheduling := Flag(r.cm == 1)];
      var targetTemperature := Tenths(r.sp);
      c := c[TargetTemperature := Number(targetTemperature)];
      c := c[MeasureTarget := Number(targetTemperature)];
      var currentTemperature := Tenths(r.ta);
      c := c[MeasureTemperature := Number(currentTemperature)];
      c := c[MeasureCurrent := Number(currentTemperature)];
      c := c[MeasureWater := Number(Tenths(r.tw))];
      var fancoilMode := GetFancoilMode(r.wm);
      c := c[FancoilModeCap := Text(fancoilMode.Name())];
      c := c[FancoilModeState := Text(fancoilMode.Name())];
      var fanSpeed := GetFanSpeed(r.fn);
      c := c[FanSpeedCap := Text(fanSpeed.Name())];
      c := c[FanSpeedState := Text(fanSpeed.Name())];
      c := c[AlarmGeneric := Flag(|r.a| > 0)];
      ghost var want := Projected(caps, r);
      assert c.Keys == want.Keys;
      forall k | k in c
        ensures c[k] == want[k]
      {
      }
      caps := c;
      if |r.a| > 0 {
        alarmTitle := Some(AlarmTitle(r.a));
      }
    }

    /**
     * Polls the appliance and projects the record it returns; a failed or empty fetch
     * only logs, so the last values stay. Returns the URI it fetched, if any.
     */
    method RefreshStatus(fetch: StatusFetch) returns (request: Option<string>)
      modifies this`caps, this`alarmTitle
      ensures request == if debug then None else Some(StatusUri(ip))
      ensures Delivered(debug, fetch).Some? ==>
        caps == Projected(old(caps), Delivered(debug, fetch).value)
        && alarmTitle == ProjectedTitle(old(alarmTitle), Delivered(debug, fetch).value)
      ensures Delivered(debug, fetch).None? ==> caps == old(caps) && alarmTitle == old(alarmTitle)
    {
      if debug {
        SetCapabilityValues(MockResult);
        return None;
      }
      request := Some(StatusUri(ip));
      match fetch
      case Fetched(response) =>
        match response.result {
          case Some(r) => SetCapabilityValues(r);
          case None =>
        }
      case _ =>
    }

    /**
     * Initialises the session: one poll, then the previous refresh timer is cleared
     * and a new one is armed.
     */
    method OnInit(fetch: StatusFetch) returns (request: Option<string>)
      requires Valid()
      modifies this
      ensures Valid()
      ensures ip == old(ip) && nextHandle == old(nextHandle) + 1
      ensures refreshInterval == Some(old(nextHandle))
      ensures intervals == map[old(nextHandle) := RefreshPeriodMs]
      ensures request == if debug then None else Some(StatusUri(ip))
      ensures Delivered(debug, fetch).Some? ==>
        caps == Projected(old(caps), Delivered(debug, fetch).value)
        && alarmTitle == ProjectedTitle(old(alarmTitle), Delivered(debug, fetch).value)
      ensures Delivered(debug, fetch).None? ==> caps == old(caps) && alarmTitle == old(alarmTitle)
    {
      request := RefreshStatus(fetch);
      ClearRefreshInterval();
      refreshInterval := Some(nextHandle);
      intervals := intervals[nextHandle := RefreshPeriodMs];
      nextHandle := nextHandle + 1;
    }

    /** `clearInterval(this.refreshInterval)`: a no-op while no timer was ever armed. */
    method ClearRefreshInterval()
      requires Valid()
      modifies this`intervals
      ensures Valid()
      ensures intervals == map[]
    {
      if refreshInterval.Some? {
        intervals := intervals - {refreshInterval.value};
      }
      assert forall h :: h !in intervals;
    }

    /** One tick of a live refresh timer: a status poll. */
    method Tick(handle: nat, fetch: StatusFetch) returns (request: Option<string>)
      requires Valid() && handle in intervals
      modifies this`caps, this`alarmTitle
      ensures Valid()
      ensures request == if debug then None else Some(StatusUri(ip))
      ensures Delivered(debug, fetch).Some? ==>
        caps == Projected(old(caps), Delivered(debug, fetch).value)
        && alarmTitle == ProjectedTitle(old(alarmTitle), Delivered(debug, fetch).value)
      ensures Delivered(debug, fetch).None? ==> caps == old(caps) && alarmTitle == old(alarmTitle)
    {
      request := RefreshStatus(fetch);
    }

    /** Removal of the device: the refresh timer is cleared, so no tick follows. */
    method OnDeleted()
      requires Valid()
      modifies this`intervals
      ensures Valid()
      ensures intervals == map[]
      ensures refreshInterval == old(refreshInterval)
    {
      ClearRefreshInterval();
    }

    /**
     * Posts a command with its body. Under the development toggle nothing is sent and
     * the command counts as accepted; otherwise it settles to the reply's `success`.
     */
    method SendCommand(command: string, body: Body, reply: HttpReply) returns (request: Option<Request>, outcome: SendOutcome)
      ensures request == if debug then None else Some(Request(CommandUri(ip, command), body))
      ensures outcome == Resolved(true) <==> Acknowledged(debug, reply)
      ensures outcome == Resolved(false) <==> !debug && reply == Replied(false)
      ensures outcome == Rejected <==> !debug && !reply.Replied?
    {
      if debug {
        return None, Resolved(true);
      }
      request := Some(Request(CommandUri(ip, command), body));
      match reply
      case Replied(success) => outcome := Resolved(success);
      case _ => outcome := Rejected;
    }

    /** Sends a command and raises the handler's error unless the appliance accepted it. */
    method Dispatch(c: Command, reply: HttpReply) returns (request: Option<Request>, err: Option<HandlerError>)
      ensures request == if debug then None else Some(Request(CommandUri(ip, Route(c)), BodyOf(c)))
      ensures err.None? <==> Acknowledged(debug, reply)
      ensures err.Some? ==> err.value == ErrorFor(c)
    {
      var outcome;
      request, outcome := SendCommand(Route(c), BodyOf(c), reply);
      if outcome == Resolved(true) {
        err := None;
      } else {
        err := Some(ErrorFor(c));
      }
    }

    /** The `onoff` listener: powers the appliance on or off; writes no capability. */
    method OnCapabilityOnOff(value: bool, reply: HttpReply) returns (request: Option<Request>, err: Option<HandlerError>)
      ensures request == if debug then None
        else Some(Request(CommandUri(ip, if value then "power/on" else "power/off"), NoFields))
      ensures err.None? <==> Acknowledged(debug, reply)
      ensures err.Some? ==> err == Some(PowerFailed(value))
    {
      request, err := Dispatch(Power(value), reply);
    }

    /** The `onoff.scheduling` listener: switches the appliance's calendar; writes no capability. */
    method OnCapabilityOnOffScheduling(value: bool, reply: HttpReply) returns (request: Option<Request>, err: Option<HandlerError>)
      ensures request == if debug then None
        else Some(Request(CommandUri(ip, if value then "set/calendar/on" else "set/calendar/off"), NoFields))
      ensures err.None? <==> Acknowledged(debug, reply)
      ensures err.Some? ==> err == Some(SchedulingFailed(value))
    {
      request, err := Dispatch(Schedule(value), reply);
    }

    /** The `fancoil_mode` listener: on success the mode is mirrored into `fancoil_mode_state`. */
    method OnCapabilityFancoilMode(mode: Mode, reply: HttpReply) returns (request: Option<Request>, err: Option<HandlerError>)
      modifies this`caps
      ensures request == if debug then None
        else Some(Request(CommandUri(ip, if mode == Cool then "set/mode/cooling" else "set/mode/heating"), NoFields))
      ensures err.None? <==> Acknowledged(debug, reply)
      ensures err.None? ==> caps == old(caps)[FancoilModeState := Text(mode.Name())]
      ensures err.Some? ==> err == Some(ModeFailed(mode)) && caps == old(caps)
    {
      request, err := Dispatch(SetMode(mode), reply);
      if err.None? {
        caps := caps[FancoilModeState := Text(mode.Name())];
      }
    }

    /**
     * The `target_temperature` listener: sends the setpoint in tenths of a degree; on
     * success the value is mirrored into `measure_temperature.target`.
     */
    method OnCapabilityTargetTemperature(temp: real, reply: HttpReply) returns (request: Option<Request>, err: Option<HandlerError>)
      modifies this`caps
      ensures request == if debug then None
        else Some(Request(CommandUri(ip, "set/setpoint"), TempField(temp * 10.0)))
      ensures err.None? <==> Acknowledged(debug, reply)
      ensures err.None? ==> caps == old(caps)[MeasureTarget := Number(temp)]
      ensures err.Some? ==> err == Some(TemperatureFailed(temp)) && caps == old(caps)
    {
      request, err := Dispatch(SetSetpoint(temp), reply);
      if err.None? {
        caps := caps[MeasureTarget := Number(temp)];
      }
    }

    /** The `fan_speed` listener: on success the speed is mirrored into `fan_speed_state`. */
    method OnCapabilityFanSpeed(speed: FanSpeed, reply: HttpReply) returns (request: Option<Request>, err: Option<HandlerError>)
      modifies this`caps
      ensures request == if debug then None
        else Some(Request(CommandUri(ip, "set/function/" + speed.Name()), ValueField(1)))
      ensures err.None? <==> Acknowledged(debug, reply)
      ensures err.None? ==> caps == old(caps)[FanSpeedState := Text(speed.Name())]
      ensures err.Some? ==> err == Some(FanSpeedFailed(speed)) && caps == old(caps)
    {
      request, err := Dispatch(SetFunction(speed), reply);
      if err.None? {
        caps := caps[FanSpeedState := Text(speed.Name())];
      }
    }

    /**
     * The "set mode" flow action: `fancoil_mode` is written whatever happens, then the
     * mode listener runs and its error, if any, fails the flow.
     */
    method SetFancoilModeAction(mode: Mode, reply: HttpReply) returns (request: Option<Request>, err: Option<HandlerError>)
      modifies this`caps
      ensures request == if debug then None else Some(Request(CommandUri(ip, Route(SetMode(mode))), NoFields))
      ensures err.None? <==> Acknowledged(debug, reply)
      ensures err.None? ==> caps == old(caps)[FancoilModeCap := Text(mode.Name())][FancoilModeState := Text(mode.Name())]
      ensures err.Some? ==> err == Some(ModeFailed(mode)) && caps == old(caps)[FancoilModeCap := Text(mode.Name())]
      ensures ModeIs(caps, mode)
    {
      caps := caps[FancoilModeCap := Text(mode.Name())];
      request, err := OnCapabilityFancoilMode(mode, reply);
    }

    /**
     * The "set fan speed" flow action: `fan_speed` is written whatever happens, then
     * the fan listener runs; "fan speed is X" holds afterwards only if it succeeded.
     */
    method SetFanSpeedAction(speed: FanSpeed, reply: HttpReply) returns (request: Option<Request>, err: Option<HandlerError>)
      modifies this`caps
      ensures request == if debug then None else Some(Request(CommandUri(ip, Route(SetFunction(speed))), ValueField(1)))
      ensures err.None? <==> Acknowledged(debug, reply)
      ensures err.None? ==> caps == old(caps)[FanSpeedCap := Text(speed.Name())][FanSpeedState := Text(speed.Name())]
      ensures err.Some? ==> err == Some(FanSpeedFailed(speed)) && caps == old(caps)[FanSpeedCap := Text(speed.Name())]
      ensures err.None? ==> FanSpeedIs(caps, speed)
      ensures err.Some? ==> FanSpeedIs(caps, speed) == FanSpeedIs(old(caps), speed)
    {
      caps := caps[FanSpeedCap := Text(speed.Name())];
      request, err := OnCapabilityFanSpeed(speed, reply);
    }
  }
}
