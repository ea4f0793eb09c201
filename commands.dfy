/**
 * The command encoder of the fan-coil session: how a capability change becomes a
 * POST to the appliance, how the reply is read, and which error a failed change raises.
 */
module FancoilCommands {

  import opened Wrappers
  import opened FancoilStatus

  /** A capability change the user makes, as the appliance command it becomes. */
  datatype Command =
    | Power(on: bool)
    | Schedule(on: bool)
    | SetMode(mode: Mode)
    | SetSetpoint(temp: real)
    | SetFunction(speed: FanSpeed)

  /** A JSON POST body: `{}`, `{temp: …}` or `{value: …}`. */
  datatype Body = NoFields | TempField(temp: real) | ValueField(value: int)

  /** A POST as the session issues it. */
  datatype Request = Request(uri: string, body: Body)

  /**
   * The route under the appliance's API that a command is posted to: with its body, the
   * appliance's route table reads it back as that same command.
   */
  function Route(c: Command): (r: string)
    ensures ApplianceCommand(r, BodyOf(c)) == Some(c)
  {
    match c
    case Power(on) => if on then "power/on" else "power/off"
    case Schedule(on) => if on then "set/calendar/on" else "set/calendar/off"
    case SetMode(mode) =>
      if mode == Cool then "set/mode/cooling"
      else
        assert mode == Heat;
        "set/mode/heating"
    case SetSetpoint(_) => "set/setpoint"
    case SetFunction(speed) =>
      var r := "set/function/" + speed.Name();
      assert match speed
        case Auto => r == "set/function/auto"
        case Night => r == "set/function/night"
        case Min => r == "set/function/min"
        case Max => r == "set/function/max";
      r
  }

  /** The body sent with a command: the setpoint in tenths of a degree, `{value: 1}` for the fan. */
  function BodyOf(c: Command): (b: Body)
    ensures b.TempField? <==> c.SetSetpoint?
    ensures b.TempField? ==> b.temp / 10.0 == c.temp
    ensures b.ValueField? <==> c.SetFunction?
    ensures b.ValueField? ==> b.value == 1
  {
    match c
    case SetSetpoint(temp) => TempField(temp * 10.0)
    case SetFunction(_) => ValueField(1)
    case _ => NoFields
  }

  /** The appliance's route table read backwards: the command a route and body stand for. */
  function ApplianceCommand(route: string, body: Body): Option<Command> {
    if route == "set/setpoint" then
      (if body.TempField? then Some(SetSetpoint(body.temp / 10.0)) else None)
    else if route == "set/function/auto" && body == ValueField(1) then Some(SetFunction(Auto))
    else if route == "set/function/night" && body == ValueField(1) then Some(SetFunction(Night))
    else if route == "set/function/min" && body == ValueField(1) then Some(SetFunction(Min))
    else if route == "set/function/max" && body == ValueField(1) then Some(SetFunction(Max))
    else if body != NoFields then None
    else if route == "power/on" then Some(Power(true))
    else if route == "power/off" then Some(Power(false))
    else if route == "set/calendar/on" then Some(Schedule(true))
    else if route == "set/calendar/off" then Some(Schedule(false))
    else if route == "set/mode/cooling" then Some(SetMode(Cool))
    else if route == "set/mode/heating" then Some(SetMode(Heat))
    else None
  }

  /** The prefix of every request URI: the appliance's API root at its address. */
  function ApiBase(ip: string): (b: string)
    ensures |b| == |ip| + 16
    ensures b[..7] == "http://" && b[7..7 + |ip|] == ip && b[7 + |ip|..] == "/api/v/1/"
  {
    "http://" + ip + "/api/v/1/"
  }

  /** `http://{ip}/api/v/1/{command}` */
  function CommandUri(ip: string, command: string): (u: string)
    ensures |u| == |ApiBase(ip)| + |command|
    ensures u[..|ApiBase(ip)|] == ApiBase(ip) && u[|ApiBase(ip)|..] == command
  {
    ApiBase(ip) + command
  }

  /** The URI a status poll fetches: the command template with `status` as the command. */
  function StatusUri(ip: string): (u: string)
    ensures u == CommandUri(ip, "status")
  {
    ApiBase(ip) + "status"
  }

  /** For one address, distinct commands go to distinct URIs. */
  lemma CommandUriInjective(ip: string, c1: string, c2: string)
    requires CommandUri(ip, c1) == CommandUri(ip, c2)
    ensures c1 == c2
  {
  }

  /** A poll after a setpoint change the appliance stored shows the temperature that was set. */
  lemma SetpointRoundTrip(temp: real, r: RawStatus)
    requires BodyOf(SetSetpoint(temp)) == TempField(r.sp as real)
    ensures Projection(r)[TargetTemperature] == Number(temp)
    ensures Projection(r)[MeasureTarget] == Number(temp)
  {
  }

  /** How a POST to the appliance ends. */
  datatype HttpReply =
    | TransportError          // the request rejects: unreachable, timeout, non-2xx
    | NoData                  // a reply without a body: reading `success` from it throws
    | Replied(success: bool)  // a body `{success: …}`; a missing flag is falsy; the handlers treat it as `success: false`

  /** What `sendCommand` settles to: the reply's `success`, or a rejection. */
  datatype SendOutcome = Resolved(success: bool) | Rejected

  /** A command succeeds when the development toggle is on or the appliance answers `success: true`. */
  predicate Acknowledged(debug: bool, reply: HttpReply) {
    debug || reply == Replied(true)
  }

  /** The error a failed capability change raises. */
  datatype HandlerError =
    | PowerFailed(on: bool)
    | SchedulingFailed(on: bool)
    | ModeFailed(mode: Mode)
    | TemperatureFailed(temp: real)
    | FanSpeedFailed(speed: FanSpeed)
  {
    /**
     * The error's text. The temperature message embeds JavaScript's rendering of a
     * number, which is not modelled, so it has no text here.
     */
    function Message(): (m: Option<string>)
      ensures m.None? <==> this.TemperatureFailed?
      ensures m.Some? ==> |m.value| > 8 && m.value[|m.value| - 8..] == " failed!"
    {
      match this
      case PowerFailed(on) => Some("Power " + (if on then "on" else "off") + " failed!")
      case SchedulingFailed(on) => Some((if on then "Activating" else "Deactivating") + " scheduling failed!")
      case ModeFailed(mode) => Some("Changing mode to " + mode.Name() + " failed!")
      case TemperatureFailed(_) => None
      case FanSpeedFailed(speed) => Some("Changing fan speed to " + speed.Name() + " failed!")
    }
  }

  /** The error each handler raises for its command. */
  function ErrorFor(c: Command): HandlerError {
    match c
    case Power(on) => PowerFailed(on)
    case Schedule(on) => SchedulingFailed(on)
    case SetMode(mode) => ModeFailed(mode)
    case SetSetpoint(temp) => TemperatureFailed(temp)
    case SetFunction(speed) => FanSpeedFailed(speed)
  }

  /** An error's text names the change that failed: distinct errors have distinct texts. */
  lemma MessageIdentifiesError(e1: HandlerError, e2: HandlerError)
    requires e1.Message().Some? && e1.Message() == e2.Message()
    ensures e1 == e2
  {
    MessageText(e1);
    MessageText(e2);
  }

  /**
   * A stepping stone for `MessageIdentifiesError`: the characters at which the error
   * texts differ (the first letter, then the word after "Changing ", then the value).
   */
  lemma MessageText(e: HandlerError)
    ensures e.Message().Some? ==> |e.Message().value| > 15
    ensures e.Message().Some? ==> var t := e.Message().value;
      match e
      case PowerFailed(on) => t[0] == 'P' && (t[7] == 'n' <==> on)
      case SchedulingFailed(on) => t[0] != 'P' && t[0] != 'C' && (t[0] == 'A' <==> on)
      case ModeFailed(mode) => t[0] == 'C' && t[9] == 'm' && |t| > 17 && (t[17] == 'c' <==> mode == Cool)
      case FanSpeedFailed(speed) => t[0] == 'C' && t[9] == 'f' && |t| > 23
        && (t[22] == 'a' <==> speed == Auto) && (t[22] == 'n' <==> speed == Night)
        && (t[22] == 'm' && t[23] == 'i' <==> speed == Min) && (t[22] == 'm' && t[23] == 'a' <==> speed == Max)
      case TemperatureFailed(_) => false
  {
  }
}
