/**
 * The status decoder of the fan-coil session: how the appliance's numeric status
 * record is turned into the values of the hub's capabilities.
 */
module FancoilStatus {

  import opened Wrappers

  /** The working mode as the hub shows it (`fancoil_mode`). */
  datatype Mode = Heat | Cool {
    /** The capability value the hub stores for this mode. */
    function Name(): string {
      match this
      case Heat => "heat"
      case Cool => "cool"
    }
  }

  /** The fan function as the hub shows it (`fan_speed`). */
  datatype FanSpeed = Auto | Night | Min | Max {
    /** The capability value the hub stores, also the last segment of its command route. */
    function Name(): string {
      match this
      case Auto => "auto"
      case Night => "night"
      case Min => "min"
      case Max => "max"
    }
  }

  /**
   * The fields of the appliance's status record that the session reads: setpoint `sp`,
   * working mode `wm`, fan function `fn`, power `ps`, scheduling `cm`, active alarm
   * codes `a`, ambient temperature `ta` and water temperature `tw`; temperatures are
   * integers in tenths of a degree.
   */
  datatype RawStatus = RawStatus(sp: int, wm: int, fn: int, ps: int, cm: int, a: seq<string>, ta: int, tw: int)

  /** A capability value in the hub's registry. */
  datatype Value = Flag(b: bool) | Number(n: real) | Text(s: string)

  /** The capabilities the session writes. */
  datatype Capability =
    | OnOff | Scheduling
    | TargetTemperature | MeasureTarget
    | MeasureTemperature | MeasureCurrent | MeasureWater
    | FancoilModeCap | FancoilModeState
    | FanSpeedCap | FanSpeedState
    | AlarmGeneric
  {
    /** The capability's identifier on the hub. */
    function Id(): string {
      match this
      case OnOff => "onoff"
      case Scheduling => "onoff.scheduling"
      case TargetTemperature => "target_temperature"
      case MeasureTarget => "measure_temperature.target"
      case MeasureTemperature => "measure_temperature"
      case MeasureCurrent => "measure_temperature.current"
      case MeasureWater => "measure_temperature.water"
      case FancoilModeCap => "fancoil_mode"
      case FancoilModeState => "fancoil_mode_state"
      case FanSpeedCap => "fan_speed"
      case FanSpeedState => "fan_speed_state"
      case AlarmGeneric => "alarm_generic"
    }
  }

  /** Mode decode: code 5 is cooling, every other integer is heating. */
  function GetFancoilMode(wm: int): (m: Mode)
    ensures m == Cool <==> wm == 5
    ensures m == Heat <==> wm != 5
  {
    if wm == 5 then Cool else Heat
  }

  /** Fan decode: 2 night, 3 min, 4 max, every other integer auto. */
  function GetFanSpeed(fn: int): (s: FanSpeed)
    ensures s == Night <==> fn == 2
    ensures s == Min <==> fn == 3
    ensures s == Max <==> fn == 4
    ensures s == Auto <==> fn < 2 || 4 < fn
  {
    match fn
    case 2 => Night
    case 3 => Min
    case 4 => Max
    case _ => Auto
  }

  /** A temperature on the wire, in tenths of a degree, as degrees. */
  function Tenths(x: int): real {
    x as real / 10.0
  }

  /** The working-mode code the appliance reports for each mode (3 heating, 5 cooling). */
  function ModeCode(m: Mode): int {
    match m
    case Heat => 3
    case Cool => 5
  }

  /** The fan-function code the appliance reports for each speed (1 auto to 4 max). */
  function FanCode(s: FanSpeed): int {
    match s
    case Auto => 1
    case Night => 2
    case Min => 3
    case Max => 4
  }

  /** Decoding inverts the appliance's code tables. */
  lemma CodesRoundTrip(m: Mode, s: FanSpeed)
    ensures GetFancoilMode(ModeCode(m)) == m
    ensures GetFanSpeed(FanCode(s)) == s
  {
  }

  /**
   * The capability values one status record yields: every capability the session
   * writes on a poll except the alarm's display title.
   */
  function Projection(r: RawStatus): (p: map<Capability, Value>)
    ensures forall k :: k in p
    ensures MirrorsAgree(p)
  {
    var target := Tenths(r.sp);
    var current := Tenths(r.ta);
    var mode := GetFancoilMode(r.wm).Name();
    var fan := GetFanSpeed(r.fn).Name();
    var p := map[
      OnOff := Flag(r.ps == 1),
      Scheduling := Flag(r.cm == 1),
      TargetTemperature := Number(target),
      MeasureTarget := Number(target),
      MeasureTemperature := Number(current),
      MeasureCurrent := Number(current),
      MeasureWater := Number(Tenths(r.tw)),
      FancoilModeCap := Text(mode),
      FancoilModeState := Text(mode),
      FanSpeedCap := Text(fan),
      FanSpeedState := Text(fan),
      AlarmGeneric := Flag(|r.a| > 0)
    ];
    assert forall k :: k in p by {
      forall k ensures k in p {
        assert || k.OnOff? || k.Scheduling? || k.TargetTemperature? || k.MeasureTarget?
          || k.MeasureTemperature? || k.MeasureCurrent? || k.MeasureWater?
          || k.FancoilModeCap? || k.FancoilModeState? || k.FanSpeedCap? || k.FanSpeedState?
          || k.AlarmGeneric?;
      }
    }
    p
  }

  /** The capability store after a record has been projected onto it. */
  function Projected(caps: map<Capability, Value>, r: RawStatus): (c: map<Capability, Value>)
    ensures forall k :: k in c <==> k in caps || k in Projection(r)
    ensures forall k :: k in Projection(r) ==> c[k] == Projection(r)[k]
    ensures forall k :: k in caps && k !in Projection(r) ==> c[k] == caps[k]
  {
    caps + Projection(r)
  }

  /** The alarm's display title after a record: rewritten only when codes are active. */
  function ProjectedTitle(title: Option<string>, r: RawStatus): (t: Option<string>)
    ensures |r.a| > 0 ==> t == Some(AlarmTitle(r.a))
    ensures |r.a| == 0 ==> t == title
  {
    if |r.a| > 0 then Some(AlarmTitle(r.a)) else title
  }

  /** Each value a user sees twice agrees with its mirror. */
  ghost predicate MirrorsAgree(caps: map<Capability, Value>) {
    && TargetTemperature in caps && MeasureTarget in caps
    && caps[TargetTemperature] == caps[MeasureTarget]
    && MeasureTemperature in caps && MeasureCurrent in caps
    && caps[MeasureTemperature] == caps[MeasureCurrent]
    && FancoilModeCap in caps && FancoilModeState in caps
    && caps[FancoilModeCap] == caps[FancoilModeState]
    && FanSpeedCap in caps && FanSpeedState in caps
    && caps[FanSpeedCap] == caps[FanSpeedState]
  }

  /** What each projected capability means in terms of the record. */
  lemma ProjectionMeaning(caps: map<Capability, Value>, r: RawStatus)
    ensures var c := Projected(caps, r);
      && (c[OnOff] == Flag(true) <==> r.ps == 1) && c[OnOff].Flag?
      && (c[Scheduling] == Flag(true) <==> r.cm == 1) && c[Scheduling].Flag?
      && c[TargetTemperature].Number? && c[TargetTemperature].n * 10.0 == r.sp as real
      && c[MeasureTemperature].Number? && c[MeasureTemperature].n * 10.0 == r.ta as real
      && c[MeasureWater].Number? && c[MeasureWater].n * 10.0 == r.tw as real
      && (c[FancoilModeCap] == Text("cool") <==> r.wm == 5)
      && (c[FancoilModeCap] == Text("heat") <==> r.wm != 5)
      && (c[FanSpeedState] == Text("night") <==> r.fn == 2)
      && (c[FanSpeedState] == Text("min") <==> r.fn == 3)
      && (c[FanSpeedState] == Text("max") <==> r.fn == 4)
      && (c[FanSpeedState] == Text("auto") <==> r.fn < 2 || 4 < r.fn)
      && (c[AlarmGeneric] == Flag(true) <==> |r.a| > 0) && c[AlarmGeneric].Flag?
      && MirrorsAgree(c)
  {
  }

  /** Projecting the same record twice leaves the same store as projecting it once. */
  lemma ProjectionIdempotent(caps: map<Capability, Value>, title: Option<string>, r: RawStatus)
    ensures Projected(Projected(caps, r), r) == Projected(caps, r)
    ensures ProjectedTitle(ProjectedTitle(title, r), r) == ProjectedTitle(title, r)
  {
  }

  // ---- The alarm's display title ----

  const MessageWord := "Current error message"
  const CodeSeparator := ", "

  /** `parts.join(sep)`: empty for no parts, and it ends where the last part ends. */
  function Join(parts: seq<string>, sep: string): (j: string)
    ensures |parts| == 0 ==> j == ""
    ensures |parts| > 0 ==> Offset(parts, sep, |parts| - 1) + |parts[|parts| - 1]| == |j|
    decreases |parts|
  {
    if |parts| == 0 then ""
    else if |parts| == 1 then parts[0]
    else
      assert parts[1..][|parts| - 2] == parts[|parts| - 1];
      parts[0] + sep + Join(parts[1..], sep)
  }

  /** Where the `i`-th part starts in `Join(parts, sep)`. */
  function Offset(parts: seq<string>, sep: string, i: nat): nat
    requires i < |parts|
    decreases i
  {
    if i == 0 then 0 else |parts[0]| + |sep| + Offset(parts[1..], sep, i - 1)
  }

  /**
   * The title shown for an active alarm: "message" pluralised, then the codes. It says
   * "messages" exactly when more than one code is active.
   */
  function AlarmTitle(codes: seq<string>): (t: string)
    ensures |t| > |MessageWord|
    ensures t[..|MessageWord|] == MessageWord
    ensures t[|MessageWord|] == 's' <==> |codes| > 1
    ensures var p := if |codes| > 1 then 1 else 0;
      && |t| == |MessageWord| + p + 2 + |Join(codes, CodeSeparator)|
      && t[|MessageWord| + p..|MessageWord| + p + 2] == ": "
      && t[|MessageWord| + p + 2..] == Join(codes, CodeSeparator)
  {
    MessageWord + (if |codes| > 1 then "s" else "") + ": " + Join(codes, CodeSeparator)
  }

  /** The joined text holds each part at its offset, in order. */
  lemma {:induction false} JoinHoldsPart(parts: seq<string>, sep: string, i: nat)
    requires i < |parts|
    ensures Offset(parts, sep, i) + |parts[i]| <= |Join(parts, sep)|
    ensures Join(parts, sep)[Offset(parts, sep, i)..Offset(parts, sep, i) + |parts[i]|] == parts[i]
    decreases i
  {
    if i == 0 {
      if |parts| > 1 {
        assert Join(parts, sep) == parts[0] + (sep + Join(parts[1..], sep));
      }
    } else {
      var rest := Join(parts[1..], sep);
      JoinHoldsPart(parts[1..], sep, i - 1);
      var k := Offset(parts[1..], sep, i - 1);
      var pre := parts[0] + sep;
      assert Join(parts, sep) == pre + rest;
      assert parts[1..][i - 1] == parts[i];
      assert (pre + rest)[|pre| + k..|pre| + k + |parts[i]|] == rest[k..k + |parts[i]|];
    }
  }

  /** Between consecutive parts the joined text holds the separator. */
  lemma {:induction false} JoinHoldsSeparator(parts: seq<string>, sep: string, i: nat)
    requires i + 1 < |parts|
    ensures Offset(parts, sep, i) + |parts[i]| + |sep| == Offset(parts, sep, i + 1)
    ensures Offset(parts, sep, i + 1) <= |Join(parts, sep)|
    ensures Join(parts, sep)[Offset(parts, sep, i) + |parts[i]|..Offset(parts, sep, i + 1)] == sep
    decreases i
  {
    JoinHoldsPart(parts, sep, i + 1);
    var rest := Join(parts[1..], sep);
    var pre := parts[0] + sep;
    assert Join(parts, sep) == pre + rest;
    if i == 0 {
      assert (pre + rest)[|parts[0]|..|pre|] == sep;
    } else {
      JoinHoldsSeparator(parts[1..], sep, i - 1);
      var k := Offset(parts[1..], sep, i - 1) + |parts[i]|;
      assert parts[1..][i - 1] == parts[i];
      assert (pre + rest)[|pre| + k..|pre| + k + |sep|] == rest[k..k + |sep|];
    }
  }

  /** After the heading, the title holds every code in order, with ", " between consecutive codes. */
  lemma AlarmTitleCodes(codes: seq<string>, i: nat)
    requires i < |codes|
    ensures var start := |MessageWord| + (if |codes| > 1 then 1 else 0) + 2 + Offset(codes, CodeSeparator, i);
      start + |codes[i]| <= |AlarmTitle(codes)| && AlarmTitle(codes)[start..start + |codes[i]|] == codes[i]
    ensures i + 1 < |codes| ==>
      var end := |MessageWord| + 1 + 2 + Offset(codes, CodeSeparator, i) + |codes[i]|;
      end + 2 <= |AlarmTitle(codes)| && AlarmTitle(codes)[end..end + 2] == CodeSeparator
  {
    JoinHoldsPart(codes, CodeSeparator, i);
    var head := MessageWord + (if |codes| > 1 then "s" else "") + ": ";
    var joined := Join(codes, CodeSeparator);
    var k := Offset(codes, CodeSeparator, i);
    assert |head| == |MessageWord| + (if |codes| > 1 then 1 else 0) + 2;
    assert AlarmTitle(codes) == head + joined;
    SliceAfterPrefix(head, joined, k, |codes[i]|);
    if i + 1 < |codes| {
      JoinHoldsSeparator(codes, CodeSeparator, i);
      SliceAfterPrefix(head, joined, k + |codes[i]|, |CodeSeparator|);
    }
  }

  /** A slice of the right operand, read through the concatenation. */
  lemma SliceAfterPrefix<T>(a: seq<T>, b: seq<T>, k: nat, n: nat)
    requires k + n <= |b|
    ensures (a + b)[|a| + k..|a| + k + n] == b[k..k + n]
  {
  }

  /** Two active codes: the plural heading, then both codes in order. */
  lemma AlarmTitleTwoCodes()
    ensures AlarmTitle(["E01", "E02"]) == "Current error messages: E01, E02"
    ensures AlarmTitle(["E01"]) == "Current error message: E01"
  {
  }

  /** The status record the session projects when it runs against no appliance. */
  const MockResult := RawStatus(sp := 220, wm := 3, fn := 1, ps := 1, cm := 0, a := [], ta := 210, tw := 280)

  lemma MockProjection(caps: map<Capability, Value>)
    ensures var c := Projected(caps, MockResult);
      && c[TargetTemperature] == Number(22.0) && c[MeasureTemperature] == Number(21.0)
      && c[MeasureWater] == Number(28.0)
      && c[OnOff] == Flag(true) && c[Scheduling] == Flag(false)
      && c[FancoilModeCap] == Text("heat") && c[FanSpeedCap] == Text("auto")
      && c[AlarmGeneric] == Flag(false)
  {
  }
}
