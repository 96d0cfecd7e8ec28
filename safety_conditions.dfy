/**
 * The two safety conditions the gate is given: is the weather safe (asked of
 * the first configured safety monitor) and is a dome open. Both are read-only
 * decisions over the installation's configured device ids and the state
 * store's device map, answering `(ok, reason)`.
 */
module SafetyConditions {
  import opened Common
  import opened State
  import opened Safety

  /** Decimal rendering of an integer, as `str(int)` gives it. */
  function IntToString(i: int): (s: string)
    ensures |s| > 0
    decreases if i < 0 then 1 - i else i
  {
    if i < 0 then "-" + IntToString(-i)
    else if i < 10 then [Digit(i)]
    else IntToString(i / 10) + [Digit(i % 10)]
  }

  function Digit(d: int): char
    requires 0 <= d < 10
  {
    "0123456789"[d]
  }

  /** `str` of an optional integer field. */
  function OptionalIntToString(v: Option<int>): string
  {
    match v
    case None => "None"
    case Some(i) => IntToString(i)
  }

  /** `weather_is_safe`: only the first configured monitor is consulted. */
  function WeatherIsSafe(monitors: seq<string>, devices: map<string, DeviceState>): (v: Verdict)
    ensures v.ok <==>
      && |monitors| > 0 && monitors[0] in devices
      && devices[monitors[0]].kind == SafetyMonitor(Some(true))
    ensures v.ok ==> v.reason == ""
    ensures |monitors| == 0 ==> v == Verdict(false, "No safety monitor configured")
    ensures |monitors| > 0 && monitors[0] !in devices ==>
      v == Verdict(false, "Safety monitor " + monitors[0] + " not found in state")
  {
    if |monitors| == 0 then Verdict(false, "No safety monitor configured")
    else
      var id := monitors[0];
      if id !in devices then Verdict(false, "Safety monitor " + id + " not found in state")
      else match devices[id].kind
        case SafetyMonitor(safe) =>
          if safe == Some(true) then Verdict(true, "")
          else Verdict(false, "Safety monitor " + id + " reports unsafe conditions")
        case _ => Verdict(false, "Safety monitor " + id + " state unavailable")
  }

  /** Monitors after the first never influence the answer. */
  lemma {:induction false} WeatherIgnoresLaterMonitors(first: string, rest: seq<string>, devices: map<string, DeviceState>)
    ensures WeatherIsSafe([first] + rest, devices) == WeatherIsSafe([first], devices)
  {
  }

  /** `dome_is_open`: the dome asked about, or the first configured dome when
      none is named, must be configured, present in the store and report
      shutter status 0. */
  function DomeIsOpen(domes: seq<string>, devices: map<string, DeviceState>, domeId: Option<string>): (v: Verdict)
    ensures |domes| == 0 ==> v == Verdict(false, "No dome configured")
    ensures |domes| > 0 ==>
      var id := if domeId.Some? then domeId.value else domes[0];
      && (id !in domes ==> v == Verdict(false, "Dome " + id + " not found"))
      && (id in domes && id !in devices ==> v == Verdict(false, "Dome " + id + " not found in state"))
      && (v.ok <==> id in domes && id in devices && devices[id].kind == Dome(Some(0)))
    ensures v.ok ==> v.reason == ""
  {
    if |domes| == 0 then Verdict(false, "No dome configured")
    else
      var id := if domeId.Some? then domeId.value else domes[0];
      if id !in domes then Verdict(false, "Dome " + id + " not found")
      else if id !in devices then Verdict(false, "Dome " + id + " not found in state")
      else match devices[id].kind
        case Dome(shutter) =>
          if shutter == Some(0) then Verdict(true, "")
          else Verdict(false, "Dome " + id + " is not open (status: " + OptionalIntToString(shutter) + ")")
        case _ => Verdict(false, "Dome " + id + " shutter status unavailable")
  }

  /** A closed, moving or unknown shutter is reported with its status. */
  lemma {:induction false} DomeNotOpenReason(domes: seq<string>, devices: map<string, DeviceState>, id: string, shutter: Option<int>)
    requires id in domes && id in devices && devices[id].kind == Dome(shutter) && shutter != Some(0)
    ensures DomeIsOpen(domes, devices, Some(id))
      == Verdict(false, "Dome " + id + " is not open (status: " + OptionalIntToString(shutter) + ")")
  {
  }
}
