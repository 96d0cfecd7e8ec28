/**
 * The safety gate: a wrapper around an actuation operation that, unless the
 * caller passes a truthy `override` keyword, resolves the observatory from
 * the call and evaluates an ordered list of conditions fail-fast, rejecting
 * the call with the first failing condition's reason. The synchronous and
 * asynchronous wrappers share this one logic.
 */
module Safety {
  import opened Common

  /** The arguments of a guarded call, as far as the gate inspects them. */
  datatype Value =
    | NoneValue
    | Bool(b: bool)
    | Int(i: int)
    | Text(s: string)
    | ObservatoryObj(oid: nat)
    | DeviceObj(observatory: Value)
    | OtherObj

  /** Python truthiness of the values above (objects are truthy). */
  predicate Truthy(v: Value)
  {
    match v
    case NoneValue => false
    case Bool(b) => b
    case Int(i) => i != 0
    case Text(s) => s != ""
    case _ => true
  }

  /** A condition's answer: `(ok, reason)`. */
  datatype Verdict = Verdict(ok: bool, reason: string)

  /** A condition: the names of its parameters and what it answers for the
      keyword arguments it is given. */
  datatype Condition = Condition(params: set<string>, check: map<string, Value> -> Verdict)

  /** What the gate does with a call: run the wrapped operation with these
      arguments, or raise an HTTP error with a status and a detail. */
  datatype GateResult =
    | Invoke(args: seq<Value>, kwargs: map<string, Value>)
    | Rejected(status: int, detail: string)

  const MissingObservatory: string := "Observatory instance not found for safety checks"

  /** `bool(kwargs.pop("override", False))`. */
  function OverrideRequested(kwargs: map<string, Value>): (req: bool)
    ensures "override" !in kwargs ==> !req
    ensures "override" in kwargs && kwargs["override"] in {NoneValue, Bool(false), Int(0), Text("")} ==> !req
    ensures "override" in kwargs && kwargs["override"] == Bool(true) ==> req
  {
    "override" in kwargs && Truthy(kwargs["override"])
  }

  /** The observatory the conditions are given: the `observatory` keyword if
      truthy, else the first positional argument when it is an observatory,
      else that argument's own observatory when it is a device. */
  function ResolveObservatory(args: seq<Value>, kwargs: map<string, Value>): (o: Value)
    ensures "observatory" in kwargs && Truthy(kwargs["observatory"]) ==> o == kwargs["observatory"]
    ensures !("observatory" in kwargs && Truthy(kwargs["observatory"])) && |args| > 0 && args[0].ObservatoryObj? ==>
      o == args[0]
    ensures !("observatory" in kwargs && Truthy(kwargs["observatory"])) && |args| > 0 && args[0].DeviceObj? ==>
      o == args[0].observatory
    ensures Truthy(o) ==>
      || ("observatory" in kwargs && o == kwargs["observatory"])
      || (|args| > 0 && (o == args[0] || (args[0].DeviceObj? && o == args[0].observatory)))
  {
    var kw := if "observatory" in kwargs then kwargs["observatory"] else NoneValue;
    if !Truthy(kw) && |args| > 0 then
      match args[0]
      case ObservatoryObj(_) => args[0]
      case DeviceObj(owner) => owner
      case _ => kw
    else kw
  }

  /** The keyword arguments one condition is called with: those it names
      among its parameters, and the resolved observatory if it takes one. */
  function ConditionArgs(params: set<string>, kwargs: map<string, Value>, observatory: Value): (a: map<string, Value>)
    ensures a.Keys == (kwargs.Keys * params) + (if "observatory" in params then {"observatory"} else {})
    ensures forall k :: k in a && k != "observatory" ==> a[k] == kwargs[k]
    ensures "observatory" in params ==> a["observatory"] == observatory
  {
    var named := map k | k in kwargs && k in params :: kwargs[k];
    if "observatory" in params then named["observatory" := observatory] else named
  }

  function VerdictOf(c: Condition, kwargs: map<string, Value>, observatory: Value): Verdict
  {
    c.check(ConditionArgs(c.params, kwargs, observatory))
  }

  /** The wrapper: returns what happens to the call and how many conditions
      were evaluated. */
  method Guard(conditions: seq<Condition>, args: seq<Value>, kwargs: map<string, Value>)
    returns (r: GateResult, evaluated: nat)
    ensures evaluated <= |conditions|
    // override: nothing is evaluated and the operation runs without the keyword
    ensures OverrideRequested(kwargs) ==> r == Invoke(args, kwargs - {"override"}) && evaluated == 0
    // the operation never receives `override`
    ensures r.Invoke? ==> r.args == args && r.kwargs == kwargs - {"override"}
    // no observatory: 500 before any condition runs
    ensures !OverrideRequested(kwargs) && !Truthy(ResolveObservatory(args, kwargs - {"override"})) ==>
      r == Rejected(500, MissingObservatory) && evaluated == 0
    // otherwise: fail-fast in declared order
    ensures !OverrideRequested(kwargs) && Truthy(ResolveObservatory(args, kwargs - {"override"})) ==>
      var kw := kwargs - {"override"};
      var obs := ResolveObservatory(args, kw);
      && (forall j :: 0 <= j < evaluated - 1 ==> VerdictOf(conditions[j], kw, obs).ok)
      && (r.Rejected? <==> exists j :: 0 <= j < |conditions| && !VerdictOf(conditions[j], kw, obs).ok)
      && (r.Rejected? ==>
            && evaluated > 0 && r.status == 403
            && !VerdictOf(conditions[evaluated - 1], kw, obs).ok
            && r.detail == VerdictOf(conditions[evaluated - 1], kw, obs).reason)
      && (r.Invoke? ==> evaluated == |conditions| && forall j :: 0 <= j < |conditions| ==> VerdictOf(conditions[j], kw, obs).ok)
  {
    var kw := kwargs - {"override"};
    if OverrideRequested(kwargs) {
      return Invoke(args, kw), 0;
    }
    var observatory := ResolveObservatory(args, kw);
    if !Truthy(observatory) {
      return Rejected(500, MissingObservatory), 0;
    }
    evaluated := 0;
    while evaluated < |conditions|
      invariant evaluated <= |conditions|
      invariant forall j :: 0 <= j < evaluated ==> VerdictOf(conditions[j], kw, observatory).ok
    {
      var c := conditions[evaluated];
      var v := c.check(ConditionArgs(c.params, kw, observatory));
      evaluated := evaluated + 1;
      if !v.ok {
        return Rejected(403, v.reason), evaluated;
      }
    }
    r := Invoke(args, kw);
  }

  /** ASCII lower-casing; no other character maps onto the letters of
      "true", so `str.lower` gives the same verdict below. */
  function LowerChar(c: char): char
  {
    if 'A' <= c <= 'Z' then (c as int + 32) as char else c
  }

  function Lower(s: string): (r: string)
    ensures |r| == |s| && forall i :: 0 <= i < |s| ==> r[i] == LowerChar(s[i])
  {
    if s == [] then [] else [LowerChar(s[0])] + Lower(s[1..])
  }

  /** The `X-Safety-Override` header dependency. */
  function SafetyOverride(header: Option<string>): (granted: bool)
    ensures header.None? ==> !granted
    ensures granted ==> header.Some? && |header.value| == 4
  {
    Lower(match header case Some(h) => h case None => "") == "true"
  }

  /** The header grants an override exactly when it spells "true" in any
      mixture of upper and lower case; a missing or empty header never does. */
  lemma {:induction false} SafetyOverrideIff(header: Option<string>)
    ensures SafetyOverride(header) <==>
      header.Some? && |header.value| == 4
      && header.value[0] in {'t', 'T'} && header.value[1] in {'r', 'R'}
      && header.value[2] in {'u', 'U'} && header.value[3] in {'e', 'E'}
  {
    if header.Some? && |header.value| == 4 {
      var h := header.value;
      var l := Lower(h);
      assert l == "true" <==> l[0] == 't' && l[1] == 'r' && l[2] == 'u' && l[3] == 'e';
    }
  }
}
