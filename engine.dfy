/**
 * The cooperative execution engine: execution contexts (a pause gate and a
 * one-way abort flag), lifecycle hook tables, and the run protocol shared by
 * Task, Sequence and ParallelGroup nodes:
 *
 *   for each of `repeat` iterations:
 *     checkpoint; sleep the delay in one-second slices; checkpoint;
 *     ask the `when` predicates (all of them) and skip the iteration if one is false;
 *     checkpoint; `before` hooks; checkpoint; BODY; checkpoint; `after` hooks; checkpoint
 *   on an Exception: `on_error` hooks, then re-raise;  always: `finally` hooks.
 *
 * A run is a pure function from a node tree to an event trace. What every
 * call (hook, predicate, task action) does is read from a stream of replies,
 * and when a context's abort becomes visible is read from an abort schedule
 * indexed by a logical clock that every checkpoint advances. Pausing only
 * delays a checkpoint, so it leaves the trace unchanged and is not part of
 * the run semantics. ParallelGroup children run one after another here (one
 * interleaving of the concurrent children), all of them, and their ends are
 * joined.
 */
module Engine {
  import opened Common

  // ---------------------------------------------------------------------
  // Context ids and execution contexts

  const IdAlphabet: string := "abcdefghijklmnopqrstuvwxyz0123456789"

  /** Twelve characters, each a lower-case ASCII letter or a digit. */
  predicate IsContextId(id: string)
  {
    |id| == 12 && forall i :: 0 <= i < |id| ==> id[i] in IdAlphabet
  }

  /** `generate_context_id`: twelve independent choices from the alphabet;
      the random choice is left open. */
  method GenerateContextId() returns (id: string)
    ensures IsContextId(id)
  {
    id := [];
    for k := 0 to 12
      invariant |id| == k
      invariant forall i :: 0 <= i < k ==> id[i] in IdAlphabet
    {
      assert IdAlphabet[0] in IdAlphabet;
      var c :| c in IdAlphabet;
      id := id + [c];
    }
  }

  /** What a checkpoint does: raise the cancellation, wait for the gate to
      reopen, or proceed. */
  datatype CheckpointAction = Proceed | Suspend | Cancel

  class ExecutionContext {
    var gateOpen: bool
    var aborted: bool
    const id: string

    /** A new context: gate open, abort clear. `draw` is the id that the id
        generator produced for it. */
    constructor (draw: string)
      requires IsContextId(draw)
      ensures gateOpen && !aborted && id == draw
    {
      gateOpen := true;
      aborted := false;
      id := draw;
    }

    method RequestPause()
      modifies this
      ensures !gateOpen && aborted == old(aborted)
    {
      gateOpen := false;
    }

    method Resume()
      modifies this
      ensures gateOpen && aborted == old(aborted)
    {
      gateOpen := true;
    }

    /** Abort is one-way: nothing clears it. */
    method Abort()
      modifies this
      ensures aborted && gateOpen == old(gateOpen)
    {
      aborted := true;
    }

    method GateIsSet() returns (b: bool)
      ensures b == gateOpen
    {
      b := gateOpen;
    }

    /** A set abort raises whatever the gate; otherwise a closed gate waits. */
    method Checkpoint() returns (a: CheckpointAction)
      ensures a == Cancel <==> aborted
      ensures a == Suspend <==> !aborted && !gateOpen
      ensures a == Proceed <==> !aborted && gateOpen
    {
      if aborted {
        return Cancel;
      }
      a := if gateOpen then Proceed else Suspend;
    }
  }

  // ---------------------------------------------------------------------
  // Lifecycle hook tables

  /** A lifecycle's settings and hook lists, as a value. */
  datatype LifecycleConfig = LifecycleConfig(
    delay: real,
    repeat: int,
    before: seq<string>,
    after: seq<string>,
    onError: seq<string>,
    fin: seq<string>,
    when: seq<string>)

  const DefaultLifecycle: LifecycleConfig := LifecycleConfig(0.0, 1, [], [], [], [], [])

  /** `add_hook` errors: a key outside the table is a `ValueError`; the two
      numeric entries have no `extend`, an `AttributeError`. */
  datatype HookError = InvalidHookType(hookType: string) | NotAList(hookType: string)

  class Lifecycle {
    var delay: real
    var repeat: int
    var before: seq<string>
    var after: seq<string>
    var onError: seq<string>
    var fin: seq<string>
    var when: seq<string>

    function Config(): LifecycleConfig
      reads this
    {
      LifecycleConfig(delay, repeat, before, after, onError, fin, when)
    }

    constructor ()
      ensures Config() == DefaultLifecycle
    {
      delay, repeat := 0.0, 1;
      before, after, onError, fin, when := [], [], [], [], [];
    }

    /** `add_hook`: extend one hook list in place. */
    method AddHook(hookType: string, actions: seq<string>) returns (r: Outcome<HookError>)
      modifies this
      ensures hookType in {"before", "after", "on_error", "finally", "when"} <==> r == Pass
      ensures hookType in {"delay", "repeat"} <==> r == Fail(NotAList(hookType))
      ensures hookType !in {"before", "after", "on_error", "finally", "when", "delay", "repeat"} <==>
        r == Fail(InvalidHookType(hookType))
      ensures r.Fail? ==> Config() == old(Config())
      ensures hookType == "before" ==> Config() == old(Config()).(before := old(before) + actions)
      ensures hookType == "after" ==> Config() == old(Config()).(after := old(after) + actions)
      ensures hookType == "on_error" ==> Config() == old(Config()).(onError := old(onError) + actions)
      ensures hookType == "finally" ==> Config() == old(Config()).(fin := old(fin) + actions)
      ensures hookType == "when" ==> Config() == old(Config()).(when := old(when) + actions)
    {
      r := Pass;
      if hookType == "before" {
        before := before + actions;
      } else if hookType == "after" {
        after := after + actions;
      } else if hookType == "on_error" {
        onError := onError + actions;
      } else if hookType == "finally" {
        fin := fin + actions;
      } else if hookType == "when" {
        when := when + actions;
      } else if hookType == "delay" || hookType == "repeat" {
        r := Fail(NotAList(hookType));
      } else {
        r := Fail(InvalidHookType(hookType));
      }
    }

    /** The hooks `run(hook_type)` walks: a list for the list entries, nothing
        for a name outside the table, and a `TypeError` (an int is not
        iterable) for the two numeric entries. */
    function HooksOf(hookType: string): (r: Result<seq<string>, HookError>)
      reads this
      ensures r.Err? <==> hookType in {"delay", "repeat"}
      ensures hookType !in {"before", "after", "on_error", "finally", "when", "delay", "repeat"} ==> r == Ok([])
      ensures hookType == "before" ==> r == Ok(before)
      ensures hookType == "after" ==> r == Ok(after)
      ensures hookType == "on_error" ==> r == Ok(onError)
      ensures hookType == "finally" ==> r == Ok(fin)
      ensures hookType == "when" ==> r == Ok(when)
    {
      if hookType == "before" then Ok(before)
      else if hookType == "after" then Ok(after)
      else if hookType == "on_error" then Ok(onError)
      else if hookType == "finally" then Ok(fin)
      else if hookType == "when" then Ok(when)
      else if hookType == "delay" || hookType == "repeat" then Err(NotAList(hookType))
      else Ok([])
    }
  }

  // ---------------------------------------------------------------------
  // Node trees, oracles and traces

  /** A node: a task (a leaf action with a dispatch kind, and whether the
      action is a coroutine function), a sequence of steps, or a parallel
      group of tasks. `ctx` names the execution context governing it. */
  datatype Node =
    | Task(name: string, ctx: nat, lc: LifecycleConfig, kind: string, isCoroutine: bool)
    | Sequence(name: string, ctx: nat, lc: LifecycleConfig, steps: seq<Node>)
    | ParallelGroup(name: string, ctx: nat, lc: LifecycleConfig, tasks: seq<Node>)

  /** What propagates out of a failing call: an `Exception`; a
      `BaseException` that is not one (the observatory errors); or the
      graceful cancellation, an `asyncio.CancelledError`. */
  datatype Err = Exc | BaseErr | Cancelled

  /** What one call does: return a value (its truthiness) or raise. */
  datatype Reply = Returns(truthy: bool) | Raises(err: Err)

  datatype Phase = When | Before | Action | After | OnError | Finally

  /** Trace events: a call made on behalf of a node, or one one-second slice
      of a node's delay. */
  datatype Event = Called(node: string, phase: Phase, hook: string) | Slept(node: string)

  /** The run state: the trace so far, how many calls have been answered,
      and the logical clock. */
  datatype St = St(trace: seq<Event>, pos: nat, clock: nat)

  /** What a run is evaluated against: the replies the calls get, in call
      order (a call past the end of the stream returns true), and the abort
      schedule (context `c` is aborted from clock `abortAt[c]` on; contexts
      outside the map are never aborted). */
  datatype Env = Env(replies: seq<Reply>, abortAt: map<nat, nat>)

  predicate Aborted(env: Env, ctx: nat, clock: nat)
  {
    ctx in env.abortAt && env.abortAt[ctx] <= clock
  }

  /** The reply the call at position `i` gets. */
  function Answer(env: Env, i: nat): Reply
  {
    if i < |env.replies| then env.replies[i] else Returns(true)
  }

  /** `b` is a later state than `a`: events were only appended, replies only
      consumed forward, and the clock never went back. */
  predicate Later(a: St, b: St)
  {
    a.trace <= b.trace && a.pos <= b.pos && a.clock <= b.clock
  }

  /** The end of a stage: carry on with a state, or an error propagating. */
  datatype Out = Continue(st: St) | Stop(err: Err, st: St) {
    predicate IsFailure() { Stop? }
    function PropagateFailure(): Out requires Stop? { this }
    function Extract(): St requires Continue? { st }
  }

  /** A call on behalf of `node`: recorded, and answered by the next reply. */
  function Invoke(node: string, phase: Phase, hook: string, st: St, env: Env): (r: Out)
    ensures r.st == St(st.trace + [Called(node, phase, hook)], st.pos + 1, st.clock)
    ensures r.Stop? <==> Answer(env, st.pos).Raises?
    ensures r.Stop? ==> r.err == Answer(env, st.pos).err
  {
    var s := St(st.trace + [Called(node, phase, hook)], st.pos + 1, st.clock);
    match Answer(env, st.pos)
    case Returns(_) => Continue(s)
    case Raises(e) => Stop(e, s)
  }

  /** `checkpoint`: raise the cancellation once the context's abort is
      visible; every checkpoint advances the clock. */
  function Checkpoint(ctx: nat, st: St, env: Env): (r: Out)
    ensures r.st == st.(clock := st.clock + 1)
    ensures r.Stop? <==> Aborted(env, ctx, st.clock)
    ensures r.Stop? ==> r.err == Cancelled
  {
    var s := st.(clock := st.clock + 1);
    if Aborted(env, ctx, st.clock) then Stop(Cancelled, s) else Continue(s)
  }

  /** `Lifecycle.run`: the hooks of one type, from the `i`-th on, in
      insertion order, each called and waited for; the first error
      propagates. */
  function RunHooks(node: string, phase: Phase, hooks: seq<string>, i: nat, st: St, env: Env): (r: Out)
    requires i <= |hooks|
    ensures Later(st, r.st) && r.st.clock == st.clock && r.st.pos <= st.pos + (|hooks| - i)
    decreases |hooks| - i
  {
    if i == |hooks| then Continue(st)
    else
      var s :- Invoke(node, phase, hooks[i], st, env);
      RunHooks(node, phase, hooks, i + 1, s, env)
  }

  /** The calls of the `k` hooks from the `i`-th on, in order. */
  function Calls(node: string, phase: Phase, hooks: seq<string>, i: nat, k: nat): (es: seq<Event>)
    requires i + k <= |hooks|
    ensures |es| == k
    decreases k
  {
    if k == 0 then [] else [Called(node, phase, hooks[i])] + Calls(node, phase, hooks, i + 1, k - 1)
  }

  /** The `n` calls from position `from` all return. */
  predicate AllReturn(env: Env, from: nat, n: nat)
  {
    forall i :: from <= i < from + n ==> Answer(env, i).Returns?
  }

  /** How many of `n` hooks, the first answered at position `from`, run: up
      to and including the first that raises. */
  function HooksRun(env: Env, from: nat, n: nat): (k: nat)
    ensures k <= n
    ensures k < n ==> k > 0 && Answer(env, from + k - 1).Raises?
    decreases n
  {
    if n == 0 then 0
    else if Answer(env, from).Raises? then 1
    else 1 + HooksRun(env, from + 1, n - 1)
  }

  /** The reply of the last hook that runs; a list that runs no hook
      returns. */
  function LastReply(env: Env, from: nat, n: nat): Reply
  {
    var k := HooksRun(env, from, n);
    if k == 0 then Returns(true) else Answer(env, from + k - 1)
  }

  /** Every hook before the last one that runs returned, and the hooks end
      in an error exactly when one of them raises. */
  lemma {:induction false} HooksStopAtFirstRaise(env: Env, from: nat, n: nat)
    ensures forall i :: from <= i < from + HooksRun(env, from, n) - 1 ==> Answer(env, i).Returns?
    ensures LastReply(env, from, n).Raises? <==> !AllReturn(env, from, n)
    decreases n
  {
    if n > 0 && Answer(env, from).Returns? {
      HooksStopAtFirstRaise(env, from + 1, n - 1);
      assert AllReturn(env, from, n) <==> AllReturn(env, from + 1, n - 1);
    }
  }

  /** The calls of `k + 1` hooks from the `i`-th: its call, then those of
      the next `k`. */
  lemma {:induction false} CallsStep(node: string, phase: Phase, hooks: seq<string>, i: nat, k: nat, t: seq<Event>)
    requires i + k < |hooks|
    ensures (t + [Called(node, phase, hooks[i])]) + Calls(node, phase, hooks, i + 1, k)
      == t + Calls(node, phase, hooks, i, k + 1)
  {
  }

  /** The hooks that run consume one reply each and take no time of their
      own. */
  lemma {:induction false} RunHooksPos(node: string, phase: Phase, hooks: seq<string>, i: nat, st: St, env: Env)
    requires i <= |hooks|
    ensures var r := RunHooks(node, phase, hooks, i, st, env);
      && r.st.pos == st.pos + HooksRun(env, st.pos, |hooks| - i)
      && r.st.clock == st.clock
    decreases |hooks| - i
  {
    if i < |hooks| {
      var c := Invoke(node, phase, hooks[i], st, env);
      if c.Continue? {
        RunHooksPos(node, phase, hooks, i + 1, c.st, env);
      }
    }
  }

  /** The hooks that run add exactly their calls to the trace, in order. */
  lemma {:induction false} RunHooksTrace(node: string, phase: Phase, hooks: seq<string>, i: nat, st: St, env: Env)
    requires i <= |hooks|
    ensures RunHooks(node, phase, hooks, i, st, env).st.trace
      == st.trace + Calls(node, phase, hooks, i, HooksRun(env, st.pos, |hooks| - i))
    decreases |hooks| - i
  {
    if i < |hooks| {
      var c := Invoke(node, phase, hooks[i], st, env);
      if c.Continue? {
        RunHooksTrace(node, phase, hooks, i + 1, c.st, env);
        CallsStep(node, phase, hooks, i, HooksRun(env, c.st.pos, |hooks| - i - 1), st.trace);
      }
    }
  }

  /** The hooks that run add exactly their calls to the trace, in order, and
      consume one reply each. */
  lemma {:induction false} RunHooksState(node: string, phase: Phase, hooks: seq<string>, i: nat, st: St, env: Env)
    requires i <= |hooks|
    ensures var r := RunHooks(node, phase, hooks, i, st, env);
      var k := HooksRun(env, st.pos, |hooks| - i);
      && r.st.trace == st.trace + Calls(node, phase, hooks, i, k)
      && r.st.pos == st.pos + k
      && r.st.clock == st.clock
  {
    RunHooksTrace(node, phase, hooks, i, st, env);
    RunHooksPos(node, phase, hooks, i, st, env);
  }

  /** The hooks end in the error of the last one that runs, if it raised. */
  lemma {:induction false} RunHooksEnd(node: string, phase: Phase, hooks: seq<string>, i: nat, st: St, env: Env)
    requires i <= |hooks|
    ensures var r := RunHooks(node, phase, hooks, i, st, env);
      && (r.Stop? <==> LastReply(env, st.pos, |hooks| - i).Raises?)
      && (r.Stop? ==> r.err == LastReply(env, st.pos, |hooks| - i).err)
    decreases |hooks| - i
  {
    if i < |hooks| {
      var c := Invoke(node, phase, hooks[i], st, env);
      if c.Continue? {
        RunHooksEnd(node, phase, hooks, i + 1, c.st, env);
      }
    }
  }

  /** Hooks run in insertion order and stop at the first that raises, which
      then propagates; every hook before it was called exactly once. */
  lemma {:induction false} RunHooksInOrder(node: string, phase: Phase, hooks: seq<string>, st: St, env: Env)
    ensures var r := RunHooks(node, phase, hooks, 0, st, env);
      var k := HooksRun(env, st.pos, |hooks|);
      && r.st == St(st.trace + Calls(node, phase, hooks, 0, k), st.pos + k, st.clock)
      && (forall i :: st.pos <= i < st.pos + k - 1 ==> Answer(env, i).Returns?)
      && (r.Stop? <==> !AllReturn(env, st.pos, |hooks|))
      && (r.Stop? ==> r.err == Answer(env, st.pos + k - 1).err)
  {
    RunHooksState(node, phase, hooks, 0, st, env);
    RunHooksEnd(node, phase, hooks, 0, st, env);
    HooksStopAtFirstRaise(env, st.pos, |hooks|);
  }

  /** One-second slices of a delay: `range(int(duration))`. */
  function Slices(delay: real): (k: nat)
    ensures delay <= 0.0 ==> k == 0
    ensures delay > 0.0 ==> k as real <= delay < k as real + 1.0
  {
    if delay <= 0.0 then 0 else delay.Floor
  }

  /** `m` one-second slices slept on behalf of `node`. */
  function Naps(node: string, m: nat): (es: seq<Event>)
    ensures |es| == m
  {
    if m == 0 then [] else [Slept(node)] + Naps(node, m - 1)
  }

  /** `sleep_with_checkpoints`: each slice sleeps, then checkpoints; the
      cancellation a checkpoint raises ends the sleep and is swallowed. */
  function SleepSlices(node: string, ctx: nat, k: nat, st: St, env: Env): (r: St)
    ensures r.pos == st.pos && r.clock >= st.clock
    ensures |st.trace| <= |r.trace| <= |st.trace| + k
    ensures r.trace == st.trace + Naps(node, |r.trace| - |st.trace|)
    ensures (forall t :: st.clock <= t < st.clock + k ==> !Aborted(env, ctx, t)) ==>
      |r.trace| == |st.trace| + k && r.clock == st.clock + k
    decreases k
  {
    if k == 0 then st
    else
      var s := St(st.trace + [Slept(node)], st.pos, st.clock + 1);
      if Aborted(env, ctx, st.clock) then s
      else SleepSlices(node, ctx, k - 1, s, env)
  }

  /** An abort first visible at the checkpoint of slice `j` (an abort, once
      visible, stays visible) ends the sleep after exactly `j + 1` slices. */
  lemma {:induction false} SleepEndsAtFirstAbort(node: string, ctx: nat, k: nat, st: St, env: Env, j: nat)
    requires j < k && Aborted(env, ctx, st.clock + j)
    requires j > 0 ==> !Aborted(env, ctx, st.clock + j - 1)
    ensures SleepSlices(node, ctx, k, st, env).trace == st.trace + Naps(node, j + 1)
    ensures SleepSlices(node, ctx, k, st, env).clock == st.clock + j + 1
    decreases j
  {
    var r := SleepSlices(node, ctx, k, st, env);
    var s := St(st.trace + [Slept(node)], st.pos, st.clock + 1);
    if j > 0 {
      assert !Aborted(env, ctx, st.clock);
      assert r == SleepSlices(node, ctx, k - 1, s, env);
      SleepEndsAtFirstAbort(node, ctx, k - 1, s, env, j - 1);
    }
    assert |r.trace| - |st.trace| == j + 1;
  }

  /** The `n` calls from position `from` all return a truthy value. */
  predicate AllTruthy(env: Env, from: nat, n: nat)
  {
    forall i :: from <= i < from + n ==> Answer(env, i).Returns? && Answer(env, i).truthy
  }

  /** The `when` predicates, all called (they are gathered), in order; the
      first one to raise decides the error, otherwise their conjunction. */
  datatype Verdict = Decided(ok: bool, st: St) | Failed(err: Err, st: St)

  function AskWhen(node: string, preds: seq<string>, i: nat, st: St, env: Env): (r: Verdict)
    requires i <= |preds|
    ensures r.st.pos == st.pos + (|preds| - i) && r.st.clock == st.clock
    ensures r.st.trace == st.trace + Calls(node, When, preds, i, |preds| - i)
    ensures r.Decided? <==> AllReturn(env, st.pos, |preds| - i)
    ensures r.Decided? ==> (r.ok <==> AllTruthy(env, st.pos, |preds| - i))
    decreases |preds| - i
  {
    if i == |preds| then Decided(true, st)
    else
      var s := St(st.trace + [Called(node, When, preds[i])], st.pos + 1, st.clock);
      var rest := AskWhen(node, preds, i + 1, s, env);
      match Answer(env, st.pos)
      case Raises(e) => Failed(e, rest.st)
      case Returns(b) =>
        match rest
        case Decided(ok, s') => Decided(b && ok, s')
        case Failed(e, s') => Failed(e, s')
  }

  /** `Task._exec` kind resolution: "auto" becomes "async" for a coroutine
      function and "sync" otherwise; any other kind stays as it is. */
  function ResolveKind(kind: string, isCoroutine: bool): (k: string)
    ensures kind == "auto" && isCoroutine ==> k == "async"
    ensures kind == "auto" && !isCoroutine ==> k == "sync"
    ensures kind != "auto" ==> k == kind
  {
    if kind == "auto" then (if isCoroutine then "async" else "sync") else kind
  }

  /** `Task._exec`: dispatch the action, or raise a `RuntimeError` without
      calling it for a kind outside async, sync and cpu. */
  function Exec(n: Node, st: St, env: Env): (r: Out)
    requires n.Task?
    ensures ResolveKind(n.kind, n.isCoroutine) in {"async", "sync", "cpu"} ==> r == Invoke(n.name, Action, n.name, st, env)
    ensures ResolveKind(n.kind, n.isCoroutine) !in {"async", "sync", "cpu"} ==> r == Stop(Exc, st)
  {
    if ResolveKind(n.kind, n.isCoroutine) in {"async", "sync", "cpu"} then Invoke(n.name, Action, n.name, st, env)
    else Stop(Exc, st)
  }

  /** The error a parallel group's children leave behind once joined. */
  datatype Fault = NoFault | ExcFault | BaseFault

  /** A child end the `TaskGroup` ignores: a normal end or the cancellation. */
  predicate Absorbed(o: Out)
  {
    o.Continue? || o.err == Cancelled
  }

  /** A child end that is a `BaseException` other than the cancellation. */
  predicate Fatal(o: Out)
  {
    o.Stop? && o.err == BaseErr
  }

  /** The `TaskGroup` join: a child that ends in the cancellation counts as
      cancelled and is ignored; any other `BaseException` makes the group's
      error a base exception group (not an `Exception`), and otherwise any
      `Exception` makes it an exception group (an `Exception`). */
  function Join(ends: seq<Out>): (f: Fault)
    ensures f == NoFault <==> forall o :: o in ends ==> Absorbed(o)
    ensures f == BaseFault <==> exists o :: o in ends && Fatal(o)
  {
    if ends == [] then NoFault
    else
      assert ends == [ends[0]] + ends[1..] && ends[0] in ends;
      var rest := Join(ends[1..]);
      if Fatal(ends[0]) then BaseFault
      else if rest == BaseFault then BaseFault
      else if ends[0].Stop? && ends[0].err == Exc then ExcFault
      else rest
  }

  function Iterations(repeat: int): nat
  {
    if repeat > 0 then repeat else 0
  }

  // ---------------------------------------------------------------------
  // The run protocol

  /** `run`: the iterations, then `on_error` on an Exception and `finally`
      in every case. */
  function Run(n: Node, st: St, env: Env): (r: Out)
    ensures Later(st, r.st)
    decreases n, 5, 0
  {
    Guarded(n.name, n.lc, Loop(n, Iterations(n.lc.repeat), st, env), env)
  }

  /** The `except Exception` / `finally` frame around the iterations. An
      error raised by an `on_error` or `finally` hook replaces the one being
      handled. */
  function Guarded(node: string, lc: LifecycleConfig, body: Out, env: Env): (r: Out)
    ensures Later(body.st, r.st)
    ensures body.Stop? ==> r.Stop?
  {
    var handled := if body.Stop? && body.err == Exc then OnErrorStage(node, lc.onError, body.st, env) else body;
    FinallyStage(node, lc.fin, handled, env)
  }

  /** The `except Exception` stage: the `on_error` hooks run, and the
      Exception stays the end unless one of them raises. */
  function OnErrorStage(node: string, onError: seq<string>, st: St, env: Env): (r: Out)
    ensures r.Stop? && Later(st, r.st)
  {
    var h := RunHooks(node, OnError, onError, 0, st, env);
    if h.Stop? then h else Stop(Exc, h.st)
  }

  /** The `finally` stage: its hooks run after whatever `handled` holds,
      and the error one of them raises replaces that end. */
  function FinallyStage(node: string, fin: seq<string>, handled: Out, env: Env): (r: Out)
    ensures Later(handled.st, r.st)
    ensures handled.Stop? ==> r.Stop?
  {
    var f := RunHooks(node, Finally, fin, 0, handled.st, env);
    if f.Stop? then f else handled.(st := f.st)
  }

  /** The remaining `k` iterations. */
  function Loop(n: Node, k: nat, st: St, env: Env): (r: Out)
    ensures Later(st, r.st)
    decreases n, 4, k
  {
    if k == 0 then Continue(st)
    else
      var s :- Iteration(n, st, env);
      Loop(n, k - 1, s, env)
  }

  /** One iteration: the prelude decides whether it runs at all. */
  function Iteration(n: Node, st: St, env: Env): (r: Out)
    ensures Later(st, r.st) && st.clock < r.st.clock
    decreases n, 3, 0
  {
    match Prelude(n, st, env)
    case Failed(e, s) => Stop(e, s)
    case Decided(ok, s) => if ok then Main(n, s, env) else Continue(s)
  }

  /** Checkpoint, delay, (checkpoint,) `when`. A parallel group has no
      checkpoint between its delay and its predicates. */
  function Prelude(n: Node, st: St, env: Env): (r: Verdict)
    ensures Later(st, r.st) && st.clock < r.st.clock
  {
    var c := Checkpoint(n.ctx, st, env);
    if c.Stop? then Failed(c.err, c.st)
    else
      var slept := SleepSlices(n.name, n.ctx, Slices(n.lc.delay), c.st, env);
      var c2 := if n.ParallelGroup? then Continue(slept) else Checkpoint(n.ctx, slept, env);
      if c2.Stop? then Failed(c2.err, c2.st)
      else AskWhen(n.name, n.lc.when, 0, c2.st, env)
  }

  /** Checkpoint, `before`, (checkpoint,) body, checkpoint, `after`,
      checkpoint. A parallel group has no checkpoint between its `before`
      hooks and its children. */
  function Main(n: Node, st: St, env: Env): (r: Out)
    ensures Later(st, r.st) && st.clock < r.st.clock
    decreases n, 2, 0
  {
    var s1 :- Checkpoint(n.ctx, st, env);
    var s2 :- RunHooks(n.name, Before, n.lc.before, 0, s1, env);
    var s3 :- if n.ParallelGroup? then Continue(s2) else Checkpoint(n.ctx, s2, env);
    var s4 :- Body(n, s3, env);
    var s5 :- Checkpoint(n.ctx, s4, env);
    var s6 :- RunHooks(n.name, After, n.lc.after, 0, s5, env);
    Checkpoint(n.ctx, s6, env)
  }

  function Body(n: Node, st: St, env: Env): (r: Out)
    ensures Later(st, r.st)
    decreases n, 1, 0
  {
    match n
    case Task(_, _, _, _, _) => Exec(n, st, env)
    case Sequence(_, _, _, steps) => Steps(n, 0, st, env)
    case ParallelGroup(_, _, _, tasks) =>
      var g := Children(n, 0, st, env);
      match Join(g.ends)
      case NoFault => Continue(g.st)
      case ExcFault => Stop(Exc, g.st)
      case BaseFault => Stop(BaseErr, g.st)
  }

  /** A sequence's steps from position `i`: checkpoint, then the step's own
      full run, strictly in order; the first failure ends the walk. */
  function Steps(n: Node, i: nat, st: St, env: Env): (r: Out)
    requires n.Sequence? && i <= |n.steps|
    ensures Later(st, r.st)
    ensures i < |n.steps| ==> st.clock < r.st.clock
    decreases n, 0, |n.steps| - i
  {
    if i == |n.steps| then Continue(st)
    else
      var s :- Checkpoint(n.ctx, st, env);
      var s' :- Run(n.steps[i], s, env);
      Steps(n, i + 1, s', env)
  }

  datatype Gathered = Gathered(ends: seq<Out>, st: St)

  /** A parallel group's children from position `i`, every one of them run,
      with how each ended. */
  function Children(n: Node, i: nat, st: St, env: Env): (g: Gathered)
    requires n.ParallelGroup? && i <= |n.tasks|
    ensures |g.ends| == |n.tasks| - i
    ensures Later(st, g.st)
    decreases n, 0, |n.tasks| - i
  {
    if i == |n.tasks| then Gathered([], st)
    else
      var r := Run(n.tasks[i], st, env);
      var rest := Children(n, i + 1, r.st, env);
      Gathered([r] + rest.ends, rest.st)
  }

  // ---------------------------------------------------------------------
  // Properties of the run protocol

  /** A sequence whose `i`-th step fails after an unaborted checkpoint ends
      in exactly that step's failure. */
  lemma {:induction false} StepFailureStopsSequence(n: Node, i: nat, st: St, env: Env)
    requires n.Sequence? && i < |n.steps| && !Aborted(env, n.ctx, st.clock)
    requires Run(n.steps[i], st.(clock := st.clock + 1), env).Stop?
    ensures Steps(n, i, st, env) == Run(n.steps[i], st.(clock := st.clock + 1), env)
  {
  }

  /** The states between the steps of a sequence: from `mids[m]` the
      checkpoint passes and step `m` carries on into `mids[m + 1]`. */
  predicate StepsChain(n: Node, mids: seq<St>, env: Env)
    requires n.Sequence? && |mids| <= |n.steps| + 1
  {
    forall m :: 0 <= m < |mids| - 1 ==>
      !Aborted(env, n.ctx, mids[m].clock) &&
      Run(n.steps[m], mids[m].(clock := mids[m].clock + 1), env) == Continue(mids[m + 1])
  }

  /** Along such a chain the walk from any step `i` of it reaches the
      chain's last step in the chain's last state: the steps run strictly in
      order, each from the state the previous one left. */
  lemma {:induction false} StepsFollowChain(n: Node, mids: seq<St>, i: nat, env: Env)
    requires n.Sequence? && i < |mids| <= |n.steps| + 1 && StepsChain(n, mids, env)
    ensures Steps(n, i, mids[i], env) == Steps(n, |mids| - 1, mids[|mids| - 1], env)
    decreases |mids| - i
  {
    if i < |mids| - 1 {
      assert !Aborted(env, n.ctx, mids[i].clock);
      assert Run(n.steps[i], mids[i].(clock := mids[i].clock + 1), env) == Continue(mids[i + 1]);
      assert Checkpoint(n.ctx, mids[i], env) == Continue(mids[i].(clock := mids[i].clock + 1));
      assert Steps(n, i, mids[i], env) == Steps(n, i + 1, mids[i + 1], env);
      StepsFollowChain(n, mids, i + 1, env);
    }
  }

  /** When every step carries on, the sequence carries on from where the last
      step left. */
  lemma {:induction false} StepsAllContinue(n: Node, mids: seq<St>, env: Env)
    requires n.Sequence? && |mids| == |n.steps| + 1 && StepsChain(n, mids, env)
    ensures Steps(n, 0, mids[0], env) == Continue(mids[|n.steps|])
  {
    StepsFollowChain(n, mids, 0, env);
  }

  /** When the steps before `j` carry on and step `j` fails, the sequence
      ends in step `j`'s failure and no later step runs. */
  lemma {:induction false} StepsStopAtFailingStep(n: Node, mids: seq<St>, env: Env)
    requires n.Sequence? && 0 < |mids| <= |n.steps| && StepsChain(n, mids, env)
    requires !Aborted(env, n.ctx, mids[|mids| - 1].clock)
    requires Run(n.steps[|mids| - 1], mids[|mids| - 1].(clock := mids[|mids| - 1].clock + 1), env).Stop?
    ensures Steps(n, 0, mids[0], env) ==
      Run(n.steps[|mids| - 1], mids[|mids| - 1].(clock := mids[|mids| - 1].clock + 1), env)
  {
    StepsFollowChain(n, mids, 0, env);
    StepFailureStopsSequence(n, |mids| - 1, mids[|mids| - 1], env);
  }

  /** The `on_error` hooks that run add their calls; the stage ends in the
      error of the last one if it raised, otherwise in the Exception. */
  lemma {:induction false} OnErrorStageEffect(node: string, onError: seq<string>, st: St, env: Env)
    ensures var h := OnErrorStage(node, onError, st, env);
      var ke := HooksRun(env, st.pos, |onError|);
      var e := LastReply(env, st.pos, |onError|);
      h == Stop(if e.Raises? then e.err else Exc, St(st.trace + Calls(node, OnError, onError, 0, ke), st.pos + ke, st.clock))
  {
    RunHooksState(node, OnError, onError, 0, st, env);
    RunHooksEnd(node, OnError, onError, 0, st, env);
  }

  /** The `finally` hooks that run add their calls; when they all return,
      `handled` keeps its end, otherwise the last hook's error ends it. */
  lemma {:induction false} FinallyStageEffect(node: string, fin: seq<string>, handled: Out, env: Env)
    ensures var g := FinallyStage(node, fin, handled, env);
      var kf := HooksRun(env, handled.st.pos, |fin|);
      var f := LastReply(env, handled.st.pos, |fin|);
      && g.st == St(handled.st.trace + Calls(node, Finally, fin, 0, kf), handled.st.pos + kf, handled.st.clock)
      && (f.Raises? ==> g == Stop(f.err, g.st))
      && (!f.Raises? ==> g == handled.(st := g.st))
  {
    RunHooksState(node, Finally, fin, 0, handled.st, env);
    RunHooksEnd(node, Finally, fin, 0, handled.st, env);
  }

  /** The frame around iterations that did not end in an Exception: only
      the `finally` hooks run. */
  lemma {:induction false} GuardedPassThrough(node: string, lc: LifecycleConfig, body: Out, env: Env)
    requires !(body.Stop? && body.err == Exc)
    ensures var g := Guarded(node, lc, body, env);
      var kf := HooksRun(env, body.st.pos, |lc.fin|);
      var f := LastReply(env, body.st.pos, |lc.fin|);
      && g.st == St(body.st.trace + Calls(node, Finally, lc.fin, 0, kf), body.st.pos + kf, body.st.clock)
      && (f.Raises? ==> g == Stop(f.err, g.st))
      && (!f.Raises? ==> g == body.(st := g.st))
  {
    assert Guarded(node, lc, body, env) == FinallyStage(node, lc.fin, body, env);
    FinallyStageEffect(node, lc.fin, body, env);
  }

  /** The frame around iterations that ended in an Exception: `on_error`,
      then `finally`. */
  lemma {:induction false} GuardedOnError(node: string, lc: LifecycleConfig, body: Out, env: Env)
    requires body.Stop? && body.err == Exc
    ensures var g := Guarded(node, lc, body, env);
      var ke := HooksRun(env, body.st.pos, |lc.onError|);
      var mid := body.st.pos + ke;
      var kf := HooksRun(env, mid, |lc.fin|);
      var e := LastReply(env, body.st.pos, |lc.onError|);
      var f := LastReply(env, mid, |lc.fin|);
      && g.st == St(body.st.trace + Calls(node, OnError, lc.onError, 0, ke) + Calls(node, Finally, lc.fin, 0, kf),
                    mid + kf, body.st.clock)
      && (f.Raises? ==> g == Stop(f.err, g.st))
      && (!f.Raises? ==> g == Stop(if e.Raises? then e.err else Exc, g.st))
  {
    var handled := OnErrorStage(node, lc.onError, body.st, env);
    OnErrorStageEffect(node, lc.onError, body.st, env);
    assert Guarded(node, lc, body, env) == FinallyStage(node, lc.fin, handled, env);
    FinallyStageEffect(node, lc.fin, handled, env);
  }

  /** The `except Exception` / `finally` frame. `on_error` hooks run only
      when the iterations ended in an Exception, never for the cancellation or
      another BaseException; `finally` hooks run in every case, after them.
      When those hooks return, the iterations' own end propagates unchanged;
      an error a hook raises replaces it, one from `finally` last. */
  lemma {:induction false} GuardedProtocol(node: string, lc: LifecycleConfig, body: Out, env: Env)
    ensures var g := Guarded(node, lc, body, env);
      var isExc := body.Stop? && body.err == Exc;
      var ke := if isExc then HooksRun(env, body.st.pos, |lc.onError|) else 0;
      var mid := body.st.pos + ke;
      var kf := HooksRun(env, mid, |lc.fin|);
      var e := LastReply(env, body.st.pos, |lc.onError|);
      var f := LastReply(env, mid, |lc.fin|);
      && g.st == St(body.st.trace + Calls(node, OnError, lc.onError, 0, ke) + Calls(node, Finally, lc.fin, 0, kf),
                    mid + kf, body.st.clock)
      && (f.Raises? ==> g == Stop(f.err, g.st))
      && (!f.Raises? && isExc && e.Raises? ==> g == Stop(e.err, g.st))
      && (!f.Raises? && !(isExc && e.Raises?) ==> g == body.(st := g.st))
  {
    if body.Stop? && body.err == Exc {
      GuardedOnError(node, lc, body, env);
    } else {
      GuardedPassThrough(node, lc, body, env);
      assert body.st.trace + Calls(node, OnError, lc.onError, 0, 0) == body.st.trace;
    }
  }

  /** A node whose context is already aborted when it starts makes no call
      but its `finally` hooks, and ends in the cancellation unless one of
      those hooks raises. */
  lemma {:induction false} AbortBeforeStartRunsOnlyFinally(n: Node, st: St, env: Env)
    requires Aborted(env, n.ctx, st.clock) && Iterations(n.lc.repeat) > 0
    ensures var r := Run(n, st, env);
      var k := HooksRun(env, st.pos, |n.lc.fin|);
      var f := LastReply(env, st.pos, |n.lc.fin|);
      && r.st.trace == st.trace + Calls(n.name, Finally, n.lc.fin, 0, k)
      && r.st.pos == st.pos + k
      && r.st.clock == st.clock + 1
      && r == Stop(if f.Raises? then f.err else Cancelled, r.st)
  {
    var s := st.(clock := st.clock + 1);
    assert Prelude(n, st, env) == Failed(Cancelled, s);
    assert Loop(n, Iterations(n.lc.repeat), st, env) == Stop(Cancelled, s);
    GuardedPassThrough(n.name, n.lc, Stop(Cancelled, s), env);
  }

  /** An iteration whose `when` predicates do not all hold is skipped: it
      adds only its delay's slices and the predicates' own calls, so no
      `before`, body or `after` call happens, and the loop goes on. */
  lemma {:induction false} WhenFalseSkipsIteration(n: Node, st: St, env: Env)
    requires Prelude(n, st, env).Decided? && !Prelude(n, st, env).ok
    ensures var p := Prelude(n, st, env);
      && Iteration(n, st, env) == Continue(p.st)
      && |n.lc.when| > 0
      && exists m :: 0 <= m <= Slices(n.lc.delay) && p.st.trace == st.trace + Naps(n.name, m) + Calls(n.name, When, n.lc.when, 0, |n.lc.when|)
  {
    var c := Checkpoint(n.ctx, st, env);
    var slept := SleepSlices(n.name, n.ctx, Slices(n.lc.delay), c.st, env);
    var m := |slept.trace| - |st.trace|;
    assert Prelude(n, st, env).st.trace == st.trace + Naps(n.name, m) + Calls(n.name, When, n.lc.when, 0, |n.lc.when|);
  }

  /** An abort that lands during the delay ends the sleep quietly. A task or
      a sequence then raises the cancellation at the checkpoint after the
      delay, before asking its predicates. */
  lemma {:induction false} AbortDuringDelay(n: Node, st: St, env: Env)
    requires !Aborted(env, n.ctx, st.clock) && Aborted(env, n.ctx, st.clock + 1)
    requires Slices(n.lc.delay) > 0
    requires !n.ParallelGroup?
    ensures var p := Prelude(n, st, env);
      p.Failed? && p.err == Cancelled && p.st.trace == st.trace + [Slept(n.name)]
  {
    var c := Checkpoint(n.ctx, st, env);
    var slept := SleepSlices(n.name, n.ctx, Slices(n.lc.delay), c.st, env);
    assert slept.trace == st.trace + [Slept(n.name)];
    assert Aborted(env, n.ctx, slept.clock);
  }

  /** The same abort in a parallel group's delay: the sleep ends quietly as
      well, but with no checkpoint after the delay the group still calls
      all its `when` predicates. */
  lemma {:induction false} AbortDuringGroupDelay(n: Node, st: St, env: Env)
    requires !Aborted(env, n.ctx, st.clock) && Aborted(env, n.ctx, st.clock + 1)
    requires Slices(n.lc.delay) > 0
    requires n.ParallelGroup?
    ensures var p := Prelude(n, st, env);
      p.st.trace == st.trace + [Slept(n.name)] + Calls(n.name, When, n.lc.when, 0, |n.lc.when|)
  {
    var c := Checkpoint(n.ctx, st, env);
    var slept := SleepSlices(n.name, n.ctx, Slices(n.lc.delay), c.st, env);
    assert slept.trace == st.trace + [Slept(n.name)];
  }

  /** Children that are all aborted before they start and have no `finally`
      hooks. */
  predicate AbortedAtStart(tasks: seq<Node>, env: Env)
  {
    forall c :: c in tasks ==>
      c.ctx in env.abortAt && env.abortAt[c.ctx] == 0 && Iterations(c.lc.repeat) > 0 && c.lc.fin == []
  }

  /** A parallel group whose children were all aborted before they started
      absorbs their cancellations: no call is made for them and the group's
      body carries on. */
  lemma {:induction false} AbortedChildrenAreAbsorbed(n: Node, st: St, env: Env)
    requires n.ParallelGroup? && AbortedAtStart(n.tasks, env)
    ensures Body(n, st, env).Continue? && Body(n, st, env).st.trace == st.trace
  {
    CancelledChildren(n, 0, st, env);
  }

  /** A group of two children whose first was aborted before it started
      (with no `finally` hooks): that child only passes its first checkpoint
      and its cancellation is absorbed, so the group's end is the second
      child's alone, joined as the `TaskGroup` joins it. */
  lemma {:induction false} AbortedSiblingIsAbsorbed(n: Node, st: St, env: Env)
    requires n.ParallelGroup? && |n.tasks| == 2 && AbortedAtStart([n.tasks[0]], env)
    ensures var b := Run(n.tasks[1], st.(clock := st.clock + 1), env);
      Body(n, st, env) ==
        if Absorbed(b) then Continue(b.st) else if Fatal(b) then Stop(BaseErr, b.st) else Stop(Exc, b.st)
  {
    var a := n.tasks[0];
    assert a in [n.tasks[0]];
    AbortBeforeStartRunsOnlyFinally(a, st, env);
    var ra := Run(a, st, env);
    assert ra == Stop(Cancelled, st.(clock := st.clock + 1));
    var b := Run(n.tasks[1], ra.st, env);
    assert Children(n, 2, b.st, env) == Gathered([], b.st);
    assert Children(n, 1, ra.st, env) == Gathered([b], b.st);
    assert Children(n, 0, st, env) == Gathered([ra, b], b.st);
    assert Join([ra, b]) == Join([b]) by {
      assert [ra, b][1..] == [b];
    }
    assert [b][1..] == [];
  }

  /** Children aborted before they start, from position `i` on: each ends
      in the cancellation and none adds to the trace. */
  lemma {:induction false} CancelledChildren(n: Node, i: nat, st: St, env: Env)
    requires n.ParallelGroup? && i <= |n.tasks| && AbortedAtStart(n.tasks, env)
    ensures var g := Children(n, i, st, env);
      g.st.trace == st.trace && forall o :: o in g.ends ==> o.Stop? && o.err == Cancelled
    decreases |n.tasks| - i
  {
    if i < |n.tasks| {
      var c := n.tasks[i];
      assert c in n.tasks;
      AbortBeforeStartRunsOnlyFinally(c, st, env);
      var r := Run(c, st, env);
      assert r.st.trace == st.trace;
      CancelledChildren(n, i + 1, r.st, env);
    }
  }

  // ---------------------------------------------------------------------
  // A worked scenario: an observing sequence repeated `r` times around one
  // exposure task, with one hook of every kind, under contexts that are
  // never aborted.

  const Exposure: Node := Task("expose", 1, DefaultLifecycle, "sync", false)

  function Observing(r: int): Node
  {
    Sequence("observe", 0, LifecycleConfig(0.0, r, ["prepare"], ["record"], ["alert"], ["cleanup"], []), [Exposure])
  }

  const Prepare: Event := Called("observe", Before, "prepare")
  const Expose: Event := Called("expose", Action, "expose")
  const Record: Event := Called("observe", After, "record")
  const Alert: Event := Called("observe", OnError, "alert")
  const Cleanup: Event := Called("observe", Finally, "cleanup")

  /** `k` complete iterations of the observing sequence. */
  function Rounds(k: nat): (es: seq<Event>)
    ensures |es| == 3 * k
  {
    if k == 0 then [] else [Prepare, Expose, Record] + Rounds(k - 1)
  }

  /** A single hook is a single call. */
  lemma {:induction false} OneHook(node: string, phase: Phase, hook: string, st: St, env: Env)
    ensures RunHooks(node, phase, [hook], 0, st, env) == Invoke(node, phase, hook, st, env)
  {
  }

  /** The exposure task's run: one action call, and the action's reply
      decides how it ends. */
  lemma {:induction false} ExposureRun(st: St, env: Env)
    requires env.abortAt == map[]
    ensures var r := Run(Exposure, st, env);
      && r.st.trace == st.trace + [Expose]
      && r.st.pos == st.pos + 1
      && (r.Stop? <==> Answer(env, st.pos).Raises?)
      && (r.Stop? ==> r.err == Answer(env, st.pos).err)
  {
    var s := st.(clock := st.clock + 2);
    assert Prelude(Exposure, st, env) == Decided(true, s);
    var m := Main(Exposure, s, env);
    assert m.st.trace == st.trace + [Expose] && m.st.pos == st.pos + 1;
    assert Iteration(Exposure, st, env) == m;
    assert Loop(Exposure, 1, st, env) == m;
    GuardedProtocol("expose", DefaultLifecycle, m, env);
  }

  /** A task's or a sequence's iteration under a context that is never
      aborted: the checkpoints only advance the clock. */
  lemma {:induction false} MainUnaborted(n: Node, st: St, env: Env)
    requires !n.ParallelGroup? && n.ctx !in env.abortAt
    ensures Main(n, st, env) ==
      var b := RunHooks(n.name, Before, n.lc.before, 0, st.(clock := st.clock + 1), env);
      if b.Stop? then b else
      var body := Body(n, b.st.(clock := b.st.clock + 1), env);
      if body.Stop? then body else
      var a := RunHooks(n.name, After, n.lc.after, 0, body.st.(clock := body.st.clock + 1), env);
      if a.Stop? then a else Continue(a.st.(clock := a.st.clock + 1))
  {
    assert Checkpoint(n.ctx, st, env) == Continue(st.(clock := st.clock + 1));
    var b := RunHooks(n.name, Before, n.lc.before, 0, st.(clock := st.clock + 1), env);
    if b.Continue? {
      assert Checkpoint(n.ctx, b.st, env) == Continue(b.st.(clock := b.st.clock + 1));
      var body := Body(n, b.st.(clock := b.st.clock + 1), env);
      if body.Continue? {
        assert Checkpoint(n.ctx, body.st, env) == Continue(body.st.(clock := body.st.clock + 1));
        var a := RunHooks(n.name, After, n.lc.after, 0, body.st.(clock := body.st.clock + 1), env);
        if a.Continue? {
          assert Checkpoint(n.ctx, a.st, env) == Continue(a.st.(clock := a.st.clock + 1));
        }
      }
    }
  }

  /** An unaborted iteration whose hooks and body all carry on ends after
      its `after` hooks and one last checkpoint. */
  lemma {:induction false} MainAllContinue(n: Node, st: St, env: Env, b: St, body: St, a: St)
    requires !n.ParallelGroup? && n.ctx !in env.abortAt
    requires RunHooks(n.name, Before, n.lc.before, 0, st.(clock := st.clock + 1), env) == Continue(b)
    requires Body(n, b.(clock := b.clock + 1), env) == Continue(body)
    requires RunHooks(n.name, After, n.lc.after, 0, body.(clock := body.clock + 1), env) == Continue(a)
    ensures Main(n, st, env) == Continue(a.(clock := a.clock + 1))
  {
    assert Checkpoint(n.ctx, st, env) == Continue(st.(clock := st.clock + 1));
    assert Checkpoint(n.ctx, b, env) == Continue(b.(clock := b.clock + 1));
    assert Checkpoint(n.ctx, body, env) == Continue(body.(clock := body.clock + 1));
    assert Checkpoint(n.ctx, a, env) == Continue(a.(clock := a.clock + 1));
  }

  /** With no delay and no predicates, an unaborted iteration goes straight
      to its main part after two checkpoints. */
  lemma {:induction false} PlainPrelude(n: Node, st: St, env: Env)
    requires n.ctx !in env.abortAt && Slices(n.lc.delay) == 0 && n.lc.when == [] && !n.ParallelGroup?
    ensures Iteration(n, st, env) == Main(n, st.(clock := st.clock + 2), env)
  {
    assert Prelude(n, st, env) == Decided(true, st.(clock := st.clock + 2));
  }

  /** A sequence of one step under a context that is never aborted: the
      step's own run, after one checkpoint. */
  lemma {:induction false} SingleStepBody(n: Node, st: St, env: Env)
    requires n.Sequence? && |n.steps| == 1 && n.ctx !in env.abortAt
    ensures var step := Run(n.steps[0], st.(clock := st.clock + 1), env);
      Body(n, st, env) == if step.Stop? then step else Continue(step.st)
  {
    var step := Run(n.steps[0], st.(clock := st.clock + 1), env);
    assert Steps(n, 1, step.st, env) == Continue(step.st);
  }

  /** The start of the main part of one iteration of the observing
      sequence: the `prepare` call, then the exposure's run. */
  lemma {:induction false} ObservingBody(r: int, st: St, env: Env)
    requires env.abortAt == map[] && Answer(env, st.pos).Returns?
    ensures var n := Observing(r);
      var s2 := St(st.trace + [Prepare], st.pos + 1, st.clock + 2);
      var step := Run(Exposure, s2.(clock := s2.clock + 1), env);
      && RunHooks(n.name, Before, n.lc.before, 0, st.(clock := st.clock + 1), env) == Continue(s2.(clock := st.clock + 1))
      && Body(n, s2, env) == (if step.Stop? then step else Continue(step.st))
      && step.st.trace == st.trace + [Prepare, Expose] && step.st.pos == st.pos + 2
      && (step.Stop? <==> Answer(env, st.pos + 1).Raises?)
      && (step.Stop? ==> step.err == Answer(env, st.pos + 1).err)
  {
    var n := Observing(r);
    OneHook("observe", Before, "prepare", st.(clock := st.clock + 1), env);
    var s2 := St(st.trace + [Prepare], st.pos + 1, st.clock + 2);
    assert n.steps[0] == Exposure;
    SingleStepBody(n, s2, env);
    ExposureRun(s2.(clock := s2.clock + 1), env);
  }

  /** The main part of one iteration of the observing sequence whose calls
      all return: `prepare`, the exposure, `record`. */
  lemma {:induction false} ObservingMain(r: int, st: St, env: Env)
    requires env.abortAt == map[]
    requires Answer(env, st.pos).Returns? && Answer(env, st.pos + 1).Returns? && Answer(env, st.pos + 2).Returns?
    ensures var it := Main(Observing(r), st, env);
      it.Continue? && it.st.trace == st.trace + [Prepare, Expose, Record] && it.st.pos == st.pos + 3
  {
    var n := Observing(r);
    ObservingBody(r, st, env);
    var s2 := St(st.trace + [Prepare], st.pos + 1, st.clock + 2);
    var step := Run(Exposure, s2.(clock := s2.clock + 1), env);
    var s4 := step.st.(clock := step.st.clock + 1);
    OneHook("observe", After, "record", s4, env);
    var a := St(st.trace + [Prepare, Expose] + [Record], st.pos + 3, s4.clock);
    assert RunHooks(n.name, After, n.lc.after, 0, s4, env) == Continue(a);
    MainAllContinue(n, st, env, s2.(clock := st.clock + 1), step.st, a);
    assert st.trace + [Prepare, Expose] + [Record] == st.trace + [Prepare, Expose, Record];
  }

  /** The main part of one iteration of the observing sequence whose
      exposure raises: `prepare`, the exposure, and no `record`. */
  lemma {:induction false} ObservingMainFails(r: int, st: St, env: Env)
    requires env.abortAt == map[] && Answer(env, st.pos).Returns? && Answer(env, st.pos + 1).Raises?
    ensures var it := Main(Observing(r), st, env);
      it == Stop(Answer(env, st.pos + 1).err, it.st) && it.st.trace == st.trace + [Prepare, Expose]
      && it.st.pos == st.pos + 2
  {
    MainUnaborted(Observing(r), st, env);
    ObservingBody(r, st, env);
  }

  /** The observing sequence has no delay and no predicates: each of its
      iterations goes straight to its main part. */
  lemma {:induction false} ObservingPrelude(r: int, st: St, env: Env)
    requires env.abortAt == map[]
    ensures Iteration(Observing(r), st, env) == Main(Observing(r), st.(clock := st.clock + 2), env)
  {
    PlainPrelude(Observing(r), st, env);
  }

  /** One iteration of the observing sequence whose calls all return:
      `prepare`, the exposure, `record`. */
  lemma {:induction false} ObservingIteration(r: int, st: St, env: Env)
    requires env.abortAt == map[]
    requires Answer(env, st.pos).Returns? && Answer(env, st.pos + 1).Returns? && Answer(env, st.pos + 2).Returns?
    ensures var it := Iteration(Observing(r), st, env);
      it.Continue? && it.st.trace == st.trace + [Prepare, Expose, Record] && it.st.pos == st.pos + 3
  {
    ObservingPrelude(r, st, env);
    ObservingMain(r, st.(clock := st.clock + 2), env);
  }

  /** One iteration of the observing sequence whose exposure raises: it ends
      with that error before `record`. */
  lemma {:induction false} ObservingIterationFails(r: int, st: St, env: Env)
    requires env.abortAt == map[] && Answer(env, st.pos).Returns? && Answer(env, st.pos + 1).Raises?
    ensures var it := Iteration(Observing(r), st, env);
      it == Stop(Answer(env, st.pos + 1).err, it.st) && it.st.trace == st.trace + [Prepare, Expose]
      && it.st.pos == st.pos + 2
  {
    ObservingPrelude(r, st, env);
    ObservingMainFails(r, st.(clock := st.clock + 2), env);
  }

  /** `k` iterations that all succeed: each calls `prepare`, the exposure
      and `record`, in that order. */
  lemma {:induction false} ObservingLoop(r: int, k: nat, st: St, env: Env)
    requires env.abortAt == map[] && AllReturn(env, st.pos, 3 * k)
    ensures var l := Loop(Observing(r), k, st, env);
      l.Continue? && l.st.trace == st.trace + Rounds(k) && l.st.pos == st.pos + 3 * k
  {
    if k > 0 {
      assert Answer(env, st.pos).Returns? && Answer(env, st.pos + 1).Returns? && Answer(env, st.pos + 2).Returns?;
      ObservingIteration(r, st, env);
      var it := Iteration(Observing(r), st, env);
      forall i | it.st.pos <= i < it.st.pos + 3 * (k - 1)
        ensures Answer(env, i).Returns?
      {
        assert st.pos <= i < st.pos + 3 * k;
      }
      ObservingLoop(r, k - 1, it.st, env);
      var rest := Loop(Observing(r), k - 1, it.st, env);
      LoopContinues(Observing(r), k, st, env);
      assert rest.st.trace == (st.trace + [Prepare, Expose, Record]) + Rounds(k - 1);
      assert Rounds(k) == [Prepare, Expose, Record] + Rounds(k - 1);
    }
  }

  /** An iteration that carries on leaves the remaining iterations to run
      from its state. */
  lemma {:induction false} LoopContinues(n: Node, k: nat, st: St, env: Env)
    requires k > 0 && Iteration(n, st, env).Continue?
    ensures Loop(n, k, st, env) == Loop(n, k - 1, Iteration(n, st, env).st, env)
  {
  }

  /** An iteration that fails ends the loop with its failure. */
  lemma {:induction false} LoopStops(n: Node, k: nat, st: St, env: Env)
    requires k > 0 && Iteration(n, st, env).Stop?
    ensures Loop(n, k, st, env) == Iteration(n, st, env)
  {
  }

  /** `k` iterations where the exposure of iteration `j` (counting from 0)
      raises an Exception: iterations before it complete, `record` is not
      called in it, and no later iteration starts. */
  lemma {:induction false} ObservingLoopFails(r: int, k: nat, j: nat, st: St, env: Env)
    requires env.abortAt == map[] && j < k
    requires AllReturn(env, st.pos, 3 * j + 1) && Answer(env, st.pos + 3 * j + 1) == Raises(Exc)
    ensures var l := Loop(Observing(r), k, st, env);
      && l.Stop? && l.err == Exc
      && l.st.trace == st.trace + Rounds(j) + [Prepare, Expose]
      && l.st.pos == st.pos + 3 * j + 2
  {
    assert Answer(env, st.pos).Returns?;
    if j > 0 {
      assert Answer(env, st.pos + 1).Returns? && Answer(env, st.pos + 2).Returns?;
      ObservingIteration(r, st, env);
      var it := Iteration(Observing(r), st, env);
      forall i | it.st.pos <= i < it.st.pos + 3 * (j - 1) + 1
        ensures Answer(env, i).Returns?
      {
        assert st.pos <= i < st.pos + 3 * j + 1;
      }
      ObservingLoopFails(r, k - 1, j - 1, it.st, env);
      LoopContinues(Observing(r), k, st, env);
      assert Rounds(j) == [Prepare, Expose, Record] + Rounds(j - 1);
      assert st.trace + Rounds(j) == (st.trace + [Prepare, Expose, Record]) + Rounds(j - 1);
    } else {
      ObservingIterationFails(r, st, env);
      LoopStops(Observing(r), k, st, env);
    }
  }

  /** With `repeat` = r and every call returning, `before` and `after` run r
      times each, around r exposures, and `finally` once at the end;
      `on_error` never runs. */
  lemma {:induction false} RepeatRunsHooksPerIterationAndFinallyOnce(r: nat, st: St, env: Env)
    requires env.abortAt == map[] && AllReturn(env, st.pos, 3 * r + 1)
    ensures var res := Run(Observing(r), st, env);
      res.Continue? && res.st.trace == st.trace + Rounds(r) + [Cleanup]
  {
    ObservingLoop(r, r, st, env);
    var l := Loop(Observing(r), r, st, env);
    GuardedProtocol("observe", Observing(r).lc, l, env);
  }

  /** With `repeat` = r and the exposure of iteration j (from 0) raising an
      Exception: the iterations before it complete, `after` does not run in
      the failing one, then `on_error` and `finally` run once each and the
      Exception propagates. */
  lemma {:induction false} FailureInIterationRunsOnErrorThenFinally(r: nat, j: nat, st: St, env: Env)
    requires env.abortAt == map[] && j < r
    requires AllReturn(env, st.pos, 3 * j + 1) && Answer(env, st.pos + 3 * j + 1) == Raises(Exc)
    requires AllReturn(env, st.pos + 3 * j + 2, 2)
    ensures var res := Run(Observing(r), st, env);
      && res.Stop? && res.err == Exc
      && res.st.trace == st.trace + Rounds(j) + [Prepare, Expose, Alert, Cleanup]
  {
    ObservingLoopFails(r, r, j, st, env);
    var l := Loop(Observing(r), r, st, env);
    GuardedProtocol("observe", Observing(r).lc, l, env);
  }
}
