/**
 * The connection supervisor ("arriero") of one device: it holds the device
 * handle built by a factory, runs a health worker that polls an updater, and
 * reconnects with a capped exponential backoff. Threads are abstracted: the
 * worker is a state (absent, alive, exited), one iteration of its loop is one
 * step driven by what the factory and the updater did, and every sleep is
 * recorded as the duration asked for.
 */
module Supervisor {
  import opened Common

  /** The cap on the stored backoff (`_max_backoff`). */
  const MaxBackoff: int := 60

  /** An opaque device handle, as returned by the factory. */
  datatype Handle = Handle(serial: nat)

  /** What a call into a collaborator (factory or updater) did. `StateError`
      and the other observatory errors derive from `BaseException`, so they
      are distinct from an ordinary `Exception`. */
  datatype Call<+T> =
    | Returned(value: T)
    | RaisedException
    | RaisedStateError
    | RaisedObservatoryError

  /** The oracle for one loop iteration: what the factory would do if a
      reconnect is attempted, and what the updater would do if it is called. */
  datatype Tick = Tick(factory: Call<Option<Handle>>, updater: Call<()>)

  /** The worker thread as the supervisor sees it: no thread object, a live
      thread, or a thread whose loop has ended. */
  datatype Worker = NoWorker | Alive | Exited

  /** The supervisor's state. `healthy` is the worker loop's local flag. */
  datatype Sup = Sup(handle: Option<Handle>, backoff: int, healthy: bool, worker: Worker, stop: bool)

  /** What one iteration ends with: a cooperative sleep of the given length,
      or the worker dying because an error escaped the loop. */
  datatype Wait = Sleep(duration: real) | WorkerDied

  datatype StepResult = StepResult(after: Sup, wait: Wait)

  /** `min(2 * backoff, 60)`: both the reconnect-failure wait and the growth
      applied after an updater failure. */
  function NextBackoff(b: int): (n: int)
    ensures 1 <= b <= MaxBackoff ==> 1 <= n <= MaxBackoff && b <= n
  {
    Min(2 * b, MaxBackoff)
  }

  ghost predicate InRange(s: Sup)
  {
    1 <= s.backoff <= MaxBackoff
  }

  /** The updater half of an iteration, with a handle present. */
  function UpdateStep(s: Sup, u: Call<()>, poll: real): (r: StepResult)
    requires s.handle.Some?
    ensures InRange(s) ==> InRange(r.after)
    ensures r.after.stop == s.stop
  {
    match u
    case Returned(_) =>
      StepResult(if s.healthy then s else s.(healthy := true, backoff := 1), Sleep(poll))
    case RaisedStateError =>
      StepResult(s, Sleep(poll))
    case RaisedException =>
      StepResult(s.(handle := None, healthy := false, backoff := NextBackoff(s.backoff)),
                 Sleep(s.backoff as real))
    case RaisedObservatoryError =>
      StepResult(s.(worker := Exited), WorkerDied)
  }

  /** The iteration raises an `ObservatoryError`: from the factory when a
      reconnect is attempted, or from the updater once a handle exists. */
  predicate EscapesLoop(s: Sup, t: Tick)
  {
    if s.handle.None? then
      t.factory.RaisedObservatoryError? ||
      (t.factory.Returned? && t.factory.value.Some? && t.updater.RaisedObservatoryError?)
    else t.updater.RaisedObservatoryError?
  }

  /** One iteration of the worker loop, entered with the stop signal clear. */
  function Step(s: Sup, t: Tick, poll: real): (r: StepResult)
    ensures InRange(s) ==> InRange(r.after)
    ensures r.after.stop == s.stop
    ensures s.worker == Alive ==> (r.wait.WorkerDied? <==> r.after.worker == Exited)
    ensures InRange(s) && r.wait.Sleep? ==>
      r.wait.duration == poll || 1.0 <= r.wait.duration <= MaxBackoff as real
    // only an `ObservatoryError` (a BaseException) escapes the loop's handlers
    ensures r.wait.WorkerDied? <==> EscapesLoop(s, t)
  {
    if s.handle.None? then
      match t.factory
      case Returned(None) =>
        StepResult(s, Sleep(NextBackoff(s.backoff) as real))
      case Returned(Some(h)) =>
        UpdateStep(s.(handle := Some(h)), t.updater, poll)
      case RaisedException =>
        StepResult(s, Sleep(NextBackoff(s.backoff) as real))
      case RaisedStateError =>
        StepResult(s, Sleep(poll))
      case RaisedObservatoryError =>
        StepResult(s.(worker := Exited), WorkerDied)
    else
      UpdateStep(s, t.updater, poll)
  }

  /** The states the loop may run a step in: worker alive and stop clear. */
  predicate Looping(s: Sup)
  {
    s.worker == Alive && !s.stop
  }

  datatype RunResult = RunResult(after: Sup, waits: seq<Wait>)

  /** The loop over a sequence of iterations, until the oracle runs out or the
      worker dies (the stop signal only changes from outside). */
  function RunSpec(s: Sup, ticks: seq<Tick>, poll: real): (r: RunResult)
    ensures |r.waits| <= |ticks|
    ensures InRange(s) ==> InRange(r.after)
    decreases |ticks|
  {
    if ticks == [] || !Looping(s) then RunResult(s, [])
    else
      var st := Step(s, ticks[0], poll);
      var rest := RunSpec(st.after, ticks[1..], poll);
      RunResult(rest.after, [st.wait] + rest.waits)
  }

  /** The backoff after `k` consecutive growths from `b`. */
  function BackoffAfter(b: int, k: nat): int
    decreases k
  {
    if k == 0 then b else BackoffAfter(NextBackoff(b), k - 1)
  }

  function Pow2(k: nat): (p: nat)
    ensures p >= 1
  {
    if k == 0 then 1 else 2 * Pow2(k - 1)
  }

  /** The schedule 1, 2, 4, 8, 16, 32, 60, 60, ... */
  lemma {:induction false} BackoffScheduleFromOne(k: nat)
    ensures BackoffAfter(1, k) == if k < 6 then Pow2(k) else MaxBackoff
  {
    BackoffAfterShift(1, k);
    if k < 6 {
      PowBelowCap(k);
    } else {
      Pow2Monotone(6, k);
    }
  }

  /** `b` doubled `k` times. */
  function Doubled(b: int, k: nat): int
    decreases k
  {
    if k == 0 then b else Doubled(2 * b, k - 1)
  }

  /** Doubling a positive value never makes it smaller. */
  lemma {:induction false} DoubledGrows(b: int, k: nat)
    requires b >= 1
    ensures Doubled(b, k) >= b
    decreases k
  {
    if k > 0 {
      DoubledGrows(2 * b, k - 1);
    }
  }

  /** Doubling `k` times multiplies by `2^k`. */
  lemma {:induction false} DoubledIsProduct(b: int, k: nat)
    ensures Doubled(b, k) == b * Pow2(k)
    decreases k
  {
    if k > 0 {
      DoubledIsProduct(2 * b, k - 1);
      var p := Pow2(k - 1);
      assert (2 * b) * p == b * (2 * p);
    }
  }

  /** Growing from `b` k times doubles it k times, capped at 60. */
  lemma {:induction false} BackoffAfterDoubles(b: int, k: nat)
    requires 1 <= b <= MaxBackoff
    ensures BackoffAfter(b, k) == Min(Doubled(b, k), MaxBackoff)
    decreases k
  {
    if k > 0 {
      BackoffAfterDoubles(NextBackoff(b), k - 1);
      if 2 * b >= MaxBackoff {
        DoubledGrows(MaxBackoff, k - 1);
        DoubledGrows(2 * b, k - 1);
      }
    }
  }

  /** Growing from `b` k times reaches `min(b * 2^k, 60)`. */
  lemma {:induction false} BackoffAfterShift(b: int, k: nat)
    requires 1 <= b <= MaxBackoff
    ensures BackoffAfter(b, k) == Min(b * Pow2(k), MaxBackoff)
  {
    BackoffAfterDoubles(b, k);
    DoubledIsProduct(b, k);
  }

  lemma {:induction false} Pow2Monotone(i: nat, j: nat)
    requires i <= j
    ensures Pow2(i) <= Pow2(j)
  {
    if i < j {
      Pow2Monotone(i, j - 1);
    }
  }

  lemma {:induction false} PowBelowCap(k: nat)
    requires k < 6
    ensures Pow2(k) <= 32
  {
    Pow2Monotone(k, 5);
  }

  /** An iteration in which the factory hands back a handle (when asked) and
      the updater raises an ordinary exception. */
  const FailingTick: Tick := Tick(Returned(Some(Handle(0))), RaisedException)

  /** Under repeated updater failures the i-th iteration sleeps the backoff
      grown i times, the handle ends absent and the worker keeps looping. */
  lemma {:induction false} RepeatedUpdaterFailures(s: Sup, k: nat, poll: real)
    requires Looping(s) && InRange(s)
    ensures var r := RunSpec(s, seq(k, _ => FailingTick), poll);
      && |r.waits| == k
      && (forall i :: 0 <= i < k ==> r.waits[i] == Sleep(BackoffAfter(s.backoff, i) as real))
      && r.after.backoff == BackoffAfter(s.backoff, k)
      && Looping(r.after)
      && (k > 0 ==> r.after.handle.None? && !r.after.healthy)
    decreases k
  {
    if k > 0 {
      var ticks := seq(k, _ => FailingTick);
      var st := Step(s, FailingTick, poll);
      assert st.after.backoff == NextBackoff(s.backoff);
      assert st.wait == Sleep(s.backoff as real);
      assert ticks[1..] == seq(k - 1, _ => FailingTick);
      RepeatedUpdaterFailures(st.after, k - 1, poll);
      var r := RunSpec(s, ticks, poll);
      var rest := RunSpec(st.after, ticks[1..], poll);
      assert r.waits == [st.wait] + rest.waits;
      forall i | 0 <= i < k
        ensures r.waits[i] == Sleep(BackoffAfter(s.backoff, i) as real)
      {
        if i > 0 {
          assert r.waits[i] == rest.waits[i - 1];
        }
      }
    }
  }

  /** Starting from backoff 1, the waits under repeated updater failures are
      1, 2, 4, 8, 16, 32 and then 60 for ever. */
  lemma {:induction false} BackoffSequence(s: Sup, k: nat, poll: real)
    requires Looping(s) && s.backoff == 1
    ensures var r := RunSpec(s, seq(k, _ => FailingTick), poll);
      |r.waits| == k
      && forall i :: 0 <= i < k ==> r.waits[i] == Sleep((if i < 6 then Pow2(i) else MaxBackoff) as real)
  {
    RepeatedUpdaterFailures(s, k, poll);
    forall i | 0 <= i < k {
      BackoffScheduleFromOne(i);
    }
  }

  /** While the device stays unreachable the wait is `min(2 * backoff, 60)`
      on every iteration and the stored backoff never grows. */
  lemma {:induction false} UnreachableWaitIsConstant(s: Sup, k: nat, poll: real)
    requires Looping(s) && s.handle.None?
    ensures var r := RunSpec(s, seq(k, _ => Tick(RaisedException, RaisedException)), poll);
      && r.after == s
      && r.waits == seq(k, _ => Sleep(NextBackoff(s.backoff) as real))
  {
    if k > 0 {
      var ticks := seq(k, _ => Tick(RaisedException, RaisedException));
      assert ticks[1..] == seq(k - 1, _ => Tick(RaisedException, RaisedException));
      UnreachableWaitIsConstant(s, k - 1, poll);
    }
  }

  /** After any run of failures, one successful poll marks the loop healthy
      and resets the backoff to 1, so the next failure waits 1 again. */
  lemma {:induction false} RecoveryResetsBackoff(s: Sup, h: Handle, poll: real)
    requires Looping(s) && !s.healthy
    ensures var ok := Step(s, Tick(Returned(Some(h)), Returned(())), poll);
      && ok.after.healthy && ok.after.backoff == 1 && ok.wait == Sleep(poll)
      && Step(ok.after, FailingTick, poll).wait == Sleep(1.0)
  {
  }

  /** A state-validation error from the updater keeps the handle and the
      backoff and waits the poll interval. */
  lemma {:induction false} StateErrorKeepsConnection(s: Sup, f: Call<Option<Handle>>, poll: real)
    requires Looping(s) && s.handle.Some?
    ensures Step(s, Tick(f, RaisedStateError), poll) == StepResult(s, Sleep(poll))
  {
  }

  /** An `ObservatoryError` from the factory or the updater is caught by
      neither `except StateError` nor `except Exception`: the worker dies at
      once, whatever iterations would have followed, with the backoff as it
      was. */
  lemma {:induction false} ObservatoryErrorEndsWorker(s: Sup, t: Tick, rest: seq<Tick>, poll: real)
    requires Looping(s) && EscapesLoop(s, t)
    ensures var r := RunSpec(s, [t] + rest, poll);
      r.waits == [WorkerDied] && r.after.worker == Exited && r.after.backoff == s.backoff
  {
    assert ([t] + rest)[1..] == rest;
    assert !Looping(Step(s, t, poll).after);
  }

  /** A `StateError` from the factory while reconnecting is handled like one
      from the updater: the loop waits the poll time and nothing changes. */
  lemma {:induction false} FactoryStateErrorWaitsPoll(s: Sup, u: Call<()>, poll: real)
    requires Looping(s) && s.handle.None?
    ensures Step(s, Tick(RaisedStateError, u), poll) == StepResult(s, Sleep(poll))
  {
  }

  /** The device supervisor object. */
  class Arriero {
    var handle: Option<Handle>
    var backoff: int
    var healthy: bool
    var worker: Worker
    var stop: bool
    const pollTime: real
    const name: string

    function State(): Sup
      reads this
    {
      Sup(handle, backoff, healthy, worker, stop)
    }

    ghost predicate Valid()
      reads this
    {
      InRange(State())
    }

    constructor (pollTime: real, name: string)
      ensures Valid()
      ensures State() == Sup(None, 1, false, NoWorker, false)
      ensures this.pollTime == pollTime && this.name == name
    {
      this.pollTime := pollTime;
      this.name := name;
      handle := None;
      backoff := 1;
      healthy := false;
      worker := NoWorker;
      stop := false;
    }

    /** The `alpaca` accessor: the handle, or "not connected". */
    method Alpaca() returns (r: Result<Handle, string>)
      ensures r.Err? <==> handle.None?
      ensures r.Ok? ==> handle == Some(r.value)
      ensures r.Err? ==> r.error == "Alpaca device is not connected"
    {
      if handle.None? {
        return Err("Alpaca device is not connected");
      }
      r := Ok(handle.value);
    }

    method IsRunning() returns (b: bool)
      ensures b <==> worker == Alive
    {
      b := worker == Alive;
    }

    /** `create`: a no-op returning the handle while the worker is alive;
        otherwise build a handle (an ordinary exception leaves it absent),
        clear the stop signal and start a fresh worker. An observatory error
        from the factory escapes before any of that. */
    method Create(factory: Call<Option<Handle>>) returns (r: Result<Option<Handle>, Call<Option<Handle>>>)
      requires Valid()
      modifies this
      ensures Valid()
      ensures old(worker) == Alive ==> r == Ok(old(handle)) && State() == old(State())
      ensures old(worker) != Alive && (factory.RaisedStateError? || factory.RaisedObservatoryError?) ==>
        r == Err(factory) && State() == old(State())
      ensures old(worker) != Alive && (factory.Returned? || factory.RaisedException?) ==>
        && handle == (if factory.Returned? then factory.value else None)
        && r == Ok(handle)
        && worker == Alive && !stop && !healthy && backoff == old(backoff)
    {
      if worker == Alive {
        return Ok(handle);
      }
      match factory {
        case Returned(h) =>
          handle := h;
        case RaisedException =>
          handle := None;
        case _ =>
          return Err(factory);
      }
      stop := false;
      worker := Alive;
      healthy := false;
      r := Ok(handle);
    }

    /** `destroy`: set the stop signal, wait for the worker, then drop both
        the thread and the handle. */
    method Destroy()
      modifies this
      ensures stop && worker == NoWorker && handle.None?
      ensures backoff == old(backoff) && healthy == old(healthy)
    {
      stop := true;
      worker := NoWorker;
      handle := None;
    }

    /** `reconnect`: call the factory; an ordinary exception leaves the handle
        absent, an observatory error escapes to the caller unassigned. */
    method Reconnect(factory: Call<Option<Handle>>) returns (escaped: Option<Call<Option<Handle>>>)
      modifies this
      ensures factory.Returned? ==> handle == factory.value && escaped.None?
      ensures factory.RaisedException? ==> handle.None? && escaped.None?
      ensures (factory.RaisedStateError? || factory.RaisedObservatoryError?) ==>
        handle == old(handle) && escaped == Some(factory)
      ensures backoff == old(backoff) && healthy == old(healthy) && worker == old(worker) && stop == old(stop)
    {
      escaped := None;
      match factory
      case Returned(h) => handle := h;
      case RaisedException => handle := None;
      case _ => escaped := Some(factory);
    }

    /** One iteration of the worker loop. */
    method RunOnce(t: Tick) returns (w: Wait)
      requires Valid() && Looping(State())
      modifies this
      ensures Valid()
      ensures State() == Step(old(State()), t, pollTime).after
      ensures w == Step(old(State()), t, pollTime).wait
    {
      if handle.None? {
        var escaped := Reconnect(t.factory);
        if escaped.Some? {
          if escaped.value.RaisedStateError? {
            return Sleep(pollTime);
          }
          worker := Exited;
          return WorkerDied;
        }
        if handle.None? {
          return Sleep(NextBackoff(backoff) as real);
        }
      }
      match t.updater
      case Returned(_) =>
        if !healthy {
          healthy := true;
          backoff := 1;
        }
        w := Sleep(pollTime);
      case RaisedStateError =>
        w := Sleep(pollTime);
      case RaisedException =>
        handle := None;
        healthy := false;
        w := Sleep(backoff as real);
        backoff := NextBackoff(backoff);
      case RaisedObservatoryError =>
        worker := Exited;
        w := WorkerDied;
    }

    /** The worker loop, for as long as the oracle supplies iterations. */
    method Run(ticks: seq<Tick>) returns (waits: seq<Wait>)
      requires Valid()
      modifies this
      ensures Valid()
      ensures State() == RunSpec(old(State()), ticks, pollTime).after
      ensures waits == RunSpec(old(State()), ticks, pollTime).waits
    {
      waits := [];
      var i := 0;
      while i < |ticks| && Looping(State())
        invariant 0 <= i <= |ticks| && Valid()
        invariant RunSpec(State(), ticks[i..], pollTime).after == RunSpec(old(State()), ticks, pollTime).after
        invariant waits + RunSpec(State(), ticks[i..], pollTime).waits == RunSpec(old(State()), ticks, pollTime).waits
      {
        assert ticks[i..][1..] == ticks[i + 1..];
        var w := RunOnce(ticks[i]);
        waits := waits + [w];
        i := i + 1;
      }
      assert RunSpec(State(), ticks[i..], pollTime).waits == [];
    }
  }

  /** `_sleep_coop`: sleep `duration` in slices of at most 0.2, checking the
      stop signal before each slice; the signal is first seen set after
      `stopSeenAfter` slices. Returns the time slept and the slice count. */
  method SleepCoop(duration: real, stopSeenAfter: nat) returns (slept: real, slices: nat)
    ensures duration <= 0.0 ==> slept == 0.0 && slices == 0
    ensures duration > 0.0 ==> slept == RMin(duration, stopSeenAfter as real * 0.2)
    ensures slices <= stopSeenAfter
    ensures duration > 0.0 ==> slices as real * 0.2 < duration + 0.2
    ensures slept <= slices as real * 0.2 && (slices > 0 ==> (slices - 1) as real * 0.2 < slept)
    ensures slices == stopSeenAfter || slept == duration || duration <= 0.0
  {
    slept, slices := 0.0, 0;
    while slices < stopSeenAfter && duration - slept > 0.0
      invariant slices <= stopSeenAfter
      invariant duration <= 0.0 ==> slept == 0.0 && slices == 0
      invariant duration > 0.0 ==> slept == RMin(duration, slices as real * 0.2)
      invariant slices > 0 ==> (slices - 1) as real * 0.2 < duration
      invariant slept <= slices as real * 0.2 && (slices > 0 ==> (slices - 1) as real * 0.2 < slept)
      decreases stopSeenAfter - slices
    {
      var remaining := duration - slept;
      slept := slept + RMin(0.2, remaining);
      slices := slices + 1;
    }
  }

  function RMin(a: real, b: real): (m: real)
    ensures m <= a && m <= b && (m == a || m == b)
  {
    if a <= b then a else b
  }
}
