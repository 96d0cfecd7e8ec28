/**
 * The observatory's safety watchdog: every tick it walks the configured
 * safety monitors, raising a shared counter for each monitor that reports
 * unsafe and lowering it (never below zero) for each that does not, and
 * requests an emergency shutdown whenever the counter has reached the
 * threshold. The one-second sleep between ticks is not modelled.
 */
module StatusLoop {
  import opened Common
  import opened State

  /** Five unsafe readings per configured monitor, or five with none. */
  function Threshold(monitors: seq<string>): (t: nat)
    ensures t >= 5 && t % 5 == 0
    ensures |monitors| > 0 ==> t / 5 == |monitors|
    ensures |monitors| == 0 ==> t == 5
  {
    if |monitors| > 0 then 5 * |monitors| else 5
  }

  /** How one monitor moves the counter: +1 when its stored `safe` is False,
      -1 (not below zero) for any other value of `safe`; a monitor missing
      from the store, or a stored device without `safe`, leaves it. */
  function Adjust(counter: nat, id: string, devices: map<string, DeviceState>): (c: nat)
    ensures c == counter + 1 || c == counter || c == counter - 1
    ensures c == counter + 1 <==> id in devices && devices[id].kind == SafetyMonitor(Some(false))
    ensures counter == 0 ==> c != counter - 1
    ensures id in devices && devices[id].kind.SafetyMonitor? && devices[id].kind.safe != Some(false) ==>
      c == if counter > 0 then counter - 1 else 0
    ensures !(id in devices && devices[id].kind.SafetyMonitor?) ==> c == counter
  {
    if id in devices && devices[id].kind.SafetyMonitor? then
      if devices[id].kind.safe == Some(false) then counter + 1
      else if counter > 0 then counter - 1 else 0
    else counter
  }

  /** The counter after visiting the monitors in order: it moves by at most
      one per monitor. */
  function TickSpec(counter: nat, monitors: seq<string>, devices: map<string, DeviceState>): (c: nat)
    ensures c <= counter + |monitors| && counter <= c + |monitors|
    decreases |monitors|
  {
    if monitors == [] then counter
    else TickSpec(Adjust(counter, monitors[0], devices), monitors[1..], devices)
  }

  /** One tick: the new counter and whether emergency shutdown is invoked.
      The shutdown flag is reset at the top of every tick, so it is invoked on
      every tick whose counter is at or above the threshold. */
  method Tick(counter: nat, monitors: seq<string>, devices: map<string, DeviceState>)
    returns (next: nat, shutdown: bool)
    ensures next == TickSpec(counter, monitors, devices)
    ensures shutdown <==> next >= Threshold(monitors)
    ensures next <= counter + |monitors| && counter <= next + |monitors|
  {
    var shutdownTriggered := false;
    next := counter;
    var i := 0;
    while i < |monitors|
      invariant 0 <= i <= |monitors|
      invariant TickSpec(next, monitors[i..], devices) == TickSpec(counter, monitors, devices)
    {
      assert monitors[i..][1..] == monitors[i + 1..];
      var id := monitors[i];
      if id in devices {
        var d := devices[id];
        if d.kind.SafetyMonitor? {
          if d.kind.safe == Some(false) {
            next := next + 1;
          } else {
            next := next - (if next > 0 then 1 else 0);
          }
        }
      }
      i := i + 1;
    }
    if next >= Threshold(monitors) && !shutdownTriggered {
      shutdownTriggered := true;
    }
    shutdown := shutdownTriggered;
  }

  predicate ReportsUnsafe(id: string, devices: map<string, DeviceState>)
  {
    id in devices && devices[id].kind == SafetyMonitor(Some(false))
  }

  /** When every monitor reports unsafe, the counter rises by their number. */
  lemma {:induction false} AllUnsafeAddsMonitorCount(counter: nat, monitors: seq<string>, devices: map<string, DeviceState>)
    requires forall i :: 0 <= i < |monitors| ==> ReportsUnsafe(monitors[i], devices)
    ensures TickSpec(counter, monitors, devices) == counter + |monitors|
    decreases |monitors|
  {
    if monitors != [] {
      AllUnsafeAddsMonitorCount(counter + 1, monitors[1..], devices);
    }
  }

  /** Monitors the store does not know leave the counter as it is. */
  lemma {:induction false} MissingMonitorsLeaveCounter(counter: nat, monitors: seq<string>, devices: map<string, DeviceState>)
    requires forall i :: 0 <= i < |monitors| ==> monitors[i] !in devices
    ensures TickSpec(counter, monitors, devices) == counter
    decreases |monitors|
  {
    if monitors != [] {
      MissingMonitorsLeaveCounter(counter, monitors[1..], devices);
    }
  }

  /** The counter after a run of ticks, one store state per tick, and the
      ticks on which shutdown was invoked. */
  function Ticks(counter: nat, monitors: seq<string>, states: seq<map<string, DeviceState>>): (r: (nat, seq<bool>))
    ensures |r.1| == |states|
    decreases |states|
  {
    if states == [] then (counter, [])
    else
      var next := TickSpec(counter, monitors, states[0]);
      var rest := Ticks(next, monitors, states[1..]);
      (rest.0, [next >= Threshold(monitors)] + rest.1)
  }

  /** With every configured monitor reporting unsafe on every tick, starting
      from a zero counter, shutdown is first invoked on the fifth tick and on
      every tick after it. */
  lemma {:induction false} UnanimousUnsafeShutsDownFromFifthTick(monitors: seq<string>, states: seq<map<string, DeviceState>>)
    requires |monitors| > 0
    requires forall t, i :: 0 <= t < |states| && 0 <= i < |monitors| ==> ReportsUnsafe(monitors[i], states[t])
    ensures forall t :: 0 <= t < |states| ==> (Ticks(0, monitors, states).1[t] <==> t >= 4)
  {
    UnanimousFrom(0, 0, monitors, states);
  }

  lemma {:induction false} UnanimousFrom(counter: nat, start: nat, monitors: seq<string>, states: seq<map<string, DeviceState>>)
    requires |monitors| > 0 && counter == start * |monitors|
    requires forall t, i :: 0 <= t < |states| && 0 <= i < |monitors| ==> ReportsUnsafe(monitors[i], states[t])
    ensures forall t :: 0 <= t < |states| ==> (Ticks(counter, monitors, states).1[t] <==> start + t >= 4)
    decreases |states|
  {
    if states != [] {
      AllUnsafeAddsMonitorCount(counter, monitors, states[0]);
      var next := counter + |monitors|;
      assert next == (start + 1) * |monitors|;
      assert next >= Threshold(monitors) <==> start + 1 >= 5 by {
        if start + 1 >= 5 {
          assert (start + 1) * |monitors| >= 5 * |monitors|;
        } else {
          assert (start + 1) * |monitors| <= 4 * |monitors|;
        }
      }
      UnanimousFrom(next, start + 1, monitors, states[1..]);
      var r := Ticks(counter, monitors, states);
      var rest := Ticks(next, monitors, states[1..]);
      assert r.1 == [next >= Threshold(monitors)] + rest.1;
      forall t | 0 <= t < |states|
        ensures r.1[t] <==> start + t >= 4
      {
        if t > 0 {
          assert r.1[t] == rest.1[t - 1];
        }
      }
    }
  }

  /** With no safety monitor configured the counter never moves, so shutdown
      is never invoked. */
  lemma {:induction false} NoMonitorsNeverShutDown(counter: nat, states: seq<map<string, DeviceState>>)
    requires counter < 5
    ensures forall t :: 0 <= t < |states| ==> !Ticks(counter, [], states).1[t]
    decreases |states|
  {
    if states != [] {
      NoMonitorsNeverShutDown(counter, states[1..]);
    }
  }
}
