/**
 * The observatory state store: a snapshot holding a schema version, the global
 * status (status literal, ordered action labels, message map) and a map from
 * device id to typed device state, owned by one `StateManager` whose operations
 * are atomic (the store's lock is modelled by each method being one step).
 */
module State {
  import opened Common

  /** The four values the global status field may take. */
  datatype GlobalStatus = Stopped | Initializing | Running | Error

  /** Global status: the status literal, free-text action labels in
      insertion order (duplicates allowed) and message id -> text. */
  datatype ObservatoryStatus = ObservatoryStatus(
    status: GlobalStatus,
    actions: seq<string>,
    messages: map<string, string>)

  /** The per-type part of a device state. Floating-point fields (coordinates,
      temperatures, weather readings, range controls) are not modelled. */
  datatype DeviceKind =
    | Dome(shutterStatus: Option<int>)
    | Telescope(booted: bool, tracking: bool, slewing: bool, parked: bool, sideOfPier: Option<int>)
    | ObservingConditions
    | SafetyMonitor(safe: Option<bool>)
    | Cover(coverStatus: Option<int>, calibratorStatus: Option<int>, brightness: Option<int>)
    | Switch(controls: set<string>)
    | Camera(binX: Option<int>, binY: Option<int>, cameraState: Option<int>, gain: Option<int>)
    | Filterwheel(names: Option<seq<string>>, position: Option<int>)

  /** A device state: the common fields plus the tagged per-type part. */
  datatype DeviceState = DeviceState(
    id: string,
    name: Option<string>,
    connected: bool,
    status: string,
    kind: DeviceKind)

  /** The store's whole externally visible structure. */
  datatype Snapshot = Snapshot(
    schemaVersion: int,
    status: ObservatoryStatus,
    devices: map<string, DeviceState>)

  /** The type discriminator each device state carries. */
  function DeviceType(k: DeviceKind): string
  {
    match k
    case Dome(_) => "dome"
    case Telescope(_, _, _, _, _) => "telescope"
    case ObservingConditions => "observing_conditions"
    case SafetyMonitor(_) => "safety_monitor"
    case Cover(_, _, _) => "cover"
    case Switch(_) => "switch"
    case Camera(_, _, _, _) => "camera"
    case Filterwheel(_, _) => "filterwheel"
  }

  /** The snapshot a new store starts from. */
  function EmptySnapshot(): Snapshot
  {
    Snapshot(1, ObservatoryStatus(Stopped, [], map[]), map[])
  }

  /** Python's `list.remove`: drop the first element equal to `x`; a list
      without `x` is returned as it is (the store swallows the ValueError). */
  function RemoveFirst<T(==)>(s: seq<T>, x: T): (r: seq<T>)
    ensures x !in s ==> r == s
    ensures x in s ==> |r| == |s| - 1
  {
    if s == [] then []
    else if s[0] == x then s[1..] else [s[0]] + RemoveFirst(s[1..], x)
  }

  /** Removal takes away exactly one copy of `x`, when there is one, and
      nothing else. */
  lemma {:induction false} RemoveFirstMultiset<T>(s: seq<T>, x: T)
    ensures multiset(RemoveFirst(s, x)) == multiset(s) - multiset{x}
  {
    if s != [] {
      assert s == [s[0]] + s[1..];
      if s[0] != x {
        RemoveFirstMultiset(s[1..], x);
      }
    }
  }

  /** The position of the first occurrence of `x` in `s`. */
  function IndexOf<T(==)>(s: seq<T>, x: T): (i: nat)
    requires x in s
    ensures i < |s| && s[i] == x
    ensures forall j :: 0 <= j < i ==> s[j] != x
  {
    if s[0] == x then 0 else 1 + IndexOf(s[1..], x)
  }

  /** Removal splices out exactly the first occurrence and keeps the order of
      everything else. */
  lemma {:induction false} RemoveFirstSplices<T>(s: seq<T>, x: T)
    requires x in s
    ensures RemoveFirst(s, x) == s[..IndexOf(s, x)] + s[IndexOf(s, x) + 1..]
  {
    if s[0] != x {
      RemoveFirstSplices(s[1..], x);
      var i := IndexOf(s[1..], x);
      assert s[1..][..i] == s[1..i + 1];
      assert s[1..][i + 1..] == s[i + 2..];
      assert [s[0]] + s[1..i + 1] == s[..i + 1];
    }
  }

  /** Removing from a list with something appended: an occurrence already in
      the list is the one removed; otherwise the appended element is. */
  lemma {:induction false} RemoveFirstAppend<T>(s: seq<T>, y: T, x: T)
    ensures x in s ==> RemoveFirst(s + [y], x) == RemoveFirst(s, x) + [y]
    ensures x !in s && y == x ==> RemoveFirst(s + [y], x) == s
  {
    if s == [] {
      assert s + [y] == [y];
    } else {
      var u := s + [y];
      assert u[0] == s[0] && u[1..] == s[1..] + [y];
      if s[0] != x {
        RemoveFirstAppend(s[1..], y, x);
        assert s == [s[0]] + s[1..];
      }
    }
  }

  /** Adding an action label and then removing the same label leaves the
      labels unchanged as a multiset; the list itself is unchanged only when
      the label was not already present, otherwise the older occurrence is the
      one removed and the new one stays at the end. */
  lemma {:induction false} AddThenRemoveAction(s: seq<string>, t: string)
    ensures multiset(RemoveFirst(s + [t], t)) == multiset(s)
    ensures t !in s ==> RemoveFirst(s + [t], t) == s
    ensures t in s ==> RemoveFirst(s + [t], t) == RemoveFirst(s, t) + [t]
  {
    RemoveFirstAppend(s, t, t);
    RemoveFirstMultiset(s + [t], t);
    assert multiset(s + [t]) == multiset(s) + multiset{t};
  }

  /** Errors the store raises (both are `ValueError` in the store). */
  datatype StoreError = DuplicateDevice(id: string) | DeviceNotFound(id: string)

  /** The store. Its fields are the parts of the snapshot the operations update. */
  class StateManager {
    const schemaVersion: int
    var status: GlobalStatus
    var actions: seq<string>
    var messages: map<string, string>
    var devices: map<string, DeviceState>

    /** Every device is stored under its own id. */
    ghost predicate Valid()
      reads this
    {
      forall k :: k in devices ==> devices[k].id == k
    }

    /** The current snapshot, as a value. */
    function Current(): Snapshot
      reads this
    {
      Snapshot(schemaVersion, ObservatoryStatus(status, actions, messages), devices)
    }

    constructor ()
      ensures Valid()
      ensures Current() == EmptySnapshot()
    {
      schemaVersion := 1;
      status := Stopped;
      actions := [];
      messages := map[];
      devices := map[];
    }

    method AddDevice(device: DeviceState) returns (r: Outcome<StoreError>)
      requires Valid()
      modifies this
      ensures Valid()
      ensures r == if device.id in old(devices) then Fail(DuplicateDevice(device.id)) else Pass
      ensures devices == if r.Pass? then old(devices)[device.id := device] else old(devices)
      ensures status == old(status) && actions == old(actions) && messages == old(messages)
    {
      if device.id in devices {
        return Fail(DuplicateDevice(device.id));
      }
      devices := devices[device.id := device];
      r := Pass;
    }

    method RemoveDevice(id: string) returns (r: Outcome<StoreError>)
      requires Valid()
      modifies this
      ensures Valid()
      ensures r == if id in old(devices) then Pass else Fail(DeviceNotFound(id))
      ensures devices == old(devices) - {id}
      ensures id !in devices
      ensures status == old(status) && actions == old(actions) && messages == old(messages)
    {
      if id !in devices {
        return Fail(DeviceNotFound(id));
      }
      devices := devices - {id};
      r := Pass;
    }

    method GetDevice(id: string) returns (r: Result<DeviceState, StoreError>)
      requires Valid()
      ensures r.Ok? <==> id in devices
      ensures r.Ok? ==> r.value == devices[id] && r.value.id == id
      ensures r.Err? ==> r.error == DeviceNotFound(id)
    {
      if id in devices {
        r := Ok(devices[id]);
      } else {
        r := Err(DeviceNotFound(id));
      }
    }

    method AddAction(text: string)
      modifies this
      ensures actions == old(actions) + [text]
      ensures status == old(status) && messages == old(messages) && devices == old(devices)
    {
      actions := actions + [text];
    }

    method RemoveAction(text: string)
      modifies this
      ensures actions == RemoveFirst(old(actions), text)
      ensures status == old(status) && messages == old(messages) && devices == old(devices)
    {
      actions := RemoveFirst(actions, text);
    }

    method SetMessage(id: string, text: string)
      modifies this
      ensures messages == old(messages)[id := text]
      ensures status == old(status) && actions == old(actions) && devices == old(devices)
    {
      messages := messages[id := text];
    }

    method ClearMessage(id: string)
      modifies this
      ensures messages == old(messages) - {id}
      ensures status == old(status) && actions == old(actions) && devices == old(devices)
    {
      messages := messages - {id};
    }

    method SetStatus(s: GlobalStatus)
      modifies this
      ensures status == s
      ensures actions == old(actions) && messages == old(messages) && devices == old(devices)
    {
      status := s;
    }

    /** The deep copy: a snapshot is a value, so nothing the store does later
        can reach it. */
    method TakeSnapshot() returns (s: Snapshot)
      ensures s == Current()
      ensures s.devices == devices && s.status.actions == actions && s.status.messages == messages
    {
      s := Current();
    }
  }

  /** A snapshot taken before a mutation keeps the contents it had. */
  method SnapshotIsolation(m: StateManager, text: string, id: string) returns (before: Snapshot)
    requires m.Valid()
    modifies m
    ensures before == old(m.Current())
    ensures m.Current() != before
    ensures m.actions == old(m.actions) + [text] && id !in m.devices
  {
    before := m.TakeSnapshot();
    m.AddAction(text);
    var _ := m.RemoveDevice(id);
    assert |m.actions| == |before.status.actions| + 1;
  }

  /** Adding a device with a fresh id makes it retrievable; a second add with
      the same id fails and changes nothing; after removal it is gone. */
  method DeviceLifecycle(m: StateManager, d: DeviceState)
    returns (added: Result<DeviceState, StoreError>, again: Outcome<StoreError>, gone: Result<DeviceState, StoreError>)
    requires m.Valid() && d.id !in m.devices
    modifies m
    ensures added == Ok(d)
    ensures again == Fail(DuplicateDevice(d.id))
    ensures gone == Err(DeviceNotFound(d.id))
    ensures m.Valid() && m.devices == old(m.devices)
  {
    var r1 := m.AddDevice(d);
    added := m.GetDevice(d.id);
    again := m.AddDevice(d);
    var r3 := m.RemoveDevice(d.id);
    gone := m.GetDevice(d.id);
  }
}
