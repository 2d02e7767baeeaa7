/** Which bus events a status update fires (`TuyaDevice._handle_event`),
    and in which order. */
module Events {
  import opened Values

  /** The events `localtuya_states_update`, `localtuya_device_triggered`
      and `localtuya_device_dp_triggered`, with the data they carry. */
  datatype Event =
    | StatesUpdate(deviceId: string, oldStates: Status, newStates: Option<Status>)
    | DeviceTriggered(deviceId: string, states: Status)
    | DeviceDpTriggered(deviceId: string, dp: string, value: DpValue)

  /** The one entry of a one-entry dictionary (`list(d)[0]`, `d.get(...)`). */
  function SoleEntry(m: map<string, DpValue>): (e: (string, DpValue))
    requires |m| == 1
    ensures m == map[e.0 := e.1]
  {
    var k :| k in m;
    assert m.Keys == {k} by {
      var rest := m.Keys - {k};
      assert m.Keys == rest + {k};
      assert |rest| == 0;
    }
    (k, m[k])
  }

  /** The position of an event's kind in firing order. */
  function Rank(e: Event): nat {
    match e
    case StatesUpdate(_, _, _) => 0
    case DeviceTriggered(_, _) => 1
    case DeviceDpTriggered(_, _, _) => 2
  }

  /** `old_status and old_status != new_status` */
  predicate Changed(before: Status, after: Option<Status>) {
    |before| > 0 && (after.None? || !SameStatus(before, after.value))
  }

  /** `old_status and new_status is not None` */
  predicate Triggered(before: Status, after: Option<Status>) {
    |before| > 0 && after.Some?
  }

  /** `self._interface is not None and len(self._interface.dispatched_dps) == 1`,
      where `dispatched` is None when there is no transport. */
  predicate SingleDispatched(dispatched: Option<map<string, DpValue>>) {
    dispatched.Some? && |dispatched.value| == 1
  }

  /** The events `_handle_event(old_status, new_status)` fires, in firing order, for the
      device `deviceId`; `dispatched` is the transport's `dispatched_dps`
      (None without a transport). Every event's data has more than the one
      entry `device_id`, so the length guard in `fire_event` always passes. */
  function SelectEvents(deviceId: string, before: Status, after: Option<Status>,
                        dispatched: Option<map<string, DpValue>>): (r: seq<Event>)
    ensures |r| <= 3
    ensures forall i :: 0 <= i < |r| ==> r[i].deviceId == deviceId
  {
    var first := if Changed(before, after) then [StatesUpdate(deviceId, before, after)] else [];
    if Triggered(before, after) then
      var trig := DeviceTriggered(deviceId, after.value);
      if SingleDispatched(dispatched) then
        var e := SoleEntry(dispatched.value);
        first + [trig, DeviceDpTriggered(deviceId, e.0, e.1)]
      else
        first + [trig]
    else
      first
  }

  /** At most one event of each kind, one per condition that holds, all
      for the device, kinds in firing order; `states_update`
      exactly when the old cache is non-empty and differs from the update;
      `device_triggered` exactly when the old cache is non-empty and an
      update arrived; `device_dp_triggered` exactly when, in addition, the
      transport dispatched one DP, whose id and value it carries; and in
      that order. */
  lemma SelectEventsSpec(deviceId: string, before: Status, after: Option<Status>,
                         dispatched: Option<map<string, DpValue>>)
    ensures var r := SelectEvents(deviceId, before, after, dispatched);
      && |r| == (if Changed(before, after) then 1 else 0) + (if Triggered(before, after) then 1 else 0)
                + (if Triggered(before, after) && SingleDispatched(dispatched) then 1 else 0)
      && (forall i, j :: 0 <= i < j < |r| ==> Rank(r[i]) < Rank(r[j]))
      && (forall i :: 0 <= i < |r| ==> r[i].deviceId == deviceId)
      && ((exists i :: 0 <= i < |r| && r[i].StatesUpdate?) <==> Changed(before, after))
      && ((exists i :: 0 <= i < |r| && r[i].DeviceTriggered?) <==> Triggered(before, after))
      && ((exists i :: 0 <= i < |r| && r[i].DeviceDpTriggered?) <==>
            Triggered(before, after) && SingleDispatched(dispatched))
      && (Changed(before, after) ==> r[0] == StatesUpdate(deviceId, before, after))
      && (forall i, j :: 0 <= i < |r| && 0 <= j < |r| && r[i].StatesUpdate? && !r[j].StatesUpdate? ==> i < j)
      && (forall i, j :: 0 <= i < |r| && 0 <= j < |r| && r[i].DeviceTriggered? && r[j].DeviceDpTriggered? ==> i < j)
      && (forall i :: 0 <= i < |r| && r[i].DeviceTriggered? ==> r[i].states == after.value)
      && (forall i :: 0 <= i < |r| && r[i].DeviceDpTriggered? ==>
            dispatched.Some? && dispatched.value == map[r[i].dp := r[i].value])
  {
    var r := SelectEvents(deviceId, before, after, dispatched);
    var first := if Changed(before, after) then [StatesUpdate(deviceId, before, after)] else [];
    if Triggered(before, after) {
      assert r[|first|].DeviceTriggered?;
      if SingleDispatched(dispatched) {
        assert r[|first| + 1].DeviceDpTriggered?;
      }
    }
    if Changed(before, after) {
      assert r[0].StatesUpdate?;
    }
  }

  /** One call of `_handle_event`: the cache before the update, the
      update, and the transport's `dispatched_dps` at that moment. */
  datatype Handled = Handled(before: Status, update: Status, dispatched: Option<map<string, DpValue>>)

  /** The events a sequence of handled updates fired, in firing order. */
  function Fired(deviceId: string, log: seq<Handled>): seq<Event>
    decreases |log|
  {
    if |log| == 0 then []
    else
      var h := log[|log| - 1];
      Fired(deviceId, log[..|log| - 1]) + SelectEvents(deviceId, h.before, Some(h.update), h.dispatched)
  }

  /** Handling one more update appends the events it selects. */
  lemma FiredAppend(deviceId: string, log: seq<Handled>, h: Handled)
    ensures Fired(deviceId, log + [h]) ==
            Fired(deviceId, log) + SelectEvents(deviceId, h.before, Some(h.update), h.dispatched)
  {
    assert (log + [h])[..|log|] == log;
  }

  /** A first status (empty before cache) fires nothing, whatever arrives. */
  lemma FirstStatusIsSilent(deviceId: string, after: Option<Status>, dispatched: Option<map<string, DpValue>>)
    ensures SelectEvents(deviceId, map[], after, dispatched) == []
  {
  }

  /** A repeated identical status still fires `device_triggered`, and the
      single-DP event follows whatever the transport last dispatched, not a
      difference computed here. */
  lemma RepeatedStatusStillTriggers(deviceId: string, s: Status, dp: string, v: DpValue)
    requires |s| > 0
    ensures SelectEvents(deviceId, s, Some(s), Some(map[dp := v])) ==
              [DeviceTriggered(deviceId, s), DeviceDpTriggered(deviceId, dp, v)]
  {
    SameStatusReflexive(s);
    assert |map[dp := v]| == 1;
  }

  /** Old {a: 1}, after {a: 2}, transport dispatched {a: 2}: all three events. */
  lemma OneChangedDp()
    ensures SelectEvents("dev", map["a" := IntV(1)], Some(map["a" := IntV(2)]), Some(map["a" := IntV(2)])) ==
              [StatesUpdate("dev", map["a" := IntV(1)], Some(map["a" := IntV(2)])),
               DeviceTriggered("dev", map["a" := IntV(2)]),
               DeviceDpTriggered("dev", "a", IntV(2))]
  {
    assert !SameStatus(map["a" := IntV(1)], map["a" := IntV(2)]) by {
      assert !PyEq(IntV(1), IntV(2));
    }
    assert |map["a" := IntV(2)]| == 1;
  }

  /** Old {a: 1}, after {a: 2, b: 5}, transport dispatched both: no single-DP event. */
  lemma TwoChangedDps()
    ensures SelectEvents("dev", map["a" := IntV(1)], Some(map["a" := IntV(2), "b" := IntV(5)]),
                         Some(map["a" := IntV(2), "b" := IntV(5)])) ==
              [StatesUpdate("dev", map["a" := IntV(1)], Some(map["a" := IntV(2), "b" := IntV(5)])),
               DeviceTriggered("dev", map["a" := IntV(2), "b" := IntV(5)])]
  {
    var m := map["a" := IntV(2), "b" := IntV(5)];
    assert "b" in m.Keys && "b" !in map["a" := IntV(1)].Keys;
    assert m.Keys == {"a", "b"};
    assert |m| == 2;
  }

  /** True and 1 are equal in Python, so replacing one by the other is not a
      change. */
  lemma BoolIntIsNoChange(deviceId: string)
    ensures !Changed(map["1" := BoolV(true)], Some(map["1" := IntV(1)]))
  {
  }
}
