/** The entity side of a device (`LocalTuyaEntity`): the copy of the device
    cache it keeps, the state it derives from it, the state it saves and
    restores across restarts, and the write it issues to restore a DP when
    the device connects. */
module Entity {
  import opened Values
  import opened Configs
  import opened Registry
  import opened Writes
  import opened Device

  /** `ATTR_STATE`: the attribute the entity saves its state under. */
  const AttrState: string := "raw_state"
  /** `CONF_DEFAULT_VALUE`. */
  const ConfDefaultValue: string := "default_value"
  /** `CONF_RESTORE_ON_RECONNECT`. */
  const ConfRestoreOnReconnect: string := "restore_on_reconnect"
  /** `CONF_PASSIVE_ENTITY`. */
  const ConfPassiveEntity: string := "is_passive_entity"
  /** Home Assistant's `STATE_UNKNOWN` and `STATE_UNAVAILABLE`. */
  const StateUnknown: string := "unknown"
  const StateUnavailable: string := "unavailable"
  /** `entity_default_value()` of the base class; platforms override it. */
  const BaseEntityDefault: DpValue := IntV(0)

  /** What Home Assistant stored for the entity before a restart: its state
      string and its attributes. */
  datatype StoredState = StoredState(state: string, attributes: map<string, DpValue>)

  // ----- dp_value -----

  /** `status.get(k) is not None`. */
  predicate Cached(status: Status, k: string) {
    Get(status, k) != NoneV
  }

  /** The config key `key` names another DP whose value is cached. Only a
      string can match a key of the cache. */
  predicate CachedViaConfig(status: Status, config: EntityConfig, key: string) {
    key in config && config[key].StrV? && Cached(status, config[key].s)
  }

  /** `dp_value(key, default)` over the entity's cache: the DP `key`
      itself, else the DP the config key `key` names, else `default`. */
  function DpLookup(status: Status, config: EntityConfig, key: string, default: DpValue): (v: DpValue)
    ensures v == default || v in status.Values
    ensures v == NoneV ==> default == NoneV
    ensures Cached(status, key) ==> v == status[key]
    ensures !Cached(status, key) && CachedViaConfig(status, config, key) ==> v == status[config[key].s]
    ensures !Cached(status, key) && !CachedViaConfig(status, config, key) ==> v == default
  {
    var direct := Get(status, key);
    if direct != NoneV then direct
    else
      var confKey := Get(config, key);
      if confKey != NoneV then
        var indirect := if confKey.StrV? then Get(status, confKey.s) else NoneV;
        if indirect != NoneV then indirect else default
      else default
  }

  /** The value found for a DP id depends only on what the cache holds for
      the DPs involved: a DP that is neither the key nor named by it does
      not matter. */
  lemma DpLookupLocal(status: Status, config: EntityConfig, key: string, default: DpValue, other: string, w: DpValue)
    requires other != key
    requires !(key in config && config[key] == StrV(other))
    ensures DpLookup(status[other := w], config, key, default) == DpLookup(status, config, key, default)
  {
    var s2 := status[other := w];
    assert Get(s2, key) == Get(status, key);
    if key in config && config[key].StrV? {
      assert Get(s2, config[key].s) == Get(status, config[key].s);
    }
  }

  // ----- the state-keeping rules -----

  /** The `_last_state` rule of `status_updated`: a new state that is not
      None replaces the last state, unless the device is connecting. */
  function KeptLastState(last: DpValue, state: DpValue, connecting: bool): (r: DpValue)
    ensures r == last || r == state
    ensures state != NoneV && !connecting ==> r == state
    ensures r != last ==> state != NoneV && !connecting
  {
    if state != NoneV && !connecting then state else last
  }

  /** A last state once set is never lost to a None state, and nothing seen
      while the device connects is recorded. */
  lemma KeptLastStateNeverForgets(last: DpValue, state: DpValue, connecting: bool)
    ensures last != NoneV ==> KeptLastState(last, state, connecting) != NoneV
    ensures KeptLastState(last, state, true) == last
  {
  }

  /** `extra_state_attributes` for a state and a last state: the state when
      there is one, else the last state, saved under `raw_state`. */
  function SavedAttributes(state: DpValue, last: DpValue): (attrs: map<string, DpValue>)
    ensures attrs.Keys <= {AttrState}
    ensures attrs == map[] <==> state == NoneV && last == NoneV
    ensures AttrState in attrs ==> attrs[AttrState] == (if state != NoneV then state else last)
  {
    if state != NoneV then
      var attrs := map[AttrState := state];
      assert AttrState in attrs;
      attrs
    else if last != NoneV then
      var attrs := map[AttrState := last];
      assert AttrState in attrs;
      attrs
    else map[]
  }

  /** `status_restored`: the last state after reading stored attributes. */
  function RestoredLastState(attrs: map<string, DpValue>, last: DpValue): (r: DpValue)
    ensures Get(attrs, AttrState) != NoneV ==> r == attrs[AttrState]
    ensures Get(attrs, AttrState) == NoneV ==> r == last
  {
    var raw := Get(attrs, AttrState);
    if raw != NoneV then raw else last
  }

  /** What an entity saves is what it gets back as its last state after a
      restart: its state if it had one, else its last state; with neither,
      the restored entity keeps its own. */
  lemma AttributesRoundTrip(state: DpValue, last: DpValue, prior: DpValue)
    ensures RestoredLastState(SavedAttributes(state, last), prior) ==
              if state != NoneV then state else if last != NoneV then last else prior
  {
  }

  // ----- _update_handler -----

  /** `status == RESTORE_STATES and stored_data` and the stored state is
      neither unavailable nor unknown: the handler writes the stored state
      into the status under the entity's DP. */
  predicate RestoresStored(update: Option<Status>, stored: Option<StoredState>) {
    && update.Some? && SameStatus(update.value, RestoreStates)
    && stored.Some? && stored.value.state != StateUnavailable && stored.value.state != StateUnknown
  }

  /** The status `_update_handler(update)` goes on with for the entity of
      DP `dpId` with stored data `stored`: an empty one for None, the
      restore marker plus the stored state under the DP, or the update
      itself. */
  function HandlerStatus(update: Option<Status>, stored: Option<StoredState>, dpId: string): (s: Status)
    ensures update.None? ==> s == map[]
    ensures RestoresStored(update, stored) ==> s == RestoreStates[dpId := StrV(stored.value.state)]
    ensures update.Some? && !RestoresStored(update, stored) ==> s == update.value
  {
    if update.None? then map[]
    else if RestoresStored(update, stored) then update.value[dpId := StrV(stored.value.state)]
    else update.value
  }

  /** The only status the handler changes is the restore marker, it only
      adds the entity's own DP, and the marker is Python-equal only to
      itself. */
  lemma HandlerChangesOnlyMarker(update: Status, stored: Option<StoredState>, dpId: string)
    ensures SameStatus(update, RestoreStates) <==> update == RestoreStates
    ensures HandlerStatus(Some(update), stored, dpId) != update ==>
              update == RestoreStates && stored.Some?
              && HandlerStatus(Some(update), stored, dpId) == update[dpId := StrV(stored.value.state)]
  {
    if SameStatus(update, RestoreStates) {
      assert update.Keys == {"0"};
      assert PyEq(update["0"], StrV("restore"));
    }
  }

  /** The status copies the entities of one device get from one dispatch of
      the device cache `update`, each from its own copy, in subscriber
      order; a subscriber is its stored data and its DP id. */
  function FanOut(update: Option<Status>, subs: seq<(Option<StoredState>, string)>): (r: seq<Status>)
    ensures |r| == |subs|
    ensures forall i :: 0 <= i < |subs| ==> r[i] == HandlerStatus(update, subs[i].0, subs[i].1)
  {
    seq(|subs|, i requires 0 <= i < |subs| => HandlerStatus(update, subs[i].0, subs[i].1))
  }

  /** Every subscriber with a usable stored state sees it under its own DP
      when the restore marker is dispatched, and the dispatched cache is
      left as it was. */
  lemma FanOutRestoresEach(subs: seq<(Option<StoredState>, string)>, i: nat)
    requires i < |subs|
    requires subs[i].0.Some? && subs[i].0.value.state != StateUnavailable && subs[i].0.value.state != StateUnknown
    ensures FanOut(Some(RestoreStates), subs)[i] == RestoreStates[subs[i].1 := StrV(subs[i].0.value.state)]
  {
    SameStatusReflexive(RestoreStates);
    assert RestoresStored(Some(RestoreStates), subs[i].0);
  }

  /** The dispatch as written: the handlers receive the device's own cache
      dictionary, and a handler that restores writes into it, so each
      subscriber sees what the ones before it wrote. */
  function FanOutAsWritten(update: Option<Status>, subs: seq<(Option<StoredState>, string)>): (r: seq<Status>)
    ensures |r| == |subs|
    decreases |subs|
  {
    if |subs| == 0 then []
    else
      var s := HandlerStatus(update, subs[0].0, subs[0].1);
      [s] + FanOutAsWritten(if update.None? then None else Some(s), subs[1..])
  }

  /** Two entities of a sleeping device, DP "1" stored "on" and DP "2"
      stored "off": as written, the second one sees the first one's
      restore and not its own, while each copy restores its own DP. */
  lemma SharedMarkerRestoresOnlyFirst()
    ensures var subs := [(Some(StoredState("on", map[])), "1"), (Some(StoredState("off", map[])), "2")];
      && FanOutAsWritten(Some(RestoreStates), subs)[1] == map["0" := StrV("restore"), "1" := StrV("on")]
      && "2" !in FanOutAsWritten(Some(RestoreStates), subs)[1]
      && FanOut(Some(RestoreStates), subs)[1] == map["0" := StrV("restore"), "2" := StrV("off")]
  {
    var subs := [(Some(StoredState("on", map[])), "1"), (Some(StoredState("off", map[])), "2")];
    var first := map["0" := StrV("restore"), "1" := StrV("on")];
    SameStatusReflexive(RestoreStates);
    assert HandlerStatus(Some(RestoreStates), subs[0].0, subs[0].1) == first;
    assert !SameStatus(first, RestoreStates) by {
      assert "1" in first.Keys && "1" !in RestoreStates.Keys;
    }
    assert HandlerStatus(Some(first), subs[1].0, subs[1].1) == first;
    assert FanOutAsWritten(Some(first), subs[1..]) == [first];
    FanOutRestoresEach(subs, 1);
  }

  // ----- restore_state_when_connected -----

  /** `_config.get(CONF_RESTORE_ON_RECONNECT, False)` is truthy. */
  predicate RestoreOnReconnect(config: EntityConfig) {
    Truthy(Get(config, ConfRestoreOnReconnect))
  }

  /** `_config.get(CONF_PASSIVE_ENTITY, False)` is truthy. */
  predicate Passive(config: EntityConfig) {
    Truthy(Get(config, ConfPassiveEntity))
  }

  /** A state that cannot be restored from: None or "unknown". */
  predicate Unusable(v: DpValue) {
    v == NoneV || v == StrV(StateUnknown)
  }

  /** What `restore_state_when_connected` does: nothing, write a value,
      write the entity's default, or give up. */
  datatype Restore = Skip | WriteValue(value: DpValue) | WriteDefault | Abandon

  /** The decision of `restore_state_when_connected` for the entity of DP
      `dpId` with cache `status`, state `state` and last state `last`. */
  function RestorePlan(config: EntityConfig, dpId: string, status: Status, state: DpValue, last: DpValue): Restore {
    if !RestoreOnReconnect(config) && (dpId in status || !Passive(config)) then Skip
    else
      var candidate := if Unusable(state) then last else state;
      if candidate != NoneV then WriteValue(candidate)
      else if Passive(config) then WriteDefault
      else Abandon
  }

  /** The entity restores unless restoring on reconnect is off and the DP
      already has a value or the entity is not passive; it writes its state,
      else its last state, else (passive entities only) its default; a
      passive entity never gives up, and None is never written as a state. */
  lemma RestorePlanSpec(config: EntityConfig, dpId: string, status: Status, state: DpValue, last: DpValue)
    ensures var p := RestorePlan(config, dpId, status, state, last);
      && (p.Skip? <==> !RestoreOnReconnect(config) && (dpId in status || !Passive(config)))
      && (!p.Skip? && !Unusable(state) ==> p == WriteValue(state))
      && (!p.Skip? && Unusable(state) && last != NoneV ==> p == WriteValue(last))
      && (!p.Skip? && Unusable(state) && last == NoneV ==>
            (p == WriteDefault <==> Passive(config)) && (p == Abandon <==> !Passive(config)))
      && (p.WriteValue? ==> p.value != NoneV)
      && (p.Abandon? ==> !Passive(config))
  {
  }

  /** A passive entity whose DP has not reported yet always writes
      something on connect, and so does one set to restore on reconnect
      that has a state or a last state. */
  lemma RestorePlanWrites(config: EntityConfig, dpId: string, status: Status, state: DpValue, last: DpValue)
    ensures Passive(config) && dpId !in status ==>
              RestorePlan(config, dpId, status, state, last).WriteValue? ||
              RestorePlan(config, dpId, status, state, last).WriteDefault?
    ensures RestoreOnReconnect(config) && (!Unusable(state) || last != NoneV) ==>
              RestorePlan(config, dpId, status, state, last).WriteValue?
  {
  }

  // ----- default_value -----

  /** `default_value()` given the memo `cached`: the memo, or the entity
      type's default when the memo is None. */
  function MemoDefault(cached: DpValue, entityDefault: DpValue): (v: DpValue)
    ensures cached != NoneV ==> v == cached
    ensures cached == NoneV ==> v == entityDefault
  {
    if cached == NoneV then entityDefault else cached
  }

  /** Asking again gives the same value: the memo is filled once. */
  lemma MemoDefaultIdempotent(cached: DpValue, entityDefault: DpValue)
    ensures MemoDefault(MemoDefault(cached, entityDefault), entityDefault) == MemoDefault(cached, entityDefault)
    ensures entityDefault != NoneV ==> MemoDefault(cached, entityDefault) != NoneV
  {
  }

  class LocalTuyaEntity {
    /** `_device`. */
    const device: TuyaDevice
    /** `_config`: the configuration of the entity's DP. */
    const config: EntityConfig
    /** `_dp_id`. */
    const dpId: string
    /** `entity_default_value()` of the entity's platform. */
    const entityDefault: DpValue

    /** `_status`: the entity's copy of the device cache. */
    var status: Status
    /** `_state`. */
    var state: DpValue
    /** `_last_state`. */
    var lastState: DpValue
    /** `_default_value`, memoised. */
    var defaultValue: DpValue
    /** The stored data the status handler captured when the entity was
        added; None before that or when nothing was stored. */
    var stored: Option<StoredState>

    /** The status each `schedule_update_ha_state` call published, oldest
        first. */
    ghost var published: seq<Status>

    /** `LocalTuyaEntity(device, device_config, dp_id)`: the entity's
        configuration is the first entity of the device with the DP id
        (otherwise the lookup raises). */
    constructor (d: TuyaDevice, entities: seq<EntityConfig>, dp: string, typeDefault: DpValue)
      requires GetEntityConfig(entities, dp).Success?
      ensures device == d && dpId == dp && entityDefault == typeDefault
      ensures config == GetEntityConfig(entities, dp).value
      ensures status == map[] && state == NoneV && lastState == NoneV && stored.None?
      ensures defaultValue == Get(config, ConfDefaultValue)
      ensures published == []
    {
      device, dpId, entityDefault := d, dp, typeDefault;
      config := GetEntityConfig(entities, dp).value;
      status, state, lastState, stored := map[], NoneV, NoneV, None;
      defaultValue := Get(GetEntityConfig(entities, dp).value, ConfDefaultValue);
      published := [];
    }

    /** `available`. */
    predicate Available()
      reads this`status
    {
      |status| > 0
    }

    /** `extra_state_attributes`. */
    function ExtraStateAttributes(): (attrs: map<string, DpValue>)
      reads this`state, this`lastState
      ensures RestoredLastState(attrs, NoneV) == (if state != NoneV then state else lastState)
    {
      SavedAttributes(state, lastState)
    }

    /** `async_added_to_hass` with what Home Assistant stored for the
        entity: restore the last state from it and subscribe the status
        handler, which keeps it. */
    method AddedToHass(data: Option<StoredState>)
      modifies this`stored, this`lastState
      ensures stored == data
      ensures lastState == if data.Some? then RestoredLastState(data.value.attributes, old(lastState)) else old(lastState)
    {
      stored := data;
      if data.Some? {
        StatusRestored(data.value);
      }
    }

    /** `status_restored(stored_state)`. */
    method StatusRestored(data: StoredState)
      modifies this`lastState
      ensures lastState == RestoredLastState(data.attributes, old(lastState))
    {
      var raw := Get(data.attributes, AttrState);
      if raw != NoneV {
        lastState := raw;
      }
    }

    /** `status_updated`: the state is the DP's cached value, and it
        becomes the last state under the `_last_state` rule. */
    method StatusUpdated()
      modifies this`state, this`lastState
      ensures state == DpLookup(status, config, dpId, NoneV)
      ensures lastState == KeptLastState(old(lastState), state, device.connecting)
    {
      var s := DpLookup(status, config, dpId, NoneV);
      state := s;
      if s != NoneV && !device.connecting {
        lastState := s;
      }
    }

    /** `_update_handler(update)` on the entity's own copy of the
        dispatched cache: a status Python-equal to the current one changes
        nothing; any other is copied and published, and a non-empty one
        updates the state. `available` follows the new status. */
    method UpdateHandler(update: Option<Status>)
      modifies this`status, this`state, this`lastState, this`published
      ensures var s := HandlerStatus(update, stored, dpId);
        && (SameStatus(old(status), s) ==> unchanged(this`status, this`state, this`lastState, this`published))
        && (!SameStatus(old(status), s) ==>
              && status == s && published == old(published) + [s]
              && (s != map[] ==> state == DpLookup(s, config, dpId, NoneV)
                                 && lastState == KeptLastState(old(lastState), state, device.connecting))
              && (s == map[] ==> state == old(state) && lastState == old(lastState)))
        && (Available() <==> |s| > 0)
    {
      var s := HandlerStatus(update, stored, dpId);
      if SameStatus(status, s) {
        assert status.Keys == s.Keys;
        return;
      }
      status := s;
      if s != map[] {
        StatusUpdated();
      }
      published := published + [s];
    }

    /** `default_value()`. */
    method DefaultValue() returns (v: DpValue)
      modifies this`defaultValue
      ensures v == MemoDefault(old(defaultValue), entityDefault)
      ensures defaultValue == v
    {
      if defaultValue == NoneV {
        defaultValue := entityDefault;
      }
      v := defaultValue;
    }

    /** `restore_state_when_connected()` at time `now`: carry out the
        restore decision through the device's `set_dp`. */
    method RestoreStateWhenConnected(now: int)
      modifies this`defaultValue, device`pendingStatus, device`sent
      ensures var p := RestorePlan(config, dpId, status, state, lastState);
        && ((p.Skip? || p.Abandon?) ==> defaultValue == old(defaultValue) && device.Box() == old(device.Box()))
        && (p.WriteValue? ==>
              defaultValue == old(defaultValue)
              && device.Box() == Write(old(device.Box()), map[dpId := p.value], device.transport.Some?, device.IsSleep(now)))
        && (p.WriteDefault? ==>
              defaultValue == MemoDefault(old(defaultValue), entityDefault)
              && device.Box() == Write(old(device.Box()), map[dpId := defaultValue], device.transport.Some?, device.IsSleep(now)))
    {
      var p := RestorePlan(config, dpId, status, state, lastState);
      match p
      case Skip =>
      case Abandon =>
      case WriteValue(v) =>
        device.SetDp(now, dpId, v);
      case WriteDefault =>
        var v := DefaultValue();
        device.SetDp(now, dpId, v);
    }
  }
}
