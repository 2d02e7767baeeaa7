/** Lookups over the configuration: the key a device is registered under,
    the configuration of the entity that wraps a DP, and the configuration
    entry that holds a device or gateway id. */
module Registry {
  import opened Values
  import opened Configs

  // ----- device key -----

  /** `f"{host}_{node_id}" if node_id else host`: the key a device is
      registered under in the integration's device table. */
  function DeviceKey(host: string, nodeId: Option<string>): (k: string)
    ensures !Present(nodeId) ==> k == host
    ensures Present(nodeId) ==>
              |k| > |host| && k[..|host|] == host && k[|host|] == '_' && k[|host| + 1..] == nodeId.value
  {
    if Present(nodeId) then host + "_" + nodeId.value else host
  }

  /** A device without a node id is registered under its host, which is
      where a subdevice looks its gateway up; a subdevice's own key is never
      that host, and subdevices behind one host get distinct keys. */
  lemma DeviceKeyProperties(host: string, a: Option<string>, b: Option<string>)
    ensures !Present(a) ==> DeviceKey(host, a) == host
    ensures Present(a) ==> DeviceKey(host, a) != host
    ensures Present(a) && Present(b) && DeviceKey(host, a) == DeviceKey(host, b) ==> a == b
  {
    if Present(a) && Present(b) && DeviceKey(host, a) == DeviceKey(host, b) {
      var ka, kb := DeviceKey(host, a), DeviceKey(host, b);
      assert ka[|host| + 1..] == a.value;
      assert kb[|host| + 1..] == b.value;
    }
    if Present(a) {
      assert |DeviceKey(host, a)| > |host|;
    }
  }

  /** A subdevice resolves its gateway under its host, which is never its
      own key: it cannot find itself as its gateway. */
  lemma SubdeviceNotOwnGateway(c: DeviceConfig, fakeGateway: bool)
    requires IsSubdevice(c.nodeId, fakeGateway)
    ensures DeviceKey(c.host, c.nodeId) != c.host
  {
    DeviceKeyProperties(c.host, c.nodeId, c.nodeId);
  }

  // ----- get_entity_config -----

  /** Why no entity configuration was returned: an entity without "id"
      (KeyError) came before any match, or no entity has the DP id. */
  datatype LookupError = MissingId(index: nat) | NoEntity(dpId: string)

  predicate HasId(e: EntityConfig) {
    "id" in e
  }

  /** `entity[CONF_ID] == dp_id`. */
  predicate IsEntityFor(e: EntityConfig, dpId: string) {
    "id" in e && PyEq(e["id"], StrV(dpId))
  }

  /** The for-loop of `get_entity_config`, from position `from` on: the
      first entity whose id is `dpId`, or where it stops with an error. */
  function FindEntityIndex(entities: seq<EntityConfig>, dpId: string, from: nat): (r: Result<nat, LookupError>)
    requires from <= |entities|
    ensures r.Success? ==>
              && from <= r.value < |entities| && IsEntityFor(entities[r.value], dpId)
              && forall j :: from <= j < r.value ==> HasId(entities[j]) && !IsEntityFor(entities[j], dpId)
    ensures r.Failure? && r.error.MissingId? ==>
              && from <= r.error.index < |entities| && !HasId(entities[r.error.index])
              && forall j :: from <= j < r.error.index ==> HasId(entities[j]) && !IsEntityFor(entities[j], dpId)
    ensures r.Failure? && r.error.NoEntity? ==>
              && r.error.dpId == dpId
              && forall j :: from <= j < |entities| ==> HasId(entities[j]) && !IsEntityFor(entities[j], dpId)
    decreases |entities| - from
  {
    if from == |entities| then Failure(NoEntity(dpId))
    else if !HasId(entities[from]) then Failure(MissingId(from))
    else if IsEntityFor(entities[from], dpId) then Success(from)
    else FindEntityIndex(entities, dpId, from + 1)
  }

  /** `get_entity_config(config_entry, dp_id)`. */
  function GetEntityConfig(entities: seq<EntityConfig>, dpId: string): (r: Result<EntityConfig, LookupError>)
    ensures r.Success? ==> r.value in entities && IsEntityFor(r.value, dpId)
    ensures r.Failure? && r.error.MissingId? ==>
              r.error.index < |entities| && !HasId(entities[r.error.index])
    ensures r.Failure? && r.error.NoEntity? ==>
              r.error.dpId == dpId && forall j :: 0 <= j < |entities| ==> !IsEntityFor(entities[j], dpId)
  {
    match FindEntityIndex(entities, dpId, 0)
    case Success(i) => Success(entities[i])
    case Failure(e) => Failure(e)
  }

  /** A configuration is returned exactly when some entity has the DP id
      and every entity before it has an id (one without stops the search
      with a KeyError); it is the first entity for the DP. */
  lemma GetEntityConfigFirstMatch(entities: seq<EntityConfig>, dpId: string)
    ensures GetEntityConfig(entities, dpId).Success? <==>
              exists i :: 0 <= i < |entities| && IsEntityFor(entities[i], dpId)
                          && forall j :: 0 <= j < i ==> HasId(entities[j])
    ensures GetEntityConfig(entities, dpId).Success? ==>
              exists i :: 0 <= i < |entities| && entities[i] == GetEntityConfig(entities, dpId).value
                          && IsEntityFor(entities[i], dpId)
                          && forall j :: 0 <= j < i ==> !IsEntityFor(entities[j], dpId)
  {
    var r := FindEntityIndex(entities, dpId, 0);
    if exists i :: 0 <= i < |entities| && IsEntityFor(entities[i], dpId)
                   && forall j :: 0 <= j < i ==> HasId(entities[j]) {
      var i :| 0 <= i < |entities| && IsEntityFor(entities[i], dpId)
               && forall j :: 0 <= j < i ==> HasId(entities[j]);
      FindsReachableMatch(entities, dpId, 0, i);
    }
  }

  /** The search reaches a matching entity when every entity before it has
      an id. */
  lemma {:induction false} FindsReachableMatch(entities: seq<EntityConfig>, dpId: string, from: nat, i: nat)
    requires from <= i < |entities| && IsEntityFor(entities[i], dpId)
    requires forall j :: from <= j < i ==> HasId(entities[j])
    ensures FindEntityIndex(entities, dpId, from).Success?
    decreases i - from
  {
    if from < i && !IsEntityFor(entities[from], dpId) {
      FindsReachableMatch(entities, dpId, from + 1, i);
    }
  }

  // ----- async_config_entry_by_device_id -----

  /** A configuration entry: its devices keyed by device id. */
  datatype ConfigEntry = ConfigEntry(entryId: string, devices: map<string, RawDevice>)

  /** `(gw_id := dev_conf.get(CONF_GATEWAY_ID)) and gw_id == device_id`. */
  predicate IsGatewayOf(d: RawDevice, deviceId: string) {
    Present(d.gatewayId) && d.gatewayId.value == deviceId
  }

  /** The entry holds the device, or a device whose gateway it is. */
  predicate Serves(e: ConfigEntry, deviceId: string) {
    deviceId in e.devices || exists k :: k in e.devices && IsGatewayOf(e.devices[k], deviceId)
  }

  /** The search of `async_config_entry_by_device_id` from position `from`:
      the first entry that serves the id. */
  function EntryIndexFor(entries: seq<ConfigEntry>, deviceId: string, from: nat): (r: Option<nat>)
    requires from <= |entries|
    ensures r.Some? ==>
              && from <= r.value < |entries| && Serves(entries[r.value], deviceId)
              && forall j :: from <= j < r.value ==> !Serves(entries[j], deviceId)
    ensures r.None? ==> forall j :: from <= j < |entries| ==> !Serves(entries[j], deviceId)
    decreases |entries| - from
  {
    if from == |entries| then None
    else if Serves(entries[from], deviceId) then Some(from)
    else EntryIndexFor(entries, deviceId, from + 1)
  }

  /** `async_config_entry_by_device_id(hass, device_id)`. */
  function ConfigEntryByDeviceId(entries: seq<ConfigEntry>, deviceId: string): (r: Option<ConfigEntry>)
    ensures r.Some? ==> r.value in entries && Serves(r.value, deviceId)
    ensures r.None? <==> forall j :: 0 <= j < |entries| ==> !Serves(entries[j], deviceId)
  {
    match EntryIndexFor(entries, deviceId, 0)
    case Some(i) => Some(entries[i])
    case None => None
  }

  /** The entry found is the first that holds the device or one of whose
      devices names it as gateway; None exactly when no entry does. */
  lemma ConfigEntryByDeviceIdFirst(entries: seq<ConfigEntry>, deviceId: string)
    ensures ConfigEntryByDeviceId(entries, deviceId).None? <==>
              forall j :: 0 <= j < |entries| ==> !Serves(entries[j], deviceId)
    ensures ConfigEntryByDeviceId(entries, deviceId).Some? ==>
              exists i :: 0 <= i < |entries| && entries[i] == ConfigEntryByDeviceId(entries, deviceId).value
                          && Serves(entries[i], deviceId)
                          && forall j :: 0 <= j < i ==> !Serves(entries[j], deviceId)
  {
    var r := EntryIndexFor(entries, deviceId, 0);
    if r.Some? {
      assert Serves(entries[r.value], deviceId);
    }
  }
}
