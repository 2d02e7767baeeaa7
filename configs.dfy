/** The resolved configuration of one device (`DeviceConfig`) and the two
    configuration strings the device manager parses: the comma-separated
    `reset_dpids` and `manual_dps`. */
module Configs {
  import opened Values
  import opened Text

  /** One entity's configuration dictionary (platform, friendly name, the
      DP it wraps under "id", config keys naming further DPs, ...). */
  type EntityConfig = map<string, DpValue>

  /** A device entry as stored in the configuration entry; each field is
      None when its key is absent from the dictionary. */
  datatype RawDevice = RawDevice(
    deviceId: Option<string>,
    host: Option<string>,
    localKey: Option<string>,
    entities: Option<seq<EntityConfig>>,
    protocolVersion: Option<string>,
    sleepTime: Option<int>,
    scanInterval: Option<int>,
    enableDebug: Option<bool>,
    name: Option<string>,
    nodeId: Option<string>,
    model: Option<string>,
    resetDps: Option<string>,
    manualDps: Option<string>,
    dpsStrings: Option<seq<string>>,
    gatewayId: Option<string>)

  /** The resolved configuration. */
  datatype DeviceConfig = DeviceConfig(
    id: string,
    host: string,
    localKey: string,
    entities: seq<EntityConfig>,
    protocolVersion: string,
    sleepTime: int,
    scanInterval: int,
    enableDebug: bool,
    name: Option<string>,
    nodeId: Option<string>,
    model: string,
    resetDps: string,
    manualDps: string,
    dpsStrings: seq<string>)

  /** The keys `DeviceConfig` reads with `[...]`, in the order it reads
      them; a missing one raises KeyError. */
  datatype RequiredKey = DeviceIdKey | HostKey | LocalKeyKey | EntitiesKey | ProtocolVersionKey

  const DefaultModel: string := "Tuya generic"

  /** `DeviceConfig(device_config)`: the five required keys (the first
      missing one is the KeyError) and the defaults of the others. */
  function MakeDeviceConfig(raw: RawDevice): (r: Result<DeviceConfig, RequiredKey>)
    ensures r == Failure(DeviceIdKey) <==> raw.deviceId.None?
    ensures r == Failure(HostKey) <==> raw.deviceId.Some? && raw.host.None?
    ensures r == Failure(LocalKeyKey) <==>
              raw.deviceId.Some? && raw.host.Some? && raw.localKey.None?
    ensures r == Failure(EntitiesKey) <==>
              raw.deviceId.Some? && raw.host.Some? && raw.localKey.Some? && raw.entities.None?
    ensures r == Failure(ProtocolVersionKey) <==>
              raw.deviceId.Some? && raw.host.Some? && raw.localKey.Some? && raw.entities.Some?
              && raw.protocolVersion.None?
    ensures r.Success? ==>
              && r.value.id == raw.deviceId.value
              && r.value.host == raw.host.value
              && r.value.localKey == raw.localKey.value
              && r.value.entities == raw.entities.value
              && r.value.protocolVersion == raw.protocolVersion.value
    ensures r.Success? ==>
              && (raw.sleepTime.None? ==> r.value.sleepTime == 0)
              && (raw.scanInterval.None? ==> r.value.scanInterval == 0)
              && (raw.enableDebug.None? ==> !r.value.enableDebug)
              && (raw.name.None? ==> r.value.name.None?)
              && (raw.nodeId.None? ==> r.value.nodeId.None?)
              && (raw.model.None? ==> r.value.model == DefaultModel)
              && (raw.resetDps.None? ==> r.value.resetDps == "")
              && (raw.manualDps.None? ==> r.value.manualDps == "")
              && (raw.dpsStrings.None? ==> r.value.dpsStrings == [])
    ensures r.Success? ==>
              && (raw.sleepTime.Some? ==> r.value.sleepTime == raw.sleepTime.value)
              && (raw.scanInterval.Some? ==> r.value.scanInterval == raw.scanInterval.value)
              && (raw.enableDebug.Some? ==> r.value.enableDebug == raw.enableDebug.value)
              && r.value.name == raw.name
              && r.value.nodeId == raw.nodeId
              && (raw.model.Some? ==> r.value.model == raw.model.value)
              && (raw.resetDps.Some? ==> r.value.resetDps == raw.resetDps.value)
              && (raw.manualDps.Some? ==> r.value.manualDps == raw.manualDps.value)
              && (raw.dpsStrings.Some? ==> r.value.dpsStrings == raw.dpsStrings.value)
  {
    if raw.deviceId.None? then Failure(DeviceIdKey)
    else if raw.host.None? then Failure(HostKey)
    else if raw.localKey.None? then Failure(LocalKeyKey)
    else if raw.entities.None? then Failure(EntitiesKey)
    else if raw.protocolVersion.None? then Failure(ProtocolVersionKey)
    else Success(DeviceConfig(
      raw.deviceId.value, raw.host.value, raw.localKey.value, raw.entities.value,
      raw.protocolVersion.value,
      raw.sleepTime.GetOr(0), raw.scanInterval.GetOr(0), raw.enableDebug.GetOr(false),
      raw.name, raw.nodeId, raw.model.GetOr(DefaultModel), raw.resetDps.GetOr(""),
      raw.manualDps.GetOr(""), raw.dpsStrings.GetOr([])))
  }

  /** The dictionary that stores every field of a resolved configuration. */
  function ToRaw(c: DeviceConfig, gatewayId: Option<string>): RawDevice {
    RawDevice(Some(c.id), Some(c.host), Some(c.localKey), Some(c.entities),
              Some(c.protocolVersion), Some(c.sleepTime), Some(c.scanInterval),
              Some(c.enableDebug), c.name, c.nodeId, Some(c.model), Some(c.resetDps),
              Some(c.manualDps), Some(c.dpsStrings), gatewayId)
  }

  /** Storing a configuration and resolving it again gives it back. */
  lemma ConfigRoundTrip(c: DeviceConfig, gatewayId: Option<string>)
    ensures MakeDeviceConfig(ToRaw(c, gatewayId)) == Success(c)
  {
  }

  /** `node_id and not fake_gateway` (`is_subdevice`). */
  predicate IsSubdevice(nodeId: Option<string>, fakeGateway: bool) {
    Present(nodeId) && !fakeGateway
  }

  // ----- reset_dpids -----

  /** `int(t.strip())` for every token `t`. */
  function ReadIds(tokens: seq<string>): (readings: seq<Option<int>>)
    ensures |readings| == |tokens|
    ensures forall i :: 0 <= i < |tokens| ==> readings[i] == ParseInt(Strip(tokens[i]))
  {
    if |tokens| == 0 then [] else [ParseInt(Strip(tokens[0]))] + ReadIds(tokens[1..])
  }

  /** The list comprehension over the readings from position `from` on:
      the ids, or the position of the first token `int` rejects. */
  function CollectIds(readings: seq<Option<int>>, from: nat): (r: Result<seq<int>, nat>)
    requires from <= |readings|
    ensures r.Success? ==> |r.value| == |readings| - from
    ensures r.Failure? ==> from <= r.error < |readings|
    decreases |readings| - from
  {
    if from == |readings| then Success([])
    else
      match readings[from]
      case None => Failure(from)
      case Some(n) =>
        match CollectIds(readings, from + 1)
        case Success(rest) => Success([n] + rest)
        case Failure(i) => Failure(i)
  }

  /** After a successful collection, each id is the reading at its position. */
  lemma {:induction false} CollectedAt(readings: seq<Option<int>>, from: nat, i: nat)
    requires from <= i < |readings| && CollectIds(readings, from).Success?
    ensures readings[i] == Some(CollectIds(readings, from).value[i - from])
    decreases i - from
  {
    if i > from {
      CollectedAt(readings, from + 1, i);
    }
  }

  /** A failed collection stops at a rejected token, and every token before
      it was read. */
  lemma {:induction false} RejectedFirst(readings: seq<Option<int>>, from: nat, j: nat)
    requires from <= |readings| && CollectIds(readings, from).Failure?
    requires from <= j <= CollectIds(readings, from).error
    ensures j < CollectIds(readings, from).error ==> readings[j].Some?
    ensures j == CollectIds(readings, from).error ==> readings[j].None?
    decreases j - from
  {
    if j > from {
      RejectedFirst(readings, from + 1, j);
    }
  }

  /** Readings that are all ids collect to those ids. */
  lemma {:induction false} CollectAll(readings: seq<Option<int>>, ids: seq<int>, from: nat)
    requires from <= |readings| && |readings| - from == |ids|
    requires forall i :: from <= i < |readings| ==> readings[i] == Some(ids[i - from])
    ensures CollectIds(readings, from) == Success(ids)
    decreases |readings| - from
  {
    if from < |readings| {
      CollectAll(readings, ids[1..], from + 1);
      assert [ids[0]] + ids[1..] == ids;
    }
  }

  /** `[int(id.strip()) for id in tokens]`: Failure carries the first
      stripped token that `int` rejects (the text of the ValueError). */
  function ParseIds(tokens: seq<string>): (r: Result<seq<int>, string>)
    ensures r.Success? ==> |r.value| == |tokens|
  {
    match CollectIds(ReadIds(tokens), 0)
    case Success(ids) => Success(ids)
    case Failure(i) => Failure(Strip(tokens[i]))
  }

  /** The ids are the tokens read one by one. */
  lemma ParseIdsSuccess(tokens: seq<string>)
    requires ParseIds(tokens).Success?
    ensures forall i :: 0 <= i < |tokens| ==> ParseInt(Strip(tokens[i])) == Some(ParseIds(tokens).value[i])
  {
    var readings := ReadIds(tokens);
    forall i | 0 <= i < |tokens| ensures readings[i] == Some(ParseIds(tokens).value[i]) {
      CollectedAt(readings, 0, i);
    }
  }

  /** A failure names the first token that is not an integer: every token
      before it is one. */
  lemma ParseIdsFailure(tokens: seq<string>)
    requires ParseIds(tokens).Failure?
    ensures exists i :: 0 <= i < |tokens| && ParseInt(Strip(tokens[i])).None?
                        && ParseIds(tokens).error == Strip(tokens[i])
                        && forall j :: 0 <= j < i ==> ParseInt(Strip(tokens[j])).Some?
  {
    var readings := ReadIds(tokens);
    var k := CollectIds(readings, 0).error;
    RejectedFirst(readings, 0, k);
    forall j | 0 <= j < k ensures readings[j].Some? {
      RejectedFirst(readings, 0, j);
    }
    assert 0 <= k < |tokens| && ParseInt(Strip(tokens[k])).None? && ParseIds(tokens).error == Strip(tokens[k]);
  }

  /** Tokens that each read as the matching id parse to those ids. */
  lemma ParseIdsAll(tokens: seq<string>, ids: seq<int>)
    requires |tokens| == |ids|
    requires forall i :: 0 <= i < |tokens| ==> ParseInt(Strip(tokens[i])) == Some(ids[i])
    ensures ParseIds(tokens) == Success(ids)
  {
    CollectAll(ReadIds(tokens), ids, 0);
  }

  /** The constructor's reading of `reset_dpids`: None when the string is
      empty, otherwise the ids between its commas; a token that is not an
      integer is the ValueError that makes the constructor fail. */
  function ParseResetDps(resetDps: string): (r: Result<Option<seq<int>>, string>)
    ensures resetDps == "" <==> r == Success(None)
    ensures r.Success? && r.value.Some? ==> |r.value.value| == |Split(resetDps, ',')| >= 1
  {
    if resetDps == "" then Success(None)
    else
      match ParseIds(Split(resetDps, ','))
      case Success(ids) => Success(Some(ids))
      case Failure(bad) => Failure(bad)
  }

  /** `str(n)` for every id. */
  function Render(ids: seq<int>): (r: seq<string>)
    ensures |r| == |ids|
    ensures forall i :: 0 <= i < |ids| ==> r[i] == IntToString(ids[i])
  {
    if |ids| == 0 then [] else [IntToString(ids[0])] + Render(ids[1..])
  }

  /** `",".join(str(n) for n in ids)`: how a list of DP ids is written. */
  function FormatDpIds(ids: seq<int>): string {
    Join(Render(ids), ',')
  }

  lemma ParseRendered(ids: seq<int>)
    ensures ParseIds(Render(ids)) == Success(ids)
  {
    var r := Render(ids);
    forall i | 0 <= i < |r| ensures ParseInt(Strip(r[i])) == Some(ids[i]) {
      StripNoSpace(r[i]);
    }
    ParseIdsAll(r, ids);
  }

  lemma {:induction false} JoinStartsWithFirst(parts: seq<string>, sep: char)
    requires |parts| >= 1
    ensures |Join(parts, sep)| >= |parts[0]|
  {
  }

  /** A non-empty list of ids written out and parsed again gives the same
      ids. */
  lemma ResetDpsRoundTrip(ids: seq<int>)
    requires |ids| > 0
    ensures ParseResetDps(FormatDpIds(ids)) == Success(Some(ids))
  {
    var parts := Render(ids);
    SplitJoin(parts, ',');
    JoinStartsWithFirst(parts, ',');
    ParseRendered(ids);
  }

  // ----- manual_dps -----

  /** `"0" in manual_dps.split(",")`: the tokens are not stripped. */
  predicate HasManualZero(manualDps: string) {
    "0" in Split(manualDps, ',')
  }

  /** The tokens are compared as written: "0" alone or among others
      counts, a blank around it or an empty list does not. */
  lemma ManualZeroExamples()
    ensures HasManualZero("0") && HasManualZero("1,0")
    ensures !HasManualZero("") && !HasManualZero("1, 0") && !HasManualZero("10")
  {
    ManualZeroOfList(["0"]);
    ManualZeroOfList(["1", "0"]);
    ManualZeroOfList([""]);
    ManualZeroOfList(["1", " 0"]);
    ManualZeroOfList(["10"]);
  }

  /** For a list of comma-free DP ids, the check asks exactly whether "0"
      is one of them. */
  lemma ManualZeroOfList(dps: seq<string>)
    requires |dps| >= 1
    requires forall i :: 0 <= i < |dps| ==> ',' !in dps[i]
    ensures HasManualZero(Join(dps, ',')) <==> "0" in dps
  {
    SplitJoin(dps, ',');
  }
}
