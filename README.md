# LocalTuya device manager and entity core, in Dafny

This project models the core of the LocalTuya Home Assistant integration
(`custom_components/localtuya/common.py`). That core has three parts:

- `TuyaDevice`, the connection manager of one Tuya device. It covers:
  - the connect guard and the connect loop, which tries at most three times;
  - how a subdevice finds its gateway and shares the gateway's transport;
  - the initial-status phase;
  - the restore writes, refresh timer, new-entity listener, subdevice
    connects and queue flush that follow a connect;
  - the write path (`set_dp`, `set_dps`, `set_values`);
  - the status cache and the bus events it fires;
  - closing, and the reaction to a lost connection.
- `LocalTuyaEntity`, the per-DP view an entity keeps. It covers:
  - the entity's copy of the cache;
  - the state, and the last state it saves across restarts;
  - the lookup of a DP value;
  - the restore write it issues when the device connects.
- The pure helpers around them:
  - `DeviceConfig` defaults;
  - parsing of `reset_dpids` and `manual_dps`;
  - the device key;
  - `get_entity_config`;
  - `async_config_entry_by_device_id`.

Modules:

- `Values`: DP values, with Python's equality between bool and int, dictionary
  equality, truthiness and `dict.get`.
- `Text`: `strip`, `split`, `join`, `int()` and `str()` on decimal numbers.
- `Configs`: `DeviceConfig`, the `reset_dpids` list, the manual "0" check and
  `is_subdevice`.
- `Registry`: the device key, `get_entity_config`, and the config-entry
  search.
- `Events`: which events `_handle_event` fires, and in which order.
- `Writes`: the write queue as a value, with the laws of queueing, dropping
  and sending.
- `Device`: class `TuyaDevice`.
- `Entity`: class `LocalTuyaEntity` and its pure restore and lookup rules.

How the outside world is modelled:

- Time is the argument `now`.
- A transport is an opaque handle.
- Each connect attempt and the initial status are inputs of the methods
  that use them. `update_local_key` fetches the cloud's device list afresh
  on every call, so each failure that leads to a key refresh carries the
  list that refresh gets (`Failed(message, cloud)`,
  `Raised(kind, message, cloud)`).
- What the device asks of the transport, the dispatcher, the event bus and
  the timers is appended to ghost logs on the device: `sent`, `requests`,
  `handled`, `dispatches`, `timers` and `subConnects`.
- The bus events fired are `Events.Fired(config.id, handled)`.

Points of the code's behaviour worth stating plainly:

- `device_triggered` fires whenever the cache was non-empty and an update
  arrives, even an empty or unchanged one.
- `device_dp_triggered` reports the transport's `dispatched_dps` when that
  has exactly one entry. It is not computed from a difference.
- Restoring on connect writes the entity's current state first, then its
  last state, and only a passive entity falls back to its default. The last
  state is what was restored from storage at start-up and then kept up to
  date.
- The restore hook runs for every attached entity, and the entity decides
  whether to write.
- The tokens of `manual_dps` are not stripped before the "0" check.

## Model

| member | source | states |
|---|---|---|
| Values.PyEq | custom_components/localtuya/common.py:509 | Python `==` on two DP values: a bool equals the int 1 or 0 that it stands for, and any other pair is equal only when identical. |
| Values.Merge | custom_components/localtuya/common.py:546 | `dict.update`: the cache after an update. |
| Values.MergeUpdates | custom_components/localtuya/common.py:546 | After `update` the keys are those of either dictionary. A key of the update has the update's value, and every other key keeps its old one. |
| Values.PyEqEquivalence | custom_components/localtuya/common.py:623-628 | Python equality between DP values is reflexive, symmetric and transitive, and for strings and None it is plain equality. So comparing a cache with the restore marker, or two caches, with it is sound. |
| Values.SameStatus | custom_components/localtuya/common.py:509 | Python `==` on two status dictionaries: the same keys, and Python-equal values under each key. |
| Values.Get | custom_components/localtuya/common.py:727 | `dict.get` gives the stored value for a present key and None for a missing one. |
| Values.Truthy | custom_components/localtuya/common.py:797-798 | Python truthiness of a DP value read with `.get(..., False)`: None, False, 0 and "" are false, and every other value is true. |
| Text.TrimLeft | custom_components/localtuya/common.py:194 | The result is a suffix of the input that does not start with whitespace, and everything dropped was whitespace. |
| Text.TrimRight | custom_components/localtuya/common.py:194 | The result is a prefix of the input that does not end with whitespace, and everything dropped was whitespace. |
| Text.Strip | custom_components/localtuya/common.py:194 | A stripped token neither starts nor ends with whitespace. |
| Text.StripNoSpace | custom_components/localtuya/common.py:194 | A token without whitespace strips to itself. |
| Text.Split | custom_components/localtuya/common.py:194 | `split(",")` gives at least one piece, no piece holds the separator, and joining the pieces gives the string back. |
| Text.SplitNoSep | custom_components/localtuya/common.py:367 | A string without the separator splits into itself alone. |
| Text.SplitAfterPiece | custom_components/localtuya/common.py:367 | Splitting a separator-free piece, then the separator, then the rest gives that piece followed by the split of the rest. |
| Text.SplitJoin | custom_components/localtuya/common.py:367 | Splitting a join of separator-free pieces gives the pieces back. |
| Text.DigitChar | custom_components/localtuya/common.py:194 | The character for a digit is a decimal digit with that value. |
| Text.NatToString | custom_components/localtuya/common.py:194 | The decimal text of a natural number is a non-empty run of digits that reads back as the number. |
| Text.ParseInt | custom_components/localtuya/common.py:194 | `int()` of a stripped token: an optional sign followed by decimal digits, and None (ValueError) for anything else. |
| Text.IntToString | custom_components/localtuya/common.py:194 | `str(n)` is non-empty, holds no whitespace and no comma, and `int()` reads it back as `n`. |
| Configs.MakeDeviceConfig | custom_components/localtuya/common.py:849-863 | A missing required key raises, naming the first one missing in the order they are read. Otherwise the required fields are copied. An optional field whose key is present is copied, and one whose key is absent takes its default (sleep 0, scan 0, debug off, no name, no node id, model "Tuya generic", empty reset and manual DPs, no strings). |
| Configs.ConfigRoundTrip | custom_components/localtuya/common.py:849-863 | Storing a resolved configuration and resolving it again gives it back. |
| Configs.ReadIds | custom_components/localtuya/common.py:194 | Each token is read as `int(token.strip())`, position by position. |
| Configs.CollectIds | custom_components/localtuya/common.py:194 | A successful collection has one id per remaining token, and a failure points at a token in range. |
| Configs.CollectedAt | custom_components/localtuya/common.py:194 | After a successful collection, each id is what its token read as. |
| Configs.RejectedFirst | custom_components/localtuya/common.py:194 | A failed collection stops at a token that does not read as an integer, and every token before it does. |
| Configs.CollectAll | custom_components/localtuya/common.py:194 | Readings that are all integers collect to exactly those integers. |
| Configs.ParseIds | custom_components/localtuya/common.py:194 | A successful parse has one id per token. |
| Configs.ParseIdsSuccess | custom_components/localtuya/common.py:194 | Every parsed id is `int()` of its stripped token. |
| Configs.ParseIdsFailure | custom_components/localtuya/common.py:194 | A failure (the constructor raising) names the first token that is not an integer, and every token before it is one. |
| Configs.ParseIdsAll | custom_components/localtuya/common.py:194 | Tokens that each read as the matching id parse to exactly those ids. |
| Configs.ParseResetDps | custom_components/localtuya/common.py:192-194 | An empty `reset_dpids` gives None, and exactly then. A non-empty one gives one id per comma-separated token. |
| Configs.Render | custom_components/localtuya/common.py:194 | Writing out ids gives one decimal string per id. |
| Configs.ParseRendered | custom_components/localtuya/common.py:194 | Ids written as decimal strings parse back to the same ids. |
| Configs.JoinStartsWithFirst | custom_components/localtuya/common.py:193 | A join is at least as long as its first piece. |
| Configs.ResetDpsRoundTrip | custom_components/localtuya/common.py:192-194 | A non-empty list of ids written comma-separated is read back by the constructor as the same list. |
| Configs.ManualZeroOfList | custom_components/localtuya/common.py:367 | For comma-free tokens, the manual "0" check holds exactly when "0" is one of the tokens. |
| Configs.HasManualZero | custom_components/localtuya/common.py:367 | `"0" in manual_dps.split(",")`, on the tokens as written. |
| Configs.ManualZeroExamples | custom_components/localtuya/common.py:367 | "0" and "1,0" list DP 0. "", "1, 0" (the token is " 0", because tokens are not stripped) and "10" do not. |
| Registry.DeviceKey | custom_components/localtuya/common.py:90 | Without a node id the key is the host. With one, the key is the host, an underscore, then the node id, so both can be read back from it. |
| Registry.DeviceKeyProperties | custom_components/localtuya/common.py:241 | A device without a node id is keyed by its host. A subdevice's key is never that host. Two subdevices behind one host with the same key have the same node id. |
| Registry.SubdeviceNotOwnGateway | custom_components/localtuya/common.py:237-243 | A subdevice looks its gateway up under its host, which is never its own key. |
| Registry.FindEntityIndex | custom_components/localtuya/common.py:130-135 | The search returns the first entity with the DP id. An entity without "id" that comes earlier stops it with a KeyError. With no match, every entity was checked. |
| Registry.GetEntityConfig | custom_components/localtuya/common.py:130-135 | A returned configuration is one of the entities and has the DP id. A KeyError names an entity without "id". "No entity" means no entity has the DP id. |
| Registry.GetEntityConfigFirstMatch | custom_components/localtuya/common.py:130-135 | `get_entity_config` returns a configuration exactly when some entity has the DP id and every entity before it has an id. What it returns is the first entity for the DP. |
| Registry.FindsReachableMatch | custom_components/localtuya/common.py:132-134 | The loop reaches a matching entity when every entity before it has an id. |
| Registry.EntryIndexFor | custom_components/localtuya/common.py:142-148 | The search returns the first entry that holds the device or has a device naming it as gateway. With none, no entry does. |
| Registry.ConfigEntryByDeviceId | custom_components/localtuya/common.py:139-149 | A returned entry is one of the entries and serves the id. None is returned exactly when no entry serves it. |
| Registry.ConfigEntryByDeviceIdFirst | custom_components/localtuya/common.py:139-149 | The lookup returns None exactly when no entry serves the id. Otherwise it returns the first entry that does. |
| Events.SelectEvents | custom_components/localtuya/common.py:493-525 | The events one update fires: at most three, all carrying the device id. |
| Events.SoleEntry | custom_components/localtuya/common.py:521-523 | The entry taken from a one-entry dictionary is that dictionary's only entry. |
| Events.SelectEventsSpec | custom_components/localtuya/common.py:493-525 | At most one event of each kind, one per condition that holds, all for the device, in the order `states_update`, `device_triggered`, `device_dp_triggered`. `states_update` fires exactly when the old cache is non-empty and differs from the update, and carries both. `device_triggered` fires exactly when the old cache is non-empty (an update always arrives), and carries the update. `device_dp_triggered` fires exactly when, in addition, the transport dispatched exactly one DP, and it carries that DP and its value. |
| Events.Fired | custom_components/localtuya/common.py:493-525 | The bus events of a device: for each handled update in order, the events `_handle_event` selects for it. |
| Events.FiredAppend | custom_components/localtuya/common.py:538-547 | Each handled update appends exactly the events it selects to those fired before. |
| Events.FirstStatusIsSilent | custom_components/localtuya/common.py:509-514 | With an empty cache nothing fires, whatever arrives. |
| Events.RepeatedStatusStillTriggers | custom_components/localtuya/common.py:514-525 | An update equal to the cache still fires `device_triggered`, and the single-DP event reports what the transport dispatched. |
| Events.OneChangedDp | custom_components/localtuya/common.py:509-525 | Cache {a: 1}, update {a: 2}, dispatched {a: 2}: `states_update`, `device_triggered`, then `device_dp_triggered` for a = 2. |
| Events.TwoChangedDps | custom_components/localtuya/common.py:509-525 | Cache {a: 1}, update and dispatch {a: 2, b: 5}: no single-DP event. |
| Events.BoolIntIsNoChange | custom_components/localtuya/common.py:509 | Replacing True by 1 is not a change, because Python compares them equal. |
| Writes.SendPending | custom_components/localtuya/common.py:455-463 | `set_values` on the queue and the payloads sent: with a transport and a non-empty queue, one payload goes out and the queue empties. Otherwise nothing changes. |
| Writes.Write | custom_components/localtuya/common.py:465-482 | `set_dp`/`set_dps`: with a transport the update joins the queue and `set_values` sends it. Asleep without one, it only joins the queue. Awake without one, it is dropped. |
| Writes.AfterConnect | custom_components/localtuya/common.py:339-372 | What a successful connect does to the queue: the restore writes go out one by one, then what is still queued is sent once. |
| Writes.SendPendingOnce | custom_components/localtuya/common.py:455-463 | With a transport, `set_values` empties the queue and sends it as one payload if it is non-empty. A second call sends nothing more. |
| Writes.SendPendingDisconnected | custom_components/localtuya/common.py:458 | Without a transport, `set_values` sends nothing and keeps the queue. |
| Writes.AwakeWriteDropped | custom_components/localtuya/common.py:465-482 | A write while disconnected and awake is dropped. |
| Writes.SleepingWriteQueued | custom_components/localtuya/common.py:471-473 | A write while disconnected and asleep is queued. Every written DP holds the new value, every other queued DP keeps its value, and nothing is sent. |
| Writes.ConnectedWriteSent | custom_components/localtuya/common.py:467-470 | A non-empty write with a transport goes out at once as one payload, merged with what was queued, and the queue is emptied. |
| Writes.LaterWriteWins | custom_components/localtuya/common.py:471-473 | Two sleeping writes to one DP: the later value overwrites the earlier one. |
| Writes.SleepingWritesAccumulate | custom_components/localtuya/common.py:471-482 | Writes while asleep and disconnected merge into the queue in order, and nothing is sent. |
| Writes.MergeAllLastWins | custom_components/localtuya/common.py:471-482 | After a series of writes, a DP holds the value of the last write to it. |
| Writes.MergeAllKeeps | custom_components/localtuya/common.py:471-482 | A queued DP that no later write touches keeps its value. |
| Writes.ConnectedWritesSentInOrder | custom_components/localtuya/common.py:467-479 | Non-empty writes with a transport go out one payload each, in order, the first merged with the old queue, and the queue ends empty. |
| Writes.FirstConnectedWrite | custom_components/localtuya/common.py:467-479 | The first of a series of connected writes goes out at once, merged with the queue. |
| Writes.MergeNonEmpty | custom_components/localtuya/common.py:468 | Merging a non-empty write into the queue leaves it non-empty. |
| Writes.QueuedWritesSentOnceAfterConnect | custom_components/localtuya/common.py:339-372 | After a connect, everything queued before it goes out exactly once, in the first payload: with the first restore write, or in the final flush when there is none. The queue ends empty. |
| Writes.SleepingWritesCoalesce | custom_components/localtuya/common.py:370-372 | Two sleeping writes to one DP followed by a connect send one payload carrying the later value. |
| Device.AdoptedKey | custom_components/localtuya/common.py:414-428 | The device takes the cloud's key for its id when the cloud has a non-empty one, and otherwise keeps its own. |
| Device.AdoptedKeyIdempotent | custom_components/localtuya/common.py:422-425 | Asking the cloud twice changes nothing more than asking once. |
| Device.AdoptedKeyTwice | custom_components/localtuya/common.py:297-298 | Two refreshes that fetch the same device list, each made or not, leave the key that one refresh gives. |
| Device.KeyAfterTries | custom_components/localtuya/common.py:271-298 | The key after the first tries of the retry loop: each try that failed for the key refreshes it from the device list fetched after that try. |
| Device.SameAnswerKey | custom_components/localtuya/common.py:271-298 | When every refresh of the retry loop fetches the same device list, the key is that list's key exactly when some try failed for the key, and unchanged otherwise. |
| Device.KeepsTransport | custom_components/localtuya/common.py:318-337 | The initial-status phase keeps the transport after a status, after an exception saying "Not found" on a fake gateway, and after a non-`Exception` on any other device. Every other outcome aborts the connect. |
| Device.InitRequestsKey | custom_components/localtuya/common.py:325-337 | The initial-status phase refreshes the key after a decode error, and after a non-`Exception` on a fake gateway. |
| Device.FirstOpened | custom_components/localtuya/common.py:271-292 | The first attempt within the limit that opened a transport, every earlier one failing. None exactly when all within the limit failed. |
| Device.TriesUsed | custom_components/localtuya/common.py:270-292 | The tries a direct device makes: one to three, up to the first that opened a transport. |
| Device.RestoreWrites | custom_components/localtuya/common.py:342-343 | Each restore hook's `set_dp` is a one-entry write of its DP. |
| Device.ConnectedWriteIgnoresSleep | custom_components/localtuya/common.py:467-473 | A write with a transport does not depend on whether the device is asleep. |
| Device.WriteEachSnoc | custom_components/localtuya/common.py:342-343 | Issuing one more write after a series is issuing it after the series' result. |
| Device.WriteEachPrefix | custom_components/localtuya/common.py:342-343 | The restore writes up to one position are those before it, followed by that one. |
| Device.MergeSelf | custom_components/localtuya/common.py:370-371 | Queueing the queue itself (`set_dps(self._pending_status)`) does not change it. |
| Device.TuyaDevice.constructor | custom_components/localtuya/common.py:155-194 | A new device has the configuration, its local key, the parsed reset ids, no transport, an empty cache and queue, and a last update five seconds ago. The ids of `reset_dpids` must read as integers, or the constructor raises. |
| Device.TuyaDevice.IsSubdevice | custom_components/localtuya/common.py:219-221 | A device is a subdevice when it has a non-empty node id and is not a fake gateway. |
| Device.TuyaDevice.IsSleep | custom_components/localtuya/common.py:224-230 | A device is asleep when its sleep time is positive and it reported less than that many seconds ago. |
| Device.TuyaDevice.Connected | custom_components/localtuya/common.py:214-216 | `connected`: the device has a transport. |
| Device.TuyaDevice.StartConnect | custom_components/localtuya/common.py:254 | A connect starts exactly when the device is not closing, not connecting and not connected. |
| Device.TuyaDevice.ShutdownEntities | custom_components/localtuya/common.py:527-536 | The pending shutdown is cleared. Unless asleep, a device without a transport tells its entities it is gone. |
| Device.TuyaDevice.AbortConnect | custom_components/localtuya/common.py:376-387 | The transport is gone. A subdevice only forgets the gateway's transport and stops connecting. Any other device closes its own transport and keeps its connect flag. Unless asleep, the entities are shut down. |
| Device.TuyaDevice.UpdateLocalKey | custom_components/localtuya/common.py:414-428 | The local key becomes the key of the device list it is given, when that is a different non-empty one. Each call gets the list that its own fetch returns. |
| Device.TuyaDevice.ConnectLoop | custom_components/localtuya/common.py:267-298 | One to three tries, stopping at the first success. A direct device ends with the first opened transport, or none, and refreshes its key after each failure mentioning "key", from the device list that refresh fetches (`KeyAfterTries`). A subdevice registers with its gateway and takes the gateway's transport. It gives up at once when the gateway is missing or still connecting. It ends with a transport exactly when `LoopFinds` says it finds one. |
| Device.TuyaDevice.GatewayLoop | custom_components/localtuya/common.py:274-278 | For a subdevice: it gives up exactly when the gateway is missing, or connecting without a transport. A gateway transport is taken on the first try. Otherwise it makes three tries and ends without transport. The subdevice is registered in the gateway's table under its node id. Unless asleep, each abort sends a shutdown notice and clears the shutdown handle. |
| Device.TuyaDevice.DirectLoop | custom_components/localtuya/common.py:279-298 | For a direct device: the transport is the first opened attempt among at most three, and the loop stops there. The local key is `KeyAfterTries` of the tries made: each failed try mentioning "key" refreshes it. Unless asleep, each failed try sends a shutdown notice to the entities and clears the shutdown handle, and the handle is kept when the first try succeeds. |
| Device.TuyaDevice.FirstOpenedIs | custom_components/localtuya/common.py:271-292 | The loop's count of tries and its success agree with `FirstOpened`. |
| Device.TuyaDevice.InitialStatus | custom_components/localtuya/common.py:300-337 | Reset is requested when reset ids are configured. A status starts the heartbeat and updates the cache, firing the events. The transport is kept exactly in the cases the exception handlers keep it. The key is refreshed after a decode error, or after a non-`Exception` on a fake gateway, from the device list that refresh fetches. The entities get the new cache after a status (not on a fake gateway), and a shutdown notice after an abort while awake, which also clears the shutdown handle. Otherwise the handle stays. |
| Device.TuyaDevice.InitFailed | custom_components/localtuya/common.py:321-337 | The four except branches: the transport is kept exactly as `KeepsTransport` says, an abort closes the device's own transport (a subdevice's is only dropped), and the key is refreshed exactly as `InitRequestsKey` says. While awake, an abort sends the entities a shutdown notice and clears the shutdown handle; otherwise both stay. |
| Device.TuyaDevice.RestoreAll | custom_components/localtuya/common.py:342-343 | The entities' restore writes go out one by one, as a series of connected writes. |
| Device.TuyaDevice.RestoreOne | custom_components/localtuya/common.py:343 | One restore write extends the series of writes issued so far. |
| Device.TuyaDevice.FlushPending | custom_components/localtuya/common.py:370-372 | Whatever is still queued is sent once, and the queue is emptied. |
| Device.TuyaDevice.ArmAfterConnect | custom_components/localtuya/common.py:345-365 | The new-entity listener is armed, the refresh timer is armed when the scan interval is positive, the connect flag is cleared, and the subdevices are asked to connect. |
| Device.TuyaDevice.ReportManualRestore | custom_components/localtuya/common.py:367-368 | When "0" is among the manual DPs, the restore marker goes through `status_updated`. |
| Device.TuyaDevice.ConnectedTail | custom_components/localtuya/common.py:345-372 | The steps after the restore writes, together: listener, timer, subdevices, manual marker, and flushing the queue once. |
| Device.TuyaDevice.FinishConnect | custom_components/localtuya/common.py:339-372 | After a kept transport, the queue is as `AfterConnect` says. The restore writes go out in order, then what is left is flushed. Timers and listener are armed. |
| Device.TuyaDevice.UseTransport | custom_components/localtuya/common.py:300-372 | The transport survives exactly when the loop found one and the initial-status phase kept it. The cache gets the initial status, reported with the first `dispatched_dps` read, then, after a kept transport, the manual restore marker, reported with the second read. The key is refreshed when the initial-status phase asks for it. Only with a kept transport do the restore writes and the flush happen, and are the listener, refresh timer and subdevice connects set up. Otherwise those stay as they were. |
| Device.TuyaDevice.InitPhase | custom_components/localtuya/common.py:300-337 | With a transport, the initial-status phase: it keeps the transport in the cases the handlers keep it, reports the status it got, and refreshes the key when asked. Without one, nothing changes. |
| Device.TuyaDevice.FinishIfKept | custom_components/localtuya/common.py:339-372 | With a kept transport, the end of a successful connect: the queue as `AfterConnect` says, the manual restore marker, and the listener, refresh timer and subdevice connects set up. Without one, nothing changes. |
| Device.TuyaDevice.ConnectOutcome | custom_components/localtuya/common.py:262-374 | The end state of a connect from the state before it: connected exactly when the loop found a transport and the initial-status phase kept it, and no longer connecting. The cache gets the restore marker, the initial status and the manual marker, each reported with its own `dispatched_dps` read. The key gets the loop's refreshes, then the initial-status phase's. Only a successful connect writes, flushes, and sets up the listener, refresh timer and subdevice connects. |
| Device.TuyaDevice.MakeConnection | custom_components/localtuya/common.py:262-374 | The device ends as `ConnectOutcome` says. It is connected exactly when the loop found a transport and the initial-status phase kept it. That is the first opened attempt, or the gateway's transport for a subdevice, and the device is no longer connecting. The cache gets the restore marker first if the device was asleep with an empty cache. Then, after a found transport, it gets the initial status, and after a successful connect with DP 0 listed manually, the marker again. Each of the two reports carries its own read of `dispatched_dps`, since the restore writes and subdevice connects awaited between them may change it. The key is refreshed after each direct try that failed for the key, from that try's device list, and then once more when the initial-status phase asks for it, from that phase's list. Only a successful connect sends the queue as `AfterConnect` says, adds the listener, arms the refresh timer when a scan interval is set and connects the subdevices. Otherwise those stay as they were. |
| Device.TuyaDevice.MarkIfAsleep | custom_components/localtuya/common.py:264-265 | The restore marker goes through `status_updated` exactly when the device is asleep with an empty cache. |
| Device.TuyaDevice.LoopThenUse | custom_components/localtuya/common.py:267-374 | The retry loop, and then the rest of the connect, end as `ConnectOutcome` says from the state before them. |
| Device.TuyaDevice.UseFound | custom_components/localtuya/common.py:276-374 | After a loop that gave up, nothing more happens. Otherwise the found transport is used, and the connect ends as `ConnectOutcome` says. |
| Device.TuyaDevice.ConcludeOutcome | custom_components/localtuya/common.py:262-374 | The loop's result, followed by the initial-status phase and the end of a successful connect, gives `ConnectOutcome`. |
| Device.TuyaDevice.AsyncConnect | custom_components/localtuya/common.py:249-260 | A connect runs exactly when the guard lets it. When it runs, the device ends as `ConnectOutcome` says, measured from before the guard. Otherwise nothing changes. Closing is never changed by a connect, and neither are the subdevice table and the other fields outside the connect's frame. |
| Device.TuyaDevice.Close | custom_components/localtuya/common.py:398-412 | The device is closing from then on. The pending shutdown is cancelled, the connect stops, the transport is closed (a subdevice's is the gateway's), and the listener is removed. |
| Device.TuyaDevice.SetValues | custom_components/localtuya/common.py:455-463 | The queue as `SendPending` says: sent once and emptied with a transport, kept without. |
| Device.TuyaDevice.SetDp | custom_components/localtuya/common.py:465-473 | A one-DP write: sent with a transport, queued when asleep, dropped otherwise. |
| Device.TuyaDevice.SetDps | custom_components/localtuya/common.py:475-482 | A many-DP write: sent with a transport, queued when asleep, dropped otherwise. |
| Device.TuyaDevice.StatusUpdated | custom_components/localtuya/common.py:538-547 | It is called with a dispatched set only when there is a transport. A fake gateway changes nothing. Any other device records the update time, fires the events `_handle_event` selects against the old cache, merges the update key by key (the update wins), and sends the whole cache to its entities. |
| Device.TuyaDevice.Disconnected | custom_components/localtuya/common.py:550-574 | The device and each of its subdevices end with no transport, no connect and no refresh timer. A reconnect timer is armed if the device is neither closing nor a subdevice, and a shutdown timer at sleep time + 3 if it is not closing. Every other field, including cache, queue, key, logs, gateway and listener, is unchanged. |
| Device.TuyaDevice.WentDown | custom_components/localtuya/common.py:550-574 | A device after `disconnected`: no transport, not connecting, the refresh timer cancelled, unless closing the quick reconnect timer armed (not for a subdevice) and the shutdown timer armed with its handle set, and every other field as before. |
| Device.TuyaDevice.OwnDisconnect | custom_components/localtuya/common.py:553-574 | The device's own part of `disconnected`: it ends as `WentDown` says. |
| Device.TuyaDevice.DisconnectAll | custom_components/localtuya/common.py:559-561 | Every subdevice goes down as `disconnected` says. |
| Device.TuyaDevice.ArmAfterDisconnect | custom_components/localtuya/common.py:567-574 | The reconnect and shutdown timers as `disconnected` arms them. |
| Device.ClosedDeviceStaysDown | custom_components/localtuya/common.py:249-254 | Once `close` has run, `async_connect` starts no connect, whatever the state. |
| Entity.DpLookup | custom_components/localtuya/common.py:722-738 | The DP's own cached value when it is not None. Otherwise the cached value of the DP its config key names. Otherwise the default. The result is the default or a cached value, and None only if the default is. |
| Entity.DpLookupLocal | custom_components/localtuya/common.py:722-738 | The value found depends only on the DP asked for and the DP its config key names. |
| Entity.KeptLastState | custom_components/localtuya/common.py:745-751 | The last state becomes the new state exactly when that is not None and the device is not connecting. Otherwise it stays. |
| Entity.KeptLastStateNeverForgets | custom_components/localtuya/common.py:745-751 | A last state once set never becomes None, and nothing seen while connecting is recorded. |
| Entity.SavedAttributes | custom_components/localtuya/common.py:647-660 | The saved attributes hold at most `raw_state`: the state if not None, else the last state, else nothing. |
| Entity.RestoredLastState | custom_components/localtuya/common.py:753-763 | A stored `raw_state` that is not None becomes the last state. Otherwise the last state stays. |
| Entity.AttributesRoundTrip | custom_components/localtuya/common.py:647-663 | After a restart the entity gets back what it saved: its state, else its last state. With neither, it keeps its own. |
| Entity.HandlerStatus | custom_components/localtuya/common.py:620-626 | None becomes an empty status. The restore marker, with stored data neither unavailable nor unknown, gains the stored state under the entity's DP. Any other update is taken as it is. |
| Entity.HandlerChangesOnlyMarker | custom_components/localtuya/common.py:623-626 | Only the restore marker (which Python compares equal only to itself) is changed, and only by adding the entity's own DP. |
| Entity.FanOut | custom_components/localtuya/common.py:489-491 | One dispatch gives each subscriber, in order, its own handler status. |
| Entity.FanOutRestoresEach | custom_components/localtuya/common.py:623-626 | Every subscriber with a usable stored state sees it under its own DP when the marker is dispatched. |
| Entity.FanOutAsWritten | custom_components/localtuya/common.py:489-491 | The dispatch as written, where each handler sees the shared dictionary as the earlier handlers left it. It gives one status per subscriber. |
| Entity.SharedMarkerRestoresOnlyFirst | custom_components/localtuya/common.py:618-626 | Two entities restoring "1" and "2": as written the second sees the first one's state and not its own. With its own copy it sees its own. |
| Entity.RestorePlan | custom_components/localtuya/common.py:797-832 | What `restore_state_when_connected` decides: skip, write a value, or give up. |
| Entity.RestorePlanSpec | custom_components/localtuya/common.py:797-832 | It skips exactly when restore-on-reconnect is off and the DP has a value or the entity is not passive. Otherwise it writes the state if usable, else the last state, else the default for a passive entity. A non-passive entity gives up. None is never written as a state. |
| Entity.RestorePlanWrites | custom_components/localtuya/common.py:797-832 | A passive entity whose DP has not reported always writes. So does a restore-on-reconnect entity with a state or a last state. |
| Entity.MemoDefault | custom_components/localtuya/common.py:765-774 | The memo if set, or the entity type's default. |
| Entity.MemoDefaultIdempotent | custom_components/localtuya/common.py:765-774 | Asking twice gives the same default. It is never None when the type's default is not. |
| Entity.LocalTuyaEntity.constructor | custom_components/localtuya/common.py:584-601 | The configuration is the first entity for the DP (the lookup must succeed). The cache is empty, there is no state or last state, and the default is the configured one. |
| Entity.LocalTuyaEntity.Available | custom_components/localtuya/common.py:692-694 | An entity is available exactly when its copy of the cache is non-empty. |
| Entity.LocalTuyaEntity.ExtraStateAttributes | custom_components/localtuya/common.py:647-660 | What the entity saves restores, at the next start, its state if not None, else its last state. |
| Entity.LocalTuyaEntity.AddedToHass | custom_components/localtuya/common.py:608-616 | The stored data is kept for the handler, and its `raw_state` becomes the last state. |
| Entity.LocalTuyaEntity.StatusRestored | custom_components/localtuya/common.py:753-763 | The last state as `RestoredLastState` says. |
| Entity.LocalTuyaEntity.StatusUpdated | custom_components/localtuya/common.py:740-751 | The state is the DP's cached value. The last state follows it unless the state is None or the device is connecting. |
| Entity.LocalTuyaEntity.UpdateHandler | custom_components/localtuya/common.py:618-635 | If the entity's copy of the cache is Python-equal to the status the handler goes on with, nothing changes. Otherwise the status is copied and published, and a non-empty one updates the state. `available` follows the length of the status either way. |
| Entity.LocalTuyaEntity.DefaultValue | custom_components/localtuya/common.py:765-774 | The memoised default: filled once from the entity type. |
| Entity.LocalTuyaEntity.RestoreStateWhenConnected | custom_components/localtuya/common.py:791-832 | As the plan says: nothing; or a `set_dp` of the state or last state; or a `set_dp` of the memoised default. |

## Left out

- asyncio scheduling, logging, the `TimeoutError`/`CancelledError` swallowing
  of `async_connect`, and the re-raise of a cancelled connect task: each
  method runs to completion, and time is frozen during one call.
- `AsyncConnect`: the wait for non-sleeping devices and the sleep-device
  fire-and-forget are not told apart, because both run the connect to the
  end in this model.
- `ConnectLoop`: a device's kind does not change during a connect, so the
  loop is written as one loop per kind (`GatewayLoop`, `DirectLoop`).
- `ArmAfterConnect`: the subdevice connects are only recorded (`subConnects`).
  Running them is a separate `AsyncConnect` call on each subdevice.
- `Disconnected`: subdevices are taken to have no subdevices of their own.
- `InitialStatus`: a status of None ("Failed to retrieve status") is the
  input `NoAnswer`. The exception class and message are inputs.
- `SetValues`: a failed `set_dps` is only logged in the source, so the model
  has no send-failure input.
- `UpdateLocalKey`: only the local key is modelled. The node id, gateway id,
  host and `updated_at` written into the configuration entry, and the
  persistence of that entry, are left out.
- `_async_refresh`, `dps_to_request` and `set_updatedps_list`: left out,
  because they only hand requests to the transport.
- `device_info`, `name`, `icon` and `unique_id`: left out, because they only
  format names and registry data for Home Assistant.
- `add_entities`: it fills `self._entities`. The model stands for that list
  by the `restores` input of `MakeConnection`, the writes of those
  entities' restore hooks in order.
- `entity_category`, `device_class` and `has_config`: left out, because they
  only read the entity configuration for Home Assistant and the platform
  subclasses, and no modelled operation uses them.
- `scale`: left out, because it is floating-point arithmetic
  (`round(value * scale_factor, 2)`), and floats are not modelled.
- `Close`: cancelling the refresh timer is left out, because the source does
  not cancel it.
- `check_connection`: waiting for the device's own connect task, and then
  the gateway's, before `set_values` sends is left out. `set_dp` and
  `set_dps` reach `set_values` only with a transport, so the wait changes
  nothing there.
- `Events.SelectEvents`: the `old_states` of a `states_update` event is the
  cache as it was before the update. In the source, `fire_event` copies the
  data only one level deep. So `old_states` is the live `_status`
  dictionary, which `status_updated` updates right after `_handle_event`
  returns, and a listener that reads it later sees the merged cache.
- `timers`: the log only records timers being armed. `_shutdown_entities`
  (reached from `abort_connect`) forgets the handle of a shutdown timer
  that `disconnected` armed without cancelling it, so `close` cannot cancel
  that timer. `shutdownArmed` says whether a shutdown timer is pending and
  not cancelled. The timer firing later is not modelled.
- `MakeConnection`: for the connect as a whole, `ConnectOutcome` does not
  state the transport requests (reset, heartbeat, closes), what is sent to
  the entities (`dispatches`), the last update time, the shutdown handle or
  the gateway registration. They are stated only step by step: by
  `ConnectLoop` for the retry loop, by `InitialStatus` for the
  initial-status phase, and by `FinishConnect` for the end of a successful
  connect. `UseTransport`, `InitPhase`, `FinishIfKept`, `LoopThenUse`,
  `UseFound` and `AsyncConnect` leave them unstated too.
- `Disconnected`: the subdevices are told before the device's own fields
  change. The source does that in between. The two concern different
  objects, so the end state is the same.
- `Text.ParseInt`: `int()` is modelled on ASCII digits with an optional
  sign. Underscores and non-ASCII digits are left out.
- `Entity`: the keys `raw_state`, `default_value`, `restore_on_reconnect` and
  `is_passive_entity` come from `const.py`, which is not part of this model.
  Home Assistant's `unknown` and `unavailable` are its state strings.
- `Entity.LocalTuyaEntity.constructor`: a missing entity configuration makes
  the source constructor raise. The model requires the lookup to succeed.
- `Device.TuyaDevice.SetDp`: the integer DP index calls are not modelled;
  DP ids are strings.
- `Entity.LocalTuyaEntity.UpdateHandler`: it works on the entity's own copy
  of the dispatched dictionary, the corrected behaviour in "Findings".
  `Entity.FanOutAsWritten` models the shared dictionary as written.
- The platform subclasses' `entity_default_value` and `status_updated`
  overrides are not part of this model. `entityDefault` is an input, and
  the base class gives `BaseEntityDefault`.

## Findings

| source | as written | input that shows it | evidently intended | confidence | as-written member | corrected member |
|---|---|---|---|---|---|---|
| custom_components/localtuya/common.py:623-626 | `_update_handler` writes the stored state into the dictionary it was given. That is the device's own `_status` that `_dispatch_status` sends to every entity, so later entities see the earlier entities' restore instead of the marker, and the device cache keeps it. | A sleeping device with entities for DP "1" (stored "on") and DP "2" (stored "off") dispatches `{"0": "restore"}`. The second entity sees `{"0": "restore", "1": "on"}`. | Each entity restores its own stored state into its own copy. | medium, not executed | Entity.SharedMarkerRestoresOnlyFirst | Entity.FanOutRestoresEach |
