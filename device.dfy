/** The connection manager of one Tuya device (`TuyaDevice`): the connect
    guard, the bounded retry loop, the initial-status phase and what follows
    a successful connect, the write queue, the status cache and the
    reaction to a lost connection. The transport, Home Assistant's
    dispatcher, event bus and timers are outside: what the device asks of
    them is recorded in ghost logs, and what they answer is an input. */
module Device {
  import opened Values
  import opened Text
  import opened Configs
  import opened Events
  import opened Writes

  /** `_connect_max_tries`. */
  const MaxConnectTries: nat := 3
  /** Seconds before the quick reconnect after an unexpected disconnect. */
  const ReconnectDelay: int := 1
  /** Seconds added to `sleep_time` before the entities are shut down. */
  const ShutdownGrace: int := 3

  /** What one `pytuya.connect` attempt gave: the transport (an opaque
      handle), or the text of the exception it raised together with the
      cloud's device list that a key refresh after this failure fetches. */
  datatype AttemptOutcome = Opened(handle: nat) | Failed(message: string, cloud: map<string, CloudDevice>)

  /** The exception classes the initial-status phase tells apart. */
  datatype ErrorKind = UnicodeDecodeError | DecodeError | OtherException | NotAnException

  /** What the initial-status phase (reset, then `detect_available_dps`)
      gave: a status, None, or an exception of some kind, with the cloud's
      device list that a key refresh after it fetches. */
  datatype InitOutcome = Answered(status: Status) | NoAnswer
                       | Raised(kind: ErrorKind, message: string, cloud: map<string, CloudDevice>)

  /** The transport calls the device makes besides `set_dps`. */
  datatype Request = Reset(dpIds: seq<int>) | StartHeartbeat | CloseTransport(handle: nat)

  /** The timers the device arms. */
  datatype Timer = Reconnect(delay: int) | ShutdownLater(delay: int) | Refresh(interval: int)

  /** One device of the cloud's device list, as far as `update_local_key`
      reads it. */
  datatype CloudDevice = CloudDevice(localKey: Option<string>)

  /** The local key after `update_local_key`: the cloud's key for the
      device when the cloud lists it with a non-empty key that differs from
      the current one; otherwise the current key stays. */
  function AdoptedKey(current: string, cloud: map<string, CloudDevice>, devId: string): (k: string)
    ensures devId in cloud && Present(cloud[devId].localKey) ==> k == cloud[devId].localKey.value
    ensures !(devId in cloud && Present(cloud[devId].localKey)) ==> k == current
  {
    if devId in cloud && Present(cloud[devId].localKey) && cloud[devId].localKey.value != current
    then cloud[devId].localKey.value
    else current
  }

  /** Asking the cloud twice changes nothing more than asking once. */
  lemma AdoptedKeyIdempotent(current: string, cloud: map<string, CloudDevice>, devId: string)
    ensures AdoptedKey(AdoptedKey(current, cloud, devId), cloud, devId) == AdoptedKey(current, cloud, devId)
  {
  }

  /** A key refreshed for one reason and then perhaps for another is the
      key refreshed once. */
  lemma AdoptedKeyTwice(k: string, cloud: map<string, CloudDevice>, devId: string, first: bool, second: bool)
    ensures var k1 := if first then AdoptedKey(k, cloud, devId) else k;
            (if second then AdoptedKey(k1, cloud, devId) else k1)
            == (if first || second then AdoptedKey(k, cloud, devId) else k)
  {
    if first && second {
      AdoptedKeyIdempotent(k, cloud, devId);
    }
  }

  /** The first attempt, among the first `limit`, that opened a transport. */
  function FirstOpened(attempts: seq<AttemptOutcome>, from: nat, limit: nat): (r: Option<nat>)
    requires limit <= |attempts|
    ensures r.Some? ==>
              && from <= r.value < limit && attempts[r.value].Opened?
              && forall j :: from <= j < r.value ==> attempts[j].Failed?
    ensures r.None? ==> forall j :: from <= j < limit ==> attempts[j].Failed?
    decreases limit - from
  {
    if from >= limit then None
    else if attempts[from].Opened? then Some(from)
    else FirstOpened(attempts, from + 1, limit)
  }

  /** Some attempt among the first `n` failed with a message containing
      "key", which makes the loop ask the cloud for a new local key. */
  predicate KeyFailureAmong(attempts: seq<AttemptOutcome>, n: nat)
    requires n <= |attempts|
  {
    exists j :: 0 <= j < n && attempts[j].Failed? && Contains(attempts[j].message, "key")
  }

  /** The local key after the first `n` tries of the retry loop, from
      `k`: every try that failed for the key refreshes it from the device
      list fetched after that try. */
  function KeyAfterTries(k: string, attempts: seq<AttemptOutcome>, n: nat, devId: string): string
    requires n <= |attempts|
  {
    if n == 0 then k
    else
      var before := KeyAfterTries(k, attempts, n - 1, devId);
      if attempts[n - 1].Failed? && Contains(attempts[n - 1].message, "key")
      then AdoptedKey(before, attempts[n - 1].cloud, devId) else before
  }

  /** When every refresh among the first `n` tries fetches the same device
      list, the loop's refreshes adopt a key once: the key changes only
      when some try failed for the key. */
  lemma {:induction false} SameAnswerKey(k: string, attempts: seq<AttemptOutcome>, n: nat,
                                         cloud: map<string, CloudDevice>, devId: string)
    requires n <= |attempts|
    requires forall j :: 0 <= j < n && attempts[j].Failed? ==> attempts[j].cloud == cloud
    ensures KeyAfterTries(k, attempts, n, devId)
            == (if KeyFailureAmong(attempts, n) then AdoptedKey(k, cloud, devId) else k)
  {
    if n > 0 {
      SameAnswerKey(k, attempts, n - 1, cloud, devId);
      AdoptedKeyTwice(k, cloud, devId, KeyFailureAmong(attempts, n - 1),
                      attempts[n - 1].Failed? && Contains(attempts[n - 1].message, "key"));
      if KeyFailureAmong(attempts, n) && !KeyFailureAmong(attempts, n - 1) {
        assert attempts[n - 1].Failed? && Contains(attempts[n - 1].message, "key");
      }
    }
  }

  /** Whether the initial-status phase keeps the transport: it does after a
      status; after "Not found" on a fake gateway; and after an exception
      that is not an `Exception` on any other device. */
  predicate KeepsTransport(init: InitOutcome, fakeGateway: bool) {
    match init
    case Answered(_) => true
    case NoAnswer => false
    case Raised(kind, message, _) =>
      (kind.OtherException? && fakeGateway && Contains(message, "Not found"))
      || (kind.NotAnException? && !fakeGateway)
  }

  /** Whether the initial-status phase asks the cloud for a new local key. */
  predicate InitRequestsKey(init: InitOutcome, fakeGateway: bool) {
    init.Raised? && (init.kind.DecodeError? || (init.kind.NotAnException? && fakeGateway))
  }

  /** The one-entry writes the entities' restore hooks issue. */
  function RestoreWrites(restores: seq<(string, DpValue)>): (ws: seq<Status>)
    ensures |ws| == |restores|
    ensures forall i :: 0 <= i < |restores| ==> ws[i] == map[restores[i].0 := restores[i].1]
  {
    if |restores| == 0 then [] else [map[restores[0].0 := restores[0].1]] + RestoreWrites(restores[1..])
  }

  /** The tries the retry loop of a device that is not a subdevice makes:
      up to and including the first that opened a transport, or all of
      them. */
  function TriesUsed(attempts: seq<AttemptOutcome>): (n: nat)
    requires |attempts| >= MaxConnectTries
    ensures 1 <= n <= MaxConnectTries
  {
    var first := FirstOpened(attempts, 0, MaxConnectTries);
    if first.Some? then first.value + 1 else MaxConnectTries
  }

  /** The cache `status_updated` works on: the last known status of every
      DP and the updates handled so far. */
  datatype Cache = Cache(status: Status, handled: seq<Handled>)

  /** `status_updated(update)` on the cache when `on` holds (a fake gateway
      ignores updates): the update is handled against the old cache, then
      merged into it key by key. */
  function Report(c: Cache, update: Status, dispatched: Option<Status>, on: bool): Cache {
    if on then Cache(Merge(c.status, update), c.handled + [Handled(c.status, update, dispatched)]) else c
  }

  /** What the initial-status phase reports to the cache: the status it
      got, if any. */
  function InitReport(c: Cache, init: InitOutcome, dispatched: Option<Status>, fakeGateway: bool): Cache {
    if init.Answered? then Report(c, init.status, dispatched, !fakeGateway) else c
  }

  /** What only a successful connect changes: the refresh timer, the
      new-entity listener, the timers armed and the subdevice connects. */
  datatype Wiring = Wiring(refreshArmed: bool, entityListener: bool, timers: seq<Timer>,
                           subConnects: seq<set<string>>)

  /** The fields of a device a connect starts from: the cache, the write
      side, the local key, whether it was asleep, and the wiring. */
  datatype Before = Before(cache: Cache, box: Outbox, localKey: string, sleeping: bool, wiring: Wiring)

  /** `n` shutdown notices to the entities. */
  ghost function Nones(n: nat): seq<Option<Status>> {
    seq(n, _ => None)
  }

  /** A write issued with a transport does not depend on whether the
      device sleeps. */
  lemma ConnectedWriteIgnoresSleep(o: Outbox, updates: Status, sleeping: bool)
    ensures Write(o, updates, true, sleeping) == Write(o, updates, true, false)
  {
  }

  /** Issuing one more write after a sequence of writes. */
  lemma {:induction false} WriteEachSnoc(o: Outbox, ws: seq<Status>, w: Status, connected: bool, sleeping: bool)
    ensures WriteEach(o, ws + [w], connected, sleeping) == Write(WriteEach(o, ws, connected, sleeping), w, connected, sleeping)
    decreases |ws|
  {
    if |ws| > 0 {
      assert (ws + [w])[1..] == ws[1..] + [w];
      WriteEachSnoc(Write(o, ws[0], connected, sleeping), ws[1..], w, connected, sleeping);
    } else {
      assert (ws + [w])[1..] == [];
    }
  }

  /** The writes up to position `i`, one more than those before it. */
  lemma WriteEachPrefix(o: Outbox, ws: seq<Status>, i: nat)
    requires i < |ws|
    ensures WriteEach(o, ws[..i + 1], true, false) == Write(WriteEach(o, ws[..i], true, false), ws[i], true, false)
  {
    assert ws[..i + 1] == ws[..i] + [ws[i]];
    WriteEachSnoc(o, ws[..i], ws[i], true, false);
  }

  /** Queueing the queue itself (`set_dps(self._pending_status)`) changes
      nothing before it is sent. */
  lemma MergeSelf(p: Status)
    ensures Merge(p, p) == p
  {
  }

  /** The gateway found for a subdevice, as a set (empty when none was). */
  function Found(gw: TuyaDevice?): set<TuyaDevice> {
    if gw == null then {} else {gw}
  }

  class TuyaDevice {
    const config: DeviceConfig
    /** `fake_gateway`: the device is only used to relay commands. */
    const fakeGateway: bool
    /** `_default_reset_dpids`. */
    const resetDpids: Option<seq<int>>

    /** `_local_key`. */
    var localKey: string
    /** `_interface`: the transport's handle, None when not connected. */
    var transport: Option<nat>
    /** `_connect_task is not None`. */
    var connecting: bool
    /** `_is_closing`. */
    var isClosing: bool
    /** `_status`: the last known value of every DP. */
    var status: Status
    /** `_pending_status`: writes waiting for a transport. */
    var pendingStatus: Status
    /** `_sub_devices`, keyed by node id. */
    var subDevices: map<string, TuyaDevice>
    /** `_gwateway`: the gateway a subdevice was last found behind. */
    var gateway: TuyaDevice?
    /** `_last_update_time`, in seconds. */
    var lastUpdateTime: int
    /** `_unsub_interval` is armed. */
    var refreshArmed: bool
    /** A shutdown timer from `_shutdown_entities_delay` is pending and not
        cancelled. */
    var shutdownArmed: bool
    /** `_disconnect_task`: the listener for newly added entities. */
    var entityListener: bool

    /** Payloads handed to the transport's `set_dps`, oldest first. */
    ghost var sent: seq<Status>
    /** Other transport calls, oldest first. */
    ghost var requests: seq<Request>
    /** The updates `_handle_event` was called for, oldest first; the bus
        events fired are `Fired(config.id, handled)`. */
    ghost var handled: seq<Handled>
    /** What the status signal carried to the entities: the cache, or None
        when the entities are told the device is gone. */
    ghost var dispatches: seq<Option<Status>>
    /** Timers armed, oldest first. */
    ghost var timers: seq<Timer>
    /** The subdevices asked to connect after this gateway connected. */
    ghost var subConnects: seq<set<string>>

    /** The write side as the `Writes` functions see it. */
    ghost function Box(): Outbox
      reads this`pendingStatus, this`sent
    {
      Outbox(pendingStatus, sent)
    }

    /** The cache and the updates handled. */
    ghost function CacheOf(): Cache
      reads this`status, this`handled
    {
      Cache(status, handled)
    }

    /** What a connect at time `now` starts from. `connecting` is not part
        of it, so the guard of `async_connect` leaves it alone. */
    ghost function BeforeConnect(now: int): Before
      reads this`status, this`handled, this`pendingStatus, this`sent, this`localKey, this`lastUpdateTime,
            this`refreshArmed, this`entityListener, this`timers, this`subConnects
    {
      Before(CacheOf(), Box(), localKey, IsSleep(now), WiringOf())
    }

    /** The wiring of the device. */
    ghost function WiringOf(): Wiring
      reads this`refreshArmed, this`entityListener, this`timers, this`subConnects
    {
      Wiring(refreshArmed, entityListener, timers, subConnects)
    }

    /** The wiring after a successful connect from `w`: the listener is
        added, the refresh timer armed when a scan interval is set, and the
        subdevices asked to connect when there are any. */
    function ConnectedWiring(w: Wiring): Wiring
      reads this`subDevices
    {
      Wiring(w.refreshArmed || config.scanInterval > 0, true, w.timers + ConnectTimers(),
             w.subConnects + (if |subDevices| > 0 then [subDevices.Keys] else []))
    }

    /** The timer a successful connect arms: the refresh timer, when a scan
        interval is set. */
    function ConnectTimers(): seq<Timer> {
      if config.scanInterval > 0 then [Refresh(config.scanInterval)] else []
    }

    /** The retry loop finds a transport: a subdevice's gateway (`gw`) is
        registered and connected; another device has an attempt among the
        first `MaxConnectTries` that opened one. */
    predicate LoopFinds(gw: TuyaDevice?, attempts: seq<AttemptOutcome>)
      requires |attempts| >= MaxConnectTries
      reads Found(gw)`transport
    {
      if IsSubdevice() then gw != null && gw.transport.Some?
      else FirstOpened(attempts, 0, MaxConnectTries).Some?
    }

    /** The state `_make_connection` leaves a device in, from `b`:
        `connected` tells whether it holds a transport, which is the one
        the loop found and the initial-status phase kept; it is no longer
        connecting. The cache got the restore marker when the device was
        asleep with an empty cache, then, when the loop found a transport,
        the initial status and, when the connect succeeded and DP "0" is
        listed manually, the restore marker. The local key was refreshed
        when a try failed for the key or the initial-status phase asked for
        it. Only a successful connect writes (the entities' restores, then
        the queue), adds the new-entity listener, arms the refresh timer
        and connects the subdevices. */
    ghost predicate ConnectOutcome(b: Before, gw: TuyaDevice?, attempts: seq<AttemptOutcome>,
                                   init: InitOutcome, restores: seq<(string, DpValue)>,
                                   dispatchedInit: Option<Status>, dispatchedManual: Option<Status>,
                                   connected: bool)
      requires |attempts| >= MaxConnectTries
      reads this, Found(gw)
    {
      && ConnectLink(gw, attempts, init, connected)
      && ConnectEffects(b, gw, attempts, init, restores, dispatchedInit, dispatchedManual, connected)
    }

    /** The transport part of `ConnectOutcome`. */
    predicate ConnectLink(gw: TuyaDevice?, attempts: seq<AttemptOutcome>, init: InitOutcome, connected: bool)
      requires |attempts| >= MaxConnectTries
      reads this`transport, this`connecting, Found(gw)`transport
    {
      && connected == transport.Some?
      && !connecting
      && (connected <==> LoopFinds(gw, attempts) && KeepsTransport(init, fakeGateway))
      && (!IsSubdevice() && connected ==>
            transport == Some(attempts[FirstOpened(attempts, 0, MaxConnectTries).value].handle))
      && (IsSubdevice() && connected ==> transport == gw.transport)
    }

    /** The cache, key, write and wiring part of `ConnectOutcome`. */
    ghost predicate ConnectEffects(b: Before, gw: TuyaDevice?, attempts: seq<AttemptOutcome>,
                                   init: InitOutcome, restores: seq<(string, DpValue)>,
                                   dispatchedInit: Option<Status>, dispatchedManual: Option<Status>,
                                   connected: bool)
      requires |attempts| >= MaxConnectTries
      reads this, Found(gw)`transport
    {
      && CacheOf() == (if LoopFinds(gw, attempts)
                       then Report(InitReport(Marked(b), init, dispatchedInit, fakeGateway),
                                   RestoreStates, dispatchedManual,
                                   connected && HasManualZero(config.manualDps) && !fakeGateway)
                       else Marked(b))
      && localKey == (if LoopFinds(gw, attempts) && InitRequestsKey(init, fakeGateway)
                      then AdoptedKey(LoopKey(b.localKey, attempts), init.cloud, config.id)
                      else LoopKey(b.localKey, attempts))
      && Box() == (if connected then AfterConnect(b.box, RestoreWrites(restores)) else b.box)
      && WiringOf() == (if connected then ConnectedWiring(b.wiring) else b.wiring)
    }

    /** The end state of a connect from `b`, step by step: `found` is the
        transport the retry loop left (the one `LoopFinds` describes), and
        the initial-status phase and the end of a successful connect acted
        on it as `UseTransport` states. */
    lemma ConcludeOutcome(b: Before, gw: TuyaDevice?, attempts: seq<AttemptOutcome>,
                          init: InitOutcome, restores: seq<(string, DpValue)>,
                          dispatchedInit: Option<Status>, dispatchedManual: Option<Status>, connected: bool,
                          found: Option<nat>)
      requires |attempts| >= MaxConnectTries
      requires connected == transport.Some? && !connecting
      requires found.Some? <==> LoopFinds(gw, attempts)
      requires !IsSubdevice() && found.Some? ==>
                 found == Some(attempts[FirstOpened(attempts, 0, MaxConnectTries).value].handle)
      requires IsSubdevice() && found.Some? ==> found == gw.transport
      requires transport.Some? <==> found.Some? && KeepsTransport(init, fakeGateway)
      requires transport.Some? ==> transport == found
      requires localKey == (if found.Some? && InitRequestsKey(init, fakeGateway)
                            then AdoptedKey(LoopKey(b.localKey, attempts), init.cloud, config.id)
                            else LoopKey(b.localKey, attempts))
      requires CacheOf() == (if found.Some?
                             then Report(InitReport(Marked(b), init, dispatchedInit, fakeGateway),
                                         RestoreStates, dispatchedManual,
                                         transport.Some? && HasManualZero(config.manualDps) && !fakeGateway)
                             else Marked(b))
      requires Box() == (if transport.Some? then AfterConnect(b.box, RestoreWrites(restores)) else b.box)
      requires WiringOf() == (if transport.Some? then ConnectedWiring(b.wiring) else b.wiring)
      ensures ConnectOutcome(b, gw, attempts, init, restores, dispatchedInit, dispatchedManual, connected)
    {
    }

    /** `is_subdevice`. */
    predicate IsSubdevice() {
      Configs.IsSubdevice(config.nodeId, fakeGateway)
    }

    /** `is_sleep` at time `now`: a device with a sleep time that reported
        less than that many seconds ago is asleep. */
    predicate IsSleep(now: int)
      reads this`lastUpdateTime
    {
      config.sleepTime > 0 && now - lastUpdateTime < config.sleepTime
    }

    /** `connected`. */
    predicate Connected()
      reads this`transport
    {
      transport.Some?
    }

    /** `TuyaDevice(hass, entry, device_config, fake_gateway)` at time
        `now`: the ids of `reset_dpids` must parse, or the constructor
        raises. */
    constructor (c: DeviceConfig, fake: bool, now: int)
      requires ParseResetDps(c.resetDps).Success?
      ensures config == c && fakeGateway == fake && resetDpids == ParseResetDps(c.resetDps).value
      ensures localKey == c.localKey && transport.None? && !connecting && !isClosing
      ensures status == map[] && pendingStatus == map[] && subDevices == map[] && gateway == null
      ensures lastUpdateTime == now - 5
      ensures !refreshArmed && !shutdownArmed && !entityListener
      ensures sent == [] && requests == [] && handled == [] && dispatches == [] && timers == [] && subConnects == []
      ensures IsSleep(now) <==> c.sleepTime > 5
    {
      config, fakeGateway := c, fake;
      resetDpids := ParseResetDps(c.resetDps).value;
      localKey := c.localKey;
      transport, connecting, isClosing := None, false, false;
      status, pendingStatus, subDevices, gateway := map[], map[], map[], null;
      lastUpdateTime := now - 5;
      refreshArmed, shutdownArmed, entityListener := false, false, false;
      sent, requests, handled, dispatches, timers, subConnects := [], [], [], [], [], [];
    }

    // ----- connecting -----

    /** The guard of `async_connect`: a connect starts only when the device
        is not closing, not connecting and not connected. */
    method StartConnect() returns (started: bool)
      modifies this`connecting
      ensures started == (!isClosing && !old(connecting) && transport.None?)
      ensures connecting == (old(connecting) || started)
      ensures !started ==> unchanged(this)
    {
      started := !isClosing && !connecting && transport.None?;
      if started {
        connecting := true;
      }
    }

    /** `_shutdown_entities`: unless asleep, tell the entities the device
        is gone when it is not connected. */
    method ShutdownEntities(now: int)
      modifies this`shutdownArmed, this`dispatches
      ensures !shutdownArmed
      ensures dispatches == old(dispatches) + (if !IsSleep(now) && transport.None? then [None] else [])
    {
      shutdownArmed := false;
      if !IsSleep(now) && transport.None? {
        dispatches := dispatches + [None];
      }
    }

    /** `abort_connect`: a subdevice only forgets the gateway's transport
        (it never closes it); another device closes its own. Unless asleep,
        the entities are then shut down. */
    method AbortConnect(now: int)
      modifies this`transport, this`connecting, this`requests, this`shutdownArmed, this`dispatches
      ensures transport.None?
      ensures connecting == (old(connecting) && !IsSubdevice())
      ensures requests == old(requests) +
                (if !IsSubdevice() && old(transport).Some? then [CloseTransport(old(transport).value)] else [])
      ensures IsSleep(now) ==> shutdownArmed == old(shutdownArmed) && dispatches == old(dispatches)
      ensures !IsSleep(now) ==> !shutdownArmed && dispatches == old(dispatches) + [None]
    {
      if IsSubdevice() {
        transport := None;
        connecting := false;
      }
      if transport.Some? {
        requests := requests + [CloseTransport(transport.value)];
        transport := None;
      }
      if !IsSleep(now) {
        ShutdownEntities(now);
      }
    }

    /** `update_local_key`, as far as the local key goes. */
    method UpdateLocalKey(cloud: map<string, CloudDevice>)
      modifies this`localKey
      ensures localKey == AdoptedKey(old(localKey), cloud, config.id)
    {
      localKey := AdoptedKey(localKey, cloud, config.id);
    }

    /** The retry loop of `_make_connection`. A subdevice looks its gateway
        up (`gw`, null when it is not registered) on every try and registers
        itself there; it gives up at once when the gateway is missing, or is
        disconnected and still connecting, and otherwise takes the gateway's
        transport, failing (and retrying) when there is none. Another device
        tries `pytuya.connect`, whose outcome for try `i` is `attempts[i]`.
        At most `MaxConnectTries` tries are made, and the loop stops at the
        first success. Whether the device is a subdevice does not change
        during the loop, so the two kinds of try have a loop each. */
    method ConnectLoop(now: int, gw: TuyaDevice?, attempts: seq<AttemptOutcome>)
        returns (tries: nat, gaveUp: bool)
      requires transport.None?
      requires gw != this
      requires |attempts| >= MaxConnectTries
      modifies this`transport, this`connecting, this`requests, this`shutdownArmed, this`dispatches,
               this`localKey, this`gateway, Found(gw)`subDevices
      ensures 1 <= tries <= MaxConnectTries
      ensures requests == old(requests)
      ensures !IsSubdevice() ==> !gaveUp && connecting == old(connecting) && gateway == old(gateway)
      ensures !IsSubdevice() ==>
                var first := FirstOpened(attempts, 0, MaxConnectTries);
                && (first.Some? ==> tries == first.value + 1 && transport == Some(attempts[first.value].handle))
                && (first.None? ==> tries == MaxConnectTries && transport.None?)
                && localKey == KeyAfterTries(old(localKey), attempts, tries, config.id)
      ensures !IsSubdevice() && gw != null ==> gw.subDevices == old(gw.subDevices)
      ensures IsSubdevice() ==> localKey == old(localKey)
      ensures IsSubdevice() ==> (gaveUp <==> gw == null || (gw.transport.None? && gw.connecting))
      ensures IsSubdevice() && gaveUp ==> tries == 1 && transport.None? && !connecting
      ensures IsSubdevice() && !gaveUp && gw.transport.Some? ==> tries == 1 && transport == gw.transport
      ensures IsSubdevice() && !gaveUp && gw.transport.None? ==>
                tries == MaxConnectTries && transport.None? && !connecting
      ensures IsSubdevice() && gw != null ==>
                gateway == gw && gw.subDevices == old(gw.subDevices)[config.nodeId.value := this]
      ensures IsSubdevice() && gw == null ==> gateway == old(gateway)
      ensures shutdownArmed == (if IsSleep(now) || (transport.Some? && tries == 1) then old(shutdownArmed) else false)
      ensures dispatches == old(dispatches) +
                (if IsSleep(now) then [] else Nones(if transport.Some? then tries - 1 else tries))
      ensures transport.Some? <==> LoopFinds(gw, attempts)
      ensures gaveUp ==> transport.None?
      ensures localKey == LoopKey(old(localKey), attempts)
    {
      if IsSubdevice() {
        tries, gaveUp := GatewayLoop(now, gw);
      } else {
        tries := DirectLoop(now, attempts);
        gaveUp := false;
      }
    }

    /** The local key after the retry loop: a subdevice keeps it, and
        another device refreshes it after each try that failed for the
        key. */
    function LoopKey(k: string, attempts: seq<AttemptOutcome>): string
      requires |attempts| >= MaxConnectTries
    {
      if IsSubdevice() then k else KeyAfterTries(k, attempts, TriesUsed(attempts), config.id)
    }

    /** The retry loop of a subdevice. */
    method GatewayLoop(now: int, gw: TuyaDevice?) returns (tries: nat, gaveUp: bool)
      requires IsSubdevice() && transport.None? && gw != this
      modifies this`transport, this`connecting, this`requests, this`shutdownArmed, this`dispatches,
               this`gateway, Found(gw)`subDevices
      ensures requests == old(requests)
      ensures 1 <= tries <= MaxConnectTries
      ensures gaveUp <==> gw == null || (gw.transport.None? && gw.connecting)
      ensures gaveUp ==> tries == 1 && transport.None? && !connecting
      ensures !gaveUp && gw.transport.Some? ==> tries == 1 && transport == gw.transport
      ensures !gaveUp && gw.transport.None? ==> tries == MaxConnectTries && transport.None? && !connecting
      ensures gw != null ==> gateway == gw && gw.subDevices == old(gw.subDevices)[config.nodeId.value := this]
      ensures gw == null ==> gateway == old(gateway)
      ensures shutdownArmed == (if IsSleep(now) || (transport.Some? && tries == 1) then old(shutdownArmed) else false)
      ensures dispatches == old(dispatches) +
                (if IsSleep(now) then [] else Nones(if transport.Some? then tries - 1 else tries))
    {
      tries, gaveUp := 0, false;
      var done := false;
      while !done && tries < MaxConnectTries
        invariant tries <= MaxConnectTries
        invariant requests == old(requests)
        invariant done ==> tries == 1
        invariant !done ==> transport.None? && !gaveUp
        invariant gaveUp ==> done && transport.None? && !connecting
        invariant done ==> (gaveUp <==> gw == null || (gw.transport.None? && gw.connecting))
        invariant done && !gaveUp ==> transport == gw.transport && transport.Some?
        invariant tries > 0 && !done ==> gw != null && gw.transport.None? && !gw.connecting && !connecting
        invariant gw != null && tries > 0 ==>
                    gateway == gw && gw.subDevices == old(gw.subDevices)[config.nodeId.value := this]
        invariant gw == null || tries == 0 ==> gateway == old(gateway)
        invariant gw != null && tries == 0 ==> gw.subDevices == old(gw.subDevices)
        invariant shutdownArmed == (if IsSleep(now) || tries == 0 || (transport.Some? && tries == 1)
                                    then old(shutdownArmed) else false)
        invariant dispatches == old(dispatches) +
                    (if IsSleep(now) then [] else Nones(if transport.Some? then tries - 1 else tries))
        decreases MaxConnectTries - tries
      {
        tries := tries + 1;
        if gw != null {
          gateway := gw;
          gw.subDevices := gw.subDevices[config.nodeId.value := this];
        }
        if gw == null || (gw.transport.None? && gw.connecting) {
          AbortConnect(now);
          gaveUp, done := true, true;
        } else if gw.transport.Some? {
          transport := gw.transport;
          done := true;
        } else {
          AbortConnect(now);
        }
      }
    }

    /** The retry loop of a device that is not a subdevice. */
    method DirectLoop(now: int, attempts: seq<AttemptOutcome>) returns (tries: nat)
      requires !IsSubdevice() && transport.None?
      requires |attempts| >= MaxConnectTries
      modifies this`transport, this`connecting, this`requests, this`shutdownArmed, this`dispatches, this`localKey
      ensures requests == old(requests) && connecting == old(connecting)
      ensures 1 <= tries <= MaxConnectTries
      ensures var first := FirstOpened(attempts, 0, MaxConnectTries);
                && (first.Some? ==> tries == first.value + 1 && transport == Some(attempts[first.value].handle))
                && (first.None? ==> tries == MaxConnectTries && transport.None?)
      ensures localKey == KeyAfterTries(old(localKey), attempts, tries, config.id)
      ensures shutdownArmed == (if IsSleep(now) || (transport.Some? && tries == 1) then old(shutdownArmed) else false)
      ensures dispatches == old(dispatches) +
                (if IsSleep(now) then [] else Nones(if transport.Some? then tries - 1 else tries))
    {
      tries := 0;
      var done := false;
      while !done && tries < MaxConnectTries
        invariant tries <= MaxConnectTries
        invariant requests == old(requests) && connecting == old(connecting)
        invariant done ==> tries >= 1
        invariant forall j :: 0 <= j < tries - 1 ==> attempts[j].Failed?
        invariant done ==> attempts[tries - 1].Opened? && transport == Some(attempts[tries - 1].handle)
        invariant !done ==> transport.None? && forall j :: 0 <= j < tries ==> attempts[j].Failed?
        invariant localKey == KeyAfterTries(old(localKey), attempts, tries, config.id)
        invariant shutdownArmed == (if IsSleep(now) || tries == 0 || (transport.Some? && tries == 1)
                                    then old(shutdownArmed) else false)
        invariant dispatches == old(dispatches) +
                    (if IsSleep(now) then [] else Nones(if transport.Some? then tries - 1 else tries))
        decreases MaxConnectTries - tries
      {
        tries := tries + 1;
        match attempts[tries - 1]
        case Opened(h) =>
          transport := Some(h);
          done := true;
        case Failed(message, answer) =>
          AbortConnect(now);
          if Contains(message, "key") {
            UpdateLocalKey(answer);
          }
      }
      FirstOpenedIs(attempts, tries, done);
    }

    /** The loop's view of the attempts agrees with `FirstOpened`. */
    lemma FirstOpenedIs(attempts: seq<AttemptOutcome>, tries: nat, done: bool)
      requires 1 <= tries <= MaxConnectTries <= |attempts|
      requires forall j :: 0 <= j < tries - 1 ==> attempts[j].Failed?
      requires done ==> attempts[tries - 1].Opened?
      requires !done ==> tries == MaxConnectTries && forall j :: 0 <= j < tries ==> attempts[j].Failed?
      ensures var first := FirstOpened(attempts, 0, MaxConnectTries);
              && (done ==> first == Some(tries - 1))
              && (!done ==> first.None?)
    {
      var first := FirstOpened(attempts, 0, MaxConnectTries);
      if done {
        assert first.Some? ==> first.value >= tries - 1;
      }
    }

    /** The initial-status phase of `_make_connection`: the reset request
        when reset ids are configured, then the initial status. A status
        starts the heartbeat and updates the cache. NoAnswer is the
        "Failed to retrieve status" exception. The exception branches abort
        the connect, and some of them ask the cloud for a new local key. */
    method InitialStatus(now: int, init: InitOutcome, dispatched: Option<Status>)
      requires transport.Some?
      modifies this`transport, this`connecting, this`requests, this`shutdownArmed, this`dispatches,
               this`localKey, this`status, this`lastUpdateTime, this`handled
      ensures transport.Some? <==> KeepsTransport(init, fakeGateway)
      ensures transport.Some? ==> transport == old(transport)
      ensures requests == old(requests)
                + (if resetDpids.Some? && |resetDpids.value| > 0 then [Reset(resetDpids.value)] else [])
                + (if init.Answered? then [StartHeartbeat] else [])
                + (if !KeepsTransport(init, fakeGateway) && !IsSubdevice()
                   then [CloseTransport(old(transport).value)] else [])
      ensures localKey == (if InitRequestsKey(init, fakeGateway)
                           then AdoptedKey(old(localKey), init.cloud, config.id) else old(localKey))
      ensures init.Answered? && !fakeGateway ==>
                && status == Merge(old(status), init.status) && lastUpdateTime == now
                && handled == old(handled) + [Handled(old(status), init.status, dispatched)]
      ensures !(init.Answered? && !fakeGateway) ==>
                status == old(status) && lastUpdateTime == old(lastUpdateTime) && handled == old(handled)
      ensures KeepsTransport(init, fakeGateway) ==> connecting == old(connecting)
      ensures dispatches == old(dispatches)
                + (if init.Answered? && !fakeGateway then [Some(status)] else [])
                + (if !KeepsTransport(init, fakeGateway) && !old(IsSleep(now)) then [None] else [])
      ensures shutdownArmed == (if KeepsTransport(init, fakeGateway) || old(IsSleep(now))
                                then old(shutdownArmed) else false)
    {
      if resetDpids.Some? && |resetDpids.value| > 0 {
        requests := requests + [Reset(resetDpids.value)];
      }
      if init.Answered? {
        requests := requests + [StartHeartbeat];
        StatusUpdated(now, init.status, dispatched);
      } else {
        InitFailed(now, init);
      }
    }

    /** The except branches of the initial-status phase: each aborts the
        connect, except an unknown error of a fake gateway that says "Not
        found" and a null status of a device that is not a fake gateway;
        a decode error, or a null status of a fake gateway, also asks the
        cloud for a new local key. */
    method InitFailed(now: int, init: InitOutcome)
      requires transport.Some? && !init.Answered?
      modifies this`transport, this`connecting, this`requests, this`shutdownArmed, this`dispatches, this`localKey
      ensures transport.Some? <==> KeepsTransport(init, fakeGateway)
      ensures transport.Some? ==> transport == old(transport)
      ensures requests == old(requests)
                + (if !KeepsTransport(init, fakeGateway) && !IsSubdevice()
                   then [CloseTransport(old(transport).value)] else [])
      ensures localKey == (if InitRequestsKey(init, fakeGateway)
                           then AdoptedKey(old(localKey), init.cloud, config.id) else old(localKey))
      ensures KeepsTransport(init, fakeGateway) ==> connecting == old(connecting)
      ensures dispatches == old(dispatches)
                + (if !KeepsTransport(init, fakeGateway) && !IsSleep(now) then [None] else [])
      ensures shutdownArmed == (if KeepsTransport(init, fakeGateway) || IsSleep(now)
                                then old(shutdownArmed) else false)
    {
      match init
      case NoAnswer =>
        AbortConnect(now);
      case Raised(kind, message, answer) =>
        match kind
        case UnicodeDecodeError =>
          AbortConnect(now);
        case DecodeError =>
          AbortConnect(now);
          UpdateLocalKey(answer);
        case OtherException =>
          if !(fakeGateway && Contains(message, "Not found")) {
            AbortConnect(now);
          }
        case NotAnException =>
          if fakeGateway {
            AbortConnect(now);
            UpdateLocalKey(answer);
          }
    }

    /** The entities' restore writes after a connect (`restores`, one
        `set_dp` each, in order). */
    method RestoreAll(now: int, restores: seq<(string, DpValue)>)
      requires transport.Some?
      modifies this`pendingStatus, this`sent
      ensures Box() == WriteEach(old(Box()), RestoreWrites(restores), true, false)
    {
      var ws := RestoreWrites(restores);
      var i := 0;
      while i < |restores|
        invariant i <= |restores|
        invariant Box() == WriteEach(old(Box()), ws[..i], true, false)
      {
        RestoreOne(now, old(Box()), ws, i, restores[i].0, restores[i].1);
        i := i + 1;
      }
      assert ws[..i] == ws;
    }

    /** One restore write, `ws[i]`, after those before it. */
    method RestoreOne(now: int, ghost start: Outbox, ws: seq<Status>, i: nat, dp: string, value: DpValue)
      requires transport.Some? && i < |ws| && ws[i] == map[dp := value]
      requires Box() == WriteEach(start, ws[..i], true, false)
      modifies this`pendingStatus, this`sent
      ensures Box() == WriteEach(start, ws[..i + 1], true, false)
    {
      ghost var before := Box();
      SetDp(now, dp, value);
      ConnectedWriteIgnoresSleep(before, ws[i], IsSleep(now));
      WriteEachPrefix(start, ws, i);
    }

    /** The last step of a connect: `set_dps` of whatever is still queued,
        then the queue is emptied. */
    method FlushPending(now: int)
      requires transport.Some?
      modifies this`pendingStatus, this`sent
      ensures Box() == SendPending(old(Box()), true)
    {
      if pendingStatus != map[] {
        MergeSelf(pendingStatus);
        SetDps(now, pendingStatus);
        pendingStatus := map[];
      }
    }

    /** What `_make_connection` does once the transport is kept: the
        entities' restore writes, the new-entity listener, the refresh timer
        when a scan interval is set, the subdevices' connects, the restore
        marker when DP "0" is listed manually, and the flush of what is
        still queued. */
    method ArmAfterConnect()
      modifies this`entityListener, this`refreshArmed, this`timers, this`connecting, this`subConnects
      ensures entityListener && !connecting
      ensures refreshArmed == (old(refreshArmed) || config.scanInterval > 0)
      ensures timers == old(timers) + (if config.scanInterval > 0 then [Refresh(config.scanInterval)] else [])
      ensures subConnects == old(subConnects) + (if |subDevices| > 0 then [subDevices.Keys] else [])
    {
      entityListener := true;
      if config.scanInterval > 0 {
        refreshArmed := true;
        timers := timers + [Refresh(config.scanInterval)];
      }
      connecting := false;
      if |subDevices| > 0 {
        subConnects := subConnects + [subDevices.Keys];
      }
    }

    /** The restore marker a connect reports when DP "0" is listed
        manually. */
    method ReportManualRestore(now: int, dispatched: Option<Status>)
      requires transport.None? ==> dispatched.None?
      modifies this`status, this`lastUpdateTime, this`handled, this`dispatches
      ensures HasManualZero(config.manualDps) && !fakeGateway ==>
                && status == Merge(old(status), RestoreStates) && lastUpdateTime == now
                && handled == old(handled) + [Handled(old(status), RestoreStates, dispatched)]
                && dispatches == old(dispatches) + [Some(status)]
      ensures !(HasManualZero(config.manualDps) && !fakeGateway) ==>
                unchanged(this`status, this`lastUpdateTime, this`handled, this`dispatches)
    {
      if HasManualZero(config.manualDps) {
        StatusUpdated(now, RestoreStates, dispatched);
      }
    }

    method ConnectedTail(now: int, dispatched: Option<Status>)
      requires transport.Some?
      modifies this`pendingStatus, this`sent, this`entityListener, this`refreshArmed, this`timers,
               this`connecting, this`subConnects, this`status, this`lastUpdateTime, this`handled, this`dispatches
      ensures Box() == SendPending(old(Box()), true)
      ensures entityListener && !connecting
      ensures refreshArmed == (old(refreshArmed) || config.scanInterval > 0)
      ensures timers == old(timers) + (if config.scanInterval > 0 then [Refresh(config.scanInterval)] else [])
      ensures subConnects == old(subConnects) + (if |subDevices| > 0 then [subDevices.Keys] else [])
      ensures HasManualZero(config.manualDps) && !fakeGateway ==>
                && status == Merge(old(status), RestoreStates) && lastUpdateTime == now
                && handled == old(handled) + [Handled(old(status), RestoreStates, dispatched)]
                && dispatches == old(dispatches) + [Some(status)]
      ensures !(HasManualZero(config.manualDps) && !fakeGateway) ==>
                status == old(status) && lastUpdateTime == old(lastUpdateTime)
                && handled == old(handled) && dispatches == old(dispatches)
    {
      ArmAfterConnect();
      ReportManualRestore(now, dispatched);
      assert Box() == old(Box());
      FlushPending(now);
    }

    method FinishConnect(now: int, restores: seq<(string, DpValue)>, dispatched: Option<Status>)
      requires transport.Some?
      modifies this`pendingStatus, this`sent, this`entityListener, this`refreshArmed, this`timers,
               this`connecting, this`subConnects, this`status, this`lastUpdateTime, this`handled, this`dispatches
      ensures Box() == AfterConnect(old(Box()), RestoreWrites(restores))
      ensures entityListener && !connecting
      ensures refreshArmed == (old(refreshArmed) || config.scanInterval > 0)
      ensures timers == old(timers) + (if config.scanInterval > 0 then [Refresh(config.scanInterval)] else [])
      ensures subConnects == old(subConnects) + (if |subDevices| > 0 then [subDevices.Keys] else [])
      ensures HasManualZero(config.manualDps) && !fakeGateway ==>
                && status == Merge(old(status), RestoreStates) && lastUpdateTime == now
                && handled == old(handled) + [Handled(old(status), RestoreStates, dispatched)]
                && dispatches == old(dispatches) + [Some(status)]
      ensures !(HasManualZero(config.manualDps) && !fakeGateway) ==>
                status == old(status) && lastUpdateTime == old(lastUpdateTime)
                && handled == old(handled) && dispatches == old(dispatches)
      ensures CacheOf() == Report(old(CacheOf()), RestoreStates, dispatched,
                                  HasManualZero(config.manualDps) && !fakeGateway)
    {
      RestoreAll(now, restores);
      ConnectedTail(now, dispatched);
    }

    /** What `_make_connection` does with the transport the retry loop
        found: the initial-status phase, then, when the transport is kept,
        the end of a successful connect. */
    method UseTransport(now: int, init: InitOutcome, restores: seq<(string, DpValue)>,
                        dispatchedInit: Option<Status>, dispatchedManual: Option<Status>)
      modifies this`transport, this`connecting, this`requests, this`shutdownArmed, this`dispatches,
               this`localKey, this`status, this`lastUpdateTime, this`handled, this`pendingStatus, this`sent,
               this`entityListener, this`refreshArmed, this`timers, this`subConnects
      ensures transport.Some? <==> old(transport).Some? && KeepsTransport(init, fakeGateway)
      ensures transport.Some? ==> transport == old(transport)
      ensures Box() == (if transport.Some? then AfterConnect(old(Box()), RestoreWrites(restores)) else old(Box()))
      ensures localKey == (if old(transport).Some? && InitRequestsKey(init, fakeGateway)
                           then AdoptedKey(old(localKey), init.cloud, config.id) else old(localKey))
      ensures CacheOf() == (if old(transport).Some?
                            then Report(InitReport(old(CacheOf()), init, dispatchedInit, fakeGateway),
                                        RestoreStates, dispatchedManual,
                                        transport.Some? && HasManualZero(config.manualDps) && !fakeGateway)
                            else old(CacheOf()))
      ensures WiringOf() == (if transport.Some? then ConnectedWiring(old(WiringOf())) else old(WiringOf()))
    {
      InitPhase(now, init, dispatchedInit);
      FinishIfKept(now, restores, dispatchedManual);
    }

    /** The initial-status phase, when there is a transport. */
    method InitPhase(now: int, init: InitOutcome, dispatched: Option<Status>)
      modifies this`transport, this`connecting, this`requests, this`shutdownArmed, this`dispatches,
               this`localKey, this`status, this`lastUpdateTime, this`handled
      ensures transport.Some? <==> old(transport).Some? && KeepsTransport(init, fakeGateway)
      ensures transport.Some? ==> transport == old(transport)
      ensures localKey == (if old(transport).Some? && InitRequestsKey(init, fakeGateway)
                           then AdoptedKey(old(localKey), init.cloud, config.id) else old(localKey))
      ensures CacheOf() == (if old(transport).Some? then InitReport(old(CacheOf()), init, dispatched, fakeGateway)
                            else old(CacheOf()))
      ensures Box() == old(Box()) && WiringOf() == old(WiringOf())
    {
      if transport.Some? {
        InitialStatus(now, init, dispatched);
      }
    }

    /** The end of a successful connect, when the transport was kept. */
    method FinishIfKept(now: int, restores: seq<(string, DpValue)>, dispatched: Option<Status>)
      modifies this`pendingStatus, this`sent, this`entityListener, this`refreshArmed, this`timers,
               this`connecting, this`subConnects, this`status, this`lastUpdateTime, this`handled, this`dispatches
      ensures Box() == (if transport.Some? then AfterConnect(old(Box()), RestoreWrites(restores)) else old(Box()))
      ensures CacheOf() == Report(old(CacheOf()), RestoreStates, dispatched,
                                  transport.Some? && HasManualZero(config.manualDps) && !fakeGateway)
      ensures WiringOf() == (if transport.Some? then ConnectedWiring(old(WiringOf())) else old(WiringOf()))
    {
      if transport.Some? {
        FinishConnect(now, restores, dispatched);
      }
    }

    /** `_make_connection`. A sleeping device without a cache first gets
        the restore marker; then the retry loop, the initial-status phase
        and, when the transport is kept, the end of a successful connect.
        Afterwards the device is no longer connecting. `gw` is the gateway
        a subdevice finds in the device table; `attempts` and `init` are
        what the transport answers, each failure with the cloud's device
        list that a key refresh after it fetches; `restores` stands for the restore hooks
        of the device's entities (`self._entities`, which `add_entities`
        fills): the (DP id, value) each one writes, in order;
        `dispatchedInit` and `dispatchedManual` are the transport's
        `dispatched_dps` as the initial status and the manual restore
        marker each read it, which the awaited restore writes and subdevice
        connects between them may change. */
    method MakeConnection(now: int, gw: TuyaDevice?, attempts: seq<AttemptOutcome>, init: InitOutcome,
                          restores: seq<(string, DpValue)>,
                          dispatchedInit: Option<Status>, dispatchedManual: Option<Status>)
        returns (connected: bool)
      requires transport.None?
      requires gw != this
      requires |attempts| >= MaxConnectTries
      modifies this`transport, this`connecting, this`requests, this`shutdownArmed, this`dispatches,
               this`localKey, this`gateway, this`status, this`lastUpdateTime, this`handled,
               this`pendingStatus, this`sent, this`entityListener, this`refreshArmed, this`timers,
               this`subConnects, Found(gw)`subDevices
      ensures connected == transport.Some? && !connecting
      ensures ConnectOutcome(old(BeforeConnect(now)), gw, attempts, init, restores,
                             dispatchedInit, dispatchedManual, connected)
    {
      ghost var b := BeforeConnect(now);
      MarkIfAsleep(now);
      connected := LoopThenUse(now, gw, attempts, init, restores, dispatchedInit, dispatchedManual, b);
    }

    /** The first step of `_make_connection`: the restore marker, when the
        device is asleep and its cache is empty. */
    method MarkIfAsleep(now: int)
      requires transport.None?
      modifies this`status, this`lastUpdateTime, this`handled, this`dispatches
      ensures CacheOf() == Marked(old(BeforeConnect(now)))
    {
      if IsSleep(now) && |status| == 0 {
        StatusUpdated(now, RestoreStates, None);
      }
    }

    /** The cache a connect from `b` continues from: with the restore
        marker when the device was asleep with an empty cache. */
    function Marked(b: Before): Cache {
      Report(b.cache, RestoreStates, None, b.sleeping && |b.cache.status| == 0 && !fakeGateway)
    }

    /** The rest of `_make_connection`, from `b` with the restore marker
        already reported. */
    method LoopThenUse(now: int, gw: TuyaDevice?, attempts: seq<AttemptOutcome>, init: InitOutcome,
                       restores: seq<(string, DpValue)>,
                       dispatchedInit: Option<Status>, dispatchedManual: Option<Status>, ghost b: Before)
        returns (connected: bool)
      requires transport.None?
      requires gw != this
      requires |attempts| >= MaxConnectTries
      requires CacheOf() == Marked(b) && Box() == b.box && localKey == b.localKey && WiringOf() == b.wiring
      modifies this`transport, this`connecting, this`requests, this`shutdownArmed, this`dispatches,
               this`localKey, this`gateway, this`status, this`lastUpdateTime, this`handled,
               this`pendingStatus, this`sent, this`entityListener, this`refreshArmed, this`timers,
               this`subConnects, Found(gw)`subDevices
      ensures ConnectOutcome(b, gw, attempts, init, restores, dispatchedInit, dispatchedManual, connected)
    {
      var tries, gaveUp := ConnectLoop(now, gw, attempts);
      assert Box() == b.box && CacheOf() == Marked(b) && WiringOf() == b.wiring;
      connected := UseFound(now, gw, attempts, init, restores, dispatchedInit, dispatchedManual, b, gaveUp);
    }

    /** What `_make_connection` does after the retry loop, from `b`: after
        giving up (a subdevice whose gateway is missing or still connecting)
        it returns at once; otherwise the transport, if any, is used, and
        the connect is over. */
    method UseFound(now: int, gw: TuyaDevice?, attempts: seq<AttemptOutcome>, init: InitOutcome,
                    restores: seq<(string, DpValue)>,
                    dispatchedInit: Option<Status>, dispatchedManual: Option<Status>, ghost b: Before, gaveUp: bool)
        returns (connected: bool)
      requires gw != this
      requires gaveUp ==> transport.None? && !connecting
      requires |attempts| >= MaxConnectTries
      requires transport.Some? <==> LoopFinds(gw, attempts)
      requires !IsSubdevice() && transport.Some? ==>
                 transport == Some(attempts[FirstOpened(attempts, 0, MaxConnectTries).value].handle)
      requires IsSubdevice() && transport.Some? ==> transport == gw.transport
      requires CacheOf() == Marked(b) && Box() == b.box && localKey == LoopKey(b.localKey, attempts)
      requires WiringOf() == b.wiring
      modifies this`transport, this`connecting, this`requests, this`shutdownArmed, this`dispatches,
               this`localKey, this`status, this`lastUpdateTime, this`handled, this`pendingStatus, this`sent,
               this`entityListener, this`refreshArmed, this`timers, this`subConnects
      ensures ConnectOutcome(b, gw, attempts, init, restores, dispatchedInit, dispatchedManual, connected)
    {
      if gaveUp {
        ConcludeOutcome(b, gw, attempts, init, restores, dispatchedInit, dispatchedManual, false, None);
        return false;
      }
      ghost var found := transport;
      UseTransport(now, init, restores, dispatchedInit, dispatchedManual);
      connecting := false;
      connected := transport.Some?;
      ConcludeOutcome(b, gw, attempts, init, restores, dispatchedInit, dispatchedManual, connected, found);
    }

    /** `async_connect`: the guard, then the connect it starts. */
    method AsyncConnect(now: int, gw: TuyaDevice?, attempts: seq<AttemptOutcome>, init: InitOutcome,
                        restores: seq<(string, DpValue)>,
                        dispatchedInit: Option<Status>, dispatchedManual: Option<Status>)
        returns (started: bool, connected: bool)
      requires gw != this
      requires |attempts| >= MaxConnectTries
      modifies this`transport, this`connecting, this`requests, this`shutdownArmed, this`dispatches,
               this`localKey, this`gateway, this`status, this`lastUpdateTime, this`handled,
               this`pendingStatus, this`sent, this`entityListener, this`refreshArmed, this`timers,
               this`subConnects, Found(gw)`subDevices
      ensures started == (!old(isClosing) && !old(connecting) && old(transport).None?)
      ensures !started ==> connected == old(transport).Some? && unchanged(this)
      ensures started ==> !connecting
      ensures started ==>
                ConnectOutcome(old(BeforeConnect(now)), gw, attempts, init, restores,
                               dispatchedInit, dispatchedManual, connected)
      ensures connected == transport.Some?
      ensures isClosing == old(isClosing)
    {
      ghost var b := BeforeConnect(now);
      started := StartConnect();
      connected := transport.Some?;
      if started {
        assert BeforeConnect(now) == b;
        connected := MakeConnection(now, gw, attempts, init, restores, dispatchedInit, dispatchedManual);
      }
    }

    /** `close`: the device is closing from now on; the pending shutdown is
        cancelled, the connect stops, the transport is closed (for a
        subdevice that is the gateway's) and the new-entity listener is
        removed. The refresh timer is left as it is. */
    method Close()
      modifies this`isClosing, this`shutdownArmed, this`connecting, this`requests, this`transport,
               this`entityListener
      ensures isClosing && !shutdownArmed && !connecting && transport.None? && !entityListener
      ensures requests == old(requests) +
                (if old(transport).Some? then [CloseTransport(old(transport).value)] else [])
    {
      isClosing := true;
      shutdownArmed := false;
      connecting := false;
      if transport.Some? {
        requests := requests + [CloseTransport(transport.value)];
        transport := None;
      }
      entityListener := false;
    }

    // ----- writes -----

    /** `set_values`: send the whole queue once and empty it (a failed send
        is only logged). */
    method SetValues()
      modifies this`pendingStatus, this`sent
      ensures Box() == SendPending(old(Box()), transport.Some?)
    {
      if transport.Some? && pendingStatus != map[] {
        var payload := pendingStatus;
        pendingStatus := map[];
        sent := sent + [payload];
      }
    }

    /** `set_dp(value, dp)`. */
    method SetDp(now: int, dp: string, value: DpValue)
      modifies this`pendingStatus, this`sent
      ensures Box() == Write(old(Box()), map[dp := value], transport.Some?, IsSleep(now))
    {
      if transport.Some? {
        pendingStatus := Merge(pendingStatus, map[dp := value]);
        SetValues();
      } else if IsSleep(now) {
        pendingStatus := Merge(pendingStatus, map[dp := value]);
      }
    }

    /** `set_dps(states)`. */
    method SetDps(now: int, states: Status)
      modifies this`pendingStatus, this`sent
      ensures Box() == Write(old(Box()), states, transport.Some?, IsSleep(now))
    {
      if transport.Some? {
        pendingStatus := Merge(pendingStatus, states);
        SetValues();
      } else if IsSleep(now) {
        pendingStatus := Merge(pendingStatus, states);
      }
    }

    // ----- status -----

    /** `status_updated(update)` at time `now`, with the transport's
        `dispatched_dps` (None without a transport). A fake gateway ignores
        it; any other device fires the events `_handle_event` selects,
        updates the cache key by key and sends the whole cache to its
        entities. */
    method StatusUpdated(now: int, update: Status, dispatched: Option<Status>)
      requires transport.None? ==> dispatched.None?
      modifies this`status, this`lastUpdateTime, this`handled, this`dispatches
      ensures fakeGateway ==> unchanged(this`status, this`lastUpdateTime, this`handled, this`dispatches)
      ensures !fakeGateway ==>
                && lastUpdateTime == now
                && handled == old(handled) + [Handled(old(status), update, dispatched)]
                && status == Merge(old(status), update)
                && dispatches == old(dispatches) + [Some(status)]
    {
      if fakeGateway {
        return;
      }
      lastUpdateTime := now;
      handled := handled + [Handled(status, update, dispatched)];
      status := Merge(status, update);
      dispatches := dispatches + [Some(status)];
    }

    /** The timers `disconnected` arms for this device. */
    function DisconnectTimers(): seq<Timer>
      reads this`isClosing
    {
      (if !isClosing && !IsSubdevice() then [Reconnect(ReconnectDelay)] else [])
      + (if !isClosing then [ShutdownLater(config.sleepTime + ShutdownGrace)] else [])
    }

    /** The state `disconnected` leaves a device in: no transport, no
        connect, no refresh timer, the reconnect and shutdown timers armed
        unless it is closing; everything else untouched. */
    twostate predicate WentDown()
      reads this
    {
      && transport.None? && !connecting && !refreshArmed
      && timers == old(timers) + DisconnectTimers()
      && shutdownArmed == (if isClosing then old(shutdownArmed) else true)
      && isClosing == old(isClosing) && status == old(status) && pendingStatus == old(pendingStatus)
      && sent == old(sent) && localKey == old(localKey) && subDevices == old(subDevices)
      && lastUpdateTime == old(lastUpdateTime) && handled == old(handled) && dispatches == old(dispatches)
      && requests == old(requests) && gateway == old(gateway) && entityListener == old(entityListener)
      && subConnects == old(subConnects)
    }

    /** `disconnected`: the transport is gone. Every subdevice is told as
        well; subdevices have no subdevices of their own. The subdevices are
        told before the device's own fields change, not between the steps as
        in the source: the two touch disjoint objects, so the end state is
        the same. */
    method Disconnected()
      requires this !in subDevices.Values
      requires forall s :: s in subDevices.Values ==> s.subDevices == map[]
      modifies this`refreshArmed, this`transport, this`connecting, this`timers, this`shutdownArmed,
               subDevices.Values
      ensures WentDown()
      ensures forall s :: s in old(subDevices.Values) ==> s.WentDown()
      decreases |subDevices|, 1
    {
      if |subDevices| > 0 {
        DisconnectAll(subDevices.Values);
      }
      OwnDisconnect();
    }

    /** The device's own part of `disconnected`: the refresh timer and the
        transport are dropped, the connect task is cancelled and the
        reconnect and shutdown timers are armed. */
    method OwnDisconnect()
      modifies this`refreshArmed, this`transport, this`connecting, this`timers, this`shutdownArmed
      ensures WentDown()
    {
      refreshArmed := false;
      transport := None;
      connecting := false;
      ArmAfterDisconnect();
    }

    /** `disconnected` on each of the given subdevices. */
    static method DisconnectAll(subs: set<TuyaDevice>)
      requires forall s :: s in subs ==> s.subDevices == map[]
      modifies subs
      ensures forall s :: s in subs ==> s.WentDown()
      decreases 1, 0
    {
      var todo := subs;
      while todo != {}
        invariant todo <= subs
        invariant forall s :: s in subs - todo ==> s.WentDown()
        invariant forall s :: s in todo ==> unchanged(s)
        decreases todo
      {
        var s :| s in todo;
        s.Disconnected();
        todo := todo - {s};
      }
    }

    /** The timers `disconnected` arms: a quick reconnect unless closing or
        a subdevice, and the delayed shutdown of the entities unless
        closing. */
    method ArmAfterDisconnect()
      modifies this`timers, this`shutdownArmed
      ensures timers == old(timers) + DisconnectTimers()
      ensures shutdownArmed == (if isClosing then old(shutdownArmed) else true)
    {
      if !isClosing && !IsSubdevice() {
        timers := timers + [Reconnect(ReconnectDelay)];
      }
      if !isClosing {
        timers := timers + [ShutdownLater(config.sleepTime + ShutdownGrace)];
        shutdownArmed := true;
      }
    }
  }

  /** Once `close` has run, `async_connect` no longer starts a connect,
      whatever the device's state. */
  method ClosedDeviceStaysDown(d: TuyaDevice) returns (started: bool)
    modifies d
    ensures !started && d.isClosing
  {
    d.Close();
    started := d.StartConnect();
  }
}
