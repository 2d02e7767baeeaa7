/** The write side of a device (`set_dp`, `set_dps`, `set_values` and the
    flush after connecting), as a function of the queue `_pending_status`
    and the payloads sent so far. */
module Writes {
  import opened Values

  /** The queued values and the payloads handed to the transport's
      `set_dps`, oldest first. */
  datatype Outbox = Outbox(pending: Status, sent: seq<Status>)

  /** `set_values`: with a transport and a non-empty queue, the queue is
      sent as one payload and emptied. A failed send is only logged, so the
      queue is emptied either way. */
  function SendPending(o: Outbox, connected: bool): Outbox {
    if connected && o.pending != map[] then Outbox(map[], o.sent + [o.pending]) else o
  }

  /** `set_dps(updates)` (and `set_dp`, with a one-entry `updates`): with a
      transport the updates are queued and `set_values` sends the queue;
      without one they are queued only while the device sleeps. */
  function Write(o: Outbox, updates: Status, connected: bool, sleeping: bool): Outbox {
    if connected then SendPending(Outbox(Merge(o.pending, updates), o.sent), true)
    else if sleeping then Outbox(Merge(o.pending, updates), o.sent)
    else o
  }

  /** A sequence of writes issued one after the other. */
  function WriteEach(o: Outbox, writes: seq<Status>, connected: bool, sleeping: bool): Outbox
    decreases |writes|
  {
    if |writes| == 0 then o
    else WriteEach(Write(o, writes[0], connected, sleeping), writes[1..], connected, sleeping)
  }

  /** What the end of a successful connect does with the queue: the
      entities' restore writes go out one by one (`set_dp` with a
      transport), then whatever is still queued is sent with `set_dps`. */
  function AfterConnect(o: Outbox, restores: seq<Status>): Outbox {
    SendPending(WriteEach(o, restores, true, false), true)
  }

  /** `update` folded over a sequence of dictionaries. */
  function MergeAll(p: Status, writes: seq<Status>): Status
    decreases |writes|
  {
    if |writes| == 0 then p else MergeAll(Merge(p, writes[0]), writes[1..])
  }

  // ----- properties -----

  /** `set_values` with a transport sends every queued value in one
      payload, leaves the queue empty, and a second call sends nothing. */
  lemma SendPendingOnce(o: Outbox)
    ensures SendPending(o, true).pending == map[]
    ensures o.pending != map[] ==> SendPending(o, true).sent == o.sent + [o.pending]
    ensures o.pending == map[] ==> SendPending(o, true).sent == o.sent
    ensures SendPending(SendPending(o, true), true) == SendPending(o, true)
  {
  }

  /** Without a transport `set_values` sends nothing and keeps the queue. */
  lemma SendPendingDisconnected(o: Outbox)
    ensures SendPending(o, false) == o
  {
  }

  /** A write while disconnected and awake is dropped: nothing is queued
      and nothing is sent. */
  lemma AwakeWriteDropped(o: Outbox, updates: Status)
    ensures Write(o, updates, false, false) == o
  {
  }

  /** A write while disconnected and asleep is queued: every written DP
      takes the new value, the other queued DPs keep theirs, and nothing is
      sent. */
  lemma SleepingWriteQueued(o: Outbox, updates: Status)
    ensures Write(o, updates, false, true).sent == o.sent
    ensures Write(o, updates, false, true).pending.Keys == o.pending.Keys + updates.Keys
    ensures forall k :: k in updates ==> Write(o, updates, false, true).pending[k] == updates[k]
    ensures forall k :: k in o.pending && k !in updates ==>
              Write(o, updates, false, true).pending[k] == o.pending[k]
  {
  }

  /** A write with a transport goes out at once, together with everything
      queued before it, and leaves the queue empty. */
  lemma ConnectedWriteSent(o: Outbox, updates: Status, sleeping: bool)
    requires |updates| > 0
    ensures Write(o, updates, true, sleeping) == Outbox(map[], o.sent + [Merge(o.pending, updates)])
  {
  }

  /** Two sleeping writes to one DP: the later value overwrites the earlier. */
  lemma LaterWriteWins(o: Outbox, dp: string, v1: DpValue, v2: DpValue)
    ensures Write(Write(o, map[dp := v1], false, true), map[dp := v2], false, true) ==
            Write(o, map[dp := v2], false, true)
  {
    assert Merge(Merge(o.pending, map[dp := v1]), map[dp := v2]) == Merge(o.pending, map[dp := v2]);
  }

  /** Writes issued while asleep and disconnected accumulate in the queue,
      each over the ones before it, and send nothing. */
  lemma {:induction false} SleepingWritesAccumulate(o: Outbox, writes: seq<Status>)
    ensures WriteEach(o, writes, false, true) == Outbox(MergeAll(o.pending, writes), o.sent)
    decreases |writes|
  {
    if |writes| > 0 {
      SleepingWritesAccumulate(Outbox(Merge(o.pending, writes[0]), o.sent), writes[1..]);
    }
  }

  /** After a series of updates, a DP holds the value of the last update
      that wrote it. */
  lemma {:induction false} MergeAllLastWins(p: Status, writes: seq<Status>, i: nat, k: string)
    requires i < |writes| && k in writes[i]
    requires forall j :: i < j < |writes| ==> k !in writes[j]
    ensures k in MergeAll(p, writes) && MergeAll(p, writes)[k] == writes[i][k]
    decreases |writes|
  {
    if i == 0 {
      MergeAllKeeps(Merge(p, writes[0]), writes[1..], k);
    } else {
      MergeAllLastWins(Merge(p, writes[0]), writes[1..], i - 1, k);
    }
  }

  /** A DP that no later update writes keeps its value. */
  lemma {:induction false} MergeAllKeeps(p: Status, writes: seq<Status>, k: string)
    requires k in p
    requires forall j :: 0 <= j < |writes| ==> k !in writes[j]
    ensures k in MergeAll(p, writes) && MergeAll(p, writes)[k] == p[k]
    decreases |writes|
  {
    if |writes| > 0 {
      MergeAllKeeps(Merge(p, writes[0]), writes[1..], k);
    }
  }

  /** Non-empty writes issued with a transport go out one payload each, in
      order; the first carries everything queued before it. */
  lemma {:induction false} ConnectedWritesSentInOrder(o: Outbox, writes: seq<Status>)
    requires |writes| > 0
    requires forall i :: 0 <= i < |writes| ==> |writes[i]| > 0
    ensures WriteEach(o, writes, true, false) ==
            Outbox(map[], o.sent + [Merge(o.pending, writes[0])] + writes[1..])
    decreases |writes|
  {
    var o1 := Outbox(map[], o.sent + [Merge(o.pending, writes[0])]);
    FirstConnectedWrite(o, writes);
    if |writes| > 1 {
      ConnectedWritesSentInOrder(o1, writes[1..]);
      MergeIntoEmpty(writes[1]);
      SentSplice(o1.sent, writes);
    }
  }

  /** The first of a series of writes with a transport goes out at once. */
  lemma FirstConnectedWrite(o: Outbox, writes: seq<Status>)
    requires |writes| > 0 && |writes[0]| > 0
    ensures WriteEach(o, writes, true, false) ==
            WriteEach(Outbox(map[], o.sent + [Merge(o.pending, writes[0])]), writes[1..], true, false)
  {
    ConnectedWriteSent(o, writes[0], false);
  }

  /** Re-associating the payloads after the first. */
  lemma SentSplice(sent: seq<Status>, writes: seq<Status>)
    requires |writes| > 1
    ensures sent + [writes[1..][0]] + writes[1..][1..] == sent + writes[1..]
  {
    assert [writes[1..][0]] + writes[1..][1..] == writes[1..];
  }

  lemma MergeNonEmpty(a: Status, b: Status)
    requires |b| > 0
    ensures |Merge(a, b)| > 0
  {
    var k :| k in b;
    assert k in Merge(a, b);
  }

  lemma MergeIntoEmpty(b: Status)
    ensures Merge(map[], b) == b
  {
  }

  /** Connecting sends what was queued exactly once, in the first payload
      after the connect (merged with the first restore write, if any),
      and only the restore writes after it; the queue ends empty. */
  lemma QueuedWritesSentOnceAfterConnect(o: Outbox, restores: seq<Status>)
    requires forall i :: 0 <= i < |restores| ==> |restores[i]| > 0
    ensures AfterConnect(o, restores).pending == map[]
    ensures AfterConnect(o, restores).sent ==
            o.sent + (if |restores| > 0 then [Merge(o.pending, restores[0])] + restores[1..]
                      else if o.pending != map[] then [o.pending] else [])
  {
    if |restores| > 0 {
      ConnectedWritesSentInOrder(o, restores);
    }
  }

  /** Two sleeping writes to one DP followed by a connect without restore
      writes: one payload goes out, carrying the later value. */
  lemma SleepingWritesCoalesce(o: Outbox, dp: string, v1: DpValue, v2: DpValue)
    ensures AfterConnect(WriteEach(o, [map[dp := v1], map[dp := v2]], false, true), []).sent ==
            o.sent + [Merge(o.pending, map[dp := v2])]
  {
    var ws := [map[dp := v1], map[dp := v2]];
    var twice := Merge(Merge(o.pending, map[dp := v1]), map[dp := v2]);
    assert MergeAll(o.pending, ws) == twice by {
      var once := Merge(o.pending, map[dp := v1]);
      assert ws[1..] == [map[dp := v2]];
      assert MergeAll(o.pending, ws) == MergeAll(once, [map[dp := v2]]);
      assert MergeAll(once, [map[dp := v2]]) == MergeAll(twice, []);
    }
    SleepingWritesAccumulate(o, ws);
    LaterWriteWins(o, dp, v1, v2);
    var queued := Outbox(twice, o.sent);
    assert twice == Merge(o.pending, map[dp := v2]);
    MergeNonEmpty(o.pending, map[dp := v2]);
    assert AfterConnect(queued, []) == SendPending(queued, true);
  }
}
