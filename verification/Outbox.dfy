/** The webhook outbox table: its statements (internal/adapter/postgres/queries/webhook_event.sql) and one dispatcher's
    tick (internal/usecases/notify/webhook_dispatcher/usecase.go). */
module Outbox {
  import opened Query
  import Backoff

  type EventKey = nat
  type Time = int

  datatype Row = Row(attempts: nat, nextAttemptAt: Time, deliveredAt: Option<Time>, createdAt: Time)

  type Table = map<EventKey, Row>

  /** The lease of a claim: `Timeout*2 + 30s`, in nanoseconds. */
  function Lease(c: Backoff.Config): int {
    c.timeout * 2 + 30_000_000_000
  }

  function Enqueue(t: Table, id: EventKey, now: Time): Table {
    if id in t then t else t[id := Row(0, now, None, now)]
  }

  predicate Claimable(t: Table, id: EventKey, now: Time, maxAttempts: int) {
    id in t && t[id].deliveredAt.None? && t[id].nextAttemptAt <= now && t[id].attempts < maxAttempts
  }

  function Due(t: Table, now: Time, maxAttempts: int): set<EventKey> {
    set id: EventKey | id in t && Claimable(t, id, now, maxAttempts)
  }

  /** The order of the claim query: the longest overdue first. */
  function DueAt(t: Table): EventKey -> int {
    (id: EventKey) => if id in t then t[id].nextAttemptAt else 0
  }

  /** The UPDATE of a claim, on the rows its inner SELECT locked. */
  function Claim(t: Table, ids: seq<EventKey>, now: Time, lease: int): Table {
    map id | id in t ::
      if id in ids then t[id].(attempts := t[id].attempts + 1, nextAttemptAt := now + lease) else t[id]
  }

  function MarkDelivered(t: Table, id: EventKey, now: Time): Table {
    if id in t then t[id := t[id].(deliveredAt := Some(now))] else t
  }

  function MarkFailed(t: Table, id: EventKey, now: Time, backoff: int): Table {
    if id in t then t[id := t[id].(nextAttemptAt := now + backoff)] else t
  }

  predicate Prunable(r: Row, now: Time, retention: int, maxAttempts: int) {
    || (r.deliveredAt.Some? && r.deliveredAt.value < now - retention)
    || (r.deliveredAt.None? && r.attempts >= maxAttempts && r.createdAt < now - retention)
  }

  function Prune(t: Table, now: Time, retention: int, maxAttempts: int): Table {
    map id | id in t && !Prunable(t[id], now, retention, maxAttempts) :: t[id]
  }

  datatype Verdict = Delivered | Failed | Exhausted

  /** How the receiver and the clock behaved for one event of a batch. */
  datatype Delivery = Delivery(accepted: bool, at: Time)

  /** The counts of a tick. */
  datatype Counts = Counts(delivered: nat, failed: nat, exhausted: nat)

  /** What a delivery made of a claimed row: a taken event is marked and keeps its place, a refused one is due again
      after the delay of the attempt the claim counted. */
  predicate Handled(c: Backoff.Config, claimed: Row, after: Row, d: Delivery) {
    && after.attempts == claimed.attempts && after.createdAt == claimed.createdAt
    && (d.accepted ==> after.deliveredAt == Some(d.at) && after.nextAttemptAt == claimed.nextAttemptAt)
    && (!d.accepted ==>
          after.deliveredAt == None && Backoff.Delays(c, claimed.attempts, after.nextAttemptAt - d.at))
  }

  /** The rows of the events in `done` are settled, all others untouched. */
  ghost predicate Progress(c: Backoff.Config, start: Table, rows: Table, done: seq<EventKey>,
      how: EventKey -> Delivery) {
    && rows.Keys == start.Keys
    && (forall id | id in rows && id !in done :: rows[id] == start[id])
    && (forall id | id in done :: id in rows && Handled(c, start[id], rows[id], how(id)))
  }

  lemma ProgressNext(c: Backoff.Config, start: Table, rows: Table, next: Table, done: seq<EventKey>, id: EventKey,
                     how: EventKey -> Delivery)
    requires Progress(c, start, rows, done, how) && id in rows && id !in done
    requires next.Keys == rows.Keys && forall o | o in rows && o != id :: next[o] == rows[o]
    requires Handled(c, rows[id], next[id], how(id))
    ensures Progress(c, start, next, done + [id], how)
  {
    hide Handled;
  }

  /** What is still to be delivered is as it was claimed. */
  lemma Untouched(c: Backoff.Config, start: Table, rows: Table, done: seq<EventKey>, id: EventKey,
                  how: EventKey -> Delivery)
    requires Progress(c, start, rows, done, how) && id in start && id !in done
    ensures id in rows && rows[id] == start[id] && rows.Keys == start.Keys
  {
  }

  lemma FirstSeen(batch: seq<EventKey>, k: nat)
    requires NoDuplicates(batch) && k < |batch|
    ensures batch[k] in batch && batch[k] !in batch[..k] && batch[..k + 1] == batch[..k] + [batch[k]]
  {
  }

  lemma NothingDone(c: Backoff.Config, start: Table, how: EventKey -> Delivery)
    ensures Progress(c, start, start, [], how)
  {
  }

  class Store {
    var rows: Table

    constructor ()
      ensures rows == map[]
    {
      rows := map[];
    }

    /** The due events, the longest overdue first, at most `batch`; claimed in the same statement, which counts an
        attempt and leases the event, and touches nothing else. */
    method ClaimDue(now: Time, lease: int, maxAttempts: int, batch: nat) returns (ids: seq<EventKey>)
      modifies this
      ensures NoDuplicates(ids)
      ensures forall id | id in ids ::
                && id in old(rows) && old(rows)[id].deliveredAt.None? && old(rows)[id].nextAttemptAt <= now
                && old(rows)[id].attempts < maxAttempts
      ensures |ids| == Min(batch, |set id: EventKey | id in old(rows) && old(rows)[id].deliveredAt.None?
                                                     && old(rows)[id].nextAttemptAt <= now
                                                     && old(rows)[id].attempts < maxAttempts|)
      ensures forall k, id | 0 <= k < |ids| && ids[k] in old(rows) && id in old(rows) && id !in ids
                             && old(rows)[id].deliveredAt.None? && old(rows)[id].nextAttemptAt <= now
                             && old(rows)[id].attempts < maxAttempts ::
                old(rows)[ids[k]].nextAttemptAt <= old(rows)[id].nextAttemptAt
      ensures rows.Keys == old(rows).Keys
      ensures forall id | id in rows ::
                rows[id] == if id in ids
                            then old(rows)[id].(attempts := old(rows)[id].attempts + 1, nextAttemptAt := now + lease)
                            else old(rows)[id]
      ensures rows == Claim(old(rows), ids, now, lease)
    {
      var due := Due(rows, now, maxAttempts);
      assert due == set id: EventKey | id in rows && rows[id].deliveredAt.None? && rows[id].nextAttemptAt <= now
                                       && rows[id].attempts < maxAttempts;
      ids := TakeLowest(due, DueAt(rows), batch);
      rows := Claim(rows, ids, now, lease);
    }

    /** One event, sent and its outcome stored; `attempt` is the number the claim gave it. */
    method DeliverOne(c: Backoff.Config, id: EventKey, attempt: int, d: Delivery) returns (v: Verdict)
      modifies this
      ensures v == if d.accepted then Delivered else if attempt >= c.maxAttempts then Exhausted else Failed
      ensures rows == if d.accepted then MarkDelivered(old(rows), id, d.at)
                      else MarkFailed(old(rows), id, d.at, Backoff.Delay(c, attempt))
      ensures rows.Keys == old(rows).Keys && forall o | o in rows && o != id :: rows[o] == old(rows)[o]
      ensures Backoff.Accepted(c) && id in rows && old(rows)[id].deliveredAt.None?
              && attempt == old(rows)[id].attempts ==>
                Handled(c, old(rows)[id], rows[id], d)
    {
      hide Backoff.Accepted, Backoff.Delay, Backoff.Delays;
      if Backoff.Accepted(c) {
        Backoff.DelayDelays(c, attempt);
      }
      if d.accepted {
        if id in rows {
          rows := rows[id := rows[id].(deliveredAt := Some(d.at))];
        }
        return Delivered;
      }
      if id in rows {
        rows := rows[id := rows[id].(nextAttemptAt := d.at + Backoff.Delay(c, attempt))];
      }
      return if attempt >= c.maxAttempts then Exhausted else Failed;
    }

    /** The claimed events, each sent and settled; the order does not matter, they are different rows. An event is given
        up for exhausted when the receiver refuses the last attempt it is allowed. */
    method Deliver(c: Backoff.Config, batch: seq<EventKey>, how: EventKey -> Delivery) returns (counts: Counts)
      requires Backoff.Accepted(c) && NoDuplicates(batch)
      requires forall id | id in batch :: id in rows && rows[id].deliveredAt.None?
      modifies this
      ensures Progress(c, old(rows), rows, batch, how)
      ensures counts.delivered + counts.failed + counts.exhausted == |batch|
      ensures counts.delivered == |Taken(batch, how)|
      ensures counts.exhausted == |GivenUp(c, old(rows), batch, how)|
    {
      hide Backoff.Accepted, Backoff.Delay, Handled, MarkDelivered, MarkFailed, Progress;
      counts := Counts(0, 0, 0);
      NobodyYet(c, rows, how);
      NothingDone(c, rows, how);
      hide NoDuplicates, Taken, GivenUp;
      var k := 0;
      while k < |batch|
        invariant 0 <= k <= |batch|
        invariant Progress(c, old(rows), rows, batch[..k], how)
        invariant counts.delivered + counts.failed + counts.exhausted == k
        invariant counts.delivered == |Taken(batch[..k], how)|
        invariant counts.exhausted == |GivenUp(c, old(rows), batch[..k], how)|
      {
        var id := batch[k];
        FirstSeen(batch, k);
        ghost var before := rows;
        Untouched(c, old(rows), rows, batch[..k], id, how);
        var v := DeliverOne(c, id, rows[id].attempts, how(id));
        ProgressNext(c, old(rows), before, rows, batch[..k], id, how);
        match v {
          case Delivered => counts := counts.(delivered := counts.delivered + 1);
          case Exhausted => counts := counts.(exhausted := counts.exhausted + 1);
          case Failed => counts := counts.(failed := counts.failed + 1);
        }
        OneMore(c, old(rows), batch[..k], id, how);
        k := k + 1;
      }
      assert batch[..k] == batch;
    }

    /** One drain: prune, claim a batch of what is due then, the longest overdue first, deliver it, tally. What is past
        its retention leaves, and nothing else: a delivered event so long after its delivery, an undelivered one so long
        after it was queued if its attempts are used up. */
    method Execute(c: Backoff.Config, enabled: bool, now: Time, how: EventKey -> Delivery)
      returns (counts: Counts, batch: seq<EventKey>, ghost kept: Table)
      requires Backoff.Accepted(c)
      modifies this
      ensures kept.Keys <= old(rows).Keys && forall id | id in kept :: kept[id] == old(rows)[id]
      ensures forall id | id in old(rows) :: id !in kept <==>
                var r := old(rows)[id];
                if r.deliveredAt.Some? then r.deliveredAt.value + c.retention < now
                else r.attempts >= c.maxAttempts && r.createdAt + c.retention < now
      ensures !enabled ==> batch == [] && rows == kept
      ensures enabled ==>
                && c.batch > 0
                && |batch| == Min(c.batch, |set id: EventKey | id in kept && kept[id].deliveredAt.None?
                                                               && kept[id].nextAttemptAt <= now
                                                               && kept[id].attempts < c.maxAttempts|)
      ensures NoDuplicates(batch)
      ensures forall id | id in batch ::
                && id in kept && kept[id].deliveredAt.None? && kept[id].nextAttemptAt <= now
                && kept[id].attempts < c.maxAttempts
      ensures forall k, id | 0 <= k < |batch| && batch[k] in kept && id in kept && id !in batch
                             && kept[id].deliveredAt.None? && kept[id].nextAttemptAt <= now
                             && kept[id].attempts < c.maxAttempts ::
                kept[batch[k]].nextAttemptAt <= kept[id].nextAttemptAt
      ensures rows.Keys == kept.Keys && forall id | id in kept && id !in batch :: rows[id] == kept[id]
      ensures forall id | id in batch ::
                id in rows && id in kept
                && Handled(c, kept[id].(attempts := kept[id].attempts + 1,
                                        nextAttemptAt := now + 2 * c.timeout + 30_000_000_000), rows[id], how(id))
      ensures counts.delivered + counts.failed + counts.exhausted == |batch|
      ensures counts.delivered == |set id: EventKey | id in batch && how(id).accepted|
      ensures counts.exhausted == |set id: EventKey | id in batch && id in kept && !how(id).accepted
                                                      && kept[id].attempts + 1 >= c.maxAttempts|
    {
      rows := Prune(rows, now, c.retention, c.maxAttempts);
      kept := rows;
      counts, batch := Counts(0, 0, 0), [];
      if !enabled {
        return;
      }
      hide Backoff.Accepted, Prune, Handled;
      assert c.batch > 0 by { AcceptedBatch(c); }
      batch := ClaimDue(now, Lease(c), c.maxAttempts, c.batch);
      ghost var claimed := rows;
      counts := Deliver(c, batch, how);
      GivenUpAsKept(c, kept, claimed, batch, how);
    }
  }

  /** The events of a batch the receiver took. */
  function Taken(batch: seq<EventKey>, how: EventKey -> Delivery): set<EventKey> {
    set id: EventKey | id in batch && how(id).accepted
  }

  /** The events of a batch whose last allowed attempt, by the count of the claim, the receiver refused. */
  function GivenUp(c: Backoff.Config, claimed: Table, batch: seq<EventKey>, how: EventKey -> Delivery): set<EventKey> {
    set id: EventKey | id in batch && id in claimed && !how(id).accepted && claimed[id].attempts >= c.maxAttempts
  }

  lemma NobodyYet(c: Backoff.Config, claimed: Table, how: EventKey -> Delivery)
    ensures |Taken([], how)| == 0 && |GivenUp(c, claimed, [], how)| == 0
  {
  }

  lemma OneMore(c: Backoff.Config, claimed: Table, done: seq<EventKey>, id: EventKey, how: EventKey -> Delivery)
    requires id in claimed && id !in done
    ensures |Taken(done + [id], how)| == |Taken(done, how)| + if how(id).accepted then 1 else 0
    ensures |GivenUp(c, claimed, done + [id], how)| ==
              |GivenUp(c, claimed, done, how)|
              + if !how(id).accepted && claimed[id].attempts >= c.maxAttempts then 1 else 0
  {
    OneMoreTaken(done, id, how);
    if !how(id).accepted && claimed[id].attempts >= c.maxAttempts {
      assert GivenUp(c, claimed, done + [id], how) == GivenUp(c, claimed, done, how) + {id};
    } else {
      assert GivenUp(c, claimed, done + [id], how) == GivenUp(c, claimed, done, how);
    }
  }

  lemma OneMoreTaken(done: seq<EventKey>, id: EventKey, how: EventKey -> Delivery)
    requires id !in done
    ensures |Taken(done + [id], how)| == |Taken(done, how)| + if how(id).accepted then 1 else 0
  {
    if how(id).accepted {
      assert Taken(done + [id], how) == Taken(done, how) + {id};
    } else {
      assert Taken(done + [id], how) == Taken(done, how);
    }
  }

  lemma GivenUpAsKept(c: Backoff.Config, kept: Table, claimed: Table, batch: seq<EventKey>, how: EventKey -> Delivery)
    requires forall id | id in batch :: id in kept && id in claimed && claimed[id].attempts == kept[id].attempts + 1
    ensures GivenUp(c, claimed, batch, how) ==
              set id: EventKey | id in batch && id in kept && !how(id).accepted
                                 && kept[id].attempts + 1 >= c.maxAttempts
  {
  }

  lemma AcceptedBatch(c: Backoff.Config)
    requires Backoff.Accepted(c)
    ensures c.batch > 0
  {
  }

  /** A queued event is due at once; one queued already is left alone, as are all others. */
  lemma QueuedIsDue(t: Table, id: EventKey, now: Time, maxAttempts: int)
    requires maxAttempts > 0
    ensures var after := Enqueue(t, id, now);
            && after.Keys == t.Keys + {id} && (forall o | o in t :: after[o] == t[o])
            && (id !in t ==>
                  && after[id].deliveredAt == None && after[id].attempts == 0 && after[id].createdAt == now
                  && id in Due(after, now, maxAttempts))
  {
  }
}
