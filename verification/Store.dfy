/** The tables as the state they are: each method is one statement, applied in place
    (internal/adapter/postgres). */
module Store {
  import opened Domain
  import opened Query
  import opened Tables
  import opened Matching
  import opened Ledger
  import opened Rows
  import opened Interference

  /** How far a network's watcher has scanned; it uses one of the two positions. */
  datatype Cursor = Cursor(lastBlock: nat, lastTimestamp: Time)

  /** Go's zero instant, before every real one. */
  const ZERO_TIME: Time := 0

  lemma InBlocksAreRows(db: Db, n: Network, lo: int, hi: int)
    ensures forall r | AwaitingInBlocks(db, n, lo, hi, r) :: r in db.payments && db.payments[r].block.Some?
  {
  }

  /** The payments of a network that wait for finality. */
  function Waiting(db: Db, n: Network): set<Ref> {
    set r | r in db.payments && Awaiting(db, n, r)
  }

  lemma WaitingMeans(db: Db, n: Network)
    ensures forall r :: r in Waiting(db, n) <==>
              && r in db.payments && r.network == n && db.payments[r].removedAt.None? && db.payments[r].invoice.Some?
              && db.payments[r].invoice.value in db.invoices
              && db.invoices[db.payments[r].invoice.value].status == Detected
  {
  }

  /** `out` is an answer of ListPaymentsAwaitingConfirmation: waiting payments, none twice, oldest first, as many as the
      batch allows, and nothing older left out. */
  ghost predicate OldestWaiting(db: Db, n: Network, batch: nat, out: seq<Payment>) {
    && |out| == Min(batch, |Waiting(db, n)|)
    && (forall k | 0 <= k < |out| :: out[k].ref in Waiting(db, n) && db.payments[out[k].ref] == out[k])
    && (forall j, k | 0 <= j < k < |out| :: out[j].ref != out[k].ref && out[j].blockTime <= out[k].blockTime)
    && (forall r | r in Waiting(db, n) && db.payments[r] !in out ::
          |out| == batch && forall k | 0 <= k < |out| :: out[k].blockTime <= db.payments[r].blockTime)
  }

  lemma LeftOutMeansFull(rows: set<Ref>, rank: Ref -> int, batch: nat, refs: seq<Ref>, r: Ref)
    requires Answers(rows, rank, batch, refs) && r in rows && r !in refs
    ensures |refs| == batch && forall k | 0 <= k < |refs| :: rank(refs[k]) <= rank(r)
  {
    if |rows| <= batch {
      AnswersEveryRow(rows, rank, batch, refs);
    }
  }

  function RowsAt(table: map<Ref, Payment>, refs: seq<Ref>): (out: seq<Payment>)
    requires forall k | 0 <= k < |refs| :: refs[k] in table
    ensures |out| == |refs| && forall k | 0 <= k < |refs| :: out[k] == table[refs[k]]
  {
    seq(|refs|, k requires 0 <= k < |refs| => table[refs[k]])
  }

  lemma RowsAreOldest(db: Db, n: Network, batch: nat, rank: Ref -> int, refs: seq<Ref>)
    requires Answers(Waiting(db, n), rank, batch, refs)
    requires forall r | r in db.payments :: db.payments[r].ref == r && rank(r) == db.payments[r].blockTime
    ensures forall k | 0 <= k < |refs| :: refs[k] in db.payments
    ensures OldestWaiting(db, n, batch, RowsAt(db.payments, refs))
  {
    hide Awaiting;
    assert forall k | 0 <= k < |refs| :: refs[k] in refs;
    var out := RowsAt(db.payments, refs);
    forall r | r in Waiting(db, n)
      ensures db.payments[r] in out
              || (|out| == batch && forall k | 0 <= k < |out| :: out[k].blockTime <= db.payments[r].blockTime)
    {
      if r in refs {
        var k :| 0 <= k < |refs| && refs[k] == r;
        assert out[k] == db.payments[r];
      } else {
        LeftOutMeansFull(Waiting(db, n), rank, batch, refs, r);
      }
    }
  }

  /** `cp_payments_live_invoice_key`. */
  ghost predicate AtMostOneLive(db: Db) {
    forall q, r, i :: LiveOn(db, q, i) && LiveOn(db, r, i) ==> q == r
  }

  /** The invoices whose amounts are reserved. */
  function HeldIn(table: map<InvoiceId, Invoice>): set<InvoiceId> {
    set i: InvoiceId | i in table && table[i].held
  }

  lemma ReleasedRows(db: Db, rows: set<InvoiceId>)
    requires forall i :: i in rows <==> Releasable(db, i)
    ensures |HeldIn(db.invoices)| - |HeldIn(ReleaseHolds(db).invoices)| == |rows|
    ensures forall i :: !Releasable(ReleaseHolds(db), i)
  {
    assert HeldIn(db.invoices) == HeldIn(ReleaseHolds(db).invoices) + rows;
  }

  lemma OverdueMeans(db: Db, rows: set<InvoiceId>)
    requires forall i :: i in rows <==> i in db.invoices && Overdue(db, i)
    ensures rows == set i: InvoiceId | i in db.invoices && db.invoices[i].status == Pending
                                       && db.invoices[i].expiresAt < db.now
    ensures forall i :: i in rows <==>
              i in db.invoices && db.invoices[i].status == Pending && db.invoices[i].expiresAt < db.now
  {
  }

  lemma ExpiredRows(db: Db, ids: seq<InvoiceId>, hold: Time)
    requires forall i | i in ids :: i in db.invoices && Overdue(db, i)
    ensures var after := ExpirePending(db, (set i: InvoiceId | i in ids), hold);
            && after == db.(invoices := after.invoices) && after.invoices.Keys == db.invoices.Keys
            && forall i | i in db.invoices ::
                 after.invoices[i] == if i in ids
                                      then db.invoices[i].(status := Expired,
                                                           holdUntil := Max(db.invoices[i].holdUntil, db.now + hold))
                                      else db.invoices[i]
  {
  }

  lemma ReleasedMeans(db: Db, rows: set<InvoiceId>)
    requires forall i :: i in rows <==> Releasable(db, i)
    ensures forall i | i in db.invoices ::
              ReleaseHolds(db).invoices[i] == if IsTerminal(db.invoices[i].status) && db.invoices[i].holdUntil <= db.now
                                              then db.invoices[i].(held := false) else db.invoices[i]
    ensures ReleaseHolds(db) == db.(invoices := map i | i in db.invoices ::
                                                  if i in rows then db.invoices[i].(held := false) else db.invoices[i])
  {
  }

  lemma NewestClaims(db: Db, asset: AssetId, amount: int, rows: set<InvoiceId>, rank: InvoiceId -> int,
                     newest: seq<InvoiceId>)
    requires forall i :: i in rows <==> Claims(db, asset, amount, i)
    requires forall i | i in db.invoices :: rank(i) == -db.invoices[i].createdAt
    requires Answers(rows, rank, 1, newest)
    ensures newest == [] ==> rows == {}
    ensures newest != [] ==>
              && newest[0] in rows && newest[0] in db.invoices
              && forall i | i in rows ::
                   i in db.invoices && db.invoices[i].createdAt <= db.invoices[newest[0]].createdAt
    ensures FoundInvoice(db, asset, amount, if newest == [] then None else Some(newest[0]))
  {
    if newest != [] {
      assert newest[0] in newest;
      assert forall j :: j in newest ==> j == newest[0];
    }
  }

  lemma InsertOutcomes(db: Db, id: InvoiceId, row: NewInvoice)
    ensures AmountHeld(db, row.asset, row.pay) <==>
              exists i :: i in db.invoices && db.invoices[i].held && db.invoices[i].asset == row.asset
                          && db.invoices[i].pay == row.pay
    ensures ExternalIdUsed(db, row.externalId) <==>
              row.externalId.Some? && exists i :: i in db.invoices && db.invoices[i].externalId == row.externalId
  {
    forall i | i in db.invoices && db.invoices[i].held && db.invoices[i].asset == row.asset
               && db.invoices[i].pay == row.pay
      ensures HoldsAmount(db, i, row.asset, row.pay)
    {
    }
  }

  class Store {
    var now: Time
    var assets: map<AssetId, Asset>
    var invoices: map<InvoiceId, Invoice>
    var payments: map<Ref, Payment>
    var orphans: map<Ref, Orphan>
    var events: seq<Event>
    var cursors: map<Network, Cursor>

    /** The ledger tables as a value; cursors are kept apart. */
    function View(): Db
      reads this
    {
      Db(now, assets, invoices, payments, orphans, events)
    }

    constructor (start: Time)
      ensures View() == Db(start, map[], map[], map[], map[], []) && cursors == map[]
    {
      now, assets, invoices, payments, orphans, events, cursors := start, map[], map[], map[], map[], [], map[];
    }

    /** ROLLBACK to the state a transaction began in. */
    method Restore(db: Db)
      modifies this
      ensures View() == db && cursors == old(cursors)
    {
      now, assets, invoices, payments, orphans, events :=
        db.now, db.assets, db.invoices, db.payments, db.orphans, db.events;
    }

    /** Everything anybody does before the next statement of somebody who is no watcher. */
    method Disturb(cfg: Config, script: seq<Move>)
      modifies this
      ensures View() == RunAnybody(cfg, old(View()), script) && cursors == old(cursors)
    {
      var k := 0;
      while k < |script|
        invariant 0 <= k <= |script|
        invariant RunAnybody(cfg, View(), script[k..]) == RunAnybody(cfg, old(View()), script)
        invariant cursors == old(cursors)
      {
        if Admissible(View(), script[k]) {
          Restore(Perform(cfg, View(), script[k]));
        }
        assert script[k..][1..] == script[k + 1..];
        k := k + 1;
      }
    }

    /** Everything other actors do before this watcher's next statement. */
    method Interfere(cfg: Config, n: Network, script: seq<Move>)
      modifies this
      ensures View() == RunOutside(cfg, old(View()), n, script) && cursors == old(cursors)
    {
      var k := 0;
      while k < |script|
        invariant 0 <= k <= |script|
        invariant RunOutside(cfg, View(), n, script[k..]) == RunOutside(cfg, old(View()), n, script)
        invariant cursors == old(cursors)
      {
        if Outside(View(), n, script[k]) {
          Restore(Perform(cfg, View(), script[k]));
        }
        assert script[k..][1..] == script[k + 1..];
        k := k + 1;
      }
    }

    // ---------------------------------------------------------------- payments

    /** Insert-once: a row on record is never touched, the same transfer never gets a second one, and a second live
        payment on one invoice is refused, so invoices with at most one live payment stay that way. */
    method RecordPayment(p: Payment) returns (r: InsertPaymentResult)
      modifies this`payments
      ensures r.PaymentKnown? <==> p.ref in old(payments)
      ensures r.LiveInvoiceTaken? <==>
                && p.ref !in old(payments) && p.invoice.Some?
                && exists q :: q in old(payments) && old(payments)[q].removedAt.None?
                               && old(payments)[q].invoice == p.invoice
      ensures p.ref in payments <==> !r.LiveInvoiceTaken?
      ensures forall q | q in old(payments) :: q in payments && payments[q] == old(payments)[q]
      ensures forall q | q in payments && q !in old(payments) :: r.PaymentCreated? && q == p.ref && payments[q] == p
      ensures r == InsertPayment(old(View()), p) && View() == if r.PaymentCreated? then r.db else old(View())
      ensures AtMostOneLive(old(View())) ==> AtMostOneLive(View())
    {
      if p.ref in payments {
        return PaymentKnown;
      }
      if p.invoice.Some? && exists q | q in payments :: LiveOn(View(), q, p.invoice.value) {
        return LiveInvoiceTaken;
      }
      ghost var before := View();
      if p.invoice.Some? {
        assert forall q | q in payments && payments[q].removedAt.None? && payments[q].invoice == p.invoice ::
            LiveOn(before, q, p.invoice.value);
      }
      payments := payments[p.ref := p];
      forall q, i: InvoiceId | LiveOn(View(), q, i)
        ensures if q == p.ref then p.invoice == Some(i) else LiveOn(before, q, i)
      {}
      return PaymentCreated(View());
    }

    /** The withdrawal is stamped once: an earlier stamp stays, and no other field or row is touched. */
    method MarkRemoved(r: Ref)
      modifies this`payments
      ensures payments.Keys == old(payments).Keys
      ensures forall q | q in payments ::
                payments[q] == if q == r && old(payments)[q].removedAt.None?
                               then old(payments)[q].(removedAt := Some(now)) else old(payments)[q]
      ensures View() == MarkPaymentRemoved(old(View()), r)
    {
      if r in payments {
        var at := if payments[r].removedAt.Some? then payments[r].removedAt.value else now;
        payments := payments[r := payments[r].(removedAt := Some(at))];
      }
    }

    /** Insert-once, as for payments. */
    method RecordOrphan(r: Ref, o: Orphan)
      modifies this`orphans
      ensures orphans.Keys == old(orphans).Keys + {r}
      ensures forall q | q in orphans :: orphans[q] == if q in old(orphans) then old(orphans)[q] else o
      ensures View() == InsertOrphan(old(View()), r, o)
    {
      if r !in orphans {
        orphans := orphans[r := o];
      }
    }

    /** Payments credited to an invoice that is not settled yet, the oldest `batch` of them. */
    method ListAwaiting(n: Network, batch: nat) returns (out: seq<Payment>)
      requires forall r | r in payments :: payments[r].ref == r
      ensures OldestWaiting(View(), n, batch, out)
      ensures forall r :: r in Waiting(View(), n) <==>
                && r in payments && r.network == n && payments[r].removedAt.None? && payments[r].invoice.Some?
                && payments[r].invoice.value in invoices && invoices[payments[r].invoice.value].status == Detected
    {
      WaitingMeans(View(), n);
      hide Awaiting, OldestWaiting;
      var table := payments;
      var rank: Ref -> int := r => if r in table then table[r].blockTime else 0;
      var refs := TakeLowest(Waiting(View(), n), rank, batch);
      RowsAreOldest(View(), n, batch, rank, refs);
      out := RowsAt(table, refs);
    }

    /** The same, restricted to a block range and complete. */
    method ListLiveInBlockRange(n: Network, lo: int, hi: int) returns (out: seq<Payment>)
      requires forall r | r in payments :: payments[r].ref == r
      ensures forall k | 0 <= k < |out| ::
                AwaitingInBlocks(View(), n, lo, hi, out[k].ref) && payments[out[k].ref] == out[k]
      ensures forall r | AwaitingInBlocks(View(), n, lo, hi, r) :: exists k :: 0 <= k < |out| && out[k].ref == r
      ensures forall j, k | 0 <= j < k < |out| :: out[j].ref != out[k].ref
    {
      var table := payments;
      hide AwaitingInBlocks;
      InBlocksAreRows(View(), n, lo, hi);
      var rows := set r | r in payments && AwaitingInBlocks(View(), n, lo, hi, r);
      var rank: Ref -> int := r => if r in table && table[r].block.Some? then table[r].block.value else 0;
      var refs := TakeLowest(rows, rank, |rows|);
      AnswersEveryRow(rows, rank, |rows|, refs);
      assert forall k | 0 <= k < |refs| :: refs[k] in rows;
      out := RowsAt(table, refs);
      forall r | AwaitingInBlocks(View(), n, lo, hi, r) ensures exists k :: 0 <= k < |out| && out[k].ref == r {
        assert r in rows && r in refs;
        var k :| 0 <= k < |refs| && refs[k] == r;
        assert out[k].ref == r;
      }
    }

    // ---------------------------------------------------------------- invoices

    /** The keys and checks are tried in the order of the statement; the row is the one asked for, or there is none. */
    method InsertInvoiceRow(id: InvoiceId, row: NewInvoice) returns (r: InsertInvoiceResult)
      modifies this`invoices
      ensures r.Refused? <==>
                id in old(invoices) || row.asset !in assets || row.base <= 0 || row.pay <= 0 || row.nonce < 0
      ensures r.AmountTaken? <==>
                && !r.Refused?
                && exists i :: i in old(invoices) && old(invoices)[i].held && old(invoices)[i].asset == row.asset
                               && old(invoices)[i].pay == row.pay
      ensures r.ExternalIdTaken? <==>
                && !r.Refused? && !r.AmountTaken? && row.externalId.Some?
                && exists i :: i in old(invoices) && old(invoices)[i].externalId == row.externalId
      ensures invoices.Keys == old(invoices).Keys + if r.InvoiceCreated? then {id} else {}
      ensures forall i | i in old(invoices) :: invoices[i] == old(invoices)[i]
      ensures r.InvoiceCreated? ==> AsAsked(invoices[id], row, assets[row.asset], now)
      ensures r == InsertInvoice(old(View()), id, row)
      ensures View() == if r.InvoiceCreated? then r.db else old(View())
    {
      InsertOutcomes(View(), id, row);
      r := InsertInvoice(View(), id, row);
      if r.InvoiceCreated? {
        invoices := invoices[id := Invoice(row.externalId, row.asset, assets[row.asset].network, row.base, row.pay,
                                           row.nonce, Pending, 0, now, row.expiresAt, true, row.holdUntil, None)];
      }
    }

    /** A compare-and-set on the status. A payment time on record is kept when none is given, and a hold is only ever
        extended. */
    method TransitionInvoice(id: InvoiceId, from: Status, to: Status, confirmations: int, paidAt: Option<Time>,
                             holdUntil: Time) returns (ok: bool)
      modifies this`invoices
      ensures ok <==> id in old(invoices) && old(invoices)[id].status == from
      ensures invoices.Keys == old(invoices).Keys
      ensures forall i | i in invoices && !(ok && i == id) :: invoices[i] == old(invoices)[i]
      ensures ok ==>
                var was, row := old(invoices)[id], invoices[id];
                && row.status == to && row.confirmations == confirmations
                && (paidAt.Some? ==> row.paidAt == paidAt) && (paidAt.None? ==> row.paidAt == was.paidAt)
                && row.holdUntil >= was.holdUntil && row.holdUntil >= holdUntil
                && row.holdUntil in {was.holdUntil, holdUntil}
                && SameIssue(was, row) && row.held == was.held
      ensures var r := UpdateInvoiceStatus(old(View()), id, from, to, confirmations, paidAt, holdUntil);
              ok == r.Some? && View() == if ok then r.value else old(View())
    {
      ok := id in invoices && invoices[id].status == from;
      if ok {
        var inv := invoices[id];
        invoices := invoices[id := inv.(
          status := to,
          confirmations := confirmations,
          paidAt := if paidAt.Some? then paidAt else inv.paidAt,
          holdUntil := Max(inv.holdUntil, holdUntil))];
      }
    }

    /** The cancel use case: one compare-and-set, with the hold counted from now. Nothing but the status and the hold of
        this one row is written. */
    method Cancel(cfg: Config, id: InvoiceId) returns (ok: bool)
      modifies this`invoices
      ensures ok <==> id in old(invoices) && old(invoices)[id].status == Pending
      ensures invoices.Keys == old(invoices).Keys
      ensures forall i | i in invoices ::
                invoices[i] == if ok && i == id
                               then old(invoices)[i].(status := Cancelled, holdUntil := now + cfg.hold)
                               else old(invoices)[i]
      ensures View() == Perform(cfg, old(View()), Move.Cancel(id))
    {
      ok := id in invoices && invoices[id].status == Pending;
      if ok {
        invoices := invoices[id := invoices[id].(status := Cancelled, holdUntil := now + cfg.hold)];
      }
    }

    /** ExpirePendingInvoices: the batch is the earliest overdue pending invoices. These end, their amounts held from
        now; nothing else of them is written, and nothing of any other row. */
    method ExpireBatch(hold: Time, batch: nat) returns (ids: seq<InvoiceId>)
      modifies this`invoices
      ensures |ids| == Min(batch, |set i: InvoiceId | i in old(invoices) && old(invoices)[i].status == Pending
                                                      && old(invoices)[i].expiresAt < now|)
      ensures NoDuplicates(ids)
      ensures forall i | i in ids ::
                i in old(invoices) && old(invoices)[i].status == Pending && old(invoices)[i].expiresAt < now
      ensures forall i, j | i in ids && i in old(invoices) && j in old(invoices) && j !in ids
                            && old(invoices)[j].status == Pending && old(invoices)[j].expiresAt < now ::
                old(invoices)[i].expiresAt <= old(invoices)[j].expiresAt
      ensures invoices.Keys == old(invoices).Keys
      ensures forall i | i in invoices ::
                invoices[i] == if i in ids
                               then old(invoices)[i].(status := Expired,
                                                      holdUntil := Max(old(invoices)[i].holdUntil, now + hold))
                               else old(invoices)[i]
      ensures View() == ExpirePending(old(View()), (set i: InvoiceId | i in ids), hold)
    {
      hide Overdue, ExpirePending;
      var table := invoices;
      var rows := set i: InvoiceId | i in invoices && Overdue(View(), i);
      OverdueMeans(View(), rows);
      var rank: InvoiceId -> int := i => if i in table then table[i].expiresAt else 0;
      ids := TakeLowest(rows, rank, batch);
      forall i, j | i in ids && j in rows && j !in ids ensures rank(i) <= rank(j) {
        var k :| 0 <= k < |ids| && ids[k] == i;
      }
      ExpiredRows(View(), ids, hold);
      var db := ExpirePending(View(), (set i: InvoiceId | i in ids), hold);
      invoices := db.invoices;
    }

    /** Frees the amounts that need not wait any longer: afterwards nothing is left to free, nothing else has changed,
        and the count is by how many the held amounts have become fewer. */
    method ReleaseExpiredHolds() returns (freed: nat)
      modifies this`invoices
      ensures invoices.Keys == old(invoices).Keys
      ensures forall i | i in invoices ::
                invoices[i] == if IsTerminal(old(invoices)[i].status) && old(invoices)[i].holdUntil <= now
                               then old(invoices)[i].(held := false) else old(invoices)[i]
      ensures View() == ReleaseHolds(old(View()))
      ensures forall i :: !Releasable(View(), i)
      ensures freed == |HeldIn(old(invoices))| - |HeldIn(invoices)|
    {
      var db := View();
      var rows := set i: InvoiceId | i in invoices && Releasable(db, i);
      ReleasedRows(db, rows);
      ReleasedMeans(db, rows);
      hide Releasable, ReleaseHolds;
      invoices := map i | i in invoices :: if i in rows then invoices[i].(held := false) else invoices[i];
      freed := |rows|;
    }

    /** The newest held invoice of the asset whose window, from its pay amount up to the step, holds the amount. */
    method FindInvoiceForAmount(asset: AssetId, amount: int) returns (found: Option<InvoiceId>)
      ensures found.Some? ==> found.value in invoices
      ensures forall i | i in invoices && invoices[i].asset == asset && invoices[i].held && asset in assets
                         && invoices[i].pay <= amount < invoices[i].pay + assets[asset].step ::
                found.Some? && invoices[i].createdAt <= invoices[found.value].createdAt
      ensures found.Some? ==>
                var inv := invoices[found.value];
                inv.asset == asset && inv.held && asset in assets && inv.pay <= amount < inv.pay + assets[asset].step
      ensures FoundInvoice(View(), asset, amount, found)
    {
      var table := invoices;
      var rows := set i: InvoiceId | i in invoices && Claims(View(), asset, amount, i);
      assert rows == set i: InvoiceId | i in invoices && invoices[i].asset == asset && invoices[i].held
                                        && asset in assets
                                        && invoices[i].pay <= amount < invoices[i].pay + assets[asset].step;
      var rank: InvoiceId -> int := i => if i in table then -table[i].createdAt else 0;
      var newest := TakeLowest(rows, rank, 1);
      found := if newest == [] then None else Some(newest[0]);
      NewestClaims(View(), asset, amount, rows, rank, newest);
      hide Claims, FoundInvoice, Answers;
      forall i | i in rows ensures found.Some? && invoices[i].createdAt <= invoices[found.value].createdAt {}
    }

    /** Disabled assets are found too. */
    method GetAssetByContract(n: Network, contract: string) returns (found: Option<AssetId>)
      ensures found.None? ==> forall a | a in assets :: assets[a].network != n || assets[a].contract != contract
      ensures found.Some? ==>
                found.value in assets && assets[found.value].network == n && assets[found.value].contract == contract
      ensures FoundAsset(View(), n, contract, found)
    {
      if a :| a in assets && IsAsset(View(), n, contract, a) {
        found := Some(a);
      } else {
        found := None;
      }
    }

    // ---------------------------------------------------------------- outbox

    /** The event is appended, unless one of its id is queued already. */
    method EnqueueWebhook(e: Event)
      modifies this`events
      ensures (exists k :: 0 <= k < |old(events)| && old(events)[k].id == e.id) ==> events == old(events)
      ensures (forall k | 0 <= k < |old(events)| :: old(events)[k].id != e.id) ==> events == old(events) + [e]
      ensures View() == EnqueueEvent(old(View()), e)
    {
      if !exists k | 0 <= k < |events| :: events[k].id == e.id {
        events := events + [e];
      }
    }

    // ---------------------------------------------------------------- cursors

    /** A watcher that has never run is at position zero. */
    function GetCursor(n: Network): Cursor
      reads this
    {
      if n in cursors then cursors[n] else Cursor(0, ZERO_TIME)
    }

    /** UpsertChainCursor: no position of any network is ever lower than before, this network's are at least what was
        asked for, and no further. */
    method SaveCursor(n: Network, lastBlock: nat, lastTimestamp: Time)
      modifies this`cursors
      ensures cursors.Keys == old(cursors).Keys + {n}
      ensures forall m | m in old(cursors) ::
                && cursors[m].lastBlock >= old(cursors)[m].lastBlock
                && cursors[m].lastTimestamp >= old(cursors)[m].lastTimestamp
      ensures cursors[n].lastBlock >= lastBlock && cursors[n].lastTimestamp >= lastTimestamp
      ensures n !in old(cursors) ==> cursors[n] == Cursor(lastBlock, lastTimestamp)
      ensures n in old(cursors) ==>
                && cursors[n].lastBlock in {lastBlock, old(cursors)[n].lastBlock}
                && cursors[n].lastTimestamp in {lastTimestamp, old(cursors)[n].lastTimestamp}
      ensures forall m | m in old(cursors) && m != n :: cursors[m] == old(cursors)[m]
    {
      var next := Cursor(lastBlock, lastTimestamp);
      if n in cursors {
        next := Cursor(Max(cursors[n].lastBlock, lastBlock), Max(cursors[n].lastTimestamp, lastTimestamp));
      }
      cursors := cursors[n := next];
    }

    /** RewindChainCursor: goes back `depth` blocks and no more, or to zero if there are not as many; nothing to rewind
        before the first run, and neither the time nor any other network is touched. */
    method RewindCursor(n: Network, depth: nat)
      modifies this`cursors
      ensures cursors.Keys == old(cursors).Keys
      ensures forall m | m in cursors && m != n :: cursors[m] == old(cursors)[m]
      ensures n in cursors ==>
                && cursors[n].lastTimestamp == old(cursors)[n].lastTimestamp
                && cursors[n].lastBlock <= old(cursors)[n].lastBlock <= cursors[n].lastBlock + depth
                && (cursors[n].lastBlock > 0 ==> cursors[n].lastBlock + depth == old(cursors)[n].lastBlock)
    {
      if n in cursors {
        cursors := cursors[n := cursors[n].(lastBlock := Max(0, cursors[n].lastBlock - depth))];
      }
    }
  }
}
