/** The matching service as it runs: lookups, then one transaction on the store, rolled back as a whole on error
    (internal/service/matching/matching.go); and the expirer's sweep
    (internal/usecases/invoices/invoice_expirer/usecase.go). */
module Service {
  import opened Domain
  import opened Query
  import opened Tables
  import opened Matching
  import opened Ledger
  import opened Rows
  import opened Interference
  import opened Store
  import Holds

  datatype Verdict = Ok(result: Result) | Err(error: Error)

  function Reply(a: Answer): Verdict {
    match a
    case Done(result, _) => Ok(result)
    case Failed(error) => Err(error)
  }

  lemma LookupsExist(db: Db, x: Observed) returns (l: Lookups)
    ensures LookupsOk(db, x, l)
    ensures l.asset.Some? && l.invoice.Some? ==> l.invoice.value in db.invoices
  {
    l := Lookups(None, None);
    if a :| a in db.assets && IsAsset(db, x.ref.network, x.contract, a) {
      var found := AnswerExists(db, a, x.value);
      l := Lookups(Some(a), found);
    }
  }

  lemma AnswerExists(db: Db, a: AssetId, amount: int) returns (found: Option<InvoiceId>)
    ensures FoundInvoice(db, a, amount, found)
  {
    var rows := set i: InvoiceId | i in db.invoices && Claims(db, a, amount, i);
    assert forall i :: Claims(db, a, amount, i) <==> i in rows;
    hide Claims;
    found := None;
    if rows != {} {
      var rank: InvoiceId -> int := i => if i in db.invoices then -db.invoices[i].createdAt else 0;
      LowestExists(rows, rank);
      var i :| i in rows && forall o :: o in rows ==> rank(i) <= rank(o);
      assert forall j :: j in rows ==> rank(i) <= rank(j) && db.invoices[j].createdAt == -rank(j);
      found := Some(i);
    }
  }

  /** The transaction, case by case. */
  lemma CreditCases(cfg: Config, db: Db, x: Observed, asset: AssetId, id: InvoiceId, seen: Invoice, ev: EventId)
    ensures var a := CreditTx(cfg, db, x, asset, id, seen, ev);
            var target := if x.final then Confirmed else Detected;
            var same := Result(Unchanged, Some(id), Some(seen.status), None);
            var ins := InsertPayment(db, PaymentOf(x, asset, id));
            var db1 := if ins.PaymentCreated? then ins.db else db;
            var moved := UpdateInvoiceStatus(db1, id, seen.status, target, seen.confirmations,
                                             if target == Confirmed then Some(db.now) else None, db.now + cfg.hold);
            && (ins.LiveInvoiceTaken? ==> a == Failed(AlreadyExists))
            && (!ins.LiveInvoiceTaken? ==>
                  && (seen.status == target || !Transition(seen.status, target) || moved.None? ==> a == Done(same, db1))
                  && (seen.status != target && Transition(seen.status, target) && moved.Some? ==>
                        a == Done(Result(Credited, Some(id), Some(target), None),
                                  Enqueue(cfg, moved.value, Event(ev, id, KindFor(target), target)))))
  {
    hide InsertPayment, UpdateInvoiceStatus, Transition, Enqueue;
  }

  /** The rows a credit leaves and what its caller is told. */
  ghost predicate CreditedAs(cfg: Config, db: Db, after: Db, x: Observed, asset: AssetId, id: InvoiceId, seen: Invoice,
                             ev: EventId, verdict: Verdict)
  {
    && CreditRows(cfg, db, after, x, asset, id, seen, ev)
    && verdict == if Blocked(db, x, id) then Err(AlreadyExists) else Ok(CreditResult(db, x, id, seen))
  }

  lemma TransactionCreditsAs(cfg: Config, db: Db, x: Observed, asset: AssetId, id: InvoiceId, seen: Invoice,
                             ev: EventId)
    ensures var a := CreditTx(cfg, db, x, asset, id, seen, ev);
            CreditedAs(cfg, db, After(db, a), x, asset, id, seen, ev, Reply(a))
  {
    CreditWritesRows(cfg, db, x, asset, id, seen, ev);
    CreditAnswers(cfg, db, x, asset, id, seen, ev);
    hide CreditTx, CreditRows, Blocked, CreditResult;
  }

  class Service {
    const store: Store
    const cfg: Config

    constructor (store: Store, cfg: Config)
      ensures this.store == store && this.cfg == cfg
    {
      this.store, this.cfg := store, cfg;
    }

    /** Records a transfer and moves its invoice, or files the transfer. `others` is what everybody else does between
        the lookups and the transaction. */
    method Apply(x: Observed, others: seq<Move>, ev: EventId) returns (verdict: Verdict, ghost found: Lookups)
      requires Linked(store.View())
      modifies store
      ensures LookupsOk(old(store.View()), x, found)
      ensures found.asset.Some? && found.invoice.Some? ==> found.invoice.value in old(store.View()).invoices
      ensures var db := RunOutside(cfg, old(store.View()), x.ref.network, others);
              var a := Finish(cfg, db, Read(old(store.View()), x, found), ev);
              verdict == Reply(a) && store.View() == After(db, a)
      ensures store.cursors == old(store.cursors)
    {
      found := LookupsExist(store.View(), x);
      if x.value <= 0 {
        store.Interfere(cfg, x.ref.network, others);
        return Err(NotPositive), found;
      }
      if x.ref in store.payments && IsLive(store.payments[x.ref]) {
        var existing := store.payments[x.ref];
        store.Interfere(cfg, x.ref.network, others);
        if !x.final {
          return Ok(Result(Unchanged, existing.invoice, None, None)), found;
        }
        verdict := Settle(existing, ev);
        return;
      }
      var asset := store.GetAssetByContract(x.ref.network, x.contract);
      if asset.None? {
        found := Lookups(None, None);
        store.Interfere(cfg, x.ref.network, others);
        verdict := FileAsOrphan(x, None, UnknownAsset);
        return;
      }
      var id := store.FindInvoiceForAmount(asset.value, x.value);
      found := Lookups(asset, id);
      if id.None? {
        store.Interfere(cfg, x.ref.network, others);
        verdict := FileAsOrphan(x, asset, NoInvoice);
        return;
      }
      var invoice := store.invoices[id.value];
      store.Interfere(cfg, x.ref.network, others);
      if IsTerminal(invoice.status) {
        verdict := FileAsOrphan(x, asset, InvoiceTerminal);
        return;
      }
      verdict := CreditInvoice(x, asset.value, id.value, invoice, ev);
    }

    method FileAsOrphan(x: Observed, asset: Option<AssetId>, reason: OrphanReason) returns (verdict: Verdict)
      modifies store
      ensures var a := Finish(cfg, old(store.View()), FileOrphan(x, asset, reason), 0);
              verdict == Reply(a) && store.View() == After(old(store.View()), a)
      ensures store.cursors == old(store.cursors)
    {
      store.RecordOrphan(x.ref, OrphanOf(x, asset, reason));
      verdict := Ok(Result(Orphaned, None, None, Some(reason)));
    }

    method EnqueueInTx(e: Event)
      modifies store
      ensures store.View() == Enqueue(cfg, old(store.View()), e)
      ensures store.cursors == old(store.cursors)
    {
      if cfg.notify {
        store.EnqueueWebhook(e);
      }
    }

    /** The payment, the status change and the notification, or nothing: an invoice that another live payment has
        already paid keeps the transfer out. */
    method CreditInvoice(x: Observed, asset: AssetId, id: InvoiceId, seen: Invoice, ev: EventId)
      returns (verdict: Verdict)
      modifies store
      ensures CreditedAs(cfg, old(store.View()), store.View(), x, asset, id, seen, ev, verdict)
      ensures var a := CreditTx(cfg, old(store.View()), x, asset, id, seen, ev);
              verdict == Reply(a) && store.View() == After(old(store.View()), a)
      ensures store.cursors == old(store.cursors)
    {
      TransactionCreditsAs(cfg, store.View(), x, asset, id, seen, ev);
      CreditCases(cfg, store.View(), x, asset, id, seen, ev);
      hide CreditTx, Transition, UpdateInvoiceStatus, CreditedAs, InsertPayment, PaymentOf, Enqueue;
      var target := if x.final then Confirmed else Detected;
      var result := Result(Unchanged, Some(id), Some(seen.status), None);

      var begin := store.View();
      var recorded := RecordInTx(x, asset, id);
      if recorded.LiveInvoiceTaken? {
        store.Restore(begin);
        return Err(AlreadyExists);
      }
      if seen.status == target || !Transition(seen.status, target) {
        return Ok(result);
      }
      var moved := MoveInTx(id, seen, target, ev);
      if moved {
        result := Result(Credited, Some(id), Some(target), None);
      }
      return Ok(result);
    }

    /** The payment's half of a credit. */
    method RecordInTx(x: Observed, asset: AssetId, id: InvoiceId) returns (r: InsertPaymentResult)
      modifies store
      ensures r == InsertPayment(old(store.View()), PaymentOf(x, asset, id))
      ensures store.View() == if r.PaymentCreated? then r.db else old(store.View())
      ensures store.now == old(store.now) && store.cursors == old(store.cursors)
    {
      hide InsertPayment;
      r := store.RecordPayment(PaymentOf(x, asset, id));
    }

    /** The invoice's half of a credit: the status change and its notice, if the invoice is still as it was read. */
    method MoveInTx(id: InvoiceId, seen: Invoice, target: Status, ev: EventId) returns (moved: bool)
      modifies store
      ensures var r := UpdateInvoiceStatus(old(store.View()), id, seen.status, target, seen.confirmations,
                                           if target == Confirmed then Some(old(store.now)) else None,
                                           old(store.now) + cfg.hold);
              && moved == r.Some?
              && store.View() == if moved then Enqueue(cfg, r.value, Event(ev, id, KindFor(target), target))
                                 else old(store.View())
      ensures store.cursors == old(store.cursors)
    {
      hide UpdateInvoiceStatus, Enqueue;
      var paidAt := if target == Confirmed then Some(store.now) else None;
      moved := store.TransitionInvoice(id, seen.status, target, seen.confirmations, paidAt, store.now + cfg.hold);
      if moved {
        EnqueueInTx(Event(ev, id, KindFor(target), target));
      }
    }

    /** Confirms the open invoice of a live payment. */
    method Settle(p: Payment, ev: EventId) returns (verdict: Verdict)
      modifies store
      ensures SettleRows(cfg, old(store.View()), store.View(), p, ev)
      ensures var a := SettleTx(cfg, old(store.View()), p, ev);
              verdict == Reply(a) && store.View() == After(old(store.View()), a)
      ensures store.cursors == old(store.cursors)
    {
      SettleWritesRows(cfg, store.View(), p, ev);
      hide SettleRows;
      if p.invoice.None? || !IsLive(p) {
        return Ok(Result(Unchanged, None, None, None));
      }
      var id := p.invoice.value;
      var begin := store.View();
      if id !in store.invoices {
        return Err(InvoiceNotFound);
      }
      var inv := store.invoices[id];
      var result := Result(Unchanged, Some(id), Some(inv.status), None);
      if inv.status == Confirmed || !Transition(inv.status, Confirmed) {
        return Ok(result);
      }
      var moved := store.TransitionInvoice(id, inv.status, Confirmed, inv.confirmations, Some(store.now),
                                           store.now + cfg.hold);
      if moved {
        if inv.asset !in store.assets {
          store.Restore(begin);
          return Err(AssetNotFound);
        }
        EnqueueInTx(Event(ev, id, EventConfirmed, Confirmed));
        result := Result(Credited, Some(id), Some(Confirmed), None);
      }
      return Ok(result);
    }

    /** Withdraws a live payment and hands its detected invoice back. */
    method Revoke(r: Ref, ev: EventId) returns (verdict: Verdict)
      modifies store
      ensures Linked(old(store.View())) ==>
                verdict.Ok? && RevokeRows(cfg, old(store.View()), store.View(), r, ev)
      ensures var a := RevokeTx(cfg, old(store.View()), r, ev);
              verdict == Reply(a) && store.View() == After(old(store.View()), a)
      ensures store.cursors == old(store.cursors)
    {
      if Linked(store.View()) {
        RevokeWritesRows(cfg, store.View(), r, ev);
      }
      hide Linked, RevokeRows;
      verdict := Ok(Result(Unchanged, None, None, None));
      if r !in store.payments || !IsLive(store.payments[r]) {
        return;
      }
      var payment := store.payments[r];
      var begin := store.View();
      store.MarkRemoved(r);
      if payment.invoice.None? {
        return;
      }
      var id := payment.invoice.value;
      if id !in store.invoices {
        store.Restore(begin);
        return Err(InvoiceNotFound);
      }
      var inv := store.invoices[id];
      if inv.status != Detected {
        return;
      }
      var moved := store.TransitionInvoice(id, Detected, Pending, 0, None, inv.holdUntil);
      if moved {
        if inv.asset !in store.assets {
          store.Restore(begin);
          return Err(AssetNotFound);
        }
        EnqueueInTx(Event(ev, id, EventReverted, Pending));
      }
    }

    /** The expirer's tick: overdue pending invoices end, at most `batch` of them and earliest deadline first; then
        every run-out hold is freed, `others` having acted in between. What this sweep expires keeps its amount until
        the hold has passed. */
    method Sweep(batch: nat, others: seq<Move>)
      returns (expired: seq<InvoiceId>, freed: nat, ghost ended: Db, ghost mid: Db)
      modifies store
      ensures |expired| == Min(batch, |set i: InvoiceId | i in old(store.invoices)
                                                          && old(store.invoices)[i].status == Pending
                                                          && old(store.invoices)[i].expiresAt < old(store.now)|)
      ensures NoDuplicates(expired)
      ensures forall i | i in expired ::
                && i in old(store.invoices) && old(store.invoices)[i].status == Pending
                && old(store.invoices)[i].expiresAt < old(store.now)
      ensures forall i, j | i in expired && i in old(store.invoices) && j in old(store.invoices) && j !in expired
                            && old(store.invoices)[j].status == Pending
                            && old(store.invoices)[j].expiresAt < old(store.now) ::
                old(store.invoices)[i].expiresAt <= old(store.invoices)[j].expiresAt
      ensures ended == old(store.View()).(invoices := ended.invoices)
      ensures ended.invoices.Keys == old(store.invoices).Keys
      ensures forall i | i in old(store.invoices) ::
                ended.invoices[i] ==
                  if i in expired
                  then old(store.invoices)[i].(status := Expired, holdUntil := Max(old(store.invoices)[i].holdUntil,
                                                                                   ended.now + cfg.hold))
                  else old(store.invoices)[i]
      ensures mid == RunAnybody(cfg, ended, others)
      ensures store.View() == mid.(invoices := store.invoices) && store.invoices.Keys == mid.invoices.Keys
      ensures forall i | i in mid.invoices ::
                store.invoices[i] ==
                  if IsTerminal(mid.invoices[i].status) && mid.invoices[i].holdUntil <= mid.now
                  then mid.invoices[i].(held := false) else mid.invoices[i]
      ensures freed == |HeldIn(mid.invoices)| - |HeldIn(store.invoices)|
      ensures forall i | i in expired ::
                && i in store.invoices && store.invoices[i].status == Expired && i in old(store.invoices)
                && (old(store.invoices)[i].held && !store.invoices[i].held ==> store.now >= old(store.now) + cfg.hold)
      ensures store.cursors == old(store.cursors)
    {
      hide RunAnybody, ExpirePending, ReleaseHolds, Releasable;
      expired := store.ExpireBatch(cfg.hold, batch);
      ended := store.View();
      store.Disturb(cfg, others);
      mid := store.View();
      forall i | i in expired ensures i in ended.invoices && KeepsHold(ended, mid, i) {
        AnybodyKeepsHold(cfg, ended, others, i);
      }
      hide KeepsHold, Max;
      freed := store.ReleaseExpiredHolds();
      forall i | i in expired
        ensures i in store.invoices && store.invoices[i].status == Expired
        ensures ended.invoices[i].held && !store.invoices[i].held ==> store.now >= ended.now + cfg.hold
      {
        ReleasedAfterHold(ended, mid, store.View(), i, ended.now + cfg.hold);
      }
    }
  }

  /** An ended invoice keeps its status and its hold, and its amount until the hold is over. */
  predicate KeepsHold(db: Db, after: Db, i: InvoiceId)
    requires i in db.invoices
  {
    && i in after.invoices && db.now <= after.now
    && after.invoices[i].status == db.invoices[i].status && after.invoices[i].holdUntil == db.invoices[i].holdUntil
    && (db.invoices[i].held && !after.invoices[i].held ==> db.invoices[i].holdUntil <= after.now)
  }

  lemma ReleasedAfterHold(ended: Db, mid: Db, after: Db, i: InvoiceId, until: Time)
    requires i in ended.invoices && KeepsHold(ended, mid, i)
    requires ended.invoices[i].status == Expired && ended.invoices[i].holdUntil >= until
    requires i in after.invoices && after.now == mid.now
    requires after.invoices[i] == if IsTerminal(mid.invoices[i].status) && mid.invoices[i].holdUntil <= mid.now
                                  then mid.invoices[i].(held := false) else mid.invoices[i]
    ensures after.invoices[i].status == Expired
    ensures ended.invoices[i].held && !after.invoices[i].held ==> after.now >= until
  {
  }

  lemma {:induction false} AnybodyKeepsHold(cfg: Config, db: Db, script: seq<Move>, i: InvoiceId)
    requires i in db.invoices && IsTerminal(db.invoices[i].status)
    ensures KeepsHold(db, RunAnybody(cfg, db, script), i)
    decreases |script|
  {
    if script != [] {
      var next := if Admissible(db, script[0]) then Perform(cfg, db, script[0]) else db;
      Holds.EveryStepHolds(cfg, db, script[0]);
      hide Perform, Admissible;
      AnybodyKeepsHold(cfg, next, script[1..], i);
    }
  }
}
