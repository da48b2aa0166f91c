/** What every reachable state says of its rows: payment times, identifiers, notices and where an invoice came from. */
module RowsDuringRuns {
  import opened Domain
  import opened Query
  import opened Tables
  import opened Matching
  import opened Ledger
  import opened Rows
  import opened Runs
  import Holds

  // ------------------------------------------------------------------ payment times

  /** What one step does to payment times: an invoice is stamped when it is confirmed, and not otherwise. */
  ghost predicate Stamps(db: Db, after: Db) {
    forall i | i in after.invoices ::
      && after.invoices[i].confirmations == 0
      && if i !in db.invoices then after.invoices[i].status == Pending && after.invoices[i].paidAt == None
         else if after.invoices[i].status == Confirmed && db.invoices[i].status != Confirmed
         then !IsTerminal(db.invoices[i].status) && after.invoices[i].paidAt == Some(after.now)
         else after.invoices[i].paidAt == db.invoices[i].paidAt
              && (db.invoices[i].status == Confirmed ==> after.invoices[i].status == Confirmed)
  }

  ghost predicate Uncounted(db: Db) {
    forall i | i in db.invoices :: db.invoices[i].confirmations == 0
  }

  lemma CreditStamps(cfg: Config, db: Db, x: Observed, asset: AssetId, id: InvoiceId, seen: Invoice, ev: EventId)
    requires Uncounted(db) && seen.confirmations == 0
    ensures Stamps(db, After(db, CreditTx(cfg, db, x, asset, id, seen, ev)))
  {
    CreditWritesRows(cfg, db, x, asset, id, seen, ev);
    hide CreditTx, Blocked, PaymentWritten, Notified;
  }

  lemma SettleStamps(cfg: Config, db: Db, p: Payment, ev: EventId)
    requires Uncounted(db)
    ensures Stamps(db, After(db, SettleTx(cfg, db, p, ev)))
  {
    SettleWritesRows(cfg, db, p, ev);
    hide SettleTx, Notified;
  }

  lemma RevokeStamps(cfg: Config, db: Db, r: Ref, ev: EventId)
    requires Uncounted(db) && Linked(db)
    ensures Stamps(db, After(db, RevokeTx(cfg, db, r, ev)))
  {
    RevokeWritesRows(cfg, db, r, ev);
    hide RevokeTx, Notified;
  }

  lemma StepStamps(cfg: Config, db: Db, m: Move)
    requires Uncounted(db) && Linked(db)
    requires m.Decide? && m.decision.Credit? ==> m.decision.seen.confirmations == 0
    ensures Stamps(db, Perform(cfg, db, m))
  {
    hide CreditTx, SettleTx, RevokeTx, AmountHeld, ExternalIdUsed, Linked;
    match m
    case Decide(Credit(x, asset, id, seen), ev) => CreditStamps(cfg, db, x, asset, id, seen, ev);
    case Decide(Reapply(p, _), ev) => SettleStamps(cfg, db, p, ev);
    case Settle(r, ev) => if r in db.payments { SettleStamps(cfg, db, db.payments[r], ev); }
    case Revoke(r, ev) => RevokeStamps(cfg, db, r, ev);
    case _ =>
  }

  /** An invoice has a payment time if and only if it is confirmed, and then it is when it ended; nothing counts
      confirmations in the row. */
  ghost predicate PaidWhenConfirmed(w: World) {
    forall i | i in w.db.invoices ::
      && w.db.invoices[i].confirmations == 0
      && (w.db.invoices[i].paidAt.Some? <==> w.db.invoices[i].status == Confirmed)
      && (w.db.invoices[i].status == Confirmed ==>
            i in w.endedAt && w.db.invoices[i].paidAt == Some(w.endedAt[i]))
  }

  ghost predicate SeenUncounted(w: World) {
    forall n | n in w.inFlight && w.inFlight[n].Credit? :: w.inFlight[n].seen.confirmations == 0
  }

  lemma LedgerIsSound(w: World)
    requires WorldOk(w)
    ensures Linked(w.db)
  {
  }

  lemma ConfirmedHaveEnded(cfg: Config, w: World)
    requires Holds.Booked(cfg, w)
    ensures forall i | i in w.db.invoices :: IsTerminal(w.db.invoices[i].status) <==> i in w.endedAt
  {
  }

  lemma StepKeepsPaid(cfg: Config, w: World, l: Label)
    requires WorldOk(w) && Holds.Booked(cfg, w) && PaidWhenConfirmed(w) && SeenUncounted(w)
    ensures PaidWhenConfirmed(Step(cfg, w, l)) && SeenUncounted(Step(cfg, w, l))
  {
    if Enabled(w, l) {
      match l
      case Begin(x, found) => hide LedgerOk, LookupsOk, Holds.Booked, StillSound;
      case Act(m) =>
        LedgerIsSound(w);
        ConfirmedHaveEnded(cfg, w);
        StepStamps(cfg, w.db, m);
        hide Perform, WorldOk, Holds.Booked;
    }
  }

  /** Over every run, an invoice has a payment time exactly when it is confirmed, and it is the time it ended. */
  lemma {:induction false} EveryRunPaysAtConfirmation(cfg: Config, start: Time, labels: seq<Label>)
    ensures PaidWhenConfirmed(Run(cfg, Initial(start), labels)) && SeenUncounted(Run(cfg, Initial(start), labels))
    decreases |labels|
  {
    if labels != [] {
      var front := labels[..|labels| - 1];
      EveryRunPaysAtConfirmation(cfg, start, front);
      EveryRunKeepsTheLedger(cfg, start, front);
      Holds.EveryRunBooks(cfg, start, front);
      hide Step, PaidWhenConfirmed, SeenUncounted, WorldOk, Holds.Booked;
      StepKeepsPaid(cfg, Run(cfg, Initial(start), front), labels[|labels| - 1]);
    }
  }

  // ------------------------------------------------------------------ identifiers and notices

  /** External ids name one invoice, event ids one event, and without a receiver nothing is queued. */
  ghost predicate Named(cfg: Config, db: Db) {
    && (forall i, j | i in db.invoices && j in db.invoices && db.invoices[i].externalId.Some?
                      && db.invoices[i].externalId == db.invoices[j].externalId :: i == j)
    && (forall j, k | 0 <= j < k < |db.events| :: db.events[j].id != db.events[k].id)
    && (!cfg.notify ==> db.events == [])
  }

  /** At most one event is new, under an id nobody has, and none without a receiver. */
  ghost predicate QueuesOne(cfg: Config, before: seq<Event>, after: seq<Event>) {
    || after == before
    || (cfg.notify && |after| == |before| + 1 && after[..|before|] == before
        && forall k | 0 <= k < |before| :: before[k].id != after[|before|].id)
  }

  lemma StepQueuesOne(cfg: Config, db: Db, m: Move)
    ensures QueuesOne(cfg, db.events, Perform(cfg, db, m).events)
  {
    hide CreditTx, SettleTx, RevokeTx, AmountHeld, ExternalIdUsed, QueuesOne;
    QueuesNone(cfg, db.events);
    match m
    case Decide(Credit(x, asset, id, seen), ev) => CreditQueuesOne(cfg, db, x, asset, id, seen, ev);
    case Decide(Reapply(p, _), ev) => SettleQueuesOne(cfg, db, p, ev);
    case Settle(r, ev) => if r in db.payments { SettleQueuesOne(cfg, db, db.payments[r], ev); }
    case Revoke(r, ev) => RevokeQueuesOne(cfg, db, r, ev);
    case _ =>
  }

  lemma QueuesNone(cfg: Config, events: seq<Event>)
    ensures QueuesOne(cfg, events, events)
  {
  }

  lemma CreditQueuesOne(cfg: Config, db: Db, x: Observed, asset: AssetId, id: InvoiceId, seen: Invoice, ev: EventId)
    ensures QueuesOne(cfg, db.events, After(db, CreditTx(cfg, db, x, asset, id, seen, ev)).events)
  {
    CreditWritesRows(cfg, db, x, asset, id, seen, ev);
    hide CreditTx, Blocked, PaymentWritten, MovedOn;
  }

  lemma SettleQueuesOne(cfg: Config, db: Db, p: Payment, ev: EventId)
    ensures QueuesOne(cfg, db.events, After(db, SettleTx(cfg, db, p, ev)).events)
  {
    SettleWritesRows(cfg, db, p, ev);
    hide SettleTx, MovedOn;
  }

  lemma RevokeQueuesOne(cfg: Config, db: Db, r: Ref, ev: EventId)
    ensures QueuesOne(cfg, db.events, After(db, RevokeTx(cfg, db, r, ev)).events)
  {
  }

  /** Nobody has the external id of a new row, and there is one new row at most. */
  ghost predicate NamesOne(db: Db, after: Db) {
    forall i, j | i in after.invoices && i !in db.invoices && j in after.invoices && i != j
                  && after.invoices[i].externalId.Some? ::
      after.invoices[i].externalId != after.invoices[j].externalId
  }

  lemma NamesKept(cfg: Config, db: Db, after: Db)
    requires Named(cfg, db) && NamesOne(db, after) && QueuesOne(cfg, db.events, after.events)
    requires forall i | i in db.invoices ::
               i in after.invoices && after.invoices[i].externalId == db.invoices[i].externalId
    ensures Named(cfg, after)
  {
    forall j, k | 0 <= j < k < |after.events| ensures after.events[j].id != after.events[k].id {
      if after.events != db.events {
        assert after.events[j] == after.events[..|db.events|][j];
        assert k < |db.events| ==> after.events[k] == after.events[..|db.events|][k];
      }
    }
  }

  lemma StepNamesOne(cfg: Config, db: Db, m: Move)
    ensures NamesOne(db, Perform(cfg, db, m))
    ensures forall i | i in db.invoices ::
              && i in Perform(cfg, db, m).invoices
              && Perform(cfg, db, m).invoices[i].externalId == db.invoices[i].externalId
  {
    NewRowsAreAskedFor(cfg, db, m);
    Holds.EveryStepHolds(cfg, db, m);
    hide Perform;
  }

  lemma StepKeepsNames(cfg: Config, w: World, l: Label)
    requires Named(cfg, w.db)
    ensures Named(cfg, Step(cfg, w, l).db)
  {
    if Enabled(w, l) && l.Act? {
      hide Perform, Named, NamesOne, QueuesOne;
      StepQueuesOne(cfg, w.db, l.move);
      StepNamesOne(cfg, w.db, l.move);
      NamesKept(cfg, w.db, Perform(cfg, w.db, l.move));
    }
  }

  /** Over every run. */
  lemma {:induction false} EveryRunKeepsNames(cfg: Config, start: Time, labels: seq<Label>)
    ensures Named(cfg, Run(cfg, Initial(start), labels).db)
    decreases |labels|
  {
    if labels != [] {
      var front := labels[..|labels| - 1];
      EveryRunKeepsNames(cfg, start, front);
      hide Step, Named;
      StepKeepsNames(cfg, Run(cfg, Initial(start), front), labels[|labels| - 1]);
    }
  }

  // ------------------------------------------------------------------ where an invoice came from

  lemma NewRowsAreAskedFor(cfg: Config, db: Db, m: Move)
    ensures forall i | i in Perform(cfg, db, m).invoices && i !in db.invoices ::
              && m.Create? && m.id == i && m.row.asset in db.assets
              && AsAsked(Perform(cfg, db, m).invoices[i], m.row, db.assets[m.row.asset], db.now)
              && (m.row.externalId.Some? ==>
                    forall j | j in db.invoices :: db.invoices[j].externalId != m.row.externalId)
  {
    hide CreditTx, SettleTx, RevokeTx, AmountHeld;
    match m
    case Decide(Credit(x, asset, id, seen), ev) =>
      CreditWritesRows(cfg, db, x, asset, id, seen, ev);
      hide Blocked, PaymentWritten, MovedOn, Notified;
    case Decide(Reapply(p, _), ev) => SettleKeepsRows(cfg, db, p, ev);
    case Settle(r, ev) => if r in db.payments { SettleKeepsRows(cfg, db, db.payments[r], ev); }
    case Revoke(r, ev) => RevokeKeepsRows(cfg, db, r, ev);
    case _ =>
  }

  lemma SettleKeepsRows(cfg: Config, db: Db, p: Payment, ev: EventId)
    ensures After(db, SettleTx(cfg, db, p, ev)).invoices.Keys == db.invoices.Keys
  {
  }

  lemma RevokeKeepsRows(cfg: Config, db: Db, r: Ref, ev: EventId)
    ensures After(db, RevokeTx(cfg, db, r, ev)).invoices.Keys == db.invoices.Keys
  {
  }

  /** At label `k` of the run, the row was asked for with these terms, and created then. */
  ghost predicate AskedAt(cfg: Config, start: Time, labels: seq<Label>, k: nat, i: InvoiceId, inv: Invoice) {
    && k < |labels| && labels[k].Act? && labels[k].move.Create? && labels[k].move.id == i
    && var row := labels[k].move.row;
       && inv.externalId == row.externalId && inv.asset == row.asset && inv.base == row.base && inv.pay == row.pay
       && inv.nonce == row.nonce && inv.expiresAt == row.expiresAt
       && inv.createdAt == Run(cfg, Initial(start), labels[..k]).db.now
  }

  lemma AskedEarlier(cfg: Config, start: Time, labels: seq<Label>, l: Label, k: nat, i: InvoiceId, was: Invoice,
                     inv: Invoice)
    requires AskedAt(cfg, start, labels, k, i, was) && SameIssue(was, inv)
    ensures AskedAt(cfg, start, labels + [l], k, i, inv)
  {
    assert (labels + [l])[..k] == labels[..k];
  }

  /** Whatever happened since, an invoice's terms are those it was asked for with. */
  lemma {:induction false} EveryInvoiceWasAskedFor(cfg: Config, start: Time, labels: seq<Label>, i: InvoiceId)
    requires i in Run(cfg, Initial(start), labels).db.invoices
    ensures exists k :: AskedAt(cfg, start, labels, k, i, Run(cfg, Initial(start), labels).db.invoices[i])
    decreases |labels|
  {
    assert labels != [];
    var front, l := labels[..|labels| - 1], labels[|labels| - 1];
    var before := Run(cfg, Initial(start), front);
    var inv := Run(cfg, Initial(start), labels).db.invoices[i];
    assert labels == front + [l] && labels[..|front|] == front;
    if Enabled(before, l) && l.Act? {
      Holds.EveryStepHolds(cfg, before.db, l.move);
      NewRowsAreAskedFor(cfg, before.db, l.move);
      hide Perform;
    }
    if i in before.db.invoices {
      EveryInvoiceWasAskedFor(cfg, start, front, i);
      var k :| AskedAt(cfg, start, front, k, i, before.db.invoices[i]);
      AskedEarlier(cfg, start, front, l, k, i, before.db.invoices[i], inv);
    } else {
      assert AskedAt(cfg, start, labels, |front|, i, inv);
    }
  }
}
