/** What every step of the ledger keeps. */
module Ledger {
  import opened Domain
  import opened Query
  import opened Tables
  import opened Matching

  /** Foreign keys: an invoice names an asset of its own network, a payment an invoice of its own network. */
  ghost predicate Linked(db: Db) {
    && (forall i | i in db.invoices ::
          db.invoices[i].asset in db.assets && db.assets[db.invoices[i].asset].network == db.invoices[i].network)
    && (forall r | r in db.payments ::
          && db.payments[r].ref == r
          && (db.payments[r].invoice.Some? ==>
                && db.payments[r].invoice.value in db.invoices
                && db.invoices[db.payments[r].invoice.value].network == r.network))
  }

  /** At most one live payment per invoice, none on a pending one. */
  ghost predicate PaidOnce(db: Db) {
    && (forall r, q, i :: LiveOn(db, r, i) && LiveOn(db, q, i) ==> r == q)
    && (forall r, i :: LiveOn(db, r, i) ==> i in db.invoices && db.invoices[i].status != Pending)
  }

  /** Every invoice that may still be paid holds its amount, and no two invoices hold one amount of one asset. */
  ghost predicate AmountsHeld(db: Db) {
    && (forall i | i in db.invoices :: !IsTerminal(db.invoices[i].status) ==> db.invoices[i].held)
    && (forall i, j | i in db.invoices && j in db.invoices && db.invoices[i].held && db.invoices[j].held
                      && db.invoices[i].asset == db.invoices[j].asset && db.invoices[i].pay == db.invoices[j].pay ::
          i == j)
  }

  ghost predicate LedgerOk(db: Db) {
    Linked(db) && PaidOnce(db) && AmountsHeld(db)
  }

  /** What stays true of a decision between its reads and its transaction, given that only this watcher moves
      detected invoices and payments of its network. */
  predicate StillSound(db: Db, d: Decision) {
    match d
    case Reject(_) => true
    case FileOrphan(_, _, _) => true
    case Reapply(p, _) => p.ref in db.payments && db.payments[p.ref] == p && IsLive(p)
    case Credit(x, asset, id, seen) =>
      && !(x.ref in db.payments && IsLive(db.payments[x.ref]))
      && id in db.invoices
      && db.invoices[id].network == x.ref.network
      && db.invoices[id].asset == asset
      && x.value > 0
      && (seen.status == Pending || seen.status == Detected)
      && (seen.status == Detected ==> db.invoices[id].status == Detected)
      && (seen.status == Pending ==>
            var now := db.invoices[id].status;
            now == Pending || now == Expired || now == Cancelled)
  }

  lemma ReadIsSound(db: Db, x: Observed, l: Lookups)
    requires Linked(db) && LookupsOk(db, x, l)
    requires l.asset.Some? && l.invoice.Some? ==> l.invoice.value in db.invoices
    ensures StillSound(db, Read(db, x, l)) && NetworkOf(Read(db, x, l)) == x.ref.network
  {
  }

  // ------------------------------------------------------------------ the network a step belongs to

  /** The watcher a step is taken by, if any. */
  function Actor(m: Move): Option<Network> {
    match m
    case Decide(d, _) => Some(NetworkOf(d))
    case Settle(r, _) => Some(r.network)
    case Revoke(r, _) => Some(r.network)
    case _ => None
  }

  /** A watcher's transaction acts on a decision that is still sound. */
  predicate Admissible(db: Db, m: Move) {
    m.Decide? ==> StillSound(db, m.decision)
  }

  // ------------------------------------------------------------------ what every step leaves alone

  /** The facts about an invoice that are fixed when it is issued. */
  predicate SameIssue(a: Invoice, b: Invoice) {
    && a.externalId == b.externalId && a.asset == b.asset && a.network == b.network && a.base == b.base
    && a.pay == b.pay && a.nonce == b.nonce && a.createdAt == b.createdAt && a.expiresAt == b.expiresAt
  }

  /** One step forward: rows are never deleted, issues never edited, statuses only move along the table, a hold is
      cleared but never taken again, a payment is withdrawn once, an orphan and a queued event are forever. */
  ghost predicate Evolves(db: Db, after: Db) {
    && db.now <= after.now
    && (forall i | i in db.invoices ::
          && i in after.invoices
          && SameIssue(db.invoices[i], after.invoices[i])
          && Transition(db.invoices[i].status, after.invoices[i].status)
          && (after.invoices[i].held ==> db.invoices[i].held)
          && (db.invoices[i].paidAt.Some? ==> after.invoices[i].paidAt.Some?))
    && (forall r | r in db.payments ::
          && r in after.payments
          && after.payments[r] == db.payments[r].(removedAt := after.payments[r].removedAt)
          && (db.payments[r].removedAt.Some? ==> after.payments[r].removedAt == db.payments[r].removedAt))
    && (forall r | r in db.orphans :: r in after.orphans && after.orphans[r] == db.orphans[r])
    && db.events <= after.events
    && (forall a | a in db.assets ::
          && a in after.assets
          && after.assets[a].network == db.assets[a].network
          && after.assets[a].contract == db.assets[a].contract)
  }

  /** Evolution together with the invariants one statement keeps by itself. */
  ghost predicate Keeps(db: Db, after: Db) {
    && Evolves(db, after)
    && (Linked(db) ==> Linked(after))
    && (AmountsHeld(db) ==> AmountsHeld(after))
  }

  lemma KeepsItself(db: Db)
    ensures Keeps(db, db)
  {
  }

  lemma KeepsTransitive(a: Db, b: Db, c: Db)
    requires Keeps(a, b) && Keeps(b, c)
    requires forall i | i in a.invoices && i in b.invoices && i in c.invoices ::
               a.invoices[i].status == b.invoices[i].status || b.invoices[i].status == c.invoices[i].status
    ensures Keeps(a, c)
  {
    assert a.events <= c.events;
  }

  lemma InsertPaymentKeeps(db: Db, p: Payment)
    requires p.invoice.Some? ==> p.invoice.value in db.invoices && db.invoices[p.invoice.value].network == p.ref.network
    ensures InsertPayment(db, p).PaymentCreated? ==> Keeps(db, InsertPayment(db, p).db)
  {
  }

  lemma MarkPaymentRemovedKeeps(db: Db, r: Ref)
    ensures Keeps(db, MarkPaymentRemoved(db, r))
  {
  }

  lemma InsertOrphanKeeps(db: Db, r: Ref, o: Orphan)
    ensures Keeps(db, InsertOrphan(db, r, o))
  {
  }

  lemma UpdateInvoiceStatusKeeps(db: Db, id: InvoiceId, expected: Status, next: Status, confirmations: int,
                                 paidAt: Option<Time>, holdUntil: Time)
    requires Transition(expected, next)
    ensures var r := UpdateInvoiceStatus(db, id, expected, next, confirmations, paidAt, holdUntil);
            r.Some? ==> Keeps(db, r.value)
  {
    var r := UpdateInvoiceStatus(db, id, expected, next, confirmations, paidAt, holdUntil);
    if r.Some? {
      OneInvoiceMoved(db, r.value, id);
    }
  }

  /** Moving one invoice along the table, keeping what it was issued with, keeps the rest. */
  lemma OneInvoiceMoved(db: Db, after: Db, id: InvoiceId)
    requires id in db.invoices && id in after.invoices
    requires after == db.(invoices := db.invoices[id := after.invoices[id]])
    requires SameIssue(db.invoices[id], after.invoices[id]) && after.invoices[id].held == db.invoices[id].held
    requires Transition(db.invoices[id].status, after.invoices[id].status)
    requires db.invoices[id].paidAt.Some? ==> after.invoices[id].paidAt.Some?
    ensures Keeps(db, after)
  {
  }

  lemma EnqueueKeeps(cfg: Config, db: Db, e: Event)
    ensures Keeps(db, Enqueue(cfg, db, e))
  {
  }

  lemma InsertInvoiceKeeps(db: Db, id: InvoiceId, row: NewInvoice)
    ensures InsertInvoice(db, id, row).InvoiceCreated? ==> Keeps(db, InsertInvoice(db, id, row).db)
  {
  }

  lemma CancelKeeps(db: Db, id: InvoiceId, holdUntil: Time)
    ensures CancelInvoice(db, id, holdUntil).Some? ==> Keeps(db, CancelInvoice(db, id, holdUntil).value)
  {
    if CancelInvoice(db, id, holdUntil).Some? {
      OneInvoiceMoved(db, CancelInvoice(db, id, holdUntil).value, id);
    }
  }

  lemma ExpireKeeps(db: Db, batch: set<InvoiceId>, hold: Time)
    ensures Keeps(db, ExpirePending(db, batch, hold))
  {
  }

  lemma ReleaseKeeps(db: Db)
    ensures Keeps(db, ReleaseHolds(db))
  {
  }

  lemma TickKeeps(db: Db, elapsed: nat)
    ensures Keeps(db, db.(now := db.now + elapsed))
  {
  }

  lemma UpsertAssetKeeps(db: Db, a: AssetId, row: Asset)
    ensures Keeps(db, UpsertAsset(db, a, row))
  {
  }

  lemma CreditKeeps(cfg: Config, db: Db, x: Observed, asset: AssetId, id: InvoiceId, seen: Invoice, ev: EventId)
    requires StillSound(db, Credit(x, asset, id, seen))
    ensures Keeps(db, After(db, CreditTx(cfg, db, x, asset, id, seen, ev)))
  {
    hide Keeps;
    KeepsItself(db);
    var p := PaymentOf(x, asset, id);
    InsertPaymentKeeps(db, p);
    var ins := InsertPayment(db, p);
    var db1 := if ins.PaymentCreated? then ins.db else db;
    var target := if x.final then Confirmed else Detected;
    var moved := UpdateInvoiceStatus(db1, id, seen.status, target, seen.confirmations,
                                     if target == Confirmed then Some(db.now) else None, db.now + cfg.hold);
    if moved.Some? && Transition(seen.status, target) {
      UpdateInvoiceStatusKeeps(db1, id, seen.status, target, seen.confirmations,
                               if target == Confirmed then Some(db.now) else None, db.now + cfg.hold);
      var e := Event(ev, id, KindFor(target), target);
      EnqueueKeeps(cfg, moved.value, e);
      KeepsTransitive(db, db1, moved.value);
      KeepsTransitive(db, moved.value, Enqueue(cfg, moved.value, e));
    }
  }

  lemma SettleKeeps(cfg: Config, db: Db, p: Payment, ev: EventId)
    ensures Keeps(db, After(db, SettleTx(cfg, db, p, ev)))
  {
    hide Keeps;
    KeepsItself(db);
    if p.invoice.Some? && p.invoice.value in db.invoices && Transition(db.invoices[p.invoice.value].status, Confirmed) {
      var id := p.invoice.value;
      var inv := db.invoices[id];
      UpdateInvoiceStatusKeeps(db, id, inv.status, Confirmed, inv.confirmations, Some(db.now), db.now + cfg.hold);
      var moved := UpdateInvoiceStatus(db, id, inv.status, Confirmed, inv.confirmations, Some(db.now),
                                       db.now + cfg.hold);
      var e := Event(ev, id, EventConfirmed, Confirmed);
      EnqueueKeeps(cfg, moved.value, e);
      KeepsTransitive(db, moved.value, Enqueue(cfg, moved.value, e));
    }
  }

  lemma RevokeKeeps(cfg: Config, db: Db, r: Ref, ev: EventId)
    ensures Keeps(db, After(db, RevokeTx(cfg, db, r, ev)))
  {
    hide Keeps;
    KeepsItself(db);
    var db1 := MarkPaymentRemoved(db, r);
    MarkPaymentRemovedKeeps(db, r);
    if r in db.payments && db.payments[r].invoice.Some? && db.payments[r].invoice.value in db.invoices
       && db.invoices[db.payments[r].invoice.value].status == Detected
    {
      var id := db.payments[r].invoice.value;
      var hold := db.invoices[id].holdUntil;
      UpdateInvoiceStatusKeeps(db1, id, Detected, Pending, 0, None, hold);
      var moved := UpdateInvoiceStatus(db1, id, Detected, Pending, 0, None, hold);
      var e := Event(ev, id, EventReverted, Pending);
      EnqueueKeeps(cfg, moved.value, e);
      KeepsTransitive(db, db1, moved.value);
      KeepsTransitive(db, moved.value, Enqueue(cfg, moved.value, e));
    }
  }

  /** Every step evolves the database and keeps the foreign keys and the amount reservations. */
  lemma EveryStepKeeps(cfg: Config, db: Db, m: Move)
    requires Admissible(db, m)
    ensures Keeps(db, Perform(cfg, db, m))
  {
    hide Keeps;
    KeepsItself(db);
    match m
    case Create(id, row) => InsertInvoiceKeeps(db, id, row);
    case Cancel(id) => CancelKeeps(db, id, db.now + cfg.hold);
    case Expire(batch) => ExpireKeeps(db, batch, cfg.hold);
    case Release => ReleaseKeeps(db);
    case Tick(elapsed) => TickKeeps(db, elapsed);
    case Seed(a, row) => UpsertAssetKeeps(db, a, row);
    case Decide(d, ev) =>
      match d {
        case Reject(_) =>
        case Reapply(p, final) => SettleKeeps(cfg, db, p, ev);
        case FileOrphan(x, t, reason) => InsertOrphanKeeps(db, x.ref, OrphanOf(x, t, reason));
        case Credit(x, asset, id, seen) => CreditKeeps(cfg, db, x, asset, id, seen, ev);
      }
    case Settle(r, ev) => if r in db.payments { SettleKeeps(cfg, db, db.payments[r], ev); }
    case Revoke(r, ev) => RevokeKeeps(cfg, db, r, ev);
  }

  // ------------------------------------------------------------------ crediting exactly once

  /** What a committed credit wrote: the payment unless its row was there already, and at most one invoice row. */
  lemma CreditWrites(cfg: Config, db: Db, x: Observed, asset: AssetId, id: InvoiceId, seen: Invoice, ev: EventId)
    requires StillSound(db, Credit(x, asset, id, seen))
    ensures var after := After(db, CreditTx(cfg, db, x, asset, id, seen, ev));
            && (after.payments == db.payments
                || (x.ref !in db.payments && !HasLive(db, id)
                    && after.payments == db.payments[x.ref := PaymentOf(x, asset, id)]))
            && after.invoices.Keys == db.invoices.Keys
            && (forall i | i in db.invoices && i != id :: after.invoices[i] == db.invoices[i])
            && (after.invoices[id].status == db.invoices[id].status
                || after.invoices[id].status == if x.final then Confirmed else Detected)
            && (after.payments != db.payments ==> after.invoices[id].status != Pending)
  {
    hide HasLive, EnqueueEvent, Max;
    var ins := InsertPayment(db, PaymentOf(x, asset, id));
    if !ins.LiveInvoiceTaken? {
      var db1 := if ins.PaymentCreated? then ins.db else db;
      assert db1.invoices == db.invoices;
      hide InsertPayment;
    }
  }

  lemma CreditKeepsAssets(cfg: Config, db: Db, d: Decision, ev: EventId)
    requires d.Credit?
    ensures After(db, CreditTx(cfg, db, d.observed, d.asset, d.id, d.seen, ev)).assets == db.assets
  {
    hide HasLive, EnqueueEvent;
  }

  lemma AssetsComeFromSeeds(cfg: Config, db: Db, m: Move)
    ensures forall a | a in Perform(cfg, db, m).assets ::
              || (a in db.assets && Perform(cfg, db, m).assets[a] == db.assets[a])
              || (m.Seed? && m.asset == a && Perform(cfg, db, m).assets[a] == m.asset_row)
  {
    hide HasLive, EnqueueEvent, AmountHeld, ExternalIdUsed;
    if m.Decide? && m.decision.Credit? {
      CreditKeepsAssets(cfg, db, m.decision, m.ev);
      hide CreditTx;
    }
  }

  /** What a revocation wrote: the payment is withdrawn, and its invoice goes back to pending if it was detected. */
  lemma RevokeWrites(cfg: Config, db: Db, r: Ref, ev: EventId)
    requires Linked(db)
    ensures var after := After(db, RevokeTx(cfg, db, r, ev));
            if r in db.payments && IsLive(db.payments[r]) then
              && after.payments == db.payments[r := db.payments[r].(removedAt := Some(db.now))]
              && after.invoices.Keys == db.invoices.Keys
              && (forall i | i in db.invoices ::
                    after.invoices[i] ==
                      if db.payments[r].invoice == Some(i) && db.invoices[i].status == Detected
                      then db.invoices[i].(status := Pending, confirmations := 0) else db.invoices[i])
            else after == db
  {
  }

  /** What settling wrote: at most the invoice's promotion. */
  lemma SettleWrites(cfg: Config, db: Db, p: Payment, ev: EventId)
    ensures var after := After(db, SettleTx(cfg, db, p, ev));
            && after.payments == db.payments
            && after.invoices.Keys == db.invoices.Keys
            && (forall i | i in db.invoices ::
                  after.invoices[i] == db.invoices[i]
                  || (p.invoice == Some(i) && !IsTerminal(db.invoices[i].status)
                      && after.invoices[i].status == Confirmed))
  {
  }

  lemma CreditKeepsPaidOnce(cfg: Config, db: Db, x: Observed, asset: AssetId, id: InvoiceId, seen: Invoice, ev: EventId)
    requires Linked(db) && PaidOnce(db) && StillSound(db, Credit(x, asset, id, seen))
    ensures PaidOnce(After(db, CreditTx(cfg, db, x, asset, id, seen, ev)))
  {
    var after := After(db, CreditTx(cfg, db, x, asset, id, seen, ev));
    CreditWrites(cfg, db, x, asset, id, seen, ev);
    hide CreditTx;
    if after.payments == db.payments {
      forall r, i | LiveOn(after, r, i) ensures LiveOn(db, r, i) {}
    } else {
      forall r, i | LiveOn(after, r, i) ensures if r == x.ref then i == id else LiveOn(db, r, i) && i != id {}
    }
  }

  lemma SettleKeepsPaidOnce(cfg: Config, db: Db, p: Payment, ev: EventId)
    requires PaidOnce(db)
    ensures PaidOnce(After(db, SettleTx(cfg, db, p, ev)))
  {
    var after := After(db, SettleTx(cfg, db, p, ev));
    assert after.payments == db.payments;
    forall r, i | LiveOn(after, r, i) ensures LiveOn(db, r, i) {}
  }

  lemma RevokeKeepsPaidOnce(cfg: Config, db: Db, r: Ref, ev: EventId)
    requires PaidOnce(db)
    ensures PaidOnce(After(db, RevokeTx(cfg, db, r, ev)))
  {
    var after := After(db, RevokeTx(cfg, db, r, ev));
    forall q, i | LiveOn(after, q, i) ensures LiveOn(db, q, i) && (after != db ==> q != r) {}
    if after != db {
      forall q, i: InvoiceId | LiveOn(after, q, i) && db.payments[r].invoice == Some(i) ensures false {
        assert LiveOn(db, r, i) && LiveOn(db, q, i);
      }
    }
  }

  /** At most one live payment per invoice and none on a pending one, whatever the step. */
  lemma EveryStepKeepsPaidOnce(cfg: Config, db: Db, m: Move)
    requires Linked(db) && PaidOnce(db) && Admissible(db, m)
    ensures PaidOnce(Perform(cfg, db, m))
  {
    hide CreditTx, SettleTx, RevokeTx;
    var after := Perform(cfg, db, m);
    match m
    case Decide(d, ev) =>
      match d {
        case Reapply(p, final) => SettleKeepsPaidOnce(cfg, db, p, ev);
        case Credit(x, asset, id, seen) => CreditKeepsPaidOnce(cfg, db, x, asset, id, seen, ev);
        case _ => forall r, i | LiveOn(after, r, i) ensures LiveOn(db, r, i) {}
      }
    case Settle(r, ev) => if r in db.payments { SettleKeepsPaidOnce(cfg, db, db.payments[r], ev); }
    case Revoke(r, ev) => RevokeKeepsPaidOnce(cfg, db, r, ev);
    case _ =>
      assert after.payments == db.payments;
      forall r, i | LiveOn(after, r, i) ensures LiveOn(db, r, i) {}
  }
}
