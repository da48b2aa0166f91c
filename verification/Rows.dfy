/** What a transaction of the matching engine writes, row by row and field by field: the rows of matching.go's `credit`,
    `Settle` and `Revoke` as their documentation describes them, and the rows of the single statements. */
module Rows {
  import opened Domain
  import opened Query
  import opened Tables
  import opened Matching
  import opened Ledger

  /** The row records the transfer; block zero is stored as NULL. */
  predicate PaymentRecords(p: Payment, x: Observed, asset: AssetId) {
    && p.ref == x.ref && p.asset == asset && p.amount == x.value && p.blockTime == x.blockTime
    && (if x.block == 0 then p.block == None else p.block == Some(x.block))
  }

  predicate OrphanRecords(o: Orphan, x: Observed, asset: Option<AssetId>, reason: Option<OrphanReason>) {
    && o.asset == asset && o.contract == x.contract && o.amount == x.value && o.block == x.block
    && o.blockTime == x.blockTime && reason == Some(o.reason)
  }

  /** With a receiver configured, the event is appended unless its id is queued already; without one, nothing is. */
  ghost predicate Notified(cfg: Config, before: seq<Event>, after: seq<Event>, e: Event) {
    after == if cfg.notify && forall k | 0 <= k < |before| :: before[k].id != e.id then before + [e] else before
  }

  /** No row but this invoice's differs. */
  ghost predicate OnlyInvoice(db: Db, after: Db, id: InvoiceId) {
    && after.invoices.Keys == db.invoices.Keys
    && forall i | i in db.invoices && i != id :: after.invoices[i] == db.invoices[i]
  }

  /** The row of an invoice that money has moved on: only a confirmation pays it, the hold runs from now, and what
      issuing fixed is as it was. */
  predicate MovedOn(cfg: Config, now: Time, was: Invoice, row: Invoice, target: Status) {
    && row.status == target
    && row.paidAt == (if target == Confirmed then Some(now) else was.paidAt)
    && row.holdUntil == Max(was.holdUntil, now + cfg.hold)
    && row.held == was.held && SameIssue(was, row)
  }

  // ------------------------------------------------------------------ credit

  /** Another live payment of the invoice keeps a transfer not yet on record out. */
  ghost predicate Blocked(db: Db, x: Observed, id: InvoiceId) {
    x.ref !in db.payments
    && exists r :: r in db.payments && db.payments[r].removedAt.None? && db.payments[r].invoice == Some(id)
  }

  /** The invoice is still as it was read, and the transfer moves it on. */
  predicate Promotes(db: Db, x: Observed, id: InvoiceId, seen: Invoice) {
    && id in db.invoices && db.invoices[id].status == seen.status
    && (seen.status == Pending || (seen.status == Detected && x.final))
  }

  /** The payment a credit leaves: the transfer's, credited and live, unless its row was there already. */
  ghost predicate PaymentWritten(before: map<Ref, Payment>, after: map<Ref, Payment>, x: Observed, asset: AssetId,
                                 id: InvoiceId)
  {
    && after.Keys == before.Keys + {x.ref}
    && (forall r | r in before :: after[r] == before[r])
    && (x.ref !in before ==>
          PaymentRecords(after[x.ref], x, asset) && after[x.ref].invoice == Some(id) && after[x.ref].removedAt == None)
  }

  /** The whole effect of a credit: the payment row, and the invoice if it is moved on. The invoice is paid as of now
      only when it is confirmed, its amount is held from now, and the receiver is told. */
  ghost predicate CreditRows(cfg: Config, db: Db, after: Db, x: Observed, asset: AssetId, id: InvoiceId, seen: Invoice,
                             ev: EventId)
  {
    if Blocked(db, x, id) then after == db
    else
      && PaymentWritten(db.payments, after.payments, x, asset, id)
      && after == db.(payments := after.payments, invoices := after.invoices, events := after.events)
      && OnlyInvoice(db, after, id)
      && if !Promotes(db, x, id, seen) then after.invoices == db.invoices && after.events == db.events
         else
           var was, row := db.invoices[id], after.invoices[id];
           && MovedOn(cfg, db.now, was, row, if x.final then Confirmed else Detected)
           && row.confirmations == seen.confirmations
           && Notified(cfg, db.events, after.events,
                       Event(ev, id, if x.final then EventConfirmed else EventDetected, row.status))
  }

  lemma BlockedIsRefused(db: Db, x: Observed, asset: AssetId, id: InvoiceId)
    ensures Blocked(db, x, id) <==> InsertPayment(db, PaymentOf(x, asset, id)).LiveInvoiceTaken?
    ensures HasLive(db, id) <==>
              exists r :: r in db.payments && db.payments[r].removedAt.None? && db.payments[r].invoice == Some(id)
  {
    forall r | r in db.payments && db.payments[r].removedAt.None? && db.payments[r].invoice == Some(id)
      ensures LiveOn(db, r, id)
    {
    }
  }

  lemma PaymentInserted(db: Db, x: Observed, asset: AssetId, id: InvoiceId)
    requires !Blocked(db, x, id)
    ensures var ins := InsertPayment(db, PaymentOf(x, asset, id));
            var db1 := if ins.PaymentCreated? then ins.db else db;
            db1 == db.(payments := db1.payments) && PaymentWritten(db.payments, db1.payments, x, asset, id)
  {
    BlockedIsRefused(db, x, asset, id);
    hide HasLive, Blocked;
  }

  lemma QueuedOnce(cfg: Config, db: Db, e: Event)
    ensures Notified(cfg, db.events, Enqueue(cfg, db, e).events, e)
    ensures Enqueue(cfg, db, e) == db.(events := Enqueue(cfg, db, e).events)
  {
  }

  lemma CreditWritesRows(cfg: Config, db: Db, x: Observed, asset: AssetId, id: InvoiceId, seen: Invoice, ev: EventId)
    ensures CreditRows(cfg, db, After(db, CreditTx(cfg, db, x, asset, id, seen, ev)), x, asset, id, seen, ev)
  {
    BlockedIsRefused(db, x, asset, id);
    if !Blocked(db, x, id) {
      PaymentInserted(db, x, asset, id);
    }
    hide HasLive, Blocked, Max, Enqueue, EnqueueEvent, Notified, InsertPayment, PaymentOf, PaymentWritten;
    forall db1: Db, e ensures Notified(cfg, db1.events, Enqueue(cfg, db1, e).events, e)
      ensures Enqueue(cfg, db1, e) == db1.(events := Enqueue(cfg, db1, e).events)
    {
      QueuedOnce(cfg, db1, e);
    }
  }

  /** What the caller is told when nothing is refused. */
  function CreditResult(db: Db, x: Observed, id: InvoiceId, seen: Invoice): Result {
    if Promotes(db, x, id, seen) then Result(Credited, Some(id), Some(if x.final then Confirmed else Detected), None)
    else Result(Unchanged, Some(id), Some(seen.status), None)
  }

  lemma CreditAnswers(cfg: Config, db: Db, x: Observed, asset: AssetId, id: InvoiceId, seen: Invoice, ev: EventId)
    ensures CreditTx(cfg, db, x, asset, id, seen, ev) == Failed(AlreadyExists) <==> Blocked(db, x, id)
    ensures !Blocked(db, x, id) ==>
              && CreditTx(cfg, db, x, asset, id, seen, ev).Done?
              && CreditTx(cfg, db, x, asset, id, seen, ev).result == CreditResult(db, x, id, seen)
  {
    BlockedIsRefused(db, x, asset, id);
    hide HasLive, Blocked, Max, Enqueue, EnqueueEvent;
  }

  // ------------------------------------------------------------------ settle

  /** A live payment's open invoice. */
  predicate Settles(db: Db, p: Payment) {
    && p.invoice.Some? && p.removedAt.None? && p.invoice.value in db.invoices
    && (db.invoices[p.invoice.value].status == Pending || db.invoices[p.invoice.value].status == Detected)
  }

  /** The whole effect of settling a payment: its open invoice is confirmed and paid as of now, and its amount held from
      now; otherwise nothing is written. */
  ghost predicate SettleRows(cfg: Config, db: Db, after: Db, p: Payment, ev: EventId) {
    if !Settles(db, p) || db.invoices[p.invoice.value].asset !in db.assets then after == db
    else
      var id := p.invoice.value;
      && after == db.(invoices := after.invoices, events := after.events)
      && OnlyInvoice(db, after, id)
      && var was, row := db.invoices[id], after.invoices[id];
         && MovedOn(cfg, db.now, was, row, Confirmed) && row.confirmations == was.confirmations
         && Notified(cfg, db.events, after.events, Event(ev, id, EventConfirmed, Confirmed))
  }

  lemma SettleWritesRows(cfg: Config, db: Db, p: Payment, ev: EventId)
    ensures SettleRows(cfg, db, After(db, SettleTx(cfg, db, p, ev)), p, ev)
    ensures SettleTx(cfg, db, p, ev).Failed? <==>
              && p.invoice.Some? && p.removedAt.None?
              && (p.invoice.value in db.invoices ==>
                    Settles(db, p) && db.invoices[p.invoice.value].asset !in db.assets)
  {
  }

  // ------------------------------------------------------------------ revoke

  /** The live payment of a detected invoice. */
  predicate Reverts(db: Db, r: Ref) {
    && r in db.payments && db.payments[r].removedAt.None? && db.payments[r].invoice.Some?
    && db.payments[r].invoice.value in db.invoices && db.invoices[db.payments[r].invoice.value].status == Detected
  }

  /** The whole effect of a revocation, foreign keys holding: a live payment is withdrawn as of now, and its invoice, if
      detected, is pending again with its hold and payment time as they were. */
  ghost predicate RevokeRows(cfg: Config, db: Db, after: Db, r: Ref, ev: EventId) {
    if r !in db.payments || db.payments[r].removedAt.Some? then after == db
    else
      && after.payments == db.payments[r := db.payments[r].(removedAt := Some(db.now))]
      && after == db.(payments := after.payments, invoices := after.invoices, events := after.events)
      && if !Reverts(db, r) then after.invoices == db.invoices && after.events == db.events
         else
           var id := db.payments[r].invoice.value;
           && after.invoices == db.invoices[id := db.invoices[id].(status := Pending, confirmations := 0)]
           && Notified(cfg, db.events, after.events, Event(ev, id, EventReverted, Pending))
  }

  lemma RevokeWritesRows(cfg: Config, db: Db, r: Ref, ev: EventId)
    requires Linked(db)
    ensures RevokeTx(cfg, db, r, ev).Done?
    ensures RevokeRows(cfg, db, After(db, RevokeTx(cfg, db, r, ev)), r, ev)
  {
  }

  // ------------------------------------------------------------------ issuing, and assets

  /** A new row says what was asked for, and is open, unpaid and held as of now. */
  predicate AsAsked(inv: Invoice, row: NewInvoice, asset: Asset, now: Time) {
    && inv.externalId == row.externalId && inv.asset == row.asset && inv.network == asset.network
    && inv.base == row.base && inv.pay == row.pay && inv.nonce == row.nonce
    && inv.expiresAt == row.expiresAt && inv.holdUntil == row.holdUntil && inv.createdAt == now
    && inv.status == Pending && inv.confirmations == 0 && inv.held && inv.paidAt == None
  }

  /** The start-up upsert, for assets unique by network and contract: the row of that key takes the seed's step, nonce
      range and `enabled`, or is new; under another row's key, or with that key already taken, nothing happens. Disabled
      or not, no row is ever removed. */
  lemma SeedWritesRows(db: Db, a: AssetId, row: Asset)
    requires AssetKeyUnique(db)
    ensures var after := UpsertAsset(db, a, row);
            && after == db.(assets := after.assets)
            && (forall b | b in db.assets && b != a :: b in after.assets && after.assets[b] == db.assets[b])
            && (forall b | b in after.assets :: b in db.assets || b == a)
            && (a in db.assets ==>
                  a in after.assets
                  && after.assets[a] == if db.assets[a].network == row.network && db.assets[a].contract == row.contract
                                        then row else db.assets[a])
            && (a !in db.assets ==>
                  (a in after.assets <==>
                     forall b | b in db.assets ::
                       db.assets[b].network != row.network || db.assets[b].contract != row.contract)
                  && (a in after.assets ==> after.assets[a] == row))
  {
  }
}
