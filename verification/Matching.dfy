/** The matching engine (internal/service/matching/matching.go): what an observed transfer means for an invoice, as
    functions on the database. `Read` is everything `Apply` looks up; `Finish` is the one transaction it then runs. */
module Matching {
  import opened Domain
  import opened Query
  import opened Tables

  datatype Config = Config(hold: Time, notify: bool)

  datatype Observed = Observed(ref: Ref, contract: string, value: int, block: int, blockTime: Time, final: bool)

  datatype Outcome = Credited | Unchanged | Orphaned

  datatype Result = Result(outcome: Outcome, invoice: Option<InvoiceId>, status: Option<Status>,
                           reason: Option<OrphanReason>)

  datatype Error = NotPositive | AlreadyExists | InvoiceNotFound | AssetNotFound

  /** What a transaction did. A failed one is rolled back, so it carries no database. */
  datatype Answer = Done(result: Result, db: Db) | Failed(error: Error)

  function After(db: Db, a: Answer): Db {
    if a.Done? then a.db else db
  }

  /** What `Apply` decided from its reads, held in local variables until its transaction. */
  datatype Decision =
    | Reject(observed: Observed)
    | Reapply(payment: Payment, final: bool)
    | FileOrphan(observed: Observed, token: Option<AssetId>, reason: OrphanReason)
    | Credit(observed: Observed, asset: AssetId, id: InvoiceId, seen: Invoice)

  function NetworkOf(d: Decision): Network {
    match d
    case Reapply(p, _) => p.ref.network
    case _ => d.observed.ref.network
  }

  /** The answers the lookups gave. */
  datatype Lookups = Lookups(asset: Option<AssetId>, invoice: Option<InvoiceId>)

  ghost predicate LookupsOk(db: Db, x: Observed, l: Lookups) {
    && FoundAsset(db, x.ref.network, x.contract, l.asset)
    && (l.asset.Some? ==> FoundInvoice(db, l.asset.value, x.value, l.invoice))
  }

  function Read(db: Db, x: Observed, l: Lookups): Decision
    requires l.asset.Some? && l.invoice.Some? ==> l.invoice.value in db.invoices
  {
    if x.value <= 0 then Reject(x)
    else if x.ref in db.payments && IsLive(db.payments[x.ref]) then Reapply(db.payments[x.ref], x.final)
    else if l.asset.None? then FileOrphan(x, None, UnknownAsset)
    else if l.invoice.None? then FileOrphan(x, l.asset, NoInvoice)
    else
      var inv := db.invoices[l.invoice.value];
      if IsTerminal(inv.status) then FileOrphan(x, l.asset, InvoiceTerminal)
      else Credit(x, l.asset.value, l.invoice.value, inv)
  }

  /** `int8OrNull`: block zero is stored as NULL. */
  function StoredBlock(block: int): Option<int> {
    if block == 0 then None else Some(block)
  }

  function PaymentOf(x: Observed, asset: AssetId, id: InvoiceId): Payment {
    Payment(x.ref, asset, x.value, StoredBlock(x.block), x.blockTime, Some(id), None)
  }

  function OrphanOf(x: Observed, asset: Option<AssetId>, reason: OrphanReason): Orphan {
    Orphan(asset, x.contract, x.value, x.block, x.blockTime, reason)
  }

  /** `enqueue`: nothing is queued when no receiver is configured. */
  function Enqueue(cfg: Config, db: Db, e: Event): Db {
    if cfg.notify then EnqueueEvent(db, e) else db
  }

  function KindFor(target: Status): EventKind {
    if target == Confirmed then EventConfirmed else EventDetected
  }

  /** The payment, the status change and the notification, in one transaction. */
  function CreditTx(cfg: Config, db: Db, x: Observed, asset: AssetId, id: InvoiceId, seen: Invoice,
      ev: EventId): Answer {
    var target := if x.final then Confirmed else Detected;
    var ins := InsertPayment(db, PaymentOf(x, asset, id));
    if ins.LiveInvoiceTaken? then Failed(AlreadyExists)
    else
      var db1 := if ins.PaymentCreated? then ins.db else db;
      var same := Result(Unchanged, Some(id), Some(seen.status), None);
      if seen.status == target || !Transition(seen.status, target) then Done(same, db1)
      else
        var moved := UpdateInvoiceStatus(db1, id, seen.status, target, seen.confirmations,
                                         if target == Confirmed then Some(db.now) else None, db.now + cfg.hold);
        if moved.None? then Done(same, db1)
        else Done(Result(Credited, Some(id), Some(target), None),
                  Enqueue(cfg, moved.value, Event(ev, id, KindFor(target), target)))
  }

  /** `Settle`: promote a recorded payment whose transfer is final. */
  function SettleTx(cfg: Config, db: Db, p: Payment, ev: EventId): Answer {
    if p.invoice.None? || !IsLive(p) then Done(Result(Unchanged, None, None, None), db)
    else
      var id := p.invoice.value;
      if id !in db.invoices then Failed(InvoiceNotFound)
      else
        var inv := db.invoices[id];
        var same := Result(Unchanged, Some(id), Some(inv.status), None);
        if inv.status == Confirmed || !Transition(inv.status, Confirmed) then Done(same, db)
        else
          var moved := UpdateInvoiceStatus(db, id, inv.status, Confirmed, inv.confirmations, Some(db.now),
                                           db.now + cfg.hold);
          if moved.None? then Done(same, db)
          else if inv.asset !in db.assets then Failed(AssetNotFound)
          else Done(Result(Credited, Some(id), Some(Confirmed), None),
                    Enqueue(cfg, moved.value, Event(ev, id, EventConfirmed, Confirmed)))
  }

  /** `Revoke`: a reorg withdrew the transfer. Only a detected invoice goes back to pending. */
  function RevokeTx(cfg: Config, db: Db, r: Ref, ev: EventId): Answer {
    var nothing := Result(Unchanged, None, None, None);
    if r !in db.payments || !IsLive(db.payments[r]) then Done(nothing, db)
    else
      var db1 := MarkPaymentRemoved(db, r);
      if db.payments[r].invoice.None? then Done(nothing, db1)
      else
        var id := db.payments[r].invoice.value;
        if id !in db.invoices then Failed(InvoiceNotFound)
        else
          var inv := db.invoices[id];
          if inv.status != Detected then Done(nothing, db1)
          else
            var moved := UpdateInvoiceStatus(db1, id, Detected, Pending, 0, None, inv.holdUntil);
            if moved.None? then Done(nothing, db1)
            else if inv.asset !in db.assets then Failed(AssetNotFound)
            else Done(nothing, Enqueue(cfg, moved.value, Event(ev, id, EventReverted, Pending)))
  }

  /** The transaction a decision leads to. */
  function Finish(cfg: Config, db: Db, d: Decision, ev: EventId): Answer {
    match d
    case Reject(_) => Failed(NotPositive)
    case Reapply(p, final) =>
      if final then SettleTx(cfg, db, p, ev) else Done(Result(Unchanged, p.invoice, None, None), db)
    case FileOrphan(x, asset, reason) =>
      Done(Result(Orphaned, None, None, Some(reason)), InsertOrphan(db, x.ref, OrphanOf(x, asset, reason)))
    case Credit(x, asset, id, seen) => CreditTx(cfg, db, x, asset, id, seen, ev)
  }

  // ------------------------------------------------------------------ every step anybody takes

  datatype Move =
    | Create(id: InvoiceId, row: NewInvoice)
    | Cancel(id: InvoiceId)
    | Expire(batch: set<InvoiceId>)
    | Release
    | Tick(elapsed: nat)
    | Seed(asset: AssetId, asset_row: Asset)
    | Decide(decision: Decision, ev: EventId)
    | Settle(ref: Ref, ev: EventId)
    | Revoke(ref: Ref, ev: EventId)

  /** One atomic step on the database. A step that cannot happen leaves it alone. */
  function Perform(cfg: Config, db: Db, m: Move): Db {
    match m
    case Create(id, row) => var r := InsertInvoice(db, id, row); if r.InvoiceCreated? then r.db else db
    case Cancel(id) => var r := CancelInvoice(db, id, db.now + cfg.hold); if r.Some? then r.value else db
    case Expire(batch) => ExpirePending(db, batch, cfg.hold)
    case Release => ReleaseHolds(db)
    case Tick(elapsed) => db.(now := db.now + elapsed)
    case Seed(a, row) => UpsertAsset(db, a, row)
    case Decide(d, ev) => After(db, Finish(cfg, db, d, ev))
    case Settle(r, ev) => if r in db.payments then After(db, SettleTx(cfg, db, db.payments[r], ev)) else db
    case Revoke(r, ev) => After(db, RevokeTx(cfg, db, r, ev))
  }
}
