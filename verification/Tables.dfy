/** The database: rows (schema/schema.sql) and the meaning of each SQL statement on them
    (internal/adapter/postgres/queries). Every statement is atomic; unique indexes abort it. */
module Tables {
  import opened Domain
  import opened Query

  type Pos = n: int | 0 < n witness 1
  type AssetId = nat
  type InvoiceId = nat
  type EventId = nat
  /** Instants and durations, in one unit on one axis. */
  type Time = int

  datatype Network = Tron | Bsc

  /** What identifies a transfer on chain: the key of `cp_payments_chain_key`. */
  datatype Ref = Ref(network: Network, tx: string, logIndex: int)

  datatype Asset = Asset(network: Network, contract: string, step: Pos, nonceMax: Pos, enabled: bool)

  datatype Invoice = Invoice(
    externalId: Option<string>,
    asset: AssetId,
    network: Network,
    base: int,
    pay: int,
    nonce: int,
    status: Status,
    confirmations: int,
    createdAt: Time,
    expiresAt: Time,
    held: bool,
    holdUntil: Time,
    paidAt: Option<Time>)

  datatype Payment = Payment(
    ref: Ref,
    asset: AssetId,
    amount: int,
    block: Option<int>,
    blockTime: Time,
    invoice: Option<InvoiceId>,
    removedAt: Option<Time>)

  datatype OrphanReason = NoInvoice | InvoiceTerminal | UnknownAsset

  datatype Orphan = Orphan(asset: Option<AssetId>, contract: string, amount: int, block: int, blockTime: Time,
                           reason: OrphanReason)

  datatype EventKind = EventDetected | EventConfirmed | EventReverted

  /** One queued notification; `status` is the status its payload carries. */
  datatype Event = Event(id: EventId, invoice: InvoiceId, kind: EventKind, status: Status)

  datatype Db = Db(
    now: Time,
    assets: map<AssetId, Asset>,
    invoices: map<InvoiceId, Invoice>,
    payments: map<Ref, Payment>,
    orphans: map<Ref, Orphan>,
    events: seq<Event>)

  // ------------------------------------------------------------------ payments

  /** A withdrawn payment is history: it no longer counts. */
  predicate IsLive(p: Payment) {
    p.removedAt.None?
  }

  predicate LiveOn(db: Db, r: Ref, i: InvoiceId) {
    r in db.payments && IsLive(db.payments[r]) && db.payments[r].invoice == Some(i)
  }

  predicate HasLive(db: Db, i: InvoiceId) {
    exists r | r in db.payments :: LiveOn(db, r, i)
  }

  datatype InsertPaymentResult = PaymentCreated(db: Db) | PaymentKnown | LiveInvoiceTaken

  /** INSERT … ON CONFLICT (network, tx_hash, log_index) DO NOTHING; `cp_payments_live_invoice_key` aborts a second
      live payment on one invoice. */
  function InsertPayment(db: Db, p: Payment): InsertPaymentResult {
    if p.ref in db.payments then PaymentKnown
    else if p.invoice.Some? && HasLive(db, p.invoice.value) then LiveInvoiceTaken
    else PaymentCreated(db.(payments := db.payments[p.ref := p]))
  }

  /** `removed_at = COALESCE(removed_at, NOW())`. */
  function MarkPaymentRemoved(db: Db, r: Ref): Db {
    if r !in db.payments then db
    else
      var p := db.payments[r];
      db.(payments := db.payments[r := p.(removedAt := Some(if p.removedAt.Some? then p.removedAt.value else db.now))])
  }

  function InsertOrphan(db: Db, r: Ref, o: Orphan): Db {
    if r in db.orphans then db else db.(orphans := db.orphans[r := o])
  }

  /** The rows of ListPaymentsAwaitingConfirmation, before ORDER BY and LIMIT. */
  predicate Awaiting(db: Db, n: Network, r: Ref) {
    && r in db.payments
    && r.network == n
    && IsLive(db.payments[r])
    && db.payments[r].invoice.Some?
    && db.payments[r].invoice.value in db.invoices
    && db.invoices[db.payments[r].invoice.value].status == Detected
  }

  /** The rows of ListLivePaymentsInBlockRange. */
  predicate AwaitingInBlocks(db: Db, n: Network, lo: int, hi: int, r: Ref) {
    Awaiting(db, n, r) && db.payments[r].block.Some? && lo <= db.payments[r].block.value <= hi
  }

  // ------------------------------------------------------------------ invoices

  datatype NewInvoice = NewInvoice(externalId: Option<string>, asset: AssetId, base: int, pay: int, nonce: int,
                                   expiresAt: Time, holdUntil: Time)

  datatype InsertInvoiceResult = InvoiceCreated(db: Db) | AmountTaken | ExternalIdTaken | Refused

  /** A row of `cp_invoices_asset_amount_held_key`. */
  predicate HoldsAmount(db: Db, i: InvoiceId, asset: AssetId, pay: int) {
    i in db.invoices && db.invoices[i].held && db.invoices[i].asset == asset && db.invoices[i].pay == pay
  }

  predicate AmountHeld(db: Db, asset: AssetId, pay: int) {
    exists i | i in db.invoices :: HoldsAmount(db, i, asset, pay)
  }

  predicate ExternalIdUsed(db: Db, x: Option<string>) {
    x.Some? && exists i | i in db.invoices :: db.invoices[i].externalId == x
  }

  /** CreateInvoice. `Refused` covers the primary key, the foreign key and the CHECK constraints. */
  function InsertInvoice(db: Db, id: InvoiceId, row: NewInvoice): InsertInvoiceResult {
    if id in db.invoices || row.asset !in db.assets || row.base <= 0 || row.pay <= 0 || row.nonce < 0 then Refused
    else if AmountHeld(db, row.asset, row.pay) then AmountTaken
    else if ExternalIdUsed(db, row.externalId) then ExternalIdTaken
    else
      InvoiceCreated(db.(invoices := db.invoices[id :=
        Invoice(row.externalId, row.asset, db.assets[row.asset].network, row.base, row.pay, row.nonce, Pending, 0,
                db.now, row.expiresAt, true, row.holdUntil, None)]))
  }

  /** UpdateInvoiceStatus: a compare-and-set on status. `None` is "zero rows". */
  function UpdateInvoiceStatus(db: Db, id: InvoiceId, expected: Status, next: Status, confirmations: int,
                               paidAt: Option<Time>, holdUntil: Time): Option<Db>
  {
    if id !in db.invoices || db.invoices[id].status != expected then None
    else
      var inv := db.invoices[id];
      Some(db.(invoices := db.invoices[id := inv.(
        status := next,
        confirmations := confirmations,
        paidAt := if paidAt.Some? then paidAt else inv.paidAt,
        holdUntil := Max(inv.holdUntil, holdUntil))]))
  }

  /** CancelInvoice overwrites the hold, unlike the other transitions. */
  function CancelInvoice(db: Db, id: InvoiceId, holdUntil: Time): Option<Db> {
    if id !in db.invoices || db.invoices[id].status != Pending then None
    else Some(db.(invoices := db.invoices[id := db.invoices[id].(status := Cancelled, holdUntil := holdUntil)]))
  }

  predicate Overdue(db: Db, i: InvoiceId) {
    i in db.invoices && db.invoices[i].status == Pending && db.invoices[i].expiresAt < db.now
  }

  /** ExpirePendingInvoices, on the batch the inner SELECT chose. */
  function ExpirePending(db: Db, batch: set<InvoiceId>, hold: Time): Db {
    db.(invoices := map i | i in db.invoices ::
      if i in batch && Overdue(db, i)
      then db.invoices[i].(status := Expired, holdUntil := Max(db.invoices[i].holdUntil, db.now + hold))
      else db.invoices[i])
  }

  predicate Releasable(db: Db, i: InvoiceId) {
    && i in db.invoices
    && db.invoices[i].held
    && db.invoices[i].holdUntil <= db.now
    && IsTerminal(db.invoices[i].status)
  }

  /** ReleaseExpiredAmountHolds. */
  function ReleaseHolds(db: Db): Db {
    db.(invoices := map i | i in db.invoices ::
      if Releasable(db, i) then db.invoices[i].(held := false) else db.invoices[i])
  }

  /** An invoice FindHeldInvoiceForAmount may consider. */
  predicate Claims(db: Db, asset: AssetId, amount: int, i: InvoiceId) {
    && i in db.invoices
    && db.invoices[i].asset == asset
    && db.invoices[i].held
    && asset in db.assets
    && AmountMatches(db.invoices[i].pay, amount, db.assets[asset].step)
  }

  /** An answer of FindHeldInvoiceForAmount: a newest claimant, or nothing when there is none. */
  ghost predicate FoundInvoice(db: Db, asset: AssetId, amount: int, found: Option<InvoiceId>) {
    match found
    case None => forall i :: !Claims(db, asset, amount, i)
    case Some(i) =>
      && Claims(db, asset, amount, i)
      && forall j :: Claims(db, asset, amount, j) ==> db.invoices[j].createdAt <= db.invoices[i].createdAt
  }

  // ------------------------------------------------------------------ assets

  /** `cp_assets_network_contract_key`. */
  ghost predicate AssetKeyUnique(db: Db) {
    forall a, b | a in db.assets && b in db.assets && db.assets[a].network == db.assets[b].network
                  && db.assets[a].contract == db.assets[b].contract :: a == b
  }

  predicate IsAsset(db: Db, n: Network, contract: string, a: AssetId) {
    a in db.assets && db.assets[a].network == n && db.assets[a].contract == contract
  }

  /** GetAssetByContract, which includes disabled assets. */
  ghost predicate FoundAsset(db: Db, n: Network, contract: string, found: Option<AssetId>) {
    match found
    case None => forall a :: !IsAsset(db, n, contract, a)
    case Some(a) => IsAsset(db, n, contract, a)
  }

  /** The start-up upsert: an asset keeps its key and its row; step, nonce range and `enabled` may change. */
  function UpsertAsset(db: Db, a: AssetId, row: Asset): Db {
    if a in db.assets && (db.assets[a].network != row.network || db.assets[a].contract != row.contract) then db
    else if a !in db.assets && exists b | b in db.assets :: IsAsset(db, row.network, row.contract, b) then db
    else db.(assets := db.assets[a := row])
  }

  // ------------------------------------------------------------------ outbox

  /** EnqueueWebhookEvent: ON CONFLICT (event_id) DO NOTHING. */
  function EnqueueEvent(db: Db, e: Event): (r: Db)
    ensures r == db.(events := r.events) && db.events <= r.events <= db.events + [e]
  {
    if exists k | 0 <= k < |db.events| :: db.events[k].id == e.id then db
    else db.(events := db.events + [e])
  }
}
