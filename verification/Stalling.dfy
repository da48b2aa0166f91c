/** How a second transfer into the window of a detected invoice holds up a watcher: `Apply` refuses it, the watcher
    returns before its settle pass, and the invoice stays detected as long as its own transfer is not read again. */
module Stalling {
  import opened Domain
  import opened Query
  import opened Tables
  import opened Matching
  import opened Ledger
  import opened Interference
  import opened Runs
  import opened Crediting
  import opened Windows
  import opened Watching
  import opened Settling

  /** A detected invoice, the payment it waits with, and the common grid its asset's amounts are issued on. */
  datatype Waiter = Waiter(grid: Grid, steps: map<AssetId, Pos>, invoice: InvoiceId, paidBy: Ref)

  /** Invoices are issued on the grid, and no step changes. */
  predicate OnGridMove(s: Waiter, m: Move) {
    match m
    case Create(_, row) =>
      && row.asset in s.grid && row.asset in s.steps
      && (row.base - s.grid[row.asset]) % s.steps[row.asset] == 0
      && row.pay == row.base + row.nonce * s.steps[row.asset]
    case Seed(a, row) => a in s.steps && row.step == s.steps[a]
    case _ => true
  }

  predicate OnGridScript(s: Waiter, script: seq<Move>) {
    forall m | m in script :: OnGridMove(s, m)
  }

  ghost predicate QuietGrid(s: Waiter, env: nat -> Interlude) {
    forall k :: OnGridScript(s, env(k).before) && OnGridScript(s, env(k).during)
  }

  ghost predicate GridOk(s: Waiter, db: Db) {
    && LedgerOk(db) && AssetKeyUnique(db) && OnGrid(s.grid, db)
    && (forall a | a in db.assets :: a in s.steps && db.assets[a].step == s.steps[a])
  }

  /** The invoice is detected and has its live payment. */
  ghost predicate Waits(s: Waiter, n: Network, db: Db) {
    && GridOk(s, db)
    && s.invoice in db.invoices && db.invoices[s.invoice].status == Detected && db.invoices[s.invoice].network == n
    && s.paidBy.network == n && LiveOn(db, s.paidBy, s.invoice)
  }

  /** A transfer not on record that falls into the waiting invoice's window. */
  predicate Blocked(s: Waiter, n: Network, db: Db, x: Observed) {
    && s.invoice in db.invoices && db.invoices[s.invoice].asset in db.assets
    && x.value > 0 && x.ref.network == n && x.ref !in db.payments
    && IsAsset(db, n, x.contract, db.invoices[s.invoice].asset)
    && AmountMatches(db.invoices[s.invoice].pay, x.value, db.assets[db.invoices[s.invoice].asset].step)
  }

  /** Neither the invoice's own transfer nor one that was withdrawn. */
  predicate Unrelated(s: Waiter, n: Network, db: Db, r: Ref) {
    r.network == n && r != s.paidBy && (r in db.payments ==> IsLive(db.payments[r]))
  }

  /** The payments of the network are as before, except that `r` may have been recorded. */
  ghost predicate OnlyRecords(n: Network, db: Db, after: Db, r: Ref) {
    forall q: Ref | q.network == n && q in after.payments ::
      if q in db.payments then after.payments[q] == db.payments[q] else q == r && IsLive(after.payments[q])
  }

  // ------------------------------------------------------------------ what others do meanwhile

  lemma StepKeepsGridOk(cfg: Config, s: Waiter, db: Db, m: Move)
    requires GridOk(s, db) && OnGridMove(s, m) && Admissible(db, m)
    ensures GridOk(s, Perform(cfg, db, m))
  {
    var after := Perform(cfg, db, m);
    EveryStepKeeps(cfg, db, m);
    EveryStepKeepsPaidOnce(cfg, db, m);
    StepKeepsAssetKeys(cfg, db, m);
    StepKeepsGrid(cfg, s.grid, db, m);
    AssetsComeFromSeeds(cfg, db, m);
    hide Perform, AssetKeyUnique, OnGrid, PaidOnce, AmountsHeld, Linked, Evolves;
    assert LedgerOk(after);
  }

  lemma {:induction false} OutsideKeepsGridOk(cfg: Config, s: Waiter, db: Db, n: Network, script: seq<Move>)
    requires GridOk(s, db) && OnGridScript(s, script)
    ensures GridOk(s, RunOutside(cfg, db, n, script))
    decreases |script|
  {
    if script != [] {
      var m := script[0];
      assert OnGridMove(s, m);
      assert OnGridScript(s, script[1..]);
      hide Perform, GridOk, OnGridMove;
      if Outside(db, n, m) {
        StepKeepsGridOk(cfg, s, db, m);
        OutsideKeepsGridOk(cfg, s, Perform(cfg, db, m), n, script[1..]);
      } else {
        OutsideKeepsGridOk(cfg, s, db, n, script[1..]);
      }
    }
  }

  lemma OutsideKeepsWaiting(cfg: Config, s: Waiter, n: Network, db: Db, script: seq<Move>)
    requires Waits(s, n, db) && OnGridScript(s, script)
    ensures var after := RunOutside(cfg, db, n, script);
            Waits(s, n, after) && OnlyRecords(n, db, after, s.paidBy) && Grows(db, after) && Undisturbed(n, db, after)
  {
    OutsideKeepsGridOk(cfg, s, db, n, script);
    OutsideRun(cfg, db, n, script);
    OutsideEvolves(cfg, db, n, script);
    hide RunOutside, GridOk;
  }

  lemma StillBlocked(s: Waiter, n: Network, db: Db, after: Db, x: Observed)
    requires Waits(s, n, db) && Waits(s, n, after) && Grows(db, after) && Blocked(s, n, db, x)
    requires x.ref !in after.payments
    ensures Blocked(s, n, after, x)
  {
  }

  // ------------------------------------------------------------------ one Apply

  /** The lookups for a transfer into the window can only answer the waiting invoice. */
  lemma LookupsFindTheWaiter(s: Waiter, n: Network, db: Db, x: Observed, l: Lookups)
    requires Waits(s, n, db) && Blocked(s, n, db, x) && LookupsOk(db, x, l)
    ensures l == Lookups(Some(db.invoices[s.invoice].asset), Some(s.invoice))
  {
    assert l.asset == Some(db.invoices[s.invoice].asset);
    OneClaimant(s.grid, db, l.asset.value, x.value, s.invoice, l.invoice);
  }

  lemma DecisionKeepsWaiting(cfg: Config, s: Waiter, n: Network, db: Db, d: Decision, r: Ref, ev: EventId)
    requires Waits(s, n, db) && StillSound(db, d) && Unrelated(s, n, db, r)
    requires d.Reapply? ==> d.payment.ref == r
    requires !d.Reapply? ==> d.observed.ref == r
    requires d.Credit? ==> r !in db.payments
    ensures Waits(s, n, After(db, Finish(cfg, db, d, ev)))
    ensures OnlyRecords(n, db, After(db, Finish(cfg, db, d, ev)), r)
    ensures d.Credit? && d.id == s.invoice ==> Finish(cfg, db, d, ev).Failed?
  {
    var after := After(db, Finish(cfg, db, d, ev));
    assert after == Perform(cfg, db, Decide(d, ev));
    StepKeepsGridOk(cfg, s, db, Decide(d, ev));
    hide GridOk, CreditTx, SettleTx;
    match d
    case Credit(x, asset, id, seen) => CreditKeepsWaiting(cfg, s, n, db, x, asset, id, seen, ev);
    case Reapply(p, final) => SettleKeepsWaiting(cfg, s, n, db, p, ev);
    case _ =>
  }

  /** As `Waits`, without the grid. */
  ghost predicate HasPaid(s: Waiter, n: Network, db: Db) {
    && s.invoice in db.invoices && db.invoices[s.invoice].status == Detected && db.invoices[s.invoice].network == n
    && s.paidBy.network == n && LiveOn(db, s.paidBy, s.invoice)
  }

  lemma CreditKeepsWaiting(cfg: Config, s: Waiter, n: Network, db: Db, x: Observed, asset: AssetId, id: InvoiceId,
                           seen: Invoice, ev: EventId)
    requires HasPaid(s, n, db) && StillSound(db, Credit(x, asset, id, seen)) && x.ref !in db.payments
    requires x.ref != s.paidBy
    ensures var a := CreditTx(cfg, db, x, asset, id, seen, ev);
            && HasPaid(s, n, After(db, a)) && OnlyRecords(n, db, After(db, a), x.ref)
            && (id == s.invoice ==> a.Failed?)
  {
    assert HasLive(db, s.invoice);
    CreditFailsIff(cfg, db, x, asset, id, seen, ev);
    CreditWrites(cfg, db, x, asset, id, seen, ev);
    hide CreditTx, HasLive, StillSound;
  }

  lemma SettleKeepsWaiting(cfg: Config, s: Waiter, n: Network, db: Db, p: Payment, ev: EventId)
    requires Waits(s, n, db) && StillSound(db, Reapply(p, true)) && Unrelated(s, n, db, p.ref)
    ensures var after := After(db, SettleTx(cfg, db, p, ev)); HasPaid(s, n, after) && OnlyRecords(n, db, after, p.ref)
  {
    SettleWrites(cfg, db, p, ev);
    SettleKeeps(cfg, db, p, ev);
    GridIsLedger(s, db);
    hide SettleTx, GridOk;
    assert p.invoice == Some(s.invoice) ==> LiveOn(db, p.ref, s.invoice);
  }

  lemma GridIsLedger(s: Waiter, db: Db)
    requires GridOk(s, db)
    ensures LedgerOk(db)
  {
  }

  /** An `Apply` of any other transfer leaves the invoice waiting, and one of a transfer into its window fails. */
  lemma ApplyKeepsWaiting(cfg: Config, s: Waiter, n: Network, db: Db, after: Db, x: Observed, before: seq<Move>,
                          during: seq<Move>, ev: EventId, ok: bool)
    requires Waits(s, n, db) && Unrelated(s, n, db, x.ref) && OnGridScript(s, before) && OnGridScript(s, during)
    requires AppliedAs(cfg, db, after, x, before, during, ev, ok)
    ensures Waits(s, n, after) && OnlyRecords(n, db, after, x.ref) && Grows(db, after)
    ensures Blocked(s, n, db, x) ==> !ok && x.ref !in after.payments
  {
    hide RunOutside, Finish, Waits, Grows, LookupsOk, GridOk, Read, Undisturbed, Blocked;
    var paused := RunOutside(cfg, db, n, before);
    OutsideKeepsWaiting(cfg, s, n, db, before);
    assert exists l | LookupsOk(paused, x, l) :: AnsweredAs(cfg, paused, after, x, l, during, ev, ok);
    var l :| LookupsOk(paused, x, l) && AnsweredAs(cfg, paused, after, x, l, during, ev, ok);
    var mid := RunOutside(cfg, paused, n, during);
    OutsideKeepsWaiting(cfg, s, n, paused, during);
    FoundIsThere(paused, x, l);
    ReadDecides(s, n, paused, x, l);
    var d := Read(paused, x, l);
    UndisturbedRow(n, db, paused, x.ref);
    UndisturbedRow(n, paused, mid, x.ref);
    StaysSound(paused, mid, d);
    DecisionKeepsWaiting(cfg, s, n, mid, d, x.ref, ev);
    DecisionGrows(cfg, s, n, mid, d, ev);
    GrowsTransitive(db, paused, mid);
    GrowsTransitive(db, mid, after);
    forall q: Ref | q.network == n && q in mid.payments ensures q in db.payments && mid.payments[q] == db.payments[q] {
      UndisturbedRow(n, db, paused, q);
      UndisturbedRow(n, paused, mid, q);
    }
    if Blocked(s, n, db, x) {
      BlockedIsNew(s, n, db, x);
      StillBlocked(s, n, db, paused, x);
      LookupsFindTheWaiter(s, n, paused, x, l);
      BlockedCredits(s, n, paused, x, l);
    }
  }

  lemma BlockedIsNew(s: Waiter, n: Network, db: Db, x: Observed)
    requires Blocked(s, n, db, x)
    ensures x.ref !in db.payments
  {
  }

  lemma BlockedCredits(s: Waiter, n: Network, db: Db, x: Observed, l: Lookups)
    requires Waits(s, n, db) && Blocked(s, n, db, x) && LookupsOk(db, x, l)
    requires l == Lookups(Some(db.invoices[s.invoice].asset), Some(s.invoice))
    ensures Read(db, x, l).Credit? && Read(db, x, l).id == s.invoice
  {
  }

  lemma ReadDecides(s: Waiter, n: Network, db: Db, x: Observed, l: Lookups)
    requires Waits(s, n, db) && LookupsOk(db, x, l) && x.ref.network == n
    ensures var d := Read(db, x, l);
            && StillSound(db, d) && NetworkOf(d) == n
            && (if d.Reapply? then d.payment.ref == x.ref else d.observed.ref == x.ref)
            && (d.Credit? ==> x.ref in db.payments ==> !IsLive(db.payments[x.ref]))
  {
    ReadIsSound(db, x, l);
  }

  lemma DecisionGrows(cfg: Config, s: Waiter, n: Network, db: Db, d: Decision, ev: EventId)
    requires Waits(s, n, db) && StillSound(db, d)
    ensures Grows(db, After(db, Finish(cfg, db, d, ev)))
  {
    assert After(db, Finish(cfg, db, d, ev)) == Perform(cfg, db, Decide(d, ev));
    LedgerStep(cfg, db, Decide(d, ev));
  }
}
