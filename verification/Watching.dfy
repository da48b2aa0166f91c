/** What one statement of a watcher does to the payments it still has to settle and to the invoices that are paid. */
module Watching {
  import opened Domain
  import opened Query
  import opened Tables
  import opened Matching
  import opened Ledger
  import opened Interference
  import opened Crediting

  /** No payment has come to wait for finality, except rows `fresh` accounts for, and none has changed. */
  ghost predicate OnlyFreshAwait(n: Network, db: Db, after: Db, x: Option<Observed>) {
    forall r | Awaiting(after, n, r) ::
      || (Awaiting(db, n, r) && after.payments[r] == db.payments[r])
      || (x.Some? && r == x.value.ref && r !in db.payments && after.payments[r].block == StoredBlock(x.value.block))
  }

  /** The invoice is confirmed already. */
  predicate IsConfirmed(db: Db, i: InvoiceId) {
    i in db.invoices && db.invoices[i].status == Confirmed
  }

  /** The transfer is this invoice's: its payment row says so, or, where that row was withdrawn, it is of the invoice's
      token and covers its pay amount. */
  predicate Backs(db: Db, x: Observed, i: InvoiceId) {
    && i in db.invoices
    && x.ref in db.payments
    && (|| db.payments[x.ref].invoice == Some(i)
        || (&& !IsLive(db.payments[x.ref])
            && db.invoices[i].pay <= x.value
            && db.invoices[i].asset in db.assets
            && db.assets[db.invoices[i].asset].network == x.ref.network
            && db.assets[db.invoices[i].asset].contract == x.contract))
  }

  /** Every invoice of the network that is newly confirmed is backed by `x`, a final transfer. */
  ghost predicate ConfirmedBy(n: Network, db: Db, after: Db, x: Option<Observed>) {
    forall i | IsConfirmed(after, i) && after.invoices[i].network == n && !IsConfirmed(db, i) ::
      x.Some? && x.value.final && Backs(after, x.value, i)
  }

  // ------------------------------------------------------------------ interference

  lemma {:induction false} OutsideEvolves(cfg: Config, db: Db, n: Network, script: seq<Move>)
    requires LedgerOk(db)
    ensures Grows(db, RunOutside(cfg, db, n, script))
    decreases |script|
  {
    if script != [] {
      var m := script[0];
      hide Perform, LedgerOk;
      var next := if Outside(db, n, m) then Perform(cfg, db, m) else db;
      if Outside(db, n, m) {
        LedgerStep(cfg, db, m);
      }
      OutsideEvolves(cfg, next, n, script[1..]);
    }
  }

  /** `Evolves` over any number of steps: the part that is transitive. */
  ghost predicate Grows(db: Db, after: Db) {
    && (forall i | i in db.invoices :: i in after.invoices && SameIssue(db.invoices[i], after.invoices[i]))
    && (forall i | i in db.invoices && IsTerminal(db.invoices[i].status) ::
          i in after.invoices && after.invoices[i].status == db.invoices[i].status)
    && (forall r | r in db.payments ::
          && r in after.payments
          && after.payments[r] == db.payments[r].(removedAt := after.payments[r].removedAt)
          && (db.payments[r].removedAt.Some? ==> after.payments[r] == db.payments[r]))
    && (forall r | r in db.orphans :: r in after.orphans)
    && (forall a | a in db.assets ::
          && a in after.assets
          && after.assets[a].network == db.assets[a].network
          && after.assets[a].contract == db.assets[a].contract)
  }

  lemma GrowsItself(db: Db)
    ensures Grows(db, db)
  {
  }

  lemma GrowsTransitive(a: Db, b: Db, c: Db)
    requires Grows(a, b) && Grows(b, c)
    ensures Grows(a, c)
  {
  }

  lemma BacksGrows(db: Db, after: Db, x: Observed, i: InvoiceId)
    requires Grows(db, after) && Linked(db) && Backs(db, x, i)
    ensures Backs(after, x, i)
  {
  }

  /** Interference neither adds to what this watcher has to settle nor confirms its invoices. */
  lemma QuietOutside(cfg: Config, db: Db, n: Network, script: seq<Move>)
    requires LedgerOk(db)
    ensures var after := RunOutside(cfg, db, n, script);
            LedgerOk(after) && Grows(db, after) && OnlyFreshAwait(n, db, after, None) && ConfirmedBy(n, db, after, None)
  {
    var after := RunOutside(cfg, db, n, script);
    OutsideRun(cfg, db, n, script);
    OutsideEvolves(cfg, db, n, script);
    hide RunOutside;
    forall r | Awaiting(after, n, r) ensures Awaiting(db, n, r) && after.payments[r] == db.payments[r] {
      assert r in db.payments;
    }
  }

  // ------------------------------------------------------------------ this watcher's own statements

  ghost predicate OwnStep(n: Network, db: Db, after: Db, x: Option<Observed>) {
    LedgerOk(after) && Grows(db, after) && OnlyFreshAwait(n, db, after, x) && ConfirmedBy(n, db, after, x)
  }

  lemma EvolvesGrows(db: Db, after: Db)
    requires Evolves(db, after)
    ensures Grows(db, after)
  {
  }

  lemma LedgerStep(cfg: Config, db: Db, m: Move)
    requires LedgerOk(db) && Admissible(db, m)
    ensures LedgerOk(Perform(cfg, db, m)) && Grows(db, Perform(cfg, db, m))
  {
    hide Perform, Evolves, Grows, Linked, PaidOnce, AmountsHeld, Admissible;
    EveryStepKeeps(cfg, db, m);
    EveryStepKeepsPaidOnce(cfg, db, m);
    EvolvesGrows(db, Perform(cfg, db, m));
  }

  /** The lookups of a credit, as far as they stay true. */
  predicate RightToken(db: Db, x: Observed, asset: AssetId, id: InvoiceId) {
    && asset in db.assets && db.assets[asset].network == x.ref.network && db.assets[asset].contract == x.contract
    && id in db.invoices && db.invoices[id].asset == asset && db.invoices[id].pay <= x.value
  }

  lemma CreditAwaits(cfg: Config, db: Db, x: Observed, asset: AssetId, id: InvoiceId, seen: Invoice, ev: EventId)
    requires LedgerOk(db) && StillSound(db, Credit(x, asset, id, seen))
    ensures OnlyFreshAwait(x.ref.network, db, After(db, CreditTx(cfg, db, x, asset, id, seen, ev)), Some(x))
  {
    var n := x.ref.network;
    var after := After(db, CreditTx(cfg, db, x, asset, id, seen, ev));
    CreditWrites(cfg, db, x, asset, id, seen, ev);
    hide CreditTx, HasLive;
    forall r | Awaiting(after, n, r) && r != x.ref ensures Awaiting(db, n, r) && after.payments[r] == db.payments[r] {
      var i := after.payments[r].invoice.value;
      assert LiveOn(db, r, i);
      assert i == id ==> db.invoices[id].status == Detected;
    }
  }

  lemma CreditConfirms(cfg: Config, db: Db, x: Observed, asset: AssetId, id: InvoiceId, seen: Invoice, ev: EventId)
    requires LedgerOk(db) && StillSound(db, Credit(x, asset, id, seen)) && RightToken(db, x, asset, id)
    ensures ConfirmedBy(x.ref.network, db, After(db, CreditTx(cfg, db, x, asset, id, seen, ev)), Some(x))
  {
    hide CreditTx, HasLive, LedgerOk, Grows, Backs;
    var after := After(db, CreditTx(cfg, db, x, asset, id, seen, ev));
    CreditWrites(cfg, db, x, asset, id, seen, ev);
    CreditFiles(cfg, db, x, asset, id, seen, ev);
    LedgerStep(cfg, db, Decide(Credit(x, asset, id, seen), ev));
    assert x.ref in after.payments || after == db;
    if after.invoices[id].status == Confirmed && db.invoices[id].status != Confirmed {
      CreditBacks(db, after, x, asset, id);
    }
  }

  lemma CreditBacks(db: Db, after: Db, x: Observed, asset: AssetId, id: InvoiceId)
    requires RightToken(db, x, asset, id) && Grows(db, after) && x.ref in after.payments
    requires after.payments[x.ref] == PaymentOf(x, asset, id)
             || (x.ref in db.payments && !IsLive(db.payments[x.ref]))
    ensures Backs(after, x, id)
  {
  }

  lemma SettleStep(cfg: Config, db: Db, p: Payment, ev: EventId)
    requires LedgerOk(db)
    ensures var after := After(db, SettleTx(cfg, db, p, ev));
            && LedgerOk(after) && Grows(db, after) && after.payments == db.payments
            && OnlyFreshAwait(p.ref.network, db, after, None)
            && (forall i: InvoiceId | IsConfirmed(after, i) && !IsConfirmed(db, i) :: p.invoice == Some(i))
  {
    SettleKeeps(cfg, db, p, ev);
    SettleKeepsPaidOnce(cfg, db, p, ev);
    SettleWrites(cfg, db, p, ev);
    hide SettleTx;
  }

  lemma RevokeStep(cfg: Config, db: Db, r: Ref, ev: EventId)
    requires LedgerOk(db)
    ensures var after := After(db, RevokeTx(cfg, db, r, ev));
            && OwnStep(r.network, db, after, None)
            && (r in db.payments ==> r in after.payments && !IsLive(after.payments[r]))
            && !Awaiting(after, r.network, r)
  {
    hide RevokeTx, LedgerOk, Grows, OnlyFreshAwait, ConfirmedBy;
    assert Linked(db) by { LedgerIsLinked(db); }
    LedgerStep(cfg, db, Move.Revoke(r, ev));
    RevokeWrites(cfg, db, r, ev);
    WithdrawnAwaitsNoMore(db, After(db, RevokeTx(cfg, db, r, ev)), r);
  }

  lemma LedgerIsLinked(db: Db)
    requires LedgerOk(db)
    ensures Linked(db)
  {
  }

  lemma WithdrawnAwaitsNoMore(db: Db, after: Db, r: Ref)
    requires || after == db
             || (r in db.payments && after.payments == db.payments[r := db.payments[r].(removedAt := Some(db.now))])
    requires r in db.payments && IsLive(db.payments[r]) ==> after != db
    requires after.invoices.Keys == db.invoices.Keys
    requires forall i | i in db.invoices ::
               after.invoices[i].status == db.invoices[i].status || after.invoices[i].status == Pending
    ensures OnlyFreshAwait(r.network, db, after, None) && ConfirmedBy(r.network, db, after, None)
    ensures r in db.payments ==> r in after.payments && !IsLive(after.payments[r])
    ensures !Awaiting(after, r.network, r)
  {
  }

  /** `after` is what an `Apply` of `x` made of `db`: others acted, the lookups were answered, others acted again, and
      the transaction ran; `ok` says whether it succeeded. */
  ghost predicate AppliedAs(cfg: Config, db: Db, after: Db, x: Observed, before: seq<Move>, during: seq<Move>,
                            ev: EventId, ok: bool)
  {
    var paused := RunOutside(cfg, db, x.ref.network, before);
    exists l | LookupsOk(paused, x, l) :: AnsweredAs(cfg, paused, after, x, l, during, ev, ok)
  }

  ghost predicate AnsweredAs(cfg: Config, paused: Db, after: Db, x: Observed, l: Lookups, during: seq<Move>,
                             ev: EventId, ok: bool)
    requires LookupsOk(paused, x, l)
  {
    var mid := RunOutside(cfg, paused, x.ref.network, during);
    var a := Finish(cfg, mid, Read(paused, x, l), ev);
    after == After(mid, a) && ok == a.Done?
  }

  /** A whole `Apply`: lookups in `db`, interference, then the transaction. */
  lemma ApplyStep(cfg: Config, db: Db, x: Observed, l: Lookups, others: seq<Move>, ev: EventId)
    requires LedgerOk(db) && LookupsOk(db, x, l)
    requires l.asset.Some? && l.invoice.Some? ==> l.invoice.value in db.invoices
    ensures var mid := RunOutside(cfg, db, x.ref.network, others);
            var a := Finish(cfg, mid, Read(db, x, l), ev);
            && OwnStep(x.ref.network, db, After(mid, a), Some(x))
            && (a.Done? ==> Filed(After(mid, a), x.ref))
  {
    hide RunOutside, Finish, LedgerOk, Linked, Grows, Undisturbed, OnlyFreshAwait, ConfirmedBy, StillSound;
    LedgerIsLinked(db);
    var n := x.ref.network;
    var d := Read(db, x, l);
    var mid := RunOutside(cfg, db, n, others);
    ReadIsSound(db, x, l);
    OutsideRun(cfg, db, n, others);
    QuietOutside(cfg, db, n, others);
    StaysSound(db, mid, d);
    AppliedIsFiled(cfg, mid, d, ev);
    LedgerStep(cfg, mid, Decide(d, ev));
    if d.Credit? {
      NamesToken(db, mid, x, l);
    }
    DecideStep(cfg, mid, x, d, ev);
    var after := After(mid, Finish(cfg, mid, d, ev));
    Compose(n, db, mid, after, x);
  }

  /** The row `p` records the credit of `x`, looked up in `db`, to an open invoice whose window holds it. */
  predicate CreditedIn(db: Db, x: Observed, p: Payment) {
    && p.invoice.Some? && p == PaymentOf(x, p.asset, p.invoice.value)
    && IsAsset(db, x.ref.network, x.contract, p.asset) && Claims(db, p.asset, x.value, p.invoice.value)
    && !IsTerminal(db.invoices[p.invoice.value].status)
  }

  /** Payments of the network: none has changed, and none is new but `x`, credited by what the lookups saw. */
  ghost predicate OnlyCredits(n: Network, seen: Db, db: Db, after: Db, x: Observed) {
    && (forall q: Ref | q.network == n && q in db.payments ::
          q in after.payments && after.payments[q] == db.payments[q])
    && (forall q: Ref | q.network == n && q in after.payments && q !in db.payments ::
          q == x.ref && CreditedIn(seen, x, after.payments[q]))
  }

  lemma FinishOnlyCredits(cfg: Config, seen: Db, db: Db, x: Observed, l: Lookups, ev: EventId)
    requires LookupsOk(seen, x, l) && Linked(db)
    requires l.asset.Some? && l.invoice.Some? ==> l.invoice.value in seen.invoices
    requires StillSound(db, Read(seen, x, l))
    ensures OnlyCredits(x.ref.network, seen, db, After(db, Finish(cfg, db, Read(seen, x, l), ev)), x)
  {
    var d := Read(seen, x, l);
    hide CreditTx, SettleTx, FoundInvoice, FoundAsset;
    match d {
      case Credit(_, asset, id, inv) =>
        CreditWrites(cfg, db, x, asset, id, inv, ev);
        FoundClaims(seen, x, l);
      case Reapply(p, final) =>
        SettleWrites(cfg, db, p, ev);
      case _ =>
    }
  }

  lemma FoundClaims(db: Db, x: Observed, l: Lookups)
    requires LookupsOk(db, x, l) && l.asset.Some? && l.invoice.Some?
    ensures IsAsset(db, x.ref.network, x.contract, l.asset.value)
    ensures Claims(db, l.asset.value, x.value, l.invoice.value) && l.invoice.value in db.invoices
  {
  }

  /** A detected invoice of the network is detected still, or confirmed. */
  ghost predicate DetectedGoesOn(n: Network, db: Db, after: Db) {
    forall i | i in db.invoices && db.invoices[i].network == n && db.invoices[i].status == Detected ::
      i in after.invoices && (after.invoices[i].status == Detected || after.invoices[i].status == Confirmed)
  }

  lemma FinishGoesOn(cfg: Config, n: Network, db: Db, d: Decision, ev: EventId)
    requires Linked(db) && StillSound(db, d)
    ensures DetectedGoesOn(n, db, After(db, Finish(cfg, db, d, ev)))
  {
    hide CreditTx, SettleTx;
    match d {
      case Credit(x, asset, id, inv) => CreditWrites(cfg, db, x, asset, id, inv, ev);
      case Reapply(p, final) => SettleWrites(cfg, db, p, ev); SettleKeeps(cfg, db, p, ev);
      case _ =>
    }
  }

  lemma UndisturbedGoesOn(n: Network, db: Db, paused: Db, mid: Db, after: Db)
    requires Undisturbed(n, db, paused) && Undisturbed(n, paused, mid) && DetectedGoesOn(n, mid, after)
    ensures DetectedGoesOn(n, db, after)
  {
  }

  /** A whole `Apply` among others' steps, by what it does to the payments of its network. */
  lemma ApplyMoves(cfg: Config, db: Db, after: Db, x: Observed, before: seq<Move>, during: seq<Move>, ev: EventId,
                   ok: bool)
    requires LedgerOk(db) && AppliedAs(cfg, db, after, x, before, during, ev, ok)
    ensures LedgerOk(after) && Grows(db, after) && Grows(RunOutside(cfg, db, x.ref.network, before), after)
    ensures OnlyCredits(x.ref.network, RunOutside(cfg, db, x.ref.network, before), db, after, x)
    ensures DetectedGoesOn(x.ref.network, db, after)
    ensures forall a | a in after.assets ::
              || (a in db.assets && after.assets[a] == db.assets[a])
              || Seeded(before, a, after.assets[a]) || Seeded(during, a, after.assets[a])
  {
    hide RunOutside, Finish, LedgerOk, Linked, Grows, Undisturbed, OwnStep, StillSound, Read, LookupsOk, OnlyCredits,
         Seeded, DetectedGoesOn;
    var n := x.ref.network;
    var paused := RunOutside(cfg, db, n, before);
    QuietOutside(cfg, db, n, before);
    assert exists l | LookupsOk(paused, x, l) :: AnsweredAs(cfg, paused, after, x, l, during, ev, ok);
    var l :| LookupsOk(paused, x, l) && AnsweredAs(cfg, paused, after, x, l, during, ev, ok);
    FoundIsThere(paused, x, l);
    LedgerIsLinked(paused);
    var mid := RunOutside(cfg, paused, n, during);
    ApplyStep(cfg, paused, x, l, during, ev);
    OwnStepGrows(n, paused, after, Some(x));
    GrowsTransitive(db, paused, after);
    ReadIsSound(paused, x, l);
    OutsideRun(cfg, db, n, before);
    OutsideRun(cfg, paused, n, during);
    StaysSound(paused, mid, Read(paused, x, l));
    LedgerIsLinked(mid);
    FinishOnlyCredits(cfg, paused, mid, x, l, ev);
    UndisturbedOnlyCredits(n, paused, db, paused, mid, after, x);
    FinishGoesOn(cfg, n, mid, Read(paused, x, l), ev);
    UndisturbedGoesOn(n, db, paused, mid, after);
    OutsideSeeds(cfg, db, n, before);
    OutsideSeeds(cfg, paused, n, during);
    FinishKeepsAssets(cfg, mid, Read(paused, x, l), ev);
  }

  lemma FinishKeepsAssets(cfg: Config, db: Db, d: Decision, ev: EventId)
    ensures After(db, Finish(cfg, db, d, ev)).assets == db.assets
  {
    hide EnqueueEvent, HasLive;
    if d.Credit? {
      CreditKeepsAssets(cfg, db, d, ev);
      hide CreditTx;
    }
  }

  lemma OwnStepGrows(n: Network, db: Db, after: Db, x: Option<Observed>)
    requires OwnStep(n, db, after, x)
    ensures LedgerOk(after) && Grows(db, after)
  {
  }

  lemma UndisturbedOnlyCredits(n: Network, seen: Db, db: Db, paused: Db, mid: Db, after: Db, x: Observed)
    requires Undisturbed(n, db, paused) && Undisturbed(n, paused, mid) && OnlyCredits(n, seen, mid, after, x)
    ensures OnlyCredits(n, seen, db, after, x)
  {
  }

  lemma FoundIsThere(db: Db, x: Observed, l: Lookups)
    requires LookupsOk(db, x, l)
    ensures l.asset.Some? && l.invoice.Some? ==> l.invoice.value in db.invoices
  {
  }

  /** An `Apply` whose lookups answered `l` fails exactly when the value is not positive, or the transfer is new and the
      open invoice found has a live payment already; what others do before its transaction makes no difference. */
  lemma AnsweredFailsIff(cfg: Config, paused: Db, after: Db, x: Observed, l: Lookups, during: seq<Move>, ev: EventId,
                         ok: bool)
    requires LedgerOk(paused) && LookupsOk(paused, x, l) && AnsweredAs(cfg, paused, after, x, l, during, ev, ok)
    ensures !ok <==> x.value <= 0 || (x.ref !in paused.payments && FoundOpen(paused, l)
                                      && HasLive(paused, l.invoice.value))
  {
    hide RunOutside, LedgerOk, Undisturbed, HasLive, LookupsOk, CreditTx, SettleTx, Linked;
    var n := x.ref.network;
    FoundIsThere(paused, x, l);
    LedgerIsLinked(paused);
    var mid := RunOutside(cfg, paused, n, during);
    OutsideRun(cfg, paused, n, during);
    LedgerIsLinked(mid);
    var d := Read(paused, x, l);
    ReadIsSound(paused, x, l);
    StaysSound(paused, mid, d);
    match d {
      case Credit(_, asset, id, seen) =>
        CreditFailsIff(cfg, mid, x, asset, id, seen, ev);
        SameLivePayments(n, paused, mid, id);
        UndisturbedRow(n, paused, mid, x.ref);
      case Reapply(p, final) => ReapplyNeverFails(cfg, mid, p, final, ev);
      case _ =>
    }
  }

  lemma ReapplyNeverFails(cfg: Config, db: Db, p: Payment, final: bool, ev: EventId)
    requires Linked(db) && StillSound(db, Reapply(p, final))
    ensures Finish(cfg, db, Reapply(p, final), ev).Done?
  {
    hide EnqueueEvent;
  }

  lemma UndisturbedRow(n: Network, db: Db, after: Db, r: Ref)
    requires Undisturbed(n, db, after) && r.network == n
    ensures r in db.payments <==> r in after.payments
    ensures r in db.payments ==> after.payments[r] == db.payments[r]
  {
  }

  /** Others neither add nor withdraw the live payments of this network's invoices. */
  lemma SameLivePayments(n: Network, db: Db, after: Db, i: InvoiceId)
    requires Linked(db) && Linked(after) && Undisturbed(n, db, after) && i in db.invoices && db.invoices[i].network == n
    ensures HasLive(after, i) <==> HasLive(db, i)
    ensures forall q :: LiveOn(after, q, i) <==> LiveOn(db, q, i)
  {
    forall q ensures LiveOn(after, q, i) <==> LiveOn(db, q, i) {
      if LiveOn(after, q, i) { assert q.network == n; }
      if LiveOn(db, q, i) { assert q.network == n; }
    }
  }

  lemma NamesToken(db: Db, mid: Db, x: Observed, l: Lookups)
    requires LookupsOk(db, x, l) && Grows(db, mid)
    requires l.asset.Some? && l.invoice.Some? && l.invoice.value in db.invoices
    ensures RightToken(mid, x, l.asset.value, l.invoice.value)
  {
  }

  lemma DecideStep(cfg: Config, db: Db, x: Observed, d: Decision, ev: EventId)
    requires LedgerOk(db) && StillSound(db, d)
    requires if d.Reapply? then d.payment.ref == x.ref && d.final == x.final else d.observed == x
    requires d.Credit? ==> RightToken(db, x, d.asset, d.id)
    ensures var after := After(db, Finish(cfg, db, d, ev));
            OnlyFreshAwait(x.ref.network, db, after, Some(x)) && ConfirmedBy(x.ref.network, db, after, Some(x))
  {
    match d {
      case Credit(_, asset, id, seen) =>
        CreditAwaits(cfg, db, x, asset, id, seen, ev);
        CreditConfirms(cfg, db, x, asset, id, seen, ev);
        hide CreditTx;
      case Reapply(p, final) =>
        SettleStep(cfg, db, p, ev);
        hide SettleTx;
      case _ =>
    }
  }

  lemma Compose(n: Network, a: Db, b: Db, c: Db, x: Observed)
    requires n == x.ref.network
    requires Grows(a, b) && OnlyFreshAwait(n, a, b, None) && ConfirmedBy(n, a, b, None) && Undisturbed(n, a, b)
    requires LedgerOk(b) && OwnStep(n, b, c, Some(x))
    ensures OwnStep(n, a, c, Some(x))
  {
    GrowsTransitive(a, b, c);
    hide LedgerOk, Backs;
    forall r | Awaiting(c, n, r) && Awaiting(b, n, r) ensures Awaiting(a, n, r) || (r == x.ref && r !in a.payments) {}
  }

  // ------------------------------------------------------------------ settling

  /** `r` was a payment waiting for finality, due by the watcher's own test, of invoice `i`. */
  predicate SettledBy(n: Network, db: Db, r: Ref, due: Payment -> bool, i: InvoiceId) {
    Awaiting(db, n, r) && due(db.payments[r]) && db.payments[r].invoice == Some(i)
  }

  /** Payments are as they were, and every newly confirmed invoice had one that was waiting and due. */
  ghost predicate SettledOnly(n: Network, db: Db, after: Db, due: Payment -> bool) {
    && (forall r: Ref | r.network == n :: r in db.payments <==> r in after.payments)
    && (forall r: Ref | r.network == n && r in db.payments :: after.payments[r] == db.payments[r])
    && (forall i | IsConfirmed(after, i) && after.invoices[i].network == n && !IsConfirmed(db, i) ::
          exists r :: r in db.payments && SettledBy(n, db, r, due, i))
  }

  lemma NothingSettled(n: Network, db: Db, due: Payment -> bool)
    ensures SettledOnly(n, db, db, due) && Grows(db, db)
  {
  }

  lemma QuietlySettled(n: Network, start: Db, db: Db, after: Db, due: Payment -> bool)
    requires SettledOnly(n, start, db, due) && Undisturbed(n, db, after) && ConfirmedBy(n, db, after, None)
    ensures SettledOnly(n, start, after, due)
  {
    hide SettledBy;
  }

  lemma OneSettled(n: Network, start: Db, db: Db, after: Db, p: Payment, due: Payment -> bool)
    requires SettledOnly(n, start, db, due) && after.payments == db.payments && Grows(db, after)
    requires forall i: InvoiceId | IsConfirmed(after, i) && !IsConfirmed(db, i) :: p.invoice == Some(i)
    requires Awaiting(start, n, p.ref) && start.payments[p.ref] == p && due(p)
    ensures SettledOnly(n, start, after, due)
  {
    forall i | IsConfirmed(after, i) && after.invoices[i].network == n && !IsConfirmed(start, i)
      ensures exists r :: r in start.payments && SettledBy(n, start, r, due, i)
    {
      if !IsConfirmed(db, i) {
        assert SettledBy(n, start, p.ref, due, i);
      } else {
        assert SameIssue(db.invoices[i], after.invoices[i]);
        var r :| r in start.payments && SettledBy(n, start, r, due, i);
      }
    }
  }

  /** A listed payment's invoice: detected until it is settled, confirmed from then on. */
  predicate OpenOrDone(db: Db, p: Payment) {
    p.invoice.Some? && p.invoice.value in db.invoices && db.invoices[p.invoice.value].network == p.ref.network
    && (db.invoices[p.invoice.value].status == Detected || db.invoices[p.invoice.value].status == Confirmed)
  }

  lemma OpenOrDoneUndisturbed(db: Db, after: Db, p: Payment)
    requires OpenOrDone(db, p) && Undisturbed(p.ref.network, db, after)
    ensures OpenOrDone(after, p)
  {
  }

  lemma OpenOrDoneSettled(cfg: Config, db: Db, q: Payment, ev: EventId, p: Payment)
    requires OpenOrDone(db, p)
    ensures OpenOrDone(After(db, SettleTx(cfg, db, q, ev)), p)
  {
    SettleWrites(cfg, db, q, ev);
    SettleKeeps(cfg, db, q, ev);
    hide SettleTx;
  }

  /** Settling a live payment of a detected invoice cannot fail, and confirms it. */
  lemma SettleConfirms(cfg: Config, db: Db, p: Payment, ev: EventId)
    requires Linked(db) && OpenOrDone(db, p) && IsLive(p)
    ensures SettleTx(cfg, db, p, ev).Done?
    ensures IsConfirmed(After(db, SettleTx(cfg, db, p, ev)), p.invoice.value)
  {
  }

  lemma ListedAreOpen(db: Db, pending: seq<Payment>)
    requires Linked(db)
    requires forall k | 0 <= k < |pending| ::
               pending[k].ref in db.payments && db.payments[pending[k].ref] == pending[k]
               && Awaiting(db, pending[k].ref.network, pending[k].ref)
    ensures forall k | 0 <= k < |pending| :: OpenOrDone(db, pending[k]) && IsLive(pending[k])
  {
  }

  lemma ConfirmedStays(db: Db, after: Db, i: InvoiceId)
    requires Grows(db, after) && IsConfirmed(db, i)
    ensures IsConfirmed(after, i)
  {
  }
}
