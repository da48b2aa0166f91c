/** What the rest of the system may do while one network's watcher is between two of its own statements. One watcher
    runs per network at a time, so every step taken by somebody else is a merchant's, the expirer's, the clock's, the
    configuration's, or the other network's watcher's. */
module Interference {
  import opened Domain
  import opened Query
  import opened Tables
  import opened Matching
  import opened Ledger

  /** A step somebody other than network `n`'s watcher may take now. */
  predicate Outside(db: Db, n: Network, m: Move) {
    Actor(m) != Some(n) && Admissible(db, m)
  }

  /** A script of such steps; an entry that is not one is skipped. */
  function RunOutside(cfg: Config, db: Db, n: Network, script: seq<Move>): Db
    decreases |script|
  {
    if script == [] then db
    else RunOutside(cfg, if Outside(db, n, script[0]) then Perform(cfg, db, script[0]) else db, n, script[1..])
  }

  /** Nothing network `n`'s watcher relies on has moved: its payments are the same rows, and the same invoices are
      detected and confirmed. */
  ghost predicate Undisturbed(n: Network, db: Db, after: Db) {
    && (forall r: Ref | r.network == n :: r in db.payments <==> r in after.payments)
    && (forall r: Ref | r.network == n && r in db.payments :: after.payments[r] == db.payments[r])
    && (forall i | i in db.invoices ::
          i in after.invoices
          && after.invoices[i].network == db.invoices[i].network
          && after.invoices[i].asset == db.invoices[i].asset)
    && (forall i | i in db.invoices && db.invoices[i].network == n ::
          && (after.invoices[i].status == Detected <==> db.invoices[i].status == Detected)
          && (after.invoices[i].status == Confirmed <==> db.invoices[i].status == Confirmed)
          && (after.invoices[i].status == Pending ==> db.invoices[i].status == Pending))
    && (forall i | i in after.invoices && i !in db.invoices && after.invoices[i].network == n ::
          after.invoices[i].status != Detected && after.invoices[i].status != Confirmed)
  }

  lemma UndisturbedTransitive(n: Network, a: Db, b: Db, c: Db)
    requires Undisturbed(n, a, b) && Undisturbed(n, b, c)
    ensures Undisturbed(n, a, c)
  {
  }

  lemma CreditElsewhere(cfg: Config, db: Db, n: Network, x: Observed, asset: AssetId, id: InvoiceId, seen: Invoice,
                        ev: EventId)
    requires x.ref.network != n && StillSound(db, Credit(x, asset, id, seen))
    ensures Undisturbed(n, db, After(db, CreditTx(cfg, db, x, asset, id, seen, ev)))
  {
    hide CreditTx, HasLive, AmountsHeld, Linked, Transition;
    CreditWrites(cfg, db, x, asset, id, seen, ev);
    CreditKeeps(cfg, db, x, asset, id, seen, ev);
  }

  lemma SettleElsewhere(cfg: Config, db: Db, n: Network, p: Payment, ev: EventId)
    requires p.invoice.Some? && p.invoice.value in db.invoices ==> db.invoices[p.invoice.value].network != n
    ensures Undisturbed(n, db, After(db, SettleTx(cfg, db, p, ev)))
  {
  }

  lemma RevokeElsewhere(cfg: Config, db: Db, n: Network, r: Ref, ev: EventId)
    requires r.network != n && Linked(db)
    ensures Undisturbed(n, db, After(db, RevokeTx(cfg, db, r, ev)))
  {
    RevokeWrites(cfg, db, r, ev);
    hide RevokeTx;
  }

  lemma UnownedStep(cfg: Config, db: Db, n: Network, m: Move)
    requires Actor(m).None?
    ensures Undisturbed(n, db, Perform(cfg, db, m))
  {
    hide CreditTx, SettleTx, RevokeTx, AmountHeld, ExternalIdUsed, Undisturbed;
    OnlyInvoicesMoved(n, db, Perform(cfg, db, m));
  }

  /** Issuing, and ending what is pending or freeing what has ended, disturbs no watcher. */
  lemma OnlyInvoicesMoved(n: Network, db: Db, after: Db)
    requires after.payments == db.payments
    requires forall i | i in db.invoices ::
               && i in after.invoices
               && after.invoices[i].network == db.invoices[i].network
               && after.invoices[i].asset == db.invoices[i].asset
               && (after.invoices[i].status == db.invoices[i].status
                   || (db.invoices[i].status == Pending
                       && (after.invoices[i].status == Expired || after.invoices[i].status == Cancelled)))
    requires forall i | i in after.invoices && i !in db.invoices :: after.invoices[i].status == Pending
    ensures Undisturbed(n, db, after)
  {
  }

  /** Any step by anybody else leaves what this watcher relies on alone. */
  lemma OutsideStep(cfg: Config, db: Db, n: Network, m: Move)
    requires Linked(db) && Outside(db, n, m)
    ensures Undisturbed(n, db, Perform(cfg, db, m))
  {
    hide Undisturbed;
    UnownedStep(cfg, db, n, Tick(0));
    assert db.(now := db.now + 0) == db;
    match m
    case Decide(d, ev) =>
      match d {
        case Credit(x, asset, id, seen) => CreditElsewhere(cfg, db, n, x, asset, id, seen, ev);
        case Reapply(p, _) => SettleElsewhere(cfg, db, n, p, ev);
        case FileOrphan(x, _, _) => OrphanElsewhere(db, n, After(db, Finish(cfg, db, d, ev)));
        case Reject(_) =>
      }
    case Settle(r, ev) => if r in db.payments { SettleElsewhere(cfg, db, n, db.payments[r], ev); }
    case Revoke(r, ev) => RevokeElsewhere(cfg, db, n, r, ev);
    case _ => UnownedStep(cfg, db, n, m);
  }

  lemma OrphanElsewhere(db: Db, n: Network, after: Db)
    requires after.payments == db.payments && after.invoices == db.invoices
    ensures Undisturbed(n, db, after)
  {
  }

  lemma {:induction false} OutsideRun(cfg: Config, db: Db, n: Network, script: seq<Move>)
    requires LedgerOk(db)
    ensures LedgerOk(RunOutside(cfg, db, n, script))
    ensures Undisturbed(n, db, RunOutside(cfg, db, n, script))
    ensures forall r | r in db.orphans :: r in RunOutside(cfg, db, n, script).orphans
    decreases |script|
  {
    if script != [] {
      var m := script[0];
      var next := if Outside(db, n, m) then Perform(cfg, db, m) else db;
      if Outside(db, n, m) {
        OutsideStep(cfg, db, n, m);
        EveryStepKeeps(cfg, db, m);
        EveryStepKeepsPaidOnce(cfg, db, m);
      }
      OutsideRun(cfg, next, n, script[1..]);
      UndisturbedTransitive(n, db, next, RunOutside(cfg, next, n, script[1..]));
    }
  }

  /** Assets come from where they were or from a seed of the script. */
  predicate Seeded(script: seq<Move>, a: AssetId, row: Asset) {
    Move.Seed(a, row) in script
  }

  lemma {:induction false} OutsideSeeds(cfg: Config, db: Db, n: Network, script: seq<Move>)
    ensures var after := RunOutside(cfg, db, n, script);
            forall a | a in after.assets ::
              (a in db.assets && after.assets[a] == db.assets[a]) || Seeded(script, a, after.assets[a])
    decreases |script|
  {
    if script != [] {
      var m := script[0];
      AssetsComeFromSeeds(cfg, db, m);
      hide Perform;
      var next := if Outside(db, n, m) then Perform(cfg, db, m) else db;
      OutsideSeeds(cfg, next, n, script[1..]);
      forall a: AssetId, row | Seeded(script[1..], a, row) ensures Seeded(script, a, row) {}
    }
  }

  /** What everybody else does, with no watcher excluded. */
  function RunAnybody(cfg: Config, db: Db, script: seq<Move>): Db
    decreases |script|
  {
    if script == [] then db
    else RunAnybody(cfg, if Admissible(db, script[0]) then Perform(cfg, db, script[0]) else db, script[1..])
  }

  lemma {:induction false} RunAnybodyKeeps(cfg: Config, db: Db, script: seq<Move>)
    requires LedgerOk(db)
    ensures LedgerOk(RunAnybody(cfg, db, script))
    decreases |script|
  {
    if script != [] {
      if Admissible(db, script[0]) {
        EveryStepKeeps(cfg, db, script[0]);
        EveryStepKeepsPaidOnce(cfg, db, script[0]);
        RunAnybodyKeeps(cfg, Perform(cfg, db, script[0]), script[1..]);
      } else {
        RunAnybodyKeeps(cfg, db, script[1..]);
      }
    }
  }

  lemma {:induction false} RunAnybodyConcat(cfg: Config, db: Db, a: seq<Move>, b: seq<Move>)
    ensures RunAnybody(cfg, db, a + b) == RunAnybody(cfg, RunAnybody(cfg, db, a), b)
    decreases |a|
  {
    if a == [] {
      assert a + b == b;
    } else {
      assert (a + b)[0] == a[0] && (a + b)[1..] == a[1..] + b;
      RunAnybodyConcat(cfg, if Admissible(db, a[0]) then Perform(cfg, db, a[0]) else db, a[1..], b);
    }
  }

  lemma NobodyActs(cfg: Config, db: Db)
    ensures RunAnybody(cfg, db, []) == db
  {
  }

  /** A decision survives interference. */
  lemma StaysSound(db: Db, after: Db, d: Decision)
    requires StillSound(db, d) && Undisturbed(NetworkOf(d), db, after)
    ensures StillSound(after, d)
  {
  }
}
