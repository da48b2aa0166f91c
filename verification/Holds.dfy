/** How long a pay amount stays with its invoice. */
module Holds {
  import opened Domain
  import opened Query
  import opened Tables
  import opened Matching
  import opened Ledger
  import opened Runs

  /** What one step does to the holds: an ending invoice keeps its amount for `hold` from that instant, an ended one
      gives it up only once its hold has run out, and nobody is issued an amount that is held. */
  ghost predicate HoldsStep(cfg: Config, db: Db, after: Db) {
    && db.now <= after.now
    && (forall i | i in db.invoices ::
          && i in after.invoices
          && SameIssue(db.invoices[i], after.invoices[i])
          && (IsTerminal(db.invoices[i].status) ==>
                && after.invoices[i].status == db.invoices[i].status
                && after.invoices[i].holdUntil == db.invoices[i].holdUntil)
          && (!IsTerminal(db.invoices[i].status) && IsTerminal(after.invoices[i].status) ==>
                after.invoices[i].holdUntil >= after.now + cfg.hold)
          && (db.invoices[i].held && !after.invoices[i].held ==>
                IsTerminal(db.invoices[i].status) && db.invoices[i].holdUntil <= after.now))
  }

  lemma CreditHolds(cfg: Config, db: Db, x: Observed, asset: AssetId, id: InvoiceId, seen: Invoice, ev: EventId)
    ensures HoldsStep(cfg, db, After(db, CreditTx(cfg, db, x, asset, id, seen, ev)))
  {
    hide HasLive;
  }

  lemma SettleHolds(cfg: Config, db: Db, p: Payment, ev: EventId)
    ensures HoldsStep(cfg, db, After(db, SettleTx(cfg, db, p, ev)))
  {
  }

  lemma RevokeHolds(cfg: Config, db: Db, r: Ref, ev: EventId)
    ensures HoldsStep(cfg, db, After(db, RevokeTx(cfg, db, r, ev)))
  {
  }

  lemma UnownedHolds(cfg: Config, db: Db, m: Move)
    requires Actor(m).None?
    ensures HoldsStep(cfg, db, Perform(cfg, db, m))
  {
  }

  lemma EveryStepHolds(cfg: Config, db: Db, m: Move)
    ensures HoldsStep(cfg, db, Perform(cfg, db, m))
  {
    hide HoldsStep;
    assert db.(now := db.now + 0) == db;
    UnownedHolds(cfg, db, Tick(0));
    match m
    case Decide(d, ev) =>
      match d {
        case Credit(x, asset, id, seen) => CreditHolds(cfg, db, x, asset, id, seen, ev);
        case Reapply(p, _) => SettleHolds(cfg, db, p, ev);
        case FileOrphan(x, _, _) => OrphanHolds(cfg, db, After(db, Finish(cfg, db, d, ev)));
        case Reject(_) =>
      }
    case Settle(r, ev) => if r in db.payments { SettleHolds(cfg, db, db.payments[r], ev); }
    case Revoke(r, ev) => RevokeHolds(cfg, db, r, ev);
    case _ => UnownedHolds(cfg, db, m);
  }

  lemma OrphanHolds(cfg: Config, db: Db, after: Db)
    requires after.invoices == db.invoices && after.now == db.now
    ensures HoldsStep(cfg, db, after)
  {
  }

  predicate NoHoldShortened(db: Db, after: Db) {
    forall i | i in db.invoices :: i in after.invoices && after.invoices[i].holdUntil >= db.invoices[i].holdUntil
  }

  lemma CreditRaises(cfg: Config, db: Db, x: Observed, asset: AssetId, id: InvoiceId, seen: Invoice, ev: EventId)
    ensures NoHoldShortened(db, After(db, CreditTx(cfg, db, x, asset, id, seen, ev)))
  {
    hide HasLive, EnqueueEvent;
  }

  lemma SettleRaises(cfg: Config, db: Db, p: Payment, ev: EventId)
    ensures NoHoldShortened(db, After(db, SettleTx(cfg, db, p, ev)))
  {
    hide EnqueueEvent;
  }

  lemma RevokeRaises(cfg: Config, db: Db, r: Ref, ev: EventId)
    ensures NoHoldShortened(db, After(db, RevokeTx(cfg, db, r, ev)))
  {
    hide EnqueueEvent;
  }

  /** Only cancelling can bring a hold forward, and it does exactly when the new hold, counted from now, is the
      shorter. */
  lemma OnlyCancelShortensAHold(cfg: Config, db: Db, m: Move, i: InvoiceId)
    requires i in db.invoices
    ensures i in Perform(cfg, db, m).invoices
    ensures Perform(cfg, db, m).invoices[i].holdUntil < db.invoices[i].holdUntil
            <==> m == Cancel(i) && db.invoices[i].status == Pending && db.now + cfg.hold < db.invoices[i].holdUntil
  {
    hide CreditTx, SettleTx, RevokeTx, AmountHeld, ExternalIdUsed;
    match m
    case Decide(Credit(x, asset, id, seen), ev) => CreditRaises(cfg, db, x, asset, id, seen, ev);
    case Decide(Reapply(p, _), ev) => SettleRaises(cfg, db, p, ev);
    case Settle(r, ev) => if r in db.payments { SettleRaises(cfg, db, db.payments[r], ev); }
    case Revoke(r, ev) => RevokeRaises(cfg, db, r, ev);
    case _ =>
  }

  /** The release leaves no amount reserved without need: afterwards an amount is held if and only if it was and its
      invoice is open or its hold still runs. */
  lemma ReleaseFreesWhatIsDue(db: Db, i: InvoiceId)
    requires i in db.invoices
    ensures i in ReleaseHolds(db).invoices
    ensures ReleaseHolds(db).invoices[i].held
            <==> db.invoices[i].held && (!IsTerminal(db.invoices[i].status) || db.now < db.invoices[i].holdUntil)
  {
  }

  /** An ended invoice's amount comes free as soon as time has passed its hold: after `elapsed` and a release it is
      taken, by whomever, if and only if the hold is not over by then. */
  lemma AmountComesFreeIff(cfg: Config, db: Db, i: InvoiceId, elapsed: nat)
    requires AmountsHeld(db) && i in db.invoices && db.invoices[i].held && IsTerminal(db.invoices[i].status)
    ensures var after := Perform(cfg, Perform(cfg, db, Tick(elapsed)), Release);
            AmountHeld(after, db.invoices[i].asset, db.invoices[i].pay) <==> db.now + elapsed < db.invoices[i].holdUntil
  {
    var later := db.(now := db.now + elapsed);
    var after := Perform(cfg, Perform(cfg, db, Tick(elapsed)), Release);
    var asset, pay := db.invoices[i].asset, db.invoices[i].pay;
    assert after == ReleaseHolds(later);
    ReleaseFreesWhatIsDue(later, i);
    if later.now < db.invoices[i].holdUntil {
      assert HoldsAmount(after, i, asset, pay);
    } else {
      forall j | j in after.invoices ensures !HoldsAmount(after, j, asset, pay) {
        assert after.invoices[j].held ==> db.invoices[j].held;
      }
    }
  }

  // ------------------------------------------------------------------ reuse over a run

  /** The books a run keeps about issuing and ending agree with the table. */
  ghost predicate Booked(cfg: Config, w: World) {
    && (forall i :: i in w.issued <==> i in w.db.invoices)
    && (forall i | i in w.db.invoices ::
          && w.db.invoices[i].createdAt <= w.db.now
          && (IsTerminal(w.db.invoices[i].status) <==> i in w.endedAt)
          && (IsTerminal(w.db.invoices[i].status) ==> w.db.invoices[i].holdUntil >= w.endedAt[i] + cfg.hold)
          && (!w.db.invoices[i].held ==> IsTerminal(w.db.invoices[i].status) && w.endedAt[i] + cfg.hold <= w.db.now))
  }

  /** `i`, issued first, had ended and sat out its hold by the time `j` was issued for the same amount. */
  ghost predicate Waited(cfg: Config, w: World, i: InvoiceId, j: InvoiceId)
    requires i in w.db.invoices && j in w.db.invoices
  {
    w.db.invoices[i].asset == w.db.invoices[j].asset && w.db.invoices[i].pay == w.db.invoices[j].pay ==>
      i in w.endedAt && w.db.invoices[j].createdAt >= w.endedAt[i] + cfg.hold
  }

  ghost predicate NoEarlyReuse(cfg: Config, w: World)
    requires Booked(cfg, w)
  {
    forall a, b | 0 <= a < b < |w.issued| :: Waited(cfg, w, w.issued[a], w.issued[b])
  }

  lemma StepKeepsBooked(cfg: Config, w: World, l: Label)
    requires Booked(cfg, w)
    ensures Booked(cfg, Step(cfg, w, l))
  {
    hide Perform, AmountHeld;
    if Enabled(w, l) && l.Act? {
      EveryStepHolds(cfg, w.db, l.move);
      IssuedOnlyByCreate(cfg, w.db, l.move);
    }
  }

  lemma IssuedOnlyByCreate(cfg: Config, db: Db, m: Move)
    ensures forall i | i in Perform(cfg, db, m).invoices && i !in db.invoices ::
              && m.Create? && m.id == i
              && Perform(cfg, db, m).invoices[i].createdAt == db.now
              && Perform(cfg, db, m).invoices[i].status == Pending
              && Perform(cfg, db, m).invoices[i].held
              && Perform(cfg, db, m).now == db.now
              && !AmountHeld(db, Perform(cfg, db, m).invoices[i].asset, Perform(cfg, db, m).invoices[i].pay)
  {
  }

  lemma StepKeepsReuse(cfg: Config, w: World, l: Label)
    requires Booked(cfg, w) && NoEarlyReuse(cfg, w)
    ensures Booked(cfg, Step(cfg, w, l)) && NoEarlyReuse(cfg, Step(cfg, w, l))
  {
    StepKeepsBooked(cfg, w, l);
    var next := Step(cfg, w, l);
    if Enabled(w, l) && l.Act? {
      EveryStepHolds(cfg, w.db, l.move);
      IssuedOnlyByCreate(cfg, w.db, l.move);
      hide Perform;
      forall a, b | 0 <= a < b < |next.issued| ensures Waited(cfg, next, next.issued[a], next.issued[b]) {
        var i, j := next.issued[a], next.issued[b];
        assert i == w.issued[a];
        if b < |w.issued| {
          assert Waited(cfg, w, i, w.issued[b]);
        } else if w.db.invoices[i].held {
          assert HoldsAmount(w.db, i, w.db.invoices[i].asset, w.db.invoices[i].pay);
        }
      }
    }
  }

  lemma {:induction false} EveryRunBooks(cfg: Config, start: Time, labels: seq<Label>)
    ensures Booked(cfg, Run(cfg, Initial(start), labels)) && NoEarlyReuse(cfg, Run(cfg, Initial(start), labels))
    decreases |labels|
  {
    if labels != [] {
      EveryRunBooks(cfg, start, labels[..|labels| - 1]);
      StepKeepsReuse(cfg, Run(cfg, Initial(start), labels[..|labels| - 1]), labels[|labels| - 1]);
    }
  }

  /** With one clock and a constant `amount_hold`: if two invoices of one run ever had the same asset and pay amount,
      the earlier one had ended, and the later was created no earlier than that ending plus the hold. */
  lemma AmountsAreNotReusedEarly(cfg: Config, start: Time, labels: seq<Label>, a: nat, b: nat)
    requires a < b < |Run(cfg, Initial(start), labels).issued|
    ensures var w := Run(cfg, Initial(start), labels);
            var i, j := w.issued[a], w.issued[b];
            && i in w.db.invoices && j in w.db.invoices
            && (w.db.invoices[i].asset == w.db.invoices[j].asset && w.db.invoices[i].pay == w.db.invoices[j].pay ==>
                  && IsTerminal(w.db.invoices[i].status)
                  && i in w.endedAt
                  && w.db.invoices[j].createdAt >= w.endedAt[i] + cfg.hold)
  {
    EveryRunBooks(cfg, start, labels);
    var w := Run(cfg, Initial(start), labels);
    assert Waited(cfg, w, w.issued[a], w.issued[b]);
  }

  // ------------------------------------------------------------------ expiry over a run

  lemma ExpiresOnlyOverdue(cfg: Config, db: Db, m: Move)
    ensures var after := Perform(cfg, db, m);
            forall i | i in db.invoices && i in after.invoices
                       && after.invoices[i].status == Expired && db.invoices[i].status != Expired ::
              db.invoices[i].status == Pending && db.invoices[i].expiresAt < db.now && after.now == db.now
  {
    hide HasLive, EnqueueEvent, AmountHeld, ExternalIdUsed;
  }

  ghost predicate ExpiredLate(w: World) {
    forall i | i in w.db.invoices && w.db.invoices[i].status == Expired ::
      i in w.endedAt && w.db.invoices[i].expiresAt < w.endedAt[i]
  }

  lemma StepKeepsExpiredLate(cfg: Config, w: World, l: Label)
    requires Booked(cfg, w) && ExpiredLate(w)
    ensures ExpiredLate(Step(cfg, w, l))
  {
    if Enabled(w, l) && l.Act? {
      EveryStepHolds(cfg, w.db, l.move);
      ExpiresOnlyOverdue(cfg, w.db, l.move);
      IssuedOnlyByCreate(cfg, w.db, l.move);
      hide Perform;
    }
  }

  /** Over every run: an invoice that expired did so after its deadline, unpaid. */
  lemma {:induction false} ExpiryComesAfterTheDeadline(cfg: Config, start: Time, labels: seq<Label>)
    ensures ExpiredLate(Run(cfg, Initial(start), labels))
    decreases |labels|
  {
    if labels != [] {
      hide Step, ExpiredLate, Booked;
      EveryRunBooks(cfg, start, labels[..|labels| - 1]);
      ExpiryComesAfterTheDeadline(cfg, start, labels[..|labels| - 1]);
      StepKeepsExpiredLate(cfg, Run(cfg, Initial(start), labels[..|labels| - 1]), labels[|labels| - 1]);
    }
  }
}
