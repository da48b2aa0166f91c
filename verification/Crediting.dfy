/** Crediting the right invoice exactly once, and losing nothing. */
module Crediting {
  import opened Domain
  import opened Query
  import opened Tables
  import opened Matching
  import opened Ledger
  import opened Rows
  import opened Runs
  import Interference

  /** `Apply` with nobody in between. */
  function ApplyNow(cfg: Config, db: Db, x: Observed, l: Lookups, ev: EventId): Answer
    requires l.asset.Some? && l.invoice.Some? ==> l.invoice.value in db.invoices
  {
    Finish(cfg, db, Read(db, x, l), ev)
  }

  /** The transfer is on record: as a payment, withdrawn or not, or as an orphan. */
  predicate Filed(db: Db, r: Ref) {
    r in db.payments || r in db.orphans
  }

  // ------------------------------------------------------------------ one transfer

  /** A successful `Apply`, however long it waited for its transaction, leaves its transfer on record; a failed one
      changes nothing. */
  lemma AppliedIsFiled(cfg: Config, db: Db, d: Decision, ev: EventId)
    requires StillSound(db, d)
    ensures var a := Finish(cfg, db, d, ev);
            && (a.Done? ==> Filed(a.db, if d.Reapply? then d.payment.ref else d.observed.ref))
            && (a.Failed? ==> After(db, a) == db)
  {
    match d
    case Credit(x, asset, id, seen) => CreditFiles(cfg, db, x, asset, id, seen, ev);
    case Reapply(p, _) => SettleWrites(cfg, db, p, ev);
    case _ =>
  }

  lemma CreditFiles(cfg: Config, db: Db, x: Observed, asset: AssetId, id: InvoiceId, seen: Invoice, ev: EventId)
    ensures CreditTx(cfg, db, x, asset, id, seen, ev).Done? ==>
        x.ref in CreditTx(cfg, db, x, asset, id, seen, ev).db.payments
  {
    hide HasLive;
  }

  /** The whole verdict of an undisturbed `Apply` on a transfer not yet on record, by what the tables say. Credited
      means: the transfer is a positive amount of a known asset that falls into the window of a held invoice of that
      asset, no other claimant is newer, the invoice was open, and it is now detected or, for a final transfer,
      confirmed and paid. */
  lemma AppliedToTheRightInvoice(cfg: Config, db: Db, x: Observed, l: Lookups, ev: EventId)
    requires LedgerOk(db) && LookupsOk(db, x, l) && x.ref !in db.payments && x.value > 0
    ensures var a := ApplyNow(cfg, db, x, l, ev);
            && (l.asset.None? <==> a.Done? && a.result.reason == Some(UnknownAsset))
            && (l.asset.Some? && (forall i :: !Claims(db, l.asset.value, x.value, i))
                <==> a.Done? && a.result.reason == Some(NoInvoice))
            && (l.asset.Some? && l.invoice.Some? && IsTerminal(db.invoices[l.invoice.value].status)
                <==> a.Done? && a.result.reason == Some(InvoiceTerminal))
            && (a.Done? && a.result.outcome == Credited ==>
                  var i := a.result.invoice.value;
                  && l.asset.Some? && Claims(db, l.asset.value, x.value, i)
                  && (forall j :: Claims(db, l.asset.value, x.value, j) ==>
                        db.invoices[j].createdAt <= db.invoices[i].createdAt)
                  && !IsTerminal(db.invoices[i].status)
                  && LiveOn(a.db, x.ref, i)
                  && PaymentRecords(a.db.payments[x.ref], x, l.asset.value)
                  && MovedOn(cfg, db.now, db.invoices[i], a.db.invoices[i], if x.final then Confirmed else Detected)
                  && a.db.invoices[i].confirmations == db.invoices[i].confirmations
                  && Notified(cfg, db.events, a.db.events,
                              Event(ev, i, if x.final then EventConfirmed else EventDetected,
                                    if x.final then Confirmed else Detected))
                  && (forall j | j in db.invoices && j != i :: a.db.invoices[j] == db.invoices[j]))
            && (FoundOpen(db, l) && !HasLive(db, l.invoice.value) ==>
                  && a.Done? && a.result.invoice == l.invoice
                  && (a.result.outcome == Credited <==>
                        db.invoices[l.invoice.value].status == Pending || x.final))
            && (a.Done? && a.result.outcome == Orphaned ==>
                  && a.db.invoices == db.invoices && a.db.payments == db.payments && x.ref in a.db.orphans
                  && if x.ref in db.orphans then a.db.orphans == db.orphans
                     else OrphanRecords(a.db.orphans[x.ref], x, l.asset, a.result.reason))
            && (a.Failed? <==> FoundOpen(db, l) && HasLive(db, l.invoice.value))
  {
    hide LedgerOk, CreditTx, SettleTx, HasLive;
    if Read(db, x, l).Credit? && HasLive(db, l.invoice.value) {
      CreditedFresh(cfg, db, x, l.asset.value, l.invoice.value, ev);
    } else if Read(db, x, l).Credit? {
      var i := l.invoice.value;
      assert Claims(db, l.asset.value, x.value, i);
      CreditedFresh(cfg, db, x, l.asset.value, i, ev);
      FreshRows(cfg, db, x, l.asset.value, i, ev);
      hide Notified, MovedOn;
    }
  }

  lemma FreshRows(cfg: Config, db: Db, x: Observed, asset: AssetId, i: InvoiceId, ev: EventId)
    requires x.ref !in db.payments && i in db.invoices && !IsTerminal(db.invoices[i].status) && !HasLive(db, i)
    ensures var a := CreditTx(cfg, db, x, asset, i, db.invoices[i], ev);
            && a.Done? && a.result.invoice == Some(i) && i in a.db.invoices
            && (a.result.outcome == Credited <==> db.invoices[i].status == Pending || x.final)
            && (a.result.outcome == Credited ==>
                  && MovedOn(cfg, db.now, db.invoices[i], a.db.invoices[i], if x.final then Confirmed else Detected)
                  && a.db.invoices[i].confirmations == db.invoices[i].confirmations
                  && Notified(cfg, db.events, a.db.events,
                              Event(ev, i, if x.final then EventConfirmed else EventDetected,
                                    if x.final then Confirmed else Detected)))
  {
    BlockedIsRefused(db, x, asset, i);
    CreditWritesRows(cfg, db, x, asset, i, db.invoices[i], ev);
    CreditAnswers(cfg, db, x, asset, i, db.invoices[i], ev);
    hide CreditTx, HasLive, Notified, PaymentWritten;
  }

  /** Crediting a transfer not seen before to an open invoice: it goes through unless the invoice has a live payment. */
  lemma CreditedFresh(cfg: Config, db: Db, x: Observed, asset: AssetId, i: InvoiceId, ev: EventId)
    requires x.ref !in db.payments && i in db.invoices && !IsTerminal(db.invoices[i].status)
    ensures var a := CreditTx(cfg, db, x, asset, i, db.invoices[i], ev);
            && (a.Failed? <==> HasLive(db, i))
            && (a.Done? ==>
                  && a.result.reason.None? && a.result.outcome != Orphaned && a.result.invoice == Some(i)
                  && LiveOn(a.db, x.ref, i)
                  && a.db.payments[x.ref] == PaymentOf(x, asset, i)
                  && i in a.db.invoices
                  && a.db.invoices[i].status == (if x.final then Confirmed else Detected)
                  && (a.result.outcome == Credited && x.final ==> a.db.invoices[i].paidAt == Some(db.now))
                  && (forall j | j in db.invoices && j != i ::
                        j in a.db.invoices && a.db.invoices[j] == db.invoices[j]))
  {
    hide EnqueueEvent, HasLive;
  }

  /** The lookups answered an invoice that can still be paid. */
  predicate FoundOpen(db: Db, l: Lookups) {
    && l.asset.Some? && l.invoice.Some? && l.invoice.value in db.invoices
    && !IsTerminal(db.invoices[l.invoice.value].status)
  }

  /** Exactly when an `Apply` returns an error: the value is not positive, or a transfer not yet on record as a payment
      falls to an open invoice that already has a live payment. */
  lemma ApplyFailsIff(cfg: Config, db: Db, x: Observed, l: Lookups, ev: EventId)
    requires LedgerOk(db) && LookupsOk(db, x, l)
    ensures ApplyNow(cfg, db, x, l, ev).Failed?
            <==> x.value <= 0 || (x.ref !in db.payments && FoundOpen(db, l) && HasLive(db, l.invoice.value))
  {
    hide HasLive, EnqueueEvent;
  }

  /** Repeating an `Apply` whose row is not withdrawn, the database answering its lookups as it likes: exactly when the
      repeat changes anything. The first one must have left no payment, and this time the answer must be an open invoice
      without a live payment (one that ties with the first answer), or no open invoice while the transfer is not filed
      as an orphan. */
  lemma ApplyIsIdempotent(cfg: Config, db: Db, x: Observed, l: Lookups, ev: EventId, l2: Lookups, again: EventId)
    requires LedgerOk(db) && LookupsOk(db, x, l)
    requires x.ref in db.payments ==> IsLive(db.payments[x.ref])
    requires LookupsOk(After(db, ApplyNow(cfg, db, x, l, ev)), x, l2)
    ensures var once := After(db, ApplyNow(cfg, db, x, l, ev));
            After(once, ApplyNow(cfg, once, x, l2, again)) != once
            <==> x.value > 0 && x.ref !in once.payments
                 && if FoundOpen(once, l2) then !HasLive(once, l2.invoice.value) else x.ref !in once.orphans
  {
    var once := After(db, ApplyNow(cfg, db, x, l, ev));
    if x.ref in once.payments {
      hide LookupsOk;
      RecordedIsSettled(cfg, db, x, l, ev);
      RepeatSettled(cfg, once, x, l2, again);
    } else {
      assert Read(db, x, l).Credit? ==> once == db by {
        if Read(db, x, l).Credit? {
          CreditFiles(cfg, db, x, l.asset.value, l.invoice.value, db.invoices[l.invoice.value], ev);
        }
      }
      UnrecordedChangesIff(cfg, once, x, l2, again);
    }
    hide ApplyNow;
  }

  /** It happens: two invoices of one token issued at the same instant, at 100 and at 105 with windows ten wide, one
      ended, one pending. A transfer of 107 is filed as an orphan of the one, and a repeat credits the other. */
  lemma ARepeatCanCredit()
    returns (cfg: Config, db: Db, x: Observed, l: Lookups, l2: Lookups, ev: EventId, again: EventId)
    ensures LedgerOk(db) && LookupsOk(db, x, l) && x.ref !in db.payments
    ensures var once := After(db, ApplyNow(cfg, db, x, l, ev));
            && LookupsOk(once, x, l2) && x.ref in once.orphans
            && x.ref in After(once, ApplyNow(cfg, once, x, l2, again)).payments
  {
    cfg, ev, again := Config(10, true), 0, 1;
    var ended := Invoice(None, 0, Tron, 100, 100, 0, Cancelled, 0, 0, 9, true, 9, None);
    var open := Invoice(None, 0, Tron, 105, 105, 0, Pending, 0, 0, 9, true, 9, None);
    db := Db(2, map[0 := Asset(Tron, "T", 10, 5, true)], map[0 := ended, 1 := open], map[], map[], []);
    x := Observed(Ref(Tron, "a", 0), "T", 107, 0, 1, false);
    l, l2 := Lookups(Some(0), Some(0)), Lookups(Some(0), Some(1));
    assert LedgerOk(db);
    assert IsAsset(db, Tron, "T", 0) && Claims(db, 0, 107, 0) && Claims(db, 0, 107, 1);
    assert LookupsOk(db, x, l) && LookupsOk(db, x, l2);
    var once := After(db, ApplyNow(cfg, db, x, l, ev));
    assert once == db.(orphans := map[x.ref := OrphanOf(x, Some(0), InvoiceTerminal)]);
    assert Claims(once, 0, 107, 0) && Claims(once, 0, 107, 1);
    forall r ensures !LiveOn(once, r, 1) {}
    CreditFiles(cfg, once, x, 0, 1, open, again);
    CreditFailsIff(cfg, once, x, 0, 1, open, again);
  }

  lemma CreditFailsIff(cfg: Config, db: Db, x: Observed, asset: AssetId, id: InvoiceId, seen: Invoice, ev: EventId)
    ensures CreditTx(cfg, db, x, asset, id, seen, ev).Failed? <==> x.ref !in db.payments && HasLive(db, id)
  {
    hide HasLive, EnqueueEvent;
  }

  /** A recorded transfer's payment is live, and if the transfer is final its invoice has been settled. */
  ghost predicate RecordedSettled(db: Db, x: Observed) {
    && x.ref in db.payments && IsLive(db.payments[x.ref])
    && (x.final && db.payments[x.ref].invoice.Some? && db.payments[x.ref].invoice.value in db.invoices ==>
          IsTerminal(db.invoices[db.payments[x.ref].invoice.value].status))
  }

  lemma RecordedIsSettled(cfg: Config, db: Db, x: Observed, l: Lookups, ev: EventId)
    requires LedgerOk(db) && LookupsOk(db, x, l)
    requires x.ref in db.payments ==> IsLive(db.payments[x.ref])
    requires x.ref in After(db, ApplyNow(cfg, db, x, l, ev)).payments
    ensures x.value > 0 ==> RecordedSettled(After(db, ApplyNow(cfg, db, x, l, ev)), x)
  {
    var d := Read(db, x, l);
    hide HasLive, EnqueueEvent, CreditTx, SettleTx;
    if d.Credit? {
      CreditedFresh(cfg, db, x, d.asset, d.id, ev);
    } else if d.Reapply? {
      SettledAfter(cfg, db, d.payment, ev);
    }
  }

  lemma SettledAfter(cfg: Config, db: Db, p: Payment, ev: EventId)
    requires IsLive(p)
    ensures var after := After(db, SettleTx(cfg, db, p, ev));
            && after.payments == db.payments && after.invoices.Keys == db.invoices.Keys
            && (Linked(db) && p.invoice.Some? && p.invoice.value in db.invoices ==>
                  IsTerminal(after.invoices[p.invoice.value].status))
  {
    hide EnqueueEvent;
  }

  lemma RepeatSettled(cfg: Config, db: Db, x: Observed, l: Lookups, ev: EventId)
    requires l.asset.Some? && l.invoice.Some? ==> l.invoice.value in db.invoices
    requires x.value > 0 ==> RecordedSettled(db, x)
    ensures After(db, ApplyNow(cfg, db, x, l, ev)) == db
  {
    hide CreditTx;
  }

  lemma UnrecordedChangesIff(cfg: Config, db: Db, x: Observed, l: Lookups, ev: EventId)
    requires LookupsOk(db, x, l) && x.ref !in db.payments
    ensures After(db, ApplyNow(cfg, db, x, l, ev)) != db
            <==> x.value > 0 && if FoundOpen(db, l) then !HasLive(db, l.invoice.value) else x.ref !in db.orphans
  {
    hide HasLive, EnqueueEvent;
    if Read(db, x, l).Credit? {
      CreditFiles(cfg, db, x, l.asset.value, l.invoice.value, db.invoices[l.invoice.value], ev);
    }
  }

  /** An `Apply` leaves alone what a lookup by amount depends on. */
  lemma ApplyKeepsClaims(cfg: Config, db: Db, x: Observed, l: Lookups, ev: EventId)
    requires l.asset.Some? && l.invoice.Some? ==> l.invoice.value in db.invoices
    ensures SameClaims(db, After(db, ApplyNow(cfg, db, x, l, ev)))
  {
    if Read(db, x, l).Credit? {
      CreditKeepsClaims(cfg, db, x, l.asset.value, l.invoice.value, db.invoices[l.invoice.value], ev);
      hide CreditTx, SameClaims;
    } else {
      hide CreditTx, EnqueueEvent;
      assert SameClaims(db, After(db, ApplyNow(cfg, db, x, l, ev)));
    }
  }

  lemma CreditKeepsClaims(cfg: Config, db: Db, x: Observed, asset: AssetId, id: InvoiceId, seen: Invoice, ev: EventId)
    ensures SameClaims(db, After(db, CreditTx(cfg, db, x, asset, id, seen, ev)))
  {
    hide HasLive, EnqueueEvent;
  }

  /** In particular, given the same answers again it changes nothing. */
  lemma SameAnswersChangeNothing(cfg: Config, db: Db, x: Observed, l: Lookups, ev: EventId, again: EventId)
    requires LedgerOk(db) && LookupsOk(db, x, l)
    requires x.ref in db.payments ==> IsLive(db.payments[x.ref])
    ensures var once := After(db, ApplyNow(cfg, db, x, l, ev));
            && LookupsOk(once, x, l)
            && After(once, ApplyNow(cfg, once, x, l, again)) == once
  {
    ApplyKeepsClaims(cfg, db, x, l, ev);
    LookupsStay(db, After(db, ApplyNow(cfg, db, x, l, ev)), x, l);
    ApplyIsIdempotent(cfg, db, x, l, ev, l, again);
    var once := After(db, ApplyNow(cfg, db, x, l, ev));
    if x.ref !in once.payments {
      hide HasLive, EnqueueEvent;
      if Read(db, x, l).Credit? {
        CreditFiles(cfg, db, x, l.asset.value, l.invoice.value, db.invoices[l.invoice.value], ev);
      }
    }
  }

  /** The database has one answer when assets are unique per contract and no older claimant is as new as the newest. */
  lemma OneAnswer(db: Db, x: Observed, l: Lookups, l2: Lookups)
    requires AssetKeyUnique(db) && LookupsOk(db, x, l) && LookupsOk(db, x, l2)
    requires l.asset.Some? && l.invoice.Some? ==>
               forall j :: Claims(db, l.asset.value, x.value, j) && j != l.invoice.value ==>
                 db.invoices[j].createdAt != db.invoices[l.invoice.value].createdAt
    ensures l.asset == l2.asset && (l.asset.Some? ==> l.invoice == l2.invoice)
  {
  }

  /** A final re-read of a recorded transfer confirms its invoice while that is detected. */
  lemma FinalReReadConfirms(cfg: Config, db: Db, x: Observed, l: Lookups, ev: EventId, i: InvoiceId)
    requires LedgerOk(db) && LookupsOk(db, x, l) && x.value > 0 && x.final
    requires LiveOn(db, x.ref, i) && i in db.invoices && db.invoices[i].status == Detected
    ensures var a := ApplyNow(cfg, db, x, l, ev);
            && a.Done? && a.result.outcome == Credited
            && a.db.invoices[i].status == Confirmed
            && a.db.invoices[i].paidAt == Some(db.now)
            && a.db.payments == db.payments
            && (cfg.notify && !Queued(db, ev) ==>
                  a.db.events == db.events + [Event(ev, i, EventConfirmed, Confirmed)])
  {
  }

  /** A credit that brings an invoice to `detected` leaves it with a live payment if and only if the transfer had no
      row before: ON CONFLICT DO NOTHING does not revive a withdrawn one. */
  lemma DetectedWithPaymentIff(cfg: Config, db: Db, x: Observed, asset: AssetId, id: InvoiceId, seen: Invoice,
      ev: EventId)
    requires LedgerOk(db) && StillSound(db, Credit(x, asset, id, seen))
    requires db.invoices[id].status == Pending
    requires var a := CreditTx(cfg, db, x, asset, id, seen, ev); a.Done? && a.db.invoices[id].status == Detected
    ensures HasLive(CreditTx(cfg, db, x, asset, id, seen, ev).db, id) <==> x.ref !in db.payments
  {
    var after := CreditTx(cfg, db, x, asset, id, seen, ev).db;
    CreditWrites(cfg, db, x, asset, id, seen, ev);
    CreditFiles(cfg, db, x, asset, id, seen, ev);
    hide CreditTx;
    if x.ref !in db.payments {
      assert LiveOn(after, x.ref, id);
    } else {
      forall r | LiveOn(after, r, id) ensures LiveOn(db, r, id) {}
    }
  }

  // ------------------------------------------------------------------ over a run

  ghost predicate PaidOrRevived(w: World) {
    && (forall i | i in w.db.invoices && w.db.invoices[i].status == Detected && i !in w.revived :: HasLive(w.db, i))
    && w.revived <= w.db.invoices.Keys
  }

  lemma KeepsPayment(db: Db, after: Db, i: InvoiceId)
    requires HasLive(db, i)
    requires forall r | LiveOn(db, r, i) :: LiveOn(after, r, i)
    ensures HasLive(after, i)
  {
    var r :| r in db.payments && LiveOn(db, r, i);
    assert LiveOn(after, r, i);
  }

  lemma CreditKeepsPayments(cfg: Config, db: Db, x: Observed, asset: AssetId, id: InvoiceId, seen: Invoice, ev: EventId,
                            i: InvoiceId)
    requires LedgerOk(db) && StillSound(db, Credit(x, asset, id, seen))
    requires i in db.invoices && (db.invoices[i].status == Detected ==> HasLive(db, i))
    requires i == id ==> x.ref !in db.payments
    ensures var after := After(db, CreditTx(cfg, db, x, asset, id, seen, ev));
            i in after.invoices && (after.invoices[i].status == Detected ==> HasLive(after, i))
  {
    var a := CreditTx(cfg, db, x, asset, id, seen, ev);
    var after := After(db, a);
    CreditWrites(cfg, db, x, asset, id, seen, ev);
    CreditFiles(cfg, db, x, asset, id, seen, ev);
    hide CreditTx;
    if db.invoices[i].status == Detected {
      KeepsPayment(db, after, i);
    } else if after.invoices[i].status == Detected {
      assert LiveOn(after, x.ref, i);
    }
  }

  lemma StepKeepsPaidOrRevived(cfg: Config, w: World, l: Label)
    requires WorldOk(w) && PaidOrRevived(w)
    ensures PaidOrRevived(Step(cfg, w, l))
  {
    if Enabled(w, l) && l.Act? {
      var m := l.move;
      var db := Perform(cfg, w.db, m);
      EveryStepKeeps(cfg, w.db, m);
      forall i | i in db.invoices && db.invoices[i].status == Detected && i !in w.revived + RevivedBy(w.db, m)
        ensures HasLive(db, i)
      {
        PaidAfter(cfg, w, m, i);
      }
    }
  }

  lemma PaidAfter(cfg: Config, w: World, m: Move, i: InvoiceId)
    requires WorldOk(w) && PaidOrRevived(w) && Enabled(w, Act(m))
    requires i in Perform(cfg, w.db, m).invoices && Perform(cfg, w.db, m).invoices[i].status == Detected
    requires i !in w.revived + RevivedBy(w.db, m)
    ensures HasLive(Perform(cfg, w.db, m), i)
  {
    hide CreditTx, SettleTx, RevokeTx, HasLive, AmountsHeld, Linked, PaidOnce;
    var db := w.db;
    match m
    case Decide(d, ev) =>
      match d {
        case Credit(x, asset, id, seen) => CreditWrites(cfg, db, x, asset, id, seen, ev);
          CreditKeepsPayments(cfg, db, x, asset, id, seen, ev, i);
        case Reapply(p, _) => SettleWrites(cfg, db, p, ev); KeepsPayment(db, Perform(cfg, db, m), i);
        case _ => OtherMovesKeepPayment(cfg, db, m, i);
      }
    case Settle(r, ev) =>
      if r in db.payments { SettleWrites(cfg, db, db.payments[r], ev); }
      KeepsPayment(db, Perform(cfg, db, m), i);
    case Revoke(r, ev) =>
      RevokeWrites(cfg, db, r, ev);
      KeepsPayment(db, Perform(cfg, db, m), i);
    case _ => OtherMovesKeepPayment(cfg, db, m, i);
  }

  /** Moves that touch no payment do not bring an invoice to detected. */
  lemma OtherMovesKeepPayment(cfg: Config, db: Db, m: Move, i: InvoiceId)
    requires !m.Settle? && !m.Revoke? && (m.Decide? ==> m.decision.Reject? || m.decision.FileOrphan?)
    requires i in Perform(cfg, db, m).invoices && Perform(cfg, db, m).invoices[i].status == Detected
    requires i in db.invoices && db.invoices[i].status == Detected ==> HasLive(db, i)
    ensures HasLive(Perform(cfg, db, m), i)
  {
    hide CreditTx, SettleTx, RevokeTx, HasLive, LiveOn;
    assert Perform(cfg, db, m).payments == db.payments;
    SamePayments(db, Perform(cfg, db, m), i);
  }

  lemma SamePayments(db: Db, after: Db, i: InvoiceId)
    requires after.payments == db.payments
    ensures HasLive(after, i) <==> HasLive(db, i)
  {
    forall r ensures LiveOn(after, r, i) <==> LiveOn(db, r, i) {}
  }

  lemma {:induction false} EveryRunPaidOrRevived(cfg: Config, start: Time, labels: seq<Label>)
    ensures PaidOrRevived(Run(cfg, Initial(start), labels))
    decreases |labels|
  {
    if labels != [] {
      var before := Run(cfg, Initial(start), labels[..|labels| - 1]);
      EveryRunPaidOrRevived(cfg, start, labels[..|labels| - 1]);
      EveryRunKeepsTheLedger(cfg, start, labels[..|labels| - 1]);
      StepKeepsPaidOrRevived(cfg, before, labels[|labels| - 1]);
    }
  }

  /** No watcher of this run ever starts on a transfer whose payment row is withdrawn. */
  ghost predicate NoneReobserved(cfg: Config, w: World, labels: seq<Label>) {
    forall k | 0 <= k < |labels| && labels[k].Begin? ::
      var db := Run(cfg, w, labels[..k]).db;
      var r := labels[k].observed.ref;
      r in db.payments ==> IsLive(db.payments[r])
  }

  lemma {:induction false} NoneRevived(cfg: Config, start: Time, labels: seq<Label>)
    requires NoneReobserved(cfg, Initial(start), labels)
    ensures var w := Run(cfg, Initial(start), labels);
            && w.revived == {}
            && (forall n | n in w.inFlight && w.inFlight[n].Credit? :: w.inFlight[n].observed.ref !in w.db.payments)
    decreases |labels|
  {
    if labels != [] {
      var front := labels[..|labels| - 1];
      var before := Run(cfg, Initial(start), front);
      var l := labels[|labels| - 1];
      forall k | 0 <= k < |front| && front[k].Begin?
        ensures var db := Run(cfg, Initial(start), front[..k]).db;
                front[k].observed.ref in db.payments ==> IsLive(db.payments[front[k].observed.ref])
      {
        assert front[..k] == labels[..k] && front[k] == labels[k];
      }
      NoneRevived(cfg, start, front);
      EveryRunKeepsTheLedger(cfg, start, front);
      if Enabled(before, l) {
        match l
        case Begin(x, _) => assert labels[..|labels| - 1] == front;
        case Act(m) =>
          var db := Perform(cfg, before.db, m);
          forall n | n in before.inFlight && before.inFlight[n].Credit? && Actor(m) != Some(n)
            ensures before.inFlight[n].observed.ref !in db.payments
          {
            Interference.OutsideStep(cfg, before.db, n, m);
          }
      }
    }
  }

  /** On runs where no withdrawn transfer is observed again, a detected invoice has exactly one live payment. */
  lemma DetectedIsPaidExactlyOnce(cfg: Config, start: Time, labels: seq<Label>, i: InvoiceId)
    requires NoneReobserved(cfg, Initial(start), labels)
    requires var db := Run(cfg, Initial(start), labels).db; i in db.invoices && db.invoices[i].status == Detected
    ensures var db := Run(cfg, Initial(start), labels).db;
            exists r :: LiveOn(db, r, i) && forall q :: LiveOn(db, q, i) ==> q == r
  {
    var db := Run(cfg, Initial(start), labels).db;
    NoneRevived(cfg, start, labels);
    EveryRunPaidOrRevived(cfg, start, labels);
    EveryRunKeepsTheLedger(cfg, start, labels);
    var r :| r in db.payments && LiveOn(db, r, i);
    assert forall q :: LiveOn(db, q, i) ==> q == r;
  }

  /** The hypothesis is needed. Whenever a transfer brings a pending invoice to detected, withdrawing it and observing
      it again makes the invoice detected once more, with no live payment. */
  lemma RevivedInvoiceHasNoPayment(cfg: Config, db: Db, x: Observed, l: Lookups, e1: EventId, e2: EventId, e3: EventId)
    requires LedgerOk(db) && LookupsOk(db, x, l) && x.ref !in db.payments && !x.final
    requires Read(db, x, l).Credit? && db.invoices[l.invoice.value].status == Pending
    ensures var once := After(db, ApplyNow(cfg, db, x, l, e1));
            var withdrawn := After(once, RevokeTx(cfg, once, x.ref, e2));
            && LookupsOk(withdrawn, x, l) && l.invoice.value in withdrawn.invoices
            && withdrawn.invoices[l.invoice.value].status == Pending
            && var again := After(withdrawn, ApplyNow(cfg, withdrawn, x, l, e3));
               && l.invoice.value in again.invoices && again.invoices[l.invoice.value].status == Detected
               && !HasLive(again, l.invoice.value)
  {
    hide RevokeTx, CreditTx, LedgerOk, SameClaims, SettleTx;
    var i := l.invoice.value;
    FirstCredit(cfg, db, x, l, e1);
    var once := After(db, ApplyNow(cfg, db, x, l, e1));
    Withdrawal(cfg, once, x.ref, i, e2);
    var withdrawn := After(once, RevokeTx(cfg, once, x.ref, e2));
    LookupsStay(db, once, x, l);
    LookupsStay(once, withdrawn, x, l);
    hide LookupsOk;
    ReCreditDetects(cfg, withdrawn, x, l.asset.value, i, e3);
    var again := After(withdrawn, ApplyNow(cfg, withdrawn, x, l, e3));
    forall r ensures !LiveOn(again, r, i) {
      assert !LiveOn(withdrawn, r, i);
    }
  }

  /** Same claimants, same assets: what a lookup by amount depends on. */
  ghost predicate SameClaims(db: Db, after: Db) {
    && after.assets == db.assets
    && after.invoices.Keys == db.invoices.Keys
    && (forall i | i in db.invoices ::
          SameIssue(db.invoices[i], after.invoices[i]) && after.invoices[i].held == db.invoices[i].held)
  }

  lemma LookupsStay(db: Db, after: Db, x: Observed, l: Lookups)
    requires LookupsOk(db, x, l) && SameClaims(db, after)
    ensures LookupsOk(after, x, l)
  {
    forall a ensures IsAsset(after, x.ref.network, x.contract, a) <==> IsAsset(db, x.ref.network, x.contract, a) {}
    if l.asset.Some? {
      forall j ensures Claims(after, l.asset.value, x.value, j) <==> Claims(db, l.asset.value, x.value, j) {}
    }
  }

  lemma FirstCredit(cfg: Config, db: Db, x: Observed, l: Lookups, ev: EventId)
    requires LedgerOk(db) && LookupsOk(db, x, l) && x.ref !in db.payments && !x.final
    requires Read(db, x, l).Credit? && db.invoices[l.invoice.value].status == Pending
    ensures var once := After(db, ApplyNow(cfg, db, x, l, ev));
            && Linked(once) && SameClaims(db, once)
            && LiveOn(once, x.ref, l.invoice.value)
            && once.invoices[l.invoice.value].status == Detected
            && (forall r :: LiveOn(once, r, l.invoice.value) ==> r == x.ref)
  {
    var i := l.invoice.value;
    var once := After(db, ApplyNow(cfg, db, x, l, ev));
    assert once == After(db, CreditTx(cfg, db, x, l.asset.value, i, db.invoices[i], ev)) by {
      hide CreditTx, LookupsOk;
    }
    forall r ensures !LiveOn(db, r, i) {}
    FreshCreditSucceeds(cfg, db, x, l.asset.value, i, ev);
    CreditedFresh(cfg, db, x, l.asset.value, i, ev);
    CreditWrites(cfg, db, x, l.asset.value, i, db.invoices[i], ev);
    CreditKeeps(cfg, db, x, l.asset.value, i, db.invoices[i], ev);
    hide CreditTx, HasLive, ApplyNow, Evolves, AmountsHeld;
    forall r | LiveOn(once, r, i) ensures r == x.ref {
      assert LiveOn(db, r, i) || r == x.ref;
    }
  }

  lemma Withdrawal(cfg: Config, db: Db, r: Ref, i: InvoiceId, ev: EventId)
    requires Linked(db) && LiveOn(db, r, i) && db.invoices[i].status == Detected
    requires forall q :: LiveOn(db, q, i) ==> q == r
    ensures var after := After(db, RevokeTx(cfg, db, r, ev));
            && SameClaims(db, after)
            && after.invoices[i].status == Pending
            && r in after.payments && !IsLive(after.payments[r])
            && (forall q :: !LiveOn(after, q, i))
  {
    var after := After(db, RevokeTx(cfg, db, r, ev));
    RevokeWrites(cfg, db, r, ev);
    assert after.assets == db.assets;
    hide RevokeTx;
    forall q | LiveOn(after, q, i) ensures LiveOn(db, q, i) && q != r {}
  }

  lemma FreshCreditSucceeds(cfg: Config, db: Db, x: Observed, asset: AssetId, id: InvoiceId, ev: EventId)
    requires id in db.invoices && !HasLive(db, id) && x.ref !in db.payments
    ensures CreditTx(cfg, db, x, asset, id, db.invoices[id], ev).Done?
    ensures After(db, CreditTx(cfg, db, x, asset, id, db.invoices[id], ev)).assets == db.assets
    ensures forall i | i in db.invoices ::
              After(db, CreditTx(cfg, db, x, asset, id, db.invoices[id], ev)).invoices[i].held == db.invoices[i].held
  {
    hide HasLive;
  }

  lemma ReCreditDetects(cfg: Config, db: Db, x: Observed, asset: AssetId, id: InvoiceId, ev: EventId)
    requires id in db.invoices && db.invoices[id].status == Pending && x.ref in db.payments && !x.final
    ensures var after := After(db, CreditTx(cfg, db, x, asset, id, db.invoices[id], ev));
            && after.payments == db.payments
            && id in after.invoices && after.invoices[id].status == Detected
  {
    hide HasLive;
  }

  /** Nothing on record is lost: filed transfers stay filed, a payment row keeps every field but its withdrawal, which
      is set once, an invoice keeps what it was issued with, and an ended one its status. */
  ghost predicate Preserves(before: Db, after: Db) {
    && (forall r | Filed(before, r) :: Filed(after, r))
    && (forall r | r in before.payments ::
          r in after.payments
          && after.payments[r] == before.payments[r].(removedAt := after.payments[r].removedAt)
          && (before.payments[r].removedAt.Some? ==> after.payments[r] == before.payments[r]))
    && (forall i | i in before.invoices ::
          && i in after.invoices && SameIssue(before.invoices[i], after.invoices[i])
          && (IsTerminal(before.invoices[i].status) ==> after.invoices[i].status == before.invoices[i].status))
  }

  lemma PreservesTransitive(a: Db, b: Db, c: Db)
    requires Preserves(a, b) && Preserves(b, c)
    ensures Preserves(a, c)
  {
  }

  lemma StepPreserves(cfg: Config, w: World, l: Label)
    requires WorldOk(w)
    ensures Preserves(w.db, Step(cfg, w, l).db)
  {
    if Enabled(w, l) && l.Act? {
      EveryStepKeeps(cfg, w.db, l.move);
      hide Perform, Evolves, Preserves;
      EvolvingPreserves(w.db, Perform(cfg, w.db, l.move));
    } else {
      EvolvingPreserves(w.db, w.db);
    }
  }

  lemma EvolvingPreserves(db: Db, after: Db)
    requires Evolves(db, after)
    ensures Preserves(db, after)
  {
  }

  /** Money on record stays on record, whatever happens next. */
  lemma {:induction false} NothingIsLost(cfg: Config, start: Time, labels: seq<Label>, more: seq<Label>)
    ensures Preserves(Run(cfg, Initial(start), labels).db, Run(cfg, Initial(start), labels + more).db)
    decreases |more|
  {
    if more == [] {
      assert labels + more == labels;
    } else {
      var front, last := more[..|more| - 1], more[|more| - 1];
      assert (labels + more)[..|labels + more| - 1] == labels + front;
      NothingIsLost(cfg, start, labels, front);
      EveryRunKeepsTheLedger(cfg, start, labels + front);
      hide Preserves, Step;
      StepPreserves(cfg, Run(cfg, Initial(start), labels + front), last);
      PreservesTransitive(Run(cfg, Initial(start), labels).db, Run(cfg, Initial(start), labels + front).db,
                          Run(cfg, Initial(start), labels + more).db);
    }
  }
}
