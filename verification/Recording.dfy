/** What a watcher's successful `Apply` leaves of its transfer, others acting before and during it: a payment row that
    says what the transfer was, and, once the transfer is final, an invoice that is settled. */
module Recording {
  import opened Domain
  import opened Query
  import opened Tables
  import opened Matching
  import opened Ledger
  import opened Rows
  import opened Interference
  import opened Crediting
  import opened Watching

  /** An invoice the transfer's live payment names has ended. */
  ghost predicate SettledWith(db: Db, r: Ref) {
    forall i :: LiveOn(db, r, i) ==> i in db.invoices && IsTerminal(db.invoices[i].status)
  }

  lemma FinishSettles(cfg: Config, db: Db, x: Observed, d: Decision, ev: EventId)
    requires LedgerOk(db) && StillSound(db, d) && x.final
    requires if d.Reapply? then d.payment.ref == x.ref && d.final else d.observed == x
    requires d.FileOrphan? ==> !(x.ref in db.payments && IsLive(db.payments[x.ref]))
    requires Finish(cfg, db, d, ev).Done?
    ensures SettledWith(After(db, Finish(cfg, db, d, ev)), x.ref)
  {
    match d {
      case Credit(_, asset, id, seen) =>
        CreditWritesRows(cfg, db, x, asset, id, seen, ev);
        CreditAnswers(cfg, db, x, asset, id, seen, ev);
        hide CreditTx, Blocked, Notified, AmountsHeld;
      case Reapply(p, _) =>
        SettleWritesRows(cfg, db, p, ev);
        hide SettleTx, Notified, AmountsHeld;
      case _ =>
    }
  }

  lemma AnsweredSettles(cfg: Config, paused: Db, after: Db, x: Observed, l: Lookups, during: seq<Move>, ev: EventId)
    requires LedgerOk(paused) && LookupsOk(paused, x, l) && AnsweredAs(cfg, paused, after, x, l, during, ev, true)
    requires x.final
    ensures SettledWith(after, x.ref)
  {
    hide RunOutside, LedgerOk, Undisturbed, LookupsOk, Finish, Linked, SettledWith, StillSound;
    var n := x.ref.network;
    FoundIsThere(paused, x, l);
    LedgerIsLinked(paused);
    var mid := RunOutside(cfg, paused, n, during);
    OutsideRun(cfg, paused, n, during);
    var d := Read(paused, x, l);
    ReadIsSound(paused, x, l);
    StaysSound(paused, mid, d);
    UndisturbedRow(n, paused, mid, x.ref);
    FinishSettles(cfg, mid, x, d, ev);
  }

  /** The transfer's payment, if this `Apply` made it: a row of the transfer's token, with its amount, block and time,
      for an invoice that asks for no more. */
  predicate RecordedAs(db: Db, x: Observed) {
    && x.ref in db.payments
    && var p := db.payments[x.ref];
       && PaymentRecords(p, x, p.asset) && p.removedAt == None
       && p.asset in db.assets && db.assets[p.asset].network == x.ref.network
       && db.assets[p.asset].contract == x.contract
       && p.invoice.Some? && p.invoice.value in db.invoices && db.invoices[p.invoice.value].asset == p.asset
       && db.invoices[p.invoice.value].pay <= x.value
  }

  lemma CreditedIsRecorded(n: Network, seen: Db, db: Db, after: Db, x: Observed)
    requires OnlyCredits(n, seen, db, after, x) && Grows(seen, after) && n == x.ref.network
    ensures x.ref in after.payments && x.ref !in db.payments ==> RecordedAs(after, x)
  {
  }

  /** A successful `Apply`, whatever others do meanwhile. */
  lemma AppliedIsRecorded(cfg: Config, db: Db, after: Db, x: Observed, before: seq<Move>, during: seq<Move>,
                          ev: EventId)
    requires LedgerOk(db) && AppliedAs(cfg, db, after, x, before, during, ev, true)
    ensures x.value > 0
    ensures Filed(after, x.ref)
    ensures x.ref in after.payments && x.ref !in db.payments ==> RecordedAs(after, x)
    ensures x.final ==> SettledWith(after, x.ref)
  {
    hide RunOutside, LedgerOk, Grows, Undisturbed, LookupsOk, OnlyCredits, SettledWith, RecordedAs, DetectedGoesOn,
         Seeded, OwnStep, AnsweredAs;
    var n := x.ref.network;
    var paused := RunOutside(cfg, db, n, before);
    QuietOutside(cfg, db, n, before);
    ApplyMoves(cfg, db, after, x, before, during, ev, true);
    CreditedIsRecorded(n, paused, db, after, x);
    assert exists l | LookupsOk(paused, x, l) :: AnsweredAs(cfg, paused, after, x, l, during, ev, true);
    var l :| LookupsOk(paused, x, l) && AnsweredAs(cfg, paused, after, x, l, during, ev, true);
    AnsweredFailsIff(cfg, paused, after, x, l, during, ev, true);
    AnsweredIsFiled(cfg, paused, after, x, l, during, ev);
    if x.final {
      AnsweredSettles(cfg, paused, after, x, l, during, ev);
    }
  }

  lemma AnsweredIsFiled(cfg: Config, paused: Db, after: Db, x: Observed, l: Lookups, during: seq<Move>, ev: EventId)
    requires LedgerOk(paused) && LookupsOk(paused, x, l) && AnsweredAs(cfg, paused, after, x, l, during, ev, true)
    ensures Filed(after, x.ref)
  {
    hide RunOutside, LedgerOk, LookupsOk, Finish, Filed, OwnStep;
    FoundIsThere(paused, x, l);
    ApplyStep(cfg, paused, x, l, during, ev);
  }
}
