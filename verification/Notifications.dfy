/** The outbox as a history: what was ever queued for an invoice, against the invoice's status. */
module Notifications {
  import opened Domain
  import opened Query
  import opened Tables
  import opened Matching
  import opened Ledger
  import opened Runs

  /** The kinds queued for one invoice, oldest first. */
  function Kinds(events: seq<Event>, i: InvoiceId): seq<EventKind> {
    if events == [] then []
    else
      var last := events[|events| - 1];
      Kinds(events[..|events| - 1], i) + if last.invoice == i then [last.kind] else []
  }

  /** (detected reverted)^k */
  function Rounds(k: nat): seq<EventKind> {
    if k == 0 then [] else Rounds(k - 1) + [EventDetected, EventReverted]
  }

  /** The language (detected reverted)* detected? confirmed?, which is closed under prefixes. */
  ghost predicate InLanguage(kinds: seq<EventKind>) {
    exists k: nat, d: bool, c: bool :: kinds == Word(k, d, c)
  }

  function Word(k: nat, d: bool, c: bool): seq<EventKind> {
    Rounds(k) + (if d then [EventDetected] else []) + (if c then [EventConfirmed] else [])
  }

  /** What a receiver concludes from the events it was sent. */
  function Replay(kinds: seq<EventKind>): Status {
    if kinds == [] then Pending
    else match kinds[|kinds| - 1]
      case EventDetected => Detected
      case EventConfirmed => Confirmed
      case EventReverted => Pending
  }

  /** Replaying the events gives the status, up to the endings nobody is told about. */
  predicate Agrees(told: Status, actual: Status) {
    told == actual || (told == Pending && (actual == Expired || actual == Cancelled))
  }

  ghost predicate Told(kinds: seq<EventKind>, s: Status) {
    exists k: nat ::
      match s
      case Detected => kinds == Word(k, true, false)
      case Confirmed => kinds == Word(k, false, true) || kinds == Word(k, true, true)
      case _ => kinds == Word(k, false, false)
  }

  /** The event a status change is told by. */
  function EventFor(from: Status, to: Status): Option<EventKind> {
    if from == to then None
    else if to == Detected then Some(EventDetected)
    else if to == Confirmed then Some(EventConfirmed)
    else if from == Detected then Some(EventReverted)
    else None
  }

  /** The status changes between two databases are exactly those their new events tell. */
  ghost predicate Tells(db: Db, after: Db) {
    && (forall i | i in db.invoices :: i in after.invoices)
    && (forall i | i in after.invoices && i !in db.invoices :: after.invoices[i].status == Pending)
    && (after.events == db.events
        || (|after.events| == |db.events| + 1 && after.events[..|db.events|] == db.events
            && after.events[|db.events|].invoice in db.invoices
            && after.events[|db.events|].status == after.invoices[after.events[|db.events|].invoice].status))
    && (forall i | i in db.invoices ::
          && Transition(db.invoices[i].status, after.invoices[i].status)
          && EventFor(db.invoices[i].status, after.invoices[i].status) ==
               if |after.events| == |db.events| + 1 && after.events[|db.events|].invoice == i
               then Some(after.events[|db.events|].kind) else None)
  }

  lemma CreditTells(cfg: Config, db: Db, x: Observed, asset: AssetId, id: InvoiceId, seen: Invoice, ev: EventId)
    requires cfg.notify && !Queued(db, ev)
    ensures Tells(db, After(db, CreditTx(cfg, db, x, asset, id, seen, ev)))
  {
    hide HasLive;
  }

  lemma SettleTells(cfg: Config, db: Db, p: Payment, ev: EventId)
    requires cfg.notify && !Queued(db, ev)
    ensures Tells(db, After(db, SettleTx(cfg, db, p, ev)))
  {
  }

  lemma RevokeTells(cfg: Config, db: Db, r: Ref, ev: EventId)
    requires cfg.notify && !Queued(db, ev)
    ensures Tells(db, After(db, RevokeTx(cfg, db, r, ev)))
  {
  }

  /** One step: a status change and its notice commit together, one notice per change and none without one. */
  lemma EveryStepTells(cfg: Config, db: Db, m: Move)
    requires cfg.notify && (EventIdOf(m).Some? ==> !Queued(db, EventIdOf(m).value))
    ensures Tells(db, Perform(cfg, db, m))
  {
    hide CreditTx, SettleTx, RevokeTx, AmountHeld, ExternalIdUsed;
    match m
    case Decide(d, ev) =>
      match d {
        case Credit(x, asset, id, seen) => CreditTells(cfg, db, x, asset, id, seen, ev);
        case Reapply(p, _) => SettleTells(cfg, db, p, ev);
        case _ =>
      }
    case Settle(r, ev) => if r in db.payments { SettleTells(cfg, db, db.payments[r], ev); }
    case Revoke(r, ev) => RevokeTells(cfg, db, r, ev);
    case _ =>
  }

  ghost predicate History(db: Db) {
    && (forall k | 0 <= k < |db.events| :: db.events[k].invoice in db.invoices)
    && (forall i | i in db.invoices :: Told(Kinds(db.events, i), db.invoices[i].status))
  }

  lemma {:induction false} NoEventsYet(events: seq<Event>, i: InvoiceId)
    requires forall k | 0 <= k < |events| :: events[k].invoice != i
    ensures Kinds(events, i) == []
  {
    if events != [] {
      NoEventsYet(events[..|events| - 1], i);
    }
  }

  lemma ToldNext(kinds: seq<EventKind>, from: Status, to: Status)
    requires Told(kinds, from) && Transition(from, to)
    ensures Told(kinds + if EventFor(from, to).Some? then [EventFor(from, to).value] else [], to)
  {
    var next := kinds + if EventFor(from, to).Some? then [EventFor(from, to).value] else [];
    if from == Detected {
      var k: nat :| kinds == Word(k, true, false);
      assert Word(k + 1, false, false) == Rounds(k) + [EventDetected, EventReverted];
      assert Word(k, true, false) + [EventReverted] == Rounds(k) + [EventDetected, EventReverted];
      assert Word(k, true, true) == Word(k, true, false) + [EventConfirmed];
      assert to == Pending ==> next == Word(k + 1, false, false);
      assert to == Confirmed ==> next == Word(k, true, true);
      assert to == Detected ==> next == kinds;
    } else if from == Confirmed {
      assert next == kinds;
    } else {
      var k: nat :| kinds == Word(k, false, false);
      assert Word(k, true, false) == kinds + [EventDetected];
      assert Word(k, false, true) == kinds + [EventConfirmed];
      assert to != Detected && to != Confirmed ==> next == kinds;
    }
  }

  lemma KindsNext(events: seq<Event>, e: Event, i: InvoiceId)
    ensures Kinds(events + [e], i) == Kinds(events, i) + if e.invoice == i then [e.kind] else []
  {
    assert (events + [e])[..|events|] == events;
  }

  lemma TellingKeepsHistory(db: Db, after: Db)
    requires History(db) && Tells(db, after)
    ensures History(after)
  {
    hide Told, Kinds, Transition, EventFor;
    assert after.events == db.events || after.events == db.events + [after.events[|db.events|]];
    forall i | i in after.invoices ensures Told(Kinds(after.events, i), after.invoices[i].status) {
      var kinds := Kinds(db.events, i);
      assert kinds + [] == kinds;
      if after.events != db.events {
        KindsNext(db.events, after.events[|db.events|], i);
      }
      if i in db.invoices {
        ToldNext(kinds, db.invoices[i].status, after.invoices[i].status);
      } else {
        NoEventsYet(db.events, i);
        NothingToldYet();
      }
    }
  }

  lemma NothingToldYet()
    ensures Told([], Pending)
  {
    assert [] == Word(0, false, false);
  }

  lemma {:induction false} EveryRunKeepsHistory(cfg: Config, start: Time, labels: seq<Label>)
    requires cfg.notify
    ensures !Run(cfg, Initial(start), labels).repeatedEventId ==> History(Run(cfg, Initial(start), labels).db)
    decreases |labels|
  {
    if labels != [] {
      var before := Run(cfg, Initial(start), labels[..|labels| - 1]);
      var l := labels[|labels| - 1];
      EveryRunKeepsHistory(cfg, start, labels[..|labels| - 1]);
      if Enabled(before, l) && l.Act? && !Step(cfg, before, l).repeatedEventId {
        EveryStepTells(cfg, before.db, l.move);
        TellingKeepsHistory(before.db, Perform(cfg, before.db, l.move));
      }
    }
  }

  lemma {:induction false} RoundsHaveNoConfirmed(k: nat)
    ensures EventConfirmed !in Rounds(k)
    ensures k > 0 ==> Rounds(k)[|Rounds(k)| - 1] == EventReverted
  {
    if k > 0 {
      RoundsHaveNoConfirmed(k - 1);
    }
  }

  /** Over every interleaving, with notifications on and fresh event ids: the events ever queued for an invoice spell
      a word of (detected reverted)* detected? confirmed?, at most one of them is `confirmed`, and replaying them
      gives the invoice's status. */
  lemma EventsTellTheStory(cfg: Config, start: Time, labels: seq<Label>, i: InvoiceId)
    requires cfg.notify
    requires var w := Run(cfg, Initial(start), labels); !w.repeatedEventId && i in w.db.invoices
    ensures var w := Run(cfg, Initial(start), labels);
            var kinds := Kinds(w.db.events, i);
            && InLanguage(kinds)
            && (forall a, b :: 0 <= a < b < |kinds| && kinds[a] == EventConfirmed ==> kinds[b] != EventConfirmed)
            && Agrees(Replay(kinds), w.db.invoices[i].status)
  {
    hide Run, Told;
    EveryRunKeepsHistory(cfg, start, labels);
    var w := Run(cfg, Initial(start), labels);
    WhatIsTold(Kinds(w.db.events, i), w.db.invoices[i].status);
  }

  lemma WhatIsTold(kinds: seq<EventKind>, s: Status)
    requires Told(kinds, s)
    ensures InLanguage(kinds)
    ensures forall a, b :: 0 <= a < b < |kinds| && kinds[a] == EventConfirmed ==> kinds[b] != EventConfirmed
    ensures Agrees(Replay(kinds), s)
  {
    var k: nat, d: bool, c: bool :| kinds == Word(k, d, c)
      && c == (s == Confirmed) && (s == Detected ==> d) && (d ==> s == Detected || s == Confirmed);
    RoundsHaveNoConfirmed(k);
    assert forall a :: 0 <= a < |kinds| && kinds[a] == EventConfirmed ==> a == |kinds| - 1;
  }
}
