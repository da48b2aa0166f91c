/** When a TRON watcher gets past its page, and how it can be held up there for good: see Stalling and Applying. */
module TronStall {
  import opened Domain
  import opened Query
  import opened Tables
  import opened Matching
  import opened Ledger
  import opened Crediting
  import opened Watching
  import opened Store
  import opened Settling
  import opened TronFeed
  import opened TronWatcher
  import opened Stalling
  import opened Applying
  import opened Windows

  /** No transfer of the page is the waiting invoice's own or was withdrawn. */
  ghost predicate PageUnrelated(s: Waiter, db: Db, page: seq<Transfer>) {
    forall k | 0 <= k < |page| :: Unrelated(s, Tron, db, RefOf(page[k]))
  }

  /** All there is to keep while `blocker` is not on record. */
  ghost predicate HeldUp(s: Waiter, db: Db, page: seq<Transfer>, blocker: Transfer) {
    && Waits(s, Tron, db) && PageUnrelated(s, db, page)
    && Blocked(s, Tron, db, ObservedOf(blocker, 0))
  }

  lemma StepHoldsUp(cfg: Config, s: Waiter, db: Db, after: Db, page: seq<Transfer>, k: nat, line: Time,
                    around: Interlude, ok: bool, blocker: Transfer)
    requires HeldUp(s, db, page, blocker) && k < |page| && TrailStep(cfg, db, after, page[k], line, around, ok)
    requires OnGridScript(s, around.before) && OnGridScript(s, around.during)
    requires RefOf(page[k]) == RefOf(blocker) ==> page[k] == blocker
    ensures HeldUp(s, after, page, blocker)
    ensures page[k] == blocker ==> !ok
  {
    hide AppliedAs, Waits, Grows;
    var x := ObservedOf(page[k], line);
    assert Unrelated(s, Tron, db, x.ref);
    ApplyKeepsWaiting(cfg, s, Tron, db, after, x, around.before, around.during, around.ev, ok);
    if page[k] == blocker {
      assert Blocked(s, Tron, db, x);
    }
    forall j | 0 <= j < |page| ensures Unrelated(s, Tron, after, RefOf(page[j])) {
      assert Unrelated(s, Tron, db, RefOf(page[j]));
    }
    StillBlocked(s, Tron, db, after, ObservedOf(blocker, 0));
  }

  /** Every page that holds the blocker fails, and leaves things as they were. */
  lemma {:induction false} TrailHoldsUp(cfg: Config, s: Waiter, page: seq<Transfer>, line: Time, env: nat -> Interlude,
                                        trail: seq<Db>, ok: bool, blocker: Transfer, n: nat)
    requires Trail(cfg, page, line, env, trail, ok) && QuietGrid(s, env)
    requires HeldUp(s, trail[0], page, blocker) && n < |trail|
    requires forall k | 0 <= k < |page| :: RefOf(page[k]) == RefOf(blocker) ==> page[k] == blocker
    ensures HeldUp(s, trail[n], page, blocker)
    ensures forall k | 0 <= k < n && page[k] == blocker :: !ok && k == |trail| - 2
    decreases n
  {
    hide HeldUp, TrailStep;
    if n > 0 {
      TrailHoldsUp(cfg, s, page, line, env, trail, ok, blocker, n - 1);
      var k := n - 1;
      assert TrailStep(cfg, trail[k], trail[k + 1], page[k], line, env(k), ok || k < |trail| - 2);
      assert OnGridScript(s, env(k).before) && OnGridScript(s, env(k).during);
      StepHoldsUp(cfg, s, trail[k], trail[k + 1], page, k, line, env(k), ok || k < |trail| - 2, blocker);
    }
  }

  /** One tick. */
  lemma TickHoldsUp(cfg: Config, s: Waiter, page: seq<Transfer>, line: Time, env: nat -> Interlude, trail: seq<Db>,
                    ok: bool, b: nat)
    requires Trail(cfg, page, line, env, trail, ok) && QuietGrid(s, env) && b < |page|
    requires HeldUp(s, trail[0], page, page[b])
    requires forall k | 0 <= k < |page| :: RefOf(page[k]) == RefOf(page[b]) ==> page[k] == page[b]
    ensures !ok && HeldUp(s, trail[|trail| - 1], page, page[b])
  {
    hide HeldUp, TrailStep;
    TrailHoldsUp(cfg, s, page, line, env, trail, ok, page[b], |trail| - 1);
  }

  /** A feed whose next page holds the blocker but not the waiting invoice's own transfer (the cursor is past its
      stamp): every tick fails at it, requests failing or not and whatever others do on the grid, the cursor stays, and
      the invoice stays detected, final or not. */
  method Stuck(w: Watcher, feed: seq<Transfer>, inputs: seq<TickInput>, ghost s: Waiter, ghost b: nat)
    returns (ghost failed: seq<bool>)
    requires w.Valid() && LedgerOk(w.store.View()) && Ascending(feed)
    requires forall k | 0 <= k < |inputs| :: inputs[k].held.None? || inputs[k].held.value == |feed|
    requires var page := PageOf(feed, LastTime(w.store.cursors));
             && b < |page| && HeldUp(s, w.store.View(), page, page[b])
             && forall k | 0 <= k < |page| :: RefOf(page[k]) == RefOf(page[b]) ==> page[k] == page[b]
    requires forall t, k: nat, first: bool | 0 <= t < |inputs| ::
               OnGridScript(s, inputs[t].env(k, first).before) && OnGridScript(s, inputs[t].env(k, first).during)
    modifies w.store
    ensures |failed| == |inputs| && forall k | 0 <= k < |inputs| :: failed[k]
    ensures w.store.cursors == old(w.store.cursors)
    ensures var page := PageOf(feed, LastTime(w.store.cursors)); HeldUp(s, w.store.View(), page, page[b])
    ensures Waits(s, Tron, w.store.View())
  {
    hide HeldUp, LedgerOk, Trail, PageRead, Grows, SettledOnly, OldestWaiting, ConfirmsExactly, Ascending, Filed;
    failed := [];
    ghost var page := PageOf(feed, LastTime(w.store.cursors));
    var t := 0;
    while t < |inputs|
      invariant 0 <= t <= |inputs| && |failed| == t && forall k | 0 <= k < t :: failed[k]
      invariant LedgerOk(w.store.View())
      invariant w.store.cursors == old(w.store.cursors)
      invariant HeldUp(s, w.store.View(), page, page[b])
    {
      var held := None;
      if inputs[t].held.Some? {
        held := Some(PageOf(feed, w.store.GetCursor(Tron).lastTimestamp));
      }
      var ok, mid, trail, listed := w.Execute(inputs[t].line, held, inputs[t].env);
      if inputs[t].line.Some? && held.Some? {
        ghost var env := Part(inputs[t].env, true);
        assert QuietGrid(s, env);
        TickHoldsUp(w.service.cfg, s, page, inputs[t].line.value, env, trail, ok, b);
      }
      failed := failed + [!ok];
      t := t + 1;
    }
    HeldUpWaits(s, w.store.View(), page, page[b]);
  }

  lemma HeldUpWaits(s: Waiter, db: Db, page: seq<Transfer>, blocker: Transfer)
    requires HeldUp(s, db, page, blocker)
    ensures Waits(s, Tron, db)
  {
  }

  /** The situation exists: an invoice of 100 detected and paid, the cursor past its transfer, and at the cursor a
      second transfer, of 105, with windows ten wide. */
  lemma HeldUpHappens() returns (s: Waiter, db: Db, feed: seq<Transfer>, cursor: Time)
    ensures Ascending(feed) && |PageOf(feed, cursor)| > 0
    ensures var page := PageOf(feed, cursor); HeldUp(s, db, page, page[0]) && Stops(db, Seen(page, cursor), 0)
    ensures Unambiguous(db) && db.payments[s.paidBy].blockTime < cursor
  {
    var r := Ref(Tron, "a", 0);
    var inv := Invoice(None, 0, Tron, 100, 100, 0, Detected, 0, 0, 9, true, 9, None);
    db := Db(2, map[0 := Asset(Tron, "T", 10, 5, true)], map[0 := inv],
             map[r := Payment(r, 0, 100, None, 1, Some(0), None)], map[], []);
    s := Waiter(map[0 := 0], map[0 := 10], 0, r);
    feed, cursor := [Transfer("a", "T", 100, 1), Transfer("b", "T", 105, 2)], 2;
    assert feed[1..] == [feed[1]];
    assert PageStart(feed, cursor) == 1;
    assert PageOf(feed, cursor) == [feed[1]];
    assert LiveOn(db, r, 0);
    assert RowOnGrid(s.grid, db, 0);
    assert LedgerOk(db) && AssetKeyUnique(db);
    GridIsUnambiguous(s.grid, db);
    assert Blocked(s, Tron, db, ObservedOf(feed[1], 0));
    assert StopsAt(db, Seen([feed[1]], cursor), 0, 0);
  }

  // ------------------------------------------------------------------ left alone: when the page is applied

  /** What the watcher hands over of a page. */
  function Seen(page: seq<Transfer>, line: Time): (xs: seq<Observed>)
    ensures |xs| == |page| && forall k | 0 <= k < |page| :: xs[k] == ObservedOf(page[k], line)
  {
    seq(|page|, k requires 0 <= k < |page| => ObservedOf(page[k], line))
  }

  /** Records of one transaction are the same transfer. */
  predicate SameRecords(page: seq<Transfer>) {
    forall j, k | 0 <= j < |page| && 0 <= k < |page| && page[j].tx == page[k].tx ::
      page[j].contract == page[k].contract && page[j].value == page[k].value
  }

  lemma SeenIsOneNetwork(page: seq<Transfer>, line: Time)
    requires SameRecords(page)
    ensures OneNetwork(Tron, Seen(page, line))
  {
  }

  lemma TrailIsHanded(cfg: Config, page: seq<Transfer>, line: Time, env: nat -> Interlude, trail: seq<Db>, ok: bool)
    requires Trail(cfg, page, line, env, trail, ok) && LeftAlone(env)
    ensures Handed(cfg, Seen(page, line), trail, ok)
  {
    hide AppliedAs;
    forall k: nat | k < |trail| - 1
      ensures HandedOne(cfg, trail[k], trail[k + 1], Seen(page, line)[k], ok || k < |trail| - 2)
    {
      assert TrailStep(cfg, trail[k], trail[k + 1], page[k], line, env(k), ok || k < |trail| - 2);
      assert env(k).before == [] && env(k).during == [];
      assert Alike(Seen(page, line)[k], ObservedOf(page[k], line));
    }
  }

  lemma TrailBegins(cfg: Config, page: seq<Transfer>, line: Time, env: nat -> Interlude, trail: seq<Db>, ok: bool)
    requires Trail(cfg, page, line, env, trail, ok)
    ensures 1 <= |trail| <= |page| + 1 && if ok then |trail| == |page| + 1 else |trail| >= 2
  {
  }

  /** A page left alone is applied if and only if no transfer of it is refused in its turn, by the tables before the
      tick and the transfers before it. */
  lemma PageAppliedIff(cfg: Config, page: seq<Transfer>, line: Time, env: nat -> Interlude, trail: seq<Db>, ok: bool)
    requires Trail(cfg, page, line, env, trail, ok) && LeftAlone(env)
    requires LedgerOk(trail[0]) && Unambiguous(trail[0]) && SameRecords(page)
    ensures ok <==> forall k: nat | k < |page| :: !TurnedDown(trail[0], Seen(page, line), k)
  {
    hide Trail, LedgerOk, Unambiguous, TurnedDown, Handed, Midway;
    TrailIsHanded(cfg, page, line, env, trail, ok);
    SeenIsOneNetwork(page, line);
    AppliedIff(cfg, Tron, Seen(page, line), trail, ok);
  }

  /** A final transfer of the first `k` of the page belongs to the invoice. */
  ghost predicate SettledBefore(db: Db, page: seq<Transfer>, line: Time, k: nat, i: InvoiceId) {
    exists j: nat :: j < k && j < |page| && page[j].at <= line && Belongs(db, ObservedOf(page[j], line), i)
  }

  lemma EndedIsSettled(db: Db, page: seq<Transfer>, line: Time, k: nat, i: InvoiceId)
    requires i in db.invoices && !IsTerminal(db.invoices[i].status)
    ensures Ended(db, Seen(page, line), k, i) <==> SettledBefore(db, page, line, k, i)
  {
    hide Belongs;
    var xs := Seen(page, line);
    if SettledBefore(db, page, line, k, i) {
      var j: nat :| j < k && j < |page| && page[j].at <= line && Belongs(db, ObservedOf(page[j], line), i);
      assert xs[j].final && Belongs(db, xs[j], i);
    }
    if Ended(db, xs, k, i) {
      var j: nat :| j < k && j < |xs| && xs[j].final && Belongs(db, xs[j], i);
      assert page[j].at <= line && Belongs(db, ObservedOf(page[j], line), i);
    }
  }

  /** When a tick that is left alone confirms a detected invoice paid by `r`: if and only if a final transfer of it
      comes before the first that is refused, or the whole page is applied and `r` is due and among the oldest payments
      that wait. */
  lemma ConfirmedIff(cfg: Config, page: seq<Transfer>, line: Time, env: nat -> Interlude, trail: seq<Db>, ok: bool,
                     after: Db, listed: seq<Payment>, i: InvoiceId, r: Ref)
    requires Trail(cfg, page, line, env, trail, ok) && LeftAlone(env)
    requires LedgerOk(trail[0]) && Unambiguous(trail[0]) && SameRecords(page)
    requires LiveOn(trail[0], r, i) && i in trail[0].invoices
    requires trail[0].invoices[i].status == Detected && trail[0].invoices[i].network == Tron
    requires var mid := trail[|trail| - 1];
             && Grows(mid, after)
             && if ok then OldestWaiting(mid, Tron, SETTLE_BATCH, listed)
                           && ConfirmsExactly(Tron, mid, after, Due(line), listed)
                else after == mid
    ensures var db := trail[0];
            IsConfirmed(after, i)
            <==> || SettledBefore(db, page, line, if ok then |page| else |trail| - 2, i)
                 || (ok && db.payments[r].blockTime <= line && db.payments[r] in listed)
  {
    TrailBegins(cfg, page, line, env, trail, ok);
    hide Trail, LedgerOk, Unambiguous, OldestWaiting, SettledBefore, Grows, Waiting, ConfirmsExactly, IsConfirmed;
    var mid := trail[|trail| - 1];
    PageSettles(cfg, page, line, env, trail, ok, i, r);
    if IsConfirmed(mid, i) {
      ConfirmedStays(mid, after, i);
    } else if ok {
      ExactlyThese(mid, after, line, listed, r);
    }
  }

  lemma PageSettles(cfg: Config, page: seq<Transfer>, line: Time, env: nat -> Interlude, trail: seq<Db>, ok: bool,
                    i: InvoiceId, r: Ref)
    requires Trail(cfg, page, line, env, trail, ok) && LeftAlone(env)
    requires LedgerOk(trail[0]) && Unambiguous(trail[0]) && SameRecords(page)
    requires LiveOn(trail[0], r, i) && i in trail[0].invoices
    requires trail[0].invoices[i].status == Detected && trail[0].invoices[i].network == Tron
    ensures var db, mid := trail[0], trail[|trail| - 1];
            && (IsConfirmed(mid, i) <==> SettledBefore(db, page, line, if ok then |page| else |trail| - 2, i))
            && (!IsConfirmed(mid, i) ==> r in Waiting(mid, Tron))
            && r in mid.payments && mid.payments[r] == db.payments[r] && db.payments[r].invoice == Some(i)
  {
    TrailBegins(cfg, page, line, env, trail, ok);
    hide Trail, LedgerOk, Unambiguous, TurnedDown, Handed, Midway, SettledBefore, Ended, Awaiting, Waiting, Seen;
    var k := if ok then |page| else |trail| - 2;
    TrailIsHanded(cfg, page, line, env, trail, ok);
    SeenIsOneNetwork(page, line);
    AppliedIff(cfg, Tron, Seen(page, line), trail, ok);
    EndedIsSettled(trail[0], page, line, k, i);
    InvoiceMidway(trail[0], Seen(page, line), k, trail[|trail| - 1], i, r);
  }

  lemma ExactlyThese(mid: Db, after: Db, line: Time, listed: seq<Payment>, r: Ref)
    requires ConfirmsExactly(Tron, mid, after, Due(line), listed) && r in Waiting(mid, Tron)
    ensures r in mid.payments && mid.payments[r].invoice.Some?
    ensures IsConfirmed(after, mid.payments[r].invoice.value)
            <==> mid.payments[r].blockTime <= line && mid.payments[r] in listed
  {
  }

  lemma InvoiceMidway(start: Db, xs: seq<Observed>, k: nat, db: Db, i: InvoiceId, r: Ref)
    requires Midway(start, xs, k, db) && LedgerOk(start)
    requires LiveOn(start, r, i) && i in start.invoices
    requires start.invoices[i].status == Detected && start.invoices[i].network == Tron
    ensures IsConfirmed(db, i) <==> Ended(start, xs, k, i)
    ensures !IsConfirmed(db, i) ==> r in Waiting(db, Tron) && db.invoices[i].status != Confirmed
    ensures r in db.payments && db.payments[r] == start.payments[r] && db.payments[r].invoice == Some(i)
  {
    assert LiveOn(db, r, i);
  }

  // ------------------------------------------------------------------ left alone: when ticks get past it

  /** Something in the page stops the watcher, once everything in it is final. */
  ghost predicate Stopped(db: Db, page: seq<Transfer>) {
    exists k: nat :: k < |page| && Stops(db, Seen(page, LastStamp(page)), k)
  }

  /** A line at or above every stamp. */
  function LastStamp(page: seq<Transfer>): Time {
    Newest(page, ZERO_TIME)
  }

  lemma {:induction false} NewestIsAbove(page: seq<Transfer>, cursor: Time)
    ensures forall k | 0 <= k < |page| :: page[k].at <= Newest(page, cursor)
  {
    if page != [] {
      NewestIsAbove(page[..|page| - 1], cursor);
    }
  }

  lemma FinalSeen(page: seq<Transfer>, line: Time)
    requires forall k | 0 <= k < |page| :: page[k].at <= line
    ensures AllFinal(Seen(page, line)) && Seen(page, line) == Seen(page, LastStamp(page))
  {
    NewestIsAbove(page, ZERO_TIME);
  }

  lemma TickStopsIff(cfg: Config, page: seq<Transfer>, line: Time, env: nat -> Interlude, trail: seq<Db>, ok: bool)
    requires Trail(cfg, page, line, env, trail, ok) && LeftAlone(env)
    requires LedgerOk(trail[0]) && Unambiguous(trail[0]) && SameRecords(page)
    requires forall k | 0 <= k < |page| :: page[k].at <= line
    ensures !ok <==> Stopped(trail[0], page)
    ensures !ok ==> Stopped(trail[|trail| - 1], page) && Unambiguous(trail[|trail| - 1])
  {
    TrailBegins(cfg, page, line, env, trail, ok);
    hide Trail, LedgerOk, Unambiguous, TurnedDown, Handed, Stops;
    PageAppliedIff(cfg, page, line, env, trail, ok);
    TrailIsHanded(cfg, page, line, env, trail, ok);
    SeenIsOneNetwork(page, line);
    FinalSeen(page, line);
    var db, xs := trail[0], Seen(page, line);
    forall k: nat | k < |page| ensures TurnedDown(db, xs, k) <==> Stops(db, xs, k) {
      RefusedIffStops(Tron, db, xs, k);
    }
    if !ok {
      HandedIsShort(cfg, Seen(page, line), trail);
      StopsAgain(cfg, Tron, Seen(page, line), trail);
    }
  }

  predicate Answered(t: TickInput) {
    t.line.Some? && t.held.Some?
  }

  /** Ticks that are left alone, on a feed that stands still, once the page at the cursor is final: they all fail, and
      the watcher stays where it is, if and only if some transfer of the page stops it (or no request was answered). It
      is stopped by a value that is not positive, and by a new transfer to an open invoice with a live payment which no
      transfer before it in the page settles; by nothing else. */
  method Alone(w: Watcher, feed: seq<Transfer>, inputs: seq<TickInput>) returns (ghost failed: seq<bool>)
    requires w.Valid() && LedgerOk(w.store.View()) && Ascending(feed) && Unambiguous(w.store.View())
    requires var page := PageOf(feed, LastTime(w.store.cursors));
             && SameRecords(page)
             && forall t, k | 0 <= t < |inputs| && inputs[t].line.Some? && 0 <= k < |page| ::
                  page[k].at <= inputs[t].line.value
    requires forall k | 0 <= k < |inputs| :: inputs[k].held.None? || inputs[k].held.value == |feed|
    requires forall t, k: nat, first: bool | 0 <= t < |inputs| ::
               inputs[t].env(k, first).before == [] && inputs[t].env(k, first).during == []
    modifies w.store
    ensures |failed| == |inputs|
    ensures (forall k | 0 <= k < |inputs| :: failed[k])
            <==> || Stopped(old(w.store.View()), PageOf(feed, LastTime(old(w.store.cursors))))
                 || forall k | 0 <= k < |inputs| :: !Answered(inputs[k])
    ensures Stopped(old(w.store.View()), PageOf(feed, LastTime(old(w.store.cursors)))) ==>
              w.store.cursors == old(w.store.cursors)
              && Stopped(w.store.View(), PageOf(feed, LastTime(w.store.cursors)))
  {
    hide LedgerOk, Unambiguous, Trail, PageRead, Grows, SettledOnly, OldestWaiting, ConfirmsExactly, Ascending, Filed,
         Stopped, PageOf, SameRecords;
    failed := [];
    ghost var page := PageOf(feed, LastTime(w.store.cursors));
    ghost var stopped := Stopped(w.store.View(), page);
    ghost var still, free := true, 0;
    var t := 0;
    while t < |inputs|
      invariant 0 <= t <= |inputs| && |failed| == t
      invariant LedgerOk(w.store.View())
      invariant still ==>
                  && w.store.cursors == old(w.store.cursors) && Unambiguous(w.store.View())
                  && (Stopped(w.store.View(), page) <==> stopped) && forall k | 0 <= k < t :: failed[k]
      invariant stopped ==> still
      invariant !stopped ==> (still <==> forall k | 0 <= k < t :: !Answered(inputs[k]))
      invariant !still ==> 0 <= free < t && !failed[free]
    {
      ghost var before := w.store.View();
      var held := None;
      if inputs[t].held.Some? {
        held := Some(PageOf(feed, w.store.GetCursor(Tron).lastTimestamp));
      }
      var ok, mid, trail, listed := w.Execute(inputs[t].line, held, inputs[t].env);
      if still && inputs[t].line.Some? && held.Some? {
        ghost var env := Part(inputs[t].env, true);
        assert LeftAlone(env);
        TrailBegins(w.service.cfg, page, inputs[t].line.value, env, trail, ok);
        TickStopsIff(w.service.cfg, page, inputs[t].line.value, env, trail, ok);
      }
      failed := failed + [!ok];
      if still && ok {
        still, free := false, t;
      }
      t := t + 1;
    }
  }
}
