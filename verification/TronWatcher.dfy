/** The TRON watcher (internal/usecases/chain/tron_watcher/usecase.go): discover from the time cursor, then settle. */
module TronWatcher {
  import opened Domain
  import opened Query
  import opened Tables
  import opened Matching
  import opened Ledger
  import opened Interference
  import opened Crediting
  import opened Watching
  import opened Recording
  import opened Store
  import opened Service
  import opened Settling
  import opened Clearing
  import opened TronFeed

  const SETTLE_BATCH: nat := 200

  function RefOf(t: Transfer): Ref { Ref(Tron, t.tx, 0) }

  function ObservedOf(t: Transfer, line: Time): Observed {
    Observed(RefOf(t), t.contract, t.value, 0, t.at, t.at <= line)
  }

  /** A payment the settle pass promotes. */
  function Due(line: Time): Payment -> bool {
    (p: Payment) => p.blockTime <= line
  }

  function LastTime(cursors: map<Network, Cursor>): Time {
    if Tron in cursors then cursors[Tron].lastTimestamp else ZERO_TIME
  }

  /** Every newly confirmed invoice is backed by a transfer of this page at or below the solidified head. */
  ghost predicate PageRead(before: Db, after: Db, page: seq<Transfer>, line: Time) {
    && LedgerOk(after) && Grows(before, after)
    && (forall i | IsConfirmed(after, i) && after.invoices[i].network == Tron && !IsConfirmed(before, i) ::
          BackedByPage(after, page, line, i))
  }

  ghost predicate BackedByPage(db: Db, page: seq<Transfer>, line: Time, i: InvoiceId) {
    exists k :: 0 <= k < |page| && page[k].at <= line && Backs(db, ObservedOf(page[k], line), i)
  }

  lemma BackedStays(b: Db, c: Db, page: seq<Transfer>, line: Time, i: InvoiceId)
    requires LedgerOk(b) && Grows(b, c) && BackedByPage(b, page, line, i)
    ensures BackedByPage(c, page, line, i)
  {
    var k :| 0 <= k < |page| && page[k].at <= line && Backs(b, ObservedOf(page[k], line), i);
    BacksGrows(b, c, ObservedOf(page[k], line), i);
  }

  lemma PageReadTransitive(a: Db, b: Db, c: Db, page: seq<Transfer>, line: Time)
    requires PageRead(a, b, page, line) && PageRead(b, c, page, line)
    ensures PageRead(a, c, page, line)
  {
    hide LedgerOk, BackedByPage;
    GrowsTransitive(a, b, c);
    forall i | IsConfirmed(c, i) && c.invoices[i].network == Tron && !IsConfirmed(a, i)
      ensures BackedByPage(c, page, line, i)
    {
      if IsConfirmed(b, i) {
        BackedStays(b, c, page, line, i);
      }
    }
  }

  lemma NothingRead(db: Db, page: seq<Transfer>, line: Time)
    requires LedgerOk(db)
    ensures PageRead(db, db, page, line)
  {
  }

  lemma QuietPage(db: Db, after: Db, page: seq<Transfer>, line: Time)
    requires LedgerOk(after) && Grows(db, after) && ConfirmedBy(Tron, db, after, None)
    ensures PageRead(db, after, page, line)
  {
  }

  lemma TransferRead(db: Db, after: Db, page: seq<Transfer>, line: Time, k: nat)
    requires k < |page| && OwnStep(Tron, db, after, Some(ObservedOf(page[k], line)))
    ensures PageRead(db, after, page, line)
  {
  }

  lemma PageReadFiles(db: Db, after: Db, page: seq<Transfer>, line: Time, r: Ref)
    requires PageRead(db, after, page, line)
    ensures LedgerOk(after) && (Filed(db, r) ==> Filed(after, r))
  {
  }

  /** The interludes of a tick: those around its page, and those around its settle pass. */
  function Part(env: (nat, bool) -> Interlude, first: bool): nat -> Interlude {
    (k: nat) => env(k, first)
  }

  /** The databases a page went through, one `Apply` after the other; only the last of them can have failed. */
  ghost predicate Trail(cfg: Config, page: seq<Transfer>, line: Time, env: nat -> Interlude, trail: seq<Db>, ok: bool) {
    && 1 <= |trail| <= |page| + 1
    && (ok ==> |trail| == |page| + 1) && (!ok ==> |trail| >= 2)
    && (forall k: nat | k < |trail| - 1 ::
          TrailStep(cfg, trail[k], trail[k + 1], page[k], line, env(k), ok || k < |trail| - 2))
  }

  ghost predicate TrailStep(cfg: Config, db: Db, after: Db, t: Transfer, line: Time, around: Interlude, ok: bool) {
    AppliedAs(cfg, db, after, ObservedOf(t, line), around.before, around.during, around.ev, ok)
  }

  /** A transfer handed over with success is on record under its transaction: if it brought a payment, that says the
      transfer's token, amount and time, and its invoice asks for no more. Once the transfer's time is at or below the
      solidified head's, an invoice its live payment names is settled. */
  lemma TransferIsRecorded(cfg: Config, db: Db, after: Db, t: Transfer, line: Time, around: Interlude)
    requires LedgerOk(db) && TrailStep(cfg, db, after, t, line, around, true)
    ensures t.value > 0
    ensures var r := Ref(Tron, t.tx, 0);
            && (r in after.payments || r in after.orphans)
            && (r in after.payments && r !in db.payments ==>
                  var p := after.payments[r];
                  && p.amount == t.value && p.blockTime == t.at && p.block == None && p.removedAt == None
                  && p.asset in after.assets && after.assets[p.asset].network == Tron
                  && after.assets[p.asset].contract == t.contract
                  && p.invoice.Some? && p.invoice.value in after.invoices
                  && after.invoices[p.invoice.value].asset == p.asset
                  && after.invoices[p.invoice.value].pay <= t.value)
            && (t.at <= line ==> SettledWith(after, r))
  {
    hide LedgerOk, AppliedAs, SettledWith, RunOutside;
    AppliedIsRecorded(cfg, db, after, ObservedOf(t, line), around.before, around.during, around.ev);
  }

  /** A trail that has gone well so far goes one step on. */
  lemma TrailGoesOn(cfg: Config, page: seq<Transfer>, line: Time, env: nat -> Interlude, trail: seq<Db>, after: Db,
                     ok: bool)
    requires 1 <= |trail| <= |page|
    requires forall k: nat | k < |trail| - 1 :: TrailStep(cfg, trail[k], trail[k + 1], page[k], line, env(k), true)
    requires TrailStep(cfg, trail[|trail| - 1], after, page[|trail| - 1], line, env(|trail| - 1), ok)
    ensures !ok ==> Trail(cfg, page, line, env, trail + [after], false)
    ensures ok ==>
              forall k: nat | k < |trail| ::
                TrailStep(cfg, (trail + [after])[k], (trail + [after])[k + 1], page[k], line, env(k), true)
  {
    hide TrailStep;
  }

  /** A record is known by its transaction alone. Once a transfer has a live payment, another transfer of the same
      transaction is taken for a re-read of it, whatever its token and amount: its own money goes on no record. */
  lemma SecondOfTransactionIsLost(cfg: Config, db: Db, t: Transfer, u: Transfer, line: Time, l: Lookups, ev: EventId)
    requires LedgerOk(db) && LookupsOk(db, ObservedOf(u, line), l) && u.value > 0
    requires t.tx == u.tx && RefOf(t) in db.payments && IsLive(db.payments[RefOf(t)])
    ensures var a := ApplyNow(cfg, db, ObservedOf(u, line), l, ev);
            a.Done? && a.db.payments == db.payments && a.db.orphans == db.orphans
  {
    hide EnqueueEvent;
    assert Linked(db);
  }

  /** Every transfer stamped strictly before the cursor is on record. */
  ghost predicate CoveredBefore(db: Db, feed: seq<Transfer>, cursor: Time) {
    forall i | 0 <= i < |feed| && feed[i].at < cursor :: Filed(db, RefOf(feed[i]))
  }

  /** The first `n` transfers are on record. */
  ghost predicate PrefixFiled(db: Db, feed: seq<Transfer>, n: int) {
    forall i | 0 <= i < n && i < |feed| :: Filed(db, RefOf(feed[i]))
  }

  lemma PageCovers(db: Db, feed: seq<Transfer>, cursor: Time)
    requires Ascending(feed) && CoveredBefore(db, feed, cursor)
    requires forall k | 0 <= k < |PageOf(feed, cursor)| :: Filed(db, RefOf(PageOf(feed, cursor)[k]))
    ensures PrefixFiled(db, feed, PageEnd(feed, cursor)) && CoveredBefore(db, feed, NextCursor(feed, cursor))
  {
    PageStartsAtTheCursor(feed, cursor);
    NextCursorIsLast(feed, cursor);
    var start := PageStart(feed, cursor);
    var page := PageOf(feed, cursor);
    forall i | 0 <= i < PageEnd(feed, cursor) && i < |feed| ensures Filed(db, RefOf(feed[i])) {
      if i >= start {
        assert page[i - start] == feed[i];
      }
    }
  }

  class Watcher {
    const service: Service
    const store: Store

    ghost predicate Valid() {
      service.store == store
    }

    constructor (service: Service)
      ensures Valid() && this.service == service && this.store == service.store
    {
      this.service, this.store := service, service.store;
    }

    method ApplyTransfer(page: seq<Transfer>, k: nat, line: Time, around: Interlude) returns (ok: bool)
      requires Valid() && LedgerOk(store.View()) && k < |page|
      modifies store
      ensures PageRead(old(store.View()), store.View(), page, line)
      ensures ok ==> Filed(store.View(), RefOf(page[k]))
      ensures TrailStep(service.cfg, old(store.View()), store.View(), page[k], line, around, ok)
      ensures store.cursors == old(store.cursors)
    {
      hide PageRead, LedgerOk, OwnStep, Finish, RunOutside, LookupsOk, Filed;
      store.Interfere(service.cfg, Tron, around.before);
      ghost var paused := store.View();
      QuietOutside(service.cfg, old(store.View()), Tron, around.before);
      QuietPage(old(store.View()), paused, page, line);
      LedgerIsLinked(paused);
      var verdict, found := service.Apply(ObservedOf(page[k], line), around.during, around.ev);
      ApplyStep(service.cfg, paused, ObservedOf(page[k], line), found, around.during, around.ev);
      TransferRead(paused, store.View(), page, line, k);
      PageReadTransitive(old(store.View()), paused, store.View(), page, line);
      ok := verdict.Ok?;
      assert AnsweredAs(service.cfg, paused, store.View(), ObservedOf(page[k], line), found, around.during, around.ev,
                          ok);
    }

    /** Reads one page from the cursor. The cursor moves to the newest stamp of the page, and only once every transfer
        of it has been handled. */
    method Discover(page: seq<Transfer>, line: Time, env: nat -> Interlude) returns (ok: bool, ghost trail: seq<Db>)
      requires Valid() && LedgerOk(store.View())
      modifies store
      ensures Trail(service.cfg, page, line, env, trail, ok)
      ensures trail[0] == old(store.View()) && trail[|trail| - 1] == store.View()
      ensures PageRead(old(store.View()), store.View(), page, line)
      ensures ok ==> forall k | 0 <= k < |page| :: Filed(store.View(), RefOf(page[k]))
      ensures !ok ==> store.cursors == old(store.cursors)
      ensures ok ==> LastTime(store.cursors) == Newest(page, LastTime(old(store.cursors)))
      ensures Bsc in old(store.cursors) ==> Bsc in store.cursors && store.cursors[Bsc] == old(store.cursors)[Bsc]
    {
      hide PageRead, LedgerOk, Filed, TrailStep;
      trail := [store.View()];
      var cursor := store.GetCursor(Tron).lastTimestamp;
      var newest := cursor;
      var k := 0;
      NothingRead(store.View(), page, line);
      while k < |page|
        invariant 0 <= k <= |page|
        invariant LedgerOk(store.View())
        invariant PageRead(old(store.View()), store.View(), page, line)
        invariant forall j | 0 <= j < k :: Filed(store.View(), RefOf(page[j]))
        invariant |trail| == k + 1 && trail[0] == old(store.View()) && trail[k] == store.View()
        invariant forall j: nat | j < k :: TrailStep(service.cfg, trail[j], trail[j + 1], page[j], line, env(j), true)
        invariant newest == Newest(page[..k], cursor) >= cursor
        invariant store.cursors == old(store.cursors)
      {
        ghost var before := store.View();
        var applied := ApplyTransfer(page, k, line, env(k));
        PageReadTransitive(old(store.View()), before, store.View(), page, line);
        forall j | 0 <= j < k ensures Filed(store.View(), RefOf(page[j])) {
          PageReadFiles(before, store.View(), page, line, RefOf(page[j]));
        }
        PageReadFiles(before, store.View(), page, line, RefOf(page[k]));
        TrailGoesOn(service.cfg, page, line, env, trail, store.View(), applied);
        trail := trail + [store.View()];
        if !applied {
          return false, trail;
        }
        if page[k].at > newest {
          newest := page[k].at;
        }
        assert page[..k + 1][..k] == page[..k];
        k := k + 1;
      }
      assert page[..k] == page;
      if newest > cursor {
        store.SaveCursor(Tron, 0, newest);
      }
      return true, trail;
    }

    /** One tick, given the solidified head's time and the page the feed answered with. */
    method Execute(line: Option<Time>, page: Option<seq<Transfer>>, env: (nat, bool) -> Interlude)
      returns (ok: bool, ghost mid: Db, ghost trail: seq<Db>, ghost listed: seq<Payment>)
      requires Valid() && LedgerOk(store.View())
      modifies store
      ensures LedgerOk(store.View()) && Grows(mid, store.View())
      ensures line.None? || page.None? ==> !ok && mid == old(store.View())
      ensures line.Some? && page.Some? ==>
                && Trail(service.cfg, page.value, line.value, Part(env, true), trail, ok)
                && trail[0] == old(store.View()) && trail[|trail| - 1] == mid
                && PageRead(old(store.View()), mid, page.value, line.value)
      ensures !ok ==> store.View() == mid
      ensures ok ==>
                && line.Some? && page.Some?
                && SettledOnly(Tron, mid, store.View(), Due(line.value))
                && OldestWaiting(mid, Tron, SETTLE_BATCH, listed)
                && ConfirmsExactly(Tron, mid, store.View(), Due(line.value), listed)
      ensures ok && line.Some? ==>
                |listed| == Min(200, |Waiting(mid, Tron)|) && SettlesUpTo(mid, store.View(), listed, line.value)
      ensures ok ==> forall k | 0 <= k < |page.value| :: Filed(store.View(), RefOf(page.value[k]))
      ensures ok ==> LastTime(store.cursors) == Newest(page.value, LastTime(old(store.cursors)))
      ensures !ok ==> store.cursors == old(store.cursors)
      ensures Grows(old(store.View()), store.View())
      ensures AssetsSeeded(mid, store.View(), Part(env, false))
    {
      hide PageRead, LedgerOk, Filed, Grows, SettledOnly, Trail, OldestWaiting, ConfirmsExactly, AssetsSeeded, Waiting,
           SettlesUpTo;
      mid, trail, listed := store.View(), [], [];
      GrowsItself(mid);
      AssetsStay(mid, Part(env, false));
      if line.None? || page.None? {
        return false, mid, trail, listed;
      }
      ok, trail := Discover(page.value, line.value, Part(env, true));
      ReadGrows(old(store.View()), store.View(), page.value, line.value);
      mid := store.View();
      GrowsItself(mid);
      AssetsStay(mid, Part(env, false));
      if !ok {
        return;
      }
      var settled;
      settled, listed := SettlePass(service, Tron, SETTLE_BATCH, Due(line.value), Part(env, false));
      SettledAmong(Tron, mid, store.View(), Due(line.value), listed);
      PassSettlesUpTo(mid, store.View(), listed, line.value);
      GrowsTransitive(old(store.View()), mid, store.View());
      forall k | 0 <= k < |page.value| ensures Filed(store.View(), RefOf(page.value[k])) {
        GrowsFiled(mid, store.View(), RefOf(page.value[k]));
      }
    }
  }

  /** Of the payments waiting, the pass confirms those listed that are stamped no later than the solidified head. */
  ghost predicate SettlesUpTo(before: Db, after: Db, listed: seq<Payment>, line: Time) {
    forall r | r in Waiting(before, Tron) ::
      IsConfirmed(after, before.payments[r].invoice.value) <==>
        before.payments[r] in listed && before.payments[r].blockTime <= line
  }

  lemma PassSettlesUpTo(before: Db, after: Db, listed: seq<Payment>, line: Time)
    requires OldestWaiting(before, Tron, SETTLE_BATCH, listed)
    requires ConfirmsExactly(Tron, before, after, Due(line), listed)
    ensures |listed| == Min(200, |Waiting(before, Tron)|) && SettlesUpTo(before, after, listed, line)
  {
    hide IsConfirmed, Awaiting;
  }

  lemma ReadGrows(db: Db, after: Db, page: seq<Transfer>, line: Time)
    requires PageRead(db, after, page, line)
    ensures LedgerOk(after) && Grows(db, after)
  {
  }

  lemma GrowsFiled(db: Db, after: Db, r: Ref)
    requires Grows(db, after) && Filed(db, r)
    ensures Filed(after, r)
  {
  }

  /** The waiting payments that are due, and of those the ones a tick has confirmed. */
  function ConfirmedDue(db: Db, after: Db, line: Time): set<Ref> {
    set r | r in DueOf(db, Tron, Due(line)) && IsConfirmed(after, db.payments[r].invoice.value)
  }

  /** However many payments wait, a tick confirms the oldest of those that are due, as many as its batch allows: stamps
      decide both finality and the order of the list. */
  lemma TickSettlesTheOldest(db: Db, after: Db, line: Time, listed: seq<Payment>)
    requires Linked(db) && OldestWaiting(db, Tron, SETTLE_BATCH, listed)
    requires ConfirmsExactly(Tron, db, after, Due(line), listed)
    ensures |ConfirmedDue(db, after, line)| == Min(SETTLE_BATCH, |DueOf(db, Tron, Due(line))|)
    ensures forall r, q | r in ConfirmedDue(db, after, line)
                          && q in DueOf(db, Tron, Due(line)) - ConfirmedDue(db, after, line) ::
              db.payments[r].blockTime <= db.payments[q].blockTime
  {
    OldestDueAreListed(db, Tron, SETTLE_BATCH, listed, Due(line));
    ListedRefs(db, Tron, SETTLE_BATCH, listed);
    hide OldestWaiting, Awaiting;
    assert ConfirmedDue(db, after, line) == DueOf(db, Tron, Due(line)) * RefsOf(listed);
  }

  // ------------------------------------------------------------------ many ticks

  /** One tick's circumstances: the solidified head, how many records the feed holds by then, who else acts; an absent
      value is a failed request. */
  datatype TickInput = TickInput(line: Option<Time>, held: Option<nat>, env: (nat, bool) -> Interlude)

  lemma CoveredGrows(db: Db, after: Db, feed: seq<Transfer>, cursor: Time)
    requires CoveredBefore(db, feed, cursor) && Grows(db, after)
    ensures CoveredBefore(after, feed, cursor)
  {
  }

  lemma PrefixIsAscending(feed: seq<Transfer>, n: nat)
    requires Ascending(feed) && n <= |feed|
    ensures Ascending(feed[..n])
  {
  }

  /** A page of what the feed held extends the coverage of everything it will ever hold. */
  lemma EarlyPageCovers(db: Db, feed: seq<Transfer>, n: nat, cursor: Time)
    requires Ascending(feed) && n <= |feed| && CoveredBefore(db, feed, cursor) && Ascending(feed[..n])
    requires forall k | 0 <= k < |PageOf(feed[..n], cursor)| :: Filed(db, RefOf(PageOf(feed[..n], cursor)[k]))
    ensures CoveredBefore(db, feed, NextCursor(feed[..n], cursor))
  {
    var held := feed[..n];
    assert CoveredBefore(db, held, cursor);
    PageCovers(db, held, cursor);
    NextCursorIsLast(held, cursor);
    var next := NextCursor(held, cursor);
    forall i | 0 <= i < |feed| && feed[i].at < next ensures Filed(db, RefOf(feed[i])) {
      if i < n {
        assert held[i] == feed[i];
      } else if n > 0 {
        assert held[PageEnd(held, cursor) - 1].at <= feed[i].at || PageStart(held, cursor) == |held|;
      }
    }
  }

  /** The feed's transfers. */
  ghost predicate FeedAmong(feed: seq<Transfer>, chain: set<Coming>) {
    forall k | 0 <= k < |feed| :: Coming(RefOf(feed[k]), feed[k].contract, feed[k].value) in chain
  }

  ghost predicate QuietTick(env: (nat, bool) -> Interlude, width: int) {
    forall k: nat, first: bool :: QuietSeeds(env(k, first).before, width) && QuietSeeds(env(k, first).during, width)
  }

  lemma {:induction false} TrailKeepsClear(cfg: Config, page: seq<Transfer>, line: Time, env: nat -> Interlude,
                                           trail: seq<Db>, ok: bool, chain: set<Coming>, width: int, n: nat)
    requires Trail(cfg, page, line, env, trail, ok) && n < |trail| && FeedAmong(page, chain)
    requires Clear(Tron, trail[0], chain, width) && Apart(Tron, chain, width) && QuietAround(env, width)
    ensures Clear(Tron, trail[n], chain, width)
    ensures n == |trail| - 1 ==> ok
    decreases n
  {
    hide Clear, Apart, AppliedAs, QuietSeeds, Grows, Enabled;
    if n > 0 {
      TrailKeepsClear(cfg, page, line, env, trail, ok, chain, width, n - 1);
      assert TrailStep(cfg, trail[n - 1], trail[n], page[n - 1], line, env(n - 1), ok || n - 1 < |trail| - 2);
      ApplyKeepsClear(cfg, trail[n - 1], trail[n], ObservedOf(page[n - 1], line), env(n - 1).before, env(n - 1).during,
                      env(n - 1).ev, ok || n - 1 < |trail| - 2, chain, width);
    }
  }

  /** A tick that is answered succeeds, when no transfer is refused. */
  lemma TickKeepsClear(cfg: Config, page: seq<Transfer>, line: Time, env: (nat, bool) -> Interlude, trail: seq<Db>,
                       ok: bool, after: Db, chain: set<Coming>, width: int)
    requires Trail(cfg, page, line, Part(env, true), trail, ok) && FeedAmong(page, chain)
    requires Clear(Tron, trail[0], chain, width) && Apart(Tron, chain, width) && QuietTick(env, width)
    requires ok ==>
               var mid := trail[|trail| - 1];
               && SettledOnly(Tron, mid, after, Due(line)) && Grows(mid, after) && LedgerOk(after)
               && AssetsSeeded(mid, after, Part(env, false))
    ensures ok && Clear(Tron, after, chain, width)
  {
    hide Clear, Apart, TrailStep, SettledOnly, Grows, LedgerOk, AssetsSeeded;
    TrailKeepsClear(cfg, page, line, Part(env, true), trail, ok, chain, width, |trail| - 1);
    SettlingKeepsClear(Tron, trail[|trail| - 1], after, Due(line), Part(env, false), chain, width);
  }

  lemma PageAmong(feed: seq<Transfer>, n: nat, cursor: Time, chain: set<Coming>)
    requires FeedAmong(feed, chain) && n <= |feed| && Ascending(feed[..n])
    ensures FeedAmong(PageOf(feed[..n], cursor), chain)
  {
    PageStartsAtTheCursor(feed[..n], cursor);
  }

  /** Ticks on a feed that only grows at its end (`feed` is all it will hold), requests and `Apply` calls failing or
      not. Whatever fails, every transfer stamped strictly before the saved cursor is on record. From an empty cursor on
      a feed that stands still, ticks that all succeed put on record exactly as many records as `Frontier` counts,
      which `DrainsIff` turns into the whole feed. And they all succeed, if every request is answered and no transfer of
      the feed falls to an invoice another has paid, nor two of them to one. */
  method Poll(w: Watcher, feed: seq<Transfer>, inputs: seq<TickInput>, ghost chain: set<Coming>, ghost width: int)
    returns (allOk: bool)
    requires w.Valid() && LedgerOk(w.store.View()) && Ascending(feed)
    requires forall k | 0 <= k < |inputs| && inputs[k].held.Some? :: inputs[k].held.value <= |feed|
    requires CoveredBefore(w.store.View(), feed, LastTime(w.store.cursors))
    modifies w.store
    ensures LedgerOk(w.store.View())
    ensures CoveredBefore(w.store.View(), feed, LastTime(w.store.cursors))
    ensures allOk && LastTime(old(w.store.cursors)) == ZERO_TIME
            && (forall k | 0 <= k < |inputs| :: inputs[k].held == Some(|feed|)) ==>
              PrefixFiled(w.store.View(), feed, Frontier(feed, |inputs|))
              && LastTime(w.store.cursors) == CursorAt(feed, |inputs|)
    ensures Clear(Tron, old(w.store.View()), chain, width) && Unrefused(feed, inputs, chain, width) ==> allOk
  {
    hide LedgerOk, PageRead, Grows, SettledOnly, CoveredBefore, PrefixFiled, Filed, Ascending, PageStart, PageOf,
         PageEnd, Trail, OldestWaiting, ConfirmsExactly, Clear, Apart, FeedAmong, AssetsSeeded, QuietTick;
    allOk := true;
    ghost var clear := Clear(Tron, w.store.View(), chain, width) && Unrefused(feed, inputs, chain, width);
    var k := 0;
    NothingToFile(w.store.View(), feed);
    ghost var still := LastTime(w.store.cursors) == ZERO_TIME
      && forall j | 0 <= j < |inputs| :: inputs[j].held == Some(|feed|);
    while k < |inputs|
      invariant 0 <= k <= |inputs|
      invariant LedgerOk(w.store.View())
      invariant CoveredBefore(w.store.View(), feed, LastTime(w.store.cursors))
      invariant allOk && still ==>
                  PrefixFiled(w.store.View(), feed, Frontier(feed, k)) && LastTime(w.store.cursors) == CursorAt(feed, k)
      invariant clear ==> allOk && Clear(Tron, w.store.View(), chain, width)
    {
      var t := inputs[k];
      ghost var before, cursor := w.store.View(), LastTime(w.store.cursors);
      var page := None;
      if t.held.Some? {
        PrefixIsAscending(feed, t.held.value);
        page := Some(PageOf(feed[..t.held.value], w.store.GetCursor(Tron).lastTimestamp));
      }
      var ok, mid, trail, listed := w.Execute(t.line, page, t.env);
      CoveredGrows(before, w.store.View(), feed, cursor);
      if clear {
        PageAmong(feed, t.held.value, cursor, chain);
        TickKeepsClear(w.service.cfg, page.value, t.line.value, t.env, trail, ok, w.store.View(), chain, width);
      }
      if ok {
        EarlyPageCovers(w.store.View(), feed, t.held.value, cursor);
        if still {
          assert feed[..|feed|] == feed;
          PageCovers(w.store.View(), feed, cursor);
        }
      }
      allOk := allOk && ok;
      k := k + 1;
    }
  }

  /** Every request is answered, and the feed's transfers and others' steps are such that none need be refused. */
  ghost predicate Unrefused(feed: seq<Transfer>, inputs: seq<TickInput>, chain: set<Coming>, width: int) {
    && Apart(Tron, chain, width) && FeedAmong(feed, chain)
    && forall k | 0 <= k < |inputs| ::
         inputs[k].line.Some? && inputs[k].held.Some? && QuietTick(inputs[k].env, width)
  }

  lemma NothingToFile(db: Db, feed: seq<Transfer>)
    ensures PrefixFiled(db, feed, 0)
  {
  }
}
