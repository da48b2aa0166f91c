/** The settle pass both watchers end a tick with: `settle` of the BSC and of the TRON watcher, which differ only in the
    test for finality. */
module Settling {
  import opened Query
  import opened Tables
  import opened Matching
  import opened Ledger
  import opened Interference
  import opened Watching
  import opened Store
  import opened Service

  /** What happens around one statement: other actors' steps before it and during it, and a minted event id. */
  datatype Interlude = Interlude(before: seq<Move>, during: seq<Move>, ev: EventId)

  /** Nobody else acts. */
  ghost predicate LeftAlone(env: nat -> Interlude) {
    forall k :: env(k).before == [] && env(k).during == []
  }

  /** Whatever asset row has changed was seeded in one of the interludes. */
  ghost predicate AssetsSeeded(db: Db, after: Db, env: nat -> Interlude) {
    forall a | a in after.assets ::
      (a in db.assets && after.assets[a] == db.assets[a]) || exists k: nat :: SeededIn(env(k), a, after.assets[a])
  }

  predicate SeededIn(around: Interlude, a: AssetId, row: Asset) {
    Seeded(around.before, a, row) || Seeded(around.during, a, row)
  }

  lemma AssetsStay(db: Db, env: nat -> Interlude)
    ensures AssetsSeeded(db, db, env)
  {
  }

  lemma AssetsSeededTransitive(a: Db, b: Db, c: Db, env: nat -> Interlude)
    requires AssetsSeeded(a, b, env) && AssetsSeeded(b, c, env)
    ensures AssetsSeeded(a, c, env)
  {
    hide SeededIn;
  }

  lemma PauseSeeds(cfg: Config, start: Db, db: Db, n: Network, env: nat -> Interlude, k: nat)
    requires AssetsSeeded(start, db, env)
    ensures AssetsSeeded(start, RunOutside(cfg, db, n, env(k).before), env)
  {
    OutsideSeeds(cfg, db, n, env(k).before);
    var after := RunOutside(cfg, db, n, env(k).before);
    hide RunOutside, Seeded;
    forall a | a in after.assets && Seeded(env(k).before, a, after.assets[a])
      ensures SeededIn(env(k), a, after.assets[a])
    {
    }
    AssetsSeededTransitive(start, db, after, env);
  }

  lemma SettleSeeds(cfg: Config, start: Db, db: Db, p: Payment, ev: EventId, env: nat -> Interlude)
    requires AssetsSeeded(start, db, env)
    ensures AssetsSeeded(start, After(db, SettleTx(cfg, db, p, ev)), env)
  {
    hide EnqueueEvent, SeededIn;
    assert After(db, SettleTx(cfg, db, p, ev)).assets == db.assets;
  }

  /** What the pass keeps while it works through `pending`. */
  ghost predicate Settled(n: Network, start: Db, db: Db, pending: seq<Payment>, due: Payment -> bool) {
    && LedgerOk(db) && Grows(start, db) && SettledOnly(n, start, db, due)
    && (forall j | 0 <= j < |pending| :: OpenOrDone(db, pending[j]))
  }

  lemma PauseSettled(cfg: Config, n: Network, start: Db, db: Db, pending: seq<Payment>, due: Payment -> bool,
                     script: seq<Move>)
    requires Settled(n, start, db, pending, due) && forall j | 0 <= j < |pending| :: pending[j].ref.network == n
    ensures Settled(n, start, RunOutside(cfg, db, n, script), pending, due)
    ensures Grows(db, RunOutside(cfg, db, n, script))
  {
    hide LedgerOk, Grows, SettledOnly, Undisturbed, OpenOrDone, RunOutside;
    var after := RunOutside(cfg, db, n, script);
    QuietOutside(cfg, db, n, script);
    OutsideRun(cfg, db, n, script);
    QuietlySettled(n, start, db, after, due);
    GrowsTransitive(start, db, after);
    forall j | 0 <= j < |pending| ensures OpenOrDone(after, pending[j]) {
      OpenOrDoneUndisturbed(db, after, pending[j]);
    }
  }

  lemma PromoteSettled(cfg: Config, n: Network, start: Db, db: Db, pending: seq<Payment>, due: Payment -> bool, k: nat,
                       ev: EventId)
    requires Settled(n, start, db, pending, due) && k < |pending| && due(pending[k]) && IsLive(pending[k])
    requires Awaiting(start, n, pending[k].ref) && start.payments[pending[k].ref] == pending[k]
    ensures var a := SettleTx(cfg, db, pending[k], ev);
            && a.Done? && Settled(n, start, a.db, pending, due) && Grows(db, a.db)
            && IsConfirmed(a.db, pending[k].invoice.value)
  {
    hide LedgerOk, Grows, SettledOnly, OpenOrDone, IsConfirmed, SettleTx;
    LedgerIsLinked(db);
    SettleStep(cfg, db, pending[k], ev);
    SettleConfirms(cfg, db, pending[k], ev);
    var after := SettleTx(cfg, db, pending[k], ev).db;
    OneSettled(n, start, db, after, pending[k], due);
    GrowsTransitive(start, db, after);
    forall j | 0 <= j < |pending| ensures OpenOrDone(after, pending[j]) {
      OpenOrDoneSettled(cfg, db, pending[k], ev, pending[j]);
    }
  }

  /** The first `k` payments of the pass, as far as they are due, are settled. */
  ghost predicate Promoted(db: Db, pending: seq<Payment>, due: Payment -> bool, k: nat) {
    && k <= |pending|
    && forall j | 0 <= j < k && due(pending[j]) :: pending[j].invoice.Some? && IsConfirmed(db, pending[j].invoice.value)
  }

  lemma NextPromoted(before: Db, after: Db, pending: seq<Payment>, due: Payment -> bool, k: nat)
    requires Promoted(before, pending, due, k) && k < |pending| && Grows(before, after)
    requires due(pending[k]) ==> pending[k].invoice.Some? && IsConfirmed(after, pending[k].invoice.value)
    ensures Promoted(after, pending, due, k + 1)
  {
    hide Grows, IsConfirmed;
    forall j | 0 <= j < k && due(pending[j]) ensures IsConfirmed(after, pending[j].invoice.value) {
      ConfirmedStays(before, after, pending[j].invoice.value);
    }
  }

  lemma AllPromoted(db: Db, pending: seq<Payment>, due: Payment -> bool)
    requires Promoted(db, pending, due, |pending|)
    ensures forall k | 0 <= k < |pending| && due(pending[k]) ::
              pending[k].invoice.Some? && IsConfirmed(db, pending[k].invoice.value)
  {
  }

  lemma NothingPromoted(db: Db, pending: seq<Payment>, due: Payment -> bool)
    ensures Promoted(db, pending, due, 0)
  {
  }

  lemma SettledNow(n: Network, start: Db, db: Db, pending: seq<Payment>, due: Payment -> bool)
    requires Settled(n, start, db, pending, due)
    ensures LedgerOk(db) && Grows(start, db) && SettledOnly(n, start, db, due)
  {
  }

  lemma NothingSettledYet(n: Network, db: Db, pending: seq<Payment>, due: Payment -> bool)
    requires LedgerOk(db) && forall j | 0 <= j < |pending| :: OpenOrDone(db, pending[j])
    ensures Settled(n, db, db, pending, due)
  {
    hide LedgerOk, Grows, SettledOnly;
    NothingSettled(n, db, due);
  }

  /** Due, and among the payments the pass has listed. */
  function DueIn(due: Payment -> bool, listed: seq<Payment>): Payment -> bool {
    (p: Payment) => due(p) && p in listed
  }

  lemma SettledAmong(n: Network, db: Db, after: Db, due: Payment -> bool, listed: seq<Payment>)
    requires SettledOnly(n, db, after, DueIn(due, listed))
    ensures SettledOnly(n, db, after, due)
  {
    forall i | IsConfirmed(after, i) && after.invoices[i].network == n && !IsConfirmed(db, i)
      ensures exists r :: r in db.payments && SettledBy(n, db, r, due, i)
    {
      var r :| r in db.payments && SettledBy(n, db, r, DueIn(due, listed), i);
      assert SettledBy(n, db, r, due, i);
    }
  }

  /** Of the payments that wait, a pass confirms exactly those it has listed and that are due. */
  ghost predicate ConfirmsExactly(n: Network, db: Db, after: Db, due: Payment -> bool, listed: seq<Payment>) {
    forall r | r in Waiting(db, n) ::
      IsConfirmed(after, db.payments[r].invoice.value) <==> due(db.payments[r]) && db.payments[r] in listed
  }

  lemma OneWaitsPerInvoice(db: Db, n: Network, q: Ref, r: Ref, i: InvoiceId)
    requires LedgerOk(db) && Awaiting(db, n, q) && Awaiting(db, n, r)
    requires db.payments[q].invoice == Some(i) && db.payments[r].invoice == Some(i)
    ensures q == r
  {
    assert LiveOn(db, q, i) && LiveOn(db, r, i);
  }

  lemma WaitsOnItsNetwork(db: Db, after: Db, n: Network, r: Ref)
    requires LedgerOk(db) && Grows(db, after) && Awaiting(db, n, r)
    ensures db.payments[r].invoice.value in after.invoices
    ensures after.invoices[db.payments[r].invoice.value].network == n
  {
  }

  lemma OnlyListedAreConfirmed(n: Network, db: Db, after: Db, due: Payment -> bool, listed: seq<Payment>)
    requires LedgerOk(db) && SettledOnly(n, db, after, DueIn(due, listed)) && Grows(db, after)
    requires forall k | 0 <= k < |listed| && due(listed[k]) ::
               listed[k].invoice.Some? && IsConfirmed(after, listed[k].invoice.value)
    ensures ConfirmsExactly(n, db, after, due, listed)
  {
    hide LedgerOk;
    forall r | r in Waiting(db, n)
      ensures IsConfirmed(after, db.payments[r].invoice.value) <==> due(db.payments[r]) && db.payments[r] in listed
    {
      var i := db.payments[r].invoice.value;
      if IsConfirmed(after, i) {
        assert after.invoices[i].network == n by { WaitsOnItsNetwork(db, after, n, r); }
        var q :| q in db.payments && SettledBy(n, db, q, DueIn(due, listed), i);
        OneWaitsPerInvoice(db, n, q, r, i);
      }
    }
  }

  /** Promotes the listed payments that are due, and nothing else: the pass confirms exactly those, so all that are due
      when one batch holds every waiting payment. */
  method SettlePass(service: Service, n: Network, batch: nat, due: Payment -> bool, env: nat -> Interlude)
    returns (settled: nat, ghost listed: seq<Payment>)
    requires LedgerOk(service.store.View())
    modifies service.store
    ensures LedgerOk(service.store.View()) && Grows(old(service.store.View()), service.store.View())
    ensures OldestWaiting(old(service.store.View()), n, batch, listed)
    ensures SettledOnly(n, old(service.store.View()), service.store.View(), DueIn(due, listed))
    ensures ConfirmsExactly(n, old(service.store.View()), service.store.View(), due, listed)
    ensures AssetsSeeded(old(service.store.View()), service.store.View(), env)
    ensures service.store.cursors == old(service.store.cursors)
  {
    hide AssetsSeeded, LedgerOk, Grows, SettledOnly, OpenOrDone, IsConfirmed, SettleTx, RunOutside, OldestWaiting,
         Awaiting, Settled, Promoted, ConfirmsExactly, Linked;
    var store := service.store;
    ghost var start := store.View();
    LedgerIsLinked(start);
    var pending := store.ListAwaiting(n, batch);
    listed := pending;
    ghost var among := DueIn(due, pending);
    ListedWait(start, n, batch, pending);
    ListedAreOpen(start, pending);
    NothingSettledYet(n, start, pending, among);
    NothingPromoted(start, pending, due);
    AssetsStay(start, env);
    settled := 0;
    var k := 0;
    while k < |pending|
      invariant 0 <= k <= |pending|
      invariant Settled(n, start, store.View(), pending, among)
      invariant Promoted(store.View(), pending, due, k)
      invariant AssetsSeeded(start, store.View(), env)
      invariant store.cursors == old(service.store.cursors)
    {
      ghost var before := store.View();
      store.Interfere(service.cfg, n, env(k).before);
      PauseSettled(service.cfg, n, start, before, pending, among, env(k).before);
      ghost var paused := store.View();
      PauseSeeds(service.cfg, start, before, n, env, k);
      if due(pending[k]) {
        var verdict := service.Settle(pending[k], env(k).ev);
        PromoteSettled(service.cfg, n, start, paused, pending, among, k, env(k).ev);
        assert verdict.Ok?;
        SettleSeeds(service.cfg, start, paused, pending[k], env(k).ev, env);
        GrowsTransitive(before, paused, store.View());
        settled := settled + 1;
      }
      NextPromoted(before, store.View(), pending, due, k);
      k := k + 1;
    }
    AllPromoted(store.View(), pending, due);
    SettledNow(n, start, store.View(), pending, among);
    OnlyListedAreConfirmed(n, start, store.View(), due, pending);
  }

  lemma ListedWait(db: Db, n: Network, batch: nat, pending: seq<Payment>)
    requires OldestWaiting(db, n, batch, pending)
    ensures forall k | 0 <= k < |pending| ::
              && pending[k].ref in db.payments && db.payments[pending[k].ref] == pending[k]
              && Awaiting(db, n, pending[k].ref) && pending[k].ref.network == n && pending[k].invoice.Some?
  {
  }

  // ------------------------------------------------------------------ what a batch reaches

  function RefsOf(listed: seq<Payment>): set<Ref> {
    set k | 0 <= k < |listed| :: listed[k].ref
  }

  lemma ListedRefs(db: Db, n: Network, batch: nat, listed: seq<Payment>)
    requires Linked(db) && OldestWaiting(db, n, batch, listed)
    ensures |RefsOf(listed)| == |listed| && RefsOf(listed) <= Waiting(db, n)
    ensures forall r | r in Waiting(db, n) :: db.payments[r] in listed <==> r in RefsOf(listed)
  {
    hide Awaiting;
    var refs := seq(|listed|, k requires 0 <= k < |listed| => listed[k].ref);
    DistinctCount(refs);
    forall r ensures r in RefsOf(listed) <==> r in refs {
      if r in refs {
        var k :| 0 <= k < |refs| && refs[k] == r;
        assert listed[k].ref == r;
      }
      if r in RefsOf(listed) {
        var k :| 0 <= k < |listed| && listed[k].ref == r;
        assert refs[k] == r;
      }
    }
    assert RefsOf(listed) == (set r | r in refs);
    forall r | r in Waiting(db, n) ensures db.payments[r] in listed <==> r in RefsOf(listed) {
      if db.payments[r] in listed {
        var k :| 0 <= k < |listed| && listed[k] == db.payments[r];
        assert listed[k].ref == r;
      }
      if r in RefsOf(listed) {
        var k :| 0 <= k < |listed| && listed[k].ref == r;
        assert listed[k] == db.payments[r];
      }
    }
  }

  /** The waiting payments that are due. */
  function DueOf(db: Db, n: Network, due: Payment -> bool): set<Ref> {
    set r | r in Waiting(db, n) && due(db.payments[r])
  }

  /** Where finality follows the time the list is ordered by, as on TRON, a pass reaches the oldest due payments, as
      many as the batch allows, however many payments wait that are not due. */
  lemma OldestDueAreListed(db: Db, n: Network, batch: nat, listed: seq<Payment>, due: Payment -> bool)
    requires Linked(db) && OldestWaiting(db, n, batch, listed)
    requires forall r, q | r in Waiting(db, n) && q in Waiting(db, n) ::
               db.payments[r].blockTime <= db.payments[q].blockTime && due(db.payments[q]) ==> due(db.payments[r])
    ensures |DueOf(db, n, due) * RefsOf(listed)| == Min(batch, |DueOf(db, n, due)|)
    ensures forall r, q | r in DueOf(db, n, due) * RefsOf(listed) && q in DueOf(db, n, due) - RefsOf(listed) ::
              db.payments[r].blockTime <= db.payments[q].blockTime
  {
    hide Awaiting;
    ListedRefs(db, n, batch, listed);
    var all, refs := DueOf(db, n, due), RefsOf(listed);
    SubsetIsNoLarger(all * refs, refs);
    SubsetIsNoLarger(all * refs, all);
    if all <= refs {
      assert all * refs == all;
    } else {
      var q :| q in all && q !in refs;
      assert all * refs == refs;
    }
  }

  /** Where it does not, as on BSC, what counts is when a payment was observed: as soon as a full batch of others waits
      since earlier, due or not, the pass does not reach it; and it does while fewer others are as old. */
  lemma ReachedByAge(db: Db, n: Network, batch: nat, listed: seq<Payment>, r: Ref)
    requires Linked(db) && OldestWaiting(db, n, batch, listed) && r in Waiting(db, n)
    ensures |OlderThan(db, n, r)| >= batch ==> db.payments[r] !in listed
    ensures |AsOldAs(db, n, r)| < batch ==> db.payments[r] in listed
  {
    hide Awaiting;
    ListedRefs(db, n, batch, listed);
    var refs := RefsOf(listed);
    if r !in refs {
      assert refs <= AsOldAs(db, n, r);
      SubsetIsNoLarger(refs, AsOldAs(db, n, r));
    } else {
      assert OlderThan(db, n, r) <= refs - {r};
      SubsetIsNoLarger(OlderThan(db, n, r), refs - {r});
      assert |refs - {r}| == |refs| - 1;
    }
  }

  function OlderThan(db: Db, n: Network, r: Ref): set<Ref>
    requires r in db.payments
  {
    set q | q in Waiting(db, n) && db.payments[q].blockTime < db.payments[r].blockTime
  }

  function AsOldAs(db: Db, n: Network, r: Ref): set<Ref>
    requires r in db.payments
  {
    set q | q in Waiting(db, n) && q != r && db.payments[q].blockTime <= db.payments[r].blockTime
  }
}
