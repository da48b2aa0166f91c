/** A condition one can check beforehand under which no `Apply` fails: no transfer still to come falls into the window
    of an open invoice that another transfer has paid, and no two of them fall into one window. */
module Clearing {
  import opened Domain
  import opened Query
  import opened Tables
  import opened Matching
  import opened Ledger
  import opened Interference
  import opened Crediting
  import opened Watching
  import opened Settling

  /** A transfer that may come. */
  datatype Coming = Coming(ref: Ref, contract: string, value: int)

  function ComingOf(x: Observed): Coming { Coming(x.ref, x.contract, x.value) }

  /** The transfers of one network, each of a positive value; those of one token differ by at least a window's width. */
  ghost predicate Apart(n: Network, chain: set<Coming>, width: int) {
    && (forall c | c in chain :: c.ref.network == n && c.value > 0)
    && (forall b, c | b in chain && c in chain && b != c ::
          && b.ref != c.ref
          && (b.contract == c.contract ==> b.value - c.value >= width || c.value - b.value >= width))
  }

  /** The transfer falls into a window of this width at the pay amount of an invoice of its token. */
  predicate InWindow(n: Network, db: Db, c: Coming, i: InvoiceId, width: int) {
    && i in db.invoices && IsAsset(db, n, c.contract, db.invoices[i].asset)
    && db.invoices[i].pay <= c.value < db.invoices[i].pay + width
  }

  predicate StepsWithin(db: Db, width: int) {
    forall a | a in db.assets :: db.assets[a].step <= width
  }

  /** Whatever open invoice a transfer may fall to, nobody else has paid it. */
  ghost predicate Clear(n: Network, db: Db, chain: set<Coming>, width: int) {
    && LedgerOk(db) && StepsWithin(db, width)
    && (forall c, i, q | c in chain && InWindow(n, db, c, i, width) && LiveOn(db, q, i)
                         && !IsTerminal(db.invoices[i].status) :: q == c.ref)
  }

  /** Configuration meanwhile neither widens a window beyond `width` nor disables an asset. */
  predicate QuietSeeds(script: seq<Move>, width: int) {
    forall m | m in script && m.Seed? :: m.asset_row.step <= width && m.asset_row.enabled
  }

  ghost predicate QuietAround(env: nat -> Interlude, width: int) {
    forall k: nat :: QuietSeeds(env(k).before, width) && QuietSeeds(env(k).during, width)
  }

  predicate Enabled(n: Network, db: Db, a: AssetId) {
    a in db.assets && db.assets[a].network == n && db.assets[a].enabled
  }

  // ------------------------------------------------------------------ what keeps it

  /** A live payment that is there already, or one of the transfers, credited to an invoice in whose window it lies. */
  predicate KnownOrCredited(n: Network, db: Db, after: Db, chain: set<Coming>, width: int, q: Ref, i: InvoiceId) {
    || LiveOn(db, q, i)
    || exists c | c in chain :: c.ref == q && InWindow(n, after, c, i, width)
  }

  lemma ClearStays(n: Network, db: Db, after: Db, chain: set<Coming>, width: int)
    requires Clear(n, db, chain, width) && Apart(n, chain, width)
    requires LedgerOk(after) && Grows(db, after) && StepsWithin(after, width)
    requires forall q: Ref, i | q.network == n && LiveOn(after, q, i) ::
               KnownOrCredited(n, db, after, chain, width, q, i)
    ensures Clear(n, after, chain, width)
  {
    forall c, i, q | c in chain && InWindow(n, after, c, i, width) && LiveOn(after, q, i)
                     && !IsTerminal(after.invoices[i].status)
      ensures q == c.ref
    {
      assert q.network == n;
      if LiveOn(db, q, i) {
        assert InWindow(n, db, c, i, width);
      } else {
        var b :| b in chain && b.ref == q && InWindow(n, after, b, i, width);
      }
    }
  }

  lemma SeedsKeepSteps(db: Db, after: Db, script: seq<Move>, again: seq<Move>, width: int)
    requires StepsWithin(db, width) && QuietSeeds(script, width) && QuietSeeds(again, width)
    requires forall a | a in after.assets ::
               || (a in db.assets && after.assets[a] == db.assets[a])
               || Seeded(script, a, after.assets[a]) || Seeded(again, a, after.assets[a])
    ensures StepsWithin(after, width)
    ensures forall n, a | Enabled(n, db, a) && Grows(db, after) :: Enabled(n, after, a)
  {
  }

  lemma AroundKeepsSteps(db: Db, after: Db, env: nat -> Interlude, width: int)
    requires StepsWithin(db, width) && QuietAround(env, width) && AssetsSeeded(db, after, env)
    ensures StepsWithin(after, width)
    ensures forall n, a | Enabled(n, db, a) && Grows(db, after) :: Enabled(n, after, a)
  {
    forall a | a in after.assets
      ensures after.assets[a].step <= width
      ensures (a in db.assets && after.assets[a] == db.assets[a]) || after.assets[a].enabled
    {
      if !(a in db.assets && after.assets[a] == db.assets[a]) {
        var k: nat :| SeededIn(env(k), a, after.assets[a]);
      }
    }
  }

  lemma OutsideKeepsClear(cfg: Config, n: Network, db: Db, script: seq<Move>, chain: set<Coming>, width: int)
    requires Clear(n, db, chain, width) && Apart(n, chain, width) && QuietSeeds(script, width)
    ensures Clear(n, RunOutside(cfg, db, n, script), chain, width)
  {
    hide RunOutside, Grows, Apart, Seeded, QuietSeeds;
    var after := RunOutside(cfg, db, n, script);
    QuietOutside(cfg, db, n, script);
    OutsideRun(cfg, db, n, script);
    OutsideSeeds(cfg, db, n, script);
    NoSeeds(width);
    SeedsKeepSteps(db, after, script, [], width);
    UndisturbedIsKnown(n, db, after, chain, width);
    hide Clear, Undisturbed;
    ClearStays(n, db, after, chain, width);
  }

  /** A settle pass. */
  lemma SettlingKeepsClear(n: Network, db: Db, after: Db, due: Payment -> bool, env: nat -> Interlude,
                           chain: set<Coming>, width: int)
    requires Clear(n, db, chain, width) && Apart(n, chain, width) && QuietAround(env, width)
    requires SettledOnly(n, db, after, due) && Grows(db, after) && LedgerOk(after) && AssetsSeeded(db, after, env)
    ensures Clear(n, after, chain, width)
  {
    hide Grows, Apart, AssetsSeeded, LedgerOk;
    ClearIsOk(n, db, chain, width);
    AroundKeepsSteps(db, after, env, width);
    assert forall q: Ref, i | q.network == n && LiveOn(after, q, i) ::
             KnownOrCredited(n, db, after, chain, width, q, i);
    hide Clear;
    ClearStays(n, db, after, chain, width);
  }

  lemma NoSeeds(width: int)
    ensures QuietSeeds([], width)
  {
  }

  lemma UndisturbedIsKnown(n: Network, db: Db, after: Db, chain: set<Coming>, width: int)
    requires Undisturbed(n, db, after)
    ensures forall q: Ref, i | q.network == n && LiveOn(after, q, i) ::
              KnownOrCredited(n, db, after, chain, width, q, i)
  {
  }

  /** One `Apply` among others' steps: it succeeds, and keeps the condition. */
  lemma ApplyKeepsClear(cfg: Config, db: Db, after: Db, x: Observed, before: seq<Move>, during: seq<Move>, ev: EventId,
                        ok: bool, chain: set<Coming>, width: int)
    requires Clear(x.ref.network, db, chain, width) && Apart(x.ref.network, chain, width) && ComingOf(x) in chain
    requires QuietSeeds(before, width) && QuietSeeds(during, width)
    requires AppliedAs(cfg, db, after, x, before, during, ev, ok)
    ensures ok && Clear(x.ref.network, after, chain, width) && Grows(db, after)
    ensures forall a | Enabled(x.ref.network, db, a) :: Enabled(x.ref.network, after, a)
  {
    hide RunOutside, Finish, LedgerOk, Grows, Undisturbed, Clear, OnlyCredits, Seeded, QuietSeeds, LookupsOk,
         AnsweredAs, Enabled;
    var n := x.ref.network;
    var paused := RunOutside(cfg, db, n, before);
    OutsideKeepsClear(cfg, n, db, before, chain, width);
    ClearIsOk(n, db, chain, width);
    ClearIsOk(n, paused, chain, width);
    ApplyMoves(cfg, db, after, x, before, during, ev, ok);
    assert exists l | LookupsOk(paused, x, l) :: AnsweredAs(cfg, paused, after, x, l, during, ev, ok);
    var l :| LookupsOk(paused, x, l) && AnsweredAs(cfg, paused, after, x, l, during, ev, ok);
    AnsweredFailsIff(cfg, paused, after, x, l, during, ev, ok);
    NothingRefused(n, paused, x, l, chain, width);
    SeedsKeepSteps(db, after, before, during, width);
    CreditsAreKnown(n, paused, db, after, x, chain, width);
    ClearStays(n, db, after, chain, width);
  }

  lemma ClearIsOk(n: Network, db: Db, chain: set<Coming>, width: int)
    requires Clear(n, db, chain, width)
    ensures LedgerOk(db) && StepsWithin(db, width)
  {
  }

  lemma NothingRefused(n: Network, db: Db, x: Observed, l: Lookups, chain: set<Coming>, width: int)
    requires Clear(n, db, chain, width) && Apart(n, chain, width) && ComingOf(x) in chain && LookupsOk(db, x, l)
    ensures x.value > 0
    ensures x.ref !in db.payments && FoundOpen(db, l) ==> !HasLive(db, l.invoice.value)
  {
    assert FoundOpen(db, l) ==> InWindow(n, db, ComingOf(x), l.invoice.value, width);
    assert x.ref !in db.payments && FoundOpen(db, l) ==> forall q :: !LiveOn(db, q, l.invoice.value);
  }

  lemma CreditsAreKnown(n: Network, seen: Db, db: Db, after: Db, x: Observed, chain: set<Coming>, width: int)
    requires n == x.ref.network && OnlyCredits(n, seen, db, after, x) && ComingOf(x) in chain
    requires StepsWithin(seen, width) && Grows(seen, after)
    ensures forall q: Ref, i | q.network == n && LiveOn(after, q, i) ::
              KnownOrCredited(n, db, after, chain, width, q, i)
  {
    forall q: Ref, i | q.network == n && LiveOn(after, q, i) && !LiveOn(db, q, i)
      ensures KnownOrCredited(n, db, after, chain, width, q, i)
    {
      assert CreditedIn(seen, x, after.payments[q]);
      assert InWindow(n, after, ComingOf(x), i, width);
    }
  }
}
