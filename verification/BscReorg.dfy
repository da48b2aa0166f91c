/** What detection by absence withdraws on a chain that only grows: nothing, as long as every token with a payment
    waiting in the blocks scanned is still asked for. */
module BscReorg {
  import opened Domain
  import opened Query
  import opened Tables
  import opened Matching
  import opened Ledger
  import opened Interference
  import opened Watching
  import opened Store
  import opened Service
  import opened BscCursor
  import opened BscWatcher
  import opened Settling

  /** The contracts a tick asks for: those of the enabled assets. */
  predicate Watched(db: Db, contract: string) {
    exists a | a in db.assets :: WatchedAs(db, contract, a)
  }

  predicate WatchedAs(db: Db, contract: string, a: AssetId) {
    IsAsset(db, Bsc, contract, a) && db.assets[a].enabled
  }

  /** The chain's transfers to the receiving address. */
  ghost predicate OneLogPerTransfer(chain: set<Log>) {
    forall l, m | l in chain && m in chain && RefOf(l) == RefOf(m) :: l == m
  }

  /** The endpoint answers with the chain's logs of the range and of the contracts asked for, all of them and no
      others. */
  ghost predicate TrueAnswers(answers: (nat, nat) -> LogAnswer, chain: set<Log>, db: Db) {
    forall a: nat, b: nat, l | answers(a, b).Logs? ::
      l in answers(a, b).logs <==> l in chain && a <= l.block <= b && Watched(db, l.contract)
  }

  predicate Reached(scanned: seq<Chunk>, block: nat) {
    exists k | 0 <= k < |scanned| :: scanned[k].from <= block <= scanned[k].to
  }

  /** On a chain that has kept the payment's log in its block, the payment is missing from what a scan reads if and only
      if its block was scanned and its token is not asked for. */
  lemma MissingIffUnwatched(db: Db, chain: set<Log>, answers: (nat, nat) -> LogAnswer, scanned: seq<Chunk>, r: Ref,
                            l: Log)
    requires OneLogPerTransfer(chain) && TrueAnswers(answers, chain, db) && AnsweredBy(answers, scanned)
    requires Awaiting(db, Bsc, r) && l in chain && RefOf(l) == r && db.payments[r].block == Some(l.block)
    ensures MissingIn(db, scanned, r) <==> Reached(scanned, l.block) && !Watched(db, l.contract)
  {
    hide Watched;
    if MissingIn(db, scanned, r) {
      var k :| 0 <= k < |scanned| && Missing(db, scanned[k], r);
      NotInAnswer(db, chain, answers, scanned[k], l);
    }
    if Reached(scanned, l.block) && !Watched(db, l.contract) {
      var k :| 0 <= k < |scanned| && scanned[k].from <= l.block <= scanned[k].to;
      NotInAnswer(db, chain, answers, scanned[k], l);
      assert Missing(db, scanned[k], r);
    }
  }

  lemma NotInAnswer(db: Db, chain: set<Log>, answers: (nat, nat) -> LogAnswer, c: Chunk, l: Log)
    requires OneLogPerTransfer(chain) && TrueAnswers(answers, chain, db) && answers(c.from, c.to) == Logs(c.logs)
    requires l in chain && c.from <= l.block <= c.to
    ensures InAnswer(c.logs, RefOf(l)) <==> Watched(db, l.contract)
  {
    hide Watched;
    if InAnswer(c.logs, RefOf(l)) {
      var k :| 0 <= k < |c.logs| && RefOf(c.logs[k]) == RefOf(l);
      assert c.logs[k] in answers(c.from, c.to).logs;
    }
    if Watched(db, l.contract) {
      assert l in answers(c.from, c.to).logs;
    }
  }

  /** So a tick withdraws a payment whose log the chain still has only if it scanned its block while its asset was
      disabled; and then it does, unless the invoice was confirmed first. While every such asset is enabled, the tick
      withdraws none of them. */
  lemma WithdrawnIffDisabled(before: Db, after: Db, chain: set<Log>, answers: (nat, nat) -> LogAnswer,
                             scanned: seq<Chunk>, r: Ref, l: Log, a: AssetId)
    requires Withdraws(before, after, scanned) && AssetKeyUnique(before)
    requires OneLogPerTransfer(chain) && TrueAnswers(answers, chain, before) && AnsweredBy(answers, scanned)
    requires Awaiting(before, Bsc, r) && l in chain && RefOf(l) == r && before.payments[r].block == Some(l.block)
    requires IsAsset(before, Bsc, l.contract, a)
    ensures r in after.payments
    ensures !IsLive(after.payments[r]) ==> Reached(scanned, l.block) && !before.assets[a].enabled
    ensures Reached(scanned, l.block) && !before.assets[a].enabled ==>
              !IsLive(after.payments[r]) || PaysFor(after, after.payments[r], Confirmed, Confirmed)
  {
    hide MissingIn, Reached;
    MissingIffUnwatched(before, chain, answers, scanned, r, l);
    assert LiveAt(before, r);
    WatchedIffEnabled(before, l.contract, a);
  }

  lemma WatchedIffEnabled(db: Db, contract: string, a: AssetId)
    requires AssetKeyUnique(db) && IsAsset(db, Bsc, contract, a)
    ensures Watched(db, contract) <==> db.assets[a].enabled
  {
    if db.assets[a].enabled {
      assert WatchedAs(db, contract, a);
    }
  }

  // ------------------------------------------------------------------ it happens

  /** A payment for a token that was disabled after its invoice was issued, waiting for finality, the chain still having
      its log in block 5; another token is enabled. */
  function Example(r: Ref): Db {
    Db(2, map[0 := Asset(Bsc, "T", 10, 5, false), 1 := Asset(Bsc, "U", 10, 5, true)],
       map[0 := Invoice(None, 0, Bsc, 100, 100, 0, Detected, 0, 0, 9, true, 9, None)],
       map[r := Payment(r, 0, 100, Some(5), 1, Some(0), None)], map[], [])
  }

  /** One tick of it, nobody else acting: the answer, for the other token alone, is true and empty, and the payment is
      withdrawn. */
  method DisabledTokenIsWithdrawn()
    returns (before: Db, ghost after: Db, chain: set<Log>, answers: (nat, nat) -> LogAnswer, r: Ref)
    ensures LedgerOk(before) && AssetKeyUnique(before) && Awaiting(before, Bsc, r)
    ensures exists l :: l in chain && RefOf(l) == r && before.payments[r].block == Some(l.block)
    ensures OneLogPerTransfer(chain) && TrueAnswers(answers, chain, before)
    ensures r in after.payments && !IsLive(after.payments[r])
  {
    hide Withdraws, TickConfirms, Covers, Story, Walked, LedgerOk, Grows, Scanned, CursorSaved, Contiguous, Exact,
         OldestWaiting, ConfirmsExactly, AssetsSeeded, SettledOnly, TrueAnswers, AnsweredBy;
    r := Ref(Bsc, "a", 0);
    before, chain, answers := Example(r), {Log("a", 0, 5, "T", Some(100), false)}, (a: nat, b: nat) => Logs([]);
    ExampleIsSound(r, chain, answers);
    var store := new Store(0);
    store.Restore(before);
    var service := new Service(store, Config(10, true));
    var w := new Watcher(service, 2000, 64, 3, false);
    var env := (n: nat, k: nat, again: bool) => Interlude([], [], 0);
    var ok, scanned, line, mid, read, story, listed := w.Execute(Some(5), TagUnsupported, false, answers, env);
    after := store.View();
    ScannedGrows(before, mid, scanned);
    GrowsTransitive(before, mid, after);
    OneEmptyChunk(service.cfg, answers, read, scanned, line, env, story, before, mid, ok);
    EmptyConfirmsNothing(before, mid, after, read, scanned, line);
    MissesTheExample(before, after, scanned, r);
  }

  lemma ExampleIsSound(r: Ref, chain: set<Log>, answers: (nat, nat) -> LogAnswer)
    requires r == Ref(Bsc, "a", 0) && chain == {Log("a", 0, 5, "T", Some(100), false)}
    requires forall a: nat, b: nat :: answers(a, b) == Logs([])
    ensures LedgerOk(Example(r)) && AssetKeyUnique(Example(r)) && Awaiting(Example(r), Bsc, r)
    ensures !NoAssets(Example(r)) && Exact(answers) && OneLogPerTransfer(chain)
    ensures TrueAnswers(answers, chain, Example(r))
    ensures exists l :: l in chain && RefOf(l) == r && Example(r).payments[r].block == Some(l.block)
  {
    var db := Example(r);
    var l := Log("a", 0, 5, "T", Some(100), false);
    assert l in chain && RefOf(l) == r;
    assert db.assets[1].enabled;
    assert LedgerOk(db);
    forall a: AssetId ensures !WatchedAs(db, "T", a) {}
  }

  lemma OneEmptyChunk(cfg: Config, answers: (nat, nat) -> LogAnswer, read: seq<Chunk>, scanned: seq<Chunk>, line: nat,
                      env: (nat, nat, bool) -> Interlude, story: seq<Passage>, start: Db, end: Db, ok: bool)
    requires Walked(answers, read, scanned, 1, 5, 2000, ok) && AnsweredBy(answers, read)
    requires forall a: nat, b: nat :: answers(a, b) == Logs([])
    requires Story(cfg, read, |scanned|, line, env, story, start, end)
    ensures ok && read == scanned && |scanned| > 0
    ensures scanned[0] == Chunk(1, 5, []) && forall k | 0 <= k < |read| :: read[k].logs == []
  {
    hide Story;
    forall k | 0 <= k < |read| ensures read[k].logs == [] {
      assert answers(read[k].from, read[k].to) == Logs(read[k].logs);
    }
    FailsAtALog(cfg, read, |scanned|, line, env, story, start, end);
  }

  lemma FailsAtALog(cfg: Config, read: seq<Chunk>, done: nat, line: nat, env: (nat, nat, bool) -> Interlude,
                    story: seq<Passage>, start: Db, end: Db)
    requires Story(cfg, read, done, line, env, story, start, end)
    ensures done < |read| ==> read[done].logs != []
  {
    if done < |read| {
      StoryStep(cfg, read, done, line, env, story, start, end, done);
    }
  }

  lemma ScannedGrows(before: Db, after: Db, scanned: seq<Chunk>)
    requires Scanned(before, after, scanned)
    ensures Grows(before, after)
  {
  }

  lemma EmptyConfirmsNothing(before: Db, mid: Db, after: Db, read: seq<Chunk>, scanned: seq<Chunk>, line: nat)
    requires line <= 5 && |scanned| > 0 && scanned[0].from == 1 && scanned[0].to == 5
    requires forall k | 0 <= k < |read| :: read[k].logs == []
    requires Covers(mid, scanned, line) ==> TickConfirms(before, after, read, line)
    ensures forall i | IsConfirmed(after, i) && after.invoices[i].network == Bsc :: IsConfirmed(before, i)
  {
    assert Covers(mid, scanned, line);
  }

  lemma MissesTheExample(before: Db, after: Db, scanned: seq<Chunk>, r: Ref)
    requires r == Ref(Bsc, "a", 0) && before == Example(r) && LedgerOk(after) && Grows(before, after)
    requires |scanned| > 0 && scanned[0] == Chunk(1, 5, []) && Withdraws(before, after, scanned)
    requires forall i | IsConfirmed(after, i) && after.invoices[i].network == Bsc :: IsConfirmed(before, i)
    ensures r in after.payments && !IsLive(after.payments[r])
  {
    assert Missing(before, scanned[0], r);
    assert LiveAt(before, r);
  }
}
