/** When a BSC watcher gets past a chunk, and how one without a reorg window can be held up there for good: see Stalling
    and Applying. */
module BscStall {
  import opened Domain
  import opened Query
  import opened Tables
  import opened Matching
  import opened Ledger
  import opened Interference
  import opened Crediting
  import opened Watching
  import opened Store
  import opened Service
  import opened BscCursor
  import opened BscWatcher
  import opened BscCatchUp
  import opened Settling
  import opened Stalling
  import opened Applying
  import opened Windows

  /** None of these transfers is the waiting invoice's own or was withdrawn. */
  ghost predicate AllUnrelated(s: Waiter, db: Db, refs: set<Ref>) {
    forall r | r in refs :: Unrelated(s, Bsc, db, r)
  }

  /** All there is to keep while `blocker` is not on record. */
  ghost predicate HeldUp(s: Waiter, db: Db, refs: set<Ref>, blocker: Log) {
    && Waits(s, Bsc, db) && AllUnrelated(s, db, refs)
    && blocker.value.Some? && Blocked(s, Bsc, db, ObservedOf(blocker, 0, 0))
  }

  /** What the endpoint may answer: logs of these transfers only, none flagged as removed, the blocker as it is. */
  ghost predicate LogsAmong(logs: seq<Log>, refs: set<Ref>, blocker: Log) {
    forall k | 0 <= k < |logs| ::
      RefOf(logs[k]) in refs && !logs[k].removed && (RefOf(logs[k]) == RefOf(blocker) ==> logs[k] == blocker)
  }

  lemma StepHoldsUp(cfg: Config, s: Waiter, db: Db, after: Db, l: Log, line: nat, around: Interlude, ok: bool,
                    refs: set<Ref>, blocker: Log)
    requires HeldUp(s, db, refs, blocker) && RefOf(l) in refs && !l.removed
    requires LogStep(cfg, db, after, l, line, around, ok)
    requires OnGridScript(s, around.before) && OnGridScript(s, around.during)
    requires RefOf(l) == RefOf(blocker) ==> l == blocker
    ensures HeldUp(s, after, refs, blocker)
    ensures l == blocker ==> !ok
  {
    hide AppliedAs, Waits, Grows, RunOutside, Undisturbed;
    assert Unrelated(s, Bsc, db, RefOf(l));
    if l.value.None? {
      OutsideKeepsWaiting(cfg, s, Bsc, db, around.before);
      RecordedBefore(s, db);
    } else {
      var at: Time :| AppliedAs(cfg, db, after, ObservedOf(l, line, at), around.before, around.during, around.ev, ok);
      var x := ObservedOf(l, line, at);
      ApplyKeepsWaiting(cfg, s, Bsc, db, after, x, around.before, around.during, around.ev, ok);
      if l == blocker {
        assert Blocked(s, Bsc, db, x);
      }
    }
    forall r | r in refs ensures Unrelated(s, Bsc, after, r) {
      assert Unrelated(s, Bsc, db, r);
    }
    StillBlocked(s, Bsc, db, after, ObservedOf(blocker, 0, 0));
  }

  lemma RecordedBefore(s: Waiter, db: Db)
    requires Waits(s, Bsc, db)
    ensures s.paidBy in db.payments
  {
  }

  /** Every chunk that holds the blocker fails, and leaves things as they were. */
  lemma {:induction false} TrailHoldsUp(cfg: Config, s: Waiter, logs: seq<Log>, line: nat, env: nat -> Interlude,
                                        trail: seq<Db>, ok: bool, refs: set<Ref>, blocker: Log, n: nat)
    requires LogTrail(cfg, logs, line, env, trail, ok) && QuietGrid(s, env) && LogsAmong(logs, refs, blocker)
    requires HeldUp(s, trail[0], refs, blocker) && n < |trail|
    ensures HeldUp(s, trail[n], refs, blocker)
    ensures forall k | 0 <= k < n && logs[k] == blocker :: !ok && k == |trail| - 2
    decreases n
  {
    hide HeldUp, LogStep;
    if n > 0 {
      TrailHoldsUp(cfg, s, logs, line, env, trail, ok, refs, blocker, n - 1);
      var k := n - 1;
      assert LogStep(cfg, trail[k], trail[k + 1], logs[k], line, env(k), ok || k < |trail| - 2);
      assert OnGridScript(s, env(k).before) && OnGridScript(s, env(k).during);
      StepHoldsUp(cfg, s, trail[k], trail[k + 1], logs[k], line, env(k), ok || k < |trail| - 2, refs, blocker);
    }
  }

  lemma ChunkHoldsUp(cfg: Config, s: Waiter, logs: seq<Log>, line: nat, env: nat -> Interlude, trail: seq<Db>, ok: bool,
                     refs: set<Ref>, blocker: Log)
    requires LogTrail(cfg, logs, line, env, trail, ok) && QuietGrid(s, env) && LogsAmong(logs, refs, blocker)
    requires HeldUp(s, trail[0], refs, blocker) && blocker in logs
    ensures !ok && HeldUp(s, trail[|trail| - 1], refs, blocker)
  {
    hide HeldUp, LogStep;
    TrailHoldsUp(cfg, s, logs, line, env, trail, ok, refs, blocker, |trail| - 1);
    var b :| 0 <= b < |logs| && logs[b] == blocker;
  }

  /** The head has reached the blocker; the request for the next chunk fails or is answered with the blocker among the
      logs. */
  ghost predicate Meets(t: Around, head: Option<Block>, from: nat, span: nat, refs: set<Ref>, blocker: Log)
    requires span > 0
  {
    head.Some? ==>
      && head.value + span < UINT64 && head.value >= blocker.block
      && match t.answers(from, ChunkEnd(from, span, head.value))
         case Logs(logs) => LogsAmong(logs, refs, blocker) && blocker in logs
         case RangeTooDeep => false
         case CallFailed => true
  }

  /** One tick, from the contract of `Execute`. */
  lemma TickHoldsUp(w: Watcher, s: Waiter, head: Block, line: nat, t: Around, before: Db, mid: Db, scanned: seq<Chunk>,
                    read: seq<Chunk>, story: seq<Passage>, ok: bool, from: nat, refs: set<Ref>, blocker: Log)
    requires w.Valid() && from <= blocker.block && Meets(t, Some(head), from, w.span, refs, blocker)
    requires HeldUp(s, before, refs, blocker) && Walked(t.answers, read, scanned, from, head, w.span, ok)
    requires forall k: nat :: OnGridScript(s, t.env(0, k, false).before) && OnGridScript(s, t.env(0, k, false).during)
    requires Story(w.service.cfg, read, |scanned|, line, t.env, story, before, mid) && AnsweredBy(t.answers, read)
    ensures !ok && scanned == [] && HeldUp(s, mid, refs, blocker)
  {
    hide HeldUp, LogTrail, LogsAmong, ChunkEnd, RevokeTrail;
    if read != [] {
      StoryStep(w.service.cfg, read, |scanned|, line, t.env, story, before, mid, 0);
      ghost var env := LogsPart(t.env, 0);
      assert QuietGrid(s, env);
      ChunkHoldsUp(w.service.cfg, s, read[0].logs, line, env, story[0].logs, 0 < |scanned|, refs, blocker);
    }
  }

  /** Without a reorg window, a log within the next chunk that falls into the window of a detected invoice whose own log
      lies below the cursor: every tick fails at it (or finds nothing to watch for), requests failing or not and
      whatever others do on the grid; the cursor stays, and the invoice stays detected, final or not. */
  method Stuck(w: Watcher, heads: seq<Option<Block>>, ticks: seq<Around>, ghost s: Waiter, ghost refs: set<Ref>,
               ghost blocker: Log)
    returns (ghost failed: seq<bool>)
    requires w.Valid() && LedgerOk(w.store.View()) && w.depth == 0 && |heads| == |ticks|
    requires 0 < LastBlock(w.store.cursors) < blocker.block
    requires HeldUp(s, w.store.View(), refs, blocker)
    requires forall k | 0 <= k < |ticks| ::
               Exact(ticks[k].answers)
               && Meets(ticks[k], heads[k], LastBlock(w.store.cursors) + 1, w.span, refs, blocker)
    requires forall t, n: nat, k: nat, again: bool | 0 <= t < |ticks| ::
               OnGridScript(s, ticks[t].env(n, k, again).before) && OnGridScript(s, ticks[t].env(n, k, again).during)
    modifies w`rewound, w.store
    ensures |failed| == |ticks| && forall k | 0 <= k < |ticks| :: failed[k]
    ensures w.store.cursors == old(w.store.cursors)
    ensures HeldUp(s, w.store.View(), refs, blocker) && Waits(s, Bsc, w.store.View())
  {
    hide HeldUp, LedgerOk, Grows, Scanned, CursorSaved, Contiguous, TickConfirms, Covers, OldestWaiting,
         ConfirmsExactly, Exact, Meets, ChunkEnd, Story, Walked, Withdraws, AssetsSeeded, SettledOnly, AnsweredBy;
    failed := [];
    ghost var from := LastBlock(w.store.cursors) + 1;
    var t := 0;
    while t < |ticks|
      invariant 0 <= t <= |ticks| && |failed| == t && forall k | 0 <= k < t :: failed[k]
      invariant w.Valid() && LedgerOk(w.store.View())
      invariant w.store.cursors == old(w.store.cursors)
      invariant HeldUp(s, w.store.View(), refs, blocker)
    {
      ghost var before, cursors, was := w.store.View(), w.store.cursors, w.rewound;
      MeetsBounded(ticks[t], heads[t], from, w.span, refs, blocker);
      var idle := NoAssets(w.store.View());
      var ok, scanned, line, mid, read, story, listed :=
        w.Execute(heads[t], ticks[t].finalized, false, ticks[t].answers, ticks[t].env);
      assert w.AtScan(was, w.rewound, false, cursors) == cursors;
      if !idle && w.Ready(was, heads[t], ticks[t].finalized, false) {
        assert ScanStart(LastBlock(cursors), heads[t].value, w.depth) == from;
        TickHoldsUp(w, s, heads[t].value, line, ticks[t], before, mid, scanned, read, story, ok, from, refs, blocker);
      } else {
        NothingTold(w.service.cfg, read, |scanned|, line, ticks[t].env, story, before, mid);
      }
      NothingSaved(cursors, w.store.cursors, scanned, read, ok);
      failed := failed + [!ok || idle];
      t := t + 1;
    }
    HeldUpWaits(s, w.store.View(), refs, blocker);
  }

  lemma NothingTold(cfg: Config, read: seq<Chunk>, done: nat, line: nat, env: (nat, nat, bool) -> Interlude,
                    story: seq<Passage>, start: Db, end: Db)
    requires Story(cfg, read, done, line, env, story, start, end)
    ensures read == [] ==> end == start
  {
  }

  lemma MeetsBounded(t: Around, head: Option<Block>, from: nat, span: nat, refs: set<Ref>, blocker: Log)
    requires span > 0 && Meets(t, head, from, span, refs, blocker)
    ensures head.Some? ==> head.value + span < UINT64
  {
  }

  lemma NothingSaved(cursors: map<Network, Cursor>, after: map<Network, Cursor>, scanned: seq<Chunk>, read: seq<Chunk>,
                     ok: bool)
    requires CursorSaved(cursors, after, scanned) && ReadOn(scanned, read, ok)
    ensures scanned == [] || (read == [] && !ok) ==> after == cursors
  {
  }

  lemma HeldUpWaits(s: Waiter, db: Db, refs: set<Ref>, blocker: Log)
    requires HeldUp(s, db, refs, blocker)
    ensures Waits(s, Bsc, db)
  {
  }

  /** The situation exists: an invoice of 100 detected and paid in block 5, the cursor at block 7, and a transfer of 105
      in block 8, with windows ten wide. */
  lemma HeldUpHappens() returns (s: Waiter, db: Db, refs: set<Ref>, blocker: Log)
    ensures HeldUp(s, db, refs, blocker) && RefOf(blocker) in refs && LogsAmong([blocker], refs, blocker)
    ensures db.payments[s.paidBy].block == Some(5) && 7 < blocker.block && !NoAssets(db)
    ensures Unambiguous(db) && Stops(db, SeenLogs([blocker], blocker.block), 0)
  {
    var r := Ref(Bsc, "a", 0);
    var inv := Invoice(None, 0, Bsc, 100, 100, 0, Detected, 0, 0, 9, true, 9, None);
    db := Db(2, map[0 := Asset(Bsc, "T", 10, 5, true)], map[0 := inv],
             map[r := Payment(r, 0, 100, Some(5), 1, Some(0), None)], map[], []);
    s := Waiter(map[0 := 0], map[0 := 10], 0, r);
    blocker := Log("b", 0, 8, "T", Some(105), false);
    refs := {RefOf(blocker)};
    assert LiveOn(db, r, 0);
    assert RowOnGrid(s.grid, db, 0);
    assert LedgerOk(db) && AssetKeyUnique(db);
    GridIsUnambiguous(s.grid, db);
    assert Blocked(s, Bsc, db, ObservedOf(blocker, 0, 0));
    assert StopsAt(db, SeenLogs([blocker], blocker.block), 0, 0);
  }

  // ------------------------------------------------------------------ kept out of the settle pass

  function Crowd(n: nat): Db {
    Db(n, map[0 := Asset(Bsc, "T", 10, 5, true)],
       map i: nat | i <= n :: Invoice(None, 0, Bsc, 10 * i + 10, 10 * i + 10, 0, Detected, 0, 0, 9, true, 9, None),
       map i: nat | i <= n ::
         Ref(Bsc, "", i) := Payment(Ref(Bsc, "", i), 0, 10 * i + 10, Some(if i < n then 100 else 1), i, Some(i), None),
       map[], [])
  }

  /** For any batch there is a due payment the settle pass does not reach: as many others, observed before it, wait that
      are not due. */
  lemma ADuePaymentIsKeptOut(batch: nat, listed: seq<Payment>)
    requires OldestWaiting(Crowd(batch), Bsc, batch, listed)
    ensures var db, r := Crowd(batch), Ref(Bsc, "", batch);
            LedgerOk(db) && r in Waiting(db, Bsc) && Due(10)(db.payments[r]) && db.payments[r] !in listed
  {
    var db, r := Crowd(batch), Ref(Bsc, "", batch);
    CrowdIsSound(batch);
    assert Awaiting(db, Bsc, r);
    OlderInTheCrowd(batch);
    assert Due(10)(db.payments[r]);
    hide OldestWaiting, Crowd, OlderThan, LedgerOk, Awaiting;
    LedgerIsLinked(db);
    ReachedByAge(db, Bsc, batch, listed, r);
  }

  lemma OlderInTheCrowd(n: nat)
    ensures Ref(Bsc, "", n) in Crowd(n).payments && |OlderThan(Crowd(n), Bsc, Ref(Bsc, "", n))| >= n
  {
    var db, r := Crowd(n), Ref(Bsc, "", n);
    var older := set i: nat | i < n :: Ref(Bsc, "", i);
    ManyRefs(n);
    forall q | q in older ensures q in OlderThan(db, Bsc, r) {
      assert Awaiting(db, Bsc, q);
    }
    SubsetIsNoLarger(older, OlderThan(db, Bsc, r));
  }

  lemma CrowdIsSound(n: nat)
    ensures LedgerOk(Crowd(n))
  {
    var db := Crowd(n);
    forall r, q, i | LiveOn(db, r, i) && LiveOn(db, q, i) ensures r == q {}
  }

  lemma {:induction false} ManyRefs(n: nat)
    ensures |set i: nat | i < n :: Ref(Bsc, "", i)| == n
  {
    if n > 0 {
      ManyRefs(n - 1);
      assert (set i: nat | i < n :: Ref(Bsc, "", i)) ==
             (set i: nat | i < n - 1 :: Ref(Bsc, "", i)) + {Ref(Bsc, "", n - 1)};
    }
  }

  // ------------------------------------------------------------------ left alone: when a chunk is applied

  /** What the watcher hands over of a chunk; a value that does not decode counts as none. */
  function SeenLogs(logs: seq<Log>, line: nat): (xs: seq<Observed>)
    ensures |xs| == |logs|
    ensures forall k | 0 <= k < |logs| ::
              xs[k] == Observed(RefOf(logs[k]), logs[k].contract,
                                if logs[k].value.Some? then logs[k].value.value else 0, logs[k].block, 0,
                                logs[k].block <= line)
  {
    seq(|logs|, k requires 0 <= k < |logs| =>
      Observed(RefOf(logs[k]), logs[k].contract, if logs[k].value.Some? then logs[k].value.value else 0,
               logs[k].block, 0, logs[k].block <= line))
  }

  /** None flagged as removed, and a log that comes twice is the same transfer. */
  predicate PlainLogs(logs: seq<Log>) {
    && (forall k | 0 <= k < |logs| :: !logs[k].removed)
    && (forall j, k | 0 <= j < |logs| && 0 <= k < |logs| && RefOf(logs[j]) == RefOf(logs[k]) ::
          logs[j].contract == logs[k].contract && logs[j].value == logs[k].value)
  }

  lemma LogIsHanded(cfg: Config, db: Db, after: Db, l: Log, line: nat, around: Interlude, ok: bool, x: Observed)
    requires LogStep(cfg, db, after, l, line, around, ok) && !l.removed && around.before == [] && around.during == []
    requires x == SeenLogs([l], line)[0]
    ensures HandedOne(cfg, db, after, x, ok)
  {
    hide AppliedAs, LookupsOk;
    if l.value.Some? {
      var at: Time :| AppliedAs(cfg, db, after, ObservedOf(l, line, at), around.before, around.during, around.ev, ok);
      assert Alike(x, ObservedOf(l, line, at));
    } else {
      NotPositiveFails(cfg, db, x, around.ev);
      assert Alike(x, x);
    }
  }

  lemma NotPositiveFails(cfg: Config, db: Db, x: Observed, ev: EventId)
    requires x.value <= 0
    ensures AppliedAs(cfg, db, db, x, [], [], ev, false)
  {
    var l := LookupsExist(db, x);
    assert AnsweredAs(cfg, db, db, x, l, [], ev, false);
  }

  lemma LogsAreHanded(cfg: Config, logs: seq<Log>, line: nat, env: nat -> Interlude, trail: seq<Db>, ok: bool)
    requires LogTrail(cfg, logs, line, env, trail, ok) && LeftAlone(env) && PlainLogs(logs)
    ensures Handed(cfg, SeenLogs(logs, line), trail, ok)
  {
    hide LogStep, HandedOne;
    forall k: nat | k < |trail| - 1
      ensures HandedOne(cfg, trail[k], trail[k + 1], SeenLogs(logs, line)[k], ok || k < |trail| - 2)
    {
      assert LogStep(cfg, trail[k], trail[k + 1], logs[k], line, env(k), ok || k < |trail| - 2);
      assert env(k).before == [] && env(k).during == [];
      LogIsHanded(cfg, trail[k], trail[k + 1], logs[k], line, env(k), ok || k < |trail| - 2, SeenLogs(logs, line)[k]);
    }
  }

  /** The logs of a chunk left alone are applied if and only if none is refused in its turn, by the tables before the
      chunk and the logs before it. */
  lemma ChunkAppliedIff(cfg: Config, logs: seq<Log>, line: nat, env: nat -> Interlude, trail: seq<Db>, ok: bool)
    requires LogTrail(cfg, logs, line, env, trail, ok) && LeftAlone(env) && PlainLogs(logs)
    requires LedgerOk(trail[0]) && Unambiguous(trail[0])
    ensures ok <==> forall k: nat | k < |logs| :: !TurnedDown(trail[0], SeenLogs(logs, line), k)
  {
    hide LogTrail, LedgerOk, Unambiguous, TurnedDown, Handed, Midway;
    LogsAreHanded(cfg, logs, line, env, trail, ok);
    assert OneNetwork(Bsc, SeenLogs(logs, line));
    AppliedIff(cfg, Bsc, SeenLogs(logs, line), trail, ok);
  }
}
