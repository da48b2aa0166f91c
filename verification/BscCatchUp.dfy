/** Ticks of a running BSC watcher whose chain stands still, every request answered: a tick fails only at a log the
    matching service refuses, and as long as none is refused the cursor reaches the head, if it can be reached at all,
    within as many ticks as blocks are missing. */
module BscCatchUp {
  import opened Query
  import opened Tables
  import opened Matching
  import opened Ledger
  import opened Interference
  import opened Crediting
  import opened Watching
  import opened Store
  import opened BscCursor
  import opened BscWatcher
  import opened Settling
  import opened Clearing

  /** One tick's circumstances other than the head. */
  datatype Around = Around(
    finalized: FinalizedAnswer,
    answers: (nat, nat) -> LogAnswer,
    env: (nat, nat, bool) -> Interlude)

  // ------------------------------------------------------------------ why a tick fails

  /** A log that cannot be filed: its value does not decode or is not positive, or it is not on record and the open
      invoice found for it has a live payment already. */
  ghost predicate LogRefused(cfg: Config, at: Db, l: Log, line: nat, around: Interlude) {
    || l.value.None?
    || l.value.value <= 0
    || (var paused := RunOutside(cfg, at, Bsc, around.before);
        exists found | LookupsOk(paused, ObservedOf(l, line, 0), found) ::
          RefOf(l) !in paused.payments && TakenAlready(paused, found))
  }

  ghost predicate TakenAlready(db: Db, found: Lookups) {
    FoundOpen(db, found) && HasLive(db, found.invoice.value)
  }

  lemma LogFails(cfg: Config, db: Db, after: Db, l: Log, line: nat, around: Interlude)
    requires LedgerOk(db) && LogStep(cfg, db, after, l, line, around, false) && !l.removed
    ensures LogRefused(cfg, db, l, line, around)
  {
    hide LedgerOk, RunOutside, LookupsOk, AnsweredAs, TakenAlready;
    if l.value.Some? {
      var at: Time :|
        AppliedAs(cfg, db, after, ObservedOf(l, line, at), around.before, around.during, around.ev, false);
      var x := ObservedOf(l, line, at);
      var paused := RunOutside(cfg, db, Bsc, around.before);
      QuietOutside(cfg, db, Bsc, around.before);
      assert exists found | LookupsOk(paused, x, found) ::
               AnsweredAs(cfg, paused, after, x, found, around.during, around.ev, false);
      var found :| LookupsOk(paused, x, found)
                   && AnsweredAs(cfg, paused, after, x, found, around.during, around.ev, false);
      AnsweredFailsIff(cfg, paused, after, x, found, around.during, around.ev, false);
      SameLookups(paused, x, ObservedOf(l, line, 0), found);
      TakenMeans(paused, found);
    }
  }

  lemma SameLookups(db: Db, x: Observed, y: Observed, found: Lookups)
    requires LookupsOk(db, x, found) && x.ref == y.ref && x.contract == y.contract && x.value == y.value
    ensures LookupsOk(db, y, found)
  {
  }

  lemma TakenMeans(db: Db, found: Lookups)
    ensures FoundOpen(db, found) && HasLive(db, found.invoice.value) ==> TakenAlready(db, found)
  {
  }

  /** The log a scan failed at, where it failed in the logs of a chunk. */
  datatype Refusal = Refusal(at: Db, log: Log, line: nat, around: Interlude)

  lemma ScanFailsAtARefusal(cfg: Config, read: seq<Chunk>, done: nat, line: nat, env: (nat, nat, bool) -> Interlude,
                            story: seq<Passage>, start: Db, end: Db) returns (r: Refusal)
    requires Story(cfg, read, done, line, env, story, start, end) && LedgerOk(start) && |read| == done + 1
    requires forall k, j | 0 <= k < |read| && 0 <= j < |read[k].logs| :: !read[k].logs[j].removed
    ensures LogRefused(cfg, r.at, r.log, r.line, r.around) && r.log in read[done].logs && r.line == line
  {
    hide LedgerOk, LogStep, LogRefused, Withdraws, WaitersStand, Grows, Standing, AssetsSeeded;
    StoryWithdrawsUpTo(cfg, read, done, line, env, story, start, end, done);
    var p := story[done];
    StoryStep(cfg, read, done, line, env, story, start, end, done);
    var logs, k: nat := read[done].logs, |p.logs| - 2;
    LogsMove(cfg, logs, line, LogsPart(env, done), p.logs, false, k);
    assert LogStep(cfg, p.logs[k], p.logs[k + 1], logs[k], line, LogsPart(env, done)(k), false || k < |p.logs| - 2);
    LogFails(cfg, p.logs[k], p.logs[k + 1], logs[k], line, LogsPart(env, done)(k));
    r := Refusal(p.logs[k], logs[k], line, LogsPart(env, done)(k));
  }

  // ------------------------------------------------------------------ when none is refused

  function TransferOf(l: Log): Coming
    requires l.value.Some?
  {
    Coming(RefOf(l), l.contract, l.value.value)
  }

  ghost predicate LogsComing(logs: seq<Log>, chain: set<Coming>) {
    forall k | 0 <= k < |logs| :: !logs[k].removed && logs[k].value.Some? && TransferOf(logs[k]) in chain
  }

  /** The endpoint answers with these transfers only. */
  ghost predicate AnswersAmong(answers: (nat, nat) -> LogAnswer, chain: set<Coming>) {
    forall a: nat, b: nat :: answers(a, b).Logs? ==> LogsComing(answers(a, b).logs, chain)
  }

  ghost predicate QuietTick(env: (nat, nat, bool) -> Interlude, width: int) {
    forall n: nat, k: nat, again: bool ::
      QuietSeeds(env(n, k, again).before, width) && QuietSeeds(env(n, k, again).during, width)
  }

  lemma QuietParts(env: (nat, nat, bool) -> Interlude, width: int, n: nat)
    requires QuietTick(env, width)
    ensures QuietAround(LogsPart(env, n), width) && QuietAround(AgainPart(env, n), width)
  {
  }

  lemma LogKeepsClear(cfg: Config, db: Db, after: Db, l: Log, line: nat, around: Interlude, ok: bool,
                      chain: set<Coming>, width: int)
    requires Clear(Bsc, db, chain, width) && Apart(Bsc, chain, width)
    requires !l.removed && l.value.Some? && TransferOf(l) in chain
    requires QuietSeeds(around.before, width) && QuietSeeds(around.during, width)
    requires LogStep(cfg, db, after, l, line, around, ok)
    ensures ok && Clear(Bsc, after, chain, width)
  {
    hide Clear, Apart, AppliedAs, RunOutside, QuietSeeds, Grows;
    var at: Time :| AppliedAs(cfg, db, after, ObservedOf(l, line, at), around.before, around.during, around.ev, ok);
    ApplyKeepsClear(cfg, db, after, ObservedOf(l, line, at), around.before, around.during, around.ev, ok, chain, width);
  }

  lemma {:induction false} LogsKeepClear(cfg: Config, logs: seq<Log>, line: nat, env: nat -> Interlude, trail: seq<Db>,
                                         ok: bool, chain: set<Coming>, width: int, n: nat)
    requires LogTrail(cfg, logs, line, env, trail, ok) && n < |trail|
    requires Clear(Bsc, trail[0], chain, width) && Apart(Bsc, chain, width) && QuietAround(env, width)
    requires LogsComing(logs, chain)
    ensures Clear(Bsc, trail[n], chain, width)
    ensures n == |trail| - 1 ==> ok
    decreases n
  {
    hide LogStep, Clear, Apart, QuietSeeds;
    if n > 0 {
      LogsKeepClear(cfg, logs, line, env, trail, ok, chain, width, n - 1);
      assert LogStep(cfg, trail[n - 1], trail[n], logs[n - 1], line, env(n - 1), ok || n - 1 < |trail| - 2);
      LogKeepsClear(cfg, trail[n - 1], trail[n], logs[n - 1], line, env(n - 1), ok || n - 1 < |trail| - 2, chain,
                    width);
    }
  }

  lemma BackKeepsClear(cfg: Config, c: Chunk, again: nat -> Interlude, gone: seq<Ref>, back: seq<Db>,
                       chain: set<Coming>, width: int)
    requires RevokeTrail(cfg, c, again, gone, back) && QuietAround(again, width)
    requires Clear(Bsc, back[0], chain, width) && Apart(Bsc, chain, width)
    ensures Clear(Bsc, back[|gone|], chain, width)
  {
    hide RevokedAs, LedgerOk, Grows, Standing, AssetsSeeded, Apart, Clear;
    ClearIsOk(Bsc, back[0], chain, width);
    BackMoves(cfg, c, again, gone, back, |gone|);
    AroundKeepsSteps(back[0], back[|gone|], again, width);
    ClearStays(Bsc, back[0], back[|gone|], chain, width);
  }

  lemma PassageKeepsClear(cfg: Config, c: Chunk, line: nat, env: nat -> Interlude, again: nat -> Interlude, p: Passage,
                          ok: bool, chain: set<Coming>, width: int)
    requires Passed(cfg, c, line, env, again, p, ok) && QuietAround(env, width) && QuietAround(again, width)
    requires Clear(Bsc, p.begin, chain, width) && Apart(Bsc, chain, width) && LogsComing(c.logs, chain)
    ensures ok && Clear(Bsc, p.end, chain, width)
  {
    hide Clear, Apart, LogStep, RevokedAs, Missing, LogsComing, QuietAround;
    LogsKeepClear(cfg, c.logs, line, env, p.logs, ok, chain, width, |p.logs| - 1);
    BackKeepsClear(cfg, c, again, p.gone, p.back, chain, width);
  }

  lemma PassageKeepsEnabled(cfg: Config, c: Chunk, line: nat, env: nat -> Interlude, again: nat -> Interlude,
                            p: Passage, ok: bool, width: int, a: AssetId)
    requires Passed(cfg, c, line, env, again, p, ok) && QuietAround(env, width) && QuietAround(again, width)
    requires forall k | 0 <= k < |c.logs| :: !c.logs[k].removed
    requires LedgerOk(p.begin) && Enabled(Bsc, p.begin, a)
    ensures Enabled(Bsc, p.end, a)
  {
    hide LogStep, RevokedAs, Missing, QuietAround, Enabled, LedgerOk, Grows, Standing, AssetsSeeded;
    LogsMove(cfg, c.logs, line, env, p.logs, ok, |p.logs| - 1);
    AroundKeepsEnabled(p.begin, p.logs[|p.logs| - 1], env, width, a);
    if ok {
      BackMoves(cfg, c, again, p.gone, p.back, |p.gone|);
      AroundKeepsEnabled(p.back[0], p.end, again, width, a);
    }
  }

  /** A whole scan: nothing is refused, so it does not stop in the logs of a chunk. */
  lemma {:induction false} StoryKeepsClear(cfg: Config, read: seq<Chunk>, done: nat, line: nat,
                                           env: (nat, nat, bool) -> Interlude, story: seq<Passage>, start: Db, end: Db,
                                           chain: set<Coming>, width: int, n: nat)
    requires Story(cfg, read, done, line, env, story, start, end) && n <= |read|
    requires Clear(Bsc, start, chain, width) && Apart(Bsc, chain, width) && QuietTick(env, width)
    requires forall k | 0 <= k < |read| :: LogsComing(read[k].logs, chain)
    ensures Clear(Bsc, Before(story, start, n), chain, width) && n <= done
    decreases n
  {
    hide Clear, Apart, Passed, QuietTick, LogsComing, QuietAround, Story;
    if n > 0 {
      StoryKeepsClear(cfg, read, done, line, env, story, start, end, chain, width, n - 1);
      var k: nat := n - 1;
      StoryStep(cfg, read, done, line, env, story, start, end, k);
      var p := story[k];
      QuietParts(env, width, k);
      PassageKeepsClear(cfg, read[k], line, LogsPart(env, k), AgainPart(env, k), p, k < done, chain, width);
    }
  }

  // ------------------------------------------------------------------ what stays enabled

  lemma {:induction false} StoryKeepsEnabled(cfg: Config, read: seq<Chunk>, done: nat, line: nat,
                                             env: (nat, nat, bool) -> Interlude, story: seq<Passage>, start: Db,
                                             end: Db, width: int, a: AssetId, n: nat)
    requires Story(cfg, read, done, line, env, story, start, end) && n <= |read| && done <= |read| && LedgerOk(start)
    requires forall k, j | 0 <= k < |read| && 0 <= j < |read[k].logs| :: !read[k].logs[j].removed
    requires QuietTick(env, width) && Enabled(Bsc, start, a)
    ensures Enabled(Bsc, Before(story, start, n), a)
    decreases n
  {
    hide Passed, QuietTick, QuietAround, Enabled, LedgerOk, Grows, Withdraws, WaitersStand;
    if n > 0 {
      StoryKeepsEnabled(cfg, read, done, line, env, story, start, end, width, a, n - 1);
      StoryWithdrawsUpTo(cfg, read, done, line, env, story, start, end, n - 1);
      var k: nat := n - 1;
      StoryStep(cfg, read, done, line, env, story, start, end, k);
      var p := story[k];
      QuietParts(env, width, k);
      PassageKeepsEnabled(cfg, read[k], line, LogsPart(env, k), AgainPart(env, k), p, k < done, width, a);
    }
  }

  lemma AroundKeepsEnabled(db: Db, after: Db, env: nat -> Interlude, width: int, a: AssetId)
    requires QuietAround(env, width) && AssetsSeeded(db, after, env) && Grows(db, after) && Enabled(Bsc, db, a)
    ensures Enabled(Bsc, after, a)
  {
  }

  // ------------------------------------------------------------------ ticks

  /** Ticks of one process at one head, every request answered. A tick stops only at a log that is refused (`refusals`).
      If none is, the cursor ends where `TicksCursor` says, so with as many ticks as blocks were missing it has reached
      the head if and only if it was there already or a tick's chunks span the reorg window. And none is, if no transfer
      to come falls to an invoice another has paid, nor two of them to one. */
  method CatchUp(w: Watcher, head: Block, ticks: seq<Around>, ghost a: AssetId, ghost chain: set<Coming>,
                 ghost width: int) returns (ghost refusals: seq<Refusal>)
    requires w.Valid() && LedgerOk(w.store.View()) && w.rewound && head + w.span < UINT64
    requires Enabled(Bsc, w.store.View(), a)
    requires forall k | 0 <= k < |ticks| ::
               && Exact(ticks[k].answers) && AlwaysAnswers(ticks[k].answers) && QuietTick(ticks[k].env, width)
               && w.Line(head, ticks[k].finalized).Some?
    modifies w`rewound, w.store
    ensures LedgerOk(w.store.View())
    ensures forall r | r in refusals :: LogRefused(w.service.cfg, r.at, r.log, r.line, r.around)
    ensures Clear(Bsc, old(w.store.View()), chain, width) && Apart(Bsc, chain, width) &&
            (forall k | 0 <= k < |ticks| :: AnswersAmong(ticks[k].answers, chain)) ==>
              refusals == []
    ensures refusals == [] ==>
              LastBlock(w.store.cursors) == TicksCursor(LastBlock(old(w.store.cursors)), head, w.depth, w.span, |ticks|)
    ensures refusals == [] && LastBlock(old(w.store.cursors)) + |ticks| >= head ==>
              (LastBlock(w.store.cursors) >= head
               <==> LastBlock(old(w.store.cursors)) >= head || 10 * w.span >= Min(w.depth, head))
  {
    hide LedgerOk, Clear, Apart, AnswersAmong, QuietTick, TicksCursor, Enabled, AlwaysAnswers, LogRefused, Exact;
    refusals := [];
    ghost var cursor := LastBlock(w.store.cursors);
    ghost var clear := Clear(Bsc, w.store.View(), chain, width) && Apart(Bsc, chain, width)
                       && forall k | 0 <= k < |ticks| :: AnswersAmong(ticks[k].answers, chain);
    NoTicks(cursor, head, w.depth, w.span);
    var k := 0;
    while k < |ticks|
      invariant 0 <= k <= |ticks|
      invariant w.Valid() && LedgerOk(w.store.View()) && w.rewound && Enabled(Bsc, w.store.View(), a)
      invariant forall r | r in refusals :: LogRefused(w.service.cfg, r.at, r.log, r.line, r.around)
      invariant clear ==> refusals == [] && Clear(Bsc, w.store.View(), chain, width)
      invariant refusals == [] ==> LastBlock(w.store.cursors) == TicksCursor(cursor, head, w.depth, w.span, k)
    {
      ghost var refused := OneTick(w, head, ticks[k], a, chain, width);
      if refused.Some? {
        refusals := refusals + [refused.value];
      }
      OneMoreTick(cursor, head, w.depth, w.span, k);
      k := k + 1;
    }
    if refusals == [] {
      ReachedInTime(cursor, head, w.depth, w.span, |ticks|);
    }
  }

  /** One of these ticks. */
  method OneTick(w: Watcher, head: Block, t: Around, ghost a: AssetId, ghost chain: set<Coming>, ghost width: int)
    returns (ghost refused: Option<Refusal>)
    requires w.Valid() && LedgerOk(w.store.View()) && w.rewound && head + w.span < UINT64
    requires Enabled(Bsc, w.store.View(), a)
    requires Exact(t.answers) && AlwaysAnswers(t.answers) && QuietTick(t.env, width) && w.Line(head, t.finalized).Some?
    modifies w`rewound, w.store
    ensures LedgerOk(w.store.View()) && w.rewound && Enabled(Bsc, w.store.View(), a)
    ensures refused.Some? ==>
              var r := refused.value; LogRefused(w.service.cfg, r.at, r.log, r.line, r.around)
    ensures Clear(Bsc, old(w.store.View()), chain, width) && Apart(Bsc, chain, width) &&
            AnswersAmong(t.answers, chain) ==>
              refused.None? && Clear(Bsc, w.store.View(), chain, width)
    ensures refused.None? ==>
              LastBlock(w.store.cursors) == TickCursor(LastBlock(old(w.store.cursors)), head, w.depth, w.span)
  {
    hide LedgerOk, Grows, Scanned, CursorSaved, Contiguous, TickConfirms, Covers, ScanStart, TickCursor, OldestWaiting,
         ConfirmsExactly, Exact, AlwaysAnswers, Story, Walked, Withdraws, SettledOnly, AssetsSeeded, QuietTick,
         Clear, Apart, AnswersAmong, LogRefused, AnsweredBy, LogsComing, QuietAround, FinalityLine;
    ghost var before, cursors := w.store.View(), w.store.cursors;
    assert !NoAssets(before) by { EnabledIsWatched(before, a); }
    var ok, scanned, line, mid, read, story, listed := w.Execute(Some(head), t.finalized, false, t.answers, t.env);
    assert w.AtScan(true, true, false, cursors) == cursors;
    FailsInItsLogs(t.answers, read, scanned, ScanStart(LastBlock(cursors), head, w.depth), head, w.span, ok);
    ExactIsUnflagged(t.answers, read);
    StoryIsWhole(w.service.cfg, read, |scanned|, line, t.env, story, before, mid);
    StoryKeepsEnabled(w.service.cfg, read, |scanned|, line, t.env, story, before, mid, width, a, |read|);
    QuietParts(t.env, width, MAX_CHUNKS_PER_TICK);
    AroundKeepsEnabled(mid, w.store.View(), LogsPart(t.env, MAX_CHUNKS_PER_TICK), width, a);
    refused := None;
    if !ok {
      ghost var r := ScanFailsAtARefusal(w.service.cfg, read, |scanned|, line, t.env, story, before, mid);
      refused := Some(r);
    }
    if Clear(Bsc, before, chain, width) && Apart(Bsc, chain, width) && AnswersAmong(t.answers, chain) {
      ReadIsComing(t.answers, read, chain);
      StoryKeepsClear(w.service.cfg, read, |scanned|, line, t.env, story, before, mid, chain, width, |read|);
      SettlingKeepsClear(Bsc, mid, w.store.View(), Due(line), LogsPart(t.env, MAX_CHUNKS_PER_TICK), chain, width);
    }
  }

  lemma EnabledIsWatched(db: Db, a: AssetId)
    requires Enabled(Bsc, db, a)
    ensures !NoAssets(db)
  {
  }

  lemma StoryIsWhole(cfg: Config, read: seq<Chunk>, done: nat, line: nat, env: (nat, nat, bool) -> Interlude,
                     story: seq<Passage>, start: Db, end: Db)
    requires Story(cfg, read, done, line, env, story, start, end)
    ensures |story| == |read| && end == Before(story, start, |read|)
  {
  }

  lemma ReadIsComing(answers: (nat, nat) -> LogAnswer, read: seq<Chunk>, chain: set<Coming>)
    requires AnswersAmong(answers, chain) && AnsweredBy(answers, read)
    ensures forall k | 0 <= k < |read| :: LogsComing(read[k].logs, chain)
  {
    hide LogsComing;
    forall k | 0 <= k < |read| ensures LogsComing(read[k].logs, chain) {
      assert answers(read[k].from, read[k].to) == Logs(read[k].logs);
    }
  }

  lemma NoTicks(lastBlock: nat, head: nat, depth: nat, span: nat)
    requires span > 0
    ensures TicksCursor(lastBlock, head, depth, span, 0) == lastBlock
  {
  }

  lemma OneMoreTick(lastBlock: nat, head: nat, depth: nat, span: nat, ticks: nat)
    requires span > 0
    ensures TicksCursor(lastBlock, head, depth, span, ticks + 1) ==
              TickCursor(TicksCursor(lastBlock, head, depth, span, ticks), head, depth, span)
  {
  }

  /** As many ticks as blocks are missing decide it. */
  lemma ReachedInTime(lastBlock: nat, head: Block, depth: nat, span: nat, ticks: nat)
    requires span > 0 && head + span < UINT64
    ensures lastBlock + ticks >= head ==>
              (TicksCursor(lastBlock, head, depth, span, ticks) >= head
               <==> lastBlock >= head || 10 * span >= Min(depth, head))
  {
    hide TicksCursor;
    if lastBlock + ticks >= head {
      if lastBlock >= head || 10 * span >= Min(depth, head) {
        TicksBoundedByDistance(lastBlock, head, depth, span, ticks);
      } else {
        StuckBelowHead(lastBlock, head, depth, span, ticks);
      }
    }
  }

  /** How many ticks that takes is bounded by the distance to the head, when it can be reached at all. */
  lemma {:induction false} TicksBoundedByDistance(lastBlock: nat, head: Block, depth: nat, span: nat, ticks: nat)
    requires span > 0 && head + span < UINT64 && (lastBlock >= head || 10 * span >= Min(depth, head))
    requires lastBlock + ticks >= head
    ensures TicksCursor(lastBlock, head, depth, span, ticks) >= head
    decreases ticks
  {
    if ticks > 0 && lastBlock < head {
      OneMoreTickFirst(lastBlock, head, depth, span, ticks - 1);
      TickGains(lastBlock, head, depth, span);
      TicksBoundedByDistance(TickCursor(lastBlock, head, depth, span), head, depth, span, ticks - 1);
    } else {
      TicksStay(lastBlock, head, depth, span, ticks);
    }
  }

  /** A tick below the head moves the cursor by at least a block, where the chunks span the reorg window. */
  lemma TickGains(lastBlock: nat, head: Block, depth: nat, span: nat)
    requires span > 0 && head + span < UINT64 && lastBlock < head && 10 * span >= Min(depth, head)
    ensures lastBlock < TickCursor(lastBlock, head, depth, span) <= head
  {
    TickReach(lastBlock, head, depth, span);
    hide TickCursor;
  }

  lemma {:induction false} TicksStay(lastBlock: nat, head: Block, depth: nat, span: nat, ticks: nat)
    requires span > 0 && head + span < UINT64 && lastBlock >= head
    ensures TicksCursor(lastBlock, head, depth, span, ticks) >= head
  {
    if ticks > 0 {
      TicksStay(lastBlock, head, depth, span, ticks - 1);
      TickNeverFalls(TicksCursor(lastBlock, head, depth, span, ticks - 1), head, depth, span);
      hide TickCursor;
    }
  }

  lemma TickNeverFalls(lastBlock: nat, head: nat, depth: nat, span: nat)
    requires span > 0
    ensures TickCursor(lastBlock, head, depth, span) >= lastBlock
  {
  }
}
