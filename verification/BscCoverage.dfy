/** No block is skipped: any sequence of full, failed or partial ticks of the BSC watcher, across restarts, on a chain
    that only grows. */
module BscCoverage {
  import opened Query
  import opened Tables
  import opened Matching
  import opened Ledger
  import opened Crediting
  import opened Watching
  import opened Store
  import opened BscCursor
  import opened BscWatcher
  import opened Settling

  /** Every transfer of the chain in these blocks is on record. */
  ghost predicate Covered(db: Db, chain: set<Log>, first: nat, last: int) {
    forall l | l in chain && first <= l.block <= last :: Filed(db, RefOf(l))
  }

  /** An answer misses no transfer of its range. */
  ghost predicate Complete(answers: (nat, nat) -> LogAnswer, chain: set<Log>) {
    forall l, a: nat, b: nat | l in chain && answers(a, b).Logs? && a <= l.block <= b ::
      l in answers(a, b).logs && !l.removed
  }

  lemma CoveredStays(db: Db, after: Db, chain: set<Log>, first: nat, last: int)
    requires Covered(db, chain, first, last) && Grows(db, after)
    ensures Covered(after, chain, first, last)
  {
  }

  /** The chunks of one scan hold every transfer between their first and last block. */
  lemma {:induction false} ScanCovers(db: Db, chain: set<Log>, answers: (nat, nat) -> LogAnswer, scanned: seq<Chunk>,
                                      start: nat, head: nat, span: nat)
    requires Complete(answers, chain) && AllFiled(db, scanned) && Contiguous(scanned, start, head, span)
    requires AnsweredBy(answers, scanned)
    ensures Covered(db, chain, start, EndOf(scanned, start))
    decreases |scanned|
  {
    if scanned != [] {
      var n := |scanned| - 1;
      var front := scanned[..n];
      assert forall k | 0 <= k < n :: front[k] == scanned[k];
      ScanCovers(db, chain, answers, front, start, head, span);
      var c := scanned[n];
      assert c.from == EndOf(front, start) + 1;
      forall l | l in chain && c.from <= l.block <= c.to ensures Filed(db, RefOf(l)) {
        assert answers(c.from, c.to).Logs?;
        var j :| 0 <= j < |c.logs| && c.logs[j] == l;
        assert !scanned[n].logs[j].removed;
      }
    }
  }

  // ------------------------------------------------------------------ the covered stretch

  /** The blocks whose transfers are known to be on record: none yet, or `first` to `last`. */
  datatype Stretch = Nothing | Stretch(first: nat, last: nat)

  ghost predicate Holds(db: Db, chain: set<Log>, st: Stretch) {
    st.Stretch? ==> Covered(db, chain, st.first, st.last)
  }

  /** A scan of the blocks `from` to `to` goes on with the stretch, unless it leaves a gap: then a new one begins. */
  function Extended(st: Stretch, from: nat, to: nat): Stretch {
    if st.Nothing? || from > st.last + 1 then Stretch(from, to) else Stretch(st.first, Max(st.last, to))
  }

  datatype TickInput = TickInput(
    restart: bool,
    head: Option<Block>,
    finalized: FinalizedAnswer,
    rewindFails: bool,
    answers: (nat, nat) -> LogAnswer,
    env: (nat, nat, bool) -> Interlude)

  ghost predicate Sound(t: TickInput, chain: set<Log>, span: nat) {
    Exact(t.answers) && Complete(t.answers, chain) && (t.head.Some? ==> t.head.value + span < UINT64)
  }

  /** What one tick did to the cursor: where it stood (`saved`), where the scan found it (`found`; lower only by the
      restart's rewind), and the last block of the last chunk completed. */
  datatype Report = Report(saved: nat, found: nat, to: Option<nat>)

  function StretchAfter(st: Stretch, t: TickInput, r: Report, depth: nat): Stretch {
    if t.head.Some? && r.to.Some? then Extended(st, ScanStart(r.found, t.head.value, depth), r.to.value) else st
  }

  /** One tick extends the covered stretch by what it scanned, whatever became of the tick and wherever it found the
      cursor. */
  lemma OneTick(t: TickInput, chain: set<Log>, before: Db, mid: Db, after: Db, scanned: seq<Chunk>, st: Stretch,
                r: Report, depth: nat, span: nat)
    requires Sound(t, chain, span) && Scanned(before, mid, scanned) && Grows(mid, after) && Holds(before, chain, st)
    requires scanned != [] ==> t.head.Some?
    requires t.head.Some? ==> Contiguous(scanned, ScanStart(r.found, t.head.value, depth), t.head.value, span)
    requires AnsweredBy(t.answers, scanned)
    requires r.to == if scanned == [] then None else Some(scanned[|scanned| - 1].to)
    ensures Holds(after, chain, StretchAfter(st, t, r, depth))
  {
    hide ScanStart, LedgerOk, Vouched;
    GrowsTransitive(before, mid, after);
    if st.Stretch? {
      CoveredStays(before, after, chain, st.first, st.last);
    }
    if scanned != [] {
      var start := ScanStart(r.found, t.head.value, depth);
      ScanCovers(mid, chain, t.answers, scanned, start, t.head.value, span);
      CoveredStays(mid, after, chain, start, EndOf(scanned, start));
    }
  }

  /** The cursor never points past the stretch. */
  predicate KeepsUp(st: Stretch, cursor: nat) {
    cursor > 0 ==> st.Stretch? && cursor <= st.last
  }

  lemma TickKeepsUp(st: Stretch, t: TickInput, r: Report, depth: nat, cursor: nat)
    requires KeepsUp(st, r.saved) && r.found <= r.saved && cursor == Max(r.found, if r.to.Some? then r.to.value else 0)
    requires r.to.Some? ==> t.head.Some?
    ensures KeepsUp(StretchAfter(st, t, r, depth), cursor)
  {
    if r.to.Some? && r.found > 0 {
      assert ScanStart(r.found, t.head.value, depth) <= r.found + 1;
    }
  }

  /** A new process: only the in-memory flag is lost. */
  method Restart(w: Watcher)
    modifies w`rewound
    ensures !w.rewound
  {
    w.rewound := false;
  }

  /** One tick, after a restart or not. */
  method Tick(w: Watcher, t: TickInput, ghost chain: set<Log>, ghost st: Stretch) returns (ghost r: Report)
    requires w.Valid() && LedgerOk(w.store.View()) && Sound(t, chain, w.span)
    requires Holds(w.store.View(), chain, st) && KeepsUp(st, LastBlock(w.store.cursors))
    modifies w`rewound, w.store
    ensures LedgerOk(w.store.View())
    ensures Tells(r, t, w.depth) && r.saved == LastBlock(old(w.store.cursors))
    ensures LastBlock(w.store.cursors) == CursorAfter(r.saved, [r])
    ensures Holds(w.store.View(), chain, StretchAfter(st, t, r, w.depth))
    ensures KeepsUp(StretchAfter(st, t, r, w.depth), LastBlock(w.store.cursors))
  {
    hide LedgerOk, Holds, Scanned, Grows, CursorSaved, Contiguous, TickConfirms, Covers, ScanStart, OldestWaiting,
         ConfirmsExactly, StretchAfter, Exact, Complete, Story, Walked, Withdraws, AssetsSeeded, SettledOnly;
    if t.restart {
      Restart(w);
    }
    ghost var before, cursors, was := w.store.View(), w.store.cursors, w.rewound;
    var ok, scanned, line, mid, read, story, listed :=
      w.Execute(t.head, t.finalized, t.rewindFails, t.answers, t.env);
    ghost var at := w.AtScan(was, w.rewound, t.rewindFails, cursors);
    r := Report(LastBlock(cursors), LastBlock(at), if scanned == [] then None else Some(scanned[|scanned| - 1].to));
    OneTick(t, chain, before, mid, w.store.View(), scanned, st, r, w.depth, w.span);
    SavedIsMax(at, w.store.cursors, scanned);
    TickKeepsUp(st, t, r, w.depth, LastBlock(w.store.cursors));
  }

  /** The scan found the cursor where it stood, or rewound by the reorg depth. */
  predicate Tells(r: Report, t: TickInput, depth: nat) {
    (r.found == r.saved || r.found == Rewound(r.saved, depth)) && (r.to.Some? ==> t.head.Some?)
  }

  /** Runs the ticks one after another, errors and restarts included, from any cursor, a fresh database's among them.
      `stretches[k]` is what was covered before tick `k`; every transfer from the first block of the current stretch up
      to the saved cursor, at least, is on record at the end. The lemmas below say when a stretch begins anew. */
  method Watch(w: Watcher, ticks: seq<TickInput>, ghost chain: set<Log>, ghost known: Stretch)
    returns (ghost stretches: seq<Stretch>, ghost reports: seq<Report>)
    requires w.Valid() && LedgerOk(w.store.View())
    requires forall k | 0 <= k < |ticks| :: Sound(ticks[k], chain, w.span)
    requires Holds(w.store.View(), chain, known) && KeepsUp(known, LastBlock(w.store.cursors))
    modifies w`rewound, w.store
    ensures LedgerOk(w.store.View())
    ensures Chronicle(ticks, w.depth, LastBlock(old(w.store.cursors)), known, stretches, reports)
    ensures CursorAfter(LastBlock(old(w.store.cursors)), reports) == LastBlock(w.store.cursors)
    ensures Holds(w.store.View(), chain, stretches[|ticks|])
    ensures KeepsUp(stretches[|ticks|], LastBlock(w.store.cursors))
    ensures LastBlock(w.store.cursors) > 0 ==>
              Covered(w.store.View(), chain, stretches[|ticks|].first, LastBlock(w.store.cursors))
  {
    hide LedgerOk, Holds, Chronicle, StretchAfter, Sound, Tells;
    stretches, reports := [known], [];
    var k := 0;
    NothingToTell(ticks, w.depth, LastBlock(w.store.cursors), known);
    while k < |ticks|
      invariant 0 <= k <= |ticks| && |stretches| == k + 1 && |reports| == k
      invariant w.Valid() && LedgerOk(w.store.View())
      invariant Holds(w.store.View(), chain, stretches[k])
      invariant KeepsUp(stretches[k], LastBlock(w.store.cursors))
      invariant Chronicle(ticks[..k], w.depth, LastBlock(old(w.store.cursors)), known, stretches, reports)
      invariant CursorAfter(LastBlock(old(w.store.cursors)), reports) == LastBlock(w.store.cursors)
    {
      ghost var r := Tick(w, ticks[k], chain, stretches[k]);
      TellOn(ticks[..k], ticks[k], w.depth, LastBlock(old(w.store.cursors)), known, stretches, reports, r);
      assert ticks[..k + 1] == ticks[..k] + [ticks[k]];
      stretches := stretches + [StretchAfter(stretches[k], ticks[k], r, w.depth)];
      reports := reports + [r];
      k := k + 1;
    }
    assert ticks[..k] == ticks;
    HoldsToTheCursor(w.store.View(), chain, stretches[k], LastBlock(w.store.cursors));
  }

  lemma SavedIsMax(at: map<Network, Cursor>, after: map<Network, Cursor>, scanned: seq<Chunk>)
    requires CursorSaved(at, after, scanned)
    ensures LastBlock(after) == Max(LastBlock(at), if scanned == [] then 0 else scanned[|scanned| - 1].to)
  {
  }

  lemma HoldsToTheCursor(db: Db, chain: set<Log>, st: Stretch, cursor: nat)
    requires Holds(db, chain, st) && KeepsUp(st, cursor)
    ensures cursor > 0 ==> Covered(db, chain, st.first, cursor)
  {
  }

  // ------------------------------------------------------------------ when a stretch begins anew

  /** The saved cursor after these ticks. */
  function CursorAfter(cursor: nat, reports: seq<Report>): nat {
    if reports == [] then cursor
    else
      var r := reports[|reports| - 1];
      Max(r.found, if r.to.Some? then r.to.value else 0)
  }

  /** The ticks' own account: each starts from the cursor the last one left, finds it there or, after a restart, rewound
      by the reorg depth, and extends the stretch by what it scanned. */
  ghost predicate Chronicle(ticks: seq<TickInput>, depth: nat, cursor: nat, known: Stretch, stretches: seq<Stretch>,
                            reports: seq<Report>)
  {
    && |reports| == |ticks| && |stretches| == |ticks| + 1 && stretches[0] == known
    && (forall k | 0 <= k < |ticks| ::
          && reports[k].saved == CursorAfter(cursor, reports[..k])
          && Tells(reports[k], ticks[k], depth)
          && stretches[k + 1] == StretchAfter(stretches[k], ticks[k], reports[k], depth)
          && KeepsUp(stretches[k], reports[k].saved))
  }

  lemma NothingToTell(ticks: seq<TickInput>, depth: nat, cursor: nat, known: Stretch)
    ensures Chronicle(ticks[..0], depth, cursor, known, [known], []) && CursorAfter(cursor, []) == cursor
  {
  }

  lemma TellOn(ticks: seq<TickInput>, t: TickInput, depth: nat, cursor: nat, known: Stretch, stretches: seq<Stretch>,
               reports: seq<Report>, r: Report)
    requires Chronicle(ticks, depth, cursor, known, stretches, reports)
    requires r.saved == CursorAfter(cursor, reports) && Tells(r, t, depth) && KeepsUp(stretches[|ticks|], r.saved)
    ensures Chronicle(ticks + [t], depth, cursor, known,
                      stretches + [StretchAfter(stretches[|ticks|], t, r, depth)], reports + [r])
  {
    var more := reports + [r];
    forall k | 0 <= k <= |ticks| ensures more[..k] == reports[..k] {}
    assert reports[..|ticks|] == reports;
    hide KeepsUp, StretchAfter, CursorAfter, Tells;
  }

  /** The scan leaves blocks unread above the stretch: it found the cursor at zero, and the head had run further from
      the last covered block than the reorg depth (or than the next block, without one). */
  predicate LeavesGap(st: Stretch, t: TickInput, r: Report, depth: nat) {
    r.to.Some? && t.head.Some? && r.found == 0 && st.Stretch? && t.head.value > st.last + Max(depth, 1)
  }

  /** What is covered begins at the first scan ever that completed a chunk, and begins anew if and only if a scan leaves
      a gap. */
  lemma BeginsAnewIff(ticks: seq<TickInput>, depth: nat, cursor: nat, known: Stretch, stretches: seq<Stretch>,
                      reports: seq<Report>, k: nat)
    requires Chronicle(ticks, depth, cursor, known, stretches, reports) && k < |ticks|
    ensures var st, next, to := stretches[k], stretches[k + 1], reports[k].to;
            if to.None? then next == st
            else if st.Nothing? || LeavesGap(st, ticks[k], reports[k], depth)
            then next == Stretch(ScanStart(0, ticks[k].head.value, depth), to.value)
            else next == Stretch(st.first, Max(st.last, to.value))
  {
    var st, r := stretches[k], reports[k];
    if r.to.Some? && st.Stretch? && r.found > 0 {
      assert r.found <= r.saved <= st.last;
      assert ScanStart(r.found, ticks[k].head.value, depth) <= r.found + 1;
    }
  }

  /** A restart whose rewind keeps the cursor off zero, or whose reorg window reaches back to it, leaves no gap. */
  lemma RestartsLeaveNoGap(ticks: seq<TickInput>, depth: nat, cursor: nat, known: Stretch, stretches: seq<Stretch>,
                           reports: seq<Report>, k: nat)
    requires Chronicle(ticks, depth, cursor, known, stretches, reports) && k < |ticks| && reports[k].saved > 0
    requires ticks[k].head.Some? ==>
               Rewound(reports[k].saved, depth) > 0 || ticks[k].head.value <= reports[k].saved + depth
    ensures !LeavesGap(stretches[k], ticks[k], reports[k], depth)
  {
  }

  /** As long as no scan leaves a gap, the first covered block never moves. */
  lemma {:induction false} FirstBlockStays(ticks: seq<TickInput>, depth: nat, cursor: nat, known: Stretch,
                                           stretches: seq<Stretch>, reports: seq<Report>, m: nat, n: nat)
    requires Chronicle(ticks, depth, cursor, known, stretches, reports) && m <= n <= |ticks| && stretches[m].Stretch?
    requires forall k | m <= k < n :: !LeavesGap(stretches[k], ticks[k], reports[k], depth)
    ensures stretches[n].Stretch? && stretches[n].first == stretches[m].first && stretches[n].last >= stretches[m].last
    decreases n
  {
    if m < n {
      FirstBlockStays(ticks, depth, cursor, known, stretches, reports, m, n - 1);
      BeginsAnewIff(ticks, depth, cursor, known, stretches, reports, n - 1);
      hide Chronicle, LeavesGap;
    }
  }

  lemma {:induction false} NothingUntil(ticks: seq<TickInput>, depth: nat, cursor: nat, stretches: seq<Stretch>,
                                        reports: seq<Report>, j: nat)
    requires Chronicle(ticks, depth, cursor, Nothing, stretches, reports) && j <= |ticks|
    requires forall k | 0 <= k < j :: reports[k].to.None?
    ensures stretches[j] == Nothing
  {
    if j > 0 {
      NothingUntil(ticks, depth, cursor, stretches, reports, j - 1);
      BeginsAnewIff(ticks, depth, cursor, Nothing, stretches, reports, j - 1);
    }
  }

  /** From a fresh database: the first tick that completes a chunk, tick `j`, decides where coverage begins, and there
      it stays as long as no scan leaves a gap. */
  lemma FreshStart(ticks: seq<TickInput>, depth: nat, stretches: seq<Stretch>, reports: seq<Report>, j: nat)
    requires Chronicle(ticks, depth, 0, Nothing, stretches, reports) && j < |ticks|
    requires reports[j].to.Some? && forall k | 0 <= k < j :: reports[k].to.None?
    requires forall k | j < k < |ticks| :: !LeavesGap(stretches[k], ticks[k], reports[k], depth)
    ensures stretches[|ticks|].Stretch? && stretches[|ticks|].first == ScanStart(0, ticks[j].head.value, depth)
  {
    NothingUntil(ticks, depth, 0, stretches, reports, j);
    BeginsAnewIff(ticks, depth, 0, Nothing, stretches, reports, j);
    FirstBlockStays(ticks, depth, 0, Nothing, stretches, reports, j + 1, |ticks|);
  }
}
