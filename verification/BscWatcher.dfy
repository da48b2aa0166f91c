/** The BSC watcher (internal/usecases/chain/bsc_watcher/usecase.go): chunked scan, reorg detection by absence, settle
    pass. Everybody else may act before every statement. */
module BscWatcher {
  import opened Domain
  import opened Query
  import opened Tables
  import opened Matching
  import opened Ledger
  import opened Interference
  import opened Crediting
  import opened Watching
  import opened Recording
  import opened Store
  import opened Service
  import opened BscCursor
  import opened Settling

  /** One Transfer log to the receiving address; `value` is absent when its data does not decode. */
  datatype Log = Log(tx: string, index: int, block: nat, contract: string, value: Option<int>, removed: bool)

  datatype LogAnswer = Logs(logs: seq<Log>) | RangeTooDeep | CallFailed

  /** A completed chunk: the range asked for and the answer read. */
  datatype Chunk = Chunk(from: nat, to: nat, logs: seq<Log>)

  const SETTLE_BATCH: nat := 500

  function RefOf(l: Log): Ref { Ref(Bsc, l.tx, l.index) }

  /** Two logs are one transfer exactly when transaction and index agree, and none is a transfer of another network. */
  lemma RefOfIsAKey(l: Log, m: Log)
    ensures RefOf(l) == RefOf(m) <==> l.tx == m.tx && l.index == m.index
    ensures RefOf(l).network == Bsc
  {
  }

  function ObservedOf(l: Log, line: nat, at: Time): Observed
    requires l.value.Some?
  {
    Observed(RefOf(l), l.contract, l.value.value, l.block, at, l.block <= line)
  }

  /** How many logs are not flagged as removed. */
  function Transfers(logs: seq<Log>): nat {
    if logs == [] then 0
    else Transfers(logs[..|logs| - 1]) + if logs[|logs| - 1].removed then 0 else 1
  }

  predicate InAnswer(logs: seq<Log>, r: Ref) {
    exists k | 0 <= k < |logs| :: RefOf(logs[k]) == r
  }

  /** A log just read backs the invoice, and it lies at or below the finality line. */
  ghost predicate BackedByFinalLog(db: Db, logs: seq<Log>, line: nat, i: InvoiceId) {
    exists k ::
      0 <= k < |logs| && logs[k].value.Some? && Backs(db, ObservedOf(logs[k], 0, 0), i) && logs[k].block <= line
  }

  /** What reading some logs does: payments come to wait only for these logs, invoices are confirmed only by final
      ones. */
  ghost predicate LogsRead(before: Db, after: Db, logs: seq<Log>, line: nat) {
    && LedgerOk(after) && Grows(before, after)
    && (forall r | Awaiting(after, Bsc, r) ::
          || (Awaiting(before, Bsc, r) && after.payments[r] == before.payments[r])
          || (exists k ::
                0 <= k < |logs| && RefOf(logs[k]) == r && after.payments[r].block == StoredBlock(logs[k].block)))
    && (forall i | IsConfirmed(after, i) && after.invoices[i].network == Bsc && !IsConfirmed(before, i) ::
          BackedByFinalLog(after, logs, line, i))
  }

  lemma LogsReadTransitive(a: Db, b: Db, c: Db, logs: seq<Log>, line: nat)
    requires LogsRead(a, b, logs, line) && LogsRead(b, c, logs, line)
    ensures LogsRead(a, c, logs, line)
  {
    hide LedgerOk, BackedByFinalLog;
    GrowsTransitive(a, b, c);
    forall i | IsConfirmed(c, i) && c.invoices[i].network == Bsc && !IsConfirmed(a, i)
      ensures BackedByFinalLog(c, logs, line, i)
    {
      if IsConfirmed(b, i) {
        BackedStays(b, c, logs, line, i);
      }
    }
  }

  lemma BackedStays(b: Db, c: Db, logs: seq<Log>, line: nat, i: InvoiceId)
    requires LedgerOk(b) && Grows(b, c) && BackedByFinalLog(b, logs, line, i)
    ensures BackedByFinalLog(c, logs, line, i)
  {
    var k :| 0 <= k < |logs| && logs[k].value.Some? && Backs(b, ObservedOf(logs[k], 0, 0), i) && logs[k].block <= line;
    BacksGrows(b, c, ObservedOf(logs[k], 0, 0), i);
  }

  lemma ItselfRead(db: Db, logs: seq<Log>, line: nat)
    requires LedgerOk(db)
    ensures LogsRead(db, db, logs, line)
  {
  }

  lemma QuietRead(db: Db, after: Db, logs: seq<Log>, line: nat)
    requires LedgerOk(after) && Grows(db, after)
    requires OnlyFreshAwait(Bsc, db, after, None) && ConfirmedBy(Bsc, db, after, None)
    ensures LogsRead(db, after, logs, line)
  {
  }

  lemma LogRead(db: Db, after: Db, logs: seq<Log>, line: nat, k: nat, at: Time)
    requires k < |logs| && logs[k].value.Some?
    requires OwnStep(Bsc, db, after, Some(ObservedOf(logs[k], line, at)))
    ensures LogsRead(db, after, logs, line)
  {
    forall i | IsConfirmed(after, i) && after.invoices[i].network == Bsc && !IsConfirmed(db, i)
      ensures BackedByFinalLog(after, logs, line, i)
    {
      assert Backs(after, ObservedOf(logs[k], 0, 0), i);
    }
  }

  lemma ReadKeepsLedger(db: Db, after: Db, logs: seq<Log>, line: nat)
    requires LogsRead(db, after, logs, line)
    ensures LedgerOk(after)
  {
  }

  lemma FiledStays(db: Db, after: Db, logs: seq<Log>, line: nat, r: Ref)
    requires LogsRead(db, after, logs, line) && Filed(db, r)
    ensures Filed(after, r)
  {
  }

  /** What handing over one log did to the database; `ok` says whether it succeeded. */
  ghost predicate LogStep(cfg: Config, db: Db, after: Db, l: Log, line: nat, around: Interlude, ok: bool) {
    var paused := RunOutside(cfg, db, Bsc, around.before);
    var revoked := RevokeTx(cfg, paused, RefOf(l), around.ev);
    if l.removed then after == After(paused, revoked) && ok == revoked.Done?
    else if l.value.None? then after == paused && !ok
    else exists at: Time ::
      AppliedAs(cfg, db, after, ObservedOf(l, line, at), around.before, around.during, around.ev, ok)
  }

  /** A log handed over with success is on record under its own transaction and index: if it brought a payment, that
      says the log's token, amount and block, and its invoice asks for no more. Once the log's block is at or below the
      line, an invoice its live payment names is settled. */
  lemma LogIsRecorded(cfg: Config, db: Db, after: Db, l: Log, line: nat, around: Interlude)
    requires LedgerOk(db) && LogStep(cfg, db, after, l, line, around, true) && !l.removed
    ensures l.value.Some? && l.value.value > 0
    ensures var r := Ref(Bsc, l.tx, l.index);
            && (r in after.payments || r in after.orphans)
            && (r in after.payments && r !in db.payments ==>
                  var p := after.payments[r];
                  && p.amount == l.value.value && p.removedAt == None
                  && p.block == (if l.block == 0 then None else Some(l.block))
                  && p.asset in after.assets && after.assets[p.asset].network == Bsc
                  && after.assets[p.asset].contract == l.contract
                  && p.invoice.Some? && p.invoice.value in after.invoices
                  && after.invoices[p.invoice.value].asset == p.asset
                  && after.invoices[p.invoice.value].pay <= l.value.value)
            && (l.block <= line ==> SettledWith(after, r))
  {
    hide LedgerOk, AppliedAs, SettledWith, RunOutside;
    var at: Time :| AppliedAs(cfg, db, after, ObservedOf(l, line, at), around.before, around.during, around.ev, true);
    AppliedIsRecorded(cfg, db, after, ObservedOf(l, line, at), around.before, around.during, around.ev);
  }

  /** The databases a chunk's logs went through, one after the other; only the last of them can have failed. */
  ghost predicate LogTrail(cfg: Config, logs: seq<Log>, line: nat, env: nat -> Interlude, trail: seq<Db>, ok: bool) {
    && 1 <= |trail| <= |logs| + 1
    && (ok ==> |trail| == |logs| + 1) && (!ok ==> |trail| >= 2)
    && (forall k: nat | k < |trail| - 1 ::
          LogStep(cfg, trail[k], trail[k + 1], logs[k], line, env(k), ok || k < |trail| - 2))
  }

  /** A trail that has gone well so far goes one step on. */
  lemma LogTrailGoesOn(cfg: Config, logs: seq<Log>, line: nat, env: nat -> Interlude, trail: seq<Db>, after: Db,
                        ok: bool)
    requires 1 <= |trail| <= |logs|
    requires forall k: nat | k < |trail| - 1 :: LogStep(cfg, trail[k], trail[k + 1], logs[k], line, env(k), true)
    requires LogStep(cfg, trail[|trail| - 1], after, logs[|trail| - 1], line, env(|trail| - 1), ok)
    ensures !ok ==> LogTrail(cfg, logs, line, env, trail + [after], false)
    ensures ok ==>
              forall k: nat | k < |trail| ::
                LogStep(cfg, (trail + [after])[k], (trail + [after])[k + 1], logs[k], line, env(k), true)
  {
    hide LogStep;
  }

  /** What became of one chunk read: the databases its logs went through, the payments then withdrawn, and the databases
      the withdrawals went through. A chunk that failed in its logs withdraws nothing. */
  datatype Passage = Passage(begin: Db, logs: seq<Db>, gone: seq<Ref>, back: seq<Db>, end: Db)

  ghost predicate RevokedAs(cfg: Config, db: Db, after: Db, r: Ref, around: Interlude) {
    var paused := RunOutside(cfg, db, Bsc, around.before);
    after == After(paused, RevokeTx(cfg, paused, r, around.ev))
  }

  /** Listed and missing: a waiting payment stored in the chunk whose log is not in the answer. */
  predicate Missing(db: Db, c: Chunk, r: Ref) {
    AwaitingInBlocks(db, Bsc, c.from, c.to, r) && !InAnswer(c.logs, r)
  }

  /** Missing means: a live payment of a detected invoice, stored in a block of the chunk, while no log of the answer
      has its transaction and index. */
  lemma MissingMeans(db: Db, c: Chunk, r: Ref)
    ensures Missing(db, c, r) <==>
              && r in db.payments && r.network == Bsc && db.payments[r].removedAt.None? && db.payments[r].invoice.Some?
              && db.payments[r].invoice.value in db.invoices
              && db.invoices[db.payments[r].invoice.value].status == Detected
              && db.payments[r].block.Some? && c.from <= db.payments[r].block.value <= c.to
              && forall k | 0 <= k < |c.logs| :: c.logs[k].tx != r.tx || c.logs[k].index != r.logIndex
  {
    if r.network == Bsc && !InAnswer(c.logs, r) {
      forall k | 0 <= k < |c.logs| ensures c.logs[k].tx != r.tx || c.logs[k].index != r.logIndex {
        assert RefOf(c.logs[k]) != r;
      }
    }
  }

  /** The withdrawals of a chunk, one after the other: of exactly the payments missing when they were listed. */
  ghost predicate RevokeTrail(cfg: Config, c: Chunk, again: nat -> Interlude, gone: seq<Ref>, back: seq<Db>) {
    && |back| == |gone| + 1
    && (forall r :: r in gone <==> Missing(back[0], c, r))
    && (forall j: nat | j < |gone| :: RevokedAs(cfg, back[j], back[j + 1], gone[j], again(j)))
  }

  ghost predicate Passed(cfg: Config, c: Chunk, line: nat, env: nat -> Interlude, again: nat -> Interlude, p: Passage,
                         ok: bool)
  {
    && p.logs != [] && p.logs[0] == p.begin && LogTrail(cfg, c.logs, line, env, p.logs, ok)
    && if ok
       then RevokeTrail(cfg, c, again, p.gone, p.back)
            && p.back[0] == p.logs[|p.logs| - 1] && p.back[|p.back| - 1] == p.end
       else p.gone == [] && p.logs[|p.logs| - 1] == p.end
  }

  /** The interludes of chunk `n` of a scan: those around its logs, and those around its withdrawals. */
  function LogsPart(env: (nat, nat, bool) -> Interlude, n: nat): nat -> Interlude {
    (k: nat) => env(n, k, false)
  }

  function AgainPart(env: (nat, nat, bool) -> Interlude, n: nat): nat -> Interlude {
    (k: nat) => env(n, k, true)
  }

  /** The database before chunk `k`. */
  function Before(story: seq<Passage>, start: Db, k: nat): Db
    requires k <= |story|
  {
    if k == 0 then start else story[k - 1].end
  }

  /** The story of a scan, chunk by chunk; the first `done` chunks read went well. */
  ghost predicate Story(cfg: Config, read: seq<Chunk>, done: nat, line: nat, env: (nat, nat, bool) -> Interlude,
                        story: seq<Passage>, start: Db, end: Db)
  {
    && |story| == |read|
    && (forall k: nat | k < |read| ::
          && Passed(cfg, read[k], line, LogsPart(env, k), AgainPart(env, k), story[k], k < done)
          && story[k].begin == Before(story, start, k))
    && end == Before(story, start, |story|)
  }

  lemma StoryGoesOn(cfg: Config, read: seq<Chunk>, line: nat, env: (nat, nat, bool) -> Interlude, story: seq<Passage>,
                    start: Db, mid: Db, c: Chunk, p: Passage, ok: bool)
    requires Story(cfg, read, |read|, line, env, story, start, mid) && p.begin == mid
    requires Passed(cfg, c, line, LogsPart(env, |read|), AgainPart(env, |read|), p, ok)
    ensures Story(cfg, read + [c], if ok then |read| + 1 else |read|, line, env, story + [p], start, p.end)
  {
    hide Passed;
    var all, done := story + [p], if ok then |read| + 1 else |read|;
    forall k: nat | k < |all|
      ensures Passed(cfg, (read + [c])[k], line, LogsPart(env, k), AgainPart(env, k), all[k], k < done)
      ensures all[k].begin == Before(all, start, k)
    {
      if k < |read| {
        assert Passed(cfg, read[k], line, LogsPart(env, k), AgainPart(env, k), story[k], k < |read|);
        assert Before(all, start, k) == Before(story, start, k);
      }
    }
  }

  lemma StoryStep(cfg: Config, read: seq<Chunk>, done: nat, line: nat, env: (nat, nat, bool) -> Interlude,
                  story: seq<Passage>, start: Db, end: Db, k: nat)
    requires Story(cfg, read, done, line, env, story, start, end) && k < |read|
    ensures |story| == |read| && story[k].begin == Before(story, start, k)
    ensures Passed(cfg, read[k], line, LogsPart(env, k), AgainPart(env, k), story[k], k < done)
    ensures Before(story, start, k + 1) == story[k].end
  {
    hide Passed;
  }

  lemma StoryBegins(cfg: Config, line: nat, env: (nat, nat, bool) -> Interlude, start: Db)
    ensures Story(cfg, [], 0, line, env, [], start, start)
  {
  }

  // ------------------------------------------------------------------ what a scan establishes

  /** Every payment waiting for finality whose stored block lies in a scanned chunk has its log in that chunk's
      answer. */
  ghost predicate Vouched(db: Db, scanned: seq<Chunk>) {
    forall r, k | 0 <= k < |scanned| && AwaitingInBlocks(db, Bsc, scanned[k].from, scanned[k].to, r) ::
      InAnswer(scanned[k].logs, r)
  }

  /** The chunks follow one another from `start`, none past the head or wider than the limit. */
  ghost predicate Contiguous(scanned: seq<Chunk>, start: nat, head: nat, span: nat) {
    && (scanned != [] ==> scanned[0].from == start)
    && (forall j, k | 0 <= j < |scanned| && k == j + 1 && k < |scanned| :: scanned[k].from == scanned[j].to + 1)
    && (forall k | 0 <= k < |scanned| ::
          scanned[k].from <= scanned[k].to <= head && scanned[k].to - scanned[k].from + 1 <= span)
  }

  /** The logs of every chunk are on record. */
  ghost predicate AllFiled(db: Db, scanned: seq<Chunk>) {
    forall k, j | 0 <= k < |scanned| && 0 <= j < |scanned[k].logs| && !scanned[k].logs[j].removed ::
      Filed(db, RefOf(scanned[k].logs[j]))
  }

  /** An answer holds only logs of the range asked for, none flagged as removed. */
  ghost predicate Exact(answers: (nat, nat) -> LogAnswer) {
    forall a: nat, b: nat, k :: answers(a, b).Logs? && 0 <= k < |answers(a, b).logs| ==>
      a <= answers(a, b).logs[k].block <= b && !answers(a, b).logs[k].removed
  }

  // ------------------------------------------------------------------ revoking

  /** Nothing has come to wait, nothing was confirmed, nothing was lost. */
  ghost predicate OnlyRevoked(db: Db, after: Db) {
    Grows(db, after) && OnlyFreshAwait(Bsc, db, after, None) && ConfirmedBy(Bsc, db, after, None)
  }

  lemma NothingRevoked(db: Db)
    ensures OnlyRevoked(db, db)
  {
  }

  lemma QuietlyRevoked(db: Db, after: Db)
    requires Grows(db, after) && OnlyFreshAwait(Bsc, db, after, None) && ConfirmedBy(Bsc, db, after, None)
    ensures OnlyRevoked(db, after)
  {
  }

  lemma StepRevoked(db: Db, after: Db)
    requires OwnStep(Bsc, db, after, None)
    ensures LedgerOk(after) && OnlyRevoked(db, after)
  {
  }

  lemma RevokedTransitive(a: Db, b: Db, c: Db)
    requires OnlyRevoked(a, b) && OnlyRevoked(b, c)
    ensures OnlyRevoked(a, c)
  {
    hide Backs;
    GrowsTransitive(a, b, c);
  }

  /** A payment row stays, and a withdrawn one stays withdrawn. */
  lemma PaymentStays(db: Db, after: Db, r: Ref)
    requires OnlyRevoked(db, after) && r in db.payments
    ensures r in after.payments && (!IsLive(db.payments[r]) ==> !IsLive(after.payments[r]))
  {
  }

  lemma StillWaits(db: Db, after: Db, from: nat, to: nat, r: Ref)
    requires OnlyRevoked(db, after) && AwaitingInBlocks(after, Bsc, from, to, r)
    ensures AwaitingInBlocks(db, Bsc, from, to, r)
  {
  }

  lemma RevokedIsRead(db: Db, after: Db, logs: seq<Log>, line: nat)
    requires LedgerOk(after) && OnlyRevoked(db, after)
    ensures LogsRead(db, after, logs, line)
  {
    QuietRead(db, after, logs, line);
  }

  lemma RevokeNeverFails(cfg: Config, db: Db, r: Ref, ev: EventId)
    requires Linked(db)
    ensures RevokeTx(cfg, db, r, ev).Done?
  {
  }

  // ------------------------------------------------------------------ what a scan withdraws

  predicate LiveAt(db: Db, r: Ref) {
    r in db.payments && IsLive(db.payments[r])
  }

  /** A live payment whose invoice is detected or confirmed. */
  predicate Standing(db: Db, r: Ref) {
    LiveAt(db, r) && PaysFor(db, db.payments[r], Detected, Confirmed)
  }

  predicate PaysFor(db: Db, p: Payment, a: Status, b: Status) {
    && p.invoice.Some? && p.invoice.value in db.invoices
    && (db.invoices[p.invoice.value].status == a || db.invoices[p.invoice.value].status == b)
  }

  /** Some chunk scanned should have held the log of this waiting payment, and did not. */
  ghost predicate MissingIn(db: Db, scanned: seq<Chunk>, r: Ref) {
    exists k :: 0 <= k < |scanned| && Missing(db, scanned[k], r)
  }

  /** What reading these chunks withdrew, by what waited before: a payment is withdrawn only if it waited for finality,
      is stored in a chunk scanned, and is absent from its answer; and then it is, unless its invoice was confirmed
      before its turn came. */
  ghost predicate Withdraws(before: Db, after: Db, scanned: seq<Chunk>) {
    forall r: Ref | r.network == Bsc && LiveAt(before, r) ::
      && r in after.payments
      && (!IsLive(after.payments[r]) ==> MissingIn(before, scanned, r))
      && (MissingIn(before, scanned, r) ==>
            !IsLive(after.payments[r]) || PaysFor(after, after.payments[r], Confirmed, Confirmed))
  }

  /** As long as it is not withdrawn, a waiting payment's invoice is detected or confirmed. */
  ghost predicate WaitersStand(before: Db, after: Db) {
    forall r | Awaiting(before, Bsc, r) && LiveAt(after, r) :: Standing(after, r)
  }

  lemma NothingWithdrawn(db: Db)
    ensures Withdraws(db, db, []) && WaitersStand(db, db)
  {
  }

  /** One log. */
  lemma LogMoves(cfg: Config, db: Db, after: Db, l: Log, line: nat, around: Interlude, ok: bool)
    requires LedgerOk(db) && LogStep(cfg, db, after, l, line, around, ok) && !l.removed
    ensures LedgerOk(after) && Grows(db, after)
    ensures forall q: Ref | q.network == Bsc && q in db.payments ::
              q in after.payments && after.payments[q] == db.payments[q]
    ensures forall q | Standing(db, q) && q.network == Bsc :: Standing(after, q)
    ensures forall a | a in after.assets ::
              (a in db.assets && after.assets[a] == db.assets[a]) || SeededIn(around, a, after.assets[a])
  {
    hide LedgerOk, Grows, RunOutside, AppliedAs, Undisturbed, Seeded;
    if l.value.None? {
      OutsideSeeds(cfg, db, Bsc, around.before);
      QuietOutside(cfg, db, Bsc, around.before);
      OutsideRun(cfg, db, Bsc, around.before);
      UndisturbedStands(cfg, db, after);
    } else {
      var at: Time :| AppliedAs(cfg, db, after, ObservedOf(l, line, at), around.before, around.during, around.ev, ok);
      ApplyMoves(cfg, db, after, ObservedOf(l, line, at), around.before, around.during, around.ev, ok);
      GoingOnStands(db, after);
    }
  }

  lemma UndisturbedStands(cfg: Config, db: Db, after: Db)
    requires LedgerOk(db) && Undisturbed(Bsc, db, after)
    ensures forall q: Ref | q.network == Bsc && q in db.payments ::
              q in after.payments && after.payments[q] == db.payments[q]
    ensures forall q: Ref | q.network == Bsc && q in after.payments :: q in db.payments
    ensures forall q | Standing(db, q) && q.network == Bsc :: Standing(after, q)
  {
  }

  lemma GoingOnStands(db: Db, after: Db)
    requires LedgerOk(db) && Grows(db, after) && DetectedGoesOn(Bsc, db, after)
    requires forall q: Ref | q.network == Bsc && q in db.payments ::
               q in after.payments && after.payments[q] == db.payments[q]
    ensures forall q | Standing(db, q) && q.network == Bsc :: Standing(after, q)
  {
  }

  /** One withdrawal: of this payment and of no other, and no other's invoice goes back to pending. */
  lemma OneWithdrawn(cfg: Config, db: Db, after: Db, r: Ref, around: Interlude)
    requires LedgerOk(db) && RevokedAs(cfg, db, after, r, around) && r.network == Bsc
    ensures LedgerOk(after) && Grows(db, after)
    ensures forall q: Ref | q.network == Bsc && q in after.payments :: q in db.payments
    ensures forall q: Ref | q.network == Bsc && q in db.payments ::
              q in after.payments && (q != r ==> after.payments[q] == db.payments[q])
    ensures r in db.payments ==> !IsLive(after.payments[r])
    ensures forall q | q != r && Standing(db, q) && q.network == Bsc :: Standing(after, q)
    ensures forall a | a in after.assets ::
              (a in db.assets && after.assets[a] == db.assets[a]) || Seeded(around.before, a, after.assets[a])
  {
    hide LedgerOk, Grows, RunOutside, Undisturbed, OwnStep, RevokeTx, Seeded;
    var paused := RunOutside(cfg, db, Bsc, around.before);
    QuietOutside(cfg, db, Bsc, around.before);
    OutsideRun(cfg, db, Bsc, around.before);
    OutsideSeeds(cfg, db, Bsc, around.before);
    UndisturbedStands(cfg, db, paused);
    RevokeStep(cfg, paused, r, around.ev);
    OwnStepGrows(Bsc, paused, after, None);
    GrowsTransitive(db, paused, after);
    LedgerIsLinked(paused);
    RevokeWrites(cfg, paused, r, around.ev);
    RevokeKeepsAssets(cfg, paused, r, around.ev);
    OthersStand(cfg, paused, after, r, around.ev);
  }

  lemma RevokeKeepsAssets(cfg: Config, db: Db, r: Ref, ev: EventId)
    ensures After(db, RevokeTx(cfg, db, r, ev)).assets == db.assets
  {
    hide EnqueueEvent;
  }

  lemma OthersStand(cfg: Config, db: Db, after: Db, r: Ref, ev: EventId)
    requires LedgerOk(db) && after == After(db, RevokeTx(cfg, db, r, ev))
    ensures forall q | q != r && Standing(db, q) :: Standing(after, q)
  {
    RevokeWrites(cfg, db, r, ev);
    hide RevokeTx;
    forall q | q != r && Standing(db, q) ensures Standing(after, q) {
      var i := db.payments[q].invoice.value;
      assert LiveOn(db, q, i) && !LiveOn(db, r, i);
    }
  }

  /** The logs of a chunk withdraw nothing. */
  lemma {:induction false} LogsMove(cfg: Config, logs: seq<Log>, line: nat, env: nat -> Interlude, trail: seq<Db>,
                                    ok: bool, n: nat)
    requires LogTrail(cfg, logs, line, env, trail, ok) && LedgerOk(trail[0]) && n < |trail|
    requires forall k | 0 <= k < |logs| :: !logs[k].removed
    ensures LedgerOk(trail[n]) && Grows(trail[0], trail[n])
    ensures forall q: Ref | q.network == Bsc && q in trail[0].payments ::
              q in trail[n].payments && trail[n].payments[q] == trail[0].payments[q]
    ensures forall q | Standing(trail[0], q) && q.network == Bsc :: Standing(trail[n], q)
    ensures AssetsSeeded(trail[0], trail[n], env)
    decreases n
  {
    hide LogStep, LedgerOk, Grows, Standing, AssetsSeeded, SeededIn;
    if n == 0 {
      GrowsItself(trail[0]);
      AssetsStay(trail[0], env);
    } else {
      LogsMove(cfg, logs, line, env, trail, ok, n - 1);
      assert LogStep(cfg, trail[n - 1], trail[n], logs[n - 1], line, env(n - 1), ok || n - 1 < |trail| - 2);
      LogMoves(cfg, trail[n - 1], trail[n], logs[n - 1], line, env(n - 1), ok || n - 1 < |trail| - 2);
      GrowsTransitive(trail[0], trail[n - 1], trail[n]);
      StepSeeds(trail[n - 1], trail[n], env, n - 1);
      AssetsSeededTransitive(trail[0], trail[n - 1], trail[n], env);
    }
  }

  /** Exactly these have been withdrawn, and what else stood still stands. */
  ghost predicate OnlyGone(db: Db, after: Db, gone: seq<Ref>) {
    && (forall q: Ref | q.network == Bsc && q in after.payments :: q in db.payments)
    && (forall q: Ref | q.network == Bsc && q in db.payments ::
          && q in after.payments
          && (q in gone ==> !IsLive(after.payments[q]))
          && (q !in gone ==> after.payments[q] == db.payments[q]))
    && (forall q | q !in gone && Standing(db, q) && q.network == Bsc :: Standing(after, q))
  }

  lemma OneMoreGone(db: Db, mid: Db, after: Db, gone: seq<Ref>, r: Ref)
    requires OnlyGone(db, mid, gone) && Grows(mid, after)
    requires forall q: Ref | q.network == Bsc && q in after.payments :: q in mid.payments
    requires forall q: Ref | q.network == Bsc && q in mid.payments ::
               q in after.payments && (q != r ==> after.payments[q] == mid.payments[q])
    requires r in mid.payments ==> !IsLive(after.payments[r])
    requires forall q | q != r && Standing(mid, q) && q.network == Bsc :: Standing(after, q)
    ensures OnlyGone(db, after, gone + [r])
  {
    hide Standing;
  }

  /** The withdrawals of a chunk withdraw those listed and no others. */
  lemma {:induction false} BackMoves(cfg: Config, c: Chunk, again: nat -> Interlude, gone: seq<Ref>, back: seq<Db>,
                                     n: nat)
    requires RevokeTrail(cfg, c, again, gone, back) && LedgerOk(back[0]) && n < |back|
    ensures LedgerOk(back[n]) && Grows(back[0], back[n])
    ensures OnlyGone(back[0], back[n], gone[..n])
    ensures AssetsSeeded(back[0], back[n], again)
    decreases n
  {
    hide RevokedAs, LedgerOk, Standing, AssetsSeeded, OnlyGone, Missing, Grows;
    if n == 0 {
      GrowsItself(back[0]);
      AssetsStay(back[0], again);
      NoneGone(back[0]);
    } else {
      BackMoves(cfg, c, again, gone, back, n - 1);
      var r := gone[n - 1];
      MissingIsBsc(back[0], c, r);
      assert RevokedAs(cfg, back[n - 1], back[n], r, again(n - 1));
      OneWithdrawn(cfg, back[n - 1], back[n], r, again(n - 1));
      GrowsTransitive(back[0], back[n - 1], back[n]);
      OneMoreGone(back[0], back[n - 1], back[n], gone[..n - 1], r);
      assert gone[..n] == gone[..n - 1] + [r];
      SeedsOf(back[n - 1], back[n], again, n - 1);
      AssetsSeededTransitive(back[0], back[n - 1], back[n], again);
    }
  }

  lemma NoneGone(db: Db)
    ensures OnlyGone(db, db, [])
  {
  }

  lemma MissingIsBsc(db: Db, c: Chunk, r: Ref)
    ensures Missing(db, c, r) ==> r.network == Bsc
  {
  }

  lemma SeedsOf(db: Db, after: Db, env: nat -> Interlude, k: nat)
    requires forall a | a in after.assets ::
               (a in db.assets && after.assets[a] == db.assets[a]) || Seeded(env(k).before, a, after.assets[a])
    ensures AssetsSeeded(db, after, env)
  {
    hide Seeded;
    forall a | a in after.assets && Seeded(env(k).before, a, after.assets[a])
      ensures SeededIn(env(k), a, after.assets[a])
    {
    }
  }

  lemma StepSeeds(db: Db, after: Db, env: nat -> Interlude, k: nat)
    requires forall a | a in after.assets ::
               (a in db.assets && after.assets[a] == db.assets[a]) || SeededIn(env(k), a, after.assets[a])
    ensures AssetsSeeded(db, after, env)
  {
    hide SeededIn;
  }

  /** Of the first `k` payments listed, those whose logs are missing. */
  ghost predicate GoneSoFar(live: seq<Payment>, c: Chunk, gone: seq<Ref>, k: nat) {
    k <= |live| && forall r :: r in gone <==> exists j :: 0 <= j < k && live[j].ref == r && !InAnswer(c.logs, r)
  }

  lemma NextGone(live: seq<Payment>, c: Chunk, gone: seq<Ref>, k: nat)
    ensures GoneSoFar(live, c, [], 0)
    ensures GoneSoFar(live, c, gone, k) && k < |live| ==>
              GoneSoFar(live, c, if InAnswer(c.logs, live[k].ref) then gone else gone + [live[k].ref], k + 1)
  {
    hide InAnswer;
    if GoneSoFar(live, c, gone, k) && k < |live| {
      var next := if InAnswer(c.logs, live[k].ref) then gone else gone + [live[k].ref];
      forall r ensures r in next <==> exists j :: 0 <= j < k + 1 && live[j].ref == r && !InAnswer(c.logs, r) {
        if r == live[k].ref && !InAnswer(c.logs, r) {
          assert live[k].ref == r;
        }
      }
    }
  }

  lemma AllGone(db: Db, live: seq<Payment>, c: Chunk, gone: seq<Ref>)
    requires GoneSoFar(live, c, gone, |live|)
    requires forall k | 0 <= k < |live| :: AwaitingInBlocks(db, Bsc, c.from, c.to, live[k].ref)
    requires forall r | AwaitingInBlocks(db, Bsc, c.from, c.to, r) :: exists k :: 0 <= k < |live| && live[k].ref == r
    ensures forall r :: r in gone <==> Missing(db, c, r)
  {
    hide AwaitingInBlocks, InAnswer;
  }

  /** The withdrawals so far, from `start` to `now`. */
  ghost predicate BackSoFar(cfg: Config, again: nat -> Interlude, gone: seq<Ref>, back: seq<Db>, start: Db, now: Db) {
    && |back| == |gone| + 1 && back[0] == start && back[|gone|] == now
    && (forall j: nat | j < |gone| :: RevokedAs(cfg, back[j], back[j + 1], gone[j], again(j)))
  }

  lemma NextBack(cfg: Config, again: nat -> Interlude, gone: seq<Ref>, back: seq<Db>, start: Db, db: Db, after: Db,
                 r: Ref)
    requires BackSoFar(cfg, again, gone, back, start, db) && RevokedAs(cfg, db, after, r, again(|gone|))
    ensures BackSoFar(cfg, again, gone + [r], back + [after], start, after)
  {
    hide RevokedAs;
  }

  lemma NothingBack(cfg: Config, again: nat -> Interlude, db: Db)
    ensures BackSoFar(cfg, again, [], [db], db, db)
  {
  }

  lemma RevokesListed(cfg: Config, c: Chunk, again: nat -> Interlude, gone: seq<Ref>, back: seq<Db>, start: Db, now: Db)
    requires BackSoFar(cfg, again, gone, back, start, now) && forall r :: r in gone <==> Missing(start, c, r)
    ensures RevokeTrail(cfg, c, again, gone, back) && back[0] == start && back[|back| - 1] == now
  {
    hide RevokedAs, Missing;
  }

  lemma NoneMissing(db: Db, after: Db, c: Chunk)
    requires OnlyRevoked(db, after)
    requires forall r: Ref | r.network == Bsc && LiveAt(db, r) ::
               r in after.payments && (IsLive(after.payments[r]) <==> !Missing(db, c, r))
    ensures forall r | AwaitingInBlocks(after, Bsc, c.from, c.to, r) :: InAnswer(c.logs, r)
  {
    hide OnlyRevoked, InAnswer;
    forall r | AwaitingInBlocks(after, Bsc, c.from, c.to, r) ensures InAnswer(c.logs, r) {
      StillWaits(db, after, c.from, c.to, r);
      assert LiveAt(db, r);
    }
  }

  /** In terms of the list: a live payment stays live if and only if it is not missing. */
  lemma BackWithdraws(cfg: Config, c: Chunk, again: nat -> Interlude, gone: seq<Ref>, back: seq<Db>)
    requires RevokeTrail(cfg, c, again, gone, back) && LedgerOk(back[0])
    ensures var after := back[|back| - 1];
            forall r: Ref | r.network == Bsc && LiveAt(back[0], r) ::
              r in after.payments && (IsLive(after.payments[r]) <==> !Missing(back[0], c, r))
  {
    hide LedgerOk, RevokedAs;
    BackMoves(cfg, c, again, gone, back, |gone|);
    assert gone[..|gone|] == gone;
  }

  /** A payment live since `before` is missing from a chunk now if and only if it was then, as long as its invoice is
      not confirmed. */
  lemma MissingSince(before: Db, db: Db, c: Chunk, r: Ref)
    requires LedgerOk(before) && Grows(before, db) && WaitersStand(before, db)
    requires r.network == Bsc && LiveAt(before, r) && LiveAt(db, r)
    ensures Missing(db, c, r) ==> Missing(before, c, r)
    ensures Missing(before, c, r) ==> Missing(db, c, r) || PaysFor(db, db.payments[r], Confirmed, Confirmed)
  {
    if Missing(db, c, r) {
      assert LiveOn(before, r, before.payments[r].invoice.value);
    }
    if Missing(before, c, r) {
      assert Standing(db, r);
    }
  }

  lemma PassageWithdraws(cfg: Config, before: Db, scanned: seq<Chunk>, c: Chunk, line: nat, env: nat -> Interlude,
                         again: nat -> Interlude, p: Passage, ok: bool)
    requires LedgerOk(before) && Grows(before, p.begin) && LedgerOk(p.begin)
    requires Withdraws(before, p.begin, scanned) && WaitersStand(before, p.begin)
    requires Passed(cfg, c, line, env, again, p, ok) && forall k | 0 <= k < |c.logs| :: !c.logs[k].removed
    ensures LedgerOk(p.end) && Grows(before, p.end) && WaitersStand(before, p.end)
    ensures Withdraws(before, p.end, if ok then scanned + [c] else scanned)
  {
    hide LedgerOk, LogTrail, RevokedAs, Grows, Missing;
    var mid := p.logs[|p.logs| - 1];
    LogsMove(cfg, c.logs, line, env, p.logs, ok, |p.logs| - 1);
    GrowsTransitive(before, p.begin, mid);
    LogsWithdrawNothing(before, p.begin, mid, scanned);
    if ok {
      BackMoves(cfg, c, again, p.gone, p.back, |p.gone|);
      assert p.gone[..|p.gone|] == p.gone;
      GrowsTransitive(before, mid, p.end);
      GoneWithdrawn(before, mid, p.end, scanned, c, p.gone);
    }
  }

  lemma LogsWithdrawNothing(before: Db, begin: Db, mid: Db, scanned: seq<Chunk>)
    requires LedgerOk(before) && Grows(before, begin) && Grows(begin, mid)
    requires Withdraws(before, begin, scanned) && WaitersStand(before, begin)
    requires forall q: Ref | q.network == Bsc && q in begin.payments ::
               q in mid.payments && mid.payments[q] == begin.payments[q]
    requires forall q | Standing(begin, q) && q.network == Bsc :: Standing(mid, q)
    ensures Withdraws(before, mid, scanned) && WaitersStand(before, mid)
  {
    hide LedgerOk, MissingIn;
    forall r | Awaiting(before, Bsc, r) && LiveAt(mid, r) ensures Standing(mid, r) {
      assert LiveAt(before, r);
      assert Standing(begin, r);
    }
  }

  lemma GoneWithdrawn(before: Db, mid: Db, end: Db, scanned: seq<Chunk>, c: Chunk, gone: seq<Ref>)
    requires LedgerOk(before) && Grows(before, mid) && Grows(mid, end)
    requires Withdraws(before, mid, scanned) && WaitersStand(before, mid)
    requires forall r :: r in gone <==> Missing(mid, c, r)
    requires OnlyGone(mid, end, gone)
    ensures Withdraws(before, end, scanned + [c]) && WaitersStand(before, end)
  {
    hide LedgerOk, Missing, Grows;
    var all := scanned + [c];
    forall r: Ref | r.network == Bsc && LiveAt(before, r)
      ensures r in end.payments && (!IsLive(end.payments[r]) ==> MissingIn(before, all, r))
      ensures MissingIn(before, all, r) ==>
                !IsLive(end.payments[r]) || PaysFor(end, end.payments[r], Confirmed, Confirmed)
    {
      MissingNext(before, scanned, c, r);
      if LiveAt(mid, r) {
        MissingSince(before, mid, c, r);
        ConfirmedForGood(mid, end, r);
      }
    }
    forall r | Awaiting(before, Bsc, r) && LiveAt(end, r) ensures Standing(end, r) {
      assert LiveAt(before, r);
      assert Standing(mid, r);
    }
  }

  lemma MissingNext(db: Db, scanned: seq<Chunk>, c: Chunk, r: Ref)
    ensures MissingIn(db, scanned + [c], r) <==> MissingIn(db, scanned, r) || Missing(db, c, r)
  {
    hide Missing;
    var all := scanned + [c];
    if MissingIn(db, all, r) {
      var k :| 0 <= k < |all| && Missing(db, all[k], r);
      assert k < |scanned| ==> all[k] == scanned[k];
    }
    if MissingIn(db, scanned, r) {
      var k :| 0 <= k < |scanned| && Missing(db, scanned[k], r);
      assert all[k] == scanned[k];
    }
    assert all[|scanned|] == c;
  }

  lemma ConfirmedForGood(db: Db, after: Db, r: Ref)
    requires Grows(db, after) && r in db.payments
    ensures r in after.payments
    ensures PaysFor(db, db.payments[r], Confirmed, Confirmed) ==>
              PaysFor(after, after.payments[r], Confirmed, Confirmed)
  {
  }

  lemma {:induction false} StoryWithdrawsUpTo(cfg: Config, read: seq<Chunk>, done: nat, line: nat,
                                              env: (nat, nat, bool) -> Interlude, story: seq<Passage>, start: Db,
                                              end: Db, n: nat)
    requires Story(cfg, read, done, line, env, story, start, end) && LedgerOk(start) && n <= |read| && done <= |read|
    requires forall k, j | 0 <= k < |read| && 0 <= j < |read[k].logs| :: !read[k].logs[j].removed
    ensures var at := Before(story, start, n);
            && LedgerOk(at) && Grows(start, at) && WaitersStand(start, at)
            && Withdraws(start, at, read[..if n <= done then n else done])
    decreases n
  {
    hide LedgerOk, Grows, Passed, Withdraws, WaitersStand, Story;
    if n == 0 {
      GrowsItself(start);
      NothingWithdrawn(start);
    } else {
      StoryWithdrawsUpTo(cfg, read, done, line, env, story, start, end, n - 1);
      StoryStep(cfg, read, done, line, env, story, start, end, n - 1);
      PassageWithdraws(cfg, start, read[..if n - 1 <= done then n - 1 else done], read[n - 1], line,
                       LogsPart(env, n - 1), AgainPart(env, n - 1), story[n - 1], n - 1 < done);
      assert n - 1 < done ==> read[..n - 1] + [read[n - 1]] == read[..n];
    }
  }

  /** What a scan withdrew, from its story. */
  lemma StoryWithdraws(cfg: Config, answers: (nat, nat) -> LogAnswer, read: seq<Chunk>, scanned: seq<Chunk>, line: nat,
                       env: (nat, nat, bool) -> Interlude, story: seq<Passage>, start: Db, end: Db)
    requires Story(cfg, read, |scanned|, line, env, story, start, end) && LedgerOk(start)
    requires |scanned| <= |read| && read[..|scanned|] == scanned
    requires Exact(answers) && AnsweredBy(answers, read)
    ensures Withdraws(start, end, scanned)
  {
    ExactIsUnflagged(answers, read);
    hide LedgerOk, Passed, Withdraws, Exact, AnsweredBy;
    StoryWithdrawsUpTo(cfg, read, |scanned|, line, env, story, start, end, |read|);
  }

  lemma ExactIsUnflagged(answers: (nat, nat) -> LogAnswer, read: seq<Chunk>)
    requires Exact(answers) && AnsweredBy(answers, read)
    ensures forall k, j | 0 <= k < |read| && 0 <= j < |read[k].logs| :: !read[k].logs[j].removed
  {
    forall k, j | 0 <= k < |read| && 0 <= j < |read[k].logs| ensures !read[k].logs[j].removed {
      assert answers(read[k].from, read[k].to).logs[j] == read[k].logs[j];
    }
  }

  lemma SettledWithdrawsNothing(start: Db, mid: Db, after: Db, scanned: seq<Chunk>, due: Payment -> bool)
    requires Withdraws(start, mid, scanned) && SettledOnly(Bsc, mid, after, due) && Grows(mid, after)
    ensures Withdraws(start, after, scanned)
  {
    hide MissingIn;
  }

  // ------------------------------------------------------------------ scanning

  /** Where the cursor stands after these chunks: on the last block of the last one, unless it was further already. */
  ghost predicate CursorSaved(before: map<Network, Cursor>, after: map<Network, Cursor>, scanned: seq<Chunk>) {
    if scanned == [] then after == before
    else
      && after.Keys == before.Keys + {Bsc}
      && (Tron in before ==> after[Tron] == before[Tron])
      && after[Bsc].lastBlock ==
           Max(if Bsc in before then before[Bsc].lastBlock else 0, scanned[|scanned| - 1].to)
  }

  /** What completed chunks leave behind, whether or not the scan went on to fail. */
  ghost predicate Scanned(before: Db, after: Db, scanned: seq<Chunk>) {
    LedgerOk(after) && Grows(before, after) && Vouched(after, scanned) && AllFiled(after, scanned)
  }

  /** Every newly confirmed invoice has its transfer, final, among the logs just read. */
  ghost predicate ScanConfirms(before: Db, after: Db, scanned: seq<Chunk>, line: nat) {
    forall i | IsConfirmed(after, i) && after.invoices[i].network == Bsc && !IsConfirmed(before, i) ::
      exists k :: 0 <= k < |scanned| && BackedByFinalLog(after, scanned[k].logs, line, i)
  }

  /** The chunks read are the completed ones and at most one more, in which the scan failed. */
  predicate ReadOn(scanned: seq<Chunk>, read: seq<Chunk>, ok: bool) {
    read == scanned || (!ok && |read| == |scanned| + 1 && read[..|scanned|] == scanned)
  }

  lemma NothingScanned(db: Db, line: nat)
    requires LedgerOk(db)
    ensures Scanned(db, db, []) && ScanConfirms(db, db, [], line)
  {
  }

  ghost predicate LogsInside(c: Chunk) {
    forall k | 0 <= k < |c.logs| :: c.from <= c.logs[k].block <= c.to
  }

  lemma ExactChunk(answers: (nat, nat) -> LogAnswer, c: Chunk)
    requires Exact(answers) && answers(c.from, c.to) == Logs(c.logs)
    ensures LogsInside(c)
  {
  }

  lemma EarlierChunksStayVouched(before: Db, after: Db, scanned: seq<Chunk>, c: Chunk, line: nat)
    requires Vouched(before, scanned) && LogsRead(before, after, c.logs, line) && LogsInside(c)
    requires forall k | 0 <= k < |scanned| :: scanned[k].to < c.from
    ensures Vouched(after, scanned)
  {
  }

  lemma EarlierChunksStayFiled(before: Db, after: Db, scanned: seq<Chunk>)
    requires AllFiled(before, scanned) && Grows(before, after)
    ensures AllFiled(after, scanned)
  {
  }

  lemma PartialChunk(start: Db, before: Db, after: Db, scanned: seq<Chunk>, c: Chunk, line: nat)
    requires Scanned(start, before, scanned) && LogsRead(before, after, c.logs, line) && LogsInside(c)
    requires forall k | 0 <= k < |scanned| :: scanned[k].to < c.from
    ensures Scanned(start, after, scanned)
  {
    hide LedgerOk, BackedByFinalLog;
    GrowsTransitive(start, before, after);
    EarlierChunksStayVouched(before, after, scanned, c, line);
    EarlierChunksStayFiled(before, after, scanned);
    hide Grows, Vouched, AllFiled;
  }

  lemma NextChunk(start: Db, before: Db, after: Db, scanned: seq<Chunk>, c: Chunk, line: nat)
    requires Scanned(start, before, scanned) && ScanConfirms(start, before, scanned, line)
    requires LogsRead(before, after, c.logs, line) && LogsInside(c)
    requires Vouched(after, [c]) && AllFiled(after, [c])
    requires forall k | 0 <= k < |scanned| :: scanned[k].to < c.from
    ensures Scanned(start, after, scanned + [c]) && ScanConfirms(start, after, scanned + [c], line)
  {
    PartialChunk(start, before, after, scanned, c, line);
    var all := scanned + [c];
    NextChunkVouched(after, scanned, c);
    NextChunkConfirms(start, before, after, scanned, c, line);
    hide LedgerOk, Grows, Vouched, AllFiled, ScanConfirms, LogsRead;
  }

  lemma NextChunkVouched(db: Db, scanned: seq<Chunk>, c: Chunk)
    requires Vouched(db, scanned) && Vouched(db, [c]) && AllFiled(db, scanned) && AllFiled(db, [c])
    ensures Vouched(db, scanned + [c]) && AllFiled(db, scanned + [c])
  {
    var all := scanned + [c];
    assert [c][0] == c;
    forall r, k | 0 <= k < |all| && AwaitingInBlocks(db, Bsc, all[k].from, all[k].to, r)
      ensures InAnswer(all[k].logs, r)
    {
      if k < |scanned| {
        assert all[k] == scanned[k];
      } else {
        assert all[k] == [c][0];
      }
    }
    forall k, j | 0 <= k < |all| && 0 <= j < |all[k].logs| && !all[k].logs[j].removed
      ensures Filed(db, RefOf(all[k].logs[j]))
    {
      if k < |scanned| {
        assert all[k] == scanned[k];
      } else {
        assert all[k] == [c][0];
      }
    }
  }

  lemma NextChunkConfirms(start: Db, before: Db, after: Db, scanned: seq<Chunk>, c: Chunk, line: nat)
    requires LedgerOk(before) && ScanConfirms(start, before, scanned, line) && LogsRead(before, after, c.logs, line)
    ensures ScanConfirms(start, after, scanned + [c], line)
  {
    var all := scanned + [c];
    hide BackedByFinalLog, LedgerOk;
    forall i | IsConfirmed(after, i) && after.invoices[i].network == Bsc && !IsConfirmed(start, i)
      ensures exists k :: 0 <= k < |all| && BackedByFinalLog(after, all[k].logs, line, i)
    {
      if IsConfirmed(before, i) {
        var k :| 0 <= k < |scanned| && BackedByFinalLog(before, scanned[k].logs, line, i);
        BackedStays(before, after, scanned[k].logs, line, i);
        assert all[k] == scanned[k];
      } else {
        assert all[|scanned|] == c;
      }
    }
  }

  /** The last block of the last chunk. */
  function EndOf(scanned: seq<Chunk>, start: nat): int {
    if scanned == [] then start - 1 else scanned[|scanned| - 1].to
  }

  ghost predicate AlwaysAnswers(answers: (nat, nat) -> LogAnswer) {
    forall a: nat, b: nat :: answers(a, b).Logs?
  }

  lemma NothingYet(cursors: map<Network, Cursor>, start: nat, head: nat, span: nat)
    ensures CursorSaved(cursors, cursors, []) && Contiguous([], start, head, span)
    ensures forall answers :: AnsweredBy(answers, [])
  {
  }

  /** Each chunk carries the logs the endpoint answers for its range. */
  ghost predicate AnsweredBy(answers: (nat, nat) -> LogAnswer, read: seq<Chunk>) {
    forall k | 0 <= k < |read| :: answers(read[k].from, read[k].to) == Logs(read[k].logs)
  }

  lemma NextAnswered(answers: (nat, nat) -> LogAnswer, read: seq<Chunk>, c: Chunk)
    requires AnsweredBy(answers, read) && answers(c.from, c.to) == Logs(c.logs)
    ensures AnsweredBy(answers, read + [c])
  {
  }

  /** How a scan from `start` went on from chunk to chunk and why it stopped: after `done` chunks that went well it came
      to the head or to the limit of a tick, or the endpoint does not go back that far, or it failed. It fails only when
      a request does or in the logs of a chunk. */
  predicate Walked(answers: (nat, nat) -> LogAnswer, read: seq<Chunk>, scanned: seq<Chunk>, start: nat, head: nat,
                   span: nat, ok: bool)
    requires span > 0
  {
    var next := EndOf(scanned, start) + 1;
    && ReadOn(scanned, read, ok)
    && (forall k | 0 <= k < |read| :: read[k].to == ChunkEnd(read[k].from, span, head) <= head)
    && (read != [] ==> read[0].from == start)
    && (|read| > |scanned| ==> read[|scanned|].from == next)
    && (|read| == |scanned| ==>
          if ok then next > head || |scanned| == MAX_CHUNKS_PER_TICK
                     || (next >= 0 && answers(next, ChunkEnd(next, span, head)).RangeTooDeep?)
          else 0 <= next <= head && answers(next, ChunkEnd(next, span, head)).CallFailed?)
  }

  /** The chunks of a scan so far, all gone well. */
  predicate WalkedSoFar(scanned: seq<Chunk>, start: nat, head: nat, span: nat)
    requires span > 0
  {
    && (scanned != [] ==> scanned[0].from == start)
    && (forall k | 0 <= k < |scanned| ::
          scanned[k].to == ChunkEnd(scanned[k].from, span, head) <= head && scanned[k].to <= EndOf(scanned, start))
  }

  lemma WalkedNext(scanned: seq<Chunk>, start: nat, head: nat, span: nat, c: Chunk)
    requires span > 0 && WalkedSoFar(scanned, start, head, span)
    requires c.from == EndOf(scanned, start) + 1 && c.from <= c.to == ChunkEnd(c.from, span, head) <= head
    ensures WalkedSoFar(scanned + [c], start, head, span)
    ensures forall answers :: Walked(answers, scanned + [c], scanned, start, head, span, false)
  {
    hide ChunkEnd;
  }

  lemma WalkStops(answers: (nat, nat) -> LogAnswer, scanned: seq<Chunk>, start: nat, head: nat, span: nat, ok: bool)
    requires span > 0 && WalkedSoFar(scanned, start, head, span)
    requires var next := EndOf(scanned, start) + 1;
             if ok then next > head || |scanned| == MAX_CHUNKS_PER_TICK
                        || (next >= 0 && answers(next, ChunkEnd(next, span, head)).RangeTooDeep?)
             else 0 <= next <= head && answers(next, ChunkEnd(next, span, head)).CallFailed?
    ensures Walked(answers, scanned, scanned, start, head, span, ok)
  {
    hide ChunkEnd;
  }

  /** When the endpoint answers every request, a scan can only fail in the logs of a chunk. */
  lemma FailsInItsLogs(answers: (nat, nat) -> LogAnswer, read: seq<Chunk>, scanned: seq<Chunk>, start: nat, head: nat,
                       span: nat, ok: bool)
    requires span > 0 && Walked(answers, read, scanned, start, head, span, ok) && AlwaysAnswers(answers)
    ensures if ok then read == scanned else |read| == |scanned| + 1
  {
  }

  lemma ExtendContiguous(scanned: seq<Chunk>, start: nat, head: nat, span: nat, c: Chunk)
    requires Contiguous(scanned, start, head, span) && c.from == EndOf(scanned, start) + 1
    requires c.from <= c.to <= head && c.to - c.from + 1 <= span
    ensures Contiguous(scanned + [c], start, head, span)
  {
  }

  // ------------------------------------------------------------------ settling

  function LastBlock(cursors: map<Network, Cursor>): nat {
    if Bsc in cursors then cursors[Bsc].lastBlock else 0
  }

  datatype FinalizedAnswer = FinalizedAt(block: nat) | TagUnsupported | FinalizedFailed

  /** Nothing is configured to watch for. */
  predicate NoAssets(db: Db) {
    !exists a | a in db.assets :: db.assets[a].network == Bsc && db.assets[a].enabled
  }

  lemma NothingToWatchIff(db: Db)
    ensures NoAssets(db) <==>
              forall a | a in db.assets :: db.assets[a].network != Bsc || !db.assets[a].enabled
  {
  }

  /** A payment the settle pass promotes. */
  function Due(line: nat): Payment -> bool {
    (p: Payment) => p.block.Some? && 0 < p.block.value <= line
  }

  lemma SavedIsTickCursor(found: map<Network, Cursor>, after: map<Network, Cursor>, scanned: seq<Chunk>, head: Block,
                          depth: nat, span: nat)
    requires span > 0 && head + span < UINT64 && CursorSaved(found, after, scanned)
    requires var start := ScanStart(LastBlock(found), head, depth);
             Contiguous(scanned, start, head, span)
             && EndOf(scanned, start) == WalkTo(start, span, head, MAX_CHUNKS_PER_TICK)
    ensures LastBlock(after) == TickCursor(LastBlock(found), head, depth, span)
  {
    var start := ScanStart(LastBlock(found), head, depth);
    WalkStep(start, span, head, MAX_CHUNKS_PER_TICK);
    if start <= head {
      WalkCovers(start, span, head, MAX_CHUNKS_PER_TICK);
      assert WalkTo(start, span, head, MAX_CHUNKS_PER_TICK) >= start;
      assert scanned != [];
    } else {
      assert scanned == [];
    }
  }

  /** The scan covered the stored block of every waiting payment the settle pass may promote. */
  ghost predicate Covers(db: Db, scanned: seq<Chunk>, line: nat) {
    forall r | Awaiting(db, Bsc, r) && db.payments[r].block.Some? && 0 < db.payments[r].block.value <= line ::
      exists k :: 0 <= k < |scanned| && scanned[k].from <= db.payments[r].block.value <= scanned[k].to
  }

  /** The invoice's transfer is in the logs just read; it is final by its log, or by the block it was recorded at. */
  ghost predicate ConfirmedOnSight(db: Db, logs: seq<Log>, line: nat, i: InvoiceId) {
    || BackedByFinalLog(db, logs, line, i)
    || exists k :: 0 <= k < |logs| && RefOf(logs[k]) in db.payments && RecordedFor(db.payments[RefOf(logs[k])], line, i)
  }

  predicate RecordedFor(p: Payment, line: nat, i: InvoiceId) {
    p.invoice == Some(i) && p.block.Some? && p.block.value <= line
  }

  ghost predicate TickConfirms(before: Db, after: Db, scanned: seq<Chunk>, line: nat) {
    forall i | IsConfirmed(after, i) && after.invoices[i].network == Bsc && !IsConfirmed(before, i) ::
      exists k :: 0 <= k < |scanned| && ConfirmedOnSight(after, scanned[k].logs, line, i)
  }

  lemma NothingConfirmed(db: Db, scanned: seq<Chunk>, line: nat)
    ensures TickConfirms(db, db, scanned, line)
  {
  }

  lemma TickIsConfirmed(start: Db, mid: Db, after: Db, scanned: seq<Chunk>, line: nat)
    requires Scanned(start, mid, scanned) && ScanConfirms(start, mid, scanned, line) && Covers(mid, scanned, line)
    requires Grows(mid, after) && SettledOnly(Bsc, mid, after, Due(line))
    ensures TickConfirms(start, after, scanned, line)
  {
    forall i | IsConfirmed(after, i) && after.invoices[i].network == Bsc && !IsConfirmed(start, i)
      ensures exists k :: 0 <= k < |scanned| && ConfirmedOnSight(after, scanned[k].logs, line, i)
    {
      if IsConfirmed(mid, i) {
        ConfirmedInScan(start, mid, after, scanned, line, i);
      } else {
        ConfirmedInSettle(mid, after, scanned, line, i);
      }
    }
  }

  /** The log pays the invoice: it backs it, or its recorded payment names it. */
  predicate LogFor(db: Db, log: Log, i: InvoiceId) {
    || (log.value.Some? && Backs(db, ObservedOf(log, 0, 0), i))
    || (RefOf(log) in db.payments && db.payments[RefOf(log)].invoice == Some(i))
  }

  ghost predicate FinalLogFor(db: Db, logs: seq<Log>, line: nat, i: InvoiceId) {
    exists k :: 0 <= k < |logs| && LogFor(db, logs[k], i) && logs[k].block <= line
  }

  /** No recorded transfer has moved to another block. */
  ghost predicate BlocksFixed(db: Db, scanned: seq<Chunk>) {
    forall k, j | 0 <= k < |scanned| && 0 <= j < |scanned[k].logs| && RefOf(scanned[k].logs[j]) in db.payments ::
      db.payments[RefOf(scanned[k].logs[j])].block == StoredBlock(scanned[k].logs[j].block)
  }

  /** If no transfer ever changes its block, whatever a tick confirms has its log, just read, at or below the finality
      line. */
  lemma ConfirmedBlocksAreFinal(before: Db, after: Db, scanned: seq<Chunk>, line: nat, i: InvoiceId)
    requires TickConfirms(before, after, scanned, line) && BlocksFixed(after, scanned)
    requires IsConfirmed(after, i) && after.invoices[i].network == Bsc && !IsConfirmed(before, i)
    ensures exists k :: 0 <= k < |scanned| && FinalLogFor(after, scanned[k].logs, line, i)
  {
    var k :| 0 <= k < |scanned| && ConfirmedOnSight(after, scanned[k].logs, line, i);
    var logs := scanned[k].logs;
    if BackedByFinalLog(after, logs, line, i) {
      var j :|
        0 <= j < |logs| && logs[j].value.Some? && Backs(after, ObservedOf(logs[j], 0, 0), i) && logs[j].block <= line;
      assert LogFor(after, logs[j], i);
    } else {
      var j :|
        0 <= j < |logs| && RefOf(logs[j]) in after.payments && RecordedFor(after.payments[RefOf(logs[j])], line, i);
      assert LogFor(after, logs[j], i);
    }
    assert FinalLogFor(after, logs, line, i);
  }

  lemma ConfirmedInScan(start: Db, mid: Db, after: Db, scanned: seq<Chunk>, line: nat, i: InvoiceId)
    requires LedgerOk(mid) && ScanConfirms(start, mid, scanned, line) && Grows(mid, after)
    requires IsConfirmed(mid, i) && mid.invoices[i].network == Bsc && !IsConfirmed(start, i)
    ensures exists k :: 0 <= k < |scanned| && ConfirmedOnSight(after, scanned[k].logs, line, i)
  {
    hide BackedByFinalLog, LedgerOk, Grows;
    var k :| 0 <= k < |scanned| && BackedByFinalLog(mid, scanned[k].logs, line, i);
    BackedStays(mid, after, scanned[k].logs, line, i);
    assert ConfirmedOnSight(after, scanned[k].logs, line, i);
  }

  lemma ConfirmedInSettle(mid: Db, after: Db, scanned: seq<Chunk>, line: nat, i: InvoiceId)
    requires Vouched(mid, scanned) && Covers(mid, scanned, line) && SettledOnly(Bsc, mid, after, Due(line))
    requires IsConfirmed(after, i) && after.invoices[i].network == Bsc && !IsConfirmed(mid, i)
    ensures exists k :: 0 <= k < |scanned| && ConfirmedOnSight(after, scanned[k].logs, line, i)
  {
    var r :| r in mid.payments && SettledBy(Bsc, mid, r, Due(line), i);
    var k :| 0 <= k < |scanned| && scanned[k].from <= mid.payments[r].block.value <= scanned[k].to;
    assert AwaitingInBlocks(mid, Bsc, scanned[k].from, scanned[k].to, r);
    var logs := scanned[k].logs;
    var j :| 0 <= j < |logs| && RefOf(logs[j]) == r;
    assert RecordedFor(after.payments[RefOf(logs[j])], line, i);
    assert ConfirmedOnSight(after, logs, line, i);
  }

  class Watcher {
    const service: Service
    const store: Store
    const span: nat
    const depth: nat
    const confirmations: nat
    const useFinalizedTag: bool
    var rewound: bool

    ghost predicate Valid()
      reads this
    {
      service.store == store && span > 0
    }

    constructor (service: Service, span: nat, depth: nat, confirmations: nat, useFinalizedTag: bool)
      requires span > 0
      ensures Valid() && !rewound && this.service == service && this.store == service.store
      ensures this.span == span && this.depth == depth && this.confirmations == confirmations
      ensures this.useFinalizedTag == useFinalizedTag
    {
      this.service, this.store := service, service.store;
      this.span, this.depth, this.confirmations, this.useFinalizedTag := span, depth, confirmations, useFinalizedTag;
      rewound := false;
    }

    /** Backs the cursor up once per process. A rewind that fails is not tried again: the process counts it as done. */
    method RewindOnce(fails: bool) returns (stored: bool)
      requires Valid()
      modifies this`rewound, store`cursors
      ensures rewound
      ensures stored <==> old(rewound) || depth == 0 || !fails
      ensures store.cursors ==
                if old(rewound) || depth == 0 || fails || Bsc !in old(store.cursors) then old(store.cursors)
                else old(store.cursors)[Bsc := old(store.cursors)[Bsc].(
                       lastBlock := Max(0, old(store.cursors)[Bsc].lastBlock - depth))]
    {
      if rewound {
        return true;
      }
      rewound := true;
      if depth > 0 {
        if fails {
          return false;
        }
        store.RewindCursor(Bsc, depth);
      }
      return true;
    }

    /** Others act between two statements of this watcher. */
    method Pause(script: seq<Move>, ghost logs: seq<Log>, ghost line: nat)
      requires Valid() && LedgerOk(store.View())
      modifies store
      ensures LogsRead(old(store.View()), store.View(), logs, line)
      ensures store.View() == RunOutside(service.cfg, old(store.View()), Bsc, script)
      ensures store.cursors == old(store.cursors)
    {
      store.Interfere(service.cfg, Bsc, script);
      QuietOutside(service.cfg, old(store.View()), Bsc, script);
      QuietRead(old(store.View()), store.View(), logs, line);
    }

    /** One log, handed to the matching service. */
    method ApplyLog(logs: seq<Log>, k: nat, line: nat, around: Interlude) returns (ok: bool)
      requires Valid() && LedgerOk(store.View()) && k < |logs|
      modifies store
      ensures LedgerOk(store.View())
      ensures LogsRead(old(store.View()), store.View(), logs, line)
      ensures ok && !logs[k].removed ==> Filed(store.View(), RefOf(logs[k]))
      ensures LogStep(service.cfg, old(store.View()), store.View(), logs[k], line, around, ok)
      ensures store.cursors == old(store.cursors)
    {
      hide LogsRead, LedgerOk, OwnStep, Finish, RunOutside, LookupsOk, Filed, RevokeTx, OnlyRevoked;
      var l := logs[k];
      Pause(around.before, logs, line);
      ghost var paused := store.View();
      ReadKeepsLedger(old(store.View()), paused, logs, line);
      if l.removed {
        var gone := service.Revoke(RefOf(l), around.ev);
        RevokeStep(service.cfg, paused, RefOf(l), around.ev);
        StepRevoked(paused, store.View());
        RevokedIsRead(paused, store.View(), logs, line);
        LogsReadTransitive(old(store.View()), paused, store.View(), logs, line);
        return gone.Ok?;
      }
      if l.value.None? {
        return false;
      }
      ghost var x := ObservedOf(l, line, store.now);
      LedgerIsLinked(paused);
      var verdict, found := service.Apply(ObservedOf(l, line, store.now), around.during, around.ev);
      ApplyStep(service.cfg, paused, x, found, around.during, around.ev);
      LogRead(paused, store.View(), logs, line, k, x.blockTime);
      LogsReadTransitive(old(store.View()), paused, store.View(), logs, line);
      ReadKeepsLedger(paused, store.View(), logs, line);
      ok := verdict.Ok?;
      assert AnsweredAs(service.cfg, paused, store.View(), x, found, around.during, around.ev, ok);
      assert AppliedAs(service.cfg, old(store.View()), store.View(), x, around.before, around.during, around.ev, ok);
    }

    /** Hands one chunk's logs to the matching service; stops at the first error. */
    method ApplyLogs(logs: seq<Log>, line: nat, env: nat -> Interlude)
      returns (ok: bool, discovered: nat, revoked: nat, ghost trail: seq<Db>)
      requires Valid() && LedgerOk(store.View())
      modifies store
      ensures LogTrail(service.cfg, logs, line, env, trail, ok)
      ensures trail != [] && trail[0] == old(store.View()) && trail[|trail| - 1] == store.View()
      ensures LedgerOk(store.View())
      ensures LogsRead(old(store.View()), store.View(), logs, line)
      ensures ok ==> discovered == Transfers(logs) && discovered + revoked == |logs|
      ensures ok ==> forall k | 0 <= k < |logs| && !logs[k].removed :: Filed(store.View(), RefOf(logs[k]))
      ensures store.cursors == old(store.cursors)
    {
      hide LogsRead, LedgerOk, Filed, LogStep;
      discovered, revoked, trail := 0, 0, [store.View()];
      ItselfRead(store.View(), logs, line);
      var done := 0;
      while done < |logs|
        invariant 0 <= done <= |logs| && discovered == Transfers(logs[..done]) && discovered + revoked == done
        invariant LedgerOk(store.View())
        invariant LogsRead(old(store.View()), store.View(), logs, line)
        invariant |trail| == done + 1 && trail[0] == old(store.View()) && trail[done] == store.View()
        invariant forall k: nat | k < done :: LogStep(service.cfg, trail[k], trail[k + 1], logs[k], line, env(k), true)
        invariant forall k | 0 <= k < done && !logs[k].removed :: Filed(store.View(), RefOf(logs[k]))
        invariant store.cursors == old(store.cursors)
      {
        ghost var before := store.View();
        var applied := ApplyLog(logs, done, line, env(done));
        LogsReadTransitive(old(store.View()), before, store.View(), logs, line);
        forall k | 0 <= k < done && !logs[k].removed ensures Filed(store.View(), RefOf(logs[k])) {
          FiledStays(before, store.View(), logs, line, RefOf(logs[k]));
        }
        LogTrailGoesOn(service.cfg, logs, line, env, trail, store.View(), applied);
        trail := trail + [store.View()];
        if !applied {
          return false, discovered, revoked, trail;
        }
        if logs[done].removed {
          revoked := revoked + 1;
        } else {
          discovered := discovered + 1;
        }
        assert logs[..done + 1][..done] == logs[..done];
        done := done + 1;
      }
      assert logs[..done] == logs;
      ok := true;
    }

    /** Withdraws one payment, after whatever others do meanwhile. */
    method RevokeOne(r: Ref, line: nat, pause: Interlude)
      requires Valid() && LedgerOk(store.View()) && r in store.payments && r.network == Bsc
      modifies store
      ensures LedgerOk(store.View()) && OnlyRevoked(old(store.View()), store.View())
      ensures r in store.payments && !IsLive(store.payments[r])
      ensures RevokedAs(service.cfg, old(store.View()), store.View(), r, pause)
      ensures store.cursors == old(store.cursors)
    {
      hide LedgerOk, OnlyRevoked, RunOutside, RevokeTx, OwnStep, Grows, OnlyFreshAwait, ConfirmedBy;
      ghost var before := store.View();
      Pause(pause.before, [], line);
      ghost var paused := store.View();
      QuietOutside(service.cfg, before, Bsc, pause.before);
      QuietlyRevoked(before, paused);
      LedgerIsLinked(paused);
      PaymentStays(before, paused, r);
      var verdict := service.Revoke(r, pause.ev);
      RevokeStep(service.cfg, paused, r, pause.ev);
      StepRevoked(paused, store.View());
      RevokedTransitive(before, paused, store.View());
      RevokeNeverFails(service.cfg, paused, r, pause.ev);
      assert verdict.Ok?;
    }

    /** Hands back the invoice of every waiting payment stored in the chunk whose log has vanished from the answer, and
        of no other: a live payment stays live if and only if it is not one of these. */
    method RevokeMissing(c: Chunk, line: nat, env: nat -> Interlude)
      returns (revoked: nat, ghost gone: seq<Ref>, ghost back: seq<Db>)
      requires Valid() && LedgerOk(store.View())
      modifies store
      ensures LedgerOk(store.View())
      ensures OnlyRevoked(old(store.View()), store.View())
      ensures forall r | AwaitingInBlocks(store.View(), Bsc, c.from, c.to, r) :: InAnswer(c.logs, r)
      ensures forall r: Ref | r.network == Bsc && r in old(store.payments) && IsLive(old(store.payments)[r]) ::
                r in store.payments && (IsLive(store.payments[r]) <==> !Missing(old(store.View()), c, r))
      ensures RevokeTrail(service.cfg, c, env, gone, back)
      ensures back[0] == old(store.View()) && back[|back| - 1] == store.View() && revoked == |gone|
      ensures store.cursors == old(store.cursors)
    {
      hide LedgerOk, OnlyRevoked, IsLive, RevokedAs;
      ghost var start := store.View();
      NothingRevoked(start);
      LedgerIsLinked(start);
      var live := store.ListLiveInBlockRange(Bsc, c.from, c.to);
      assert forall j | 0 <= j < |live| :: live[j].ref in start.payments && live[j].ref.network == Bsc;
      hide AwaitingInBlocks, InAnswer, GoneSoFar, RevokeTrail, Missing, BackSoFar;
      revoked, gone, back := 0, [], [start];
      NothingBack(service.cfg, env, start);
      NextGone(live, c, [], 0);
      var k := 0;
      while k < |live|
        invariant 0 <= k <= |live|
        invariant LedgerOk(store.View())
        invariant OnlyRevoked(start, store.View())
        invariant BackSoFar(service.cfg, env, gone, back, start, store.View()) && revoked == |gone|
        invariant GoneSoFar(live, c, gone, k)
        invariant store.cursors == old(store.cursors)
      {
        if !InAnswer(c.logs, live[k].ref) {
          ghost var before := store.View();
          PaymentStays(start, before, live[k].ref);
          RevokeOne(live[k].ref, line, env(revoked));
          RevokedTransitive(start, before, store.View());
          NextGone(live, c, gone, k);
          NextBack(service.cfg, env, gone, back, start, before, store.View(), live[k].ref);
          gone, back := gone + [live[k].ref], back + [store.View()];
          revoked := revoked + 1;
        } else {
          NextGone(live, c, gone, k);
        }
        k := k + 1;
      }
      AllGone(start, live, c, gone);
      RevokesListed(service.cfg, c, env, gone, back, start, store.View());
      BackWithdraws(service.cfg, c, env, gone, back);
      NoneMissing(start, store.View(), c);
    }

    /** One chunk after its logs were read: apply them, then revoke what is missing. */
    method DigestChunk(c: Chunk, line: nat, env: nat -> Interlude, again: nat -> Interlude)
      returns (ok: bool, discovered: nat, revoked: nat, ghost p: Passage)
      requires Valid() && LedgerOk(store.View())
      modifies store
      ensures Passed(service.cfg, c, line, env, again, p, ok) && p.begin == old(store.View()) && p.end == store.View()
      ensures LedgerOk(store.View())
      ensures LogsRead(old(store.View()), store.View(), c.logs, line)
      ensures ok ==> AllFiled(store.View(), [c])
      ensures ok ==> Vouched(store.View(), [c])
      ensures ok ==> discovered == Transfers(c.logs)
      ensures store.cursors == old(store.cursors)
    {
      hide LogsRead, LedgerOk, OnlyRevoked, LogTrail, RevokeTrail;
      ghost var trail;
      ok, discovered, revoked, trail := ApplyLogs(c.logs, line, env);
      if !ok {
        p := Passage(old(store.View()), trail, [], [], store.View());
        assert trail != [] && trail[0] == p.begin;
        return;
      }
      ghost var applied := store.View();
      ghost var gone, back;
      var missing;
      missing, gone, back := RevokeMissing(c, line, again);
      revoked := revoked + missing;
      p := Passage(old(store.View()), trail, gone, back, store.View());
      RevokedIsRead(applied, store.View(), c.logs, line);
      LogsReadTransitive(old(store.View()), applied, store.View(), c.logs, line);
      forall j | 0 <= j < |c.logs| && !c.logs[j].removed ensures Filed(store.View(), RefOf(c.logs[j])) {
        FiledStays(applied, store.View(), c.logs, line, RefOf(c.logs[j]));
      }
    }

    /** One chunk of a scan: digest it, then save the cursor. */
    method ScanChunk(c: Chunk, line: nat, env: nat -> Interlude, again: nat -> Interlude, ghost start: Db,
                     ghost cursors: map<Network, Cursor>, ghost scanned: seq<Chunk>)
      returns (ok: bool, discovered: nat, revoked: nat, ghost p: Passage)
      requires Valid() && LedgerOk(store.View()) && LogsInside(c)
      requires Scanned(start, store.View(), scanned) && ScanConfirms(start, store.View(), scanned, line)
      requires CursorSaved(cursors, store.cursors, scanned)
      requires forall k | 0 <= k < |scanned| :: scanned[k].to < c.from <= c.to
      modifies store
      ensures LedgerOk(store.View())
      ensures Scanned(start, store.View(), if ok then scanned + [c] else scanned)
      ensures ScanConfirms(start, store.View(), scanned + [c], line)
      ensures CursorSaved(cursors, store.cursors, if ok then scanned + [c] else scanned)
      ensures Passed(service.cfg, c, line, env, again, p, ok) && p.begin == old(store.View()) && p.end == store.View()
    {
      hide LedgerOk, LogsRead, AllFiled, Vouched, Scanned, ScanConfirms, LogsInside, Passed;
      ghost var before := store.View();
      ok, discovered, revoked, p := DigestChunk(c, line, env, again);
      NextChunkConfirms(start, before, store.View(), scanned, c, line);
      if ok {
        NextChunk(start, before, store.View(), scanned, c, line);
        store.SaveCursor(Bsc, c.to, ZERO_TIME);
      } else {
        PartialChunk(start, before, store.View(), scanned, c, line);
      }
    }

    /** Walks from the cursor towards the head in chunks, saving the cursor after each. `scanned` is the list of
        completed chunks, `read` these and the one, if any, whose logs were read before the scan failed in it; `story`
        is what became of each. */
    method Scan(head: Block, line: nat, answers: (nat, nat) -> LogAnswer, env: (nat, nat, bool) -> Interlude)
      returns (ok: bool, toBlock: nat, discovered: nat, revoked: nat, scanned: seq<Chunk>, ghost read: seq<Chunk>,
               ghost story: seq<Passage>)
      requires Valid() && LedgerOk(store.View())
      requires Exact(answers) && head + span < UINT64
      modifies store
      ensures LedgerOk(store.View())
      ensures Scanned(old(store.View()), store.View(), scanned)
      ensures ScanConfirms(old(store.View()), store.View(), read, line)
      ensures Story(service.cfg, read, |scanned|, line, env, story, old(store.View()), store.View())
      ensures Walked(answers, read, scanned, ScanStart(LastBlock(old(store.cursors)), head, depth), head, span, ok)
      ensures Contiguous(scanned, ScanStart(LastBlock(old(store.cursors)), head, depth), head, span)
      ensures AnsweredBy(answers, read)
      ensures Withdraws(old(store.View()), store.View(), scanned)
      ensures CursorSaved(old(store.cursors), store.cursors, scanned)
      ensures ok && AlwaysAnswers(answers) ==>
                EndOf(scanned, ScanStart(LastBlock(old(store.cursors)), head, depth))
                == WalkTo(ScanStart(LastBlock(old(store.cursors)), head, depth), span, head, MAX_CHUNKS_PER_TICK)
    {
      hide LedgerOk, Exact, Scanned, ScanConfirms, CursorSaved, Contiguous, WalkTo, ScanStart, ChunkEnd, LogsInside,
           Passed, Story, AnsweredBy, LogsPart, AgainPart, Walked, Withdraws;
      ok, toBlock, discovered, revoked, scanned, read, story := true, 0, 0, 0, [], [], [];
      var from := ScanStart(store.GetCursor(Bsc).lastBlock, head, depth);
      ghost var start := from;
      NothingScanned(store.View(), line);
      NothingYet(store.cursors, start, head, span);
      StoryBegins(service.cfg, line, env, store.View());
      while |scanned| < MAX_CHUNKS_PER_TICK && from <= head
        invariant LedgerOk(store.View())
        invariant Scanned(old(store.View()), store.View(), scanned)
        invariant ScanConfirms(old(store.View()), store.View(), scanned, line)
        invariant Contiguous(scanned, start, head, span)
        invariant WalkedSoFar(scanned, start, head, span)
        invariant AnsweredBy(answers, scanned)
        invariant CursorSaved(old(store.cursors), store.cursors, scanned)
        invariant |scanned| <= MAX_CHUNKS_PER_TICK && ok && read == scanned
        invariant Story(service.cfg, scanned, |scanned|, line, env, story, old(store.View()), store.View())
        invariant from == EndOf(scanned, start) + 1
        invariant WalkTo(start, span, head, MAX_CHUNKS_PER_TICK) ==
                  WalkTo(from, span, head, MAX_CHUNKS_PER_TICK - |scanned|)
        decreases MAX_CHUNKS_PER_TICK - |scanned|
      {
        ChunkAcceptedIff(from, span, head);
        WalkStep(from, span, head, MAX_CHUNKS_PER_TICK - |scanned|);
        var to := ChunkEnd(from, span, head);
        assert RangeAccepted(from, to, span) && to <= head;
        var answer := answers(from, to);
        if answer.RangeTooDeep? || answer.CallFailed? {
          ok := answer.RangeTooDeep?;
          StoryWithdraws(service.cfg, answers, read, scanned, line, env, story, old(store.View()), store.View());
          WalkStops(answers, scanned, start, head, span, ok);
          return;
        }
        var n := |scanned|;
        var c := Chunk(from, to, answer.logs);
        ExactChunk(answers, c);
        NextAnswered(answers, scanned, c);
        WalkedNext(scanned, start, head, span, c);
        read := scanned + [c];
        ghost var before := store.View();
        var digested, d, r;
        ghost var p;
        digested, d, r, p := ScanChunk(c, line, LogsPart(env, n), AgainPart(env, n), old(store.View()),
                                       old(store.cursors), scanned);
        StoryGoesOn(service.cfg, scanned, line, env, story, old(store.View()), before, c, p, digested);
        story := story + [p];
        discovered, revoked := discovered + d, revoked + r;
        if !digested {
          ok := false;
          StoryWithdraws(service.cfg, answers, read, scanned, line, env, story, old(store.View()), store.View());
          return;
        }
        ExtendContiguous(scanned, start, head, span, c);
        scanned := scanned + [c];
        toBlock := to;
        from := to + 1;
      }
      WalkStep(from, span, head, MAX_CHUNKS_PER_TICK - |scanned|);
      WalkStops(answers, scanned, start, head, span, ok);
      StoryWithdraws(service.cfg, answers, read, scanned, line, env, story, old(store.View()), store.View());
    }

    /** The highest block considered irreversible: the chain's own tag, or counted confirmations where the endpoint
        does not serve it. */
    function Line(head: nat, finalized: FinalizedAnswer): Option<nat> {
      if useFinalizedTag && finalized.FinalizedAt? then Some(finalized.block)
      else if useFinalizedTag && finalized.FinalizedFailed? then None
      else Some(FinalityLine(head, confirmations))
    }

    /** What the endpoint's answers make irreversible: a block at or below its finalized one where the tag is asked for
        and served, and otherwise a block that has `confirmations` more on top of it. */
    predicate Final(b: int, head: nat, finalized: FinalizedAnswer) {
      b <= 0 || if useFinalizedTag && finalized.FinalizedAt? then b <= finalized.block else b + confirmations <= head
    }

    /** Where finality ends: by the tag it is the finalized block itself; by counting, whatever block has enough on top
        of it is at or below the line, and no other. */
    ghost predicate EndsFinality(line: nat, head: nat, finalized: FinalizedAnswer) {
      && (useFinalizedTag && finalized.FinalizedAt? ==> line == finalized.block)
      && (!useFinalizedTag || finalized.TagUnsupported? ==>
            forall b: nat | b > 0 :: b <= line <==> Buried(b, head, confirmations))
    }

    /** That is the line a tick works with, and there is none only when the tag's request failed. */
    lemma LineIsFinality(head: nat, finalized: FinalizedAnswer)
      ensures Line(head, finalized).None? <==> useFinalizedTag && finalized.FinalizedFailed?
      ensures Line(head, finalized).Some? ==>
                var line := Line(head, finalized).value;
                EndsFinality(line, head, finalized) && forall b: int :: Final(b, head, finalized) <==> b <= line
    {
      if Line(head, finalized).Some? {
        var line := Line(head, finalized).value;
        forall b: nat | b > 0 && !(useFinalizedTag && finalized.FinalizedAt?)
          ensures b <= line <==> Buried(b, head, confirmations)
        {
          FinalIffBuried(b, head, confirmations);
        }
        forall b: int ensures Final(b, head, finalized) <==> b <= line {
          if b > 0 {
            FinalIffBuried(b, head, confirmations);
          }
        }
      }
    }

    /** A log of the invoice, irreversible by the block it was read in or by the block its payment was recorded at. */
    predicate PaysFinally(db: Db, log: Log, i: InvoiceId, head: nat, finalized: FinalizedAnswer) {
      || (log.value.Some? && Backs(db, ObservedOf(log, 0, 0), i) && Final(log.block, head, finalized))
      || (&& RefOf(log) in db.payments && db.payments[RefOf(log)].invoice == Some(i)
          && db.payments[RefOf(log)].block.Some? && Final(db.payments[RefOf(log)].block.value, head, finalized))
    }

    /** Every invoice of the network newly confirmed has such a log among those read. */
    ghost predicate ConfirmsFinalOnly(before: Db, after: Db, read: seq<Chunk>, head: nat, finalized: FinalizedAnswer) {
      forall i | i in after.invoices && after.invoices[i].status == Confirmed && after.invoices[i].network == Bsc
                 && !(i in before.invoices && before.invoices[i].status == Confirmed) ::
        exists k, j ::
          0 <= k < |read| && 0 <= j < |read[k].logs| && PaysFinally(after, read[k].logs[j], i, head, finalized)
    }

    lemma TickConfirmsFinalOnly(before: Db, after: Db, read: seq<Chunk>, line: nat, head: nat,
                                finalized: FinalizedAnswer)
      requires TickConfirms(before, after, read, line) && Line(head, finalized) == Some(line)
      ensures ConfirmsFinalOnly(before, after, read, head, finalized)
    {
      LineIsFinality(head, finalized);
      hide Final, Line, Backs;
      forall i | IsConfirmed(after, i) && after.invoices[i].network == Bsc && !IsConfirmed(before, i)
        ensures exists k, j ::
          0 <= k < |read| && 0 <= j < |read[k].logs| && PaysFinally(after, read[k].logs[j], i, head, finalized)
      {
        var k :| 0 <= k < |read| && ConfirmedOnSight(after, read[k].logs, line, i);
        var logs := read[k].logs;
        if BackedByFinalLog(after, logs, line, i) {
          var j :| 0 <= j < |logs| && logs[j].value.Some? && Backs(after, ObservedOf(logs[j], 0, 0), i)
                   && logs[j].block <= line;
          assert Final(logs[j].block, head, finalized);
          assert PaysFinally(after, read[k].logs[j], i, head, finalized);
        } else {
          var j :|
            0 <= j < |logs| && RefOf(logs[j]) in after.payments && RecordedFor(after.payments[RefOf(logs[j])], line, i);
          assert Final(after.payments[RefOf(logs[j])].block.value, head, finalized);
          assert PaysFinally(after, read[k].logs[j], i, head, finalized);
        }
      }
    }

    /** Of the payments waiting, the pass confirms those listed whose stored block is known and irreversible. */
    ghost predicate SettlesFinal(before: Db, after: Db, listed: seq<Payment>, head: nat, finalized: FinalizedAnswer) {
      forall r | r in Waiting(before, Bsc) ::
        IsConfirmed(after, before.payments[r].invoice.value) <==>
          && before.payments[r] in listed && before.payments[r].block.Some?
          && before.payments[r].block.value > 0 && Final(before.payments[r].block.value, head, finalized)
    }

    lemma PassSettlesFinal(before: Db, after: Db, listed: seq<Payment>, line: nat, head: nat,
                           finalized: FinalizedAnswer)
      requires ConfirmsExactly(Bsc, before, after, Due(line), listed) && Line(head, finalized) == Some(line)
      ensures SettlesFinal(before, after, listed, head, finalized)
    {
      LineIsFinality(head, finalized);
      hide Final, Line, IsConfirmed, Awaiting;
    }

    /** The cursors as the scan of this tick found them: rewound if this tick was the process's first to get there. */
    function AtScan(wasRewound: bool, isRewound: bool, rewindFails: bool, cursors: map<Network, Cursor>)
      : map<Network, Cursor>
    {
      if wasRewound || !isRewound || depth == 0 || rewindFails || Bsc !in cursors then cursors
      else cursors[Bsc := cursors[Bsc].(lastBlock := Rewound(cursors[Bsc].lastBlock, depth))]
    }

    /** Everything a tick asks for before its scan was answered, and the start-up rewind, if due, was stored. */
    predicate Ready(wasRewound: bool, head: Option<Block>, finalized: FinalizedAnswer, rewindFails: bool) {
      && head.Some? && !(useFinalizedTag && finalized.FinalizedFailed?)
      && (wasRewound || depth == 0 || !rewindFails)
    }

    /** One tick, given the endpoint's answers. `mid` is the database between the scan and the settle pass. Whatever
        becomes of the tick, the invoices it confirms have their transfers in the logs it read, and the payments it
        withdraws were missing from them. What counts as final is decided by the chain's own tag, if it is asked for and
        served, and by counted confirmations otherwise; a tag that cannot be asked for fails the tick. */
    method Execute(head: Option<Block>, finalized: FinalizedAnswer, rewindFails: bool,
                   answers: (nat, nat) -> LogAnswer, env: (nat, nat, bool) -> Interlude)
      returns (ok: bool, scanned: seq<Chunk>, line: nat, ghost mid: Db, ghost read: seq<Chunk>,
               ghost story: seq<Passage>, ghost listed: seq<Payment>)
      requires Valid() && LedgerOk(store.View())
      requires Exact(answers) && (head.Some? ==> head.value + span < UINT64)
      modifies this`rewound, store
      ensures LedgerOk(store.View()) && Grows(mid, store.View())
      ensures Scanned(old(store.View()), mid, scanned) && ReadOn(scanned, read, ok)
      ensures Story(service.cfg, read, |scanned|, line, env, story, old(store.View()), mid)
      ensures (ok ==> Covers(mid, scanned, line)) ==> TickConfirms(old(store.View()), store.View(), read, line)
      ensures Withdraws(old(store.View()), store.View(), scanned)
      ensures !ok ==> store.View() == mid
      ensures ok && !NoAssets(old(store.View())) ==>
                OldestWaiting(mid, Bsc, SETTLE_BATCH, listed)
                && ConfirmsExactly(Bsc, mid, store.View(), Due(line), listed)
      ensures AssetsSeeded(mid, store.View(), LogsPart(env, MAX_CHUNKS_PER_TICK))
      ensures SettledOnly(Bsc, mid, store.View(), Due(line))
      ensures NoAssets(old(store.View())) ==> ok && store.View() == mid && read == []
      ensures !NoAssets(old(store.View())) && !Ready(old(rewound), head, finalized, rewindFails) ==> !ok && read == []
      ensures NoAssets(old(store.View())) <==>
                forall a | a in old(store.assets) ::
                  old(store.assets)[a].network != Bsc || !old(store.assets)[a].enabled
      ensures !NoAssets(old(store.View())) && useFinalizedTag && finalized.FinalizedFailed? ==> !ok && read == []
      ensures !NoAssets(old(store.View())) && Ready(old(rewound), head, finalized, rewindFails) ==>
                EndsFinality(line, head.value, finalized)
      ensures head.Some? && (ok ==> Covers(mid, scanned, line)) ==>
                ConfirmsFinalOnly(old(store.View()), store.View(), read, head.value, finalized)
      ensures ok && head.Some? && !NoAssets(old(store.View())) ==>
                && |listed| == Min(500, |Waiting(mid, Bsc)|)
                && SettlesFinal(mid, store.View(), listed, head.value, finalized)
      ensures old(rewound) ==> rewound
      ensures AnsweredBy(answers, read)
      ensures var found := AtScan(old(rewound), rewound, rewindFails, old(store.cursors));
              && CursorSaved(found, store.cursors, scanned)
              && (head.Some? ==> Contiguous(scanned, ScanStart(LastBlock(found), head.value, depth), head.value, span))
              && (ok && head.Some? && AlwaysAnswers(answers) && !NoAssets(old(store.View())) ==>
                    LastBlock(store.cursors) == TickCursor(LastBlock(found), head.value, depth, span))
              && (!NoAssets(old(store.View())) && Ready(old(rewound), head, finalized, rewindFails) ==>
                    && rewound && Line(head.value, finalized) == Some(line)
                    && Walked(answers, read, scanned, ScanStart(LastBlock(found), head.value, depth), head.value, span,
                              ok))
    {
      hide LedgerOk, Grows, Exact, Scanned, ScanConfirms, CursorSaved, WalkTo, ScanStart, TickConfirms, Covers,
           SettledOnly, Vouched, TickCursor, Story, Walked, OldestWaiting, ConfirmsExactly, Contiguous, Withdraws,
           AssetsSeeded, Line, ConfirmsFinalOnly, SettlesFinal, Waiting, EndsFinality, Final, NoAssets, LogsPart;
      ok, scanned, line, mid, read, story, listed := false, [], 0, store.View(), [], [], [];
      NothingScanned(mid, line);
      GrowsItself(mid);
      NothingYet(store.cursors, 0, 0, span);
      NothingConfirmed(mid, read, line);
      NothingSettled(Bsc, mid, Due(line));
      NoChunks(span);
      StoryBegins(service.cfg, line, env, mid);
      NothingWithdrawn(mid);
      AssetsStay(mid, LogsPart(env, MAX_CHUNKS_PER_TICK));
      NothingConfirmedFinally(mid, head, finalized);
      NothingToWatchIff(mid);
      if NoAssets(store.View()) {
        ok := true;
        return;
      }
      if head.None? {
        return;
      }
      LineIsFinality(head.value, finalized);
      if Line(head.value, finalized).None? {
        return;
      }
      line := Line(head.value, finalized).value;
      NothingConfirmed(mid, read, line);
      NothingSettled(Bsc, mid, Due(line));
      StoryBegins(service.cfg, line, env, mid);
      var stored := RewindOnce(rewindFails);
      ghost var found := store.cursors;
      NothingYet(found, 0, 0, span);
      if !stored {
        return;
      }
      ok, scanned, read, story := ScanOnly(head.value, line, answers, env);
      mid := store.View();
      GrowsItself(mid);
      NothingSettled(Bsc, mid, Due(line));
      AssetsStay(mid, LogsPart(env, MAX_CHUNKS_PER_TICK));
      if !ok {
        ScanIsConfirmed(old(store.View()), mid, read, line);
        TickConfirmsFinalOnly(old(store.View()), mid, read, line, head.value, finalized);
        return;
      }
      ghost var list;
      var settled;
      settled, list := SettlePass(service, Bsc, SETTLE_BATCH, Due(line), LogsPart(env, MAX_CHUNKS_PER_TICK));
      listed := list;
      SettledAmong(Bsc, mid, store.View(), Due(line), listed);
      SettledWithdrawsNothing(old(store.View()), mid, store.View(), scanned, Due(line));
      ListedSoMany(mid, listed);
      PassSettlesFinal(mid, store.View(), listed, line, head.value, finalized);
      if Covers(mid, scanned, line) {
        TickIsConfirmed(old(store.View()), mid, store.View(), scanned, line);
        TickConfirmsFinalOnly(old(store.View()), store.View(), read, line, head.value, finalized);
      }
    }

    lemma NothingConfirmedFinally(db: Db, head: Option<Block>, finalized: FinalizedAnswer)
      ensures head.Some? ==> ConfirmsFinalOnly(db, db, [], head.value, finalized)
    {
    }

    lemma ListedSoMany(db: Db, listed: seq<Payment>)
      requires OldestWaiting(db, Bsc, SETTLE_BATCH, listed)
      ensures |listed| == Min(500, |Waiting(db, Bsc)|)
    {
    }

    /** `Scan`, with the counters dropped and the cursor stated in closed form. */
    method ScanOnly(head: Block, line: nat, answers: (nat, nat) -> LogAnswer, env: (nat, nat, bool) -> Interlude)
      returns (ok: bool, scanned: seq<Chunk>, ghost read: seq<Chunk>, ghost story: seq<Passage>)
      requires Valid() && LedgerOk(store.View())
      requires Exact(answers) && head + span < UINT64
      modifies store
      ensures LedgerOk(store.View())
      ensures Scanned(old(store.View()), store.View(), scanned)
      ensures ScanConfirms(old(store.View()), store.View(), read, line)
      ensures Story(service.cfg, read, |scanned|, line, env, story, old(store.View()), store.View())
      ensures Walked(answers, read, scanned, ScanStart(LastBlock(old(store.cursors)), head, depth), head, span, ok)
      ensures Contiguous(scanned, ScanStart(LastBlock(old(store.cursors)), head, depth), head, span)
      ensures AnsweredBy(answers, read) && ReadOn(scanned, read, ok)
      ensures Withdraws(old(store.View()), store.View(), scanned)
      ensures CursorSaved(old(store.cursors), store.cursors, scanned)
      ensures ok && AlwaysAnswers(answers) ==>
                LastBlock(store.cursors) == TickCursor(LastBlock(old(store.cursors)), head, depth, span)
    {
      hide LedgerOk, Exact, Scanned, ScanConfirms, CursorSaved, TickCursor, WalkTo, ScanStart, Contiguous, Story;
      var toBlock, discovered, revoked;
      ok, toBlock, discovered, revoked, scanned, read, story := Scan(head, line, answers, env);
      if ok && AlwaysAnswers(answers) {
        SavedIsTickCursor(old(store.cursors), store.cursors, scanned, head, depth, span);
      }
    }
  }

  lemma NoChunks(span: nat)
    ensures forall start: nat, head: nat :: Contiguous([], start, head, span)
  {
  }

  /** Before the settle pass, what the scan has confirmed it has confirmed on sight. */
  lemma ScanIsConfirmed(start: Db, mid: Db, read: seq<Chunk>, line: nat)
    requires LedgerOk(mid) && ScanConfirms(start, mid, read, line)
    ensures TickConfirms(start, mid, read, line)
  {
    GrowsItself(mid);
    forall i | IsConfirmed(mid, i) && mid.invoices[i].network == Bsc && !IsConfirmed(start, i)
      ensures exists k :: 0 <= k < |read| && ConfirmedOnSight(mid, read[k].logs, line, i)
    {
      ConfirmedInScan(start, mid, mid, read, line, i);
    }
  }
}
