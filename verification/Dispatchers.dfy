/** Several dispatchers on one outbox, each delivering its batch through `Concurrency` slots: a timed state machine
    (`deliver` in internal/usecases/notify/webhook_dispatcher/usecase.go). Time cannot pass while a slot is free and an
    event of the batch waits for one, nor beyond the timeout of a delivery under way. */
module Dispatchers {
  import opened Query
  import opened Outbox
  import Backoff

  /** An event a dispatcher has claimed, with the attempt number the claim gave it. */
  datatype Job = Job(id: EventKey, attempt: nat)

  /** A claimed batch: its jobs in the order they get slots, when each was started, and which are over. */
  datatype Batch = Batch(claimedAt: Time, jobs: seq<Job>, starts: seq<Time>, done: set<nat>)

  /** `claims` counts the claims of every event ever queued, `queuedAt` says when it was, `sent` logs every send,
      `delivered` says when the delivery of an event was last stored. */
  datatype World = World(
    now: Time,
    table: Table,
    batches: map<nat, Batch>,
    claims: map<EventKey, nat>,
    queuedAt: map<EventKey, Time>,
    sent: seq<Job>,
    delivered: map<EventKey, Time>)

  /** `Lost`: the dispatcher could not store the outcome. */
  datatype Outcome = Taken | Refused | Lost

  datatype Label =
    | Insert(id: EventKey)
    | ClaimBatch(d: nat, order: seq<EventKey>)
    | Start(d: nat)
    | Finish(d: nat, k: nat, outcome: Outcome)
    | Crash(d: nat)
    | PruneRows
    | Tick(dt: nat)

  function Initial(now: Time): World {
    World(now, map[], map[], map[], map[], [], map[])
  }

  predicate Sending(b: Batch, k: nat) {
    k < |b.starts| && k !in b.done
  }

  /** Claimed, and not over: waiting for a slot or being sent. */
  predicate InFlight(w: World, d: nat, k: nat) {
    d in w.batches && k < |w.batches[d].jobs| && k !in w.batches[d].done
  }

  function SlotsTaken(b: Batch): nat {
    |set k: nat | k < |b.starts| && k !in b.done|
  }

  predicate SomeWait(b: Batch) {
    |b.starts| < |b.jobs|
  }

  ghost predicate Enabled(c: Backoff.Config, w: World, l: Label) {
    match l
    case Insert(id) => id !in w.claims
    case ClaimBatch(d, order) =>
      && (forall k: nat :: !InFlight(w, d, k))
      && 0 < |order| <= c.batch && NoDuplicates(order)
      && (forall id | id in order :: Claimable(w.table, id, w.now, c.maxAttempts))
    case Start(d) => d in w.batches && SomeWait(w.batches[d]) && SlotsTaken(w.batches[d]) < c.concurrency
    case Finish(d, k, _) => d in w.batches && Sending(w.batches[d], k) && k < |w.batches[d].jobs|
    case Crash(d) => d in w.batches
    case PruneRows => true
    case Tick(dt) =>
      && (forall d | d in w.batches && SomeWait(w.batches[d]) :: SlotsTaken(w.batches[d]) >= c.concurrency)
      && (forall d, k: nat | d in w.batches && Sending(w.batches[d], k) ::
          w.now + dt <= w.batches[d].starts[k] + c.timeout)
  }

  /** What the claim returned: each event with its attempt number. */
  function Jobs(t: Table, order: seq<EventKey>): (jobs: seq<Job>)
    requires forall id | id in order :: id in t
    ensures |jobs| == |order|
    ensures forall k | 0 <= k < |order| :: jobs[k] == Job(order[k], t[order[k]].attempts)
  {
    seq(|order|, k requires 0 <= k < |order| => Job(order[k], t[order[k]].attempts))
  }

  function Claimed(c: Backoff.Config, w: World, d: nat, order: seq<EventKey>): World
    requires forall id | id in order :: id in w.table
  {
    var t := Outbox.Claim(w.table, order, w.now, Lease(c));
    w.(table := t,
       batches := w.batches[d := Batch(w.now, Jobs(t, order), [], {})],
       claims := map id | id in w.claims :: if id in order then w.claims[id] + 1 else w.claims[id])
  }

  function Started(w: World, d: nat): World
    requires d in w.batches && SomeWait(w.batches[d])
  {
    var b := w.batches[d];
    w.(batches := w.batches[d := b.(starts := b.starts + [w.now])], sent := w.sent + [b.jobs[|b.starts|]])
  }

  function Finished(c: Backoff.Config, w: World, d: nat, k: nat, outcome: Outcome): World
    requires d in w.batches && k < |w.batches[d].jobs|
  {
    var b := w.batches[d];
    var job := b.jobs[k];
    var over := w.(batches := w.batches[d := b.(done := b.done + {k})]);
    match outcome
    case Taken =>
      over.(table := Outbox.MarkDelivered(w.table, job.id, w.now),
            delivered := if job.id in w.table then w.delivered[job.id := w.now] else w.delivered)
    case Refused => over.(table := Outbox.MarkFailed(w.table, job.id, w.now, Backoff.Delay(c, job.attempt)))
    case Lost => over
  }

  ghost function Step(c: Backoff.Config, w: World, l: Label): World {
    if !Enabled(c, w, l) then w
    else match l
      case Insert(id) =>
        w.(table := Outbox.Enqueue(w.table, id, w.now),
           claims := w.claims[id := 0],
           queuedAt := w.queuedAt[id := w.now])
      case ClaimBatch(d, order) => Claimed(c, w, d, order)
      case Start(d) => Started(w, d)
      case Finish(d, k, outcome) => Finished(c, w, d, k, outcome)
      case Crash(d) => w.(batches := w.batches - {d})
      case PruneRows => w.(table := Outbox.Prune(w.table, w.now, c.retention, c.maxAttempts))
      case Tick(dt) => w.(now := w.now + dt)
  }

  ghost function Run(c: Backoff.Config, w: World, labels: seq<Label>): World {
    if labels == [] then w else Step(c, Run(c, w, labels[..|labels| - 1]), labels[|labels| - 1])
  }

  // ------------------------------------------------------------------ claims and sends

  /** Bookkeeping of claims and sends. */
  ghost predicate Counted(c: Backoff.Config, w: World) {
    && (forall id | id in w.table :: id in w.claims && w.table[id].attempts == w.claims[id])
    && (forall id | id in w.claims :: w.claims[id] <= c.maxAttempts)
    && (forall d | d in w.batches :: |w.batches[d].starts| <= |w.batches[d].jobs|)
    && (forall d, k, job | HeldAs(w, d, k, job) :: job.id in w.claims && 1 <= job.attempt <= w.claims[job.id])
    && (forall job | job in w.sent :: job.id in w.claims && 1 <= job.attempt <= w.claims[job.id])
  }

  predicate HeldAs(w: World, d: nat, k: nat, job: Job) {
    d in w.batches && k < |w.batches[d].jobs| && job == w.batches[d].jobs[k]
  }

  predicate WaitsAs(w: World, d: nat, k: nat, job: Job) {
    HeldAs(w, d, k, job) && k >= |w.batches[d].starts|
  }

  /** No attempt is sent twice, none that waits has been sent, and none is held at two places. */
  ghost predicate Once(w: World) {
    && NoDuplicates(w.sent)
    && (forall d, k, job :: WaitsAs(w, d, k, job) ==> job !in w.sent)
    && (forall d, k, e, j, job :: HeldAs(w, d, k, job) && HeldAs(w, e, j, job) ==> d == e && k == j)
  }

  lemma ClaimedJobs(c: Backoff.Config, w: World, d: nat, order: seq<EventKey>, e: nat, k: nat, job: Job)
    requires Counted(c, w) && Enabled(c, w, ClaimBatch(d, order)) && HeldAs(Claimed(c, w, d, order), e, k, job)
    ensures job.id in w.claims && 1 <= job.attempt <= Claimed(c, w, d, order).claims[job.id]
    ensures if e == d then k < |order| && job.id == order[k] && job.attempt == w.claims[job.id] + 1
            else HeldAs(w, e, k, job) && job.attempt <= w.claims[job.id]
  {
    if e == d {
      assert order[k] in order;
      assert Claimable(w.table, order[k], w.now, c.maxAttempts);
    } else {
      assert HeldAs(w, e, k, job);
    }
  }

  lemma ClaimKeepsCounted(c: Backoff.Config, w: World, d: nat, order: seq<EventKey>)
    requires Counted(c, w) && Enabled(c, w, ClaimBatch(d, order))
    ensures Counted(c, Claimed(c, w, d, order))
  {
    var next := Claimed(c, w, d, order);
    forall id | id in next.claims ensures next.claims[id] <= c.maxAttempts {
      if id in order {
        assert Claimable(w.table, id, w.now, c.maxAttempts);
      }
    }
    forall e: nat, k: nat, job | HeldAs(next, e, k, job)
      ensures job.id in next.claims && 1 <= job.attempt <= next.claims[job.id]
    {
      ClaimedJobs(c, w, d, order, e, k, job);
    }
  }

  lemma StartKeepsCounted(c: Backoff.Config, w: World, d: nat)
    requires Counted(c, w) && Enabled(c, w, Start(d))
    ensures Counted(c, Started(w, d))
  {
    var next := Started(w, d);
    var b := w.batches[d];
    assert HeldAs(w, d, |b.starts|, b.jobs[|b.starts|]);
    forall e: nat, k: nat, job | HeldAs(next, e, k, job) ensures HeldAs(w, e, k, job) {}
  }

  lemma AttemptsPositive(c: Backoff.Config)
    requires Backoff.Accepted(c)
    ensures c.maxAttempts > 0
  {
  }

  lemma FinishKeepsCounted(c: Backoff.Config, w: World, d: nat, k: nat, outcome: Outcome)
    requires Counted(c, w) && Enabled(c, w, Finish(d, k, outcome))
    ensures Counted(c, Finished(c, w, d, k, outcome))
  {
    hide Backoff.Delay;
    var next := Finished(c, w, d, k, outcome);
    hide Enabled;
    forall e: nat, j: nat, job | HeldAs(next, e, j, job) ensures HeldAs(w, e, j, job) {}
  }

  lemma OthersKeepCounted(c: Backoff.Config, w: World, l: Label)
    requires Backoff.Accepted(c) && Counted(c, w) && Enabled(c, w, l) && !l.ClaimBatch? && !l.Start? && !l.Finish?
    ensures Counted(c, Step(c, w, l))
  {
    assert c.maxAttempts > 0 by { AttemptsPositive(c); }
    hide Backoff.Accepted, Claimed, Started, Finished, Prunable, SlotsTaken;
    var next := Step(c, w, l);
    forall e: nat, k: nat, job | HeldAs(next, e, k, job)
      ensures job.id in next.claims && 1 <= job.attempt <= next.claims[job.id]
    {
      assert HeldAs(w, e, k, job);
    }
  }

  lemma ClaimKeepsOnce(c: Backoff.Config, w: World, d: nat, order: seq<EventKey>)
    requires Counted(c, w) && Once(w) && Enabled(c, w, ClaimBatch(d, order))
    ensures Once(Claimed(c, w, d, order))
  {
    var next := Claimed(c, w, d, order);
    forall e: nat, k: nat, job | HeldAs(next, e, k, job)
      ensures job.id in w.claims
      ensures if e == d then k < |order| && job.id == order[k] && job.attempt == w.claims[job.id] + 1
              else HeldAs(w, e, k, job) && job.attempt <= w.claims[job.id]
    {
      ClaimedJobs(c, w, d, order, e, k, job);
    }
    forall e: nat, k: nat, job | WaitsAs(next, e, k, job) ensures job !in w.sent {
      if e != d {
        assert WaitsAs(w, e, k, job);
      }
    }
    forall e: nat, k: nat, f: nat, j: nat, job | HeldAs(next, e, k, job) && HeldAs(next, f, j, job)
      ensures e == f && k == j
    {
    }
  }

  lemma StartKeepsOnce(c: Backoff.Config, w: World, d: nat)
    requires Once(w) && Enabled(c, w, Start(d))
    ensures Once(Started(w, d))
  {
    var next := Started(w, d);
    var b := w.batches[d];
    var job0 := b.jobs[|b.starts|];
    assert WaitsAs(w, d, |b.starts|, job0);
    forall e: nat, k: nat, job | HeldAs(next, e, k, job) ensures HeldAs(w, e, k, job) {}
    forall e: nat, k: nat, job | WaitsAs(next, e, k, job) ensures job !in next.sent {
      assert WaitsAs(w, e, k, job);
    }
  }

  lemma OthersKeepOnce(c: Backoff.Config, w: World, l: Label)
    requires Once(w) && Enabled(c, w, l) && !l.ClaimBatch? && !l.Start?
    ensures Once(Step(c, w, l))
  {
    var next := Step(c, w, l);
    forall e: nat, k: nat, job | HeldAs(next, e, k, job) ensures HeldAs(w, e, k, job) {}
    forall e: nat, k: nat, job | WaitsAs(next, e, k, job) ensures WaitsAs(w, e, k, job) {}
  }

  /** A refused event is due again after the delay of the attempt it was claimed for, whatever has become of its row
      meanwhile; no other row is touched, and a delivery is stored with its time. */
  lemma OutcomeIsStored(c: Backoff.Config, w: World, d: nat, k: nat, outcome: Outcome)
    requires Backoff.Accepted(c) && Enabled(c, w, Finish(d, k, outcome))
    ensures var job, after := w.batches[d].jobs[k], Step(c, w, Finish(d, k, outcome)).table;
            && after.Keys == w.table.Keys
            && (forall id | id in w.table && id != job.id :: after[id] == w.table[id])
            && (job.id in w.table ==>
                  var was, row := w.table[job.id], after[job.id];
                  && row.attempts == was.attempts && row.createdAt == was.createdAt
                  && (outcome == Taken ==> row.deliveredAt == Some(w.now) && row.nextAttemptAt == was.nextAttemptAt)
                  && (outcome == Refused ==>
                        row.deliveredAt == was.deliveredAt
                        && Backoff.Delays(c, job.attempt, row.nextAttemptAt - w.now))
                  && (outcome == Lost ==> row == was))
  {
    hide Backoff.Delay, Backoff.Delays, Backoff.Accepted, SlotsTaken;
    Backoff.DelayDelays(c, w.batches[d].jobs[k].attempt);
  }

  // ------------------------------------------------------------------ delivery and removal

  /** A delivered event keeps its mark for as long as it has a row; only delivered or exhausted events lose theirs. */
  ghost predicate Marked(c: Backoff.Config, w: World) {
    && (forall id | id in w.table ::
          w.table[id].deliveredAt == if id in w.delivered then Some(w.delivered[id]) else None)
    && (forall id :: id in w.queuedAt <==> id in w.claims)
    && (forall id | id in w.table :: id in w.claims && w.table[id].createdAt == w.queuedAt[id])
    && (forall id | id in w.claims && id !in w.table ::
          id in w.delivered || (w.claims[id] >= c.maxAttempts && w.queuedAt[id] + c.retention < w.now))
    && (forall id | id in w.delivered ::
          && id in w.claims && w.delivered[id] <= w.now
          && (id in w.table || w.delivered[id] + c.retention < w.now))
  }

  lemma ClaimKeepsMarked(c: Backoff.Config, w: World, d: nat, order: seq<EventKey>)
    requires Marked(c, w) && Enabled(c, w, ClaimBatch(d, order))
    ensures Marked(c, Claimed(c, w, d, order))
  {
  }

  lemma FinishKeepsMarked(c: Backoff.Config, w: World, d: nat, k: nat, outcome: Outcome)
    requires Counted(c, w) && Marked(c, w) && Enabled(c, w, Finish(d, k, outcome))
    ensures Marked(c, Finished(c, w, d, k, outcome))
  {
    assert HeldAs(w, d, k, w.batches[d].jobs[k]);
  }

  lemma OthersKeepMarked(c: Backoff.Config, w: World, l: Label)
    requires Counted(c, w) && Marked(c, w) && Enabled(c, w, l) && !l.ClaimBatch? && !l.Finish?
    ensures Marked(c, Step(c, w, l))
  {
    hide Claimed, Finished, SlotsTaken, Sending;
    if l.PruneRows? {
      PruneKeepsMarked(c, w);
    }
  }

  lemma PruneKeepsMarked(c: Backoff.Config, w: World)
    requires Counted(c, w) && Marked(c, w)
    ensures Marked(c, w.(table := Outbox.Prune(w.table, w.now, c.retention, c.maxAttempts)))
  {
  }

  /** The three together. */
  ghost predicate Sound(c: Backoff.Config, w: World) {
    Counted(c, w) && Once(w) && Marked(c, w)
  }

  lemma StepKeepsSound(c: Backoff.Config, w: World, l: Label)
    requires Backoff.Accepted(c) && Sound(c, w)
    ensures Sound(c, Step(c, w, l))
  {
    hide Counted, Once, Marked, Backoff.Accepted;
    if Enabled(c, w, l) {
      match l
      case ClaimBatch(d, order) =>
        ClaimKeepsCounted(c, w, d, order);
        ClaimKeepsOnce(c, w, d, order);
        ClaimKeepsMarked(c, w, d, order);
      case Start(d) =>
        StartKeepsCounted(c, w, d);
        StartKeepsOnce(c, w, d);
        OthersKeepMarked(c, w, l);
      case Finish(d, k, outcome) =>
        FinishKeepsCounted(c, w, d, k, outcome);
        OthersKeepOnce(c, w, l);
        FinishKeepsMarked(c, w, d, k, outcome);
      case _ =>
        OthersKeepCounted(c, w, l);
        OthersKeepOnce(c, w, l);
        OthersKeepMarked(c, w, l);
    }
  }

  lemma {:induction false} EveryRunIsSound(c: Backoff.Config, t0: Time, labels: seq<Label>)
    requires Backoff.Accepted(c)
    ensures Sound(c, Run(c, Initial(t0), labels))
  {
    hide Step, Sound, Backoff.Accepted;
    if labels == [] {
      StartsSound(c, t0);
    } else {
      EveryRunIsSound(c, t0, labels[..|labels| - 1]);
      StepKeepsSound(c, Run(c, Initial(t0), labels[..|labels| - 1]), labels[|labels| - 1]);
    }
  }

  lemma StartsSound(c: Backoff.Config, t0: Time)
    requires Backoff.Accepted(c)
    ensures Sound(c, Initial(t0))
  {
  }

  /** How often an event was sent. */
  function Sends(sent: seq<Job>, id: EventKey): nat {
    if sent == [] then 0 else Sends(sent[..|sent| - 1], id) + if sent[|sent| - 1].id == id then 1 else 0
  }

  function AttemptsSent(sent: seq<Job>, id: EventKey): (numbers: set<nat>)
    ensures forall n | n in numbers :: Job(id, n) in sent
  {
    if sent == [] then {}
    else
      var before := AttemptsSent(sent[..|sent| - 1], id);
      var last := sent[|sent| - 1];
      if last.id == id then before + {last.attempt} else before
  }

  lemma {:induction false} SendsAreDistinctAttempts(sent: seq<Job>, id: EventKey)
    requires NoDuplicates(sent)
    ensures |AttemptsSent(sent, id)| == Sends(sent, id)
  {
    if sent != [] {
      var front, last := sent[..|sent| - 1], sent[|sent| - 1];
      SendsAreDistinctAttempts(front, id);
      assert last !in front;
    }
  }

  /** However many dispatchers run, crash and lose outcomes, an event is sent at most max_attempts times. */
  lemma SentAtMostMaxAttempts(c: Backoff.Config, t0: Time, labels: seq<Label>, id: EventKey)
    requires Backoff.Accepted(c)
    ensures Sends(Run(c, Initial(t0), labels).sent, id) <= c.maxAttempts
  {
    var w := Run(c, Initial(t0), labels);
    EveryRunIsSound(c, t0, labels);
    hide Run, HeldAs;
    SendsAreDistinctAttempts(w.sent, id);
    AtMostSoMany(AttemptsSent(w.sent, id), 1, c.maxAttempts + 1);
  }

  /** A delivered event is never claimed again. */
  lemma NeverClaimedAfterDelivery(c: Backoff.Config, t0: Time, labels: seq<Label>, d: nat, order: seq<EventKey>)
    requires Backoff.Accepted(c) && Enabled(c, Run(c, Initial(t0), labels), ClaimBatch(d, order))
    ensures forall id | id in order :: id !in Run(c, Initial(t0), labels).delivered
  {
    EveryRunIsSound(c, t0, labels);
  }

  /** Every event ever queued is still in the table, or was delivered, or has used up its attempts. */
  lemma LeavesOnlyWhenDone(c: Backoff.Config, t0: Time, labels: seq<Label>, id: EventKey)
    requires Backoff.Accepted(c) && id in Run(c, Initial(t0), labels).claims
    ensures var w := Run(c, Initial(t0), labels);
            id in w.table || id in w.delivered || w.claims[id] == c.maxAttempts
  {
    EveryRunIsSound(c, t0, labels);
  }

  /** An undelivered event keeps its row at least as long after it was queued. */
  lemma ExhaustedKeptForRetention(c: Backoff.Config, t0: Time, labels: seq<Label>, id: EventKey)
    requires Backoff.Accepted(c)
    requires var w := Run(c, Initial(t0), labels);
             id in w.queuedAt && id !in w.delivered && w.now <= w.queuedAt[id] + c.retention
    ensures id in Run(c, Initial(t0), labels).table
  {
    EveryRunIsSound(c, t0, labels);
  }

  /** A delivered event can be looked up for the whole retention time. */
  lemma KeptForRetention(c: Backoff.Config, t0: Time, labels: seq<Label>, id: EventKey)
    requires Backoff.Accepted(c) && id in Run(c, Initial(t0), labels).delivered
    requires var w := Run(c, Initial(t0), labels); w.now <= w.delivered[id] + c.retention
    ensures var w := Run(c, Initial(t0), labels);
            id in w.table && w.table[id].deliveredAt == Some(w.delivered[id])
  {
    EveryRunIsSound(c, t0, labels);
  }
}
