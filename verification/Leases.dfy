/** Whether a claim's lease outlasts its batch: no event is in flight at two places at once if and only if the rounds a
    full batch needs, each as long as the timeout, are over before the lease is (or no event gets a second attempt). */
module Leases {
  import opened Query
  import opened Outbox
  import opened Dispatchers
  import opened Arithmetic
  import Backoff

  /** How long a job may have to wait for its slot: every round before it may last for the whole timeout. */
  function WaitFor(c: Backoff.Config, k: nat): int
    requires c.concurrency > 0
  {
    (k / c.concurrency) * c.timeout
  }

  /** How long the last job of a full batch may stay in flight. */
  function FlightTime(c: Backoff.Config): int
    requires c.concurrency > 0
  {
    ((c.batch - 1) / c.concurrency + 1) * c.timeout
  }

  lemma WaitAscends(c: Backoff.Config, k: nat, n: nat)
    requires c.concurrency > 0 && c.timeout >= 0 && k <= n
    ensures WaitFor(c, k) <= WaitFor(c, n)
  {
    assert k / c.concurrency <= n / c.concurrency by { DivAscends(k, n, c.concurrency); }
    TimesAscends(k / c.concurrency, n / c.concurrency, c.timeout);
  }

  lemma OneRoundLater(c: Backoff.Config, k: nat)
    requires c.concurrency > 0
    ensures WaitFor(c, k + c.concurrency) == WaitFor(c, k) + c.timeout
  {
    var m := c.concurrency;
    assert (k + m) / m == k / m + 1 by {
      assert k + m == (k / m + 1) * m + k % m;
      DivUnique(k + m, m, k / m + 1, k % m);
    }
    assert (k / m + 1) * c.timeout == k / m * c.timeout + c.timeout;
  }

  lemma WaitWithinFlight(c: Backoff.Config, k: nat)
    requires c.concurrency > 0 && c.timeout >= 0 && k < c.batch
    ensures WaitFor(c, k) + c.timeout <= FlightTime(c)
  {
    WaitAscends(c, k, c.batch - 1);
    assert ((c.batch - 1) / c.concurrency + 1) * c.timeout == WaitFor(c, c.batch - 1) + c.timeout;
  }

  // ------------------------------------------------------------------ how long a batch takes

  ghost predicate BatchTimed(c: Backoff.Config, now: Time, b: Batch)
    requires c.concurrency > 0
  {
    && |b.starts| <= |b.jobs| <= c.batch
    && (forall k | 0 <= k < |b.starts| :: b.starts[k] <= b.claimedAt + WaitFor(c, k))
    && (forall k: nat | Sending(b, k) :: now <= b.starts[k] + c.timeout)
    && (SomeWait(b) ==> now <= b.claimedAt + WaitFor(c, |b.starts|))
  }

  ghost predicate Timed(c: Backoff.Config, w: World)
    requires c.concurrency > 0
  {
    forall d | d in w.batches :: BatchTimed(c, w.now, w.batches[d])
  }

  /** When every slot is taken, one of the jobs being sent is at least `concurrency` places back. */
  lemma OldestSending(c: Backoff.Config, b: Batch) returns (k: nat)
    requires SlotsTaken(b) >= c.concurrency > 0
    ensures Sending(b, k) && k <= |b.starts| - c.concurrency
  {
    var taken := set k: nat | k < |b.starts| && k !in b.done;
    if forall k: nat | Sending(b, k) :: k > |b.starts| - c.concurrency {
      forall k | k in taken ensures |b.starts| - c.concurrency + 1 <= k < |b.starts| {
        assert Sending(b, k);
      }
      AtMostSoMany(taken, |b.starts| - c.concurrency + 1, |b.starts|);
    }
    k :| Sending(b, k) && k <= |b.starts| - c.concurrency;
  }

  lemma TickKeepsTimed(c: Backoff.Config, w: World, dt: nat, d: nat)
    requires c.concurrency > 0 && c.timeout >= 0 && Timed(c, w) && Enabled(c, w, Tick(dt)) && d in w.batches
    ensures BatchTimed(c, w.now + dt, w.batches[d])
  {
    var b := w.batches[d];
    assert BatchTimed(c, w.now, b);
    hide WaitFor;
    forall k: nat | Sending(b, k) ensures w.now + dt <= b.starts[k] + c.timeout {}
    if SomeWait(b) {
      var k := OldestSending(c, b);
      assert w.now + dt <= b.starts[k] + c.timeout;
      OneRoundLater(c, k);
      WaitAscends(c, k + c.concurrency, |b.starts|);
    }
  }

  lemma StartKeepsTimed(c: Backoff.Config, w: World, d: nat)
    requires c.concurrency > 0 && c.timeout >= 0 && Timed(c, w) && Enabled(c, w, Start(d))
    ensures BatchTimed(c, w.now, Started(w, d).batches[d])
  {
    var b := w.batches[d];
    assert BatchTimed(c, w.now, b);
    hide WaitFor;
    WaitAscends(c, |b.starts|, |b.starts| + 1);
    var after := Started(w, d).batches[d];
    forall k: nat | Sending(after, k) ensures w.now <= after.starts[k] + c.timeout {
      if k < |b.starts| {
        assert Sending(b, k);
      }
    }
  }

  lemma FinishKeepsTimed(c: Backoff.Config, w: World, d: nat, k: nat, outcome: Outcome)
    requires c.concurrency > 0 && Timed(c, w) && Enabled(c, w, Finish(d, k, outcome))
    ensures BatchTimed(c, w.now, Finished(c, w, d, k, outcome).batches[d])
  {
    var b := w.batches[d];
    assert BatchTimed(c, w.now, b);
    hide WaitFor;
    var after := Finished(c, w, d, k, outcome).batches[d];
    forall j: nat | Sending(after, j) ensures w.now <= after.starts[j] + c.timeout {
      assert Sending(b, j);
    }
  }

  lemma StepKeepsTimed(c: Backoff.Config, w: World, l: Label)
    requires c.concurrency > 0 && c.timeout >= 0 && Timed(c, w)
    ensures Timed(c, Step(c, w, l))
  {
    if Enabled(c, w, l) {
      hide BatchTimed;
      match l
      case Tick(dt) =>
        forall d | d in w.batches ensures BatchTimed(c, w.now + dt, w.batches[d]) {
          TickKeepsTimed(c, w, dt, d);
        }
      case Start(d) =>
        hide Enabled;
        StartKeepsTimed(c, w, d);
      case Finish(d, k, outcome) => FinishKeepsTimed(c, w, d, k, outcome);
      case ClaimBatch(d, order) => FreshIsTimed(c, w.now, Jobs(Outbox.Claim(w.table, order, w.now, Lease(c)), order));
      case _ =>
    }
  }

  lemma FreshIsTimed(c: Backoff.Config, now: Time, jobs: seq<Job>)
    requires c.concurrency > 0 && |jobs| <= c.batch
    ensures BatchTimed(c, now, Batch(now, jobs, [], {}))
  {
  }

  /** A job in flight is never older than the rounds of a full batch allow. */
  lemma FlightsEnd(c: Backoff.Config, w: World, d: nat, k: nat)
    requires c.concurrency > 0 && c.timeout >= 0 && Timed(c, w) && InFlight(w, d, k)
    ensures w.now <= w.batches[d].claimedAt + FlightTime(c)
  {
    var b := w.batches[d];
    assert BatchTimed(c, w.now, b);
    hide WaitFor, FlightTime;
    if k < |b.starts| {
      assert Sending(b, k);
      WaitWithinFlight(c, k);
    } else {
      WaitWithinFlight(c, |b.starts|);
    }
  }

  // ------------------------------------------------------------------ one place at a time

  predicate FliesAs(w: World, d: nat, k: nat, id: EventKey) {
    InFlight(w, d, k) && w.batches[d].jobs[k].id == id
  }

  /** Some event is in flight at two places. */
  ghost predicate Overlapping(w: World) {
    exists d, k, e, j, id :: FliesAs(w, d, k, id) && FliesAs(w, e, j, id) && (d != e || k != j)
  }

  /** An event in flight is undelivered and its row is still leased. */
  ghost predicate Leased(c: Backoff.Config, w: World) {
    forall d, k, id | FliesAs(w, d, k, id) ::
      && id in w.claims && id !in w.delivered
      && (id in w.table ==> w.table[id].nextAttemptAt == w.batches[d].claimedAt + Lease(c))
  }

  ghost predicate Exclusive(c: Backoff.Config, w: World) {
    Leased(c, w) && !Overlapping(w)
  }

  /** A full batch is through before its lease ends. */
  predicate Fits(c: Backoff.Config)
    requires c.concurrency > 0
  {
    FlightTime(c) < Lease(c)
  }

  lemma ClaimedIsNotInFlight(c: Backoff.Config, w: World, d: nat, order: seq<EventKey>, e: nat, k: nat, id: EventKey)
    requires c.concurrency > 0 && c.timeout >= 0 && Fits(c) && Timed(c, w) && Leased(c, w)
    requires Enabled(c, w, ClaimBatch(d, order)) && FliesAs(w, e, k, id)
    ensures id !in order && e != d
  {
    FlightsEnd(c, w, e, k);
    hide FlightTime, Timed;
  }

  lemma ClaimKeepsExclusive(c: Backoff.Config, w: World, d: nat, order: seq<EventKey>)
    requires c.concurrency > 0 && c.timeout >= 0 && Fits(c) && Timed(c, w) && Sound(c, w) && Exclusive(c, w)
    requires Enabled(c, w, ClaimBatch(d, order))
    ensures Exclusive(c, Claimed(c, w, d, order))
  {
    hide Counted, Once, Timed, Fits;
    var next := Claimed(c, w, d, order);
    forall e: nat, k: nat, id | FliesAs(next, e, k, id)
      ensures if e == d then k < |order| && id == order[k] else FliesAs(w, e, k, id) && id !in order
    {
      if e != d {
        assert FliesAs(w, e, k, id);
        ClaimedIsNotInFlight(c, w, d, order, e, k, id);
      }
    }
    forall e: nat, k: nat, id | FliesAs(next, e, k, id)
      ensures && id in next.claims && id !in next.delivered
              && (id in next.table ==> next.table[id].nextAttemptAt == next.batches[e].claimedAt + Lease(c))
    {
      if e == d {
        assert id in order;
        assert Claimable(w.table, id, w.now, c.maxAttempts);
        assert id in w.claims by { QueuedIsCounted(c, w, id); }
      }
    }
  }

  lemma QueuedIsCounted(c: Backoff.Config, w: World, id: EventKey)
    requires Sound(c, w) && id in w.table
    ensures id in w.claims
  {
  }

  lemma FinishKeepsExclusive(c: Backoff.Config, w: World, d: nat, k: nat, outcome: Outcome)
    requires Exclusive(c, w) && Enabled(c, w, Finish(d, k, outcome))
    ensures Exclusive(c, Finished(c, w, d, k, outcome))
  {
    var next := Finished(c, w, d, k, outcome);
    var over := w.batches[d].jobs[k].id;
    assert FliesAs(w, d, k, over);
    forall e: nat, j: nat, id | FliesAs(next, e, j, id) ensures FliesAs(w, e, j, id) && id != over {
      assert FliesAs(w, e, j, id);
    }
  }

  lemma OthersKeepExclusive(c: Backoff.Config, w: World, l: Label)
    requires Exclusive(c, w) && Enabled(c, w, l) && !l.ClaimBatch? && !l.Finish?
    ensures Exclusive(c, Step(c, w, l))
  {
    var next := Step(c, w, l);
    forall e: nat, j: nat, id | FliesAs(next, e, j, id) ensures FliesAs(w, e, j, id) {
    }
  }

  lemma {:induction false} EveryRunIsTimed(c: Backoff.Config, t0: Time, labels: seq<Label>)
    requires c.concurrency > 0 && c.timeout >= 0
    ensures Timed(c, Run(c, Initial(t0), labels))
  {
    if labels != [] {
      EveryRunIsTimed(c, t0, labels[..|labels| - 1]);
      hide Step, Timed;
      StepKeepsTimed(c, Run(c, Initial(t0), labels[..|labels| - 1]), labels[|labels| - 1]);
    }
  }

  lemma {:induction false} FittingRunsAreExclusive(c: Backoff.Config, t0: Time, labels: seq<Label>)
    requires Backoff.Accepted(c) && c.timeout >= 0 && Fits(c)
    ensures Exclusive(c, Run(c, Initial(t0), labels))
  {
    if labels != [] {
      var before, l := Run(c, Initial(t0), labels[..|labels| - 1]), labels[|labels| - 1];
      FittingRunsAreExclusive(c, t0, labels[..|labels| - 1]);
      EveryRunIsTimed(c, t0, labels[..|labels| - 1]);
      EveryRunIsSound(c, t0, labels[..|labels| - 1]);
      hide Exclusive, Timed, Sound, Fits, Enabled;
      if Enabled(c, before, l) {
        match l
        case ClaimBatch(d, order) => ClaimKeepsExclusive(c, before, d, order);
        case Finish(d, k, outcome) => FinishKeepsExclusive(c, before, d, k, outcome);
        case _ => OthersKeepExclusive(c, before, l);
      }
    }
  }

  /** When the batch fits its lease, nothing is sent again after its delivery was stored. */
  lemma NeverSentAfterDelivery(c: Backoff.Config, t0: Time, labels: seq<Label>, d: nat)
    requires Backoff.Accepted(c) && c.timeout >= 0 && Fits(c)
    requires Enabled(c, Run(c, Initial(t0), labels), Start(d))
    ensures var w := Run(c, Initial(t0), labels); w.batches[d].jobs[|w.batches[d].starts|].id !in w.delivered
  {
    var w := Run(c, Initial(t0), labels);
    FittingRunsAreExclusive(c, t0, labels);
    EveryRunStartsBeforeItEnds(c, t0, labels);
    hide Run;
    var b := w.batches[d];
    assert FliesAs(w, d, |b.starts|, b.jobs[|b.starts|].id);
  }

  /** Only what was started can be over. */
  ghost predicate DoneWasStarted(w: World) {
    forall d, k | d in w.batches && k in w.batches[d].done :: k < |w.batches[d].starts|
  }

  lemma {:induction false} EveryRunStartsBeforeItEnds(c: Backoff.Config, t0: Time, labels: seq<Label>)
    ensures DoneWasStarted(Run(c, Initial(t0), labels))
  {
    if labels != [] {
      EveryRunStartsBeforeItEnds(c, t0, labels[..|labels| - 1]);
    }
  }

  /** With a single attempt per event there is nothing to overlap with. */
  lemma SingleAttemptsDoNotOverlap(c: Backoff.Config, w: World)
    requires Sound(c, w) && c.maxAttempts == 1
    ensures !Overlapping(w)
  {
    forall d: nat, k: nat, e: nat, j: nat, id | FliesAs(w, d, k, id) && FliesAs(w, e, j, id) ensures d == e && k == j {
      assert HeldAs(w, d, k, w.batches[d].jobs[k]);
      assert HeldAs(w, e, j, w.batches[e].jobs[j]);
    }
  }
}
