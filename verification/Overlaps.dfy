/** The other half of the lease bound: whenever a full batch may outlast its lease, some run puts an event in flight at
    two dispatchers at once. The run is built for every such configuration: one dispatcher works through a full batch,
    round by round, each send lasting for the whole timeout, and a second one claims when the lease is over. */
module Overlaps {
  import opened Query
  import opened Outbox
  import opened Dispatchers
  import opened Leases
  import opened Arithmetic
  import Backoff

  /** The claim takes what its query answers when nothing is locked: the due events, the longest overdue first, as many
      as a batch may hold. */
  ghost predicate AsQueried(c: Backoff.Config, w: World, l: Label) {
    l.ClaimBatch? ==> c.batch >= 0 && Answers(Due(w.table, w.now, c.maxAttempts), DueAt(w.table), c.batch, l.order)
  }

  ghost predicate ClaimsAsQueried(c: Backoff.Config, t0: Time, labels: seq<Label>) {
    labels != [] ==>
      && ClaimsAsQueried(c, t0, labels[..|labels| - 1])
      && AsQueried(c, Run(c, Initial(t0), labels[..|labels| - 1]), labels[|labels| - 1])
  }

  lemma RunsOn(c: Backoff.Config, t0: Time, labels: seq<Label>, l: Label)
    requires ClaimsAsQueried(c, t0, labels) && AsQueried(c, Run(c, Initial(t0), labels), l)
    ensures Run(c, Initial(t0), labels + [l]) == Step(c, Run(c, Initial(t0), labels), l)
    ensures ClaimsAsQueried(c, t0, labels + [l])
  {
    hide Step, AsQueried;
    assert (labels + [l])[..|labels|] == labels;
  }

  ghost predicate Queued(c: Backoff.Config, w: World, t0: Time, n: nat) {
    && w.now == t0 && w.batches == map[]
    && (forall id: nat :: id in w.claims <==> id < n)
    && (forall id: nat :: id in w.table <==> id < n)
    && (forall id | id in w.table :: w.table[id] == Row(0, t0, None, t0))
  }

  lemma QueueNext(c: Backoff.Config, w: World, t0: Time, n: nat)
    requires Queued(c, w, t0, n)
    ensures Queued(c, Step(c, w, Insert(n)), t0, n + 1)
  {
  }

  lemma {:induction false} Queue(c: Backoff.Config, t0: Time, n: nat) returns (labels: seq<Label>)
    ensures Queued(c, Run(c, Initial(t0), labels), t0, n) && ClaimsAsQueried(c, t0, labels)
  {
    hide Step, Enabled;
    if n == 0 {
      labels := [];
    } else {
      var before := Queue(c, t0, n - 1);
      labels := before + [Insert(n - 1)];
      RunsOn(c, t0, before, Insert(n - 1));
      QueueNext(c, Run(c, Initial(t0), before), t0, n - 1);
    }
  }

  /** Events 0, 1, … of one full batch: those below `f` are over, those from `f` to `n` were started at `s`. */
  ghost predicate Underway(c: Backoff.Config, w: World, t0: Time, f: nat, n: nat, s: Time) {
    && w.batches.Keys == {0}
    && f <= n <= c.batch
    && (var b := w.batches[0];
        && b.claimedAt == t0 && |b.jobs| == c.batch && |b.starts| == n
        && (forall k: nat | k < c.batch :: b.jobs[k] == Job(k, 1))
        && (forall k: nat | f <= k < n :: b.starts[k] == s)
        && (forall k: nat :: k in b.done <==> k < f))
    && (forall id: nat :: id in w.table <==> id < c.batch)
    && (forall k: nat | k < f :: w.table[k].deliveredAt.Some?)
    && (forall k: nat | f <= k < c.batch ::
          w.table[k].attempts == 1 && w.table[k].deliveredAt == None && w.table[k].nextAttemptAt == t0 + Lease(c))
  }

  /** When the due events are those from `f` on, all due at the same time, the query answers them in any order. */
  lemma AnswersFrom(c: Backoff.Config, w: World, f: nat, at: Time) returns (order: seq<EventKey>)
    requires f < c.batch && forall id: nat :: id in Due(w.table, w.now, c.maxAttempts) <==> f <= id < c.batch
    requires forall id: nat | f <= id < c.batch :: id in w.table && w.table[id].nextAttemptAt == at
    ensures |order| == c.batch - f && forall k: nat | k < |order| :: order[k] == f + k
    ensures forall d :: AsQueried(c, w, ClaimBatch(d, order))
    ensures NoDuplicates(order) && forall id | id in order :: Claimable(w.table, id, w.now, c.maxAttempts)
  {
    var due := Due(w.table, w.now, c.maxAttempts);
    order := seq(c.batch - f, k requires 0 <= k < c.batch - f => f + k);
    AtMostSoMany(due, f, c.batch);
    AtLeastSoMany(due, f, c.batch);
    forall id: nat | id in due ensures id in order {
      assert order[id - f] == id;
    }
    forall id | id in order ensures id in due {
      assert f <= id < c.batch;
    }
  }

  lemma BatchTaken(c: Backoff.Config, w: World, t0: Time, order: seq<EventKey>)
    requires Backoff.Accepted(c) && Queued(c, w, t0, c.batch)
    requires |order| == c.batch && forall k: nat | k < |order| :: order[k] == k
    ensures Underway(c, Claimed(c, w, 0, order), t0, 0, 0, t0)
  {
    hide Backoff.Accepted, Lease;
    forall k: nat | k < c.batch ensures k in order {
      assert order[k] == k;
    }
  }

  lemma TakeBatch(c: Backoff.Config, w: World, t0: Time) returns (l: Label)
    requires Backoff.Accepted(c) && Queued(c, w, t0, c.batch)
    ensures Underway(c, Step(c, w, l), t0, 0, 0, t0) && Step(c, w, l).now == t0 && AsQueried(c, w, l)
  {
    var order := AnswersFrom(c, w, 0, t0);
    l := ClaimBatch(0, order);
    BatchTaken(c, w, t0, order);
    hide AsQueried, Underway, Claimable;
    assert forall k: nat :: !InFlight(w, 0, k);
  }

  lemma SlotsInUse(c: Backoff.Config, w: World, t0: Time, f: nat, n: nat, s: Time)
    requires Underway(c, w, t0, f, n, s)
    ensures SlotsTaken(w.batches[0]) == n - f
  {
    var b := w.batches[0];
    var taken := set k: nat | k < |b.starts| && k !in b.done;
    AtMostSoMany(taken, f, n);
    AtLeastSoMany(taken, f, n);
  }

  lemma StartNext(c: Backoff.Config, w: World, t0: Time, f: nat, n: nat, s: Time)
    requires Underway(c, w, t0, f, n, s) && n < c.batch && n - f < c.concurrency && w.now == s
    ensures Underway(c, Step(c, w, Start(0)), t0, f, n + 1, s) && Step(c, w, Start(0)).now == s
  {
    SlotsInUse(c, w, t0, f, n, s);
  }

  lemma LetTimePass(c: Backoff.Config, w: World, t0: Time, f: nat, n: nat, s: Time, dt: nat)
    requires Underway(c, w, t0, f, n, s) && (n == c.batch || n - f >= c.concurrency) && w.now + dt <= s + c.timeout
    ensures Underway(c, Step(c, w, Tick(dt)), t0, f, n, s) && Step(c, w, Tick(dt)).now == w.now + dt
  {
    SlotsInUse(c, w, t0, f, n, s);
    forall d, k: nat | d in w.batches && Sending(w.batches[d], k)
      ensures w.now + dt <= w.batches[d].starts[k] + c.timeout
    {
      assert f <= k < n;
    }
  }

  lemma FinishFirst(c: Backoff.Config, w: World, t0: Time, f: nat, n: nat, s: Time)
    requires Underway(c, w, t0, f, n, s) && f < n
    ensures Underway(c, Step(c, w, Finish(0, f, Taken)), t0, f + 1, n, s)
    ensures Step(c, w, Finish(0, f, Taken)).now == w.now
  {
    assert Sending(w.batches[0], f);
  }

  /** The second dispatcher gets every event of the batch that is not over. */
  lemma SecondClaims(c: Backoff.Config, w: World, t0: Time, f: nat, n: nat, s: Time) returns (l: Label)
    requires Backoff.Accepted(c) && c.maxAttempts >= 2
    requires Underway(c, w, t0, f, n, s) && f < n && w.now >= t0 + Lease(c)
    ensures AsQueried(c, w, l) && Overlapping(Step(c, w, l))
  {
    var order := AnswersFrom(c, w, f, t0 + Lease(c));
    l := ClaimBatch(1, order);
    hide AsQueried, Claimable, NoDuplicates, Overlapping;
    assert forall k: nat :: !InFlight(w, 1, k);
    assert Enabled(c, w, l);
    assert FliesAs(w, 0, f, f);
    ClaimedTwice(c, w, f, order);
  }

  lemma ClaimedTwice(c: Backoff.Config, w: World, f: nat, order: seq<EventKey>)
    requires FliesAs(w, 0, f, f) && order != [] && order[0] == f && forall id | id in order :: id in w.table
    ensures Overlapping(Claimed(c, w, 1, order))
  {
    var next := Claimed(c, w, 1, order);
    assert FliesAs(next, 0, f, f);
    assert FliesAs(next, 1, 0, f) by {
      assert next.batches[1].jobs[0].id == order[0];
    }
  }

  /** In the midst of a round that began at `s` with event `base`: either still filling the slots, or waiting for the
      sends to end. */
  ghost predicate InRound(c: Backoff.Config, t0: Time, labels: seq<Label>, base: nat, f: nat, n: nat, filling: bool)
    requires c.concurrency > 0
  {
    var w := Run(c, Initial(t0), labels);
    var s := t0 + WaitFor(c, base);
    && ClaimsAsQueried(c, t0, labels) && Underway(c, w, t0, f, n, s)
    && base % c.concurrency == 0 && base <= f <= n <= c.batch && n <= base + c.concurrency && base < c.batch
        && s < t0 + Lease(c)
    && if filling then w.now == s && f == base
       else w.now == s + c.timeout < t0 + Lease(c) && n == Min(base + c.concurrency, c.batch)
  }

  /** The lease ends during this round: the second dispatcher claims the whole round, and all after it, then. */
  lemma ClaimLate(c: Backoff.Config, t0: Time, labels: seq<Label>, base: nat, n: nat) returns (more: seq<Label>)
    requires Backoff.Accepted(c) && c.maxAttempts >= 2
    requires InRound(c, t0, labels, base, base, n, true) && (n == c.batch || n - base >= c.concurrency)
    requires t0 + WaitFor(c, base) + c.timeout >= t0 + Lease(c)
    ensures ClaimsAsQueried(c, t0, more) && Overlapping(Run(c, Initial(t0), more))
  {
    hide Step, WaitFor, Underway, Overlapping;
    var w := Run(c, Initial(t0), labels);
    var s := t0 + WaitFor(c, base);
    var dt := t0 + Lease(c) - s;
    LetTimePass(c, w, t0, base, n, s, dt);
    var late := labels + [Tick(dt)];
    RunsOn(c, t0, labels, Tick(dt));
    var l := SecondClaims(c, Run(c, Initial(t0), late), t0, base, n, s);
    RunsOn(c, t0, late, l);
    more := late + [l];
  }

  lemma LastRound(c: Backoff.Config, base: nat)
    requires c.concurrency > 0 && base % c.concurrency == 0 && base < c.batch <= base + c.concurrency
    ensures FlightTime(c) == WaitFor(c, base) + c.timeout
  {
    assert base == base / c.concurrency * c.concurrency;
    DivUnique(c.batch - 1, c.concurrency, base / c.concurrency, c.batch - 1 - base);
  }

  /** A round that ends before the lease does was not the last. */
  lemma RoundIsOver(c: Backoff.Config, t0: Time, labels: seq<Label>, base: nat, n: nat)
    requires c.concurrency > 0 && !Fits(c) && InRound(c, t0, labels, base, n, n, false)
    ensures InRound(c, t0, labels, n, n, n, true)
  {
    var m := c.concurrency;
    assert base == base / m * m;
    if n == c.batch {
      LastRound(c, base);
    }
    OneRoundLater(c, base);
    assert n == (base / m + 1) * m;
    MultipleHasNoRemainder(base / m + 1, m);
  }

  lemma FillSlot(c: Backoff.Config, t0: Time, labels: seq<Label>, base: nat, n: nat) returns (next: seq<Label>)
    requires c.concurrency > 0 && InRound(c, t0, labels, base, base, n, true) && n < c.batch && n - base < c.concurrency
    ensures InRound(c, t0, next, base, base, n + 1, true)
  {
    hide Step, WaitFor, Underway;
    StartNext(c, Run(c, Initial(t0), labels), t0, base, n, t0 + WaitFor(c, base));
    next := labels + [Start(0)];
    RunsOn(c, t0, labels, Start(0));
  }

  lemma SlotsFull(c: Backoff.Config, t0: Time, labels: seq<Label>, base: nat, n: nat) returns (next: seq<Label>)
    requires c.concurrency > 0 && c.timeout >= 0 && InRound(c, t0, labels, base, base, n, true)
    requires n == c.batch || n - base >= c.concurrency
    requires WaitFor(c, base) + c.timeout < Lease(c)
    ensures InRound(c, t0, next, base, base, n, false)
  {
    hide Step, WaitFor, Underway;
    LetTimePass(c, Run(c, Initial(t0), labels), t0, base, n, t0 + WaitFor(c, base), c.timeout);
    next := labels + [Tick(c.timeout)];
    RunsOn(c, t0, labels, Tick(c.timeout));
  }

  lemma EndSend(c: Backoff.Config, t0: Time, labels: seq<Label>, base: nat, f: nat, n: nat) returns (next: seq<Label>)
    requires c.concurrency > 0 && InRound(c, t0, labels, base, f, n, false) && f < n
    ensures InRound(c, t0, next, base, f + 1, n, false)
  {
    hide Step, WaitFor, Underway;
    FinishFirst(c, Run(c, Initial(t0), labels), t0, f, n, t0 + WaitFor(c, base));
    next := labels + [Finish(0, f, Taken)];
    RunsOn(c, t0, labels, Finish(0, f, Taken));
  }

  lemma {:induction false} DriveToOverlap(
    c: Backoff.Config, t0: Time, labels: seq<Label>, base: nat, f: nat, n: nat, filling: bool)
    returns (more: seq<Label>)
    requires Backoff.Accepted(c) && c.timeout >= 0 && c.maxAttempts >= 2 && !Fits(c)
    requires InRound(c, t0, labels, base, f, n, filling)
    ensures ClaimsAsQueried(c, t0, more) && Overlapping(Run(c, Initial(t0), more))
    decreases c.batch - base, filling, if filling then c.batch - n else n - f
  {
    RoundBounds(c, t0, labels, base, f, n, filling);
    hide InRound, Run, WaitFor, Fits, Overlapping, ClaimsAsQueried;
    if filling && n < c.batch && n - base < c.concurrency {
      var next := FillSlot(c, t0, labels, base, n);
      more := DriveToOverlap(c, t0, next, base, f, n + 1, true);
    } else if filling && WaitFor(c, base) + c.timeout >= Lease(c) {
      more := ClaimLate(c, t0, labels, base, n);
    } else if filling {
      var next := SlotsFull(c, t0, labels, base, n);
      more := DriveToOverlap(c, t0, next, base, f, n, false);
    } else if f < n {
      var next := EndSend(c, t0, labels, base, f, n);
      more := DriveToOverlap(c, t0, next, base, f + 1, n, false);
    } else {
      RoundIsOver(c, t0, labels, base, n);
      RoundBounds(c, t0, labels, n, n, n, true);
      more := DriveToOverlap(c, t0, labels, n, n, n, true);
    }
  }

  lemma RoundBounds(c: Backoff.Config, t0: Time, labels: seq<Label>, base: nat, f: nat, n: nat, filling: bool)
    requires c.concurrency > 0 && InRound(c, t0, labels, base, f, n, filling)
    ensures base <= f <= n <= c.batch && base < c.batch && (filling ==> f == base) && (!filling ==> base < n)
  {
    hide Underway, WaitFor;
  }

  lemma FirstRound(c: Backoff.Config, t0: Time) returns (labels: seq<Label>)
    requires Backoff.Accepted(c) && c.timeout >= 0
    ensures InRound(c, t0, labels, 0, 0, 0, true)
  {
    hide Step, Queued, Underway;
    var queued := Queue(c, t0, c.batch);
    var l := TakeBatch(c, Run(c, Initial(t0), queued), t0);
    labels := queued + [l];
    RunsOn(c, t0, queued, l);
  }

  /** Some run of the dispatchers puts an event in flight at two places if and only if events get more than one attempt
      and a full batch may take as long as the lease; and it makes no difference whether the claims may take any due
      events or must take exactly what their query answers. */
  lemma OverlapIff(c: Backoff.Config, t0: Time)
    requires Backoff.Accepted(c) && c.timeout >= 0
    ensures (exists labels :: Overlapping(Run(c, Initial(t0), labels))) <==> c.maxAttempts >= 2 && !Fits(c)
    ensures (exists labels :: ClaimsAsQueried(c, t0, labels) && Overlapping(Run(c, Initial(t0), labels)))
              <==> c.maxAttempts >= 2
                   && ((c.batch - 1) / c.concurrency + 1) * c.timeout >= 2 * c.timeout + 30_000_000_000
  {
    FitsMeans(c);
    hide Run, InRound, Fits, Overlapping, ClaimsAsQueried;
    if c.maxAttempts >= 2 && !Fits(c) {
      var first := FirstRound(c, t0);
      var labels := DriveToOverlap(c, t0, first, 0, 0, 0, true);
    } else {
      forall labels ensures !Overlapping(Run(c, Initial(t0), labels)) {
        NeverOverlaps(c, t0, labels);
      }
    }
  }

  lemma FitsMeans(c: Backoff.Config)
    requires c.concurrency > 0
    ensures Fits(c) <==> ((c.batch - 1) / c.concurrency + 1) * c.timeout < 2 * c.timeout + 30_000_000_000
  {
  }

  lemma NeverOverlaps(c: Backoff.Config, t0: Time, labels: seq<Label>)
    requires Backoff.Accepted(c) && c.timeout >= 0 && (c.maxAttempts < 2 || Fits(c))
    ensures !Overlapping(Run(c, Initial(t0), labels))
  {
    hide Run;
    if c.maxAttempts >= 2 {
      FittingRunsAreExclusive(c, t0, labels);
    } else {
      EveryRunIsSound(c, t0, labels);
      SingleAttemptsDoNotOverlap(c, Run(c, Initial(t0), labels));
    }
  }

  /** The default settings do not keep an event to one dispatcher at a time: fifty events through four slots of ten
      seconds take 130 s, the lease is 50 s. */
  lemma DefaultsOverlap(t0: Time)
    ensures exists labels ::
              ClaimsAsQueried(Backoff.DEFAULTS, t0, labels) && Overlapping(Run(Backoff.DEFAULTS, Initial(t0), labels))
  {
    assert FlightTime(Backoff.DEFAULTS) == 130_000_000_000 && Lease(Backoff.DEFAULTS) == 50_000_000_000;
    OverlapIff(Backoff.DEFAULTS, t0);
  }
}
