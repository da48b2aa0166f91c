/** Exactly when credit windows can overlap: which base amounts of one asset put two held invoices into each other's
    window. */
module MixedBases {
  import opened Domain
  import opened Query
  import opened Tables
  import opened Matching
  import opened Ledger
  import opened Runs
  import opened Windows
  import opened Arithmetic

  /** How an asset is allocated from: its step, its nonce range, and the base amounts merchants ask for. */
  datatype Terms = Terms(asset: AssetId, step: Pos, nonceMax: Pos, bases: set<int>)

  /** An invoice of the asset is issued at one of the bases plus whole steps within the nonce range, and the step does
      not change. Everything else is free. */
  predicate Allocates(t: Terms, m: Move) {
    match m
    case Create(_, row) =>
      row.asset == t.asset ==>
        row.base in t.bases && 0 <= row.nonce < t.nonceMax && row.pay == row.base + row.nonce * t.step
    case Seed(a, row) => a == t.asset ==> row.step == t.step
    case _ => true
  }

  ghost predicate AllocatorRun(t: Terms, labels: seq<Label>) {
    forall l | l in labels && l.Act? :: Allocates(t, l.move)
  }

  /** Some amount falls to two held invoices of the asset. */
  ghost predicate Overlap(db: Db, a: AssetId) {
    exists i, j, amount :: i != j && Claims(db, a, amount, i) && Claims(db, a, amount, j)
  }

  /** Two bases off each other's grid, nearer than the nonce range reaches. */
  ghost predicate Clash(t: Terms) {
    exists b, c :: Clashing(t, b, c)
  }

  predicate Clashing(t: Terms, b: int, c: int) {
    b in t.bases && c in t.bases && 0 < b < c < b + t.nonceMax * t.step && (c - b) % t.step != 0
  }

  // ------------------------------------------------------------------ no clash, no overlap

  ghost predicate Allocated(t: Terms, db: Db) {
    && (t.asset in db.assets ==> db.assets[t.asset].step == t.step)
    && (forall i | i in db.invoices :: RowAllocated(t, db.invoices[i]))
  }

  predicate RowAllocated(t: Terms, inv: Invoice) {
    inv.asset == t.asset ==>
      && inv.base in t.bases && inv.base > 0
      && 0 <= inv.nonce < t.nonceMax && inv.pay == inv.base + inv.nonce * t.step
  }

  lemma StepKeepsAllocated(cfg: Config, t: Terms, db: Db, m: Move)
    requires Allocated(t, db) && Allocates(t, m) && Admissible(db, m)
    ensures Allocated(t, Perform(cfg, db, m))
  {
    var after := Perform(cfg, db, m);
    EveryStepKeeps(cfg, db, m);
    SeedKeepsStep(cfg, t, db, m);
    NewRowsOnlyByCreate(cfg, db, m);
    hide Perform;
    forall i | i in after.invoices ensures RowAllocated(t, after.invoices[i]) {
      if i in db.invoices {
        assert SameIssue(db.invoices[i], after.invoices[i]);
      }
    }
  }

  lemma SeedKeepsStep(cfg: Config, t: Terms, db: Db, m: Move)
    requires (t.asset in db.assets ==> db.assets[t.asset].step == t.step) && Allocates(t, m)
    ensures t.asset in Perform(cfg, db, m).assets ==> Perform(cfg, db, m).assets[t.asset].step == t.step
  {
    hide HasLive, EnqueueEvent, AmountHeld, ExternalIdUsed;
    if m.Decide? && m.decision.Credit? {
      CreditKeepsAssets(cfg, db, m.decision, m.ev);
      hide CreditTx;
    }
  }

  lemma {:induction false} EveryAllocatorRunIsAllocated(cfg: Config, t: Terms, start: Time, labels: seq<Label>)
    requires AllocatorRun(t, labels)
    ensures Allocated(t, Run(cfg, Initial(start), labels).db)
    decreases |labels|
  {
    if labels != [] {
      var front, l := labels[..|labels| - 1], labels[|labels| - 1];
      EveryAllocatorRunIsAllocated(cfg, t, start, front);
      EveryRunKeepsTheLedger(cfg, start, front);
      var w := Run(cfg, Initial(start), front);
      if Enabled(w, l) && l.Act? {
        assert Allocates(t, l.move);
        StepKeepsAllocated(cfg, t, w.db, l.move);
        hide Perform;
      }
    }
  }

  lemma FarApart(t: Terms, x: Invoice, y: Invoice)
    requires x.asset == y.asset == t.asset && RowAllocated(t, x) && RowAllocated(t, y)
    requires y.base >= x.base + t.nonceMax * t.step
    ensures y.pay - x.pay >= t.step
  {
    TimesAscends(x.nonce + 1, t.nonceMax, t.step);
    assert (x.nonce + 1) * t.step == x.nonce * t.step + t.step;
    TimesAscends(0, y.nonce, t.step);
  }

  lemma OneGridApart(t: Terms, x: Invoice, y: Invoice)
    requires x.asset == y.asset == t.asset && RowAllocated(t, x) && RowAllocated(t, y)
    requires (y.base - x.base) % t.step == 0 && x.pay != y.pay
    ensures x.pay - y.pay >= t.step || y.pay - x.pay >= t.step
  {
    OffsetKeepsResidue(y.base, x.base, y.nonce, t.step);
    OffsetKeepsResidue(x.base, x.base, x.nonce, t.step);
    SameResidueApart(x.pay, y.pay, x.base, t.step);
  }

  /** Invoices issued from two bases that do not clash are at least a step apart. */
  lemma NoClashApart(t: Terms, x: Invoice, y: Invoice)
    requires !Clash(t) && x.asset == y.asset == t.asset && RowAllocated(t, x) && RowAllocated(t, y)
    requires x.base <= y.base && x.pay != y.pay
    ensures x.pay - y.pay >= t.step || y.pay - x.pay >= t.step
  {
    if y.base >= x.base + t.nonceMax * t.step {
      FarApart(t, x, y);
    } else {
      assert (y.base - x.base) % t.step == 0 by {
        if x.base < y.base {
          assert !Clashing(t, x.base, y.base);
        }
      }
      OneGridApart(t, x, y);
    }
  }

  lemma NoClashNoOverlap(t: Terms, db: Db)
    requires !Clash(t) && Allocated(t, db) && AmountsHeld(db)
    ensures !Overlap(db, t.asset)
  {
    hide Clash;
    forall i, j, amount | i != j && Claims(db, t.asset, amount, i) && Claims(db, t.asset, amount, j) ensures false {
      assert db.invoices[i].pay != db.invoices[j].pay;
      if db.invoices[i].base <= db.invoices[j].base {
        NoClashApart(t, db.invoices[i], db.invoices[j]);
      } else {
        NoClashApart(t, db.invoices[j], db.invoices[i]);
      }
    }
  }

  // ------------------------------------------------------------------ a clash reached by the allocator itself

  /** The allocator's own choice, nobody interfering: the least nonce whose amount is free. */
  ghost predicate LeastFree(t: Terms, db: Db, m: Move) {
    m.Create? && m.row.asset == t.asset ==>
      && !AmountHeld(db, t.asset, m.row.pay)
      && forall n | 0 <= n < m.row.nonce :: AmountHeld(db, t.asset, m.row.base + n * t.step)
  }

  ghost predicate LeastFreeRun(cfg: Config, t: Terms, start: Time, labels: seq<Label>)
    decreases |labels|
  {
    labels == [] ||
    (var front, l := labels[..|labels| - 1], labels[|labels| - 1];
     LeastFreeRun(cfg, t, start, front) && (l.Act? ==> LeastFree(t, Run(cfg, Initial(start), front).db, l.move)))
  }

  /** The first `n` invoices from base `b` have been issued and hold their amounts. */
  ghost predicate Issued(t: Terms, db: Db, b: int, n: nat) {
    && t.asset in db.assets && db.assets[t.asset].step == t.step
    && (forall i: InvoiceId :: i in db.invoices <==> i < n)
    && (forall i | i in db.invoices ::
          && db.invoices[i].asset == t.asset && db.invoices[i].held
          && db.invoices[i].pay == b + i * t.step
          && db.invoices[i].externalId == None)
  }

  ghost predicate ReachedBy(cfg: Config, t: Terms, start: Time, labels: seq<Label>, b: int, n: nat) {
    && AllocatorRun(t, labels) && LeastFreeRun(cfg, t, start, labels)
    && Issued(t, Run(cfg, Initial(start), labels).db, b, n)
  }

  function Row(t: Terms, base: int, nonce: int, start: Time): NewInvoice {
    NewInvoice(None, t.asset, base, base + nonce * t.step, nonce, start, start)
  }

  lemma FreeBetween(t: Terms, db: Db, b: int, n: nat, pay: int)
    requires Issued(t, db, b, n) && (pay - b < n * t.step ==> (pay - b) % t.step != 0)
    ensures !AmountHeld(db, t.asset, pay)
  {
    forall i | i in db.invoices ensures !HoldsAmount(db, i, t.asset, pay) {
      assert n * t.step - i * t.step == (n - i) * t.step;
      MultipleHasNoRemainder(i, t.step);
      ProductBounds(n - i, t.step);
    }
  }

  lemma HeldBelow(t: Terms, db: Db, b: int, n: nat)
    requires Issued(t, db, b, n)
    ensures forall m | 0 <= m < n :: AmountHeld(db, t.asset, b + m * t.step)
  {
    forall m | 0 <= m < n ensures AmountHeld(db, t.asset, b + m * t.step) {
      assert HoldsAmount(db, m, t.asset, b + m * t.step);
    }
  }

  lemma IssueNext(cfg: Config, t: Terms, db: Db, b: int, n: nat, start: Time)
    requires Issued(t, db, b, n) && b in t.bases && b > 0 && n < t.nonceMax
    ensures var m := Create(n, Row(t, b, n, start));
            && Allocates(t, m) && LeastFree(t, db, m) && Issued(t, Perform(cfg, db, m), b, n + 1)
  {
    hide Perform, Issued;
    FreeBetween(t, db, b, n, b + n * t.step);
    HeldBelow(t, db, b, n);
    TimesAscends(0, n, t.step);
    InsertIssues(cfg, t, db, b, n, start);
    hide AmountHeld;
  }

  lemma InsertIssues(cfg: Config, t: Terms, db: Db, b: int, n: nat, start: Time)
    requires Issued(t, db, b, n) && b > 0 && b + n * t.step > 0 && !AmountHeld(db, t.asset, b + n * t.step)
    ensures Issued(t, Perform(cfg, db, Create(n, Row(t, b, n, start))), b, n + 1)
  {
    hide AmountHeld;
    var row := Row(t, b, n, start);
    assert InsertInvoice(db, n, row).InvoiceCreated?;
    assert Perform(cfg, db, Create(n, row)) == InsertInvoice(db, n, row).db;
  }

  lemma Extend(cfg: Config, t: Terms, start: Time, labels: seq<Label>, m: Move)
    requires AllocatorRun(t, labels) && LeastFreeRun(cfg, t, start, labels)
    requires m.Create? || m.Seed?
    requires Allocates(t, m) && LeastFree(t, Run(cfg, Initial(start), labels).db, m)
    ensures var next := labels + [Act(m)];
            && AllocatorRun(t, next) && LeastFreeRun(cfg, t, start, next)
            && Run(cfg, Initial(start), next).db == Perform(cfg, Run(cfg, Initial(start), labels).db, m)
  {
    assert (labels + [Act(m)])[..|labels|] == labels;
    hide Perform, Allocates, LeastFree;
  }

  lemma {:induction false} IssueMany(cfg: Config, t: Terms, start: Time, b: int, n: nat) returns (labels: seq<Label>)
    requires b in t.bases && b > 0 && n <= t.nonceMax
    ensures ReachedBy(cfg, t, start, labels, b, n)
  {
    if n == 0 {
      var seed := Seed(t.asset, Asset(Tron, "", t.step, t.nonceMax, true));
      Extend(cfg, t, start, [], seed);
      labels := [] + [Act(seed)];
    } else {
      var before := IssueMany(cfg, t, start, b, n - 1);
      var m := Create(n - 1, Row(t, b, n - 1, start));
      IssueNext(cfg, t, Run(cfg, Initial(start), before).db, b, n - 1, start);
      Extend(cfg, t, start, before, m);
      hide Run, Perform, Allocates, LeastFree, Issued;
      labels := before + [Act(m)];
    }
  }

  /** The invoice from the other base falls into the window of the last one issued. */
  lemma IssueClashing(cfg: Config, t: Terms, db: Db, b: int, c: int, start: Time)
    requires Clashing(t, b, c) && Issued(t, db, b, (c - b) / t.step + 1)
    ensures var m := Create((c - b) / t.step + 1, Row(t, c, 0, start));
            && Allocates(t, m) && LeastFree(t, db, m) && Overlap(Perform(cfg, db, m), t.asset)
  {
    var k := (c - b) / t.step;
    assert c - b == k * t.step + (c - b) % t.step;
    FreeBetween(t, db, b, k + 1, c);
    var m := Create(k + 1, Row(t, c, 0, start));
    hide AmountHeld;
    var after := Perform(cfg, db, m);
    assert after == InsertInvoice(db, k + 1, m.row).db;
    assert Claims(after, t.asset, c, k);
    assert Claims(after, t.asset, c, k + 1);
  }

  lemma ClashIsReached(cfg: Config, t: Terms, start: Time, b: int, c: int) returns (labels: seq<Label>)
    requires Clashing(t, b, c)
    ensures AllocatorRun(t, labels) && LeastFreeRun(cfg, t, start, labels)
    ensures Overlap(Run(cfg, Initial(start), labels).db, t.asset)
  {
    var k := (c - b) / t.step;
    assert c - b == k * t.step + (c - b) % t.step;
    if k >= t.nonceMax {
      TimesAscends(t.nonceMax, k, t.step);
    }
    var before := IssueMany(cfg, t, start, b, k + 1);
    var m := Create(k + 1, Row(t, c, 0, start));
    IssueClashing(cfg, t, Run(cfg, Initial(start), before).db, b, c, start);
    Extend(cfg, t, start, before, m);
    labels := before + [Act(m)];
  }

  /** Held windows of an asset can overlap if and only if two of the base amounts asked for are off each other's grid
      and nearer than the nonce range reaches; and then the allocator gets there by itself, always taking the least free
      nonce. */
  lemma WindowsOverlapIff(cfg: Config, t: Terms, start: Time)
    ensures (exists labels :: AllocatorRun(t, labels) && Overlap(Run(cfg, Initial(start), labels).db, t.asset))
            <==> Clash(t)
    ensures Clash(t) ==>
              exists labels ::
                && AllocatorRun(t, labels) && LeastFreeRun(cfg, t, start, labels)
                && Overlap(Run(cfg, Initial(start), labels).db, t.asset)
  {
    hide Run, AllocatorRun, LeastFreeRun, Overlap;
    if Clash(t) {
      var b, c :| Clashing(t, b, c);
      var labels := ClashIsReached(cfg, t, start, b, c);
    } else {
      forall labels | AllocatorRun(t, labels) ensures !Overlap(Run(cfg, Initial(start), labels).db, t.asset) {
        EveryAllocatorRunIsAllocated(cfg, t, start, labels);
        EveryRunKeepsTheLedger(cfg, start, labels);
        NoClashNoOverlap(t, Run(cfg, Initial(start), labels).db);
      }
    }
  }
}
