/** Walking the listing while the ledger runs: an invoice keeps its place in the order for life. */
module ListingDuringRuns {
  import opened Tables
  import opened Matching
  import opened Ledger
  import opened Runs
  import opened Listing

  lemma StepKeepsRows(cfg: Config, w: World, l: Label)
    requires WorldOk(w)
    ensures forall i | i in w.db.invoices ::
              i in Step(cfg, w, l).db.invoices && Step(cfg, w, l).db.invoices[i].createdAt == w.db.invoices[i].createdAt
  {
    if Enabled(w, l) && l.Act? {
      EveryStepKeeps(cfg, w.db, l.move);
      hide Perform;
    }
  }

  lemma {:induction false} RunsKeepRows(cfg: Config, start: Time, labels: seq<Label>, m: nat, n: nat, i: InvoiceId)
    requires m <= n <= |labels| && i in Run(cfg, Initial(start), labels[..m]).db.invoices
    ensures var later := Run(cfg, Initial(start), labels[..n]).db;
            && i in later.invoices
            && later.invoices[i].createdAt == Run(cfg, Initial(start), labels[..m]).db.invoices[i].createdAt
    decreases n
  {
    hide Step, WorldOk;
    if m < n {
      RunsKeepRows(cfg, start, labels, m, n - 1, i);
      assert labels[..n][..n - 1] == labels[..n - 1];
      EveryRunKeepsTheLedger(cfg, start, labels[..n - 1]);
      StepKeepsRows(cfg, Run(cfg, Initial(start), labels[..n - 1]), labels[n - 1]);
    }
  }

  /** A walk's requests, each served from the database of some later moment of one run. */
  ghost predicate Snapshots(cfg: Config, start: Time, labels: seq<Label>, at: seq<nat>, tables: seq<Invoices>) {
    && |at| == |tables|
    && (forall k | 0 <= k < |at| :: at[0] <= at[k] <= |labels|)
    && (forall k | 0 <= k < |at| :: tables[k] == Run(cfg, Initial(start), labels[..at[k]]).db.invoices)
  }

  /** An invoice in the table at the first request stays at one position for the whole walk; if it matches the filter at
      every request, the walk owes it to the client. */
  lemma InvoicesKeepTheirPlace(
    cfg: Config, start: Time, labels: seq<Label>, at: seq<nat>, tables: seq<Invoices>, f: Filter, i: InvoiceId)
    requires Snapshots(cfg, start, labels, at, tables)
    requires tables != [] && i in tables[0]
    ensures Throughout(tables, f, i, tables[0][i].createdAt)
            <==> forall k | 0 <= k < |tables| && i in tables[k] :: Matches(f, tables[k][i])
  {
    forall k | 0 <= k < |tables| ensures i in tables[k] && tables[k][i].createdAt == tables[0][i].createdAt {
      RunsKeepRows(cfg, start, labels, at[0], at[k], i);
    }
    hide Run;
  }
}
