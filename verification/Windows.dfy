/** Credit windows [pay, pay + step) of the invoices that hold their amounts. */
module Windows {
  import opened Domain
  import opened Query
  import opened Tables
  import opened Matching
  import opened Ledger
  import opened Runs
  import opened Arithmetic

  /** The offset every pay amount of an asset has, modulo the asset's step. */
  type Grid = map<AssetId, int>

  /** Every pay amount sits on its asset's grid. */
  ghost predicate OnGrid(g: Grid, db: Db) {
    forall i | i in db.invoices :: RowOnGrid(g, db, i)
  }

  predicate RowOnGrid(g: Grid, db: Db, i: InvoiceId)
    requires i in db.invoices
  {
    && db.invoices[i].asset in g
    && db.invoices[i].asset in db.assets
    && (db.invoices[i].pay - g[db.invoices[i].asset]) % db.assets[db.invoices[i].asset].step == 0
  }

  /** A step that keeps to the grid: an invoice is issued at its base amount plus whole steps, all bases of an asset
      agree modulo its step, and the step does not change. */
  ghost predicate GridMove(g: Grid, db: Db, m: Move) {
    match m
    case Create(_, row) =>
      row.asset in db.assets ==>
        && row.asset in g
        && (row.base - g[row.asset]) % db.assets[row.asset].step == 0
        && row.pay == row.base + row.nonce * db.assets[row.asset].step
    case Seed(a, row) => a in db.assets ==> row.step == db.assets[a].step
    case _ => true
  }

  lemma OffsetKeepsResidue(base: int, offset: int, nonce: int, step: int)
    requires step > 0 && (base - offset) % step == 0
    ensures (base + nonce * step - offset) % step == 0
  {
    var q := (base - offset) / step;
    assert base + nonce * step - offset == (q + nonce) * step;
    MultipleHasNoRemainder(q + nonce, step);
  }

  lemma StepKeepsGrid(cfg: Config, g: Grid, db: Db, m: Move)
    requires OnGrid(g, db) && GridMove(g, db, m) && Admissible(db, m)
    ensures OnGrid(g, Perform(cfg, db, m))
  {
    hide Perform, RowOnGrid, Evolves;
    EveryStepKeeps(cfg, db, m);
    var after := Perform(cfg, db, m);
    forall i | i in after.invoices ensures RowOnGrid(g, after, i) {
      if i in db.invoices {
        KeptRow(cfg, g, db, m, i);
      } else {
        NewRow(cfg, g, db, m, i);
      }
    }
  }

  lemma KeptRow(cfg: Config, g: Grid, db: Db, m: Move, i: InvoiceId)
    requires i in db.invoices && RowOnGrid(g, db, i) && GridMove(g, db, m)
    requires Evolves(db, Perform(cfg, db, m))
    ensures i in Perform(cfg, db, m).invoices && RowOnGrid(g, Perform(cfg, db, m), i)
  {
    AssetsOnlyBySeed(cfg, db, m);
    hide Perform;
    assert SameIssue(db.invoices[i], Perform(cfg, db, m).invoices[i]);
  }

  lemma NewRow(cfg: Config, g: Grid, db: Db, m: Move, i: InvoiceId)
    requires i !in db.invoices && i in Perform(cfg, db, m).invoices && GridMove(g, db, m)
    ensures RowOnGrid(g, Perform(cfg, db, m), i)
  {
    AssetsOnlyBySeed(cfg, db, m);
    NewRowsOnlyByCreate(cfg, db, m);
    hide Perform;
    OffsetKeepsResidue(m.row.base, g[m.row.asset], m.row.nonce, db.assets[m.row.asset].step);
  }

  lemma AssetsOnlyBySeed(cfg: Config, db: Db, m: Move)
    ensures forall a | a in db.assets ::
              a in Perform(cfg, db, m).assets
              && ((m.Seed? && m.asset == a) || Perform(cfg, db, m).assets[a] == db.assets[a])
    ensures m.Seed? && m.asset in db.assets && Perform(cfg, db, m).assets[m.asset] != db.assets[m.asset] ==>
              Perform(cfg, db, m).assets[m.asset] == m.asset_row
  {
  }

  lemma NewRowsOnlyByCreate(cfg: Config, db: Db, m: Move)
    ensures forall i | i in Perform(cfg, db, m).invoices && i !in db.invoices ::
              && m.Create? && m.id == i && m.row.asset in db.assets
              && Perform(cfg, db, m).invoices[i].asset == m.row.asset
              && Perform(cfg, db, m).invoices[i].pay == m.row.pay
              && Perform(cfg, db, m).invoices[i].base == m.row.base > 0
              && Perform(cfg, db, m).invoices[i].nonce == m.row.nonce
  {
  }

  ghost predicate GridRun(cfg: Config, g: Grid, w: World, labels: seq<Label>) {
    forall k | 0 <= k < |labels| && labels[k].Act? :: GridMove(g, Run(cfg, w, labels[..k]).db, labels[k].move)
  }

  lemma {:induction false} EveryGridRunStaysOnGrid(cfg: Config, g: Grid, start: Time, labels: seq<Label>)
    requires GridRun(cfg, g, Initial(start), labels)
    ensures OnGrid(g, Run(cfg, Initial(start), labels).db)
    decreases |labels|
  {
    if labels != [] {
      var front := labels[..|labels| - 1];
      forall k | 0 <= k < |front| && front[k].Act?
        ensures GridMove(g, Run(cfg, Initial(start), front[..k]).db, front[k].move)
      {
        assert front[..k] == labels[..k] && front[k] == labels[k];
      }
      EveryGridRunStaysOnGrid(cfg, g, start, front);
      EveryRunKeepsTheLedger(cfg, start, front);
      var w := Run(cfg, Initial(start), front);
      var l := labels[|labels| - 1];
      if Enabled(w, l) && l.Act? {
        assert labels[..|labels| - 1] == front;
        StepKeepsGrid(cfg, g, w.db, l.move);
      }
    }
  }

  lemma SameResidueApart(p: int, q: int, offset: int, step: int)
    requires step > 0 && (p - offset) % step == 0 && (q - offset) % step == 0 && p != q
    ensures p - q >= step || q - p >= step
  {
    var a, b := (p - offset) / step, (q - offset) / step;
    assert p - q == (a - b) * step;
    ProductBounds(a - b, step);
  }

  lemma OneClaimant(g: Grid, db: Db, asset: AssetId, amount: int, i: InvoiceId, found: Option<InvoiceId>)
    requires OnGrid(g, db) && AmountsHeld(db)
    requires i in db.invoices && db.invoices[i].held && db.invoices[i].asset == asset && asset in db.assets
    requires FoundInvoice(db, asset, amount, found)
    ensures AmountMatches(db.invoices[i].pay, amount, db.assets[asset].step) <==> found == Some(i)
  {
    if Claims(db, asset, amount, i) {
      var j := found.value;
      if j != i {
        assert db.invoices[i].pay != db.invoices[j].pay;
        SameResidueApart(db.invoices[i].pay, db.invoices[j].pay, g[asset], db.assets[asset].step);
      }
    }
  }

  /** On every run whose base amounts agree modulo an unchanging step, no transfer amount falls into the windows of two
      held invoices. So the lookup has one possible answer whatever order the database returns rows in, namely the
      invoice whose window `AmountMatches` accepts, and an exact pay amount always finds its own invoice. */
  lemma WindowsStayDisjoint(cfg: Config, g: Grid, start: Time, labels: seq<Label>, asset: AssetId, amount: int,
                            i: InvoiceId, found: Option<InvoiceId>)
    requires GridRun(cfg, g, Initial(start), labels)
    requires var db := Run(cfg, Initial(start), labels).db;
             && i in db.invoices && db.invoices[i].held && db.invoices[i].asset == asset && asset in db.assets
             && FoundInvoice(db, asset, amount, found)
    ensures var db := Run(cfg, Initial(start), labels).db;
            && (AmountMatches(db.invoices[i].pay, amount, db.assets[asset].step) <==> found == Some(i))
            && (amount == db.invoices[i].pay ==> found == Some(i))
  {
    var db := Run(cfg, Initial(start), labels).db;
    EveryGridRunStaysOnGrid(cfg, g, start, labels);
    EveryRunKeepsTheLedger(cfg, start, labels);
    OneClaimant(g, db, asset, amount, i, found);
  }
}
