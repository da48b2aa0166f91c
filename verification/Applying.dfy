/** When a sequence of transfers is applied as a whole, nobody else acting meanwhile: exactly when none of them is
    refused, and which are can be told from the tables before the first. */
module Applying {
  import opened Domain
  import opened Query
  import opened Tables
  import opened Matching
  import opened Ledger
  import opened Interference
  import opened Crediting
  import opened Windows
  import opened Watching

  /** The lookups have one answer: one asset per contract, one claimant per amount. */
  ghost predicate Unambiguous(db: Db) {
    && AssetKeyUnique(db)
    && forall a, amount, i, j :: Claims(db, a, amount, i) && Claims(db, a, amount, j) ==> i == j
  }

  lemma GridIsUnambiguous(g: Grid, db: Db)
    requires OnGrid(g, db) && LedgerOk(db) && AssetKeyUnique(db)
    ensures Unambiguous(db)
  {
    forall a, amount, i, j | Claims(db, a, amount, i) && Claims(db, a, amount, j) ensures i == j {
      if i != j {
        assert db.invoices[i].pay != db.invoices[j].pay;
        assert RowOnGrid(g, db, i) && RowOnGrid(g, db, j);
        SameResidueApart(db.invoices[i].pay, db.invoices[j].pay, g[a], db.assets[a].step);
      }
    }
  }

  /** The amount falls into the window of this held invoice of the transfer's token. */
  predicate FallsTo(db: Db, x: Observed, i: InvoiceId) {
    && i in db.invoices
    && IsAsset(db, x.ref.network, x.contract, db.invoices[i].asset)
    && Claims(db, db.invoices[i].asset, x.value, i)
  }

  lemma LookupsAre(db: Db, x: Observed, l: Lookups)
    requires Unambiguous(db) && LookupsOk(db, x, l)
    ensures forall i: InvoiceId :: FallsTo(db, x, i) <==> l.asset.Some? && l.invoice == Some(i)
  {
  }

  /** Whose transfer it is: its live payment row says so, or else its amount. */
  predicate Belongs(db: Db, x: Observed, i: InvoiceId) {
    if x.ref in db.payments && IsLive(db.payments[x.ref]) then db.payments[x.ref].invoice == Some(i)
    else FallsTo(db, x, i)
  }

  /** The invoice has ended before transfer `k`'s turn: it had at the start, or an earlier one confirms it. */
  ghost predicate Ended(db: Db, xs: seq<Observed>, k: nat, i: InvoiceId) {
    && i in db.invoices
    && (IsTerminal(db.invoices[i].status) || exists j: nat :: j < k && j < |xs| && xs[j].final && Belongs(db, xs[j], i))
  }

  /** A new transfer to an invoice that is open in its turn. */
  ghost predicate PaysInTurn(db: Db, xs: seq<Observed>, j: nat, i: InvoiceId) {
    j < |xs| && xs[j].ref !in db.payments && FallsTo(db, xs[j], i) && !Ended(db, xs, j, i)
  }

  /** The invoice has a live payment before transfer `k`'s turn. */
  ghost predicate PaidBefore(db: Db, xs: seq<Observed>, k: nat, i: InvoiceId) {
    HasLive(db, i) || exists j: nat :: j < k && PaysInTurn(db, xs, j, i)
  }

  predicate SeenBefore(xs: seq<Observed>, k: nat)
    requires k < |xs|
  {
    exists j: nat :: j < k && xs[j].ref == xs[k].ref
  }

  /** Transfer `k` is refused in its turn, if none before it is: its value is not positive, or it is new and falls to an
      invoice that is still open then and has a live payment then. */
  ghost predicate TurnedDown(db: Db, xs: seq<Observed>, k: nat)
    requires k < |xs|
  {
    || xs[k].value <= 0
    || (xs[k].ref !in db.payments && !SeenBefore(xs, k) && exists i :: TakenInTurn(db, xs, k, i))
  }

  ghost predicate TakenInTurn(db: Db, xs: seq<Observed>, k: nat, i: InvoiceId)
    requires k < |xs|
  {
    FallsTo(db, xs[k], i) && !Ended(db, xs, k, i) && PaidBefore(db, xs, k, i)
  }

  /** Of one network, and a transfer that comes again is the same, final or not. */
  ghost predicate OneNetwork(n: Network, xs: seq<Observed>) {
    && (forall k | 0 <= k < |xs| :: xs[k].ref.network == n)
    && (forall j, k | 0 <= j < |xs| && 0 <= k < |xs| && xs[j].ref == xs[k].ref ::
          xs[j].contract == xs[k].contract && xs[j].value == xs[k].value)
  }

  // ------------------------------------------------------------------ the tables in between

  /** The tables when the first `k` transfers have been applied, in terms of those at the start. */
  ghost predicate Midway(start: Db, xs: seq<Observed>, k: nat, db: Db) {
    && LedgerOk(db) && SameClaims(start, db)
    && (forall i | i in start.invoices ::
          && i in db.invoices
          && (IsTerminal(db.invoices[i].status) <==> Ended(start, xs, k, i))
          && (IsTerminal(start.invoices[i].status) ==> db.invoices[i].status == start.invoices[i].status)
          && (Ended(start, xs, k, i) && !IsTerminal(start.invoices[i].status) ==> db.invoices[i].status == Confirmed))
    && (forall r | r in start.payments :: r in db.payments && db.payments[r] == start.payments[r])
    && (forall r | r in db.payments && r !in start.payments :: exists i :: NewLive(start, xs, k, db, r, i))
    && (forall j: nat, i | j < k && PaysInTurn(start, xs, j, i) :: LiveOn(db, xs[j].ref, i))
  }

  /** A payment made on the way, of the transfer that made it. */
  ghost predicate NewLive(start: Db, xs: seq<Observed>, k: nat, db: Db, r: Ref, i: InvoiceId) {
    LiveOn(db, r, i) && exists j: nat :: j < k && PaysInTurn(start, xs, j, i) && xs[j].ref == r
  }

  lemma MidwayBegins(db: Db, xs: seq<Observed>)
    requires LedgerOk(db)
    ensures Midway(db, xs, 0, db)
  {
  }

  /** What the invoice has been paid with, midway. */
  lemma PaidMidway(start: Db, xs: seq<Observed>, k: nat, db: Db, i: InvoiceId)
    requires Midway(start, xs, k, db)
    ensures HasLive(db, i) <==> PaidBefore(start, xs, k, i)
  {
    if HasLive(db, i) {
      var r :| r in db.payments && LiveOn(db, r, i);
      if r in start.payments {
        assert LiveOn(start, r, i);
      } else {
        var o :| NewLive(start, xs, k, db, r, o);
      }
    }
    if HasLive(start, i) {
      var r :| r in start.payments && LiveOn(start, r, i);
      assert LiveOn(db, r, i);
    }
  }

  /** A transfer without a live payment midway: withdrawn before the start, or not recorded at all. */
  lemma NotLiveMidway(start: Db, xs: seq<Observed>, k: nat, db: Db, r: Ref)
    requires Midway(start, xs, k, db) && !(r in db.payments && IsLive(db.payments[r]))
    ensures r in db.payments <==> r in start.payments
    ensures !(r in start.payments && IsLive(start.payments[r]))
  {
    hide LedgerOk, SameClaims, Ended, PaysInTurn;
    assert forall i :: !NewLive(start, xs, k, db, r, i);
  }

  lemma SameFall(start: Db, db: Db, x: Observed, i: InvoiceId)
    requires SameClaims(start, db)
    ensures FallsTo(start, x, i) <==> FallsTo(db, x, i)
  {
  }

  lemma StillUnambiguous(start: Db, db: Db)
    requires SameClaims(start, db) && Unambiguous(start)
    ensures Unambiguous(db)
  {
    forall a, amount, i, j | Claims(db, a, amount, i) && Claims(db, a, amount, j) ensures i == j {
      assert Claims(start, a, amount, i) && Claims(start, a, amount, j);
    }
  }

  /** The order's only facts about a transfer that matter here. */
  predicate Alike(x: Observed, y: Observed) {
    x.ref == y.ref && x.contract == y.contract && x.value == y.value && x.final == y.final
  }

  /** Midway, a transfer belongs to the invoice it belonged to at the start. */
  lemma BelongsMidway(start: Db, xs: seq<Observed>, k: nat, db: Db, m: nat, i: InvoiceId)
    requires Midway(start, xs, k, db) && Unambiguous(start) && m < |xs| && OneNetwork(xs[m].ref.network, xs)
    ensures Belongs(start, xs[m], i) <==> Belongs(db, xs[m], i)
  {
    hide LedgerOk, SameClaims, Ended, Claims, IsAsset;
    var x := xs[m];
    forall o ensures FallsTo(start, x, o) <==> FallsTo(db, x, o) { SameFall(start, db, x, o); }
    if x.ref in db.payments && IsLive(db.payments[x.ref]) {
      if x.ref !in start.payments {
        var o :| NewLive(start, xs, k, db, x.ref, o);
        assert FallsTo(start, x, o);
        OnlyFall(start, x, o, i);
      }
    } else {
      NotLiveMidway(start, xs, k, db, x.ref);
    }
  }

  lemma OnlyFall(db: Db, x: Observed, i: InvoiceId, j: InvoiceId)
    requires Unambiguous(db) && FallsTo(db, x, i)
    ensures FallsTo(db, x, j) <==> i == j
  {
  }

  lemma EndedNext(db: Db, xs: seq<Observed>, k: nat, i: InvoiceId)
    requires k < |xs|
    ensures Ended(db, xs, k + 1, i) <==>
              Ended(db, xs, k, i) || (i in db.invoices && xs[k].final && Belongs(db, xs[k], i))
  {
    hide Belongs;
  }

  // ------------------------------------------------------------------ one transfer

  /** What one undisturbed `Apply` that succeeds does: a final transfer ends its invoice, a new one pays it if open. */
  ghost predicate AppliesOne(db: Db, after: Db, x: Observed) {
    && LedgerOk(after) && SameClaims(db, after)
    && (forall i | i in db.invoices ::
          && i in after.invoices
          && (IsTerminal(after.invoices[i].status) <==>
                IsTerminal(db.invoices[i].status) || (x.final && Belongs(db, x, i)))
          && (IsTerminal(db.invoices[i].status) ==> after.invoices[i].status == db.invoices[i].status)
          && (IsTerminal(after.invoices[i].status) && !IsTerminal(db.invoices[i].status) ==>
                after.invoices[i].status == Confirmed))
    && (forall r | r in db.payments :: r in after.payments && after.payments[r] == db.payments[r])
    && (forall r | r in after.payments && r !in db.payments :: r == x.ref && exists i :: PaidNow(db, after, x, i))
    && (forall i | x.ref !in db.payments && OpenFor(db, x, i) :: LiveOn(after, x.ref, i))
  }

  predicate OpenFor(db: Db, x: Observed, i: InvoiceId) {
    FallsTo(db, x, i) && !IsTerminal(db.invoices[i].status)
  }

  predicate PaidNow(db: Db, after: Db, x: Observed, i: InvoiceId) {
    OpenFor(db, x, i) && LiveOn(after, x.ref, i)
  }

  lemma ReapplyOne(cfg: Config, db: Db, x: Observed, ev: EventId)
    requires LedgerOk(db) && x.ref in db.payments && IsLive(db.payments[x.ref])
    ensures var after := After(db, Finish(cfg, db, Reapply(db.payments[x.ref], x.final), ev));
            LedgerOk(after) && SameClaims(db, after) ==> AppliesOne(db, after, x)
  {
    hide LedgerOk, SameClaims, FallsTo;
    var p := db.payments[x.ref];
    if x.final {
      SettleWrites(cfg, db, p, ev);
      LedgerIsLinked(db);
      SettlesOpen(cfg, db, p, ev);
      hide SettleTx;
    }
  }

  lemma SettlesOpen(cfg: Config, db: Db, p: Payment, ev: EventId)
    requires Linked(db) && IsLive(p)
    ensures p.invoice.Some? && p.invoice.value in db.invoices ==>
              var after := After(db, SettleTx(cfg, db, p, ev));
              p.invoice.value in after.invoices && IsTerminal(after.invoices[p.invoice.value].status)
  {
    hide EnqueueEvent;
  }

  lemma CreditOne(cfg: Config, db: Db, x: Observed, asset: AssetId, id: InvoiceId, ev: EventId)
    requires LedgerOk(db) && id in db.invoices && !IsTerminal(db.invoices[id].status)
    requires !(x.ref in db.payments && IsLive(db.payments[x.ref]))
    requires forall i :: FallsTo(db, x, i) <==> i == id
    ensures var a := CreditTx(cfg, db, x, asset, id, db.invoices[id], ev);
            a.Done? && LedgerOk(a.db) && SameClaims(db, a.db) ==> AppliesOne(db, a.db, x)
  {
    hide LedgerOk, SameClaims, FallsTo;
    CreditEnds(cfg, db, x, asset, id, ev);
    hide CreditTx;
    var a := CreditTx(cfg, db, x, asset, id, db.invoices[id], ev);
    if a.Done? && x.ref !in db.payments {
      assert FallsTo(db, x, id);
      assert PaidNow(db, a.db, x, id);
    }
  }

  lemma CreditEnds(cfg: Config, db: Db, x: Observed, asset: AssetId, id: InvoiceId, ev: EventId)
    requires id in db.invoices && !IsTerminal(db.invoices[id].status)
    requires !(x.ref in db.payments && IsLive(db.payments[x.ref]))
    ensures var a := CreditTx(cfg, db, x, asset, id, db.invoices[id], ev);
            a.Done? ==>
              && a.db.invoices.Keys == db.invoices.Keys
              && (forall i | i in db.invoices && i != id :: a.db.invoices[i] == db.invoices[i])
              && a.db.invoices[id].status == (if x.final then Confirmed else Detected)
              && a.db.payments == (if x.ref in db.payments then db.payments
                                   else db.payments[x.ref := PaymentOf(x, asset, id)])
  {
    hide HasLive, EnqueueEvent;
  }

  lemma OrphanOne(db: Db, after: Db, x: Observed)
    requires LedgerOk(after)
    requires after.payments == db.payments && after.invoices == db.invoices && after.assets == db.assets
    requires !(x.ref in db.payments && IsLive(db.payments[x.ref])) && forall i :: !OpenFor(db, x, i)
    ensures AppliesOne(db, after, x)
  {
    hide FallsTo, LedgerOk;
    forall i | i in db.invoices && Belongs(db, x, i) ensures IsTerminal(db.invoices[i].status) {
      assert !OpenFor(db, x, i);
    }
  }

  /** One undisturbed `Apply`: it fails exactly when the value is not positive, or the transfer is new and falls to an
      open invoice that has a live payment. */
  lemma OneApply(cfg: Config, db: Db, x: Observed, l: Lookups, ev: EventId)
    requires LedgerOk(db) && Unambiguous(db) && LookupsOk(db, x, l)
    ensures var a := ApplyNow(cfg, db, x, l, ev);
            && (a.Failed? <==>
                  x.value <= 0 || (x.ref !in db.payments && exists i :: OpenFor(db, x, i) && HasLive(db, i)))
            && (a.Done? ==> AppliesOne(db, a.db, x))
  {
    hide LedgerOk, HasLive, Unambiguous, FallsTo, AppliesOne, SameClaims, CreditTx, SettleTx, LookupsOk, Linked, Grows,
         FoundOpen, StillSound;
    FoundIsThere(db, x, l);
    LookupsAre(db, x, l);
    ApplyFailsIff(cfg, db, x, l, ev);
    ApplyKeepsClaims(cfg, db, x, l, ev);
    LedgerIsLinked(db);
    ReadIsSound(db, x, l);
    LedgerStep(cfg, db, Decide(Read(db, x, l), ev));
    FailsByFall(db, x, l);
    var d := Read(db, x, l);
    match d {
      case Reapply(p, final) => ReapplyOne(cfg, db, x, ev);
      case Credit(_, asset, id, _) => CreditOne(cfg, db, x, asset, id, ev);
      case FileOrphan(_, _, _) => OrphanOne(db, After(db, ApplyNow(cfg, db, x, l, ev)), x);
      case Reject(_) =>
    }
  }

  lemma FailsByFall(db: Db, x: Observed, l: Lookups)
    requires forall i: InvoiceId :: FallsTo(db, x, i) <==> l.asset.Some? && l.invoice == Some(i)
    ensures FoundOpen(db, l) && HasLive(db, l.invoice.value) <==> exists i :: OpenFor(db, x, i) && HasLive(db, i)
  {
    hide FallsTo, HasLive;
    if FoundOpen(db, l) && HasLive(db, l.invoice.value) {
      assert FallsTo(db, x, l.invoice.value);
      assert OpenFor(db, x, l.invoice.value);
    }
    if exists i :: OpenFor(db, x, i) && HasLive(db, i) {
      var i :| OpenFor(db, x, i) && HasLive(db, i);
      FallIsRow(db, x, i);
    }
  }

  lemma FallIsRow(db: Db, x: Observed, i: InvoiceId)
    requires FallsTo(db, x, i)
    ensures i in db.invoices
  {
  }

  // ------------------------------------------------------------------ the whole sequence

  lemma FallAlike(db: Db, x: Observed, y: Observed)
    requires Alike(x, y)
    ensures forall i :: FallsTo(db, x, i) <==> FallsTo(db, y, i)
    ensures forall i :: Belongs(db, x, i) <==> Belongs(db, y, i)
  {
  }

  /** Midway, the next transfer is refused exactly when it is refused in its turn by the tables at the start. */
  lemma RefusedMidway(start: Db, xs: seq<Observed>, k: nat, db: Db)
    requires Midway(start, xs, k, db) && k < |xs| && OneNetwork(xs[k].ref.network, xs)
    ensures TurnedDown(start, xs, k) <==>
              xs[k].value <= 0
              || (xs[k].ref !in db.payments && exists i :: OpenFor(db, xs[k], i) && HasLive(db, i))
  {
    hide LedgerOk, HasLive, SameClaims, PaidBefore, FallsTo, Midway, PaysInTurn;
    var x := xs[k];
    MidwayClaims(start, xs, k, db);
    forall i ensures TakenInTurn(start, xs, k, i) <==> OpenFor(db, x, i) && HasLive(db, i) {
      SameFall(start, db, x, i);
      PaidMidway(start, xs, k, db, i);
      EndedMidway(start, xs, k, db, x, i);
    }
    if x.ref !in db.payments {
      NewMidway(start, xs, k, db, x.ref);
    }
    if x.ref in db.payments && x.ref !in start.payments {
      RecordedMidway(start, xs, k, db);
    }
    if x.ref !in db.payments && SeenBefore(xs, k) {
      var j: nat :| j < k && xs[j].ref == xs[k].ref;
      forall i ensures !OpenFor(db, x, i) {
        if OpenFor(db, x, i) {
          SeenIsPaid(start, xs, k, db, j, i);
        }
      }
    }
  }

  lemma MidwayClaims(start: Db, xs: seq<Observed>, k: nat, db: Db)
    requires Midway(start, xs, k, db)
    ensures SameClaims(start, db) && LedgerOk(db)
    ensures forall r | r in start.payments :: r in db.payments
  {
  }

  lemma EndedMidway(start: Db, xs: seq<Observed>, k: nat, db: Db, x: Observed, i: InvoiceId)
    requires Midway(start, xs, k, db)
    ensures FallsTo(start, x, i) ==> i in db.invoices && (IsTerminal(db.invoices[i].status) <==> Ended(start, xs, k, i))
  {
    hide Ended, LedgerOk, SameClaims;
  }

  lemma NewMidway(start: Db, xs: seq<Observed>, k: nat, db: Db, r: Ref)
    requires Midway(start, xs, k, db) && r !in db.payments
    ensures r !in start.payments
  {
  }

  lemma RecordedMidway(start: Db, xs: seq<Observed>, k: nat, db: Db)
    requires Midway(start, xs, k, db) && k < |xs| && xs[k].ref in db.payments && xs[k].ref !in start.payments
    ensures SeenBefore(xs, k)
  {
    hide LedgerOk, SameClaims, Ended, PaysInTurn;
    var i :| NewLive(start, xs, k, db, xs[k].ref, i);
  }

  lemma SeenIsPaid(start: Db, xs: seq<Observed>, k: nat, db: Db, j: nat, i: InvoiceId)
    requires Midway(start, xs, k, db) && k < |xs| && OneNetwork(xs[k].ref.network, xs)
    requires j < k && xs[j].ref == xs[k].ref && xs[k].ref !in start.payments && OpenFor(db, xs[k], i)
    ensures xs[k].ref in db.payments
  {
    hide LedgerOk, SameClaims;
    SameFall(start, db, xs[k], i);
    SameFall(start, db, xs[j], i);
    assert FallsTo(start, xs[j], i);
    assert !Ended(start, xs, k, i);
    assert PaysInTurn(start, xs, j, i);
  }

  lemma NextMidway(start: Db, xs: seq<Observed>, k: nat, db: Db, after: Db)
    requires Midway(start, xs, k, db) && k < |xs| && OneNetwork(xs[k].ref.network, xs) && Unambiguous(start)
    requires AppliesOne(db, after, xs[k])
    ensures Midway(start, xs, k + 1, after)
  {
    hide LedgerOk, HasLive, FallsTo, PaysInTurn, Belongs, Ended;
    var x := xs[k];
    forall i | i in start.invoices
      ensures i in after.invoices
      ensures IsTerminal(after.invoices[i].status) <==> Ended(start, xs, k + 1, i)
    {
      BelongsMidway(start, xs, k, db, k, i);
      EndedNext(start, xs, k, i);
    }
    assert forall r | r in start.payments :: r in after.payments && after.payments[r] == start.payments[r];
    var next := k + 1;
    forall r | r in after.payments && r !in start.payments ensures exists i :: NewLive(start, xs, next, after, r, i) {
      if r in db.payments {
        var i :| NewLive(start, xs, k, db, r, i);
        assert NewLive(start, xs, next, after, r, i);
      } else {
        var i :| PaidNow(db, after, x, i);
        OpenPays(start, xs, k, db, i);
        assert NewLive(start, xs, next, after, r, i);
      }
    }
    forall j: nat, i | j < next && PaysInTurn(start, xs, j, i) ensures LiveOn(after, xs[j].ref, i) {
      if j == k {
        PaysIsLive(start, xs, k, db, after, i);
      } else {
        assert LiveOn(db, xs[j].ref, i);
      }
    }
  }

  /** Midway, a new transfer that falls to an open invoice pays it in its turn. */
  lemma OpenPays(start: Db, xs: seq<Observed>, k: nat, db: Db, i: InvoiceId)
    requires Midway(start, xs, k, db) && k < |xs| && xs[k].ref !in start.payments && OpenFor(db, xs[k], i)
    ensures PaysInTurn(start, xs, k, i)
  {
    SameFall(start, db, xs[k], i);
  }

  lemma PaysIsLive(start: Db, xs: seq<Observed>, k: nat, db: Db, after: Db, i: InvoiceId)
    requires Midway(start, xs, k, db) && k < |xs| && OneNetwork(xs[k].ref.network, xs) && Unambiguous(start)
    requires AppliesOne(db, after, xs[k]) && PaysInTurn(start, xs, k, i)
    ensures LiveOn(after, xs[k].ref, i)
  {
    hide LedgerOk, SameClaims, Ended;
    var x := xs[k];
    SameFall(start, db, x, i);
    assert OpenFor(db, x, i);
    if x.ref in db.payments {
      var o :| NewLive(start, xs, k, db, x.ref, o);
      assert FallsTo(start, x, o);
      OnlyFall(start, x, o, i);
    }
  }

  /** What became of the sequence: one undisturbed `Apply` after the other, up to the first that failed. */
  ghost predicate Handed(cfg: Config, xs: seq<Observed>, trail: seq<Db>, ok: bool) {
    && 1 <= |trail| <= |xs| + 1
    && (ok ==> |trail| == |xs| + 1) && (!ok ==> |trail| >= 2)
    && (forall k: nat | k < |trail| - 1 :: HandedOne(cfg, trail[k], trail[k + 1], xs[k], ok || k < |trail| - 2))
  }

  ghost predicate HandedOne(cfg: Config, db: Db, after: Db, x: Observed, ok: bool) {
    exists y: Observed, ev: EventId :: Alike(x, y) && AppliedAs(cfg, db, after, y, [], [], ev, ok)
  }

  lemma OneHanded(cfg: Config, start: Db, xs: seq<Observed>, k: nat, db: Db, after: Db, ok: bool)
    requires Midway(start, xs, k, db) && k < |xs| && OneNetwork(xs[k].ref.network, xs) && Unambiguous(start)
    requires HandedOne(cfg, db, after, xs[k], ok)
    ensures ok <==> !TurnedDown(start, xs, k)
    ensures if ok then Midway(start, xs, k + 1, after) else after == db
  {
    hide LedgerOk, HasLive, FallsTo, AppliesOne, LookupsOk, TurnedDown, Midway, Unambiguous, ApplyNow, Belongs;
    var y: Observed, ev: EventId :| Alike(xs[k], y) && AppliedAs(cfg, db, after, y, [], [], ev, ok);
    var l := UndisturbedLookups(cfg, db, after, y, ev, ok);
    MidwayClaims(start, xs, k, db);
    StillUnambiguous(start, db);
    OneApply(cfg, db, y, l, ev);
    FallAlike(db, xs[k], y);
    RefusedMidway(start, xs, k, db);
    if ok {
      AppliesAlike(db, after, y, xs[k]);
      NextMidway(start, xs, k, db, after);
    }
  }

  lemma AppliesAlike(db: Db, after: Db, y: Observed, x: Observed)
    requires AppliesOne(db, after, y) && Alike(x, y)
    ensures AppliesOne(db, after, x)
  {
    hide LedgerOk, SameClaims, FallsTo, Belongs;
    FallAlike(db, x, y);
    forall i | PaidNow(db, after, y, i) ensures PaidNow(db, after, x, i) {}
  }

  lemma UndisturbedLookups(cfg: Config, db: Db, after: Db, x: Observed, ev: EventId, ok: bool) returns (l: Lookups)
    requires AppliedAs(cfg, db, after, x, [], [], ev, ok)
    ensures LookupsOk(db, x, l) && (l.asset.Some? && l.invoice.Some? ==> l.invoice.value in db.invoices)
    ensures var a := ApplyNow(cfg, db, x, l, ev); after == After(db, a) && ok == a.Done?
  {
    hide LookupsOk, Finish;
    assert RunOutside(cfg, db, x.ref.network, []) == db;
    assert exists l | LookupsOk(db, x, l) :: AnsweredAs(cfg, db, after, x, l, [], ev, ok);
    l :| LookupsOk(db, x, l) && AnsweredAs(cfg, db, after, x, l, [], ev, ok);
    FoundIsThere(db, x, l);
  }

  lemma {:induction false} HandedMidway(cfg: Config, n: Network, xs: seq<Observed>, trail: seq<Db>, ok: bool, k: nat)
    requires Handed(cfg, xs, trail, ok) && OneNetwork(n, xs) && Unambiguous(trail[0]) && LedgerOk(trail[0])
    requires k < |trail|
    ensures ok || k < |trail| - 1 ==>
              Midway(trail[0], xs, k, trail[k]) && forall j: nat | j < k :: !TurnedDown(trail[0], xs, j)
    ensures !ok && k == |trail| - 1 ==> trail[k] == trail[k - 1] && TurnedDown(trail[0], xs, k - 1)
    decreases k
  {
    hide HandedOne, Midway, TurnedDown, LedgerOk, Unambiguous;
    if k == 0 {
      MidwayBegins(trail[0], xs);
    } else {
      HandedMidway(cfg, n, xs, trail, ok, k - 1);
      assert HandedOne(cfg, trail[k - 1], trail[k], xs[k - 1], ok || k - 1 < |trail| - 2);
      OneHanded(cfg, trail[0], xs, k - 1, trail[k - 1], trail[k], ok || k - 1 < |trail| - 2);
    }
  }

  /** A sequence left alone is applied as a whole if and only if no transfer of it is refused in its turn, as the tables
      at the start and the transfers before it tell; otherwise it stops at the first that is. */
  lemma AppliedIff(cfg: Config, n: Network, xs: seq<Observed>, trail: seq<Db>, ok: bool)
    requires Handed(cfg, xs, trail, ok) && OneNetwork(n, xs) && Unambiguous(trail[0]) && LedgerOk(trail[0])
    ensures ok <==> forall k: nat | k < |xs| :: !TurnedDown(trail[0], xs, k)
    ensures !ok ==>
              TurnedDown(trail[0], xs, |trail| - 2) && forall j: nat | j < |trail| - 2 :: !TurnedDown(trail[0], xs, j)
    ensures var done := if ok then |xs| else |trail| - 2; Midway(trail[0], xs, done, trail[|trail| - 1])
  {
    hide HandedOne, Midway, TurnedDown, LedgerOk, Unambiguous;
    HandedMidway(cfg, n, xs, trail, ok, |trail| - 1);
    if !ok {
      HandedMidway(cfg, n, xs, trail, ok, |trail| - 2);
    }
  }

  // ------------------------------------------------------------------ when everything is final

  predicate AllFinal(xs: seq<Observed>) {
    forall k | 0 <= k < |xs| :: xs[k].final
  }

  /** Transfer `k` stops the sequence: its value is not positive, or it is new and falls to an open invoice that has a
      live payment, which no transfer before it settles. */
  ghost predicate Stops(db: Db, xs: seq<Observed>, k: nat)
    requires k < |xs|
  {
    xs[k].value <= 0 || (xs[k].ref !in db.payments && exists i :: StopsAt(db, xs, k, i))
  }

  ghost predicate StopsAt(db: Db, xs: seq<Observed>, k: nat, i: InvoiceId)
    requires k < |xs|
  {
    OpenFor(db, xs[k], i) && HasLive(db, i) && forall j: nat | j < k :: !Belongs(db, xs[j], i)
  }

  lemma RefusedIffStops(n: Network, db: Db, xs: seq<Observed>, k: nat)
    requires AllFinal(xs) && OneNetwork(n, xs) && k < |xs|
    ensures TurnedDown(db, xs, k) <==> Stops(db, xs, k)
  {
    hide HasLive;
    forall i | TakenInTurn(db, xs, k, i) && xs[k].ref !in db.payments ensures StopsAt(db, xs, k, i) {
      TakenStops(db, xs, k, i);
    }
    forall i | StopsAt(db, xs, k, i) && xs[k].ref !in db.payments
      ensures !SeenBefore(xs, k) && TakenInTurn(db, xs, k, i)
    {
      NotSeen(n, db, xs, k, i);
    }
  }

  lemma TakenStops(db: Db, xs: seq<Observed>, k: nat, i: InvoiceId)
    requires AllFinal(xs) && k < |xs| && TakenInTurn(db, xs, k, i)
    ensures StopsAt(db, xs, k, i)
  {
    hide HasLive, FallsTo;
    FallIsRow(db, xs[k], i);
    forall j: nat | j < k ensures !Belongs(db, xs[j], i) && !PaysInTurn(db, xs, j, i) {
      assert xs[j].final;
    }
  }

  lemma NotSeen(n: Network, db: Db, xs: seq<Observed>, k: nat, i: InvoiceId)
    requires OneNetwork(n, xs) && k < |xs| && StopsAt(db, xs, k, i) && xs[k].ref !in db.payments
    ensures !SeenBefore(xs, k)
  {
    hide HasLive;
    forall j: nat | j < k ensures xs[j].ref != xs[k].ref {
      assert xs[j].ref == xs[k].ref ==> FallsTo(db, xs[j], i);
      assert !Belongs(db, xs[j], i);
    }
  }

  lemma HandedIsShort(cfg: Config, xs: seq<Observed>, trail: seq<Db>)
    requires Handed(cfg, xs, trail, false)
    ensures 2 <= |trail| <= |xs| + 1
  {
  }

  /** What stopped a sequence stops it again. */
  lemma StopsAgain(cfg: Config, n: Network, xs: seq<Observed>, trail: seq<Db>)
    requires Handed(cfg, xs, trail, false) && OneNetwork(n, xs) && AllFinal(xs)
    requires Unambiguous(trail[0]) && LedgerOk(trail[0])
    ensures var end := trail[|trail| - 1]; LedgerOk(end) && Unambiguous(end) && Stops(end, xs, |trail| - 2)
  {
    hide Handed, TurnedDown, LedgerOk, Unambiguous, Midway, Stops, OneNetwork, AllFinal;
    var start, end, b := FailsAt(cfg, n, xs, trail);
    MidwaySound(start, xs, b, end);
    StopsMidway(n, start, xs, b, end);
  }

  /** Where a sequence that failed did, and the tables then. */
  lemma FailsAt(cfg: Config, n: Network, xs: seq<Observed>, trail: seq<Db>) returns (start: Db, end: Db, b: nat)
    requires Handed(cfg, xs, trail, false) && OneNetwork(n, xs) && Unambiguous(trail[0]) && LedgerOk(trail[0])
    ensures |trail| >= 2 && start == trail[0] && end == trail[|trail| - 1] && b == |trail| - 2 && b < |xs|
    ensures Midway(start, xs, b, end) && TurnedDown(start, xs, b)
  {
    hide HandedOne, Midway, TurnedDown, LedgerOk, Unambiguous, OneNetwork;
    start, end, b := trail[0], trail[|trail| - 1], |trail| - 2;
    AppliedIff(cfg, n, xs, trail, false);
  }

  lemma MidwaySound(start: Db, xs: seq<Observed>, k: nat, db: Db)
    requires Midway(start, xs, k, db) && Unambiguous(start)
    ensures LedgerOk(db) && Unambiguous(db)
  {
    hide Unambiguous, LedgerOk;
    StillUnambiguous(start, db);
  }

  lemma StopsMidway(n: Network, start: Db, xs: seq<Observed>, b: nat, db: Db)
    requires Midway(start, xs, b, db) && Unambiguous(start) && b < |xs| && OneNetwork(n, xs) && AllFinal(xs)
    requires TurnedDown(start, xs, b)
    ensures Stops(db, xs, b)
  {
    hide TurnedDown, Unambiguous, HasLive, Belongs, Midway, FallsTo, SameClaims, AllFinal, OpenFor;
    assert OneNetwork(xs[b].ref.network, xs);
    RefusedMidway(start, xs, b, db);
    if xs[b].value > 0 {
      var i :| OpenFor(db, xs[b], i) && HasLive(db, i);
      OpenStaysOpen(start, xs, b, db, i);
      forall j: nat | j < b ensures !Belongs(db, xs[j], i) {
        BelongsMidway(start, xs, b, db, j, i);
      }
      assert StopsAt(db, xs, b, i);
    }
  }

  lemma OpenStaysOpen(start: Db, xs: seq<Observed>, b: nat, db: Db, i: InvoiceId)
    requires Midway(start, xs, b, db) && b < |xs| && AllFinal(xs) && OpenFor(db, xs[b], i)
    ensures forall j: nat | j < b :: !Belongs(start, xs[j], i)
  {
    hide LedgerOk, Belongs;
    SameFall(start, db, xs[b], i);
    assert !Ended(start, xs, b, i);
    forall j: nat | j < b ensures !Belongs(start, xs[j], i) {
      assert xs[j].final;
    }
  }
}
