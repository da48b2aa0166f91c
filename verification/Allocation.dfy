/** Choosing a pay amount nobody holds (internal/adapter/postgres/invoice_repo.go). */
module Allocation {
  import opened Query
  import opened Domain
  import opened Tables
  import opened Matching
  import opened Ledger
  import opened Interference
  import opened Store
  import opened Arithmetic

  type Int32 = n: int | -0x8000_0000 <= n < 0x8000_0000

  /** The amount a nonce stands for. */
  function AmountAt(base: int, step: int, nonce: int): int {
    base + nonce * step
  }

  lemma AmountMeans(base: int, step: int, nonce: int)
    ensures AmountAt(base, step, nonce) == base + nonce * step
  {
  }

  lemma AmountsAscend(base: int, step: int, m: int, n: int)
    requires step > 0
    ensures m < n ==> AmountAt(base, step, m) < AmountAt(base, step, n)
  {
    ProductBounds(n - m, step);
    assert (n - m) * step == n * step - m * step;
  }

  lemma AmountsDistinct(base: int, step: int, m: int, n: int)
    requires step > 0 && AmountAt(base, step, m) == AmountAt(base, step, n)
    ensures m == n
  {
    AmountsAscend(base, step, m, n);
    AmountsAscend(base, step, n, m);
  }

  lemma AtNonce(base: int, step: int, p: int)
    requires step > 0 && (p - base) % step == 0
    ensures p == AmountAt(base, step, (p - base) / step)
  {
  }

  predicate NotAmong(base: int, step: int, lo: int, hi: int, held: seq<int>) {
    forall m | lo <= m < hi :: AmountAt(base, step, m) !in held
  }

  /** A held amount that is nonce `n`, at or below the candidate, takes away that candidate at most. */
  lemma PassOver(base: int, step: int, candidate: int, nonceMax: int, held: seq<int>, n: int)
    requires step > 0 && n <= candidate && NotAmong(base, step, candidate, nonceMax, held)
    ensures NotAmong(base, step, if n == candidate then candidate + 1 else candidate, nonceMax,
                     held + [AmountAt(base, step, n)])
  {
    forall m | candidate <= m < nonceMax && n != m ensures AmountAt(base, step, m) != AmountAt(base, step, n) {
      if AmountAt(base, step, m) == AmountAt(base, step, n) { AmountsDistinct(base, step, m, n); }
    }
  }

  /** The rest of an ascending list is above a candidate that is below its first entry. */
  lemma AllAbove(base: int, step: int, candidate: int, n: int, held: seq<int>, k: nat)
    requires step > 0 && candidate < n && k < |held| && held[k] == AmountAt(base, step, n)
    requires forall i, j :: 0 <= i < j < |held| ==> held[i] <= held[j]
    ensures AmountAt(base, step, candidate) !in held[k..]
  {
    forall j | k <= j < |held| ensures AmountAt(base, step, candidate) < held[j] {
      AmountsAscend(base, step, candidate, n);
    }
  }

  /** One pass over the ascending held amounts. The least nonce whose amount is not among them, or a refusal exactly
      when there is none. Off-grid, repeated and below-base entries are passed over. */
  method LowestFreeNonce(base: int, step: int, nonceMax: Int32, held: seq<int>)
    returns (ok: bool, nonce: int, pay: int)
    requires forall j, k :: 0 <= j < k < |held| ==> held[j] <= held[k]
    ensures ok ==> step > 0 && 0 <= nonce < nonceMax && pay !in held
    ensures ok ==> pay == AmountAt(base, step, nonce) == base + nonce * step
    ensures ok ==> forall m :: 0 <= m < nonce ==> AmountAt(base, step, m) in held
    ensures !ok ==> step <= 0 || forall m :: 0 <= m < nonceMax ==> AmountAt(base, step, m) in held
  {
    hide AmountAt;
    if step <= 0 || nonceMax <= 0 {
      return false, 0, 0;
    }
    var candidate := 0;
    var k := 0;
    while k < |held|
      invariant 0 <= k <= |held|
      invariant 0 <= candidate < nonceMax
      invariant forall m :: 0 <= m < candidate ==> AmountAt(base, step, m) in held
      invariant NotAmong(base, step, candidate, nonceMax, held[..k])
    {
      assert held[..k + 1] == held[..k] + [held[k]];
      var diff := held[k] - base;
      if diff >= 0 && diff % step == 0 && diff / step < 0x8000_0000_0000_0000 {
        var n := diff / step;
        AtNonce(base, step, held[k]);
        if n > candidate {
          AllAbove(base, step, candidate, n, held, k);
          break;
        }
        PassOver(base, step, candidate, nonceMax, held[..k], n);
        if n == candidate {
          candidate := candidate + 1;
          if candidate >= nonceMax {
            return false, 0, 0;
          }
        }
      } else {
        forall m | candidate <= m < nonceMax ensures AmountAt(base, step, m) != held[k] {
          OnGridOnly(base, step, m, held[k]);
        }
      }
      k := k + 1;
    }
    assert held[..k] + held[k..] == held;
    AmountMeans(base, step, candidate);
    return true, candidate, AmountAt(base, step, candidate);
  }

  lemma OnGridOnly(base: int, step: int, m: int, h: int)
    requires step > 0 && 0 <= m < 0x8000_0000
    ensures h == AmountAt(base, step, m) ==>
              h - base >= 0 && (h - base) % step == 0 && (h - base) / step == m
  {
    if h == AmountAt(base, step, m) {
      assert h - base == m * step;
      MultipleHasNoRemainder(m, step);
      assert (h - base) / step * step == m * step;
      AmountsDistinct(0, step, (h - base) / step, m);
    }
  }

  // ------------------------------------------------------------------ CreateInvoice

  datatype Request = Request(id: InvoiceId, externalId: Option<string>, asset: AssetId, terms: Asset, base: int,
                             expiresAt: Time, holdUntil: Time)

  datatype Allocated =
    | Issued(nonce: int, pay: int)
    | AmountSpaceExhausted
    | ExternalIdInUse
    | StorageError

  function RowFor(q: Request, nonce: int, pay: int): NewInvoice {
    NewInvoice(q.externalId, q.asset, q.base, pay, nonce, q.expiresAt, q.holdUntil)
  }

  /** The table after differs from the table before by exactly one row: the requested one, field by field, under a key,
      an amount and an external id nobody had. */
  ghost predicate IssuedIn(before: Db, after: Db, q: Request, r: Allocated)
    requires r.Issued?
  {
    && q.id !in before.invoices && q.asset in before.assets
    && (forall i | i in before.invoices ::
          !(before.invoices[i].held && before.invoices[i].asset == q.asset && before.invoices[i].pay == r.pay))
    && (q.externalId.Some? ==> forall i | i in before.invoices :: before.invoices[i].externalId != q.externalId)
    && after == before.(invoices := after.invoices)
    && after.invoices.Keys == before.invoices.Keys + {q.id}
    && (forall i | i in before.invoices :: after.invoices[i] == before.invoices[i])
    && var row := after.invoices[q.id];
       && row.externalId == q.externalId && row.asset == q.asset && row.network == before.assets[q.asset].network
       && row.base == q.base && row.pay == r.pay && row.nonce == r.nonce
       && row.expiresAt == q.expiresAt && row.holdUntil == q.holdUntil && row.createdAt == before.now
       && row.status == Pending && row.confirmations == 0 && row.held && row.paidAt == None
  }

  /** What the insert refuses whatever the amount: a key in use, an unknown asset, a base amount that is not
      positive. */
  predicate Unfit(db: Db, q: Request) {
    q.id in db.invoices || q.asset !in db.assets || q.base <= 0
  }

  ghost predicate HeldAt(db: Db, q: Request, nonce: int) {
    AmountHeld(db, q.asset, AmountAt(q.base, q.terms.step, nonce))
  }

  ghost predicate AllHeld(db: Db, q: Request) {
    forall n | 0 <= n < q.terms.nonceMax :: HeldAt(db, q, n)
  }

  ghost predicate LeastFree(db: Db, q: Request, nonce: int) {
    0 <= nonce < q.terms.nonceMax && !HeldAt(db, q, nonce) && forall m | 0 <= m < nonce :: HeldAt(db, q, m)
  }

  const ALLOCATION_ATTEMPTS := 3

  method ListHeldPayAmountsInRange(store: Store, asset: AssetId, lo: int, hi: int) returns (held: seq<int>)
    ensures forall j, k :: 0 <= j < k < |held| ==> held[j] <= held[k]
    ensures forall p :: p in held <==> lo <= p < hi && AmountHeld(store.View(), asset, p)
  {
    hide AmountHeld;
    var table := store.invoices;
    var rows := set i: InvoiceId | i in table && table[i].held && table[i].asset == asset && lo <= table[i].pay < hi;
    var rank: InvoiceId -> int := i => if i in table then table[i].pay else 0;
    var ids := TakeLowest(rows, rank, |rows|);
    AnswersEveryRow(rows, rank, |rows|, ids);
    held := seq(|ids|, k requires 0 <= k < |ids| => rank(ids[k]));
    PaysOfRows(store.View(), asset, lo, hi, rows, ids, held);
  }

  /** The pay amounts of the rows in range are the amounts in range that are held. */
  lemma PaysOfRows(db: Db, asset: AssetId, lo: int, hi: int, rows: set<InvoiceId>, ids: seq<InvoiceId>, held: seq<int>)
    requires forall i :: i in rows <==> i in db.invoices && db.invoices[i].held && db.invoices[i].asset == asset
                                        && lo <= db.invoices[i].pay < hi
    requires forall i :: i in ids <==> i in rows
    requires |held| == |ids| && forall k | 0 <= k < |ids| :: ids[k] in rows && held[k] == db.invoices[ids[k]].pay
    ensures forall p :: p in held <==> lo <= p < hi && AmountHeld(db, asset, p)
  {
    hide AmountHeld;
    HeldMeans(db, asset);
    forall p | lo <= p < hi && AmountHeld(db, asset, p) ensures p in held {
      var i := Holder(db, asset, p);
      assert i in ids;
      var k :| 0 <= k < |ids| && ids[k] == i;
      assert held[k] == p;
    }
    forall p | p in held ensures lo <= p < hi && AmountHeld(db, asset, p) {
      var k :| 0 <= k < |held| && held[k] == p;
      assert ids[k] in rows && HoldsAmount(db, ids[k], asset, p);
    }
  }

  lemma HeldMeans(db: Db, asset: AssetId)
    ensures forall i, p | HoldsAmount(db, i, asset, p) :: AmountHeld(db, asset, p)
  {
  }

  lemma Holder(db: Db, asset: AssetId, pay: int) returns (i: InvoiceId)
    requires AmountHeld(db, asset, pay)
    ensures HoldsAmount(db, i, asset, pay)
  {
    i :| i in db.invoices && HoldsAmount(db, i, asset, pay);
  }

  lemma HeldOnGrid(q: Request, db: Db, held: seq<int>)
    requires forall p :: p in held <==> q.base <= p < q.base + q.terms.step * q.terms.nonceMax
                                        && AmountHeld(db, q.asset, p)
    ensures forall n | 0 <= n < q.terms.nonceMax ::
              AmountAt(q.base, q.terms.step, n) in held <==> AmountHeld(db, q.asset, AmountAt(q.base, q.terms.step, n))
  {
    hide AmountHeld;
    forall n | 0 <= n < q.terms.nonceMax
      ensures AmountAt(q.base, q.terms.step, n) in held <==> AmountHeld(db, q.asset, AmountAt(q.base, q.terms.step, n))
    {
      AmountsAscend(q.base, q.terms.step, n, q.terms.nonceMax);
      AmountsAscend(q.base, q.terms.step, -1, n);
      assert n * q.terms.step >= 0;
    }
  }

  /** The read that finds a free amount and the insert that claims it are two statements; `script` is what anybody does
      in between. What the tables say at the read and at the insert decides the outcome. `None`: the amount, the least
      free one at the read, was taken meanwhile. */
  method TryOnce(store: Store, cfg: Config, q: Request, script: seq<Move>) returns (r: Option<Allocated>)
    requires LedgerOk(store.View()) && q.terms.nonceMax < 0x8000_0000
    modifies store
    ensures LedgerOk(store.View())
    ensures r == Some(AmountSpaceExhausted) <==> AllHeld(old(store.View()), q)
    ensures r == Some(AmountSpaceExhausted) ==> store.View() == old(store.View())
    ensures var mid := RunAnybody(cfg, old(store.View()), script);
            !AllHeld(old(store.View()), q) ==>
              && (r == Some(StorageError) <==> Unfit(mid, q))
              && (r.None? <==>
                    !Unfit(mid, q) && exists n :: LeastFree(old(store.View()), q, n) && HeldAt(mid, q, n))
              && (r == Some(ExternalIdInUse) <==>
                    && !Unfit(mid, q) && ExternalIdUsed(mid, q.externalId)
                    && exists n :: LeastFree(old(store.View()), q, n) && !HeldAt(mid, q, n))
              && (r.Some? && r.value.Issued? ==>
                    && IssuedIn(mid, store.View(), q, r.value)
                    && LeastFree(old(store.View()), q, r.value.nonce)
                    && r.value.pay == q.base + r.value.nonce * q.terms.step)
              && (!(r.Some? && r.value.Issued?) ==> store.View() == mid)
    ensures r.None? ==> script != []
  {
    hide LedgerOk, AmountHeld, RunAnybody, ExternalIdUsed, AmountAt;
    var held := ListHeldPayAmountsInRange(store, q.asset, q.base, q.base + q.terms.step * q.terms.nonceMax);
    HeldOnGrid(q, store.View(), held);
    var ok, nonce, pay := LowestFreeNonce(q.base, q.terms.step, q.terms.nonceMax, held);
    if !ok {
      return Some(AmountSpaceExhausted);
    }
    ghost var before := store.View();
    assert LeastFree(before, q, nonce);
    OneLeastFree(before, q, nonce);
    store.Disturb(cfg, script);
    RunAnybodyKeeps(cfg, before, script);
    NobodyActs(cfg, before);

    ghost var inserted := store.View();
    InsertOutcome(inserted, q, nonce);
    var ins := store.InsertInvoiceRow(q.id, RowFor(q, nonce, pay));
    match ins
    case InvoiceCreated(_) =>
      InsertInvoiceKeepsLedger(inserted, q.id, RowFor(q, nonce, pay));
      AmountMeans(q.base, q.terms.step, nonce);
      return Some(Issued(nonce, pay));
    case ExternalIdTaken => return Some(ExternalIdInUse);
    case Refused => return Some(StorageError);
    case AmountTaken => return None;
  }

  lemma OneLeastFree(db: Db, q: Request, nonce: int)
    requires LeastFree(db, q, nonce)
    ensures !AllHeld(db, q) && forall n :: LeastFree(db, q, n) <==> n == nonce
  {
    hide HeldAt;
  }

  /** Why an insert at an amount of the range is refused. */
  lemma InsertOutcome(db: Db, q: Request, nonce: int)
    requires 0 <= nonce
    ensures var ins := InsertInvoice(db, q.id, RowFor(q, nonce, AmountAt(q.base, q.terms.step, nonce)));
            && (ins.Refused? <==> Unfit(db, q))
            && (ins.AmountTaken? <==> !Unfit(db, q) && HeldAt(db, q, nonce))
            && (ins.ExternalIdTaken? <==>
                  !Unfit(db, q) && !HeldAt(db, q, nonce) && ExternalIdUsed(db, q.externalId))
  {
    hide AmountHeld, ExternalIdUsed;
    ProductBounds(nonce, q.terms.step);
    assert nonce * q.terms.step >= 0;
  }

  /** Up to three attempts, anybody acting in each (`others`). The caller gets the invoice row it asked for at a free
      amount, or nothing of its own is left in the table and the reason given holds there. Left alone, the outcome is
      decided by the tables: no free nonce, a row the insert refuses, an external id in use, or the least free nonce. */
  method CreateInvoice(store: Store, cfg: Config, q: Request, others: nat -> seq<Move>)
    returns (r: Allocated, ghost acted: seq<Move>)
    requires LedgerOk(store.View()) && q.terms.nonceMax < 0x8000_0000
    modifies store
    ensures LedgerOk(store.View())
    ensures r.Issued? ==>
              && IssuedIn(RunAnybody(cfg, old(store.View()), acted), store.View(), q, r)
              && 0 <= r.nonce < q.terms.nonceMax
              && r.pay == q.base + r.nonce * q.terms.step
    ensures !r.Issued? ==> store.View() == RunAnybody(cfg, old(store.View()), acted)
    ensures r.StorageError? ==> Unfit(store.View(), q)
    ensures r.ExternalIdInUse? ==> !Unfit(store.View(), q) && ExternalIdUsed(store.View(), q.externalId)
    ensures r.AmountSpaceExhausted? ==>
              AllHeld(store.View(), q) || forall k | 0 <= k < 3 :: others(k) != []
    ensures (forall k :: others(k) == []) ==>
              var db := old(store.View());
              && acted == []
              && (r.AmountSpaceExhausted? <==> AllHeld(db, q))
              && (r.StorageError? <==> !AllHeld(db, q) && Unfit(db, q))
              && (r.ExternalIdInUse? <==> !AllHeld(db, q) && !Unfit(db, q) && ExternalIdUsed(db, q.externalId))
              && (r.Issued? ==> LeastFree(db, q, r.nonce))
  {
    hide LedgerOk, RunAnybody, IssuedIn, ExternalIdUsed, AllHeld, HeldAt, Unfit, AmountAt;
    acted := [];
    var attempt := 0;
    NobodyActs(cfg, store.View());
    while attempt < ALLOCATION_ATTEMPTS
      invariant 0 <= attempt <= ALLOCATION_ATTEMPTS
      invariant LedgerOk(store.View())
      invariant store.View() == RunAnybody(cfg, old(store.View()), acted)
      invariant forall k | 0 <= k < attempt :: others(k) != []
      invariant (forall k :: others(k) == []) ==> attempt == 0 && acted == []
    {
      var outcome := TryOnce(store, cfg, q, others(attempt));
      if outcome == Some(AmountSpaceExhausted) {
        return AmountSpaceExhausted, acted;
      }
      RunAnybodyConcat(cfg, old(store.View()), acted, others(attempt));
      assert acted == [] && others(attempt) == [] ==> acted + others(attempt) == [];
      acted := acted + others(attempt);
      if outcome.Some? {
        return outcome.value, acted;
      }
      attempt := attempt + 1;
    }
    return AmountSpaceExhausted, acted;
  }

  lemma InsertInvoiceKeepsLedger(db: Db, id: InvoiceId, row: NewInvoice)
    requires LedgerOk(db) && InsertInvoice(db, id, row).InvoiceCreated?
    ensures LedgerOk(InsertInvoice(db, id, row).db)
  {
    InsertInvoiceKeeps(db, id, row);
    EveryStepKeepsPaidOnce(Config(0, false), db, Create(id, row));
  }
}
