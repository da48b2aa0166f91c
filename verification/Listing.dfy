/** Keyset pagination: the listing query (internal/adapter/postgres/queries/invoice.sql), one page of it
    (internal/usecases/invoices/invoice_list) and the client's walk over all pages (pkg/cryptopay/invoices.go). */
module Listing {
  import opened Domain
  import opened Query
  import opened Tables
  import opened Arithmetic

  type Invoices = map<InvoiceId, Invoice>

  /** The position of a row in the listing. */
  datatype Key = Key(createdAt: Time, id: InvoiceId)

  datatype Row = Row(id: InvoiceId, invoice: Invoice) {
    function Position(): Key {
      Key(invoice.createdAt, id)
    }
  }

  /** `(created_at, id) < (…)`. */
  predicate Before(a: Key, b: Key) {
    a.createdAt < b.createdAt || (a.createdAt == b.createdAt && a.id < b.id)
  }

  datatype Filter = Filter(
    status: Option<Status>,
    asset: Option<AssetId>,
    network: Option<Network>,
    externalId: Option<string>,
    createdFrom: Option<Time>,
    createdTo: Option<Time>)

  predicate Matches(f: Filter, inv: Invoice) {
    && (f.status.None? || inv.status == f.status.value)
    && (f.asset.None? || inv.asset == f.asset.value)
    && (f.network.None? || inv.network == f.network.value)
    && (f.externalId.None? || inv.externalId == f.externalId)
    && (f.createdFrom.None? || inv.createdAt >= f.createdFrom.value)
    && (f.createdTo.None? || inv.createdAt <= f.createdTo.value)
  }

  /** The WHERE clause. */
  predicate Selected(t: Invoices, f: Filter, cursor: Option<Key>, r: Row) {
    && r.id in t && t[r.id] == r.invoice
    && Matches(f, r.invoice)
    && (cursor.None? || Before(r.Position(), cursor.value))
  }

  function Selection(t: Invoices, f: Filter, cursor: Option<Key>): (rows: set<Row>)
    ensures forall r :: r in rows <==> Selected(t, f, cursor, r)
  {
    set id | id in t && Selected(t, f, cursor, Row(id, t[id])) :: Row(id, t[id])
  }

  /** Newest first, no position twice. */
  ghost predicate Descending(rows: seq<Row>) {
    forall i, j :: 0 <= i < j < |rows| ==> Before(rows[j].Position(), rows[i].Position())
  }

  /** An answer of ListInvoices. */
  ghost predicate Lists(t: Invoices, f: Filter, cursor: Option<Key>, limit: nat, rows: seq<Row>) {
    && Descending(rows)
    && |rows| == Min(limit, |Selection(t, f, cursor)|)
    && (forall r | r in rows :: Selected(t, f, cursor, r))
    && (forall r, s | Selected(t, f, cursor, r) && r !in rows && s in rows :: Before(r.Position(), s.Position()))
  }

  lemma {:induction false} NewestExists(rows: set<Row>)
    requires rows != {}
    requires forall r, s | r in rows && s in rows && r.id == s.id :: r == s
    ensures exists r :: IsNewest(rows, r)
    decreases |rows|
  {
    var r :| r in rows;
    if rows == {r} {
      assert IsNewest(rows, r);
    } else {
      NewestExists(rows - {r});
      var b :| IsNewest(rows - {r}, b);
      assert IsNewest(rows, if Before(b.Position(), r.Position()) then r else b);
    }
  }

  predicate IsNewest(rows: set<Row>, r: Row) {
    r in rows && forall o | o in rows :: o == r || Before(o.Position(), r.Position())
  }

  /** A row is selected when the table holds it, every field the filter gives says the same of it (the two bounds
      included), and it stands below the cursor, if there is one. */
  ghost predicate SelectsByField(t: Invoices, f: Filter, cursor: Option<Key>) {
    forall r :: Selected(t, f, cursor, r) <==>
      && r.id in t && t[r.id] == r.invoice
      && (f.status.Some? ==> r.invoice.status == f.status.value)
      && (f.asset.Some? ==> r.invoice.asset == f.asset.value)
      && (f.network.Some? ==> r.invoice.network == f.network.value)
      && (f.externalId.Some? ==> r.invoice.externalId == f.externalId)
      && (f.createdFrom.Some? ==> f.createdFrom.value <= r.invoice.createdAt)
      && (f.createdTo.Some? ==> r.invoice.createdAt <= f.createdTo.value)
      && (cursor.Some? ==>
            r.invoice.createdAt < cursor.value.createdAt
            || (r.invoice.createdAt == cursor.value.createdAt && r.id < cursor.value.id))
  }

  lemma FieldsDecide(t: Invoices, f: Filter, cursor: Option<Key>)
    ensures SelectsByField(t, f, cursor)
  {
  }

  /** ORDER BY created_at DESC, id DESC LIMIT. */
  method ListInvoices(t: Invoices, f: Filter, cursor: Option<Key>, limit: nat) returns (rows: seq<Row>)
    ensures Lists(t, f, cursor, limit, rows) && SelectsByField(t, f, cursor)
    ensures forall i, j | 0 <= i < j < |rows| ::
              rows[i].invoice.createdAt >= rows[j].invoice.createdAt
              && (rows[i].invoice.createdAt == rows[j].invoice.createdAt ==> rows[i].id > rows[j].id)
  {
    FieldsDecide(t, f, cursor);
    hide SelectsByField, Matches;
    var all := Selection(t, f, cursor);
    var rest := all;
    rows := [];
    while |rows| < limit && rest != {}
      invariant rest <= all
      invariant Descending(rows)
      invariant forall r :: r in rows <==> r in all && r !in rest
      invariant forall r, s | r in rest && s in rows :: Before(r.Position(), s.Position())
      invariant |rows| + |rest| == |all|
      invariant |rows| <= limit
      decreases |rest|
    {
      NewestExists(rest);
      var r :| r in rest && IsNewest(rest, r);
      rest := rest - {r};
      rows := rows + [r];
    }
    if |rows| < limit {
      assert rest == {};
    }
  }

  datatype Input = Input(filter: Filter, cursor: Option<Key>, limit: int)

  /** An oversized or missing limit is clamped, not refused. */
  function PageSize(limit: int): (n: nat)
    ensures 1 <= n <= 200 && (1 <= limit <= 200 ==> n == limit)
  {
    if limit <= 0 then 50 else if limit > 200 then 200 else limit
  }

  predicate Valid(f: Filter) {
    f.createdFrom.Some? && f.createdTo.Some? ==> f.createdFrom.value <= f.createdTo.value
  }

  datatype Page = Page(rows: seq<Row>, next: Option<Key>)

  /** One request: a page of the rows below the cursor, and a cursor exactly when rows remain below the page. */
  method Execute(t: Invoices, input: Input) returns (out: Option<Page>)
    ensures out.None? <==>
              && input.filter.createdFrom.Some? && input.filter.createdTo.Some?
              && input.filter.createdTo.value < input.filter.createdFrom.value
    ensures out.Some? <==> Valid(input.filter)
    ensures out.Some? ==> Lists(t, input.filter, input.cursor, PageSize(input.limit), out.value.rows)
    ensures out.Some? ==>
              (out.value.next.Some? <==> |Selection(t, input.filter, input.cursor)| > PageSize(input.limit))
    ensures out.Some? && out.value.next.Some? ==>
              && |out.value.rows| == (if input.limit <= 0 then 50 else Min(200, input.limit))
              && out.value.next.value == out.value.rows[|out.value.rows| - 1].Position()
  {
    if !Valid(input.filter) {
      return None;
    }
    var limit := PageSize(input.limit);
    var rows := ListInvoices(t, input.filter, input.cursor, limit + 1);
    var next: Option<Key> := None;
    if |rows| > limit {
      next := Some(rows[limit - 1].Position());
      FirstPart(t, input.filter, input.cursor, limit, rows);
      rows := rows[..limit];
    }
    return Some(Page(rows, next));
  }

  lemma FirstPart(t: Invoices, f: Filter, cursor: Option<Key>, limit: nat, rows: seq<Row>)
    requires Lists(t, f, cursor, limit + 1, rows) && |rows| == limit + 1
    ensures Lists(t, f, cursor, limit, rows[..limit])
  {
    forall r, s | Selected(t, f, cursor, r) && r !in rows[..limit] && s in rows[..limit]
      ensures Before(r.Position(), s.Position())
    {
      if r in rows {
        assert r == rows[limit];
      }
    }
  }

  // ------------------------------------------------------------------ the walk over all pages

  /** A row every request of a walk could see, at one position. */
  ghost predicate Throughout(tables: seq<Invoices>, f: Filter, id: InvoiceId, createdAt: Time) {
    forall k | 0 <= k < |tables| :: id in tables[k] && Matches(f, tables[k][id]) && tables[k][id].createdAt == createdAt
  }

  ghost predicate SeenBy(tables: seq<Invoices>, f: Filter, r: Row) {
    exists k :: 0 <= k < |tables| && Selected(tables[k], f, None, r)
  }

  /** What a walk has yielded by the time its cursor stands at `cursor`. */
  ghost predicate WalkedTo(tables: seq<Invoices>, f: Filter, cursor: Option<Key>, yielded: seq<Row>) {
    && Descending(yielded)
    && (cursor.None? ==> yielded == [])
    && (cursor.Some? ==> |yielded| > 0 && yielded[|yielded| - 1].Position() == cursor.value)
    && (forall r | r in yielded :: SeenBy(tables, f, r))
    && (forall id, createdAt | Throughout(tables, f, id, createdAt) && cursor.Some?
        && !Before(Key(createdAt, id), cursor.value) ::
          AtKey(yielded, Key(createdAt, id)))
  }

  ghost predicate AtKey(rows: seq<Row>, key: Key) {
    exists n :: 0 <= n < |rows| && rows[n].Position() == key
  }

  lemma EveryRowTaken(t: Invoices, f: Filter, cursor: Option<Key>, limit: nat, rows: seq<Row>)
    requires Lists(t, f, cursor, limit, rows) && |Selection(t, f, cursor)| <= limit
    ensures forall r | Selected(t, f, cursor, r) :: r in rows
  {
    var all := Selection(t, f, cursor);
    var taken := set r | r in rows;
    DescendingIsDistinct(rows);
    DistinctCount(rows);
    assert taken <= all;
    assert |all| == |taken| + |all - taken|;
    assert all - taken == {};
  }

  lemma DescendingIsDistinct(rows: seq<Row>)
    requires Descending(rows)
    ensures NoDuplicates(rows)
  {
  }

  lemma PageBelow(tables: seq<Invoices>, f: Filter, cursor: Option<Key>, yielded: seq<Row>, t: Invoices, limit: nat,
      rows: seq<Row>)
    requires WalkedTo(tables, f, cursor, yielded) && Lists(t, f, cursor, limit, rows)
    ensures Descending(yielded + rows)
    ensures forall r | r in yielded + rows :: SeenBy(tables + [t], f, r)
  {
    forall r | r in yielded + rows ensures SeenBy(tables + [t], f, r) {
      if r in rows {
        assert (tables + [t])[|tables|] == t;
      } else {
        var k :| 0 <= k < |tables| && Selected(tables[k], f, None, r);
        assert (tables + [t])[k] == tables[k];
      }
    }
    forall i, j | 0 <= i < j < |yielded + rows|
      ensures Before((yielded + rows)[j].Position(), (yielded + rows)[i].Position())
    {
      if i < |yielded| <= j {
        assert rows[j - |yielded|] in rows;
      }
    }
  }

  lemma ThroughoutEarlier(tables: seq<Invoices>, t: Invoices, f: Filter, id: InvoiceId, createdAt: Time)
    requires Throughout(tables + [t], f, id, createdAt)
    ensures Throughout(tables, f, id, createdAt)
    ensures id in t && Matches(f, t[id]) && t[id].createdAt == createdAt
  {
    assert (tables + [t])[|tables|] == t;
    forall k | 0 <= k < |tables|
      ensures id in tables[k] && Matches(f, tables[k][id]) && tables[k][id].createdAt == createdAt
    {
      assert (tables + [t])[k] == tables[k];
    }
  }

  /** A page with rows below it moves the walk to its last row: whatever stayed listed above that is yielded. */
  lemma PageAdvances(tables: seq<Invoices>, f: Filter, cursor: Option<Key>, yielded: seq<Row>, t: Invoices,
      limit: nat, rows: seq<Row>)
    requires WalkedTo(tables, f, cursor, yielded) && Lists(t, f, cursor, limit, rows) && rows != []
    ensures WalkedTo(tables + [t], f, Some(rows[|rows| - 1].Position()), yielded + rows)
  {
    var next := rows[|rows| - 1];
    PageBelow(tables, f, cursor, yielded, t, limit, rows);
    forall id: InvoiceId, createdAt | Throughout(tables + [t], f, id, createdAt)
        && !Before(Key(createdAt, id), next.Position())
      ensures AtKey(yielded + rows, Key(createdAt, id))
    {
      ThroughoutEarlier(tables, t, f, id, createdAt);
      var r := Row(id, t[id]);
      if cursor.Some? && !Before(r.Position(), cursor.value) {
        YieldedBefore(yielded, rows, r.Position());
      } else {
        assert Selected(t, f, cursor, r);
        assert next in rows;
        assert r in rows;
        YieldedNow(yielded, rows, r);
      }
    }
  }

  /** The last page: everything that stayed listed for the whole walk is yielded. */
  lemma PageEnds(tables: seq<Invoices>, f: Filter, cursor: Option<Key>, yielded: seq<Row>, t: Invoices, limit: nat,
      rows: seq<Row>)
    requires WalkedTo(tables, f, cursor, yielded) && Lists(t, f, cursor, limit, rows)
    requires |Selection(t, f, cursor)| <= limit
    ensures forall id, createdAt | Throughout(tables + [t], f, id, createdAt) ::
        AtKey(yielded + rows, Key(createdAt, id))
  {
    EveryRowTaken(t, f, cursor, limit, rows);
    forall id: InvoiceId, createdAt | Throughout(tables + [t], f, id, createdAt)
      ensures AtKey(yielded + rows, Key(createdAt, id))
    {
      ThroughoutEarlier(tables, t, f, id, createdAt);
      var r := Row(id, t[id]);
      if cursor.Some? && !Before(r.Position(), cursor.value) {
        YieldedBefore(yielded, rows, r.Position());
      } else {
        assert Selected(t, f, cursor, r);
        YieldedNow(yielded, rows, r);
      }
    }
  }

  lemma YieldedBefore(yielded: seq<Row>, rows: seq<Row>, key: Key)
    requires AtKey(yielded, key)
    ensures AtKey(yielded + rows, key)
  {
    var n :| 0 <= n < |yielded| && yielded[n].Position() == key;
    assert (yielded + rows)[n] == yielded[n];
  }

  lemma YieldedNow(yielded: seq<Row>, rows: seq<Row>, r: Row)
    requires r in rows
    ensures AtKey(yielded + rows, r.Position())
  {
    var n :| 0 <= n < |rows| && rows[n] == r;
    assert (yielded + rows)[|yielded| + n] == r;
  }

  /** On a table that stands still, a full page leaves exactly the rows below it. */
  lemma PageLeavesTheRest(t: Invoices, f: Filter, cursor: Option<Key>, limit: nat, rows: seq<Row>)
    requires Lists(t, f, cursor, limit, rows) && rows != []
    ensures var below := Some(rows[|rows| - 1].Position());
            && |Selection(t, f, below)| == |Selection(t, f, cursor)| - |rows|
            && forall r :: Selected(t, f, cursor, r) <==> r in rows || Selected(t, f, below, r)
  {
    var last := rows[|rows| - 1];
    var below := Some(last.Position());
    var taken := set r | r in rows;
    assert last in rows;
    DescendingIsDistinct(rows);
    DistinctCount(rows);
    forall r | r in rows ensures !Selected(t, f, below, r) {
    }
    forall r | Selected(t, f, below, r) ensures Selected(t, f, cursor, r) {
    }
    assert Selection(t, f, cursor) == taken + Selection(t, f, below);
    assert taken !! Selection(t, f, below);
  }

  /** What the walk reports: the rows it yielded, how many requests it made, and whether it ended in an error. */
  datatype Walk = Walk(rows: seq<Row>, requests: nat, failed: bool)

  /** The client's walk. Request `k` sees `tables[k]`; a request past the end of `tables` fails. */
  method AllInvoices(f: Filter, limit: int, tables: seq<Invoices>) returns (w: Walk)
    ensures w.requests <= |tables| && Descending(w.rows)
    ensures forall r | r in w.rows :: SeenBy(tables[..w.requests], f, r)
    ensures !w.failed ==>
              forall id, createdAt | Throughout(tables[..w.requests], f, id, createdAt) ::
                  AtKey(w.rows, Key(createdAt, id))
    ensures forall t: Invoices | Frozen(tables, t) ::
              && (!w.failed <==> Valid(f) && EnoughRequests(|tables|, PageSize(limit), |Selection(t, f, None)|))
              && (!w.failed ==> forall r :: r in w.rows <==> Selected(t, f, None, r))
  {
    hide Lists, WalkedTo, Throughout, Selection, Descending, FrozenWalk, SeenBy, AtKey, EnoughRequests;
    var cursor: Option<Key> := None;
    w := Walk([], 0, false);
    WalkStarts(f);
    forall t: Invoices ensures FrozenWalk(t, f, PageSize(limit), cursor, w) {
      FrozenWalkStarts(t, f, PageSize(limit));
    }
    assert tables[..0] == [];
    while true
      invariant w.requests <= |tables| && !w.failed
      invariant w.requests == 0 <==> cursor.None?
      invariant w.requests > 0 ==> Valid(f)
      invariant WalkedTo(tables[..w.requests], f, cursor, w.rows)
      invariant forall t: Invoices | Frozen(tables, t) :: FrozenWalk(t, f, PageSize(limit), cursor, w)
      decreases |tables| - w.requests
    {
      if w.requests == |tables| {
        WalkedFacts(tables[..w.requests], f, cursor, w.rows);
        forall t: Invoices | Frozen(tables, t)
          ensures !EnoughRequests(|tables|, PageSize(limit), |Selection(t, f, None)|)
        {
          RunsOut(t, f, PageSize(limit), cursor, w);
        }
        return w.(failed := true);
      }
      var before, t := tables[..w.requests], tables[w.requests];
      assert tables[..w.requests + 1] == before + [t];
      var page := Execute(t, Input(f, cursor, limit));
      if page.None? {
        assert w.requests == 0 && tables[..0] == [];
        WalkedFacts(before, f, cursor, w.rows);
        return Walk([], 1, true);
      }
      var Page(rows, next) := page.value;
      if next.None? || rows == [] {
        NoCursorNoMore(t, f, cursor, PageSize(limit), rows, next);
        PageBelow(before, f, cursor, w.rows, t, PageSize(limit), rows);
        PageEnds(before, f, cursor, w.rows, t, PageSize(limit), rows);
        forall u: Invoices | Frozen(tables, u)
          ensures EnoughRequests(|tables|, PageSize(limit), |Selection(u, f, None)|)
          ensures forall r :: r in w.rows + rows <==> Selected(u, f, None, r)
        {
          LastFrozenPage(u, f, PageSize(limit), cursor, w, rows, |tables|);
        }
        return Walk(w.rows + rows, w.requests + 1, false);
      }
      PageAdvances(before, f, cursor, w.rows, t, PageSize(limit), rows);
      forall u: Invoices | Frozen(tables, u)
        ensures FrozenWalk(u, f, PageSize(limit), next, Walk(w.rows + rows, w.requests + 1, false))
      {
        NextFrozenPage(u, f, PageSize(limit), cursor, w, rows);
      }
      w := Walk(w.rows + rows, w.requests + 1, false);
      cursor := next;
    }
  }

  ghost predicate Frozen(tables: seq<Invoices>, t: Invoices) {
    forall k | 0 <= k < |tables| :: tables[k] == t
  }

  /** `requests` pages of `size` rows cover a listing of `rows` rows; an empty listing takes a request too. */
  predicate EnoughRequests(requests: nat, size: nat, rows: nat) {
    requests >= 1 && requests * size >= rows
  }

  /** Between two requests on a table that stands still: full pages so far, and more rows to come. */
  ghost predicate FrozenWalk(t: Invoices, f: Filter, size: nat, cursor: Option<Key>, w: Walk) {
    && |w.rows| == w.requests * size
    && |w.rows| + |Selection(t, f, cursor)| == |Selection(t, f, None)|
    && (w.requests == 0 <==> cursor.None?)
    && (w.requests > 0 ==> |Selection(t, f, cursor)| > 0)
    && (forall r :: Selected(t, f, None, r) <==> r in w.rows || Selected(t, f, cursor, r))
  }

  lemma WalkStarts(f: Filter)
    ensures WalkedTo([], f, None, [])
  {
  }

  lemma FrozenWalkStarts(t: Invoices, f: Filter, size: nat)
    ensures FrozenWalk(t, f, size, None, Walk([], 0, false))
  {
  }

  lemma WalkedFacts(tables: seq<Invoices>, f: Filter, cursor: Option<Key>, yielded: seq<Row>)
    requires WalkedTo(tables, f, cursor, yielded)
    ensures Descending(yielded) && forall r | r in yielded :: SeenBy(tables, f, r)
    ensures cursor.None? ==> yielded == []
  {
  }

  lemma RunsOut(t: Invoices, f: Filter, size: nat, cursor: Option<Key>, w: Walk)
    requires FrozenWalk(t, f, size, cursor, w)
    ensures !EnoughRequests(w.requests, size, |Selection(t, f, None)|)
  {
  }

  /** An empty page never comes with a cursor, so the walk's second way to stop is never taken. */
  lemma NoCursorNoMore(t: Invoices, f: Filter, cursor: Option<Key>, size: nat, rows: seq<Row>, next: Option<Key>)
    requires size >= 1 && Lists(t, f, cursor, size, rows) && (next.None? || rows == [])
    requires next.Some? <==> |Selection(t, f, cursor)| > size
    ensures next.None? && |Selection(t, f, cursor)| <= size
  {
  }

  lemma LastFrozenPage(t: Invoices, f: Filter, size: nat, cursor: Option<Key>, w: Walk, rows: seq<Row>, limit: nat)
    requires FrozenWalk(t, f, size, cursor, w) && Lists(t, f, cursor, size, rows) && |Selection(t, f, cursor)| <= size
    requires w.requests < limit
    ensures EnoughRequests(limit, size, |Selection(t, f, None)|)
    ensures forall r :: r in w.rows + rows <==> Selected(t, f, None, r)
  {
    EveryRowTaken(t, f, cursor, size, rows);
    TimesAscends(w.requests + 1, limit, size);
    assert (w.requests + 1) * size == w.requests * size + size;
  }

  lemma NextFrozenPage(t: Invoices, f: Filter, size: nat, cursor: Option<Key>, w: Walk, rows: seq<Row>)
    requires FrozenWalk(t, f, size, cursor, w) && Lists(t, f, cursor, size, rows)
    requires size >= 1 && |rows| == size && |Selection(t, f, cursor)| > size
    ensures FrozenWalk(t, f, size, Some(rows[|rows| - 1].Position()), Walk(w.rows + rows, w.requests + 1, false))
  {
    PageLeavesTheRest(t, f, cursor, size, rows);
    hide Lists;
    assert (w.requests + 1) * size == w.requests * size + size;
  }

  // ------------------------------------------------------------------ what a walk is worth

  /** A row the walk was told about is yielded once: the walk never lists an invoice twice, however the table grew. */
  lemma YieldedExactlyOnce(tables: seq<Invoices>, f: Filter, rows: seq<Row>, id: InvoiceId, createdAt: Time)
    requires Descending(rows) && (forall r | r in rows :: SeenBy(tables, f, r))
    requires Throughout(tables, f, id, createdAt) && AtKey(rows, Key(createdAt, id))
    ensures exists n :: 0 <= n < |rows| && rows[n].id == id && forall m | 0 <= m < |rows| && m != n :: rows[m].id != id
  {
    var n :| 0 <= n < |rows| && rows[n].Position() == Key(createdAt, id);
    forall m | 0 <= m < |rows| && m != n ensures rows[m].id != id {
      assert SeenBy(tables, f, rows[m]);
      assert rows[m].Position() != rows[n].Position();
    }
  }

  /** A listing is determined by its rows: two descending lists of the same rows are the same list. */
  lemma {:induction false} ListingIsUnique(a: seq<Row>, b: seq<Row>)
    requires Descending(a) && Descending(b) && forall r :: r in a <==> r in b
    ensures a == b
  {
    SameLength(a, b);
    if a != [] {
      assert a[0] in b && b[0] in a;
      forall r ensures r in a[1..] <==> r in b[1..] {
        TailRows(a, r);
        TailRows(b, r);
      }
      ListingIsUnique(a[1..], b[1..]);
      assert a == [a[0]] + a[1..] && b == [b[0]] + b[1..];
    }
  }

  lemma SameLength(a: seq<Row>, b: seq<Row>)
    requires Descending(a) && Descending(b) && forall r :: r in a <==> r in b
    ensures |a| == |b|
  {
    DescendingIsDistinct(a);
    DescendingIsDistinct(b);
    DistinctCount(a);
    DistinctCount(b);
    assert (set r | r in a) == (set r | r in b);
  }

  lemma TailRows(a: seq<Row>, r: Row)
    requires a != [] && Descending(a)
    ensures r in a[1..] <==> r in a && r != a[0]
  {
    assert a == [a[0]] + a[1..];
    assert a[0] !in a[1..];
  }
}
