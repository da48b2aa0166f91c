/** `SELECT … ORDER BY rank LIMIT n` over a finite set of rows, ties in any order. */
module Query {

  datatype Option<+T> = None | Some(value: T)

  function Max(a: int, b: int): int { if a < b then b else a }

  function Min(a: int, b: int): int { if a < b then a else b }

  ghost predicate NoDuplicates<K>(s: seq<K>) {
    forall i, j :: 0 <= i < j < |s| ==> s[i] != s[j]
  }

  /** `out` is an answer to the query: distinct rows, ascending by rank, as many as the limit allows, and no row
      left out ranks below a row taken. */
  ghost predicate Answers<K(!new)>(rows: set<K>, rank: K -> int, limit: nat, out: seq<K>) {
    && NoDuplicates(out)
    && (forall k :: k in out ==> k in rows)
    && |out| == Min(limit, |rows|)
    && (forall i, j :: 0 <= i < j < |out| ==> rank(out[i]) <= rank(out[j]))
    && (forall i, k :: 0 <= i < |out| && k in rows && k !in out ==> rank(out[i]) <= rank(k))
  }

  lemma {:induction false} LowestExists<K>(rows: set<K>, rank: K -> int)
    requires rows != {}
    ensures exists k :: k in rows && forall o :: o in rows ==> rank(k) <= rank(o)
    decreases |rows|
  {
    var k :| k in rows;
    if rows != {k} {
      LowestExists(rows - {k}, rank);
      var b :| b in rows - {k} && forall o :: o in rows - {k} ==> rank(b) <= rank(o);
      var c := if rank(k) <= rank(b) then k else b;
      assert c in rows && forall o :: o in rows ==> rank(c) <= rank(o);
    }
  }

  /** The query itself: the lowest remaining row, again and again. */
  method TakeLowest<K(==, !new)>(rows: set<K>, rank: K -> int, limit: nat) returns (out: seq<K>)
    ensures Answers(rows, rank, limit, out)
  {
    out := [];
    var rest := rows;
    while |out| < limit && rest != {}
      invariant rest <= rows
      invariant NoDuplicates(out)
      invariant forall k :: k in out <==> k in rows && k !in rest
      invariant |out| + |rest| == |rows|
      invariant |out| <= limit
      invariant forall i, j :: 0 <= i < j < |out| ==> rank(out[i]) <= rank(out[j])
      invariant forall i, k :: 0 <= i < |out| && k in rest ==> rank(out[i]) <= rank(k)
      decreases |rest|
    {
      LowestExists(rest, rank);
      var k :| k in rest && forall o :: o in rest ==> rank(k) <= rank(o);
      assert k !in out;
      rest := rest - {k};
      out := out + [k];
    }
    if |out| < limit {
      assert rest == {};
    }
  }

  /** A limit no smaller than the table returns every row. */
  lemma AnswersEveryRow<K(!new)>(rows: set<K>, rank: K -> int, limit: nat, out: seq<K>)
    requires Answers(rows, rank, limit, out) && |rows| <= limit
    ensures forall k :: k in rows ==> k in out
  {
    var taken := set k | k in out;
    DistinctCount(out);
    assert taken <= rows;
    assert |rows| == |taken| + |rows - taken|;
    assert rows - taken == {};
  }

  lemma {:induction false} DistinctCount<K>(s: seq<K>)
    requires NoDuplicates(s)
    ensures |set k | k in s| == |s|
  {
    if s != [] {
      var front := s[..|s| - 1];
      DistinctCount(front);
      assert (set k | k in s) == (set k | k in front) + {s[|s| - 1]};
    }
  }

  lemma SubsetIsNoLarger<T>(a: set<T>, b: set<T>)
    requires a <= b
    ensures |a| <= |b|
  {
    assert b == a + (b - a);
  }

  lemma {:induction false} AtMostSoMany(s: set<nat>, lo: int, hi: int)
    requires lo <= hi && forall k | k in s :: lo <= k < hi
    ensures |s| <= hi - lo
    decreases hi - lo
  {
    if lo == hi {
      assert s == {};
    } else if lo < 0 {
      AtMostSoMany(s, lo + 1, hi);
    } else {
      AtMostSoMany(s - {lo}, lo + 1, hi);
    }
  }

  lemma {:induction false} AtLeastSoMany(s: set<nat>, lo: nat, hi: nat)
    requires lo <= hi && forall k: nat | lo <= k < hi :: k in s
    ensures |s| >= hi - lo
    decreases hi - lo
  {
    if lo < hi {
      AtLeastSoMany(s - {lo}, lo + 1, hi);
    }
  }
}
