/** Reading a time-ordered feed in pages of at most `limit` records, from an inclusive timestamp cursor
    (pkg/tron/client.go, `discover` in internal/usecases/chain/tron_watcher/usecase.go). */
module TronFeed {
  import opened Query
  import opened Tables
  import opened Store

  datatype Transfer = Transfer(tx: string, contract: string, value: int, at: Time)

  const PAGE_LIMIT: nat := 200

  /** Oldest first, as the feed is asked for. */
  ghost predicate Ascending(feed: seq<Transfer>) {
    && (forall i | 0 <= i < |feed| :: ZERO_TIME <= feed[i].at)
    && (forall i, j | 0 <= i <= j < |feed| :: feed[i].at <= feed[j].at)
  }

  /** The first record stamped at or after the cursor. */
  function PageStart(feed: seq<Transfer>, cursor: Time): nat {
    if feed == [] || feed[0].at >= cursor then 0 else 1 + PageStart(feed[1..], cursor)
  }

  function PageEnd(feed: seq<Transfer>, cursor: Time): nat {
    Min(PageStart(feed, cursor) + PAGE_LIMIT, |feed|)
  }

  lemma {:induction false} PageStartsAtTheCursor(feed: seq<Transfer>, cursor: Time)
    requires Ascending(feed)
    ensures PageStart(feed, cursor) <= |feed|
    ensures forall i | 0 <= i < |feed| :: i < PageStart(feed, cursor) <==> feed[i].at < cursor
  {
    if feed != [] && feed[0].at < cursor {
      var rest := feed[1..];
      PageStartsAtTheCursor(rest, cursor);
      assert forall i | 0 < i < |feed| :: feed[i] == rest[i - 1];
    }
  }

  function PageOf(feed: seq<Transfer>, cursor: Time): (page: seq<Transfer>)
    requires Ascending(feed)
  {
    PageStartsAtTheCursor(feed, cursor);
    feed[PageStart(feed, cursor)..PageEnd(feed, cursor)]
  }

  /** The newest timestamp of a page, or the cursor. */
  function Newest(page: seq<Transfer>, cursor: Time): Time {
    if page == [] then cursor else Max(Newest(page[..|page| - 1], cursor), page[|page| - 1].at)
  }

  function NextCursor(feed: seq<Transfer>, cursor: Time): Time
    requires Ascending(feed)
  {
    Newest(PageOf(feed, cursor), cursor)
  }

  lemma {:induction false} NewestIsLast(page: seq<Transfer>, cursor: Time)
    requires forall i, j | 0 <= i <= j < |page| :: page[i].at <= page[j].at
    requires forall i | 0 <= i < |page| :: cursor <= page[i].at
    ensures Newest(page, cursor) == if page == [] then cursor else page[|page| - 1].at
  {
    if page != [] {
      var front := page[..|page| - 1];
      assert forall i | 0 <= i < |front| :: front[i] == page[i];
      NewestIsLast(front, cursor);
    }
  }

  /** The next cursor is the stamp of the page's last record. */
  lemma NextCursorIsLast(feed: seq<Transfer>, cursor: Time)
    requires Ascending(feed)
    ensures PageStart(feed, cursor) <= PageEnd(feed, cursor) <= |feed|
    ensures NextCursor(feed, cursor) ==
              if PageStart(feed, cursor) == |feed| then cursor else feed[PageEnd(feed, cursor) - 1].at
    ensures NextCursor(feed, cursor) >= cursor
  {
    PageStartsAtTheCursor(feed, cursor);
    var page := PageOf(feed, cursor);
    forall i | 0 <= i < |page| ensures cursor <= page[i].at {
      assert page[i] == feed[PageStart(feed, cursor) + i];
    }
    NewestIsLast(page, cursor);
  }

  // ------------------------------------------------------------------ a frozen feed, tick after tick

  function CursorAt(feed: seq<Transfer>, ticks: nat): Time
    requires Ascending(feed)
  {
    if ticks == 0 then ZERO_TIME else NextCursor(feed, CursorAt(feed, ticks - 1))
  }

  /** How many records from the front the ticks have read. */
  function Frontier(feed: seq<Transfer>, ticks: nat): nat
    requires Ascending(feed)
  {
    if ticks == 0 then 0 else PageEnd(feed, CursorAt(feed, ticks - 1))
  }

  /** No page can fill up with records of one timestamp while more follow. */
  predicate NoClog(feed: seq<Transfer>) {
    forall i | 0 <= i && i + 200 < |feed| :: feed[i].at != feed[i + 199].at
  }

  /** What the ticks have read is a prefix, and the cursor is the stamp of its last record. */
  lemma {:induction false} ReadIsAPrefix(feed: seq<Transfer>, ticks: nat)
    requires Ascending(feed)
    ensures Frontier(feed, ticks) <= |feed|
    ensures PageStart(feed, CursorAt(feed, ticks)) <= Frontier(feed, ticks) <= PageEnd(feed, CursorAt(feed, ticks))
    ensures ticks > 0 && feed != [] ==>
              Frontier(feed, ticks) > 0 && CursorAt(feed, ticks) == feed[Frontier(feed, ticks) - 1].at
  {
    hide NextCursor, PageStart;
    var c := CursorAt(feed, ticks);
    PageStartsAtTheCursor(feed, c);
    if ticks > 0 {
      ReadIsAPrefix(feed, ticks - 1);
      var p := CursorAt(feed, ticks - 1);
      PageStartsAtTheCursor(feed, p);
      NextCursorIsLast(feed, p);
    } else {
      FirstPage(feed);
    }
  }

  lemma FirstPage(feed: seq<Transfer>)
    requires Ascending(feed)
    ensures PageStart(feed, ZERO_TIME) == 0
  {
  }

  lemma Advances(feed: seq<Transfer>, ticks: nat)
    requires Ascending(feed) && NoClog(feed) && Frontier(feed, ticks) < |feed|
    ensures Frontier(feed, ticks + 1) > Frontier(feed, ticks)
  {
    ReadIsAPrefix(feed, ticks);
    var c := CursorAt(feed, ticks);
    var i := PageStart(feed, c);
    PageStartsAtTheCursor(feed, c);
    if ticks > 0 && i + PAGE_LIMIT < |feed| {
      var f := Frontier(feed, ticks);
      assert feed[f - 1].at == c;
      assert i <= f - 1;
      assert feed[i].at == c;
      assert feed[i + PAGE_LIMIT - 1].at != c;
    }
  }

  lemma {:induction false} Drains(feed: seq<Transfer>, ticks: nat) returns (enough: nat)
    requires Ascending(feed) && NoClog(feed)
    ensures Frontier(feed, enough) == |feed|
    decreases |feed| - Frontier(feed, ticks)
  {
    ReadIsAPrefix(feed, ticks);
    if Frontier(feed, ticks) == |feed| {
      return ticks;
    }
    Advances(feed, ticks);
    ReadIsAPrefix(feed, ticks + 1);
    enough := Drains(feed, ticks + 1);
  }

  lemma {:induction false} Clogs(feed: seq<Transfer>, i: nat, ticks: nat)
    requires Ascending(feed) && i + PAGE_LIMIT < |feed| && feed[i].at == feed[i + PAGE_LIMIT - 1].at
    ensures CursorAt(feed, ticks) <= feed[i].at
    ensures Frontier(feed, ticks) < |feed|
  {
    PageStartsAtTheCursor(feed, feed[i].at);
    if ticks > 0 {
      Clogs(feed, i, ticks - 1);
      var p := CursorAt(feed, ticks - 1);
      PageStartsAtTheCursor(feed, p);
      NextCursorIsLast(feed, p);
      assert PageStart(feed, p) <= i;
      assert feed[PageEnd(feed, p) - 1].at <= feed[i + PAGE_LIMIT - 1].at;
    }
  }

  /** Every `Apply` succeeding, finitely many ticks read a frozen feed to its end if and only if no page can fill up
      with one timestamp while more records follow. Fewer than 200 records per timestamp is enough. */
  lemma DrainsIff(feed: seq<Transfer>)
    requires Ascending(feed)
    ensures (exists ticks :: Frontier(feed, ticks) == |feed|) <==> NoClog(feed)
  {
    if NoClog(feed) {
      var enough := Drains(feed, 0);
    } else {
      var i :| 0 <= i && i + PAGE_LIMIT < |feed| && feed[i].at == feed[i + PAGE_LIMIT - 1].at;
      forall ticks: nat ensures Frontier(feed, ticks) < |feed| {
        Clogs(feed, i, ticks);
      }
    }
  }

  function Stamped(feed: seq<Transfer>, at: Time): set<nat> {
    set k: nat | k < |feed| && feed[k].at == at
  }

  lemma FewerThanAPagePerStamp(feed: seq<Transfer>)
    requires Ascending(feed)
    requires forall at :: |Stamped(feed, at)| < 200
    ensures NoClog(feed)
  {
    forall i | 0 <= i && i + PAGE_LIMIT < |feed| ensures feed[i].at != feed[i + PAGE_LIMIT - 1].at {
      if feed[i].at == feed[i + PAGE_LIMIT - 1].at {
        var run := Stretch(i, PAGE_LIMIT);
        assert run <= Stamped(feed, feed[i].at);
        SubsetIsNoLarger(run, Stamped(feed, feed[i].at));
      }
    }
  }

  function Stretch(i: nat, n: nat): (s: set<nat>)
    ensures |s| == n && forall k :: k in s <==> i <= k < i + n
  {
    if n == 0 then {} else Stretch(i, n - 1) + {i + n - 1}
  }
}
