/** Turn-aligned pages of the timeline log (service/agent/event_log.py). */
module TimelinePaging {
  import opened TimelineKeys
  import opened Options

  /** A stored payload: a JSON object, some other JSON value, or text that is no JSON. */
  datatype Payload = Object(fields: string) | OtherJson | Malformed

  datatype LogRow = LogRow(seqNo: int, key: string, payload: Payload)

  datatype Page = Page(rows: seq<LogRow>, hasMore: bool, nextBefore: Option<int>)

  /** The log in the order of its seqs. */
  ghost predicate Ordered(table: seq<LogRow>) {
    forall i, j :: 0 <= i < j < |table| ==> table[i].seqNo <= table[j].seqNo
  }

  /** The log in the order of its seqs, which are distinct. */
  ghost predicate Ascending(table: seq<LogRow>) {
    forall i, j :: 0 <= i < j < |table| ==> table[i].seqNo < table[j].seqNo
  }

  /** The keys are such that both user-message tests agree on them (TimelineKeys.UserMessageTestsAgree). */
  ghost predicate KeysAgree(table: seq<LogRow>) {
    forall r :: r in table ==> (LikeUserMessage(r.key) <==> StartsAsUserMessage(r.key))
  }

  // ----- The queries, over a log listed by seq -----

  /** How many rows have a smaller seq. */
  function Below(table: seq<LogRow>, bound: int): nat
    ensures Below(table, bound) <= |table|
  {
    if table == [] || table[0].seqNo >= bound then 0 else 1 + Below(table[1..], bound)
  }

  function End(table: seq<LogRow>, before: Option<int>): nat
    ensures End(table, before) <= |table|
  {
    match before
    case None => |table|
    case Some(bound) => Below(table, bound)
  }

  /** The largest seq of a user message among these rows. */
  function LastTurnStart(rows: seq<LogRow>): Option<int> {
    if rows == [] then None
    else if LikeUserMessage(rows[|rows| - 1].key) then Some(rows[|rows| - 1].seqNo)
    else LastTurnStart(rows[..|rows| - 1])
  }

  function Max(a: int, b: int): int { if a >= b then a else b }

  /** The rows that decode to an object; the others are skipped. */
  function Items(rows: seq<LogRow>): seq<(int, string)> {
    if rows == [] then []
    else
      var last := rows[|rows| - 1];
      if last.payload.Object? then Items(rows[..|rows| - 1]) + [(last.seqNo, last.payload.fields)]
      else Items(rows[..|rows| - 1])
  }

  // ----- The page as the queries give it -----

  /** Where the rows of the first query begin. */
  function Limited(table: seq<LogRow>, before: Option<int>, limit: int): nat {
    Max(0, End(table, before) - Max(1, limit))
  }

  function Slice(table: seq<LogRow>, from: nat, to: nat): seq<LogRow> {
    if from <= to <= |table| then table[from..to] else []
  }

  function Bounded(table: seq<LogRow>, rows: seq<LogRow>, firstSeq: int): Page {
    if Below(table, firstSeq) > 0 then Page(rows, true, Some(firstSeq)) else Page(rows, false, None)
  }

  /** The last rows before the cursor, extended back to the last user message before them unless they start with one. */
  function PageOf(table: seq<LogRow>, before: Option<int>, limit: int): Page {
    var end, k := End(table, before), Limited(table, before, limit);
    if end == 0 then Page([], false, None)
    else
      var rows, first := table[k..end], table[k].seqNo;
      if StartsAsUserMessage(table[k].key) then Bounded(table, rows, first)
      else
        match LastTurnStart(table[..Below(table, first)])
        case None => Bounded(table, rows, first)
        case Some(s) => Bounded(table, Slice(table, Below(table, s), Below(table, first)) + rows, s)
  }

  lemma {:induction false} BelowSplits(table: seq<LogRow>, bound: int, i: nat)
    requires Ordered(table) && i < |table|
    ensures i < Below(table, bound) <==> table[i].seqNo < bound
  {
    if table[0].seqNo < bound && i > 0 {
      assert table[1..][i - 1] == table[i];
      BelowSplits(table[1..], bound, i - 1);
    } else if i > 0 {
      assert table[0].seqNo <= table[i].seqNo;
    }
  }

  /** Two rows of one seq on either side of a position. */
  predicate BreaksTie(table: seq<LogRow>, i: nat) {
    0 < i < |table| && table[i - 1].seqNo == table[i].seqNo
  }

  /** The seq of a row counts the rows before it, except those that share it. */
  lemma BelowOwnSeq(table: seq<LogRow>, i: nat)
    requires Ordered(table) && i < |table|
    ensures Below(table, table[i].seqNo) <= i
    ensures Below(table, table[i].seqNo) == i <==> !BreaksTie(table, i)
  {
    hide Below;
    BelowSplits(table, table[i].seqNo, i);
    if i > 0 { BelowSplits(table, table[i].seqNo, i - 1); }
  }

  lemma {:induction false} LastTurnStartIsThere(table: seq<LogRow>, n: nat) returns (at: nat)
    requires n <= |table|
    ensures match LastTurnStart(table[..n])
            case None => forall i :: 0 <= i < n ==> !LikeUserMessage(table[i].key)
            case Some(s) => at < n && table[at].seqNo == s && LikeUserMessage(table[at].key)
                            && forall i :: at < i < n ==> !LikeUserMessage(table[i].key)
  {
    hide LikeUserMessage;
    at := 0;
    if n > 0 {
      assert table[..n][..n - 1] == table[..n - 1];
      if LikeUserMessage(table[n - 1].key) {
        at := n - 1;
      } else {
        at := LastTurnStartIsThere(table, n - 1);
      }
    }
  }

  /** The first seq of a page lies before the rows of its first query, and is that of a row. */
  lemma FirstSeq(table: seq<LogRow>, before: Option<int>, limit: int) returns (at: nat)
    requires Ordered(table) && End(table, before) > 0
    ensures var k := Limited(table, before, limit);
            && k < End(table, before) && at <= k
            && PageOf(table, before, limit) ==
               Bounded(table, (if at < Below(table, table[k].seqNo) then Slice(table, Below(table, table[at].seqNo), Below(table, table[k].seqNo)) else [])
                              + table[k..End(table, before)], table[at].seqNo)
            && (at < Below(table, table[k].seqNo) || at == k)
  {
    hide Below, LikeUserMessage, StartsAsUserMessage;
    var end, k := End(table, before), Limited(table, before, limit);
    var first := table[k].seqNo;
    BelowOwnSeq(table, k);
    at := k;
    var rows := table[k..end];
    assert [] + rows == rows;
    if !StartsAsUserMessage(table[k].key) && LastTurnStart(table[..Below(table, first)]).Some? {
      at := LastTurnStartIsThere(table, Below(table, first));
      BelowOwnSeq(table, at);
    }
  }

  /** One page, computed by the queries of the source. */
  method FetchTimelinePage(table: seq<LogRow>, before: Option<int>, limit: int)
    returns (items: seq<(int, string)>, hasMore: bool, nextBefore: Option<int>)
    requires Ordered(table)
    ensures var page := PageOf(table, before, limit);
            items == Items(page.rows) && hasMore == page.hasMore && nextBefore == page.nextBefore
  {
    hide Below, LikeUserMessage, StartsAsUserMessage, LastTurnStart, Items;
    var count := Max(1, limit);
    var end := End(table, before);
    var rows := table[Max(0, end - count)..end];
    if rows == [] {
      items := Decode([]);
      return items, false, None;
    }
    var firstSeq := rows[0].seqNo;
    var k := Max(0, end - count);
    assert firstSeq == table[k].seqNo;
    if !StartsAsUserMessage(rows[0].key) {
      var turnStart := LastTurnStart(table[..Below(table, firstSeq)]);
      if turnStart.Some? {
        ghost var at := LastTurnStartIsThere(table, Below(table, firstSeq));
        BelowOwnSeq(table, k);
        BelowOwnSeq(table, at);
        BelowSplits(table, firstSeq, at);
        assert turnStart.value < firstSeq;
        var gap := table[Below(table, turnStart.value)..Below(table, firstSeq)];
        rows := gap + rows;
        FirstOfGap(table, at);
        firstSeq := rows[0].seqNo;
      }
    }
    hasMore := Below(table, firstSeq) > 0;
    nextBefore := if hasMore then Some(firstSeq) else None;
    items := Decode(rows);
  }

  /** The first row with at least the seq of row `at` has that seq. */
  lemma FirstOfGap(table: seq<LogRow>, at: nat)
    requires Ordered(table) && at < |table|
    ensures Below(table, table[at].seqNo) <= at && table[Below(table, table[at].seqNo)].seqNo == table[at].seqNo
  {
    hide Below;
    BelowOwnSeq(table, at);
    BelowSplits(table, table[at].seqNo, Below(table, table[at].seqNo));
  }

  method Decode(rows: seq<LogRow>) returns (items: seq<(int, string)>)
    ensures items == Items(rows)
  {
    items := [];
    for i := 0 to |rows|
      invariant items == Items(rows[..i])
    {
      assert rows[..i + 1][..i] == rows[..i];
      if rows[i].payload.Object? { items := items + [(rows[i].seqNo, rows[i].payload.fields)]; }
    }
    assert rows[..|rows|] == rows;
  }

  // ----- Following the cursor -----

  /** The rows between the page's own cursor and its end, without those that share the seq of its first row. */
  lemma PageCovers(table: seq<LogRow>, before: Option<int>, limit: int)
    requires Ordered(table)
    ensures var page, end, k := PageOf(table, before, limit), End(table, before), Limited(table, before, limit);
            if end == 0 then page == Page([], false, None)
            else
              var start := if page.nextBefore.Some? then End(table, page.nextBefore) else 0;
              var tie := Below(table, table[k].seqNo);
              && start <= tie <= k < end && page.rows == table[start..tie] + table[k..end]
              && (page.nextBefore.Some? ==> start > 0)
  {
    hide Below;
    if End(table, before) > 0 {
      var at := FirstSeq(table, before, limit);
      BelowOwnSeq(table, Limited(table, before, limit));
      BelowOwnSeq(table, at);
      if at < Below(table, table[Limited(table, before, limit)].seqNo) {
        BelowOwnSeq(table, at);
      } else {
        var tie := Below(table, table[at].seqNo);
        assert table[tie..tie] == [];
      }
    }
  }

  /** Pages fetched newest first, each with the cursor of the one before, until there is no cursor. */
  function Walk(table: seq<LogRow>, before: Option<int>, limit: int): seq<Page>
    requires Ordered(table)
    decreases End(table, before)
  {
    PageCovers(table, before, limit);
    var page := PageOf(table, before, limit);
    if page.nextBefore.None? then [page] else [page] + Walk(table, page.nextBefore, limit)
  }

  function Joined(pages: seq<Page>): seq<LogRow> {
    if pages == [] then [] else Joined(pages[1..]) + pages[0].rows
  }

  /** No page of the walk begins between two rows of one seq. */
  predicate CleanWalk(table: seq<LogRow>, before: Option<int>, limit: int)
    requires Ordered(table)
    decreases End(table, before)
  {
    PageCovers(table, before, limit);
    var page := PageOf(table, before, limit);
    && (End(table, before) > 0 ==> !BreaksTie(table, Limited(table, before, limit)))
    && (page.nextBefore.Some? ==> CleanWalk(table, page.nextBefore, limit))
  }

  lemma {:induction false} CleanWalkIsComplete(table: seq<LogRow>, before: Option<int>, limit: int)
    requires Ordered(table) && CleanWalk(table, before, limit)
    ensures Joined(Walk(table, before, limit)) == table[..End(table, before)]
    decreases End(table, before)
  {
    hide Below, PageOf;
    PageCovers(table, before, limit);
    var page, end, k := PageOf(table, before, limit), End(table, before), Limited(table, before, limit);
    if end > 0 { BelowOwnSeq(table, k); }
    if page.nextBefore.Some? {
      CleanWalkIsComplete(table, page.nextBefore, limit);
      assert Walk(table, before, limit)[1..] == Walk(table, page.nextBefore, limit);
      var start := End(table, page.nextBefore);
      assert table[..start] + (table[start..k] + table[k..end]) == table[..end];
    } else {
      assert Walk(table, before, limit)[1..] == [];
      assert end > 0 ==> [] + (table[0..k] + table[k..end]) == table[..end];
    }
  }

  /** The walk never visits more than the rows before its cursor, and fewer if a page begins between two rows of one seq. */
  lemma {:induction false} WalkLoses(table: seq<LogRow>, before: Option<int>, limit: int)
    requires Ordered(table)
    ensures |Joined(Walk(table, before, limit))| <= End(table, before)
    ensures !CleanWalk(table, before, limit) ==> |Joined(Walk(table, before, limit))| < End(table, before)
    ensures |Walk(table, before, limit)| <= Max(1, End(table, before))
    decreases End(table, before)
  {
    hide Below, PageOf;
    PageCovers(table, before, limit);
    var page, end, k := PageOf(table, before, limit), End(table, before), Limited(table, before, limit);
    if end > 0 { BelowOwnSeq(table, k); }
    if page.nextBefore.Some? {
      WalkLoses(table, page.nextBefore, limit);
      assert Walk(table, before, limit)[1..] == Walk(table, page.nextBefore, limit);
    } else {
      assert Walk(table, before, limit)[1..] == [];
    }
  }

  /**
   * Following the cursor visits every row before it exactly once and in order, if and only if no page on the way begins
   * between two rows of one seq.
   */
  lemma WalkVisitsEachRowOnce(table: seq<LogRow>, before: Option<int>, limit: int)
    requires Ordered(table)
    ensures Joined(Walk(table, before, limit)) == table[..End(table, before)] <==> CleanWalk(table, before, limit)
  {
    if CleanWalk(table, before, limit) {
      CleanWalkIsComplete(table, before, limit);
    } else {
      WalkLoses(table, before, limit);
    }
  }

  /** Distinct seqs are enough. */
  lemma {:induction false} DistinctSeqsAreClean(table: seq<LogRow>, before: Option<int>, limit: int)
    requires Ascending(table)
    ensures Ordered(table) && CleanWalk(table, before, limit)
    decreases End(table, before)
  {
    hide Below, PageOf;
    PageCovers(table, before, limit);
    if PageOf(table, before, limit).nextBefore.Some? {
      DistinctSeqsAreClean(table, PageOf(table, before, limit).nextBefore, limit);
    }
  }

  /** Two rows of one seq and pages of one row: the older row is never shown. */
  lemma EqualSeqsLoseARow(a: LogRow, b: LogRow)
    requires a.seqNo == b.seqNo
    ensures Joined(Walk([a, b], None, 1)) == [b] && !CleanWalk([a, b], None, 1)
  {
    var table := [a, b];
    assert Below(table, b.seqNo) == 0 && table[..0] == [];
    assert LastTurnStart(table[..Below(table, b.seqNo)]) == None;
    assert table[1..2] == [b];
    assert PageOf(table, None, 1) == Page([b], false, None);
    assert Walk(table, None, 1) == [Page([b], false, None)];
    assert Joined([Page([b], false, None)][1..]) == [] && [] + [b] == [b];
    assert BreaksTie(table, Limited(table, None, 1));
  }

  // ----- What a page is when seqs are distinct: a slice that starts where a turn starts -----

  predicate StartsTurn(table: seq<LogRow>, i: nat) {
    i < |table| && StartsAsUserMessage(table[i].key)
  }

  /** `start` is the first position of the page that ends before `end`. */
  ghost predicate IsPageStart(table: seq<LogRow>, end: nat, limit: int, start: nat) {
    var k := Max(0, end - Max(1, limit));
    && start <= k
    && (StartsTurn(table, start) || (start == k && forall i :: 0 <= i < start ==> !StartsTurn(table, i)))
    && (forall i :: start < i <= k ==> !StartsTurn(table, i))
  }

  ghost predicate IsPage(table: seq<LogRow>, before: Option<int>, limit: int, page: Page, start: nat) {
    var end := End(table, before);
    if end == 0 then page == Page([], false, None) && start == 0
    else
      && start < end <= |table| && IsPageStart(table, end, limit, start)
      && page == Page(table[start..end], start > 0, if start > 0 then Some(table[start].seqNo) else None)
  }

  lemma TurnsAgree(table: seq<LogRow>, k: nat)
    requires KeysAgree(table) && k <= |table|
    ensures forall i :: 0 <= i < k ==> (StartsTurn(table, i) <==> LikeUserMessage(table[i].key))
  {
    hide LikeUserMessage, StartsAsUserMessage;
    assert forall i :: 0 <= i < k ==> table[i] in table;
  }

  /** A page is one contiguous slice; it starts at a user message, the nearest one, or there is none before it. */
  lemma PageIsTurnAligned(table: seq<LogRow>, before: Option<int>, limit: int) returns (start: nat)
    requires Ascending(table) && KeysAgree(table)
    ensures IsPage(table, before, limit, PageOf(table, before, limit), start)
  {
    hide Below, LikeUserMessage, StartsAsUserMessage, LastTurnStart, KeysAgree;
    var end, k := End(table, before), Limited(table, before, limit);
    start := 0;
    if end > 0 {
      start := k;
      BelowOwnSeq(table, k);
      TurnsAgree(table, k);
      if !StartsAsUserMessage(table[k].key) {
        var at := LastTurnStartIsThere(table, k);
        if LastTurnStart(table[..k]).Some? {
          start := at;
          BelowOwnSeq(table, at);
          assert table[at..k] + table[k..end] == table[at..end];
        }
      }
    }
  }

  lemma StartIsUnique(table: seq<LogRow>, end: nat, limit: int, s: nat, t: nat)
    requires IsPageStart(table, end, limit, s) && IsPageStart(table, end, limit, t)
    ensures s == t
  {
    hide StartsTurn;
  }

  /** `later` is the log after more rows were appended and payloads of existing rows were replaced. */
  ghost predicate Grown(table: seq<LogRow>, later: seq<LogRow>) {
    && |table| <= |later|
    && forall i :: 0 <= i < |table| ==> later[i].seqNo == table[i].seqNo && later[i].key == table[i].key
  }

  /** Growth of the log does not move an older page: same rows but for payloads, same cursor. */
  lemma OlderPagesStay(table: seq<LogRow>, later: seq<LogRow>, i: nat, limit: int)
    requires Ascending(table) && Ascending(later) && KeysAgree(table) && KeysAgree(later)
    requires Grown(table, later) && i < |table|
    ensures var p, q := PageOf(table, Some(table[i].seqNo), limit), PageOf(later, Some(table[i].seqNo), limit);
            && p.hasMore == q.hasMore && p.nextBefore == q.nextBefore && |p.rows| == |q.rows|
            && forall k :: 0 <= k < |p.rows| ==> p.rows[k].seqNo == q.rows[k].seqNo && p.rows[k].key == q.rows[k].key
  {
    hide Below, StartsAsUserMessage, LikeUserMessage, PageOf;
    BelowOwnSeq(table, i);
    BelowOwnSeq(later, i);
    var s := PageIsTurnAligned(table, Some(table[i].seqNo), limit);
    var t := PageIsTurnAligned(later, Some(table[i].seqNo), limit);
    if i > 0 {
      SameTurns(table, later, i, limit, t);
      StartIsUnique(table, i, limit, s, t);
    }
  }

  lemma SameTurns(table: seq<LogRow>, later: seq<LogRow>, i: nat, limit: int, t: nat)
    requires Grown(table, later) && 0 < i < |table| && IsPageStart(later, i, limit, t)
    ensures IsPageStart(table, i, limit, t)
  {
    hide StartsAsUserMessage;
    assert forall j :: 0 <= j < i ==> (StartsTurn(table, j) <==> StartsTurn(later, j));
  }
}
