/**
 Context compaction (core/conversation/compaction.py): which prefix of a projection is summarised,
 what the next projection shows, and what every run of appends and compactions keeps.
 */
module Compaction {
  import opened Items
  import opened Projection

  // ----- Choosing the candidates -----

  /** The integer thresholds of one compaction attempt, ratios already applied. */
  datatype Config = Config(enabled: bool, window: int, trigger: int, hardStop: int, target: int,
                           preserveItems: nat, preserveTokens: int, minItems: nat, summaryMax: int)

  function Weight(enc: Item -> nat, items: seq<ProjectedItem>): nat {
    if items == [] then 0 else ItemTokens(enc, items[0].item) + Weight(enc, items[1..])
  }

  lemma {:induction false} WeightAppend(enc: Item -> nat, a: seq<ProjectedItem>, b: seq<ProjectedItem>)
    ensures Weight(enc, a + b) == Weight(enc, a) + Weight(enc, b)
  {
    if a == [] {
      assert a + b == b;
    } else {
      assert (a + b)[1..] == a[1..] + b;
      WeightAppend(enc, a[1..], b);
    }
  }

  function Count(items: seq<ProjectedItem>, group: string): nat {
    if items == [] then 0
    else Count(items[..|items| - 1], group) + (if items[|items| - 1].atomicGroup == group then 1 else 0)
  }

  lemma {:induction false} CountAppend(a: seq<ProjectedItem>, b: seq<ProjectedItem>, group: string)
    ensures Count(a + b, group) == Count(a, group) + Count(b, group)
  {
    if b == [] {
      assert a + b == a;
    } else {
      assert (a + b)[..|a + b| - 1] == a + b[..|b| - 1];
      CountAppend(a, b[..|b| - 1], group);
    }
  }

  /** No tool group is left open: each occurs an even number of times. */
  ghost predicate Closed(items: seq<ProjectedItem>) {
    forall group :: group != "" ==> Count(items, group) % 2 == 0
  }

  /** The last `n` items reach both recency minimums. */
  predicate TailEnough(enc: Item -> nat, cfg: Config, items: seq<ProjectedItem>, n: nat)
    requires n <= |items|
  {
    n >= cfg.preserveItems && Weight(enc, items[|items| - n..]) >= cfg.preserveTokens
  }

  /** `n` is the shortest tail that is recent enough, or everything. */
  ghost predicate KeptTail(enc: Item -> nat, cfg: Config, items: seq<ProjectedItem>, n: nat) {
    && n <= |items|
    && (n < |items| ==> TailEnough(enc, cfg, items, n))
    && forall m :: 0 <= m < n ==> !TailEnough(enc, cfg, items, m)
  }

  method PreservedTail(enc: Item -> nat, cfg: Config, items: seq<ProjectedItem>) returns (n: nat)
    ensures KeptTail(enc, cfg, items, n)
  {
    n := 0;
    var tokens := 0;
    while n < |items|
      invariant n <= |items| && tokens == Weight(enc, items[|items| - n..])
      invariant forall m :: 0 <= m < n ==> !TailEnough(enc, cfg, items, m)
    {
      if n >= cfg.preserveItems && tokens >= cfg.preserveTokens { return; }
      var item := items[|items| - n - 1];
      assert items[|items| - n - 1..] == [item] + items[|items| - n..];
      tokens := tokens + ItemTokens(enc, item.item);
      n := n + 1;
    }
  }

  /** Compacting the first `m` eligible items is allowed and brings the context down to the target. */
  ghost predicate Reaches(enc: Item -> nat, cfg: Config, projected: int, eligible: seq<ProjectedItem>, m: nat) {
    && m <= |eligible| && m > 0 && m >= cfg.minItems
    && Closed(eligible[..m])
    && projected - Weight(enc, eligible[..m]) + cfg.summaryMax <= cfg.target
  }

  /**
   The candidates: the shortest closed prefix reaching the target; failing that everything eligible if
   closed, and otherwise the longest closed prefix of the minimum length.
   */
  ghost predicate Selected(enc: Item -> nat, cfg: Config, projected: int,
                           eligible: seq<ProjectedItem>, r: seq<ProjectedItem>) {
    && r <= eligible
    && (forall m: nat :: m < |r| ==> !Reaches(enc, cfg, projected, eligible, m))
    && (!Reaches(enc, cfg, projected, eligible, |r|) ==>
        && (forall m: nat :: m <= |eligible| ==> !Reaches(enc, cfg, projected, eligible, m))
        && (if Closed(eligible) then r == eligible
            else && (r == [] || (|r| >= cfg.minItems && Closed(r)))
                 && forall m: nat :: |r| < m <= |eligible| && m >= cfg.minItems ==> !Closed(eligible[..m])))
  }

  function Eligible(items: seq<ProjectedItem>): seq<ProjectedItem> {
    if items == [] then []
    else Eligible(items[..|items| - 1])
         + (if items[|items| - 1].sourceIds == [] then [] else [items[|items| - 1]])
  }

  lemma {:induction false} AllEligible(items: seq<ProjectedItem>)
    requires forall x :: x in items ==> x.sourceIds != []
    ensures Eligible(items) == items
  {
    if items != [] {
      assert items[|items| - 1] in items;
      AllEligible(items[..|items| - 1]);
      assert items == items[..|items| - 1] + [items[|items| - 1]];
    }
  }

  /** The groups occurring an odd number of times. */
  ghost predicate OpenGroups(items: seq<ProjectedItem>, open: set<string>) {
    forall group :: group in open <==> group != "" && Count(items, group) % 2 == 1
  }

  lemma OpenMeansNotClosed(items: seq<ProjectedItem>, open: set<string>)
    requires OpenGroups(items, open)
    ensures open == {} <==> Closed(items)
  {
    if open != {} {
      var group :| group in open;
      assert Count(items, group) % 2 == 1;
    }
  }

  method ToggleGroup(items: seq<ProjectedItem>, item: ProjectedItem, open: set<string>) returns (open': set<string>)
    requires OpenGroups(items, open)
    ensures OpenGroups(items + [item], open')
  {
    assert (items + [item])[..|items + [item]| - 1] == items;
    open' := open;
    if item.atomicGroup != "" {
      if item.atomicGroup in open {
        open' := open - {item.atomicGroup};
      } else {
        open' := open + {item.atomicGroup};
      }
    }
  }

  /** What the loop knows about the candidates taken so far. */
  ghost predicate Taken(enc: Item -> nat, cfg: Config, r: seq<ProjectedItem>,
                        removed: nat, open: set<string>, lastComplete: nat) {
    removed == Weight(enc, r) && OpenGroups(r, open) && LastClosed(cfg, r, lastComplete)
  }

  /** One round of the loop; `reached` says that the candidates now suffice. */
  method TakeCandidate(enc: Item -> nat, cfg: Config, projected: int, r: seq<ProjectedItem>, item: ProjectedItem,
                       removed: nat, open: set<string>, lastComplete: nat)
    returns (removed': nat, open': set<string>, lastComplete': nat, reached: bool)
    requires cfg.minItems >= 1 && Taken(enc, cfg, r, removed, open, lastComplete)
    ensures Taken(enc, cfg, r + [item], removed', open', lastComplete')
    ensures reached <==> Reaches(enc, cfg, projected, r + [item], |r| + 1)
    ensures open' == {} <==> Closed(r + [item])
  {
    assert (r + [item])[..|r| + 1] == r + [item];
    open' := ToggleGroup(r, item, open);
    OpenMeansNotClosed(r + [item], open');
    WeightAppend(enc, r, [item]);
    removed' := removed + ItemTokens(enc, item.item);
    lastComplete' := if open' == {} && |r| + 1 >= cfg.minItems then |r| + 1 else lastComplete;
    LastClosedExtends(cfg, r, item, lastComplete');
    reached := projected - removed' + cfg.summaryMax <= cfg.target && |r| + 1 >= cfg.minItems && open' == {};
  }

  method SelectCandidates(enc: Item -> nat, cfg: Config, items: seq<ProjectedItem>, projected: int)
    returns (r: seq<ProjectedItem>, kept: nat)
    requires cfg.minItems >= 1
    ensures KeptTail(enc, cfg, items, kept)
    ensures kept == |items| ==> r == []
    ensures Selected(enc, cfg, projected, Eligible(items[..|items| - kept]), r)
  {
    hide Selected, Reaches, OpenGroups, LastClosed, Closed;
    var n := PreservedTail(enc, cfg, items);
    kept := n;
    var head := items[..|items| - n];
    ghost var eligible := Eligible(head);
    r := [];
    var removed: nat, open: set<string>, lastComplete: nat, reached := 0, {}, 0, false;
    NothingTaken(enc, cfg, projected, eligible);
    if |head| <= 0 {
      SelectAll(enc, cfg, projected, r, 0);
      return;
    }
    for i := 0 to |head|
      invariant r == Eligible(head[..i]) && r <= eligible && Taken(enc, cfg, r, removed, open, lastComplete)
      invariant open == {} <==> Closed(r)
      invariant forall m: nat :: m <= |r| ==> !Reaches(enc, cfg, projected, eligible, m)
    {
      assert head[..i + 1][..i] == head[..i];
      EligiblePrefix(head, i + 1);
      if head[i].sourceIds == [] { continue; }
      removed, open, lastComplete, reached := TakeCandidate(enc, cfg, projected, r, head[i], removed, open, lastComplete);
      r := r + [head[i]];
      ReachesPrefix(enc, cfg, projected, eligible, r, |r|);
      if reached {
        SelectEarly(enc, cfg, projected, eligible, r);
        return;
      }
    }
    assert head[..|head|] == head;
    SelectAll(enc, cfg, projected, r, lastComplete);
    if open != {} {
      r := r[..lastComplete];
    }
  }

  lemma NothingTaken(enc: Item -> nat, cfg: Config, projected: int, eligible: seq<ProjectedItem>)
    ensures Taken(enc, cfg, [], 0, {}, 0) && Closed([])
    ensures !Reaches(enc, cfg, projected, eligible, 0)
  {
  }

  lemma ReachesPrefix(enc: Item -> nat, cfg: Config, projected: int,
                      eligible: seq<ProjectedItem>, r: seq<ProjectedItem>, m: nat)
    requires r <= eligible && m <= |r|
    ensures Reaches(enc, cfg, projected, eligible, m) <==> Reaches(enc, cfg, projected, r, m)
  {
    assert eligible[..m] == r[..m];
  }

  lemma SelectEarly(enc: Item -> nat, cfg: Config, projected: int, eligible: seq<ProjectedItem>, r: seq<ProjectedItem>)
    requires r <= eligible && Reaches(enc, cfg, projected, eligible, |r|)
    requires forall m: nat :: m < |r| ==> !Reaches(enc, cfg, projected, eligible, m)
    ensures Selected(enc, cfg, projected, eligible, r)
  {
  }

  lemma SelectAll(enc: Item -> nat, cfg: Config, projected: int, eligible: seq<ProjectedItem>, n: nat)
    requires LastClosed(cfg, eligible, n)
    requires forall m: nat :: m <= |eligible| ==> !Reaches(enc, cfg, projected, eligible, m)
    ensures n <= |eligible|
    ensures Closed(eligible) ==> Selected(enc, cfg, projected, eligible, eligible)
    ensures !Closed(eligible) ==> Selected(enc, cfg, projected, eligible, eligible[..n])
  {
    hide Closed, Reaches;
    assert eligible[..n] <= eligible;
  }

  lemma {:induction false} EligiblePrefix(items: seq<ProjectedItem>, n: nat)
    requires n <= |items|
    ensures Eligible(items[..n]) <= Eligible(items)
  {
    if n < |items| {
      EligiblePrefix(items[..|items| - 1], n);
      assert items[..|items| - 1][..n] == items[..n];
    } else {
      assert items[..n] == items;
    }
  }

  /** `n` is the length of the longest closed prefix of at least the minimum length, 0 if there is none. */
  ghost predicate LastClosed(cfg: Config, items: seq<ProjectedItem>, n: nat) {
    && n <= |items|
    && (n > 0 ==> n >= cfg.minItems && Closed(items[..n]))
    && forall m: nat :: n < m <= |items| && m >= cfg.minItems ==> !Closed(items[..m])
  }

  lemma LastClosedExtends(cfg: Config, items: seq<ProjectedItem>, item: ProjectedItem, n: nat)
    requires n <= |items| ==> LastClosed(cfg, items, n)
    requires n > |items| ==> n == |items| + 1
    requires n > |items| <==> Closed(items + [item]) && |items| + 1 >= cfg.minItems
    requires cfg.minItems >= 1
    ensures LastClosed(cfg, items + [item], n)
  {
    var all := items + [item];
    assert all[..|all|] == all;
    assert forall m: nat :: m <= |items| ==> all[..m] == items[..m];
  }

  // ----- What a selection guarantees -----

  lemma SelectedCloses(enc: Item -> nat, cfg: Config, projected: int,
                       eligible: seq<ProjectedItem>, r: seq<ProjectedItem>)
    requires Selected(enc, cfg, projected, eligible, r) && r != []
    ensures r <= eligible && Closed(r)
  {
    hide Closed;
    assert r == eligible[..|r|];
  }

  /** A selection is a closed prefix, and what stays behind it is recent enough. */
  lemma SelectionIsClosed(enc: Item -> nat, cfg: Config, items: seq<ProjectedItem>, projected: int,
                          kept: nat, r: seq<ProjectedItem>)
    requires forall x :: x in items ==> x.sourceIds != []
    requires KeptTail(enc, cfg, items, kept)
    requires Selected(enc, cfg, projected, Eligible(items[..|items| - kept]), r) && r != []
    ensures |r| + kept <= |items| && r == items[..|r|] && Closed(r)
    ensures TailEnough(enc, cfg, items, |items| - |r|)
  {
    hide Closed, Reaches, Selected, TailEnough;
    var head := items[..|items| - kept];
    SelectedCloses(enc, cfg, projected, Eligible(head), r);
    AllEligible(head);
    assert r == head[..|r|] == items[..|r|];
    TailGrows(enc, cfg, items, kept, |items| - |r|);
  }

  /** A longer tail is recent enough if a shorter one is. */
  lemma TailGrows(enc: Item -> nat, cfg: Config, items: seq<ProjectedItem>, n: nat, m: nat)
    requires n <= m <= |items| && TailEnough(enc, cfg, items, n)
    ensures TailEnough(enc, cfg, items, m)
  {
    var a, b := |items| - m, |items| - n;
    assert items[a..] == items[a..b] + items[b..];
    WeightAppend(enc, items[a..b], items[b..]);
  }

  /** A tool group that occurs at most twice is compacted whole or not at all. */
  lemma GroupNeverSplit(items: seq<ProjectedItem>, n: nat, group: string)
    requires n <= |items| && Closed(items[..n]) && group != "" && Count(items, group) <= 2
    ensures Count(items[..n], group) == 0 || Count(items[n..], group) == 0
  {
    assert items == items[..n] + items[n..];
    CountAppend(items[..n], items[n..], group);
    assert Count(items[..n], group) % 2 == 0;
  }

  /** An early return is the shortest closed prefix of the minimum length that reaches the target. */
  lemma EarlyReturnIsShortest(enc: Item -> nat, cfg: Config, projected: int,
                              eligible: seq<ProjectedItem>, r: seq<ProjectedItem>, m: nat)
    requires Selected(enc, cfg, projected, eligible, r)
    requires Reaches(enc, cfg, projected, eligible, m)
    ensures |r| <= m && Reaches(enc, cfg, projected, eligible, |r|)
  {
  }

  /** The specification leaves no choice. */
  lemma SelectionIsUnique(enc: Item -> nat, cfg: Config, projected: int,
                          eligible: seq<ProjectedItem>, r: seq<ProjectedItem>, r': seq<ProjectedItem>)
    requires cfg.minItems >= 1
    requires Selected(enc, cfg, projected, eligible, r) && Selected(enc, cfg, projected, eligible, r')
    ensures r == r'
  {
    hide Closed;
    assert r == eligible[..|r|] && r' == eligible[..|r'|];
  }

  // ----- Compaction commutes with projection -----

  function MaxId(ids: seq<nat>): nat {
    if ids == [] then 0 else var m := MaxId(ids[..|ids| - 1]); if ids[|ids| - 1] > m then ids[|ids| - 1] else m
  }

  function MinId(ids: seq<nat>): nat
    requires ids != []
  {
    if |ids| == 1 then ids[0]
    else var m := MinId(ids[..|ids| - 1]); if ids[|ids| - 1] < m then ids[|ids| - 1] else m
  }

  predicate Sorted(ids: seq<nat>) {
    forall i, j :: 0 <= i < j < |ids| ==> ids[i] <= ids[j]
  }

  lemma {:induction false} SortedBounds(ids: seq<nat>)
    requires ids != [] && Sorted(ids)
    ensures MaxId(ids) == ids[|ids| - 1] && MinId(ids) == ids[0]
  {
    if |ids| > 1 {
      SortedBounds(ids[..|ids| - 1]);
    }
  }

  lemma SortedConcat(a: seq<nat>, b: seq<nat>)
    requires Sorted(a) && Sorted(b)
    requires forall x, y :: x in a && y in b ==> x <= y
    ensures Sorted(a + b)
  {
    forall i, j | 0 <= i < j < |a + b|
      ensures (a + b)[i] <= (a + b)[j]
    {
      if i < |a| <= j {
        assert a[i] in a && b[j - |a|] in b;
      }
    }
  }

  lemma {:induction false} VisibleIdsSorted(v: Viewer, items: seq<StoredItem>)
    requires Ascending(items)
    ensures Sorted(VisibleIds(v, items))
  {
    if items != [] {
      AboveFirst(items);
      VisibleIdsSorted(v, items[1..]);
      forall id | id in VisibleIds(v, items[1..])
        ensures items[0].messageId <= id
      {
        VisibleIdsFrom(v, items[1..], id);
      }
      SortedConcat(if Visible(v, items[0]) then [items[0].messageId] else [], VisibleIds(v, items[1..]));
    }
  }

  /** The ids behind the first `j` projected items form a prefix of all of them, ending in the cut. */
  lemma PrefixIds(out: seq<ProjectedItem>, j: nat)
    requires 0 < j <= |out| && out[j - 1].sourceIds != []
    ensures SourceIds(out[..j]) <= SourceIds(out)
    ensures SourceIds(out[..j]) != [] && SourceIds(out[..j])[|SourceIds(out[..j])| - 1] == LastId(out, j)
  {
    assert out == out[..j] + out[j..];
    SourceIdsAppend(out[..j], out[j..]);
    assert out[..j] == out[..j - 1] + [out[j - 1]];
    SourceIdsAppend(out[..j - 1], [out[j - 1]]);
    assert SourceIds([out[j - 1]]) == out[j - 1].sourceIds;
  }

  lemma ProjectedIdsSorted(v: Viewer, items: seq<StoredItem>)
    requires Ascending(items)
    ensures Sorted(SourceIds(Project(v, items)))
  {
    ProjectionKeepsIds(v, items);
    VisibleIdsSorted(v, items);
  }

  predicate WellFormed(c: Compaction) {
    c.Compaction? ==> c.startId <= c.endId
  }

  /** The messages a compaction leaves to be projected. */
  function Remaining(items: seq<StoredItem>, c: Compaction): seq<StoredItem> {
    if c.NoCompaction? then items else After(items, c.endId)
  }

  /** Number of leading summary items in a context. */
  function Anchors(c: Compaction): nat {
    if c.NoCompaction? then 0 else 1
  }

  lemma RemainingAppend(items: seq<StoredItem>, later: seq<StoredItem>, c: Compaction)
    requires Ascending(items + later)
    ensures Remaining(items + later, c) == Remaining(items, c) + Remaining(later, c)
    ensures Ascending(Remaining(items, c) + Remaining(later, c))
    ensures Ascending(items)
    ensures c.Compaction? ==> forall s :: s in Remaining(items, c) ==> s.messageId > c.endId
  {
    forall i, j | 0 <= i < j < |items|
      ensures items[i].messageId < items[j].messageId
    {
      assert (items + later)[i] == items[i] && (items + later)[j] == items[j];
    }
    if c.Compaction? {
      AfterAppend(items, later, c.endId);
      AfterKeepsOrder(items + later, c.endId);
      AfterKeepsOrder(items, c.endId);
    }
  }

  lemma ContextIdsSorted(v: Viewer, items: seq<StoredItem>, c: Compaction)
    requires Ascending(items) && WellFormed(c)
    ensures Sorted(SourceIds(Context(v, items, c)))
    ensures forall x :: x in Context(v, items, c) ==> x.sourceIds != []
  {
    var rest := Remaining(items, c);
    if c.Compaction? {
      AfterKeepsOrder(items, c.endId);
    }
    ProjectedIdsSorted(v, rest);
    ProjectionKeepsIds(v, rest);
    if c.Compaction? {
      var out := Project(v, rest);
      assert SourceIds([Summary(c)]) == [c.startId, c.endId];
      SourceIdsAppend([Summary(c)], out);
      forall id | id in SourceIds(out)
        ensures c.endId <= id
      {
        VisibleIdsFrom(v, rest, id);
      }
      SortedConcat([c.startId, c.endId], SourceIds(out));
    }
  }

  /** The largest id behind the first `k` items is the last id of item `k - 1`, the smallest the first id of item 0. */
  lemma CandidateBounds(v: Viewer, items: seq<StoredItem>, c: Compaction, k: nat)
    requires Ascending(items) && WellFormed(c) && 0 < k <= |Context(v, items, c)|
    ensures var ctx := Context(v, items, c);
            && ctx[k - 1].sourceIds != [] && ctx[0].sourceIds != [] && SourceIds(ctx[..k]) != []
            && MaxId(SourceIds(ctx[..k])) == LastId(ctx, k)
            && MinId(SourceIds(ctx[..k])) == ctx[0].sourceIds[0]
            && MinId(SourceIds(ctx[..k])) <= MaxId(SourceIds(ctx[..k]))
  {
    var ctx := Context(v, items, c);
    ContextIdsSorted(v, items, c);
    assert ctx[k - 1] in ctx && ctx[0] in ctx;
    PrefixIds(ctx, k);
    var ids := SourceIds(ctx[..k]);
    assert ids[0] == ctx[0].sourceIds[0];
    SortedBounds(ids);
  }

  /** Shifts a clean cut behind the summary item. */
  lemma {:induction false} CutBehindSummary(v: Viewer, items: seq<StoredItem>, later: seq<StoredItem>, c: Compaction, k: nat)
    requires Ascending(items + later) && WellFormed(c)
    requires Anchors(c) < k < |Context(v, items, c)|
    ensures var ctx := Context(v, items, c);
            && ctx[k - 1].sourceIds != []
            && CutsCleanly(Context(v, items + later, c), k, ctx, Project(v, After(items + later, LastId(ctx, k))))
  {
    var rest, rest' := Remaining(items, c), Remaining(later, c);
    RemainingAppend(items, later, c);
    var out, j := Project(v, rest), k - Anchors(c);
    ProjectCut(v, rest, rest', j);
    var cut := LastId(out, j);
    if c.Compaction? {
      SummaryBelow(v, items, c, j);
      AfterTwice(items + later, c.endId, cut);
      PrependCut([Summary(c)], j, k, Project(v, rest + rest'), out, Project(v, After(items + later, cut)),
                 Context(v, items + later, c), Context(v, items, c));
    }
  }

  lemma SummaryBelow(v: Viewer, items: seq<StoredItem>, c: Compaction, j: nat)
    requires c.Compaction? && 0 < j <= |Project(v, After(items, c.endId))|
    requires Ascending(items)
    ensures Project(v, After(items, c.endId))[j - 1].sourceIds != []
    ensures c.endId <= LastId(Project(v, After(items, c.endId)), j)
  {
    var rest := After(items, c.endId);
    var out := Project(v, rest);
    AfterKeepsOrder(items, c.endId);
    ProjectionKeepsIds(v, rest);
    assert out[j - 1] in out;
    MemberId(out, j - 1, LastId(out, j));
    VisibleIdsFrom(v, rest, LastId(out, j));
  }

  /**
   Compaction commutes with projection. Summarise the first `k` items of a viewer's context, leaving at
   least one: whatever is appended later, the new context is the new summary followed by exactly what
   the old context shows from item `k` on, and the first `k` items would not have changed any more.
   */
  lemma CompactionCommutes(v: Viewer, items: seq<StoredItem>, later: seq<StoredItem>,
                           c: Compaction, k: nat, c': Compaction)
    requires Ascending(items + later) && WellFormed(c)
    requires 0 < k < |Context(v, items, c)|
    requires c'.Compaction? && c'.endId == MaxId(SourceIds(Context(v, items, c)[..k]))
    ensures k <= |Context(v, items + later, c)|
    ensures Context(v, items + later, c)[..k] == Context(v, items, c)[..k]
    ensures Context(v, items + later, c') == [Summary(c')] + Context(v, items + later, c)[k..]
  {
    RemainingAppend(items, later, c);
    CandidateBounds(v, items, c, k);
    if k == Anchors(c) {
      assert Context(v, items + later, c)[1..] == Project(v, After(items + later, c.endId));
    } else {
      CutBehindSummary(v, items, later, c, k);
    }
  }

  // ----- Every run of appends and compactions -----

  /** The stored log together with the latest compaction of one scope. */
  datatype Conversation = Conversation(log: seq<StoredItem>, compaction: Compaction)

  datatype Step = Append(s: StoredItem) | Compact(k: nat, summary: Item)

  function Compacted(v: Viewer, st: Conversation, k: nat, summary: Item): Conversation
    requires 0 < k <= |Context(v, st.log, st.compaction)| && SourceIds(Context(v, st.log, st.compaction)[..k]) != []
  {
    var ids := SourceIds(Context(v, st.log, st.compaction)[..k]);
    st.(compaction := Compaction(MinId(ids), MaxId(ids), summary))
  }

  ghost predicate Next(v: Viewer, st: Conversation, step: Step, st': Conversation) {
    match step
    case Append(s) => st' == st.(log := st.log + [s]) && Ascending(st'.log)
    case Compact(k, summary) =>
      && 0 < k < |Context(v, st.log, st.compaction)|
      && SourceIds(Context(v, st.log, st.compaction)[..k]) != []
      && st' == Compacted(v, st, k, summary)
  }

  ghost predicate Run(v: Viewer, st: Conversation, steps: seq<Step>, st': Conversation)
    decreases |steps|
  {
    if steps == [] then st == st'
    else exists mid :: Next(v, st, steps[0], mid) && Run(v, mid, steps[1..], st')
  }

  /** The compacted view shows the uncompacted one from item `n` on, now and after any appends. */
  ghost predicate Covers(v: Viewer, log: seq<StoredItem>, cut: nat, n: nat) {
    n <= |Project(v, log)|
    && forall later :: Ascending(log + later) ==>
         CutsCleanly(Project(v, log + later), n, Project(v, log), Project(v, After(log + later, cut)))
  }

  ghost predicate Sound(v: Viewer, st: Conversation) {
    && Ascending(st.log) && WellFormed(st.compaction)
    && (st.compaction.Compaction? ==> exists n :: 0 < n && Covers(v, st.log, st.compaction.endId, n))
  }

  lemma CoversAppend(v: Viewer, log: seq<StoredItem>, s: StoredItem, cut: nat, n: nat)
    requires Covers(v, log, cut, n) && Ascending(log + [s])
    ensures Covers(v, log + [s], cut, n)
  {
    var whole := Project(v, log + [s]);
    assert CutsCleanly(whole, n, Project(v, log), Project(v, After(log + [s], cut)));
    forall later | Ascending((log + [s]) + later)
      ensures CutsCleanly(Project(v, (log + [s]) + later), n, whole, Project(v, After((log + [s]) + later, cut)))
    {
      assert (log + [s]) + later == log + ([s] + later);
    }
  }

  lemma CoversCompact(v: Viewer, st: Conversation, k: nat, summary: Item, n: nat)
    requires Ascending(st.log) && WellFormed(st.compaction)
    requires 0 < k < |Context(v, st.log, st.compaction)|
    requires SourceIds(Context(v, st.log, st.compaction)[..k]) != []
    requires if st.compaction.NoCompaction? then n == 0 else Covers(v, st.log, st.compaction.endId, n)
    ensures Covers(v, st.log, Compacted(v, st, k, summary).compaction.endId, n + k - Anchors(st.compaction))
  {
    var c, c', log := st.compaction, Compacted(v, st, k, summary).compaction, st.log;
    var j := k - Anchors(c);
    var whole := Project(v, log);
    assert log + [] == log;
    assert CutsCleanly(whole, n, whole, Project(v, Remaining(log, c)));
    forall later | Ascending(log + later)
      ensures CutsCleanly(Project(v, log + later), n + j, whole, Project(v, After(log + later, c'.endId)))
    {
      assert CutsCleanly(Project(v, log + later), n, whole, Project(v, Remaining(log + later, c)));
      ExtendCover(v, st, k, summary, n, later);
    }
  }

  lemma ExtendCover(v: Viewer, st: Conversation, k: nat, summary: Item, n: nat, later: seq<StoredItem>)
    requires Ascending(st.log + later) && WellFormed(st.compaction)
    requires 0 < k < |Context(v, st.log, st.compaction)|
    requires SourceIds(Context(v, st.log, st.compaction)[..k]) != []
    requires n <= |Project(v, st.log)| && Project(v, st.log)[n..] == Project(v, Remaining(st.log, st.compaction))
    requires CutsCleanly(Project(v, st.log + later), n, Project(v, st.log),
                         Project(v, Remaining(st.log + later, st.compaction)))
    ensures CutsCleanly(Project(v, st.log + later), n + k - Anchors(st.compaction), Project(v, st.log),
                        Project(v, After(st.log + later, Compacted(v, st, k, summary).compaction.endId)))
  {
    hide Project, After, SourceIds, MaxId, MinId, Ascending;
    var c, c', log := st.compaction, Compacted(v, st, k, summary).compaction, st.log;
    CompactionCommutes(v, log, later, c, k, c');
    var now, then' := Context(v, log, c), Context(v, log + later, c);
    assert now[Anchors(c)..] == Project(v, log)[n..];
    assert then'[Anchors(c)..] == Project(v, log + later)[n..];
    assert Context(v, log + later, c')[1..] == then'[k..];
    JoinCuts(Project(v, log + later), Project(v, log), n, k - Anchors(c), then', now, Anchors(c));
  }

  /** Two cuts one after the other make one. */
  lemma JoinCuts(out: seq<ProjectedItem>, whole: seq<ProjectedItem>, n: nat, j: nat,
                 later: seq<ProjectedItem>, now: seq<ProjectedItem>, anchors: nat)
    requires n <= |out| && n <= |whole| && out[..n] == whole[..n]
    requires anchors + j <= |later| && anchors + j <= |now| && later[..anchors + j] == now[..anchors + j]
    requires now[anchors..] == whole[n..] && later[anchors..] == out[n..]
    ensures n + j <= |out| && n + j <= |whole|
    ensures CutsCleanly(out, n + j, whole, later[anchors + j..])
  {
    assert out[n + j..] == out[n..][j..] == later[anchors..][j..] == later[anchors + j..];
    assert out[..n + j] == out[..n] + out[n..][..j];
    assert whole[..n + j] == whole[..n] + whole[n..][..j];
    assert out[n..][..j] == later[anchors..][..j] == later[..anchors + j][anchors..];
    assert whole[n..][..j] == now[anchors..][..j] == now[..anchors + j][anchors..];
  }

  lemma CompactKeepsSound(v: Viewer, st: Conversation, k: nat, summary: Item)
    requires Sound(v, st)
    requires 0 < k < |Context(v, st.log, st.compaction)|
    requires SourceIds(Context(v, st.log, st.compaction)[..k]) != []
    ensures Sound(v, Compacted(v, st, k, summary))
  {
    hide Covers;
    var n := 0;
    if st.compaction.Compaction? {
      n :| 0 < n && Covers(v, st.log, st.compaction.endId, n);
    }
    CandidateBounds(v, st.log, st.compaction, k);
    CoversCompact(v, st, k, summary, n);
    assert 0 < n + k - Anchors(st.compaction);
  }

  lemma CompactKeepsBounds(v: Viewer, st: Conversation, k: nat, summary: Item)
    requires Ascending(st.log) && WellFormed(st.compaction) && st.compaction.Compaction?
    requires 0 < k < |Context(v, st.log, st.compaction)|
    requires SourceIds(Context(v, st.log, st.compaction)[..k]) != []
    ensures Compacted(v, st, k, summary).compaction.startId == st.compaction.startId
    ensures Compacted(v, st, k, summary).compaction.endId >= st.compaction.endId
  {
    hide Project, MaxId, MinId, Ascending;
    CandidateBounds(v, st.log, st.compaction, k);
    if k > 1 {
      SummaryBelow(v, st.log, st.compaction, k - 1);
    }
  }

  lemma StepKeepsSound(v: Viewer, st: Conversation, step: Step, st': Conversation)
    requires Sound(v, st) && Next(v, st, step, st')
    ensures Sound(v, st')
    ensures st.compaction.Compaction? ==>
              && st'.compaction.Compaction? && st'.compaction.startId == st.compaction.startId
              && st'.compaction.endId >= st.compaction.endId
  {
    hide Covers, Context, Compacted;
    match step
    case Append(s) =>
      if st.compaction.Compaction? {
        var n :| 0 < n && Covers(v, st.log, st.compaction.endId, n);
        CoversAppend(v, st.log, s, st.compaction.endId, n);
      }
    case Compact(k, summary) =>
      CompactKeepsSound(v, st, k, summary);
      CompactedKind(v, st, k, summary);
      if st.compaction.Compaction? {
        CompactKeepsBounds(v, st, k, summary);
      }
  }

  lemma CompactedKind(v: Viewer, st: Conversation, k: nat, summary: Item)
    requires 0 < k <= |Context(v, st.log, st.compaction)| && SourceIds(Context(v, st.log, st.compaction)[..k]) != []
    ensures Compacted(v, st, k, summary).compaction.Compaction?
  {
  }

  /**
   In every run, from an empty conversation or any sound one, the model context is the latest summary
   followed by a suffix of the uncompacted projection: nothing behind the cut is lost, altered or shown
   twice. The start id never changes and the end id never falls.
   */
  lemma {:induction false} EveryRunIsSound(v: Viewer, st: Conversation, steps: seq<Step>, st': Conversation)
    requires Sound(v, st) && Run(v, st, steps, st')
    ensures Sound(v, st')
    ensures st'.compaction.Compaction? ==>
              exists n :: 0 < n <= |Project(v, st'.log)|
                && Context(v, st'.log, st'.compaction) == [Summary(st'.compaction)] + Project(v, st'.log)[n..]
    ensures st.compaction.Compaction? ==>
              && st'.compaction.Compaction? && st'.compaction.startId == st.compaction.startId
              && st'.compaction.endId >= st.compaction.endId
    decreases |steps|
  {
    if steps == [] {
      if st'.compaction.Compaction? {
        var n :| 0 < n && Covers(v, st'.log, st'.compaction.endId, n);
        assert st'.log + [] == st'.log;
        assert Project(v, st'.log)[n..] == Project(v, After(st'.log, st'.compaction.endId));
      }
    } else {
      var mid :| Next(v, st, steps[0], mid) && Run(v, mid, steps[1..], st');
      StepKeepsSound(v, st, steps[0], mid);
      EveryRunIsSound(v, mid, steps[1..], st');
    }
  }

  // ----- The decision around a selection -----

  datatype SummaryOutcome = Summarised(summary: Item) | Failed | Blank | LockBusy

  datatype Decision = Skip | Stored | HardStop

  /** The fate of an attempt that found `candidates` candidate items. */
  function Fate(cfg: Config, projected: int, candidates: nat, outcome: SummaryOutcome): Decision {
    if candidates < cfg.minItems then Skip
    else
      match outcome
      case Summarised(_) => Stored
      case LockBusy => Skip
      case _ => if 0 < cfg.hardStop <= projected then HardStop else Skip
  }

  /** `r` is what is selected from the context once the shortest recent tail is set apart. */
  ghost predicate Picked(enc: Item -> nat, cfg: Config, context: seq<ProjectedItem>, projected: int,
                         kept: nat, r: seq<ProjectedItem>) {
    && KeptTail(enc, cfg, context, kept)
    && Selected(enc, cfg, projected, Eligible(context[..|context| - kept]), r)
  }

  /** An attempt selects closed candidates by the rules above and stores them exactly when it may. */
  ghost predicate Attempt(enc: Item -> nat, cfg: Config, v: Viewer, st: Conversation, projected: int,
                          outcome: SummaryOutcome, d: Decision, st': Conversation,
                          kept: nat, r: seq<ProjectedItem>) {
    var context := Context(v, st.log, st.compaction);
    && Picked(enc, cfg, context, projected, kept, r)
    && d == Fate(cfg, projected, |r|, outcome)
    && (if d.Stored? && outcome.Summarised? then
          && r <= context && Closed(r) && TailEnough(enc, cfg, context, |context| - |r|)
          && Next(v, st, Compact(|r|, outcome.summary), st')
        else st' == st)
  }

  method CompactIfNeeded(enc: Item -> nat, cfg: Config, v: Viewer, st: Conversation, incoming: nat,
                         outcome: SummaryOutcome)
    returns (d: Decision, st': Conversation, kept: nat, r: seq<ProjectedItem>)
    requires cfg.minItems >= 1 && cfg.preserveItems >= 1
    requires Ascending(st.log) && WellFormed(st.compaction)
    ensures var projected := Weight(enc, Context(v, st.log, st.compaction)) + incoming;
            if !cfg.enabled || cfg.window <= 0 || projected < cfg.trigger then d == Skip && st' == st
            else
              && Attempt(enc, cfg, v, st, projected, outcome, d, st', kept, r)
              && (d == Stored <==> |r| >= cfg.minItems && outcome.Summarised?)
              && (d == HardStop <==> |r| >= cfg.minItems && (outcome.Failed? || outcome.Blank?) && 0 < cfg.hardStop <= projected)
    ensures d != Stored ==> st' == st
  {
    hide Attempt, Context, Selected, KeptTail;
    d, st', kept, r := Skip, st, 0, [];
    var context := ProjectContext(v, st.log, st.compaction);
    var projected := Weight(enc, context) + incoming;
    if !cfg.enabled || cfg.window <= 0 || projected < cfg.trigger { return; }
    ContextIdsSorted(v, st.log, st.compaction);
    var candidates;
    candidates, kept := SelectCandidates(enc, cfg, context, projected);
    r := candidates;
    d := Settle(cfg, projected, |candidates|, outcome);
    if d == Stored {
      CandidateIds(enc, cfg, context, projected, kept, candidates);
      var ids := SourceIds(candidates);
      st' := st.(compaction := Compaction(MinId(ids), MaxId(ids), outcome.summary));
      AttemptStores(enc, cfg, v, st, projected, outcome, st', kept, candidates);
    } else {
      AttemptSkips(enc, cfg, v, st, projected, outcome, d, kept, candidates);
    }
  }

  method Settle(cfg: Config, projected: int, candidates: nat, outcome: SummaryOutcome) returns (d: Decision)
    ensures d == Fate(cfg, projected, candidates, outcome)
    ensures d == Stored <==> outcome.Summarised? && candidates >= cfg.minItems
    ensures d == HardStop <==> (outcome.Failed? || outcome.Blank?) && candidates >= cfg.minItems && 0 < cfg.hardStop <= projected
  {
    if candidates < cfg.minItems { return Skip; }
    if outcome.Failed? || outcome.Blank? {
      if cfg.hardStop > 0 && projected >= cfg.hardStop { return HardStop; }
      return Skip;
    }
    if outcome.LockBusy? { return Skip; }
    return Stored;
  }

  lemma CandidateIds(enc: Item -> nat, cfg: Config, context: seq<ProjectedItem>, projected: int,
                     kept: nat, r: seq<ProjectedItem>)
    requires (forall x :: x in context ==> x.sourceIds != []) && r != []
    requires Picked(enc, cfg, context, projected, kept, r)
    ensures SourceIds(r) != []
    ensures |r| + kept <= |context| && r == context[..|r|] && Closed(r) && TailEnough(enc, cfg, context, |context| - |r|)
  {
    hide KeptTail, Selected, Eligible, Closed, TailEnough, SourceIds;
    SelectionIsClosed(enc, cfg, context, projected, kept, r);
    hide Picked;
    PrefixHasIds(context, |r|);
  }

  lemma PrefixHasIds(items: seq<ProjectedItem>, k: nat)
    requires 0 < k <= |items| && forall x :: x in items ==> x.sourceIds != []
    ensures SourceIds(items[..k]) != []
  {
    assert items[..k][0] in items;
  }

  lemma AttemptStores(enc: Item -> nat, cfg: Config, v: Viewer, st: Conversation, projected: int,
                      outcome: SummaryOutcome, st': Conversation, kept: nat, r: seq<ProjectedItem>)
    requires Ascending(st.log) && WellFormed(st.compaction) && r != [] && cfg.preserveItems >= 1
    requires Picked(enc, cfg, Context(v, st.log, st.compaction), projected, kept, r)
    requires outcome.Summarised? && Fate(cfg, projected, |r|, outcome) == Stored
    requires SourceIds(r) != []
    requires st' == st.(compaction := Compaction(MinId(SourceIds(r)), MaxId(SourceIds(r)), outcome.summary))
    ensures Attempt(enc, cfg, v, st, projected, outcome, Stored, st', kept, r)
  {
    hide Context, Closed, Picked, Ascending, WellFormed, Sorted, SourceIds, MinId, MaxId;
    ContextIdsSorted(v, st.log, st.compaction);
    CandidateIds(enc, cfg, Context(v, st.log, st.compaction), projected, kept, r);
    assert Next(v, st, Compact(|r|, outcome.summary), st');
  }

  lemma AttemptSkips(enc: Item -> nat, cfg: Config, v: Viewer, st: Conversation, projected: int,
                     outcome: SummaryOutcome, d: Decision, kept: nat, r: seq<ProjectedItem>)
    requires Picked(enc, cfg, Context(v, st.log, st.compaction), projected, kept, r)
    requires d == Fate(cfg, projected, |r|, outcome) && d != Stored
    ensures Attempt(enc, cfg, v, st, projected, outcome, d, st, kept, r)
  {
    hide Context, Picked;
  }
}
