/**
 What a viewer is shown, told from the fields of the stored items alone: the visible ones in their order, cut into single
 items and runs of quoted messages (core/conversation/projection.py).
 */
module ProjectionContents {
  import opened Items
  import opened Projection
  import opened Strings
  import Decimal

  function Shown(v: Viewer, items: seq<StoredItem>): seq<StoredItem> {
    if items == [] then []
    else (if Verbatim(v, items[0]) || Quoted(v, items[0]) then [items[0]] else []) + Shown(v, items[1..])
  }

  /** Two quoted messages in a row share a block if one agent sent them; one without an owner joins whatever follows. */
  predicate Joins(a: StoredItem, b: StoredItem) {
    a.ownerCode == "" || a.ownerCode == b.ownerCode
  }

  function Last(part: seq<StoredItem>): StoredItem
    requires part != []
  {
    part[|part| - 1]
  }

  /** One item shown as it is, or a run of quoted messages. */
  predicate IsPart(v: Viewer, part: seq<StoredItem>) {
    && part != []
    && ((|part| == 1 && Verbatim(v, part[0]))
        || ((forall s :: s in part ==> Quoted(v, s)) && forall k :: 0 < k < |part| ==> Joins(part[k - 1], part[k])))
  }

  function Flat(parts: seq<seq<StoredItem>>): seq<StoredItem> {
    if parts == [] then [] else parts[0] + Flat(parts[1..])
  }

  /** The runs are as long as they can be. */
  predicate Maximal(v: Viewer, parts: seq<seq<StoredItem>>) {
    && (forall k :: 0 <= k < |parts| ==> IsPart(v, parts[k]))
    && forall k :: 0 < k < |parts| && Quoted(v, Last(parts[k - 1])) && Quoted(v, parts[k][0]) ==>
                     !Joins(Last(parts[k - 1]), parts[k][0])
  }

  function Ids(part: seq<StoredItem>): seq<nat> {
    seq(|part|, k requires 0 <= k < |part| => part[k].messageId)
  }

  function Texts(part: seq<StoredItem>): seq<string> {
    seq(|part|, k requires 0 <= k < |part| => part[k].item.text)
  }

  /** How a part appears: unchanged, or as one message of the last sender with all the texts. */
  predicate Renders(v: Viewer, part: seq<StoredItem>, x: ProjectedItem)
    requires part != []
  {
    var s := Last(part);
    if Verbatim(v, s) then x == ProjectedItem(s.item, [s.messageId], ToolGroup(s))
    else
      var name := if s.ownerCode in v.names then v.names[s.ownerCode] else s.ownerCode;
      && x.sourceIds == Ids(part) && x.atomicGroup == ""
      && x.item.itemType.Message? && x.item.role.Assistant? && x.item.callId == ""
      && x.item.id == "foreign_" + s.ownerCode + "_" + Decimal.Show(part[0].messageId) + "_" + Decimal.Show(s.messageId)
      && x.item.text == "[other agent: " + name + "]\n" + Join(Texts(part), "\n\n")
  }

  predicate RendersAll(v: Viewer, parts: seq<seq<StoredItem>>, out: seq<ProjectedItem>) {
    && |out| == |parts|
    && forall k :: 0 <= k < |parts| ==> parts[k] != [] && Renders(v, parts[k], out[k])
  }

  // ----- The parts of a log -----

  /** The parts of `items` when the run `open` is still being collected. */
  function PartsFrom(v: Viewer, open: seq<StoredItem>, items: seq<StoredItem>): seq<seq<StoredItem>>
    decreases items
  {
    var closed := if open == [] then [] else [open];
    if items == [] then closed
    else if Verbatim(v, items[0]) then closed + [[items[0]]] + PartsFrom(v, [], items[1..])
    else if !Quoted(v, items[0]) then PartsFrom(v, open, items[1..])
    else if open != [] && !Joins(Last(open), items[0]) then closed + PartsFrom(v, [items[0]], items[1..])
    else PartsFrom(v, open + [items[0]], items[1..])
  }

  predicate IsRun(v: Viewer, open: seq<StoredItem>) {
    (forall s :: s in open ==> Quoted(v, s)) && forall k :: 0 < k < |open| ==> Joins(open[k - 1], open[k])
  }

  lemma {:induction false} FlatAppend(a: seq<seq<StoredItem>>, b: seq<seq<StoredItem>>)
    ensures Flat(a + b) == Flat(a) + Flat(b)
  {
    if a == [] {
      assert a + b == b;
    } else {
      assert (a + b)[0] == a[0] && (a + b)[1..] == a[1..] + b;
      FlatAppend(a[1..], b);
    }
  }

  lemma FlatOne(part: seq<StoredItem>)
    ensures Flat([part]) == part
  {
    assert [part][1..] == [];
  }

  lemma {:induction false} PartsAreFlat(v: Viewer, open: seq<StoredItem>, items: seq<StoredItem>)
    ensures Flat(PartsFrom(v, open, items)) == open + Shown(v, items)
    decreases items
  {
    var closed := if open == [] then [] else [open];
    FlatOne(open);
    if items != [] {
      var s, rest := items[0], items[1..];
      hide Flat;
      FlatOne([s]);
      if Verbatim(v, s) {
        PartsAreFlat(v, [], rest);
        FlatAppend(closed + [[s]], PartsFrom(v, [], rest));
        FlatAppend(closed, [[s]]);
        FlatNone();
      } else if !Quoted(v, s) {
        PartsAreFlat(v, open, rest);
      } else if open != [] && !Joins(Last(open), s) {
        PartsAreFlat(v, [s], rest);
        FlatAppend(closed, PartsFrom(v, [s], rest));
      } else {
        PartsAreFlat(v, open + [s], rest);
        assert open + [s] + Shown(v, rest) == open + ([s] + Shown(v, rest));
      }
    }
  }

  lemma FlatNone()
    ensures Flat([]) == []
  {
  }

  /** Until a part is closed, it goes on with the run that is open. */
  lemma {:induction false} PartsAreMaximal(v: Viewer, open: seq<StoredItem>, items: seq<StoredItem>)
    requires IsRun(v, open)
    ensures var parts := PartsFrom(v, open, items); Maximal(v, parts) && (open != [] ==> parts != [] && open <= parts[0])
    decreases items
  {
    if items != [] {
      var s, rest := items[0], items[1..];
      var closed := if open == [] then [] else [open];
      if Verbatim(v, s) {
        NeverBoth(v, s);
        PartsAreMaximal(v, [], rest);
        Prepend(v, [s], PartsFrom(v, [], rest));
        if open != [] { Prepend(v, open, [[s]] + PartsFrom(v, [], rest)); }
        assert closed + [[s]] + PartsFrom(v, [], rest) == closed + ([[s]] + PartsFrom(v, [], rest));
      } else if !Quoted(v, s) {
        PartsAreMaximal(v, open, rest);
      } else if open != [] && !Joins(Last(open), s) {
        PartsAreMaximal(v, [s], rest);
        Prepend(v, open, PartsFrom(v, [s], rest));
      } else {
        PartsAreMaximal(v, open + [s], rest);
      }
    }
  }

  lemma Prepend(v: Viewer, part: seq<StoredItem>, parts: seq<seq<StoredItem>>)
    requires IsPart(v, part) && Maximal(v, parts)
    requires parts != [] && Quoted(v, Last(part)) && Quoted(v, parts[0][0]) ==> !Joins(Last(part), parts[0][0])
    ensures Maximal(v, [part] + parts)
  {
    hide IsPart, Quoted, Joins;
  }

  /** There is one way to cut a list so. */
  lemma {:induction false} PartsAreUnique(v: Viewer, p: seq<seq<StoredItem>>, q: seq<seq<StoredItem>>)
    requires Maximal(v, p) && Maximal(v, q) && Flat(p) == Flat(q)
    ensures p == q
  {
    if p != [] { PartsHaveItems(v, p); }
    if q != [] { PartsHaveItems(v, q); }
    if p != [] && q != [] {
      if |p[0]| < |q[0]| {
        NotShorter(v, p, q);
      } else if |q[0]| < |p[0]| {
        NotShorter(v, q, p);
      } else {
        assert p[0] == Flat(p)[..|p[0]|] == q[0];
        assert Flat(p[1..]) == Flat(p)[|p[0]|..] == Flat(q[1..]);
        PartsAreUnique(v, p[1..], q[1..]);
      }
    }
  }

  lemma PartsHaveItems(v: Viewer, p: seq<seq<StoredItem>>)
    requires p != [] && Maximal(v, p)
    ensures Flat(p) != []
  {
    assert IsPart(v, p[0]);
  }

  lemma NotShorter(v: Viewer, p: seq<seq<StoredItem>>, q: seq<seq<StoredItem>>)
    requires p != [] && q != [] && Maximal(v, p) && Maximal(v, q) && Flat(p) == Flat(q)
    ensures |p[0]| >= |q[0]|
  {
    if |p[0]| < |q[0]| {
      NextPartStarts(v, p, q);
    }
  }

  /** The part behind a shorter first part begins inside the longer one. */
  lemma NextPartStarts(v: Viewer, p: seq<seq<StoredItem>>, q: seq<seq<StoredItem>>)
    requires p != [] && q != [] && Maximal(v, p) && Flat(p) == Flat(q) && |p[0]| < |q[0]|
    ensures |p| > 1 && p[0] != [] && p[1] != []
    ensures q[0][|p[0]|] == p[1][0] && q[0][|p[0]| - 1] == Last(p[0])
  {
    var n := |p[0]|;
    assert Flat(p)[n..] == Flat(p[1..]);
    assert p[1..] != [];
    assert IsPart(v, p[0]) && IsPart(v, p[1]);
    assert p[1] == p[1..][0] && p[1] <= Flat(p[1..]);
    assert q[0] <= Flat(q);
    assert q[0][n] == Flat(q)[n] == Flat(p)[n] == p[1][0];
    assert q[0][n - 1] == Flat(p)[n - 1] == Last(p[0]);
  }

  // ----- The projection shows the parts -----

  predicate Collected(p: Pending, open: seq<StoredItem>) {
    && p.ids == Ids(open) && p.texts == Texts(open)
    && p.owner == if open == [] then "" else Last(open).ownerCode
  }

  lemma EmitsRun(v: Viewer, p: Pending, open: seq<StoredItem>)
    requires v.nestedFor == "" && IsRun(v, open) && Collected(p, open)
    ensures RendersAll(v, if open == [] then [] else [open], Emit(v, p))
  {
    if open != [] {
      NeverBoth(v, Last(open));
      assert |Ids(open)| == |open| && Ids(open)[|open| - 1] == Last(open).messageId;
    }
  }

  lemma RendersBoth(v: Viewer, a: seq<seq<StoredItem>>, x: seq<ProjectedItem>, b: seq<seq<StoredItem>>, y: seq<ProjectedItem>)
    requires RendersAll(v, a, x) && RendersAll(v, b, y)
    ensures RendersAll(v, a + b, x + y)
  {
    hide Renders;
  }

  lemma RendersSingle(v: Viewer, s: StoredItem)
    requires Verbatim(v, s)
    ensures RendersAll(v, [[s]], [ProjectedOwn(s)])
  {
  }

  lemma CollectsOne(p: Pending, open: seq<StoredItem>, s: StoredItem)
    requires Collected(p, open)
    ensures Collected(Collect(p, s), open + [s]) && Collected(EMPTY, []) && Collected(Collect(EMPTY, s), [s])
  {
    assert Ids(open + [s]) == Ids(open) + [s.messageId] && Texts(open + [s]) == Texts(open) + [s.item.text];
    assert Ids([s]) == [s.messageId] && Texts([s]) == [s.item.text] && Ids([]) == [] && Texts([]) == [];
  }

  lemma RunMayEnd(p: Pending, open: seq<StoredItem>, s: StoredItem)
    requires Collected(p, open)
    ensures p.owner != "" && p.owner != s.ownerCode <==> open != [] && !Joins(Last(open), s)
  {
  }

  lemma ShowsVerbatim(v: Viewer, p: Pending, open: seq<StoredItem>, items: seq<StoredItem>)
    requires v.nestedFor == "" && items != [] && Verbatim(v, items[0])
    requires RendersAll(v, if open == [] then [] else [open], Emit(v, p))
    requires RendersAll(v, PartsFrom(v, [], items[1..]), ProjectFrom(v, EMPTY, items[1..]))
    ensures RendersAll(v, PartsFrom(v, open, items), ProjectFrom(v, p, items))
  {
    var s, rest := items[0], items[1..];
    var closed := if open == [] then [] else [open];
    VisitMeans(v, p, s);
    RendersSingle(v, s);
    hide RendersAll, Emit, Lead, Next, Verbatim, Quoted;
    RendersBoth(v, closed, Emit(v, p), [[s]], [ProjectedOwn(s)]);
    RendersBoth(v, closed + [[s]], Emit(v, p) + [ProjectedOwn(s)], PartsFrom(v, [], rest), ProjectFrom(v, EMPTY, rest));
  }

  lemma ShowsNewRun(v: Viewer, p: Pending, open: seq<StoredItem>, items: seq<StoredItem>)
    requires v.nestedFor == "" && items != [] && Quoted(v, items[0]) && Collected(p, open)
    requires open != [] && !Joins(Last(open), items[0])
    requires RendersAll(v, [open], Emit(v, p))
    requires RendersAll(v, PartsFrom(v, [items[0]], items[1..]), ProjectFrom(v, Collect(EMPTY, items[0]), items[1..]))
    ensures RendersAll(v, PartsFrom(v, open, items), ProjectFrom(v, p, items))
  {
    var s, rest := items[0], items[1..];
    VisitMeans(v, p, s);
    NeverBoth(v, s);
    RunMayEnd(p, open, s);
    hide RendersAll, Emit, Lead, Next, Collected, Verbatim, Quoted;
    RendersBoth(v, [open], Emit(v, p), PartsFrom(v, [s], rest), ProjectFrom(v, Collect(EMPTY, s), rest));
  }

  /** The other items leave nothing behind: they are hidden, or go on with the run. */
  lemma ShowsNothing(v: Viewer, p: Pending, open: seq<StoredItem>, items: seq<StoredItem>)
    requires v.nestedFor == "" && items != [] && !Verbatim(v, items[0]) && Collected(p, open)
    requires Quoted(v, items[0]) ==> open == [] || Joins(Last(open), items[0])
    ensures ProjectFrom(v, p, items) == ProjectFrom(v, if Quoted(v, items[0]) then Collect(p, items[0]) else p, items[1..])
  {
    VisitMeans(v, p, items[0]);
    RunMayEnd(p, open, items[0]);
    hide Emit, Lead, Next, Collected, Verbatim, Quoted;
    Unfold(v, p, items, []);
  }

  lemma {:induction false} TopLevelShowsParts(v: Viewer, p: Pending, open: seq<StoredItem>, items: seq<StoredItem>)
    requires v.nestedFor == "" && IsRun(v, open) && Collected(p, open)
    ensures RendersAll(v, PartsFrom(v, open, items), ProjectFrom(v, p, items))
    decreases items
  {
    EmitsRun(v, p, open);
    if items != [] {
      var s, rest := items[0], items[1..];
      NeverBoth(v, s);
      CollectsOne(p, open, s);
      hide RendersAll, Emit, ProjectFrom, Collected, Verbatim, Quoted;
      if Verbatim(v, s) {
        TopLevelShowsParts(v, EMPTY, [], rest);
        ShowsVerbatim(v, p, open, items);
      } else if !Quoted(v, s) {
        TopLevelShowsParts(v, p, open, rest);
        ShowsNothing(v, p, open, items);
      } else if open != [] && !Joins(Last(open), s) {
        TopLevelShowsParts(v, Collect(EMPTY, s), [s], rest);
        ShowsNewRun(v, p, open, items);
      } else {
        TopLevelShowsParts(v, Collect(p, s), open + [s], rest);
        ShowsNothing(v, p, open, items);
      }
    } else {
      AtMostOneBlock(v, p);
    }
  }

  lemma {:induction false} NestedShowsParts(v: Viewer, items: seq<StoredItem>)
    requires v.nestedFor != ""
    ensures RendersAll(v, PartsFrom(v, [], items), ProjectNested(v, items))
  {
    if items != [] {
      NestedShowsParts(v, items[1..]);
      hide RendersAll;
      if Verbatim(v, items[0]) {
        RendersSingle(v, items[0]);
        RendersBoth(v, [[items[0]]], [ProjectedOwn(items[0])], PartsFrom(v, [], items[1..]), ProjectNested(v, items[1..]));
        assert [] + [[items[0]]] == [[items[0]]];
      } else {
        assert [] + ProjectNested(v, items[1..]) == ProjectNested(v, items[1..]);
      }
    }
  }

  /** The items that are shown, in stored order, cut into single items and maximal runs. */
  ghost predicate CutsShown(v: Viewer, items: seq<StoredItem>, parts: seq<seq<StoredItem>>) {
    Maximal(v, parts) && Flat(parts) == Shown(v, items)
  }

  /**
   * The projection shows exactly the parts: what the viewer sees of a log is determined by the fields of its items, in
   * their order. There is one way to cut the shown items so, and every part appears as one projected item.
   */
  lemma ProjectionShowsParts(v: Viewer, items: seq<StoredItem>, parts: seq<seq<StoredItem>>)
    ensures CutsShown(v, items, parts) ==> RendersAll(v, parts, Project(v, items))
    ensures CutsShown(v, items, PartsFrom(v, [], items))
  {
    hide Shown, Flat, Maximal, RendersAll, Project;
    PartsAreFlat(v, [], items);
    assert [] + Shown(v, items) == Shown(v, items);
    PartsAreMaximal(v, [], items);
    if CutsShown(v, items, parts) {
      PartsAreUnique(v, parts, PartsFrom(v, [], items));
    }
    ProjectsItsParts(v, items);
  }

  lemma ProjectsItsParts(v: Viewer, items: seq<StoredItem>)
    ensures RendersAll(v, PartsFrom(v, [], items), Project(v, items))
  {
    hide RendersAll, ProjectNested, ProjectFrom;
    if v.nestedFor != "" {
      NestedShowsParts(v, items);
    } else {
      assert Collected(EMPTY, []);
      TopLevelShowsParts(v, EMPTY, [], items);
    }
  }

  // ----- What becomes of one item -----

  lemma {:induction false} ShownAre(v: Viewer, items: seq<StoredItem>, s: StoredItem)
    ensures s in Shown(v, items) <==> s in items && (Verbatim(v, s) || Quoted(v, s))
  {
    if items != [] {
      ShownAre(v, items[1..], s);
      assert s in items <==> s == items[0] || s in items[1..];
    }
  }

  lemma {:induction false} PartOf(parts: seq<seq<StoredItem>>, s: StoredItem)
    ensures s in Flat(parts) <==> exists k :: 0 <= k < |parts| && s in parts[k]
  {
    if parts != [] {
      PartOf(parts[1..], s);
      if k :| 0 <= k < |parts| && s in parts[k] {
        assert k > 0 ==> parts[k] == parts[1..][k - 1];
      }
      if s in Flat(parts[1..]) {
        var k :| 0 <= k < |parts[1..]| && s in parts[1..][k];
        assert s in parts[k + 1];
      }
    }
  }

  /** A block that quotes `s`, with the texts of its part in their order. */
  ghost predicate QuotedIn(v: Viewer, s: StoredItem, part: seq<StoredItem>, x: ProjectedItem) {
    s in part && IsPart(v, part) && !Verbatim(v, Last(part)) && Renders(v, part, x)
  }

  /**
   * Every item shown as it is appears unchanged as an item of its own, and every quoted message in a block that holds its
   * text among those of its run.
   */
  lemma ShownItemAppears(v: Viewer, items: seq<StoredItem>, s: StoredItem)
    requires s in items
    ensures Verbatim(v, s) ==> ProjectedItem(s.item, [s.messageId], ToolGroup(s)) in Project(v, items)
    ensures Quoted(v, s) ==> exists part, x :: x in Project(v, items) && QuotedIn(v, s, part, x)
  {
    var parts, out := PartsFrom(v, [], items), Project(v, items);
    ProjectionShowsParts(v, items, parts);
    ShownAre(v, items, s);
    PartOf(parts, s);
    hide Shown, Flat, Project, PartsFrom, ToolGroup, Renders;
    if s in Flat(parts) {
      var k :| 0 <= k < |parts| && s in parts[k];
      assert IsPart(v, parts[k]) && Renders(v, parts[k], out[k]);
      PartIsEither(v, parts[k], s, out[k]);
    }
  }

  lemma PartIsEither(v: Viewer, part: seq<StoredItem>, s: StoredItem, x: ProjectedItem)
    requires IsPart(v, part) && s in part && Renders(v, part, x)
    ensures Verbatim(v, s) ==> x == ProjectedItem(s.item, [s.messageId], ToolGroup(s))
    ensures Quoted(v, s) ==> QuotedIn(v, s, part, x)
  {
    NeverBoth(v, s);
    NeverBoth(v, Last(part));
    hide Verbatim, Quoted, ToolGroup;
  }

  /** The sources of the projected items are the ids of the items shown, each once and in stored order; nothing else appears. */
  lemma SourcesAreShown(v: Viewer, items: seq<StoredItem>)
    ensures VisibleIds(v, items) == Ids(Shown(v, items)) == SourceIds(Project(v, items))
  {
    ProjectionKeepsIds(v, items);
    VisibleAreShown(v, items);
  }

  lemma {:induction false} VisibleAreShown(v: Viewer, items: seq<StoredItem>)
    ensures VisibleIds(v, items) == Ids(Shown(v, items))
  {
    if items != [] {
      VisibleAreShown(v, items[1..]);
      VisibleByFields(v, items[0]);
      hide Visible, Verbatim, Quoted;
      assert Ids([items[0]] + Shown(v, items[1..])) == [items[0].messageId] + Ids(Shown(v, items[1..]));
    }
  }

  lemma VisibleByFields(v: Viewer, s: StoredItem)
    ensures Visible(v, s) <==> Verbatim(v, s) || Quoted(v, s)
  {
  }

  /** The joined texts are the texts in order, with the separator between any two. */
  lemma {:induction false} JoinAppend(a: seq<string>, b: seq<string>, separator: string)
    requires a != [] && b != []
    ensures Join(a + b, separator) == Join(a, separator) + separator + Join(b, separator)
    ensures |a| == 1 ==> Join(a, separator) == a[0]
  {
    assert (a + b)[0] == a[0] && (a + b)[1..] == a[1..] + b;
    if |a| > 1 {
      JoinAppend(a[1..], b, separator);
    } else {
      assert a[1..] + b == b;
    }
  }

  // ----- Which items are one tool call -----

  predicate HasGroup(s: StoredItem) {
    (s.item.itemType.FunctionCall? || s.item.itemType.FunctionCallOutput?) && (s.item.callId != "" || s.item.id != "")
  }

  function CallOf(s: StoredItem): string {
    if s.item.callId != "" then s.item.callId else s.item.id
  }

  /**
   * Exactly tool items with an id have a group, and two of them share it exactly when they are of one owner's call, or a
   * colon in an owner's code makes the two read the same.
   */
  lemma GroupsCoincideExactly(a: StoredItem, b: StoredItem)
    ensures ToolGroup(a) != "" <==> HasGroup(a)
    ensures HasGroup(a) && HasGroup(b) ==>
              (ToolGroup(a) == ToolGroup(b)
               <==> (a.ownerCode == b.ownerCode && CallOf(a) == CallOf(b))
                    || Shifts(a.ownerCode, CallOf(a), b.ownerCode, CallOf(b))
                    || Shifts(b.ownerCode, CallOf(b), a.ownerCode, CallOf(a)))
  {
    if HasGroup(a) && HasGroup(b) {
      var p, q := a.ownerCode + ":" + CallOf(a), b.ownerCode + ":" + CallOf(b);
      PairsCoincideExactly(a.ownerCode, CallOf(a), b.ownerCode, CallOf(b));
      hide Shifts;
      assert ToolGroup(a) == "tool:" + p && ToolGroup(b) == "tool:" + q;
      if "tool:" + p == "tool:" + q { Decimal.Cancel("tool:", p, q); }
    }
  }
}
