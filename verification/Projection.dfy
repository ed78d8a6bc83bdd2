/**
 Viewer-specific projection of the stored conversation into model context
 (core/conversation/projection.py), and the law that compaction commutes with it.
 */
module Projection {
  import opened Items
  import Decimal

  datatype StoredItem = StoredItem(messageId: nat, ownerCode: string, item: Item, nestedFor: string, nestedCallId: string)

  datatype ProjectedItem = ProjectedItem(item: Item, sourceIds: seq<nat>, atomicGroup: string)

  datatype Compaction = NoCompaction | Compaction(startId: nat, endId: nat, summary: Item)

  /** The scope a projection is made for. */
  datatype Viewer = Viewer(code: string, names: map<string, string>, nestedFor: string, nestedCallId: string)

  /** Foreign assistant texts collected so far and not yet emitted as one block. */
  datatype Pending = Pending(owner: string, texts: seq<string>, ids: seq<nat>)

  /** What one stored item contributes to the top-level projection. */
  datatype Contribution = Hidden | Own | Foreign

  const EMPTY := Pending("", [], [])

  function Join(texts: seq<string>, separator: string): string {
    if texts == [] then ""
    else if |texts| == 1 then texts[0]
    else texts[0] + separator + Join(texts[1..], separator)
  }

  function ForeignBlock(source: string, name: string, ids: seq<nat>, texts: seq<string>): Item
    requires ids != []
  {
    Item(Message, Assistant,
         "foreign_" + source + "_" + Decimal.Show(ids[0]) + "_" + Decimal.Show(ids[|ids| - 1]), "",
         "[other agent: " + name + "]\n" + Join(texts, "\n\n"))
  }

  function GroupName(owner: string, callId: string): string {
    "tool:" + owner + ":" + callId
  }

  /** The atomic group of a stored item: all items of one owner's tool call share it. */
  function ToolGroup(s: StoredItem): string {
    if !IsToolItem(s.item) || ToolCallId(s.item) == "" then ""
    else GroupName(s.ownerCode, ToolCallId(s.item))
  }

  function ProjectedOwn(s: StoredItem): ProjectedItem {
    ProjectedItem(s.item, [s.messageId], ToolGroup(s))
  }

  function Contributes(v: Viewer, s: StoredItem): Contribution {
    if s.nestedFor != "" then Hidden
    else if s.item.role.User? then
      if IsInternalContext(s.item) && s.ownerCode != v.code then Hidden else Own
    else if s.ownerCode == v.code then Own
    else if !(s.item.itemType.Message? && s.item.role.Assistant?) || s.item.text == "" then Hidden
    else Foreign
  }

  function Emit(v: Viewer, p: Pending): seq<ProjectedItem> {
    if p.ids == [] then []
    else
      var name := if p.owner in v.names then v.names[p.owner] else p.owner;
      [ProjectedItem(ForeignBlock(p.owner, name, p.ids, p.texts), p.ids, "")]
  }

  function Collect(p: Pending, s: StoredItem): Pending {
    Pending(s.ownerCode, p.texts + [s.item.text], p.ids + [s.messageId])
  }

  /** Whether `s` closes the block that is being collected. */
  predicate Flushes(v: Viewer, p: Pending, s: StoredItem) {
    match Contributes(v, s)
    case Hidden => false
    case Own => true
    case Foreign => p.owner != "" && p.owner != s.ownerCode
  }

  /** What is emitted when `s` is reached with `p` collected, and what is collected afterwards. */
  function Lead(v: Viewer, p: Pending, s: StoredItem): seq<ProjectedItem> {
    (if Flushes(v, p, s) then Emit(v, p) else []) + (if Contributes(v, s).Own? then [ProjectedOwn(s)] else [])
  }

  function Next(v: Viewer, p: Pending, s: StoredItem): Pending {
    var p' := if Flushes(v, p, s) then EMPTY else p;
    if Contributes(v, s).Foreign? then Collect(p', s) else p'
  }

  /** The top-level projection of `items`, starting with `p` collected. */
  function ProjectFrom(v: Viewer, p: Pending, items: seq<StoredItem>): seq<ProjectedItem>
    decreases items
  {
    if items == [] then Emit(v, p)
    else Lead(v, p, items[0]) + ProjectFrom(v, Next(v, p, items[0]), items[1..])
  }

  predicate InNestedScope(v: Viewer, s: StoredItem) {
    s.ownerCode == v.code && s.nestedFor == v.nestedFor && s.nestedCallId == v.nestedCallId
  }

  /** Inside a nested call only that call's own items are visible. */
  function ProjectNested(v: Viewer, items: seq<StoredItem>): seq<ProjectedItem> {
    if items == [] then []
    else (if InNestedScope(v, items[0]) then [ProjectedOwn(items[0])] else []) + ProjectNested(v, items[1..])
  }

  function Project(v: Viewer, items: seq<StoredItem>): seq<ProjectedItem> {
    if v.nestedFor != "" then ProjectNested(v, items) else ProjectFrom(v, EMPTY, items)
  }

  function After(items: seq<StoredItem>, cut: nat): seq<StoredItem> {
    if items == [] then []
    else (if items[0].messageId > cut then [items[0]] else []) + After(items[1..], cut)
  }

  function Summary(c: Compaction): ProjectedItem
    requires c.Compaction?
  {
    ProjectedItem(c.summary, [c.startId, c.endId], "")
  }

  /** The model context of one viewer under its latest compaction. */
  function Context(v: Viewer, items: seq<StoredItem>, c: Compaction): seq<ProjectedItem> {
    if c.NoCompaction? then Project(v, items) else [Summary(c)] + Project(v, After(items, c.endId))
  }

  lemma Unfold(v: Viewer, p: Pending, items: seq<StoredItem>, later: seq<StoredItem>)
    requires items != []
    ensures ProjectFrom(v, p, items) == Lead(v, p, items[0]) + ProjectFrom(v, Next(v, p, items[0]), items[1..])
    ensures ProjectFrom(v, p, items + later)
         == Lead(v, p, items[0]) + ProjectFrom(v, Next(v, p, items[0]), items[1..] + later)
    ensures (items + later)[0] == items[0] && (items + later)[1..] == items[1..] + later
  {
    assert (items + later)[0] == items[0] && (items + later)[1..] == items[1..] + later;
  }

  // ----- The loops of the source refine the definitions above -----

  method FilterCompacted(items: seq<StoredItem>, c: Compaction) returns (visible: seq<StoredItem>)
    ensures visible == if c.NoCompaction? then items else After(items, c.endId)
  {
    if c.NoCompaction? { return items; }
    visible := [];
    for i := 0 to |items|
      invariant visible + After(items[i..], c.endId) == After(items, c.endId)
    {
      assert items[i..][1..] == items[i + 1..];
      if items[i].messageId > c.endId {
        visible := visible + [items[i]];
      }
    }
  }

  ghost predicate Memo(groups: map<(string, string), string>) {
    forall key :: key in groups ==> groups[key] == GroupName(key.0, key.1)
  }

  /** Group lookup through the memo table kept for one projection. */
  method LookupToolGroup(s: StoredItem, groups: map<(string, string), string>)
    returns (group: string, groups': map<(string, string), string>)
    requires Memo(groups)
    ensures group == ToolGroup(s) && Memo(groups')
  {
    groups' := groups;
    if !IsToolItem(s.item) { return "", groups; }
    var callId := ToolCallId(s.item);
    if callId == "" { return "", groups; }
    var key := (s.ownerCode, callId);
    if key in groups {
      group := groups[key];
    } else {
      group := GroupName(s.ownerCode, callId);
      groups' := groups[key := group];
    }
  }

  /** Shown as it is: in a nested scope the scope's own items, else the viewer's items and what the user said. */
  predicate Verbatim(v: Viewer, s: StoredItem) {
    if v.nestedFor != "" then s.ownerCode == v.code && s.nestedFor == v.nestedFor && s.nestedCallId == v.nestedCallId
    else
      && s.nestedFor == ""
      && (s.ownerCode == v.code || s.item.role.User?)
      && !(s.ownerCode != v.code && s.item.itemType.Message? && s.item.id in {"context_summary", "task_resumption_context"})
  }

  /** Quoted: at top level another agent's message to the user, unless it is empty. */
  predicate Quoted(v: Viewer, s: StoredItem) {
    && v.nestedFor == "" && s.nestedFor == "" && s.ownerCode != v.code
    && s.item.itemType.Message? && s.item.role.Assistant? && s.item.text != ""
  }

  lemma NeverBoth(v: Viewer, s: StoredItem)
    ensures !(Verbatim(v, s) && Quoted(v, s))
  {
  }

  /** What one round of the loop does, by the fields of the item. */
  lemma VisitMeans(v: Viewer, p: Pending, s: StoredItem)
    requires v.nestedFor == ""
    ensures Verbatim(v, s) ==> Lead(v, p, s) == Emit(v, p) + [ProjectedOwn(s)] && Next(v, p, s) == EMPTY
    ensures !Verbatim(v, s) && !Quoted(v, s) ==> Lead(v, p, s) == [] && Next(v, p, s) == p
    ensures Quoted(v, s) ==>
              if p.owner != "" && p.owner != s.ownerCode then
                Lead(v, p, s) == Emit(v, p) && Next(v, p, s) == Collect(EMPTY, s)
              else Lead(v, p, s) == [] && Next(v, p, s) == Collect(p, s)
  {
    hide Emit;
  }

  /** One round of the top-level loop. */
  method VisitItem(v: Viewer, s: StoredItem, out: seq<ProjectedItem>, p: Pending, groups: map<(string, string), string>)
    returns (out': seq<ProjectedItem>, p': Pending, groups': map<(string, string), string>)
    requires Memo(groups) && |p.ids| == |p.texts| && (p.ids == [] ==> p == EMPTY)
    ensures out' == out + Lead(v, p, s) && p' == Next(v, p, s) && Memo(groups')
    ensures |p'.ids| == |p'.texts| && (p'.ids == [] ==> p' == EMPTY)
    ensures v.nestedFor == "" && Verbatim(v, s) ==>
              out' == out + Emit(v, p) + [ProjectedItem(s.item, [s.messageId], ToolGroup(s))] && p' == EMPTY
    ensures v.nestedFor == "" && !Verbatim(v, s) && !Quoted(v, s) ==> out' == out && p' == p
    ensures v.nestedFor == "" && Quoted(v, s) ==>
              p'.owner == s.ownerCode && p'.texts[|p'.texts| - 1] == s.item.text && p'.ids[|p'.ids| - 1] == s.messageId
  {
    if v.nestedFor == "" { VisitMeans(v, p, s); }
    out', p', groups' := out, p, groups;
    if s.nestedFor != "" { return; }
    if s.item.role.User? && IsInternalContext(s.item) && s.ownerCode != v.code { return; }
    if s.item.role.User? || s.ownerCode == v.code {
      var group;
      out', p' := Flush(v, out', p');
      group, groups' := LookupToolGroup(s, groups);
      out' := out' + [ProjectedItem(s.item, [s.messageId], group)];
      return;
    }
    if s.item.itemType in {Reasoning, FunctionCall, FunctionCallOutput} { return; }
    if !s.item.role.Assistant? || !s.item.itemType.Message? { return; }
    if s.item.text == "" { return; }
    if p'.owner != "" && p'.owner != s.ownerCode {
      out', p' := Flush(v, out', p');
    }
    p' := Pending(s.ownerCode, p'.texts + [s.item.text], p'.ids + [s.messageId]);
  }

  method ProjectTopLevel(v: Viewer, items: seq<StoredItem>) returns (out: seq<ProjectedItem>)
    ensures out == ProjectFrom(v, EMPTY, items)
  {
    hide ForeignBlock, Lead, Next;
    var groups: map<(string, string), string> := map[];
    var pending := EMPTY;
    out := [];
    for i := 0 to |items|
      invariant Memo(groups)
      invariant |pending.ids| == |pending.texts| && (pending.ids == [] ==> pending == EMPTY)
      invariant out + ProjectFrom(v, pending, items[i..]) == ProjectFrom(v, EMPTY, items)
    {
      ghost var out0, lead := out, Lead(v, pending, items[i]);
      Unfold(v, pending, items[i..], []);
      assert items[i..][1..] == items[i + 1..];
      out, pending, groups := VisitItem(v, items[i], out, pending, groups);
      assert out + ProjectFrom(v, pending, items[i + 1..]) == out0 + (lead + ProjectFrom(v, pending, items[i + 1..]));
    }
    out, pending := Flush(v, out, pending);
  }

  method ProjectVisible(v: Viewer, items: seq<StoredItem>) returns (out: seq<ProjectedItem>)
    ensures out == Project(v, items)
  {
    if v.nestedFor == "" {
      out := ProjectTopLevel(v, items);
      return;
    }
    var groups: map<(string, string), string> := map[];
    var group;
    out := [];
    for i := 0 to |items|
      invariant Memo(groups)
      invariant out + ProjectNested(v, items[i..]) == ProjectNested(v, items)
    {
      assert items[i..][1..] == items[i + 1..];
      if InNestedScope(v, items[i]) {
        group, groups := LookupToolGroup(items[i], groups);
        out := out + [ProjectedItem(items[i].item, [items[i].messageId], group)];
      }
    }
  }

  method Flush(v: Viewer, out: seq<ProjectedItem>, p: Pending) returns (out': seq<ProjectedItem>, p': Pending)
    requires |p.ids| == |p.texts| && (p.ids == [] ==> p == EMPTY)
    ensures out' == out + Emit(v, p) && p' == EMPTY
  {
    if p.texts == [] { return out, p; }
    var name := if p.owner in v.names then v.names[p.owner] else p.owner;
    return out + [ProjectedItem(ForeignBlock(p.owner, name, p.ids, p.texts), p.ids, "")], EMPTY;
  }

  method ProjectContext(v: Viewer, items: seq<StoredItem>, c: Compaction) returns (out: seq<ProjectedItem>)
    ensures out == Context(v, items, c)
  {
    var visible := FilterCompacted(items, c);
    out := ProjectVisible(v, visible);
    if c.Compaction? {
      out := [Summary(c)] + out;
    }
  }

  // ----- Conservation: every contributing message appears once, in order -----

  predicate Ascending(items: seq<StoredItem>) {
    forall i, j :: 0 <= i < j < |items| ==> items[i].messageId < items[j].messageId
  }

  function SourceIds(out: seq<ProjectedItem>): seq<nat> {
    if out == [] then [] else out[0].sourceIds + SourceIds(out[1..])
  }

  predicate Visible(v: Viewer, s: StoredItem) {
    if v.nestedFor != "" then InNestedScope(v, s) else !Contributes(v, s).Hidden?
  }

  function VisibleIds(v: Viewer, items: seq<StoredItem>): seq<nat> {
    if items == [] then []
    else (if Visible(v, items[0]) then [items[0].messageId] else []) + VisibleIds(v, items[1..])
  }

  lemma {:induction false} SourceIdsAppend(a: seq<ProjectedItem>, b: seq<ProjectedItem>)
    ensures SourceIds(a + b) == SourceIds(a) + SourceIds(b)
  {
    if a == [] {
      assert a + b == b;
    } else {
      assert (a + b)[1..] == a[1..] + b;
      SourceIdsAppend(a[1..], b);
    }
  }

  lemma AtMostOneBlock(v: Viewer, p: Pending)
    ensures |Emit(v, p)| <= 1 && (Emit(v, p) != [] ==> p.ids != [])
    ensures ProjectFrom(v, p, []) == Emit(v, p) && SourceIds(Emit(v, p)) == p.ids
  {
  }

  lemma LeadIds(v: Viewer, p: Pending, s: StoredItem)
    requires v.nestedFor == ""
    ensures SourceIds(Lead(v, p, s)) + Next(v, p, s).ids == p.ids + (if Visible(v, s) then [s.messageId] else [])
    ensures forall x :: x in Lead(v, p, s) ==> x.sourceIds != []
  {
    assert SourceIds(Emit(v, p)) == p.ids;
    SourceIdsAppend(if Flushes(v, p, s) then Emit(v, p) else [],
                    if Contributes(v, s).Own? then [ProjectedOwn(s)] else []);
  }

  lemma {:induction false} ProjectFromKeepsIds(v: Viewer, p: Pending, items: seq<StoredItem>)
    requires v.nestedFor == ""
    ensures SourceIds(ProjectFrom(v, p, items)) == p.ids + VisibleIds(v, items)
    ensures forall x :: x in ProjectFrom(v, p, items) ==> x.sourceIds != []
    decreases items
  {
    hide Emit, Lead, Next, ProjectFrom;
    if items == [] {
      AtMostOneBlock(v, p);
    } else {
      var s, p', rest := items[0], Next(v, p, items[0]), items[1..];
      Unfold(v, p, items, []);
      ProjectFromKeepsIds(v, p', rest);
      LeadIds(v, p, s);
      SourceIdsAppend(Lead(v, p, s), ProjectFrom(v, p', rest));
      assert SourceIds(Lead(v, p, s)) + (p'.ids + VisibleIds(v, rest))
          == (SourceIds(Lead(v, p, s)) + p'.ids) + VisibleIds(v, rest);
    }
  }

  lemma {:induction false} ProjectNestedKeepsIds(v: Viewer, items: seq<StoredItem>)
    requires v.nestedFor != ""
    ensures SourceIds(ProjectNested(v, items)) == VisibleIds(v, items)
    ensures forall x :: x in ProjectNested(v, items) ==> x.sourceIds != []
  {
    if items != [] {
      ProjectNestedKeepsIds(v, items[1..]);
      SourceIdsAppend(if InNestedScope(v, items[0]) then [ProjectedOwn(items[0])] else [],
                      ProjectNested(v, items[1..]));
    }
  }

  /** The projection lists exactly the visible messages, each once and in stored order. */
  lemma ProjectionKeepsIds(v: Viewer, items: seq<StoredItem>)
    ensures SourceIds(Project(v, items)) == VisibleIds(v, items)
    ensures forall x :: x in Project(v, items) ==> x.sourceIds != []
  {
    if v.nestedFor != "" {
      ProjectNestedKeepsIds(v, items);
    } else {
      ProjectFromKeepsIds(v, EMPTY, items);
    }
  }

  lemma {:induction false} VisibleIdsFrom(v: Viewer, items: seq<StoredItem>, id: nat)
    requires id in VisibleIds(v, items)
    ensures exists s :: s in items && s.messageId == id
  {
    if !(Visible(v, items[0]) && items[0].messageId == id) {
      VisibleIdsFrom(v, items[1..], id);
    }
  }

  lemma {:induction false} MemberId(out: seq<ProjectedItem>, j: nat, id: nat)
    requires j < |out| && id in out[j].sourceIds
    ensures id in SourceIds(out)
  {
    if j > 0 {
      MemberId(out[1..], j - 1, id);
    }
  }

  // ----- Compaction commutes with projection -----

  lemma {:induction false} AfterAll(items: seq<StoredItem>, cut: nat)
    requires forall s :: s in items ==> s.messageId > cut
    ensures After(items, cut) == items
  {
    if items != [] {
      AfterAll(items[1..], cut);
    }
  }

  /** The largest message id behind the first j items of a projection. */
  function LastId(out: seq<ProjectedItem>, j: nat): nat
    requires 0 < j <= |out| && out[j - 1].sourceIds != []
  {
    out[j - 1].sourceIds[|out[j - 1].sourceIds| - 1]
  }

  /** `p` holds only ids below those of `items`. */
  predicate Before(p: Pending, items: seq<StoredItem>) {
    forall i, s :: 0 <= i < |p.ids| && s in items ==> p.ids[i] < s.messageId
  }

  /** Cutting after the j-th item leaves the rest of every later projection as it was. */
  ghost predicate CutsCleanly(whole: seq<ProjectedItem>, j: nat, kept: seq<ProjectedItem>, rest: seq<ProjectedItem>) {
    j <= |kept| && j <= |whole| && whole[..j] == kept[..j] && whole[j..] == rest
  }

  lemma BeforeNext(v: Viewer, p: Pending, items: seq<StoredItem>)
    requires Ascending(items) && Before(p, items) && items != []
    ensures Before(Next(v, p, items[0]), items[1..])
    ensures Ascending(items[1..])
  {
    forall s | s in items[1..]
      ensures s in items && items[0].messageId < s.messageId
    {
      var k :| 0 <= k < |items[1..]| && items[1..][k] == s;
      assert items[k + 1] == s;
    }
  }

  lemma {:induction false} EndsNotBelow(v: Viewer, p: Pending, items: seq<StoredItem>, bound: nat)
    requires forall s :: s in items ==> s.messageId >= bound
    requires p.ids == [] || p.ids[|p.ids| - 1] >= bound
    ensures forall x :: x in ProjectFrom(v, p, items)
                        ==> x.sourceIds != [] && x.sourceIds[|x.sourceIds| - 1] >= bound
    decreases items
  {
    if items != [] {
      EndsNotBelow(v, Next(v, p, items[0]), items[1..], bound);
    }
  }

  /** A cut at the end of the collected block, at the moment the block is emitted. */
  lemma CutAtBlock(v: Viewer, p: Pending, items: seq<StoredItem>, later: seq<StoredItem>)
    requires items != [] && p.ids != [] && Flushes(v, p, items[0])
    requires Before(p, items + later)
    ensures var out := ProjectFrom(v, p, items);
            && out != [] && out[0].sourceIds == p.ids
            && CutsCleanly(ProjectFrom(v, p, items + later), 1, out,
                           ProjectFrom(v, EMPTY, After(items + later, LastId(out, 1))))
  {
    hide ProjectFrom, ForeignBlock;
    assert |Emit(v, p)| == 1 && Emit(v, p)[0].sourceIds == p.ids;
    AfterAll(items + later, p.ids[|p.ids| - 1]);
    BlockLeads(v, p, items);
    BlockLeads(v, p, items + later);
  }

  lemma LeadSplits(v: Viewer, p: Pending, s: StoredItem)
    requires p.ids != [] && Flushes(v, p, s)
    ensures Lead(v, p, s) == Emit(v, p) + Lead(v, EMPTY, s)
    ensures Next(v, p, s) == Next(v, EMPTY, s)
  {
  }

  lemma BlockLeads(v: Viewer, p: Pending, items: seq<StoredItem>)
    requires items != [] && p.ids != [] && Flushes(v, p, items[0])
    ensures ProjectFrom(v, p, items) == Emit(v, p) + ProjectFrom(v, EMPTY, items)
  {
    hide ProjectFrom, Lead, Next, Emit;
    LeadSplits(v, p, items[0]);
    Unfold(v, p, items, []);
    Unfold(v, EMPTY, items, []);
  }

  /** A cut right after one of the viewer's own items. */
  lemma CutAtOwn(v: Viewer, p: Pending, items: seq<StoredItem>, later: seq<StoredItem>)
    requires items != [] && Contributes(v, items[0]).Own?
    requires Ascending(items + later)
    ensures var out, j := ProjectFrom(v, p, items), |Lead(v, p, items[0])|;
            && 0 < j <= |out| && out[j - 1].sourceIds == [items[0].messageId]
            && CutsCleanly(ProjectFrom(v, p, items + later), j, out,
                           ProjectFrom(v, EMPTY, After(items + later, LastId(out, j))))
  {
    hide ForeignBlock;
    Unfold(v, p, items, later);
    var all := items + later;
    forall t | t in all[1..]
      ensures items[0].messageId < t.messageId
    {
      var k :| 0 <= k < |all[1..]| && all[1..][k] == t;
      assert all[k + 1] == t && all[0] == items[0];
    }
    AfterAll(all[1..], items[0].messageId);
    assert After(all, items[0].messageId) == all[1..];
  }

  /** Skipping or having compacted the first item makes no difference to what follows the cut. */
  lemma AfterSkips(v: Viewer, items: seq<StoredItem>, cut: nat)
    requires items != [] && (Contributes(v, items[0]).Hidden? || items[0].messageId <= cut)
    ensures ProjectFrom(v, EMPTY, After(items, cut)) == ProjectFrom(v, EMPTY, After(items[1..], cut))
  {
    var rest := After(items[1..], cut);
    if items[0].messageId > cut {
      var kept := [items[0]] + rest;
      assert After(items, cut) == kept && kept[0] == items[0] && kept[1..] == rest;
      assert Lead(v, EMPTY, items[0]) == [] && Next(v, EMPTY, items[0]) == EMPTY;
    } else {
      assert After(items, cut) == rest;
    }
  }

  /** When the cut falls behind the first item, that item is hidden or compacted. */
  lemma CutNotBefore(v: Viewer, p: Pending, items: seq<StoredItem>, later: seq<StoredItem>, j': nat)
    requires Ascending(items + later) && items != [] && !Contributes(v, items[0]).Hidden?
    requires 0 < j' <= |ProjectFrom(v, Next(v, p, items[0]), items[1..])|
    ensures var out' := ProjectFrom(v, Next(v, p, items[0]), items[1..]);
            out'[j' - 1].sourceIds != [] && LastId(out', j') >= items[0].messageId
  {
    var s, p', out' := items[0], Next(v, p, items[0]), ProjectFrom(v, Next(v, p, items[0]), items[1..]);
    forall t | t in items[1..]
      ensures s.messageId <= t.messageId
    {
      var k :| 0 <= k < |items[1..]| && items[1..][k] == t;
      assert (items + later)[k + 1] == t && (items + later)[0] == s;
    }
    EndsNotBelow(v, p', items[1..], s.messageId);
    assert out'[j' - 1] in out';
  }

  lemma PrependCut(lead: seq<ProjectedItem>, j': nat, j: nat,
                   whole': seq<ProjectedItem>, kept': seq<ProjectedItem>, rest: seq<ProjectedItem>,
                   whole: seq<ProjectedItem>, kept: seq<ProjectedItem>)
    requires CutsCleanly(whole', j', kept', rest)
    requires whole == lead + whole' && kept == lead + kept' && j == |lead| + j'
    ensures CutsCleanly(whole, j, kept, rest)
    ensures j' > 0 ==> kept[j - 1] == kept'[j' - 1]
  {
    assert whole[j..] == whole'[j'..];
    assert whole[..j] == lead + whole'[..j'];
    assert kept[..j] == lead + kept'[..j'];
  }

  /** A clean cut of the rest is a clean cut of the whole when the first item does not reach past it. */
  lemma CutStep(v: Viewer, p: Pending, items: seq<StoredItem>, later: seq<StoredItem>, j': nat)
    requires items != []
    requires 0 < j' < |ProjectFrom(v, Next(v, p, items[0]), items[1..])|
    requires ProjectFrom(v, Next(v, p, items[0]), items[1..])[j' - 1].sourceIds != []
    requires Contributes(v, items[0]).Hidden?
             || items[0].messageId <= LastId(ProjectFrom(v, Next(v, p, items[0]), items[1..]), j')
    requires CutsCleanly(ProjectFrom(v, Next(v, p, items[0]), items[1..] + later), j',
                         ProjectFrom(v, Next(v, p, items[0]), items[1..]),
                         ProjectFrom(v, EMPTY, After(items[1..] + later,
                                                     LastId(ProjectFrom(v, Next(v, p, items[0]), items[1..]), j'))))
    ensures var j := |Lead(v, p, items[0])| + j';
            && j < |ProjectFrom(v, p, items)|
            && ProjectFrom(v, p, items)[j - 1].sourceIds != []
            && CutsCleanly(ProjectFrom(v, p, items + later), j, ProjectFrom(v, p, items),
                           ProjectFrom(v, EMPTY, After(items + later, LastId(ProjectFrom(v, p, items), j))))
  {
    hide ProjectFrom, Lead, Next, CutsCleanly;
    var s, rest, p' := items[0], items[1..], Next(v, p, items[0]);
    var lead, out', whole' := Lead(v, p, s), ProjectFrom(v, p', rest), ProjectFrom(v, p', rest + later);
    Unfold(v, p, items, later);
    var cut := LastId(out', j');
    AfterSkips(v, items + later, cut);
    PrependCut(lead, j', |lead| + j', whole', out', ProjectFrom(v, EMPTY, After(items + later, cut)),
               ProjectFrom(v, p, items + later), ProjectFrom(v, p, items));
  }

  /**
   Cutting the log after any closed projected item: everything projected later keeps the items up to
   the cut and continues with the projection of the messages behind it.
   */
  lemma {:induction false} CutFrom(v: Viewer, p: Pending, items: seq<StoredItem>, later: seq<StoredItem>, j: nat)
    requires Ascending(items + later) && Before(p, items + later)
    requires 0 < j < |ProjectFrom(v, p, items)|
    ensures ProjectFrom(v, p, items)[j - 1].sourceIds != []
    ensures CutsCleanly(ProjectFrom(v, p, items + later), j, ProjectFrom(v, p, items),
                        ProjectFrom(v, EMPTY, After(items + later, LastId(ProjectFrom(v, p, items), j))))
    decreases items
  {
    hide ProjectFrom, CutsCleanly, Next, Emit;
    AtMostOneBlock(v, p);
    var s, rest, p', lead := items[0], items[1..], Next(v, p, items[0]), Lead(v, p, items[0]);
    Unfold(v, p, items, later);
    if j > |lead| {
      BeforeNext(v, p, items + later);
      CutFrom(v, p', rest, later, j - |lead|);
      if !Contributes(v, s).Hidden? {
        CutNotBefore(v, p, items, later, j - |lead|);
      }
      CutStep(v, p, items, later, j - |lead|);
    } else if Contributes(v, s).Own? && j == |lead| {
      CutAtOwn(v, p, items, later);
    } else {
      CutAtBlock(v, p, items, later);
    }
  }

  lemma {:induction false} NestedAppend(v: Viewer, a: seq<StoredItem>, b: seq<StoredItem>)
    ensures ProjectNested(v, a + b) == ProjectNested(v, a) + ProjectNested(v, b)
  {
    if a == [] {
      assert a + b == b;
    } else {
      assert (a + b)[0] == a[0] && (a + b)[1..] == a[1..] + b;
      NestedAppend(v, a[1..], b);
    }
  }

  lemma {:induction false} NestedAbove(v: Viewer, items: seq<StoredItem>, bound: nat)
    requires forall s :: s in items ==> s.messageId > bound
    ensures forall x :: x in ProjectNested(v, items) ==> |x.sourceIds| == 1 && x.sourceIds[0] > bound
  {
    hide ToolGroup;
    if items != [] {
      NestedAbove(v, items[1..], bound);
    }
  }

  lemma {:induction false} CutNested(v: Viewer, items: seq<StoredItem>, j: nat)
    requires Ascending(items) && 0 < j <= |ProjectNested(v, items)|
    ensures ProjectNested(v, items)[j - 1].sourceIds != []
    ensures ProjectNested(v, items)[j..] == ProjectNested(v, After(items, LastId(ProjectNested(v, items), j)))
    decreases items, 1
  {
    hide ProjectNested;
    NestedUnfold(v, items);
    if j == 1 && InNestedScope(v, items[0]) {
      CutNestedOwn(v, items);
    } else if InNestedScope(v, items[0]) {
      CutNestedStep(v, items, 1, j - 1);
    } else {
      CutNestedStep(v, items, 0, j);
    }
  }

  lemma NestedUnfold(v: Viewer, items: seq<StoredItem>)
    requires ProjectNested(v, items) != []
    ensures items != []
    ensures |ProjectNested(v, items)|
         == (if InNestedScope(v, items[0]) then 1 else 0) + |ProjectNested(v, items[1..])|
  {
    hide ToolGroup;
  }

  lemma CutNestedOwn(v: Viewer, items: seq<StoredItem>)
    requires Ascending(items) && items != [] && InNestedScope(v, items[0])
    ensures var out := ProjectNested(v, items);
            out != [] && out[0].sourceIds == [items[0].messageId]
            && out[1..] == ProjectNested(v, After(items, items[0].messageId))
  {
    hide ToolGroup;
    AboveFirst(items);
    AfterAll(items[1..], items[0].messageId);
    assert After(items, items[0].messageId) == items[1..];
  }

  lemma CutNestedStep(v: Viewer, items: seq<StoredItem>, n: nat, j: nat)
    requires Ascending(items) && items != [] && n == (if InNestedScope(v, items[0]) then 1 else 0)
    requires 0 < j <= |ProjectNested(v, items[1..])|
    ensures ProjectNested(v, items)[n + j - 1].sourceIds != []
    ensures ProjectNested(v, items)[n + j..]
         == ProjectNested(v, After(items, LastId(ProjectNested(v, items), n + j)))
    decreases items, 0
  {
    hide ToolGroup;
    var rest := items[1..];
    var out, out' := ProjectNested(v, items), ProjectNested(v, rest);
    AboveFirst(items);
    CutNested(v, rest, j);
    NestedAbove(v, rest, items[0].messageId);
    assert out'[j - 1] in out' && out[n + j - 1] == out'[j - 1];
    assert out[n + j..] == out'[j..];
    var cut := LastId(out', j);
    assert After(items, cut) == After(rest, cut);
  }

  lemma AboveFirst(items: seq<StoredItem>)
    requires items != [] && Ascending(items)
    ensures forall t :: t in items[1..] ==> t in items && items[0].messageId < t.messageId
    ensures Ascending(items[1..])
  {
    forall t | t in items[1..]
      ensures t in items && items[0].messageId < t.messageId
    {
      var k :| 0 <= k < |items[1..]| && items[1..][k] == t;
      assert items[k + 1] == t;
    }
  }

  lemma {:induction false} AfterAppend(a: seq<StoredItem>, b: seq<StoredItem>, cut: nat)
    ensures After(a + b, cut) == After(a, cut) + After(b, cut)
  {
    if a == [] {
      assert a + b == b;
    } else {
      assert (a + b)[0] == a[0] && (a + b)[1..] == a[1..] + b;
      AfterAppend(a[1..], b, cut);
    }
  }

  /** Filtering by a later cut subsumes filtering by an earlier one. */
  lemma {:induction false} AfterTwice(items: seq<StoredItem>, cut: nat, cut': nat)
    requires cut <= cut'
    ensures After(After(items, cut), cut') == After(items, cut')
  {
    if items != [] {
      AfterTwice(items[1..], cut, cut');
      AfterAppend(if items[0].messageId > cut then [items[0]] else [], After(items[1..], cut), cut');
    }
  }

  lemma {:induction false} AfterKeepsOrder(items: seq<StoredItem>, cut: nat)
    requires Ascending(items)
    ensures Ascending(After(items, cut))
    ensures forall s :: s in After(items, cut) ==> s in items && s.messageId > cut
  {
    if items != [] {
      AboveFirst(items);
      AfterKeepsOrder(items[1..], cut);
    }
  }

  /** The clean-cut law for either kind of projection. */
  lemma ProjectCut(v: Viewer, items: seq<StoredItem>, later: seq<StoredItem>, j: nat)
    requires Ascending(items + later) && 0 < j < |Project(v, items)|
    ensures Project(v, items)[j - 1].sourceIds != []
    ensures CutsCleanly(Project(v, items + later), j, Project(v, items),
                        Project(v, After(items + later, LastId(Project(v, items), j))))
  {
    if v.nestedFor == "" {
      CutFrom(v, EMPTY, items, later, j);
    } else {
      NestedAppend(v, items, later);
      CutNested(v, items + later, j);
    }
  }
}
