/**
 What the provider is sent of a history, told from the history alone: cut at the calls into single items, finished runs and
 abandoned ones (core/agent/model_input.py).
 */
module TransactionParts {
  import opened Items
  import opened ContextBudget
  import opened ToolTransactions

  /** A call with an id opens a run, if none is open. */
  predicate Opens(x: Item) {
    x.itemType.FunctionCall? && ToolCallId(x) != ""
  }

  /** A call that a run cannot take: it has no id, or the run has a call of that id already. */
  predicate Breaks(run: seq<Item>, x: Item) {
    x.itemType.FunctionCall? && (ToolCallId(x) == "" || ToolCallId(x) in CallIds(run))
  }

  /** From its first call on some call is unanswered, and the ids of its calls differ. */
  predicate IsRun(run: seq<Item>) {
    run == [] ||
    (var front, x := run[..|run| - 1], run[|run| - 1];
     && IsRun(front) && OpenCalls(run) != {}
     && (front == [] ==> Opens(x)) && !Breaks(front, x))
  }

  datatype Part = Alone(item: Item) | Finished(run: seq<Item>) | Abandoned(run: seq<Item>)

  /** A finished run ends with the item that answers its last open call. */
  predicate IsPart(p: Part) {
    match p
    case Alone(x) => !Opens(x)
    case Finished(run) =>
      && |run| > 1 && IsRun(run[..|run| - 1])
      && OpenCalls(run) == {} && !run[|run| - 1].itemType.FunctionCall?
    case Abandoned(run) => run != [] && IsRun(run)
  }

  function PartItems(p: Part): seq<Item> {
    if p.Alone? then [p.item] else p.run
  }

  function Flat(parts: seq<Part>): seq<Item> {
    if parts == [] then [] else PartItems(parts[0]) + Flat(parts[1..])
  }

  /** A run is abandoned only at a call that it cannot take, or at the end. */
  predicate MayFollow(p: Part, next: Part) {
    p.Abandoned? ==> PartItems(next) != [] && Breaks(p.run, PartItems(next)[0])
  }

  predicate WellCut(parts: seq<Part>) {
    && (forall k :: 0 <= k < |parts| ==> IsPart(parts[k]))
    && forall k :: 0 < k < |parts| ==> MayFollow(parts[k - 1], parts[k])
  }

  // ----- How a part appears -----

  function Calls(run: seq<Item>): seq<Item> {
    if run == [] then []
    else Calls(run[..|run| - 1]) + if run[|run| - 1].itemType.FunctionCall? then [run[|run| - 1]] else []
  }

  /** The first output of this id behind the call of this id, if there is one. */
  function AnswerTo(run: seq<Item>, id: string): seq<Item> {
    if run == [] then []
    else
      var front, x := run[..|run| - 1], run[|run| - 1];
      if AnswerTo(front, id) != [] then AnswerTo(front, id)
      else if x.itemType.FunctionCallOutput? && ToolCallId(x) == id && id in CallIds(front) then [x]
      else []
  }

  function AnswersTo(run: seq<Item>, calls: seq<Item>): seq<Item> {
    if calls == [] then [] else AnswersTo(run, calls[..|calls| - 1]) + AnswerTo(run, ToolCallId(calls[|calls| - 1]))
  }

  /** No tool item, and no assistant message of white space alone. */
  predicate IsPlain(x: Item) {
    && x.itemType !in {FunctionCall, FunctionCallOutput}
    && (x.itemType.Message? && x.role.Assistant? ==> exists i :: 0 <= i < |x.text| && !IsSpace(x.text[i]))
  }

  function PlainOf(items: seq<Item>): seq<Item> {
    if items == [] then []
    else PlainOf(items[..|items| - 1]) + if IsPlain(items[|items| - 1]) then [items[|items| - 1]] else []
  }

  lemma PlainIsOrdinary(x: Item)
    ensures IsPlain(x) <==> IsOrdinary(x)
  {
  }

  lemma {:induction false} PlainAreOrdinary(items: seq<Item>)
    ensures PlainOf(items) == OrdinaryOf(items)
  {
    hide IsPlain, IsOrdinary;
    if items != [] {
      PlainAreOrdinary(items[..|items| - 1]);
      PlainIsOrdinary(items[|items| - 1]);
    }
  }

  /** A finished run: its calls, their answers, the plain items in between; of any other part the plain items. */
  function Shown(p: Part): seq<Item> {
    match p
    case Alone(x) => PlainOf([x])
    case Finished(run) => Calls(run) + AnswersTo(run, Calls(run)) + PlainOf(run)
    case Abandoned(run) => PlainOf(run)
  }

  function AllShown(parts: seq<Part>): seq<Item> {
    if parts == [] then [] else Shown(parts[0]) + AllShown(parts[1..])
  }

  lemma {:induction false} PartsAppend(a: seq<Part>, b: seq<Part>)
    ensures Flat(a + b) == Flat(a) + Flat(b) && AllShown(a + b) == AllShown(a) + AllShown(b)
  {
    hide Shown;
    if a == [] {
      assert a + b == b;
    } else {
      assert (a + b)[0] == a[0] && (a + b)[1..] == a[1..] + b;
      PartsAppend(a[1..], b);
    }
  }

  lemma OnePart(p: Part)
    ensures Flat([p]) == PartItems(p) && AllShown([p]) == Shown(p)
  {
    hide Shown;
    assert [p][1..] == [];
  }

  lemma ShownIsOrdinary(p: Part)
    ensures Shown(p) == match p
                        case Alone(x) => OrdinaryOf([x])
                        case Finished(run) => Calls(run) + AnswersTo(run, Calls(run)) + OrdinaryOf(run)
                        case Abandoned(run) => OrdinaryOf(run)
  {
    hide OrdinaryOf, PlainOf, Calls, AnswersTo;
    PlainAreOrdinary(PartItems(p));
  }

  // ----- The parts of a history -----

  datatype Parsed = Parsed(parts: seq<Part>, open: seq<Item>)

  function Taken(p: Parsed, x: Item): Parsed {
    if p.open == [] then
      if Opens(x) then Parsed(p.parts, [x]) else Parsed(p.parts + [Alone(x)], [])
    else if Breaks(p.open, x) then
      if Opens(x) then Parsed(p.parts + [Abandoned(p.open)], [x]) else Parsed(p.parts + [Abandoned(p.open), Alone(x)], [])
    else if OpenCalls(p.open + [x]) == {} then Parsed(p.parts + [Finished(p.open + [x])], [])
    else Parsed(p.parts, p.open + [x])
  }

  function Parse(items: seq<Item>): Parsed {
    if items == [] then Parsed([], []) else Taken(Parse(items[..|items| - 1]), items[|items| - 1])
  }

  function Closed(p: Parsed): seq<Part> {
    p.parts + if p.open == [] then [] else [Abandoned(p.open)]
  }

  function PartsOf(items: seq<Item>): seq<Part> {
    Closed(Parse(items))
  }

  predicate Cuts(p: Parsed, items: seq<Item>) {
    && WellCut(p.parts) && IsRun(p.open) && Flat(p.parts) + p.open == items
    && (p.parts != [] && p.parts[|p.parts| - 1].Abandoned? ==>
          p.open != [] && Breaks(p.parts[|p.parts| - 1].run, p.open[0]))
  }

  lemma NextPart(parts: seq<Part>, p: Part)
    requires WellCut(parts) && IsPart(p)
    requires parts != [] ==> MayFollow(parts[|parts| - 1], p)
    ensures WellCut(parts + [p]) && Flat(parts + [p]) == Flat(parts) + PartItems(p)
  {
    hide IsPart, MayFollow, PartItems, Flat, AllShown;
    PartsAppend(parts, [p]);
    OnePart(p);
  }

  lemma TakenCuts(p: Parsed, items: seq<Item>, x: Item)
    requires Cuts(p, items)
    ensures Cuts(Taken(p, x), items + [x])
  {
    hide WellCut, Flat, OpenCalls, CallIds;
    if p.open == [] {
      NewRun(x);
      if !Opens(x) { NextPart(p.parts, Alone(x)); }
      assert Flat(p.parts) + [] == Flat(p.parts);
    } else if Breaks(p.open, x) {
      NewRun(x);
      NextPart(p.parts, Abandoned(p.open));
      if !Opens(x) {
        NextPart(p.parts + [Abandoned(p.open)], Alone(x));
        assert p.parts + [Abandoned(p.open)] + [Alone(x)] == p.parts + [Abandoned(p.open), Alone(x)];
      }
    } else {
      var grown := p.open + [x];
      assert grown[..|grown| - 1] == p.open && grown[0] == p.open[0];
      assert Flat(p.parts) + grown == items + [x];
      if OpenCalls(grown) == {} {
        OutputCloses(p.open, x);
        NextPart(p.parts, Finished(grown));
      }
    }
  }

  lemma NewRun(x: Item)
    ensures Opens(x) ==> IsRun([x])
  {
    var run := [x];
    assert run[..|run| - 1] == [] && run[|run| - 1] == x && IsRun([]);
    if Opens(x) {
      assert OpenCalls([]) == {} && CallIds([]) == {} && ToolCallId(x) in OpenCalls(run);
    }
  }

  lemma OutputCloses(open: seq<Item>, x: Item)
    requires OpenCalls(open + [x]) == {} && !Breaks(open, x)
    ensures !x.itemType.FunctionCall?
  {
    OpenAfter(open, x);
  }

  lemma NothingParsed()
    ensures Cuts(Parsed([], []), [])
  {
  }

  lemma {:induction false} ParseCuts(items: seq<Item>)
    ensures Cuts(Parse(items), items)
  {
    hide Cuts, Taken;
    if items == [] {
      NothingParsed();
    } else {
      ParseCuts(items[..|items| - 1]);
      TakenCuts(Parse(items[..|items| - 1]), items[..|items| - 1], items[|items| - 1]);
      assert items == items[..|items| - 1] + [items[|items| - 1]];
    }
  }

  lemma PartsAreCut(items: seq<Item>)
    ensures WellCut(PartsOf(items)) && Flat(PartsOf(items)) == items
  {
    ParseCuts(items);
    var p := Parse(items);
    if p.open != [] { NextPart(p.parts, Abandoned(p.open)); }
    assert p.parts + [] == p.parts && Flat(p.parts) + [] == Flat(p.parts);
    hide Parse, WellCut, Flat, IsRun;
  }

  // ----- There is one way to cut a history so -----

  lemma {:induction false} RunPrefix(run: seq<Item>, n: nat)
    requires IsRun(run) && 0 < n <= |run|
    ensures IsRun(run[..n]) && OpenCalls(run[..n]) != {} && Opens(run[0])
    ensures n < |run| ==> !Breaks(run[..n], run[n])
  {
    var front := run[..|run| - 1];
    if n == |run| {
      assert run[..n] == run;
      if front != [] { RunPrefix(front, |front|); }
    } else {
      RunPrefix(front, n);
      assert run[..n] == front[..n];
    }
  }

  /** The beginnings of a part. */
  lemma PartBegins(p: Part, n: nat)
    requires IsPart(p) && 0 < n <= |PartItems(p)|
    ensures p.Alone? <==> !Opens(PartItems(p)[0])
    ensures !p.Alone? && (n < |PartItems(p)| || p.Abandoned?) ==> OpenCalls(PartItems(p)[..n]) != {}
    ensures !p.Alone? && n < |PartItems(p)| ==> !Breaks(PartItems(p)[..n], PartItems(p)[n])
  {
    if p.Finished? {
      var front := p.run[..|p.run| - 1];
      if n < |p.run| {
        RunPrefix(front, n);
        assert p.run[..n] == front[..n];
      } else {
        RunPrefix(front, |front|);
      }
    } else if p.Abandoned? {
      RunPrefix(p.run, n);
    }
  }

  lemma PartHasItems(p: Part)
    requires IsPart(p)
    ensures PartItems(p) != []
  {
  }

  /** The part behind a shorter first part begins inside the longer one. */
  lemma NextPartBegins(p: seq<Part>, q: seq<Part>)
    requires p != [] && q != [] && WellCut(p) && Flat(p) == Flat(q) && |PartItems(p[0])| < |PartItems(q[0])|
    ensures |p| > 1 && PartItems(p[0]) != [] && PartItems(p[1]) != [] && MayFollow(p[0], p[1])
    ensures var a, b := PartItems(p[0]), PartItems(q[0]); b[..|a|] == a && b[|a|] == PartItems(p[1])[0]
  {
    hide IsPart, MayFollow, PartItems;
    var a, b, n := PartItems(p[0]), PartItems(q[0]), |PartItems(p[0])|;
    PartHasItems(p[0]);
    assert b <= Flat(q) && a <= Flat(p) && Flat(p)[n..] == Flat(p[1..]);
    assert p[1..] != [];
    assert p[1] == p[1..][0];
    PartHasItems(p[1]);
    assert PartItems(p[1]) <= Flat(p[1..]);
    assert b[n] == Flat(p)[n] == Flat(p[1..])[0] == PartItems(p[1])[0];
    assert b[..n] == Flat(p)[..n] == a;
  }

  lemma NotShorter(p: seq<Part>, q: seq<Part>)
    requires p != [] && q != [] && WellCut(p) && WellCut(q) && Flat(p) == Flat(q)
    ensures |PartItems(p[0])| >= |PartItems(q[0])|
  {
    hide Flat, IsPart, Breaks, OpenCalls, Opens;
    if |PartItems(p[0])| < |PartItems(q[0])| {
      NextPartBegins(p, q);
      PartBegins(p[0], |PartItems(p[0])|);
      PartBegins(q[0], |PartItems(p[0])|);
      LastOfPart(p[0]);
    }
  }

  lemma LastOfPart(p: Part)
    requires IsPart(p)
    ensures PartItems(p)[..|PartItems(p)|] == PartItems(p)
    ensures p.Finished? ==> OpenCalls(p.run) == {}
  {
  }

  lemma SamePart(a: Part, b: Part)
    requires IsPart(a) && IsPart(b) && PartItems(a) == PartItems(b)
    ensures a == b
  {
    PartHasItems(a);
    PartBegins(a, |PartItems(a)|);
    PartBegins(b, |PartItems(b)|);
    LastOfPart(a);
    LastOfPart(b);
    hide IsPart, OpenCalls, Opens;
  }

  lemma {:induction false} PartsAreUnique(p: seq<Part>, q: seq<Part>)
    requires WellCut(p) && WellCut(q) && Flat(p) == Flat(q)
    ensures p == q
  {
    hide IsPart, MayFollow, PartItems;
    if p != [] { PartHasItems(p[0]); }
    if q != [] { PartHasItems(q[0]); }
    if p != [] && q != [] {
      NotShorter(p, q);
      NotShorter(q, p);
      var n := |PartItems(p[0])|;
      assert PartItems(p[0]) == Flat(p)[..n] == PartItems(q[0]);
      assert Flat(p[1..]) == Flat(p)[n..] == Flat(q[1..]);
      SamePart(p[0], q[0]);
      PartsAreUnique(p[1..], q[1..]);
    }
  }

  // ----- The normaliser shows the parts -----

  /** What the open transaction knows of one call id. */
  predicate Knows(t: Transaction, open: seq<Item>, id: string) {
    && (id in t.ids <==> id in CallIds(open)) && (id in t.outputs ==> id in t.ids)
    && (id in t.ids ==> id != "" && (id in t.outputs <==> id !in OpenCalls(open)) && AnswerTo(open, id) == Given(id, t.outputs))
    && (id in OpenCalls(open) ==> id in CallIds(open))
  }

  /** The open transaction holds what belongs to the open run. */
  ghost predicate Represents(t: Transaction, open: seq<Item>) {
    && t.calls == Calls(open) && t.ids == IdsIn(t.calls) && t.deferred == OrdinaryOf(open)
    && forall id :: Knows(t, open, id)
  }

  lemma GrownRun(open: seq<Item>, x: Item, id: string)
    ensures Calls(open + [x]) == Calls(open) + if x.itemType.FunctionCall? then [x] else []
    ensures OrdinaryOf(open + [x]) == OrdinaryOf(open) + if IsOrdinary(x) then [x] else []
    ensures CallIds(open + [x]) == CallIds(open) + IdOf(FunctionCall, x)
    ensures AnswerTo(open + [x], id)
            == if AnswerTo(open, id) != [] then AnswerTo(open, id)
               else if x.itemType.FunctionCallOutput? && ToolCallId(x) == id && id in CallIds(open) then [x] else []
  {
    assert (open + [x])[..|open|] == open && (open + [x])[|open|] == x;
    hide IsOrdinary, OrdinaryOf;
    OrdinaryAppend(open, [x]);
    OrdinaryOne(x);
  }

  lemma OrdinaryOne(x: Item)
    ensures OrdinaryOf([x]) == if IsOrdinary(x) then [x] else []
  {
    hide IsOrdinary;
    assert [x][..0] == [];
    assert OrdinaryOf([]) == [];
  }

  lemma Completes(t: Transaction, open: seq<Item>)
    requires Represents(t, open)
    ensures Complete(t) <==> t.calls != [] && OpenCalls(open) == {}
    ensures OpenCalls(open) != {} ==> t.calls != []
    ensures open == [] ==> t == FRESH
  {
    hide OpenCalls, AnswerTo;
    assert |t.ids| == |t.calls|;
    forall id
      ensures id in OpenCalls(open) ==> id in t.ids && id !in t.outputs
      ensures id in t.ids && id !in t.outputs ==> id in OpenCalls(open)
      ensures id in t.outputs ==> id in t.ids
    {
      assert Knows(t, open, id);
    }
    if open == [] { assert t.outputs.Keys == {}; }
  }

  /** The items that a transaction takes: the calls it accepts, the outputs that answer it, and what is no tool item. */
  function With(t: Transaction, x: Item): Transaction {
    if x.itemType.FunctionCall? then t.(calls := t.calls + [x], ids := t.ids + [ToolCallId(x)])
    else if x.itemType.FunctionCallOutput? then
      if Answers(t, ToolCallId(x)) then t.(outputs := t.outputs[ToolCallId(x) := x]) else t
    else if IsEmptyAssistant(x) then t
    else t.(deferred := t.deferred + [x])
  }

  lemma KnowsMore(t: Transaction, open: seq<Item>, x: Item, id: string)
    requires Knows(t, open, id) && Knows(t, open, ToolCallId(x)) && (x.itemType.FunctionCall? ==> Accepts(t, ToolCallId(x)))
    ensures Knows(With(t, x), open + [x], id)
  {
    GrownRun(open, x, id);
    OpenAfter(open, x);
    if x.itemType.FunctionCall? && id == ToolCallId(x) { NeverAnswered(open, id); }
    hide Calls, OrdinaryOf, OpenCalls, AnswerTo, Ids;
  }

  lemma RepresentsMore(t: Transaction, open: seq<Item>, x: Item)
    requires Represents(t, open) && (x.itemType.FunctionCall? ==> Accepts(t, ToolCallId(x)))
    ensures Represents(With(t, x), open + [x])
  {
    assert Knows(t, open, ToolCallId(x));
    GrownRun(open, x, "");
    assert IdsIn(t.calls + [x]) == IdsIn(t.calls) + [ToolCallId(x)];
    assert With(t, x).calls == Calls(open + [x]) && With(t, x).deferred == OrdinaryOf(open + [x]);
    hide Knows, Calls, OrdinaryOf;
    forall id
      ensures Knows(With(t, x), open + [x], id)
    {
      assert Knows(t, open, id);
      KnowsMore(t, open, x, id);
    }
  }

  lemma {:induction false} NeverAnswered(open: seq<Item>, id: string)
    requires id !in CallIds(open)
    ensures AnswerTo(open, id) == []
  {
    if open != [] {
      NeverAnswered(open[..|open| - 1], id);
    }
  }

  lemma {:induction false} AnswersMatch(run: seq<Item>, calls: seq<Item>, outputs: map<string, Item>)
    requires forall c :: c in calls ==> AnswerTo(run, ToolCallId(c)) == Given(ToolCallId(c), outputs)
    ensures Answered(IdsIn(calls), outputs) == AnswersTo(run, calls)
  {
    hide AnswerTo, Given;
    if calls != [] {
      var front, last := calls[..|calls| - 1], calls[|calls| - 1];
      assert forall c :: c in front ==> c in calls;
      AnswersMatch(run, front, outputs);
      assert IdsIn(calls) == IdsIn(front) + [ToolCallId(last)];
      AnsweredSnoc(IdsIn(front), outputs, ToolCallId(last));
    }
  }

  lemma OrderedIsShown(t: Transaction, run: seq<Item>)
    requires Represents(t, run)
    ensures Ordered(t) == Shown(Finished(run))
  {
    forall c | c in t.calls
      ensures AnswerTo(run, ToolCallId(c)) == Given(ToolCallId(c), t.outputs)
    {
      var i :| 0 <= i < |t.calls| && t.calls[i] == c;
      assert t.ids[i] == ToolCallId(c) && Knows(t, run, ToolCallId(c));
    }
    AnswersMatch(run, t.calls, t.outputs);
    ShownIsOrdinary(Finished(run));
    hide Shown, PlainOf, Knows, Calls, OrdinaryOf, Answered, AnswersTo;
  }

  lemma TakesIn(st: State, x: Item)
    requires Healthy(st) && st.transaction.calls != []
    requires x.itemType.FunctionCall? ==> Accepts(st.transaction, ToolCallId(x))
    ensures Step(st, x) == FlushIfComplete(st.(transaction := With(st.transaction, x)))
  {
    var t := With(st.transaction, x);
    if x.itemType.FunctionCall? { assert ToolCallId(x) == t.ids[|t.ids| - 1]; }
    hide Grouped, Consistent, Ordered, IsEmptyAssistant;
  }

  lemma BreakEnds(st: State, x: Item)
    requires Healthy(st) && st.transaction.calls != [] && x.itemType.FunctionCall? && !Accepts(st.transaction, ToolCallId(x))
    ensures Step(st, x) == State(st.normalized + st.transaction.deferred, if Opens(x) then With(FRESH, x) else FRESH)
  {
    hide Grouped, Consistent, Ordered;
  }

  lemma Begins(st: State, x: Item)
    requires st.transaction == FRESH
    ensures Step(st, x) == if Opens(x) then st.(transaction := With(FRESH, x)) else st.(normalized := st.normalized + OrdinaryOf([x]))
  {
    OrdinaryOne(x);
    hide IsEmptyAssistant, OrdinaryOf;
    assert st.normalized + [] == st.normalized;
  }

  /** The normaliser has put out what the closed parts show, and holds the open run. */
  ghost predicate Follows(st: State, p: Parsed) {
    Healthy(st) && st.normalized == AllShown(p.parts) && Represents(st.transaction, p.open) && IsRun(p.open)
  }

  lemma FirstStep(st: State, p: Parsed, x: Item)
    requires Follows(st, p) && p.open == []
    ensures Step(st, x).normalized == AllShown(Taken(p, x).parts) && Represents(Step(st, x).transaction, Taken(p, x).open)
  {
    Completes(st.transaction, []);
    Begins(st, x);
    if Opens(x) {
      RepresentsMore(FRESH, [], x);
      assert [] + [x] == [x];
    } else {
      PartsAppend(p.parts, [Alone(x)]);
      OnePart(Alone(x));
      ShownIsOrdinary(Alone(x));
    }
    hide Healthy, Represents, With, Opens, AllShown, OrdinaryOf, IsRun;
  }

  lemma BreakShows(p: Parsed, x: Item)
    requires p.open != [] && Breaks(p.open, x)
    ensures AllShown(Taken(p, x).parts) == AllShown(p.parts) + OrdinaryOf(p.open)
    ensures Taken(p, x).open == if Opens(x) then [x] else []
  {
    hide AllShown, OrdinaryOf, IsOrdinary;
    PartsAppend(p.parts, [Abandoned(p.open)]);
    OnePart(Abandoned(p.open));
    ShownIsOrdinary(Abandoned(p.open));
    if !Opens(x) {
      PartsAppend(p.parts + [Abandoned(p.open)], [Alone(x)]);
      OnePart(Alone(x));
      ShownIsOrdinary(Alone(x));
      CallIsNotOrdinary(x);
      assert p.parts + [Abandoned(p.open)] + [Alone(x)] == p.parts + [Abandoned(p.open), Alone(x)];
    }
  }

  lemma CallIsNotOrdinary(x: Item)
    requires x.itemType.FunctionCall?
    ensures OrdinaryOf([x]) == []
  {
    OrdinaryOne(x);
  }

  lemma BreakingStep(st: State, p: Parsed, x: Item)
    requires Follows(st, p) && p.open != [] && Breaks(p.open, x)
    ensures Step(st, x).normalized == AllShown(Taken(p, x).parts) && Represents(Step(st, x).transaction, Taken(p, x).open)
  {
    Completes(st.transaction, p.open);
    assert Knows(st.transaction, p.open, ToolCallId(x));
    assert !Accepts(st.transaction, ToolCallId(x));
    BreakEnds(st, x);
    BreakShows(p, x);
    NothingRepresented();
    if Opens(x) {
      RepresentsMore(FRESH, [], x);
      assert [] + [x] == [x];
    }
    hide Healthy, With, AllShown, OrdinaryOf, Knows, Taken, Step, Breaks;
  }

  lemma NothingRepresented()
    ensures Represents(FRESH, [])
  {
  }

  lemma GrowingStep(st: State, p: Parsed, x: Item)
    requires Follows(st, p) && p.open != [] && !Breaks(p.open, x)
    ensures Step(st, x).normalized == AllShown(Taken(p, x).parts) && Represents(Step(st, x).transaction, Taken(p, x).open)
  {
    var t := With(st.transaction, x);
    Completes(st.transaction, p.open);
    assert Knows(st.transaction, p.open, ToolCallId(x));
    TakesIn(st, x);
    RepresentsMore(st.transaction, p.open, x);
    Completes(t, p.open + [x]);
    OrderedIsShown(t, p.open + [x]);
    PartsAppend(p.parts, [Finished(p.open + [x])]);
    OnePart(Finished(p.open + [x]));
    ShownIsOrdinary(Finished(p.open + [x]));
    NothingRepresented();
    assert t.calls != [];
    hide Healthy, Represents, Ordered, Shown, AllShown, OpenCalls, Complete;
  }

  lemma {:induction false} FoldFollows(items: seq<Item>)
    ensures Follows(Fold(State([], FRESH), items), Parse(items))
  {
    FoldIsHealthy(items);
    ParseCuts(items);
    if items == [] {
      NothingRepresented();
    } else {
      var front, x := items[..|items| - 1], items[|items| - 1];
      FoldFollows(front);
      var st, p := Fold(State([], FRESH), front), Parse(front);
      if p.open == [] {
        FirstStep(st, p, x);
      } else if Breaks(p.open, x) {
        BreakingStep(st, p, x);
      } else {
        GrowingStep(st, p, x);
      }
      hide Step, Taken, Healthy, Represents, IsRun, AllShown, Breaks;
    }
  }

  /**
   * The provider is sent what the parts of the history show, in their order: of a finished run its calls, their first
   * answers and the ordinary items in between, of everything else the ordinary items alone. There is one way to cut a
   * history into such parts.
   */
  lemma NormalizeShowsParts(items: seq<Item>, parts: seq<Part>)
    ensures WellCut(parts) && Flat(parts) == items ==> Normalize(items) == AllShown(parts)
    ensures WellCut(PartsOf(items)) && Flat(PartsOf(items)) == items
  {
    PartsAreCut(items);
    if WellCut(parts) && Flat(parts) == items { PartsAreUnique(parts, PartsOf(items)); }
    NormalizeShowsItsParts(items);
    hide WellCut, Flat, AllShown, PartsOf, Normalize;
  }

  lemma NormalizeShowsItsParts(items: seq<Item>)
    ensures Normalize(items) == AllShown(PartsOf(items))
  {
    FoldFollows(items);
    var st, p := Fold(State([], FRESH), items), Parse(items);
    Completes(st.transaction, p.open);
    if p.open != [] {
      PartsAppend(p.parts, [Abandoned(p.open)]);
      OnePart(Abandoned(p.open));
      ShownIsOrdinary(Abandoned(p.open));
    } else {
      assert p.parts + [] == p.parts;
    }
    hide Fold, Parse, AllShown, OrdinaryOf, Ordered, Calls, OpenCalls;
  }
}
