/** Pruning of model input to the token budget of one call (core/conversation/context_budget.py). */
module ContextBudget {
  import opened Items

  /** Stands for the fixed wording of the notice, which nothing depends on. */
  const NOTICE_TEXT := "omitted"

  const MIN_COMPLETION_SLACK_TOKENS := 2048

  datatype Chunk = Chunk(items: seq<Item>, tokens: nat)

  datatype Error =
    | InstructionsExceedBudget
    | LatestItemExceedsBudget
    | ExceedsBudgetAfterPruning
    | ExceedsBudgetAfterContextPruning

  datatype Result = Ok(items: seq<Item>) | Err(error: Error)

  // ----- Call and output ids -----

  /** The call ids carried by the items of type `t`. */
  function Ids(t: ItemType, items: seq<Item>): set<string> {
    if items == [] then {}
    else Ids(t, items[..|items| - 1]) + IdOf(t, items[|items| - 1])
  }

  function IdOf(t: ItemType, x: Item): set<string> {
    if x.itemType == t && ToolCallId(x) != "" then {ToolCallId(x)} else {}
  }

  function CallIds(items: seq<Item>): set<string> {
    Ids(FunctionCall, items)
  }

  function OutputIds(items: seq<Item>): set<string> {
    Ids(FunctionCallOutput, items)
  }

  lemma {:induction false} IdsAppend(t: ItemType, a: seq<Item>, b: seq<Item>)
    ensures Ids(t, a + b) == Ids(t, a) + Ids(t, b)
  {
    if b == [] {
      assert a + b == a;
    } else {
      assert (a + b)[..|a + b| - 1] == a + b[..|b| - 1];
      IdsAppend(t, a, b[..|b| - 1]);
    }
  }

  lemma BothIdsAppend(a: seq<Item>, b: seq<Item>)
    ensures CallIds(a + b) == CallIds(a) + CallIds(b) && OutputIds(a + b) == OutputIds(a) + OutputIds(b)
  {
    IdsAppend(FunctionCall, a, b);
    IdsAppend(FunctionCallOutput, a, b);
  }

  /** Ids of the calls that no later output of the list has answered. */
  function OpenCalls(items: seq<Item>): set<string> {
    if items == [] then {}
    else
      var open, x := OpenCalls(items[..|items| - 1]), items[|items| - 1];
      if x.itemType.FunctionCall? && ToolCallId(x) != "" then open + {ToolCallId(x)}
      else if x.itemType.FunctionCallOutput? then open - {ToolCallId(x)}
      else open
  }

  lemma {:induction false} CallsAreOpenOrAnswered(items: seq<Item>)
    ensures CallIds(items) <= OpenCalls(items) + OutputIds(items)
    ensures "" !in OpenCalls(items)
  {
    if items != [] {
      CallsAreOpenOrAnswered(items[..|items| - 1]);
    }
  }

  lemma {:induction false} IdsExactly(t: ItemType, items: seq<Item>, id: string)
    ensures id in Ids(t, items) <==> id != "" && exists x :: x in items && x.itemType == t && ToolCallId(x) == id
  {
    if items != [] {
      var front, last := items[..|items| - 1], items[|items| - 1];
      assert last in items && forall x :: x in front ==> x in items;
      IdsExactly(t, front, id);
      assert forall x :: x in items ==> x in front || x == last;
    }
  }

  /** The call at `i` has this id, and no output behind it answers it. */
  predicate IsOpenCall(items: seq<Item>, i: nat, id: string)
    requires i < |items|
  {
    && items[i].itemType.FunctionCall? && ToolCallId(items[i]) == id
    && forall j :: i < j < |items| ==> !(items[j].itemType.FunctionCallOutput? && ToolCallId(items[j]) == id)
  }

  /** An id is open exactly when some call of the list has it and no output behind that call does. */
  lemma {:induction false} OpenExactly(items: seq<Item>, id: string)
    ensures id in OpenCalls(items) <==> id != "" && exists i :: 0 <= i < |items| && IsOpenCall(items, i, id)
  {
    if items != [] {
      var front, n := items[..|items| - 1], |items| - 1;
      OpenExactly(front, id);
      forall i | 0 <= i < n
        ensures IsOpenCall(items, i, id)
                <==> IsOpenCall(front, i, id) && !(items[n].itemType.FunctionCallOutput? && ToolCallId(items[n]) == id)
      {
        assert front[i] == items[i] && forall j :: i < j < n ==> front[j] == items[j];
      }
      assert IsOpenCall(items, n, id) <==> items[n].itemType.FunctionCall? && ToolCallId(items[n]) == id;
    }
  }

  // ----- Chunking -----

  /** Splits `items` into chunks, `pending` being the chunk under construction. */
  function Split(pending: seq<Item>, items: seq<Item>): seq<seq<Item>>
    decreases items
  {
    if items == [] then (if pending == [] then [] else [pending])
    else
      var grown := pending + [items[0]];
      if items[0].itemType.FunctionCall? || (pending != [] && OpenCalls(grown) != {}) then Split(grown, items[1..])
      else [grown] + Split([], items[1..])
  }

  function Flatten(chunks: seq<seq<Item>>): seq<Item> {
    if chunks == [] then [] else chunks[0] + Flatten(chunks[1..])
  }

  function Measured(enc: Item -> nat, chunks: seq<seq<Item>>): seq<Chunk> {
    seq(|chunks|, i requires 0 <= i < |chunks| => Chunk(chunks[i], Tokens(enc, chunks[i])))
  }

  lemma SplitStep(pending: seq<Item>, items: seq<Item>, i: nat)
    requires i < |items|
    ensures var grown := pending + [items[i]];
            Split(pending, items[i..])
            == if items[i].itemType.FunctionCall? || (pending != [] && OpenCalls(grown) != {}) then Split(grown, items[i + 1..])
               else [grown] + Split([], items[i + 1..])
  {
    hide OpenCalls;
    assert items[i..][0] == items[i] && items[i..][1..] == items[i + 1..];
  }

  lemma MeasuredAppend(enc: Item -> nat, done: seq<seq<Item>>, chunk: seq<Item>, rest: seq<seq<Item>>)
    ensures Measured(enc, done + [chunk]) == Measured(enc, done) + [Chunk(chunk, Tokens(enc, chunk))]
    ensures done + ([chunk] + rest) == done + [chunk] + rest && done + [] == done
  {
    hide Tokens;
  }

  method BuildChunks(enc: Item -> nat, items: seq<Item>) returns (chunks: seq<Chunk>)
    ensures chunks == Measured(enc, Split([], items))
  {
    hide OpenCalls, Split, Measured, Tokens;
    chunks := [];
    var pending, open: set<string> := [], {};
    ghost var done: seq<seq<Item>> := [];
    NothingMeasured(enc, items);
    for i := 0 to |items|
      invariant chunks == Measured(enc, done) && open == OpenCalls(pending)
      invariant done + Split(pending, items[i..]) == Split([], items)
    {
      var item, grown := items[i], pending + [items[i]];
      SplitStep(pending, items, i);
      OpenAfter(pending, item);
      MeasuredAppend(enc, done, grown, Split([], items[i + 1..]));
      if item.itemType.FunctionCall? {
        pending := grown;
        if ToolCallId(item) != "" { open := open + {ToolCallId(item)}; }
      } else if pending != [] {
        pending := grown;
        if item.itemType.FunctionCallOutput? && ToolCallId(item) in open { open := open - {ToolCallId(item)}; }
        if open == {} {
          chunks := chunks + [Chunk(pending, Tokens(enc, pending))];
          done, pending := done + [pending], [];
        }
      } else {
        assert grown == [item];
        chunks := chunks + [Chunk([item], Tokens(enc, [item]))];
        done := done + [[item]];
      }
    }
    SplitEnds(pending, items);
    MeasuredAppend(enc, done, pending, []);
    if pending != [] {
      chunks := chunks + [Chunk(pending, Tokens(enc, pending))];
    }
  }

  lemma NothingMeasured(enc: Item -> nat, items: seq<Item>)
    ensures Measured(enc, []) == [] && OpenCalls([]) == {}
    ensures items[0..] == items && [] + Split([], items) == Split([], items)
  {
    hide Split;
  }

  lemma SplitEnds(pending: seq<Item>, items: seq<Item>)
    ensures Split(pending, items[|items|..]) == if pending == [] then [] else [pending]
  {
  }

  lemma OpenAfter(pending: seq<Item>, item: Item)
    ensures var open, open' := OpenCalls(pending), OpenCalls(pending + [item]);
            && open' == (if item.itemType.FunctionCall? && ToolCallId(item) != "" then open + {ToolCallId(item)}
                         else if item.itemType.FunctionCallOutput? then open - {ToolCallId(item)} else open)
            && OpenCalls([]) == {}
  {
    assert (pending + [item])[..|pending|] == pending;
  }

  lemma {:induction false} FlattenAppend(a: seq<seq<Item>>, b: seq<seq<Item>>)
    ensures Flatten(a + b) == Flatten(a) + Flatten(b)
  {
    if a == [] {
      assert a + b == b;
    } else {
      assert (a + b)[1..] == a[1..] + b;
      FlattenAppend(a[1..], b);
    }
  }

  /** A list that goes on as one chunk: after every item but a call, some call is still open. */
  ghost predicate StaysOpen(items: seq<Item>) {
    forall n :: 0 < n <= |items| ==> items[n - 1].itemType.FunctionCall? || OpenCalls(items[..n]) != {}
  }

  /** A chunk of several items starts with a call and ends as soon as it can. */
  ghost predicate IsChunk(chunk: seq<Item>) {
    && chunk != []
    && (|chunk| > 1 ==> chunk[0].itemType.FunctionCall?)
    && StaysOpen(chunk[..|chunk| - 1])
  }

  lemma GrowChunk(pending: seq<Item>, item: Item)
    requires StaysOpen(pending) && (pending != [] ==> pending[0].itemType.FunctionCall?)
    ensures var grown := pending + [item];
            && IsChunk(grown)
            && (item.itemType.FunctionCall? || OpenCalls(grown) != {} ==> StaysOpen(grown))
            && (!item.itemType.FunctionCall? && pending == [] ==> OpenCalls(grown) == {})
  {
    var grown := pending + [item];
    assert grown[..|grown| - 1] == pending && grown[..|grown|] == grown;
    forall n | 0 < n <= |pending|
      ensures grown[n - 1] == pending[n - 1] && grown[..n] == pending[..n]
    {
    }
    if pending == [] {
      assert grown[..0] == [];
    }
  }

  /**
   Chunking loses nothing, makes no empty chunk, and closes every chunk but the last one: no call is
   ever cut off from the outputs that follow it. Chunks are no longer than that requires.
   */
  lemma {:induction false} ChunksNeverSplitACall(pending: seq<Item>, items: seq<Item>)
    requires StaysOpen(pending) && (pending != [] ==> pending[0].itemType.FunctionCall?)
    ensures var chunks := Split(pending, items);
            && Flatten(chunks) == pending + items
            && (forall i :: 0 <= i < |chunks| ==> IsChunk(chunks[i]))
            && (forall i :: 0 <= i < |chunks| - 1 ==> OpenCalls(chunks[i]) == {})
    decreases items
  {
    hide StaysOpen, IsChunk, OpenCalls;
    if items == [] {
      if pending != [] { LastChunk(pending); }
      NothingOpen();
    } else {
      var grown, rest := pending + [items[0]], items[1..];
      assert pending + items == grown + rest;
      GrowChunk(pending, items[0]);
      if items[0].itemType.FunctionCall? || (pending != [] && OpenCalls(grown) != {}) {
        ChunksNeverSplitACall(grown, rest);
      } else {
        NothingOpen();
        ChunksNeverSplitACall([], rest);
        assert [] + rest == rest;
      }
    }
  }

  lemma NothingOpen()
    ensures StaysOpen([])
  {
  }

  lemma LastChunk(pending: seq<Item>)
    requires pending != [] && StaysOpen(pending) && pending[0].itemType.FunctionCall?
    ensures IsChunk(pending)
  {
    var front := pending[..|pending| - 1];
    assert forall n :: 0 < n <= |front| ==> front[..n] == pending[..n];
  }

  // ----- The longest suffix that fits -----

  function ItemsOf(chunks: seq<Chunk>): seq<Item> {
    if chunks == [] then [] else chunks[0].items + ItemsOf(chunks[1..])
  }

  function Cost(chunks: seq<Chunk>): nat {
    if chunks == [] then 0 else chunks[0].tokens + Cost(chunks[1..])
  }

  /** `k` chunks have to be left out for the rest to fit, and no fewer. */
  ghost predicate FewestOmitted(chunks: seq<Chunk>, budget: nat, k: nat) {
    && k <= |chunks| && Cost(chunks[k..]) <= budget
    && forall j :: 0 <= j < k ==> Cost(chunks[j..]) > budget
  }

  lemma {:induction false} CostShrinks(chunks: seq<Chunk>, j: nat, k: nat)
    requires j <= k <= |chunks|
    ensures Cost(chunks[j..]) >= Cost(chunks[k..])
    decreases k - j
  {
    if j < k {
      assert chunks[j..][1..] == chunks[j + 1..];
      CostShrinks(chunks, j + 1, k);
    }
  }

  method SelectRecentChunks(chunks: seq<Chunk>, budget: nat) returns (items: seq<Item>, omitted: nat)
    ensures FewestOmitted(chunks, budget, omitted) && items == ItemsOf(chunks[omitted..])
  {
    var k: nat, total := |chunks|, 0;
    assert chunks[k..] == [];
    items, omitted := [], 0;
    while k > 0
      invariant k <= |chunks| && total == Cost(chunks[k..]) && total <= budget
      invariant items == ItemsOf(chunks[k..]) && omitted == 0
    {
      assert chunks[k - 1..][1..] == chunks[k..];
      if total + chunks[k - 1].tokens > budget {
        omitted := k;
        forall j | 0 <= j < k
          ensures Cost(chunks[j..]) > budget
        {
          CostShrinks(chunks, j, k - 1);
        }
        return;
      }
      k := k - 1;
      items := chunks[k].items + items;
      total := total + chunks[k].tokens;
    }
  }

  lemma {:induction false} MeasuredItems(enc: Item -> nat, chunks: seq<seq<Item>>, k: nat)
    requires k <= |chunks|
    ensures ItemsOf(Measured(enc, chunks)[k..]) == Flatten(chunks[k..])
    ensures Cost(Measured(enc, chunks)[k..]) == Tokens(enc, Flatten(chunks[k..]))
    decreases |chunks| - k
  {
    if k < |chunks| {
      assert Measured(enc, chunks)[k..][1..] == Measured(enc, chunks)[k + 1..];
      assert chunks[k..][1..] == chunks[k + 1..];
      MeasuredItems(enc, chunks, k + 1);
      TokensAppend(enc, chunks[k], Flatten(chunks[k + 1..]));
    }
  }

  // ----- Orphaned tool items -----

  function Paired(items: seq<Item>): set<string> {
    CallIds(items) * OutputIds(items)
  }

  predicate Keeps(paired: set<string>, item: Item) {
    IsToolItem(item) ==> ToolCallId(item) in paired
  }

  function Filter(paired: set<string>, items: seq<Item>): seq<Item> {
    if items == [] then []
    else Filter(paired, items[..|items| - 1]) + (if Keeps(paired, items[|items| - 1]) then [items[|items| - 1]] else [])
  }

  function WithoutOrphans(items: seq<Item>): seq<Item> {
    Filter(Paired(items), items)
  }

  method DropOrphanToolItems(items: seq<Item>) returns (cleaned: seq<Item>)
    ensures cleaned == WithoutOrphans(items)
  {
    var paired := CallIds(items) * OutputIds(items);
    cleaned := [];
    for i := 0 to |items|
      invariant cleaned == Filter(paired, items[..i])
    {
      assert items[..i + 1][..i] == items[..i];
      if IsToolItem(items[i]) && ToolCallId(items[i]) !in paired { continue; }
      cleaned := cleaned + [items[i]];
    }
    assert items[..|items|] == items;
  }

  lemma {:induction false} FilterIds(t: ItemType, paired: set<string>, items: seq<Item>)
    requires "" !in paired && (t.FunctionCall? || t.FunctionCallOutput?)
    ensures Ids(t, Filter(paired, items)) == Ids(t, items) * paired
  {
    if items != [] {
      var front, last := items[..|items| - 1], items[|items| - 1];
      FilterIds(t, paired, front);
      Distribute(Ids(t, front), IdOf(t, last), paired);
      if Keeps(paired, last) {
        assert IdOf(t, last) <= paired;
        IdsAppend(t, Filter(paired, front), [last]);
        assert [last][..0] == [];
        assert Ids(t, [last]) == IdOf(t, last);
      } else {
        assert IdOf(t, last) !! paired;
        assert Filter(paired, items) == Filter(paired, front);
      }
    }
  }

  lemma Distribute(a: set<string>, b: set<string>, p: set<string>)
    ensures b <= p ==> (a + b) * p == a * p + b
    ensures b !! p ==> (a + b) * p == a * p
  {
  }

  lemma {:induction false} FilterTokens(enc: Item -> nat, paired: set<string>, items: seq<Item>)
    ensures Tokens(enc, Filter(paired, items)) <= Tokens(enc, items)
  {
    if items != [] {
      var front, last := items[..|items| - 1], items[|items| - 1];
      FilterTokens(enc, paired, front);
      TokensOfLast(enc, front, last);
      TokensOfLast(enc, Filter(paired, front), last);
      assert items == front + [last];
    }
  }

  lemma TokensOfLast(enc: Item -> nat, front: seq<Item>, last: Item)
    ensures Tokens(enc, front + [last]) == Tokens(enc, front) + ItemTokens(enc, last)
    ensures front + [] == front
  {
    TokensAppend(enc, front, [last]);
  }

  lemma {:induction false} IdsNonEmpty(t: ItemType, items: seq<Item>)
    ensures "" !in Ids(t, items)
  {
    if items != [] {
      IdsNonEmpty(t, items[..|items| - 1]);
    }
  }

  /** On any input the filter leaves matching call and output ids, and never makes the list heavier. */
  lemma OrphanFilterMatches(enc: Item -> nat, items: seq<Item>)
    ensures CallIds(WithoutOrphans(items)) == OutputIds(WithoutOrphans(items)) == Paired(items)
    ensures Tokens(enc, WithoutOrphans(items)) <= Tokens(enc, items)
  {
    IdsNonEmpty(FunctionCall, items);
    FilterIds(FunctionCall, Paired(items), items);
    FilterIds(FunctionCallOutput, Paired(items), items);
    FilterTokens(enc, Paired(items), items);
  }

  lemma MemberOfLast(front: seq<Item>, last: Item, x: Item)
    ensures multiset(front + [last])[x] == multiset(front)[x] + if x == last then 1 else 0
    ensures front + [] == front
  {
  }

  lemma KeepsByFields(paired: set<string>, x: Item)
    ensures Keeps(paired, x) <==> x.itemType in {FunctionCall, FunctionCallOutput} ==> ToolCallId(x) in paired
  {
  }

  /** The filter keeps every copy of what is no tool item, or has an id that a call and an output carry, and nothing else. */
  lemma {:induction false} OrphansAreExact(paired: set<string>, items: seq<Item>, x: Item)
    ensures multiset(Filter(paired, items))[x]
            == if x.itemType in {FunctionCall, FunctionCallOutput} && ToolCallId(x) !in paired then 0 else multiset(items)[x]
  {
    hide Keeps;
    if items != [] {
      var front, last := items[..|items| - 1], items[|items| - 1];
      OrphansAreExact(paired, front, x);
      assert items == front + [last];
      KeepsByFields(paired, last);
      MemberOfLast(front, last, x);
      MemberOfLast(Filter(paired, front), last, x);
    }
  }

  lemma {:induction false} FilterKeepsAll(paired: set<string>, items: seq<Item>)
    requires forall x :: x in items ==> Keeps(paired, x)
    ensures Filter(paired, items) == items
  {
    if items != [] {
      FilterKeepsAll(paired, items[..|items| - 1]);
      assert items == items[..|items| - 1] + [items[|items| - 1]];
    }
  }

  /** Every tool item has its own id, and each output follows its call: the shape the SDK produces. */
  predicate PairComplete(items: seq<Item>) {
    && UniqueIds(items)
    && CallIds(items) == OutputIds(items)
    && forall n :: 0 <= n <= |items| ==> OutputIds(items[..n]) <= CallIds(items[..n])
  }

  predicate UniqueIds(items: seq<Item>) {
    items == [] ||
    (var front, x := items[..|items| - 1], items[|items| - 1];
     && UniqueIds(front)
     && (IsToolItem(x) ==> ToolCallId(x) != "")
     && (x.itemType.FunctionCall? ==> ToolCallId(x) !in CallIds(front))
     && (x.itemType.FunctionCallOutput? ==> ToolCallId(x) !in OutputIds(front)))
  }

  lemma {:induction false} UniqueParts(a: seq<Item>, b: seq<Item>)
    requires UniqueIds(a + b)
    ensures CallIds(a) !! CallIds(b) && OutputIds(a) !! OutputIds(b)
  {
    if b != [] {
      var front, x := b[..|b| - 1], b[|b| - 1];
      assert (a + b)[..|a + b| - 1] == a + front && (a + b)[|a + b| - 1] == x;
      UniqueParts(a, front);
      BothIdsAppend(a, front);
    }
  }

  /** Every tool item of the second part carries an id of its own kind. */
  lemma {:induction false} UniqueCarries(a: seq<Item>, b: seq<Item>)
    requires UniqueIds(a + b)
    ensures forall x :: x in b && IsToolItem(x) ==> ToolCallId(x) in CallIds(b) + OutputIds(b)
  {
    if b != [] {
      var front, x := b[..|b| - 1], b[|b| - 1];
      assert (a + b)[..|a + b| - 1] == a + front && (a + b)[|a + b| - 1] == x;
      UniqueCarries(a, front);
      assert forall y :: y in b ==> y in front || y == x;
    }
  }

  /** When the calls of `head` are answered in `head`, the calls and outputs of `suffix` match. */
  lemma SuffixMatches(head: seq<Item>, suffix: seq<Item>)
    requires PairComplete(head + suffix) && CallIds(head) <= OutputIds(head)
    ensures CallIds(suffix) == OutputIds(suffix)
  {
    hide UniqueIds;
    UniqueParts(head, suffix);
    BothIdsAppend(head, suffix);
    assert (head + suffix)[..|head|] == head;
  }

  /** On pair-complete input the filter removes nothing from any suffix of whole chunks. */
  lemma ChunkSuffixHasNoOrphans(lead: seq<Item>, items: seq<Item>, k: nat)
    requires PairComplete(items) && k <= |Split([], items)|
    requires forall x :: x in lead ==> !IsToolItem(x)
    ensures var suffix := Flatten(Split([], items)[k..]);
            WithoutOrphans(lead + suffix) == lead + suffix
  {
    hide PairComplete, IsChunk, OpenCalls, Split;
    var head, suffix := SplitAt(items, k);
    if suffix != [] {
      SuffixMatches(head, suffix);
    }
    PairCompleteCarries(head, suffix);
    BothIdsAppend(lead, suffix);
    NoToolIds(lead);
    forall x | x in lead + suffix
      ensures Keeps(Paired(lead + suffix), x)
    {
    }
    FilterKeepsAll(Paired(lead + suffix), lead + suffix);
  }

  lemma PairCompleteCarries(head: seq<Item>, suffix: seq<Item>)
    requires PairComplete(head + suffix)
    ensures forall x :: x in suffix && IsToolItem(x) ==> ToolCallId(x) in CallIds(suffix) + OutputIds(suffix)
  {
    UniqueCarries(head, suffix);
  }

  lemma SplitAt(items: seq<Item>, k: nat) returns (head: seq<Item>, suffix: seq<Item>)
    requires k <= |Split([], items)|
    ensures items == head + suffix && suffix == Flatten(Split([], items)[k..])
    ensures suffix != [] ==> CallIds(head) <= OutputIds(head)
  {
    hide IsChunk, CallIds, OutputIds;
    var chunks := Split([], items);
    head, suffix := Flatten(chunks[..k]), Flatten(chunks[k..]);
    NothingOpen();
    ChunksNeverSplitACall([], items);
    assert chunks == chunks[..k] + chunks[k..] && [] + items == items;
    FlattenAppend(chunks[..k], chunks[k..]);
    if k < |chunks| {
      ClosedChunksAnswerCalls(chunks[..k]);
    }
  }

  lemma {:induction false} NoToolIds(items: seq<Item>)
    requires forall x :: x in items ==> !IsToolItem(x)
    ensures CallIds(items) == {} && OutputIds(items) == {}
  {
    if items != [] {
      assert !IsToolItem(items[|items| - 1]);
      NoToolIds(items[..|items| - 1]);
    }
  }

  lemma {:induction false} ClosedChunksAnswerCalls(chunks: seq<seq<Item>>)
    requires forall i :: 0 <= i < |chunks| ==> OpenCalls(chunks[i]) == {}
    ensures CallIds(Flatten(chunks)) <= OutputIds(Flatten(chunks))
  {
    if chunks != [] {
      CallsAreOpenOrAnswered(chunks[0]);
      ClosedChunksAnswerCalls(chunks[1..]);
      BothIdsAppend(chunks[0], Flatten(chunks[1..]));
    }
  }

  // ----- Pruning and the budget of one call -----

  const NOTICE := Item(Message, User, "", "", NOTICE_TEXT)

  function InstructionTokens(enc: Item -> nat, instructions: string): nat {
    if instructions == "" then 0 else Tokens(enc, [Item(Message, OtherRole, "", "", instructions)])
  }

  function Anchor(items: seq<Item>): seq<Item> {
    if items != [] && IsContextSummary(items[0]) then [items[0]] else []
  }

  function Tail(items: seq<Item>): seq<Item> {
    items[|Anchor(items)|..]
  }

  /** The summary is kept when it leaves room for anything beside the notice. */
  function KeptAnchor(enc: Item -> nat, items: seq<Item>, budget: int): seq<Item> {
    if budget - Tokens(enc, Anchor(items)) - Tokens(enc, [NOTICE]) > 0 then Anchor(items) else []
  }

  function SuffixBudget(enc: Item -> nat, items: seq<Item>, budget: int): nat {
    var room := budget - Tokens(enc, KeptAnchor(enc, items, budget)) - Tokens(enc, [NOTICE]);
    if room > 0 then room else 0
  }

  function TailChunks(enc: Item -> nat, items: seq<Item>): seq<Chunk> {
    Measured(enc, Split([], Tail(items)))
  }

  /** The newest chunk alone is too large: nothing useful can be sent. */
  predicate NewestTooLarge(enc: Item -> nat, items: seq<Item>, budget: int) {
    var chunks := TailChunks(enc, items);
    chunks != [] && chunks[|chunks| - 1].tokens > SuffixBudget(enc, items, budget)
  }

  /** What pruning returns when it leaves out the first `k` chunks of the tail. */
  function PrunedTo(enc: Item -> nat, items: seq<Item>, budget: int, k: nat): seq<Item>
    requires k <= |TailChunks(enc, items)|
  {
    WithoutOrphans(KeptAnchor(enc, items, budget) + (if k > 0 then [NOTICE] else [])
                   + ItemsOf(TailChunks(enc, items)[k..]))
  }

  lemma {:induction false} ChunksHaveWeight(enc: Item -> nat, chunks: seq<seq<Item>>)
    requires forall i :: 0 <= i < |chunks| ==> chunks[i] != []
    ensures forall c :: c in Measured(enc, chunks) ==> c.tokens >= 4 && c.items != []
  {
    forall i | 0 <= i < |chunks|
      ensures Tokens(enc, chunks[i]) >= 4
    {
    }
  }

  /** The last chunk decides whether any chunk is selected. */
  lemma NewestDecides(chunks: seq<Chunk>, budget: nat, k: nat)
    requires FewestOmitted(chunks, budget, k) && chunks != []
    ensures k <= |chunks|
    ensures k == |chunks| <==> chunks[|chunks| - 1].tokens > budget
  {
    assert chunks[|chunks| - 1..] == [chunks[|chunks| - 1]];
    assert Cost(chunks[|chunks| - 1..]) == chunks[|chunks| - 1].tokens;
    if k < |chunks| {
      CostShrinks(chunks, k, |chunks| - 1);
    }
  }

  /** Whatever pruning selects is within the item budget. */
  lemma PrunedFits(enc: Item -> nat, items: seq<Item>, budget: int, k: nat)
    requires budget > 0
    requires FewestOmitted(TailChunks(enc, items), SuffixBudget(enc, items, budget), k)
    requires k > 0 ==> k < |TailChunks(enc, items)|
    ensures Tokens(enc, PrunedTo(enc, items, budget, k)) <= budget
  {
    var anchor, suffix := KeptAnchor(enc, items, budget), ItemsOf(TailChunks(enc, items)[k..]);
    var notice := if k > 0 then [NOTICE] else [];
    ChunksNeverSplitACall([], Tail(items));
    ChunksHaveWeight(enc, Split([], Tail(items)));
    MeasuredItems(enc, Split([], Tail(items)), k);
    TokensAppend(enc, anchor + notice, suffix);
    TokensAppend(enc, anchor, notice);
    OrphanFilterMatches(enc, anchor + notice + suffix);
    if k < |TailChunks(enc, items)| {
      assert TailChunks(enc, items)[k] in TailChunks(enc, items);
      assert Cost(TailChunks(enc, items)[k..]) >= TailChunks(enc, items)[k].tokens;
    } else {
      assert suffix == [];
    }
  }

  lemma WholeCost(enc: Item -> nat, items: seq<Item>)
    ensures Tokens(enc, items) == Tokens(enc, Anchor(items)) + Cost(TailChunks(enc, items))
    ensures Cost(TailChunks(enc, items)) == 0 ==> items == Anchor(items)
    ensures TailChunks(enc, items) == [] <==> items == Anchor(items)
  {
    var chunks := Split([], Tail(items));
    assert Flatten(chunks) == Tail(items) by {
      ChunksNeverSplitACall([], Tail(items));
      assert [] + Tail(items) == Tail(items);
    }
    MeasuredItems(enc, chunks, 0);
    assert chunks[0..] == chunks && TailChunks(enc, items)[0..] == TailChunks(enc, items);
    assert items == Anchor(items) + Tail(items);
    TokensAppend(enc, Anchor(items), Tail(items));
  }

  lemma {:induction false} FilterLead(paired: set<string>, lead: seq<Item>, rest: seq<Item>)
    requires forall x :: x in lead ==> !IsToolItem(x)
    ensures Filter(paired, lead + rest) == lead + Filter(paired, rest)
  {
    if rest == [] {
      assert lead + rest == lead;
      FilterKeepsAll(paired, lead);
    } else {
      assert (lead + rest)[..|lead + rest| - 1] == lead + rest[..|rest| - 1];
      FilterLead(paired, lead, rest[..|rest| - 1]);
    }
  }

  /** The result is the kept summary, the notice if anything was left out, and what the filter leaves of the rest. */
  lemma PrunedShape(enc: Item -> nat, items: seq<Item>, budget: int, k: nat)
    requires k <= |TailChunks(enc, items)|
    ensures PrunedTo(enc, items, budget, k)
            == KeptAnchor(enc, items, budget) + (if k > 0 then [NOTICE] else [])
               + WithoutOrphans(ItemsOf(TailChunks(enc, items)[k..]))
  {
    var lead := KeptAnchor(enc, items, budget) + (if k > 0 then [NOTICE] else []);
    var suffix := ItemsOf(TailChunks(enc, items)[k..]);
    NoToolIds(lead);
    BothIdsAppend(lead, suffix);
    assert Paired(lead + suffix) == Paired(suffix);
    FilterLead(Paired(suffix), lead, suffix);
  }

  /**
   When the input is too large, a kept summary always comes with the omission notice right behind it: too much input
   means omitted chunks. Whatever was left out, the notice stands before the first retained item.
   */
  lemma KeptAnchorHasNotice(enc: Item -> nat, items: seq<Item>, budget: int, k: nat)
    requires Tokens(enc, items) > budget > 0
    requires FewestOmitted(TailChunks(enc, items), SuffixBudget(enc, items, budget), k)
    ensures KeptAnchor(enc, items, budget) == Anchor(items) ==>
              k > 0 && Anchor(items) + [NOTICE] <= PrunedTo(enc, items, budget, k)
    ensures k > 0 ==> KeptAnchor(enc, items, budget) + [NOTICE] <= PrunedTo(enc, items, budget, k)
    ensures k == 0 ==> PrunedTo(enc, items, budget, k) == WithoutOrphans(Tail(items))
  {
    WholeCost(enc, items);
    assert TailChunks(enc, items)[0..] == TailChunks(enc, items);
    PrunedShape(enc, items, budget, k);
    if k == 0 {
      ChunksNeverSplitACall([], Tail(items));
      MeasuredItems(enc, Split([], Tail(items)), 0);
      assert [] + Tail(items) == Tail(items) && Split([], Tail(items))[0..] == Split([], Tail(items));
    }
  }

  /** The list starts with the summary of an earlier compaction. */
  predicate StartsWithSummary(items: seq<Item>) {
    items != [] && items[0].itemType.Message? && items[0].role.User? && items[0].id == "context_summary"
  }

  /**
   * The summary that a too large input starts with is kept, with the notice behind it, exactly when the two leave room
   * for anything else. Whole chunks of the rest are taken from the end as long as they fit beside them, and the newest
   * is too large exactly when it alone does not fit.
   */
  lemma SummaryAndSuffix(enc: Item -> nat, items: seq<Item>, budget: int, k: nat)
    requires budget > 0 && FewestOmitted(TailChunks(enc, items), SuffixBudget(enc, items, budget), k)
    ensures var summary := if StartsWithSummary(items) then [items[0]] else [];
            var kept := if budget > Tokens(enc, summary) + Tokens(enc, [NOTICE]) then summary else [];
            var chunks := TailChunks(enc, items);
            var room := budget - Tokens(enc, kept) - Tokens(enc, [NOTICE]);
            && Anchor(items) == summary && KeptAnchor(enc, items, budget) == kept
            && k <= |chunks|
            && (chunks != [] && room >= 0 ==> (NewestTooLarge(enc, items, budget) <==> chunks[|chunks| - 1].tokens > room))
            && (chunks != [] && room < 0 ==> NewestTooLarge(enc, items, budget))
            && (k < |chunks| ==> Cost(chunks[k..]) <= room)
            && (forall j :: 0 <= j < k ==> Cost(chunks[j..]) > room)
  {
    hide Tokens, Measured, Split, Cost, Tail;
    var chunks := TailChunks(enc, items);
    ChunksAreHeavy(enc, items);
    if k < |chunks| {
      CostOfFirst(chunks, k);
      assert chunks[k] in chunks;
    }
    if chunks != [] { assert chunks[|chunks| - 1] in chunks; }
    hide TailChunks;
  }

  lemma ChunksAreHeavy(enc: Item -> nat, items: seq<Item>)
    ensures forall c :: c in TailChunks(enc, items) ==> c.tokens >= 4
  {
    hide Split, Measured, Tokens, IsChunk;
    ChunksNeverSplitACall([], Tail(items));
    ChunksHaveItems(enc, Split([], Tail(items)));
  }

  lemma ChunksHaveItems(enc: Item -> nat, chunks: seq<seq<Item>>)
    requires forall i :: 0 <= i < |chunks| ==> IsChunk(chunks[i])
    ensures forall c :: c in Measured(enc, chunks) ==> c.tokens >= 4
  {
    hide StaysOpen, Measured;
    ChunksHaveWeight(enc, chunks);
  }

  lemma CostOfFirst(chunks: seq<Chunk>, k: nat)
    requires k < |chunks|
    ensures Cost(chunks[k..]) >= chunks[k].tokens
  {
  }

  method PruneItemsToBudget(enc: Item -> nat, items: seq<Item>, budget: int) returns (r: Result, ghost k: nat)
    requires budget > 0
    ensures NewestTooLarge(enc, items, budget) ==> r == Err(LatestItemExceedsBudget)
    ensures !NewestTooLarge(enc, items, budget) ==>
              && FewestOmitted(TailChunks(enc, items), SuffixBudget(enc, items, budget), k)
              && r == Ok(PrunedTo(enc, items, budget, k))
              && Tokens(enc, r.items) <= budget
  {
    hide Split, OpenCalls, IsChunk, Filter, Ids, Measured, Cost;
    var anchor, tail := Anchor(items), Tail(items);
    var anchorTokens := Tokens(enc, anchor);
    var suffixBudget := budget - anchorTokens - Tokens(enc, [NOTICE]);
    if suffixBudget <= 0 && anchor != [] {
      anchor, anchorTokens := [], 0;
      suffixBudget := budget - anchorTokens - Tokens(enc, [NOTICE]);
    }
    assert anchor == KeptAnchor(enc, items, budget);
    var chunks := BuildChunks(enc, tail);
    var suffix, omitted := SelectRecentChunks(chunks, if suffixBudget > 0 then suffixBudget else 0);
    k := omitted;
    SelectionFacts(enc, items, budget, k);
    if suffix == [] && chunks != [] { return Err(LatestItemExceedsBudget), k; }
    var candidate := if omitted <= 0 then anchor + suffix else anchor + [NOTICE] + suffix;
    assert candidate == anchor + (if k > 0 then [NOTICE] else []) + suffix;
    PrunedFits(enc, items, budget, k);
    candidate := DropOrphanToolItems(candidate);
    if Tokens(enc, candidate) <= budget { return Ok(candidate), k; }
    if anchor != [] {
      candidate := if omitted > 0 then [NOTICE] + suffix else suffix;
      candidate := DropOrphanToolItems(candidate);
      if Tokens(enc, candidate) <= budget { return Ok(candidate), k; }
    }
    return Err(ExceedsBudgetAfterContextPruning), k;
  }

  lemma NewestOmitted(enc: Item -> nat, items: seq<Item>, budget: int, k: nat)
    requires FewestOmitted(TailChunks(enc, items), SuffixBudget(enc, items, budget), k)
    ensures var chunks := TailChunks(enc, items);
            k <= |chunks| && (NewestTooLarge(enc, items, budget) <==> chunks != [] && k == |chunks|)
  {
    hide SuffixBudget, TailChunks;
    var chunks := TailChunks(enc, items);
    if chunks != [] {
      NewestDecides(chunks, SuffixBudget(enc, items, budget), k);
    }
  }

  lemma SelectionFacts(enc: Item -> nat, items: seq<Item>, budget: int, k: nat)
    requires FewestOmitted(TailChunks(enc, items), SuffixBudget(enc, items, budget), k)
    ensures var chunks := TailChunks(enc, items);
            && (ItemsOf(chunks[k..]) == [] <==> k == |chunks|)
            && (NewestTooLarge(enc, items, budget) <==> chunks != [] && k == |chunks|)
  {
    hide SuffixBudget, FewestOmitted;
    NewestOmitted(enc, items, budget, k);
    var chunks := TailChunks(enc, items);
    assert forall c :: c in chunks ==> c.items != [] by {
      ChunksNeverSplitACall([], Tail(items));
      ChunksHaveWeight(enc, Split([], Tail(items)));
    }
    if k < |chunks| {
      assert chunks[k..][0] in chunks;
      assert chunks[k..][0].items + ItemsOf(chunks[k..][1..]) == ItemsOf(chunks[k..]);
    }
  }

  /**
   The whole filter. Input that fits is returned unchanged. Otherwise the call fails exactly when the
   instructions leave no room or the newest chunk does not fit, and never after pruning; when it succeeds,
   the result fits, keeps the longest suffix of whole chunks that fits beside the kept summary and the notice, and
   shows the notice whenever chunks were left out, in particular whenever the summary was kept.
   */
  method ConstrainModelInput(enc: Item -> nat, items: seq<Item>, instructions: string, budget: int)
    returns (r: Result, ghost k: nat)
    ensures Tokens(enc, items) + InstructionTokens(enc, instructions) <= budget ==> r == Ok(items)
    ensures r.Ok? ==> Tokens(enc, r.items) + InstructionTokens(enc, instructions) <= budget
    ensures var room := budget - InstructionTokens(enc, instructions);
            Tokens(enc, items) > room ==>
              && (r == Err(InstructionsExceedBudget) <==> room <= 0)
              && (r == Err(LatestItemExceedsBudget) <==> room > 0 && NewestTooLarge(enc, items, room))
              && (r.Ok? <==> room > 0 && !NewestTooLarge(enc, items, room))
              && (r.Ok? ==>
                    && FewestOmitted(TailChunks(enc, items), SuffixBudget(enc, items, room), k)
                    && r.items == PrunedTo(enc, items, room, k)
                    && (KeptAnchor(enc, items, room) == Anchor(items) ==> Anchor(items) + [NOTICE] <= r.items))
  {
    k := 0;
    var instructionTokens := InstructionTokens(enc, instructions);
    if Tokens(enc, items) + instructionTokens <= budget { return Ok(items), 0; }
    var itemBudget := budget - instructionTokens;
    if itemBudget <= 0 { return Err(InstructionsExceedBudget), 0; }
    r, k := PruneItemsToBudget(enc, items, itemBudget);
    if r.Err? { return; }
    if Tokens(enc, r.items) + instructionTokens > budget { return Err(ExceedsBudgetAfterPruning), k; }
    KeptAnchorHasNotice(enc, items, itemBudget, k);
  }

  // ----- The budget itself -----

  /** Truncation of a non-negative product, as the source's integer conversion does. */
  function Truncate(x: real): int
    requires x >= 0.0
  {
    x.Floor
  }

  /** What is left for the answer: a tenth of the window, at least one token and at most the fixed slack. */
  function Slack(window: int): (slack: int)
    requires window > 0
    ensures 1 <= slack <= MIN_COMPLETION_SLACK_TOKENS && (slack > 1 ==> 10 * slack <= window)
    ensures slack < MIN_COMPLETION_SLACK_TOKENS ==> 10 * (slack + 1) > window
  {
    var tenth := if window / 10 > 1 then window / 10 else 1;
    if tenth < MIN_COMPLETION_SLACK_TOKENS then tenth else MIN_COMPLETION_SLACK_TOKENS
  }

  /**
   * The input budget of a context window: at least one token, and otherwise the largest that stays within the ratio and
   * leaves the slack.
   */
  function InputBudget(window: int, ratio: real): (budget: int)
    requires window > 0 && 0.0 < ratio < 1.0
    ensures 1 <= budget && (window > 1 ==> budget < window)
    ensures window >= 10 * MIN_COMPLETION_SLACK_TOKENS ==> budget + MIN_COMPLETION_SLACK_TOKENS <= window
    ensures budget > 1 ==> budget as real <= window as real * ratio && budget <= window - Slack(window)
    ensures (budget + 1) as real > window as real * ratio || budget + 1 > window - Slack(window)
  {
    var ratioBudget := Truncate(window as real * ratio);
    var slack := Slack(window);
    var hard := if window - slack > 1 then window - slack else 1;
    var budget := if ratioBudget < hard then ratioBudget else hard;
    if budget > 1 then budget else 1
  }
}
