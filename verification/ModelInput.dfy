/**
 From the conversation to one model call: pruning to the budget (core/conversation/context_budget.py), then the
 provider adapter (core/agent/model_input.py).
 */
module ModelInput {
  import opened Items
  import opened ContextBudget
  import opened ToolTransactions

  /** The identity of internal context items stays inside the application. */
  function Strip(item: Item): Item {
    if IsInternalContext(item) then item.(id := "") else item
  }

  function Stripped(items: seq<Item>): seq<Item> {
    if items == [] then [] else Stripped(items[..|items| - 1]) + [Strip(items[|items| - 1])]
  }

  /** Item by item nothing changes but the id of internal context, which is gone. */
  lemma {:induction false} OnlyInternalIdsGo(items: seq<Item>)
    ensures |Stripped(items)| == |items|
    ensures forall i :: 0 <= i < |items| ==>
              Stripped(items)[i] == if items[i].itemType.Message? && items[i].role.User?
                                       && items[i].id in {"context_summary", "task_resumption_context"}
                                    then items[i].(id := "") else items[i]
  {
    if items != [] {
      OnlyInternalIdsGo(items[..|items| - 1]);
    }
  }

  lemma {:induction false} OrdinaryMembers(items: seq<Item>, x: Item)
    requires IsOrdinary(x)
    ensures x in OrdinaryOf(items) <==> x in items
  {
    hide IsOrdinary;
    if items != [] {
      OrdinaryMembers(items[..|items| - 1], x);
      assert items == items[..|items| - 1] + [items[|items| - 1]];
    }
  }

  /** No item that reaches the provider can be told to be internal context. */
  lemma NothingInternalLeaves(items: seq<Item>, x: Item)
    requires x in Normalize(Stripped(items))
    ensures !(x.itemType.Message? && x.role.User? && x.id in {"context_summary", "task_resumption_context"})
  {
    if IsInternalContext(x) {
      OrdinaryOrderIsKept(Stripped(items));
      OrdinaryMembers(Normalize(Stripped(items)), x);
      OrdinaryMembers(Stripped(items), x);
      OnlyInternalIdsGo(items);
      hide Normalize, Stripped, OrdinaryOf;
    }
  }

  method Adapt(items: seq<Item>) returns (out: seq<Item>)
    ensures out == Normalize(Stripped(items))
    ensures forall x :: x in out ==> !IsInternalContext(x)
  {
    forall x | x in Normalize(Stripped(items)) { NothingInternalLeaves(items, x); }
    var providerItems := [];
    for i := 0 to |items|
      invariant providerItems == Stripped(items[..i])
    {
      assert items[..i + 1][..i] == items[..i];
      providerItems := providerItems + [Strip(items[i])];
    }
    assert items[..|items|] == items;
    var normalizer := new ToolTransactionNormalizer(providerItems);
    out := normalizer.Run();
  }

  // ----- Pair-completeness of parts -----

  lemma {:induction false} UniqueSuffix(head: seq<Item>, suffix: seq<Item>)
    requires UniqueIds(head + suffix)
    ensures UniqueIds(suffix)
  {
    if suffix != [] {
      var front, x := suffix[..|suffix| - 1], suffix[|suffix| - 1];
      assert (head + suffix)[..|head + suffix| - 1] == head + front && (head + suffix)[|head + suffix| - 1] == x;
      UniqueSuffix(head, front);
      BothIdsAppend(head, front);
    }
  }

  /** Behind a part whose calls are all answered, a pair-complete list is pair-complete again. */
  lemma SuffixIsPairComplete(head: seq<Item>, suffix: seq<Item>)
    requires PairComplete(head + suffix) && CallIds(head) <= OutputIds(head)
    ensures PairComplete(suffix)
  {
    hide UniqueIds;
    UniqueSuffix(head, suffix);
    SuffixMatches(head, suffix);
    UniqueParts(head, suffix);
    forall n | 0 <= n <= |suffix|
      ensures OutputIds(suffix[..n]) <= CallIds(suffix[..n])
    {
      assert (head + suffix)[..|head| + n] == head + suffix[..n] && suffix == suffix[..n] + suffix[n..];
      BothIdsAppend(head, suffix[..n]);
      BothIdsAppend(suffix[..n], suffix[n..]);
    }
  }

  lemma {:induction false} UniqueBehindLead(lead: seq<Item>, rest: seq<Item>)
    requires UniqueIds(rest) && forall x :: x in lead ==> !IsToolItem(x)
    ensures UniqueIds(lead + rest)
  {
    if rest != [] {
      var front := rest[..|rest| - 1];
      assert (lead + rest)[..|lead + rest| - 1] == lead + front;
      UniqueBehindLead(lead, front);
      NoToolIds(lead);
      BothIdsAppend(lead, front);
    } else {
      assert lead + rest == lead;
      NoIdsAreUnique(lead);
    }
  }

  lemma {:induction false} NoIdsAreUnique(items: seq<Item>)
    requires forall x :: x in items ==> !IsToolItem(x)
    ensures UniqueIds(items)
  {
    if items != [] {
      assert !IsToolItem(items[|items| - 1]);
      NoIdsAreUnique(items[..|items| - 1]);
    }
  }

  /** Items that are no tool items do not matter in front of a pair-complete list. */
  lemma LeadIsPairComplete(lead: seq<Item>, rest: seq<Item>)
    requires PairComplete(rest) && forall x :: x in lead ==> !IsToolItem(x)
    ensures PairComplete(lead + rest)
  {
    hide UniqueIds;
    UniqueBehindLead(lead, rest);
    NoToolIds(lead);
    BothIdsAppend(lead, rest);
    forall n | 0 <= n <= |lead + rest|
      ensures OutputIds((lead + rest)[..n]) <= CallIds((lead + rest)[..n])
    {
      if n <= |lead| {
        assert (lead + rest)[..n] == lead[..n];
        NoToolIds(lead[..n]);
      } else {
        assert (lead + rest)[..n] == lead + rest[..n - |lead|];
        BothIdsAppend(lead, rest[..n - |lead|]);
      }
    }
  }

  lemma {:induction false} StrippedIds(t: ItemType, items: seq<Item>)
    requires t.FunctionCall? || t.FunctionCallOutput?
    ensures |Stripped(items)| == |items| && Ids(t, Stripped(items)) == Ids(t, items)
  {
    if items != [] {
      StrippedIds(t, items[..|items| - 1]);
    }
  }

  lemma {:induction false} StrippedPrefix(items: seq<Item>, n: nat)
    requires n <= |items|
    ensures |Stripped(items)| == |items| && Stripped(items)[..n] == Stripped(items[..n])
  {
    if items != [] && n < |items| {
      StrippedPrefix(items[..|items| - 1], n);
      assert items[..|items| - 1][..n] == items[..n];
      StrippedIds(FunctionCall, items);
    } else {
      StrippedIds(FunctionCall, items);
      assert items[..n] == items;
    }
  }

  lemma {:induction false} StrippedUnique(items: seq<Item>)
    requires UniqueIds(items)
    ensures UniqueIds(Stripped(items))
  {
    if items != [] {
      StrippedUnique(items[..|items| - 1]);
      StrippedIds(FunctionCall, items[..|items| - 1]);
      StrippedIds(FunctionCallOutput, items[..|items| - 1]);
    }
  }

  lemma StrippedIsPairComplete(items: seq<Item>)
    requires PairComplete(items)
    ensures PairComplete(Stripped(items))
  {
    hide UniqueIds, Stripped;
    StrippedUnique(items);
    StrippedIds(FunctionCall, items);
    StrippedIds(FunctionCallOutput, items);
    forall n | 0 <= n <= |items|
      ensures OutputIds(Stripped(items)[..n]) <= CallIds(Stripped(items)[..n])
    {
      StrippedPrefix(items, n);
      StrippedIds(FunctionCall, items[..n]);
      StrippedIds(FunctionCallOutput, items[..n]);
    }
  }

  // ----- The two together -----

  lemma PrunedSuffix(items: seq<Item>, k: nat)
    requires PairComplete(items) && k <= |Split([], Tail(items))|
    ensures PairComplete(Tail(items)) && PairComplete(Flatten(Split([], Tail(items))[k..]))
  {
    hide UniqueIds, Split, Flatten, OpenCalls;
    assert items == Anchor(items) + Tail(items);
    NoToolIds(Anchor(items));
    SuffixIsPairComplete(Anchor(items), Tail(items));
    var head, suffix := SplitAt(Tail(items), k);
    if suffix == [] {
      NoIdsAreUnique([]);
      NoToolIds([]);
    } else {
      SuffixIsPairComplete(head, suffix);
    }
  }

  /**
   Pruning a pair-complete history to its last chunks, however many, and adapting the result for the provider loses no
   call and no output: the filter removes nothing, and the provider gets a permutation of what pruning selected,
   stripped of internal ids and empty assistant messages.
   */
  lemma PrunedInputLosesNothing(enc: Item -> nat, items: seq<Item>, budget: int, k: nat)
    requires PairComplete(items) && k <= |TailChunks(enc, items)|
    ensures var pruned := PrunedTo(enc, items, budget, k);
            && pruned == KeptAnchor(enc, items, budget) + (if k > 0 then [NOTICE] else [])
                         + ItemsOf(TailChunks(enc, items)[k..])
            && PairComplete(pruned)
            && multiset(Normalize(Stripped(pruned))) == multiset(Visible(Stripped(pruned)))
  {
    hide UniqueIds, PairComplete, Stripped, Normalize, Visible, Split;
    var pruned := PrunedTo(enc, items, budget, k);
    var lead := KeptAnchor(enc, items, budget) + (if k > 0 then [NOTICE] else []);
    var suffix := ItemsOf(TailChunks(enc, items)[k..]);
    MeasuredItems(enc, Split([], Tail(items)), k);
    PrunedSuffix(items, k);
    ChunkSuffixHasNoOrphans(lead, Tail(items), k);
    LeadIsPairComplete(lead, suffix);
    StrippedIsPairComplete(lead + suffix);
    NothingIsLost(Stripped(lead + suffix));
  }
}
