/**
 Grouping of tool calls with their outputs at the provider boundary (core/agent/model_input.py).
 The classes follow the source object by object; each method is proved against the state
 functions below, and the laws of the normaliser are lemmas about those.
 */
module ToolTransactions {
  import opened Items
  import opened ContextBudget

  /** The abstract value of a `ToolTransaction` object. */
  datatype Transaction = Transaction(calls: seq<Item>, ids: seq<string>, outputs: map<string, Item>, deferred: seq<Item>)

  /** The abstract value of a normaliser. */
  datatype State = State(normalized: seq<Item>, transaction: Transaction)

  const FRESH := Transaction([], [], map[], [])

  /** An assistant message without visible text. */
  predicate IsEmptyAssistant(item: Item) {
    item.itemType.Message? && item.role.Assistant? && IsBlank(item.text)
  }

  predicate IsBlank(text: string) {
    forall i :: 0 <= i < |text| ==> IsSpace(text[i])
  }

  /** The characters that stripping removes. */
  predicate IsSpace(c: char) {
    || '\t' <= c <= '\r' || '\U{1C}' <= c <= ' ' || c == '\U{85}' || c == '\U{A0}' || c == '\U{1680}'
    || '\U{2000}' <= c <= '\U{200A}' || c == '\U{2028}' || c == '\U{2029}' || c == '\U{202F}'
    || c == '\U{205F}' || c == '\U{3000}'
  }

  predicate Accepts(t: Transaction, id: string) {
    id != "" && id !in t.outputs && id !in t.ids
  }

  predicate Answers(t: Transaction, id: string) {
    id in t.ids && id !in t.outputs
  }

  predicate Complete(t: Transaction) {
    t.ids != [] && forall id :: id in t.ids ==> id in t.outputs
  }

  /** The outputs received so far, in call order. */
  function Answered(ids: seq<string>, outputs: map<string, Item>): seq<Item> {
    if ids == [] then [] else Given(ids[0], outputs) + Answered(ids[1..], outputs)
  }

  function Given(id: string, outputs: map<string, Item>): seq<Item> {
    if id in outputs then [outputs[id]] else []
  }

  function Ordered(t: Transaction): seq<Item> {
    t.calls + Answered(t.ids, t.outputs) + t.deferred
  }

  function FlushIfComplete(st: State): State {
    if Complete(st.transaction) then State(st.normalized + Ordered(st.transaction), FRESH) else st
  }

  function DiscardIncomplete(st: State): State {
    if st.transaction.calls == [] then st else State(st.normalized + st.transaction.deferred, FRESH)
  }

  function WithCall(st: State, item: Item): State {
    st.(transaction := st.transaction.(calls := st.transaction.calls + [item],
                                       ids := st.transaction.ids + [ToolCallId(item)]))
  }

  function HandleCall(st: State, item: Item): State {
    var flushed := FlushIfComplete(st);
    if Accepts(flushed.transaction, ToolCallId(item)) then WithCall(flushed, item)
    else
      var discarded := DiscardIncomplete(flushed);
      if Accepts(discarded.transaction, ToolCallId(item)) then WithCall(discarded, item) else discarded
  }

  function HandleOutput(st: State, item: Item): State {
    if !Answers(st.transaction, ToolCallId(item)) then st
    else FlushIfComplete(st.(transaction := st.transaction.(outputs := st.transaction.outputs[ToolCallId(item) := item])))
  }

  function HandleRegular(st: State, item: Item): State {
    if IsEmptyAssistant(item) then st
    else if st.transaction.calls != [] then
      st.(transaction := st.transaction.(deferred := st.transaction.deferred + [item]))
    else st.(normalized := st.normalized + [item])
  }

  function Step(st: State, item: Item): State {
    match item.itemType
    case FunctionCall => HandleCall(st, item)
    case FunctionCallOutput => HandleOutput(st, item)
    case _ => HandleRegular(st, item)
  }

  function Fold(st: State, items: seq<Item>): State {
    if items == [] then st else Step(Fold(st, items[..|items| - 1]), items[|items| - 1])
  }

  function Normalize(items: seq<Item>): seq<Item> {
    DiscardIncomplete(FlushIfComplete(Fold(State([], FRESH), items))).normalized
  }

  // ----- The objects of the source -----

  class ToolTransaction {
    var calls: seq<Item>
    var callIds: seq<string>
    var outputsByCallId: map<string, Item>
    var deferredItems: seq<Item>

    constructor ()
      ensures Value() == FRESH
    {
      calls, callIds, outputsByCallId, deferredItems := [], [], map[], [];
    }

    function Value(): Transaction
      reads this
    {
      Transaction(calls, callIds, outputsByCallId, deferredItems)
    }

    method AddCall(item: Item, callId: string) returns (added: bool)
      modifies this
      ensures added == old(Accepts(Value(), callId))
      ensures Value() == if added then old(Value()).(calls := old(calls) + [item], ids := old(callIds) + [callId])
                         else old(Value())
    {
      if callId == "" || callId in outputsByCallId || callId in callIds { return false; }
      calls := calls + [item];
      callIds := callIds + [callId];
      return true;
    }

    method AddOutput(item: Item, callId: string) returns (added: bool)
      modifies this
      ensures added == old(Answers(Value(), callId))
      ensures Value() == if added then old(Value()).(outputs := old(outputsByCallId)[callId := item]) else old(Value())
    {
      if callId !in callIds || callId in outputsByCallId { return false; }
      outputsByCallId := outputsByCallId[callId := item];
      return true;
    }

    method OrderedItems() returns (items: seq<Item>)
      requires Complete(Value())
      ensures items == Ordered(Value())
    {
      var outputs := [];
      for i := 0 to |callIds|
        invariant outputs + Answered(callIds[i..], outputsByCallId) == Answered(callIds, outputsByCallId)
      {
        ghost var rest := Answered(callIds[i + 1..], outputsByCallId);
        assert callIds[i] in callIds && callIds[i..][0] == callIds[i] && callIds[i..][1..] == callIds[i + 1..];
        assert outputs + ([outputsByCallId[callIds[i]]] + rest) == (outputs + [outputsByCallId[callIds[i]]]) + rest;
        outputs := outputs + [outputsByCallId[callIds[i]]];
      }
      items := calls + outputs + deferredItems;
    }
  }

  class ToolTransactionNormalizer {
    const items: seq<Item>
    var normalized: seq<Item>
    var transaction: ToolTransaction

    constructor (items: seq<Item>)
      ensures this.items == items && Value() == State([], FRESH) && fresh(transaction)
    {
      this.items := items;
      normalized := [];
      transaction := new ToolTransaction();
    }

    function Value(): State
      reads this, transaction
    {
      State(normalized, transaction.Value())
    }

    method Run() returns (out: seq<Item>)
      requires Value() == State([], FRESH)
      modifies this, transaction
      ensures out == Normalize(items)
    {
      for i := 0 to |items|
        invariant Value() == Fold(State([], FRESH), items[..i])
        invariant transaction == old(transaction) || fresh(transaction)
      {
        assert items[..i + 1][..i] == items[..i];
        match items[i].itemType {
          case FunctionCall => TakeCall(items[i]);
          case FunctionCallOutput => TakeOutput(items[i]);
          case _ => TakeRegular(items[i]);
        }
      }
      assert items[..|items|] == items;
      Flush();
      Discard();
      out := normalized;
    }

    method TakeCall(item: Item)
      modifies this, transaction
      ensures Value() == HandleCall(old(Value()), item)
      ensures transaction == old(transaction) || fresh(transaction)
    {
      Flush();
      var added := transaction.AddCall(item, ToolCallId(item));
      if !added {
        Discard();
        added := transaction.AddCall(item, ToolCallId(item));
      }
    }

    method TakeOutput(item: Item)
      modifies this, transaction
      ensures Value() == HandleOutput(old(Value()), item)
      ensures transaction == old(transaction) || fresh(transaction)
    {
      var added := transaction.AddOutput(item, ToolCallId(item));
      if !added { return; }
      Flush();
    }

    method TakeRegular(item: Item)
      modifies this, transaction
      ensures Value() == HandleRegular(old(Value()), item)
      ensures transaction == old(transaction)
    {
      if IsEmptyAssistant(item) { return; }
      if transaction.calls != [] {
        transaction.deferredItems := transaction.deferredItems + [item];
        return;
      }
      normalized := normalized + [item];
    }

    method Flush()
      modifies this
      ensures Value() == FlushIfComplete(old(Value()))
      ensures transaction == old(transaction) || fresh(transaction)
    {
      if !Complete(transaction.Value()) { return; }
      var ordered := transaction.OrderedItems();
      normalized := normalized + ordered;
      transaction := new ToolTransaction();
    }

    method Discard()
      modifies this
      ensures Value() == DiscardIncomplete(old(Value()))
      ensures transaction == old(transaction) || fresh(transaction)
    {
      if transaction.calls == [] { return; }
      normalized := normalized + transaction.deferredItems;
      transaction := new ToolTransaction();
    }
  }

  // ----- The shape of the output -----

  predicate IsOrdinary(item: Item) {
    !IsToolItem(item) && !IsEmptyAssistant(item)
  }

  /** A block: calls with distinct non-empty ids, then one output per call in call order. */
  datatype Piece = Ordinary(item: Item) | Block(calls: seq<Item>, outputs: seq<Item>)

  ghost predicate ValidCalls(calls: seq<Item>) {
    && (forall i :: 0 <= i < |calls| ==> calls[i].itemType.FunctionCall? && ToolCallId(calls[i]) != "")
    && forall i, j :: 0 <= i < j < |calls| ==> ToolCallId(calls[i]) != ToolCallId(calls[j])
  }

  ghost predicate ValidPiece(p: Piece) {
    match p
    case Ordinary(item) => IsOrdinary(item)
    case Block(calls, outputs) =>
      && calls != [] && |outputs| == |calls| && ValidCalls(calls)
      && forall i :: 0 <= i < |calls| ==>
           outputs[i].itemType.FunctionCallOutput? && ToolCallId(outputs[i]) == ToolCallId(calls[i])
  }

  function PieceItems(p: Piece): seq<Item> {
    match p
    case Ordinary(item) => [item]
    case Block(calls, outputs) => calls + outputs
  }

  function PiecesItems(ps: seq<Piece>): seq<Item> {
    if ps == [] then [] else PiecesItems(ps[..|ps| - 1]) + PieceItems(ps[|ps| - 1])
  }

  ghost predicate ValidPieces(ps: seq<Piece>) {
    forall i :: 0 <= i < |ps| ==> ValidPiece(ps[i])
  }

  ghost predicate Grouped(items: seq<Item>) {
    exists ps :: ValidPieces(ps) && PiecesItems(ps) == items
  }

  /** What holds of the open transaction between two items of the loop. */
  ghost predicate Consistent(t: Transaction) {
    && ValidCalls(t.calls)
    && |t.ids| == |t.calls| && (forall i :: 0 <= i < |t.ids| ==> t.ids[i] == ToolCallId(t.calls[i]))
    && (forall id :: id in t.outputs ==>
          id in t.ids && t.outputs[id].itemType.FunctionCallOutput? && ToolCallId(t.outputs[id]) == id)
    && (forall x :: x in t.deferred ==> IsOrdinary(x))
    && (t.calls == [] ==> t.deferred == [])
  }

  ghost predicate Healthy(st: State) {
    Consistent(st.transaction) && !Complete(st.transaction) && Grouped(st.normalized)
  }

  lemma {:induction false} PiecesAppend(a: seq<Piece>, b: seq<Piece>)
    ensures PiecesItems(a + b) == PiecesItems(a) + PiecesItems(b)
  {
    hide PieceItems;
    if b == [] {
      assert a + b == a;
    } else {
      var front, last := b[..|b| - 1], b[|b| - 1];
      PiecesAppend(a, front);
      PiecesOfLast(a + front, last);
      PiecesOfLast(front, last);
      assert a + b == (a + front) + [last] && b == front + [last];
    }
  }

  lemma PiecesOfLast(front: seq<Piece>, last: Piece)
    ensures PiecesItems(front + [last]) == PiecesItems(front) + PieceItems(last)
  {
    hide PieceItems;
    assert (front + [last])[..|front + [last]| - 1] == front;
  }

  lemma GroupedAppend(a: seq<Item>, b: seq<Item>)
    ensures Grouped(a) && Grouped(b) ==> Grouped(a + b)
  {
    if Grouped(a) && Grouped(b) {
      var p :| ValidPieces(p) && PiecesItems(p) == a;
      var q :| ValidPieces(q) && PiecesItems(q) == b;
      PiecesAppend(p, q);
      assert ValidPieces(p + q);
    }
  }

  lemma GroupedPiece(p: Piece)
    requires ValidPiece(p)
    ensures Grouped(PieceItems(p))
  {
    assert [p][..0] == [];
    assert PiecesItems([p]) == [] + PieceItems(p);
    assert ValidPieces([p]);
  }

  lemma OrdinaryPiece(item: Item)
    requires IsOrdinary(item)
    ensures Grouped([item])
  {
    GroupedPiece(Ordinary(item));
  }

  lemma {:induction false} GroupedOrdinary(items: seq<Item>)
    requires forall x :: x in items ==> IsOrdinary(x)
    ensures Grouped(items)
  {
    hide Grouped, IsOrdinary;
    if items == [] {
      NothingGrouped();
    } else {
      var front, last := items[..|items| - 1], items[|items| - 1];
      assert items == front + [last] && last in items;
      GroupedOrdinary(front);
      OrdinaryPiece(last);
      GroupedAppend(front, [last]);
    }
  }

  lemma NothingGrouped()
    ensures Grouped([])
  {
    assert ValidPieces([]) && PiecesItems([]) == [];
  }

  lemma {:induction false} AnsweredAll(ids: seq<string>, outputs: map<string, Item>)
    requires forall id :: id in ids ==> id in outputs
    ensures |Answered(ids, outputs)| == |ids|
    ensures forall i :: 0 <= i < |ids| ==> Answered(ids, outputs)[i] == outputs[ids[i]]
  {
    if ids != [] {
      AnsweredAll(ids[1..], outputs);
    }
  }

  lemma OrderedIsGrouped(t: Transaction)
    requires Consistent(t) && Complete(t)
    ensures Grouped(Ordered(t))
  {
    AnsweredAll(t.ids, t.outputs);
    var block := Block(t.calls, Answered(t.ids, t.outputs));
    forall i | 0 <= i < |t.ids|
      ensures t.ids[i] in t.outputs
    {
      assert t.ids[i] in t.ids;
    }
    assert ValidPiece(block);
    GroupedPiece(block);
    GroupedOrdinary(t.deferred);
    GroupedAppend(PieceItems(block), t.deferred);
  }

  lemma FlushIsHealthy(st: State)
    requires Consistent(st.transaction) && Grouped(st.normalized)
    ensures Healthy(FlushIfComplete(st))
  {
    hide Grouped;
    if Complete(st.transaction) {
      OrderedIsGrouped(st.transaction);
      GroupedAppend(st.normalized, Ordered(st.transaction));
    }
  }

  lemma DiscardIsHealthy(st: State)
    requires Consistent(st.transaction) && Grouped(st.normalized) && !Complete(st.transaction)
    ensures Healthy(DiscardIncomplete(st))
    ensures DiscardIncomplete(st).transaction.calls == []
  {
    hide Grouped;
    GroupedOrdinary(st.transaction.deferred);
    GroupedAppend(st.normalized, st.transaction.deferred);
  }

  lemma CallIsHealthy(st: State, item: Item)
    requires Healthy(st) && item.itemType.FunctionCall? && Accepts(st.transaction, ToolCallId(item))
    ensures Healthy(WithCall(st, item))
  {
    hide Grouped;
    var t, t' := st.transaction, WithCall(st, item).transaction;
    forall i | 0 <= i < |t.calls|
      ensures ToolCallId(t.calls[i]) != ToolCallId(item)
    {
      assert t.ids[i] in t.ids;
    }
    assert t'.ids[|t.ids|] == ToolCallId(item) && ToolCallId(item) in t'.ids;
  }

  lemma StepIsHealthy(st: State, item: Item)
    requires Healthy(st)
    ensures Healthy(Step(st, item))
  {
    hide Grouped;
    match item.itemType
    case FunctionCall =>
      if Accepts(st.transaction, ToolCallId(item)) {
        CallIsHealthy(st, item);
      } else {
        DiscardIsHealthy(st);
        if Accepts(DiscardIncomplete(st).transaction, ToolCallId(item)) {
          CallIsHealthy(DiscardIncomplete(st), item);
        }
      }
    case FunctionCallOutput =>
      if Answers(st.transaction, ToolCallId(item)) {
        FlushIsHealthy(st.(transaction := st.transaction.(outputs := st.transaction.outputs[ToolCallId(item) := item])));
      }
    case _ =>
      if !IsEmptyAssistant(item) && st.transaction.calls == [] {
        GroupedPiece(Ordinary(item));
        GroupedAppend(st.normalized, [item]);
      }
  }

  lemma {:induction false} FoldIsHealthy(items: seq<Item>)
    ensures Healthy(Fold(State([], FRESH), items))
  {
    if items == [] {
      GroupedOrdinary([]);
    } else {
      FoldIsHealthy(items[..|items| - 1]);
      StepIsHealthy(Fold(State([], FRESH), items[..|items| - 1]), items[|items| - 1]);
    }
  }

  /** Whatever the history, the output consists of ordinary items and complete blocks. */
  lemma OutputIsGrouped(items: seq<Item>)
    ensures Grouped(Normalize(items))
  {
    FoldIsHealthy(items);
    DiscardIsHealthy(Fold(State([], FRESH), items));
  }

  // ----- Identity on grouped input -----

  /** Processing more items continues from the state reached so far. */
  lemma {:induction false} FoldAppend(st: State, a: seq<Item>, b: seq<Item>)
    ensures Fold(st, a + b) == Fold(Fold(st, a), b)
  {
    if b == [] {
      assert a + b == a;
    } else {
      assert (a + b)[..|a + b| - 1] == a + b[..|b| - 1];
      FoldAppend(st, a, b[..|b| - 1]);
    }
  }

  function IdsIn(items: seq<Item>): seq<string> {
    seq(|items|, i requires 0 <= i < |items| => ToolCallId(items[i]))
  }

  lemma {:induction false} FoldCalls(st: State, calls: seq<Item>)
    requires st.transaction == FRESH && ValidCalls(calls)
    ensures Fold(st, calls) == st.(transaction := Transaction(calls, IdsIn(calls), map[], []))
  {
    if calls != [] {
      var front, last := calls[..|calls| - 1], calls[|calls| - 1];
      FoldCalls(st, front);
      OneMoreCall(st.(transaction := Transaction(front, IdsIn(front), map[], [])), last, calls);
    }
  }

  lemma OneMoreCall(st: State, last: Item, calls: seq<Item>)
    requires ValidCalls(calls) && calls != [] && last == calls[|calls| - 1]
    requires st.transaction == Transaction(calls[..|calls| - 1], IdsIn(calls[..|calls| - 1]), map[], [])
    ensures Step(st, last) == st.(transaction := Transaction(calls, IdsIn(calls), map[], []))
  {
    var front := calls[..|calls| - 1];
    assert calls == front + [last] && IdsIn(calls) == IdsIn(front) + [ToolCallId(last)];
    forall i | 0 <= i < |front|
      ensures IdsIn(front)[i] != ToolCallId(last)
    {
      assert calls[i] == front[i];
    }
    assert front != [] ==> IdsIn(front)[0] in IdsIn(front);
    assert !Complete(st.transaction);
  }

  /** The outputs of the first `n` calls. */
  function FirstOutputs(calls: seq<Item>, outputs: seq<Item>, n: nat): map<string, Item>
    requires n <= |calls| && n <= |outputs|
  {
    if n == 0 then map[] else FirstOutputs(calls, outputs, n - 1)[ToolCallId(calls[n - 1]) := outputs[n - 1]]
  }

  lemma {:induction false} FirstOutputsFacts(calls: seq<Item>, outputs: seq<Item>, n: nat)
    requires ValidPiece(Block(calls, outputs)) && n <= |calls|
    ensures forall i :: 0 <= i < |calls| ==> (ToolCallId(calls[i]) in FirstOutputs(calls, outputs, n) <==> i < n)
    ensures forall i :: 0 <= i < n ==> FirstOutputs(calls, outputs, n)[ToolCallId(calls[i])] == outputs[i]
  {
    if n > 0 {
      FirstOutputsFacts(calls, outputs, n - 1);
    }
  }

  lemma {:induction false} FoldOutputs(st: State, calls: seq<Item>, outputs: seq<Item>, n: nat)
    requires ValidPiece(Block(calls, outputs)) && n < |calls|
    requires st.transaction == Transaction(calls, IdsIn(calls), map[], [])
    ensures n <= |outputs|
    ensures Fold(st, outputs[..n])
         == st.(transaction := Transaction(calls, IdsIn(calls), FirstOutputs(calls, outputs, n), []))
  {
    if n > 0 {
      hide Step;
      assert outputs[..n][..n - 1] == outputs[..n - 1];
      FoldOutputs(st, calls, outputs, n - 1);
      NextOutput(Fold(st, outputs[..n - 1]), calls, outputs, n - 1);
    }
  }

  lemma NextOutput(st: State, calls: seq<Item>, outputs: seq<Item>, n: nat)
    requires ValidPiece(Block(calls, outputs)) && n + 1 < |calls|
    requires st.transaction == Transaction(calls, IdsIn(calls), FirstOutputs(calls, outputs, n), [])
    ensures Step(st, outputs[n])
         == st.(transaction := Transaction(calls, IdsIn(calls), FirstOutputs(calls, outputs, n + 1), []))
  {
    FirstOutputsFacts(calls, outputs, n);
    FirstOutputsFacts(calls, outputs, n + 1);
    var mid := Transaction(calls, IdsIn(calls), FirstOutputs(calls, outputs, n + 1), []);
    assert mid.ids[n] == ToolCallId(outputs[n]);
    assert mid.ids[n + 1] in mid.ids && mid.ids[n + 1] !in mid.outputs;
    assert !Complete(mid);
  }

  lemma BlockIsKept(st: State, calls: seq<Item>, outputs: seq<Item>)
    requires ValidPiece(Block(calls, outputs)) && st.transaction == FRESH
    ensures Fold(st, calls + outputs) == State(st.normalized + (calls + outputs), FRESH)
  {
    hide Step, ValidPiece;
    FoldAppend(st, calls, outputs);
    var n := BlockSize(calls, outputs);
    FoldCalls(st, calls);
    var mid := Fold(st, calls);
    FoldOutputs(mid, calls, outputs, n);
    assert outputs[..|outputs| - 1] == outputs[..n];
    LastOutputFlushes(mid.(transaction := Transaction(calls, IdsIn(calls), FirstOutputs(calls, outputs, n), [])),
                      calls, outputs);
  }

  lemma BlockSize(calls: seq<Item>, outputs: seq<Item>) returns (n: nat)
    requires ValidPiece(Block(calls, outputs))
    ensures |calls| == |outputs| == n + 1 && ValidCalls(calls)
  {
    n := |calls| - 1;
  }

  lemma LastOutputFlushes(st: State, calls: seq<Item>, outputs: seq<Item>)
    requires ValidPiece(Block(calls, outputs))
    requires st.transaction == Transaction(calls, IdsIn(calls), FirstOutputs(calls, outputs, |calls| - 1), [])
    ensures Step(st, outputs[|calls| - 1]) == State(st.normalized + (calls + outputs), FRESH)
  {
    var n := |calls| - 1;
    var t := Transaction(calls, IdsIn(calls), FirstOutputs(calls, outputs, n + 1), []);
    assert Answers(st.transaction, ToolCallId(outputs[n])) by {
      FirstOutputsFacts(calls, outputs, n);
      assert IdsIn(calls)[n] == ToolCallId(outputs[n]);
    }
    BlockIsComplete(calls, outputs);
    assert Ordered(t) == calls + outputs;
  }

  lemma BlockIsComplete(calls: seq<Item>, outputs: seq<Item>)
    requires ValidPiece(Block(calls, outputs))
    ensures Complete(Transaction(calls, IdsIn(calls), FirstOutputs(calls, outputs, |calls|), []))
    ensures Answered(IdsIn(calls), FirstOutputs(calls, outputs, |calls|)) == outputs
  {
    var ids, received := IdsIn(calls), FirstOutputs(calls, outputs, |calls|);
    FirstOutputsFacts(calls, outputs, |calls|);
    assert ids[0] in ids;
    forall id | id in ids
      ensures id in received
    {
      var i :| 0 <= i < |ids| && ids[i] == id;
    }
    AnsweredAll(ids, received);
    assert Answered(ids, received) == outputs;
  }

  lemma {:induction false} PiecesAreKept(ps: seq<Piece>)
    requires ValidPieces(ps)
    ensures Fold(State([], FRESH), PiecesItems(ps)) == State(PiecesItems(ps), FRESH)
  {
    if ps != [] {
      var front, last := ps[..|ps| - 1], ps[|ps| - 1];
      PiecesAreKept(front);
      FoldAppend(State([], FRESH), PiecesItems(front), PieceItems(last));
      assert ValidPiece(last);
      match last
      case Ordinary(item) => assert [item][..0] == [];
      case Block(calls, outputs) => BlockIsKept(State(PiecesItems(front), FRESH), calls, outputs);
    }
  }

  /** Well-grouped input is returned as it is. */
  lemma GroupedIsUnchanged(items: seq<Item>)
    requires Grouped(items)
    ensures Normalize(items) == items
  {
    var ps :| ValidPieces(ps) && PiecesItems(ps) == items;
    PiecesAreKept(ps);
  }

  lemma NormalizeIsIdempotent(items: seq<Item>)
    ensures Normalize(Normalize(items)) == Normalize(items)
  {
    OutputIsGrouped(items);
    GroupedIsUnchanged(Normalize(items));
  }

  // ----- Order of the ordinary items -----

  function OrdinaryOf(items: seq<Item>): seq<Item> {
    if items == [] then []
    else OrdinaryOf(items[..|items| - 1]) + (if IsOrdinary(items[|items| - 1]) then [items[|items| - 1]] else [])
  }

  lemma {:induction false} OrdinaryAppend(a: seq<Item>, b: seq<Item>)
    ensures OrdinaryOf(a + b) == OrdinaryOf(a) + OrdinaryOf(b)
  {
    if b == [] {
      assert a + b == a;
    } else {
      assert (a + b)[..|a + b| - 1] == a + b[..|b| - 1];
      OrdinaryAppend(a, b[..|b| - 1]);
    }
  }

  lemma {:induction false} OrdinaryOnly(items: seq<Item>)
    ensures (forall x :: x in items ==> IsOrdinary(x)) ==> OrdinaryOf(items) == items
    ensures (forall x :: x in items ==> !IsOrdinary(x)) ==> OrdinaryOf(items) == []
  {
    if items != [] {
      assert items[|items| - 1] in items;
      assert items == items[..|items| - 1] + [items[|items| - 1]];
      OrdinaryOnly(items[..|items| - 1]);
    }
  }

  /** The ordinary items a state has accepted, in order. */
  function Accepted(st: State): seq<Item> {
    OrdinaryOf(st.normalized) + st.transaction.deferred
  }

  lemma FlushKeepsOrder(st: State)
    requires Consistent(st.transaction)
    ensures Accepted(FlushIfComplete(st)) == Accepted(st)
  {
    hide OrdinaryOf;
    if Complete(st.transaction) {
      var t := st.transaction;
      BlockHasNoOrdinary(t);
      OrdinaryOnly(t.deferred);
      OrdinaryAppend(t.calls + Answered(t.ids, t.outputs), t.deferred);
      OrdinaryAppend(st.normalized, Ordered(t));
    }
  }

  lemma BlockHasNoOrdinary(t: Transaction)
    requires Consistent(t) && Complete(t)
    ensures OrdinaryOf(t.calls + Answered(t.ids, t.outputs)) == []
  {
    hide OrdinaryOf;
    AnsweredAll(t.ids, t.outputs);
    forall x | x in t.calls + Answered(t.ids, t.outputs)
      ensures !IsOrdinary(x)
    {
      if x in Answered(t.ids, t.outputs) {
        var i :| 0 <= i < |t.ids| && Answered(t.ids, t.outputs)[i] == x;
        assert t.ids[i] in t.ids;
      }
    }
    OrdinaryOnly(t.calls + Answered(t.ids, t.outputs));
  }

  lemma DiscardKeepsOrder(st: State)
    requires Consistent(st.transaction)
    ensures Accepted(DiscardIncomplete(st)) == Accepted(st)
  {
    OrdinaryOnly(st.transaction.deferred);
    OrdinaryAppend(st.normalized, st.transaction.deferred);
  }

  lemma OutputKeepsOrder(st: State, item: Item)
    requires Healthy(st) && item.itemType.FunctionCallOutput?
    ensures Accepted(HandleOutput(st, item)) == Accepted(st)
  {
    hide Grouped, OrdinaryOf;
    if Answers(st.transaction, ToolCallId(item)) {
      FlushKeepsOrder(st.(transaction := st.transaction.(outputs := st.transaction.outputs[ToolCallId(item) := item])));
    }
  }

  lemma DeferKeepsOrder(st: State, item: Item)
    ensures Accepted(st.(transaction := st.transaction.(deferred := st.transaction.deferred + [item]))) == Accepted(st) + [item]
  {
    hide OrdinaryOf;
  }

  lemma EmitKeepsOrder(st: State, item: Item)
    requires IsOrdinary(item) && st.transaction.deferred == []
    ensures Accepted(st.(normalized := st.normalized + [item])) == Accepted(st) + [item]
  {
    hide IsOrdinary;
    assert [item][..0] == [];
    OrdinaryAppend(st.normalized, [item]);
    assert OrdinaryOf([item]) == [item];
  }

  lemma RegularKeepsOrder(st: State, item: Item)
    requires Healthy(st) && !IsToolItem(item)
    ensures Accepted(HandleRegular(st, item)) == if IsOrdinary(item) then Accepted(st) + [item] else Accepted(st)
  {
    assert st.transaction.calls == [] ==> st.transaction.deferred == [];
    hide Healthy, Accepted, IsEmptyAssistant;
    if IsOrdinary(item) {
      if st.transaction.calls != [] {
        DeferKeepsOrder(st, item);
      } else {
        EmitKeepsOrder(st, item);
      }
    }
  }

  lemma StepKeepsOrder(st: State, item: Item)
    requires Healthy(st)
    ensures Accepted(Step(st, item)) == if IsOrdinary(item) then Accepted(st) + [item] else Accepted(st)
  {
    hide Grouped, OrdinaryOf, HandleRegular, HandleOutput;
    match item.itemType
    case FunctionCall => DiscardKeepsOrder(st);
    case FunctionCallOutput => OutputKeepsOrder(st, item);
    case _ => RegularKeepsOrder(st, item);
  }

  lemma {:induction false} FoldKeepsOrder(items: seq<Item>)
    ensures Accepted(Fold(State([], FRESH), items)) == OrdinaryOf(items)
  {
    if items != [] {
      var front := items[..|items| - 1];
      FoldKeepsOrder(front);
      FoldIsHealthy(front);
      StepKeepsOrder(Fold(State([], FRESH), front), items[|items| - 1]);
    }
  }

  /** No ordinary item is lost, added or reordered. */
  lemma OrdinaryOrderIsKept(items: seq<Item>)
    ensures OrdinaryOf(Normalize(items)) == OrdinaryOf(items)
  {
    var st := Fold(State([], FRESH), items);
    FoldKeepsOrder(items);
    FoldIsHealthy(items);
    DiscardKeepsOrder(st);
    DiscardIsHealthy(st);
  }

  // ----- Nothing is lost when every call is answered -----

  /** The items the normaliser does not drop on sight. */
  function Visible(items: seq<Item>): seq<Item> {
    if items == [] then []
    else Visible(items[..|items| - 1]) + (if IsEmptyAssistant(items[|items| - 1]) then [] else [items[|items| - 1]])
  }

  /** Everything a state holds, emitted or not. */
  function Held(st: State): multiset<Item> {
    multiset(st.normalized) + multiset(st.transaction.calls)
    + multiset(Answered(st.transaction.ids, st.transaction.outputs)) + multiset(st.transaction.deferred)
  }

  /** A history so far: own ids, and no output before its call. */
  ghost predicate Ongoing(items: seq<Item>) {
    UniqueIds(items) && OutputIds(items) <= CallIds(items)
  }

  /** The open transaction accounts for every call of `done` that still waits for its output. */
  ghost predicate Tracks(t: Transaction, done: seq<Item>) {
    && (forall id :: id in t.ids ==> id in CallIds(done))
    && (forall id :: id in CallIds(done) && id !in OutputIds(done) ==> Answers(t, id))
    && (forall id :: id in t.ids && id !in t.outputs ==> id !in OutputIds(done))
  }

  lemma {:induction false} AnsweredSnoc(ids: seq<string>, outputs: map<string, Item>, id: string)
    ensures Answered(ids + [id], outputs) == Answered(ids, outputs) + Given(id, outputs)
  {
    hide Given;
    if ids == [] {
      assert ids + [id] == [id];
    } else {
      assert (ids + [id])[0] == ids[0] && (ids + [id])[1..] == ids[1..] + [id];
      AnsweredSnoc(ids[1..], outputs, id);
    }
  }

  lemma {:induction false} AnsweredFrame(ids: seq<string>, outputs: map<string, Item>, id: string, item: Item)
    requires id !in ids
    ensures Answered(ids, outputs[id := item]) == Answered(ids, outputs)
  {
    if ids != [] {
      AnsweredFrame(ids[1..], outputs, id, item);
    }
  }

  lemma {:induction false} AnsweredGrows(ids: seq<string>, outputs: map<string, Item>, id: string, item: Item)
    requires id in ids && id !in outputs
    requires forall i, j :: 0 <= i < j < |ids| ==> ids[i] != ids[j]
    ensures multiset(Answered(ids, outputs[id := item])) == multiset(Answered(ids, outputs)) + multiset{item}
  {
    var outputs' := outputs[id := item];
    if ids[0] == id {
      AnsweredFrame(ids[1..], outputs, id, item);
      assert Answered(ids, outputs') == [item] + Answered(ids[1..], outputs);
    } else {
      AnsweredGrows(ids[1..], outputs, id, item);
    }
  }

  lemma FlushHoldsAll(st: State)
    ensures Held(FlushIfComplete(st)) == Held(st)
  {
  }

  /** A new call always joins the open transaction. */
  lemma CallJoins(st: State, done: seq<Item>, item: Item)
    requires Healthy(st) && Tracks(st.transaction, done)
    requires UniqueIds(done + [item]) && item.itemType.FunctionCall?
    ensures Accepts(st.transaction, ToolCallId(item)) && Step(st, item) == WithCall(st, item)
  {
    hide Grouped, UniqueIds, ValidCalls, CallIds, OutputIds;
    NewId(done, item);
  }

  lemma CallIsHeld(st: State, item: Item)
    requires ToolCallId(item) !in st.transaction.outputs
    ensures Held(WithCall(st, item)) == Held(st) + multiset{item}
  {
    AnsweredSnoc(st.transaction.ids, st.transaction.outputs, ToolCallId(item));
  }

  lemma CallIsTracked(st: State, done: seq<Item>, item: Item)
    requires Tracks(st.transaction, done) && Accepts(st.transaction, ToolCallId(item))
    requires Ongoing(done) && UniqueIds(done + [item]) && item.itemType.FunctionCall?
    ensures Tracks(WithCall(st, item).transaction, done + [item])
  {
    hide UniqueIds, CallIds, OutputIds;
    NewId(done, item);
    var t, t' := st.transaction, WithCall(st, item).transaction;
    assert forall id :: id in t'.ids <==> id in t.ids || id == ToolCallId(item);
  }

  lemma CallHoldsAll(st: State, done: seq<Item>, item: Item)
    requires Healthy(st) && Tracks(st.transaction, done)
    requires Ongoing(done) && UniqueIds(done + [item]) && item.itemType.FunctionCall?
    ensures Held(Step(st, item)) == Held(st) + multiset{item}
    ensures Tracks(Step(st, item).transaction, done + [item])
  {
    hide Healthy, Tracks, Ongoing, Held, UniqueIds, Step;
    CallJoins(st, done, item);
    CallIsHeld(st, item);
    CallIsTracked(st, done, item);
  }

  /** What a new tool item means for the ids. */
  lemma NewId(done: seq<Item>, item: Item)
    requires UniqueIds(done + [item]) && IsToolItem(item)
    ensures ToolCallId(item) != ""
    ensures item.itemType.FunctionCall? ==>
              && ToolCallId(item) !in CallIds(done)
              && CallIds(done + [item]) == CallIds(done) + {ToolCallId(item)}
              && OutputIds(done + [item]) == OutputIds(done)
    ensures item.itemType.FunctionCallOutput? ==>
              && ToolCallId(item) !in OutputIds(done)
              && CallIds(done + [item]) == CallIds(done)
              && OutputIds(done + [item]) == OutputIds(done) + {ToolCallId(item)}
  {
    assert (done + [item])[..|done|] == done;
  }

  function WithOutput(st: State, item: Item): State {
    st.(transaction := st.transaction.(outputs := st.transaction.outputs[ToolCallId(item) := item]))
  }

  /** A new output always answers a call of the open transaction. */
  lemma OutputAnswers(st: State, done: seq<Item>, item: Item)
    requires Tracks(st.transaction, done)
    requires Ongoing(done + [item]) && item.itemType.FunctionCallOutput?
    ensures Answers(st.transaction, ToolCallId(item))
    ensures Step(st, item) == FlushIfComplete(WithOutput(st, item))
  {
    hide UniqueIds, CallIds, OutputIds;
    NewId(done, item);
  }

  lemma OutputIsHeld(st: State, item: Item)
    requires Consistent(st.transaction) && Answers(st.transaction, ToolCallId(item))
    ensures Held(WithOutput(st, item)) == Held(st) + multiset{item}
  {
    DistinctIds(st.transaction);
    AnsweredGrows(st.transaction.ids, st.transaction.outputs, ToolCallId(item), item);
  }

  lemma OutputIsTracked(st: State, done: seq<Item>, item: Item)
    requires Tracks(st.transaction, done)
    requires Ongoing(done + [item]) && item.itemType.FunctionCallOutput?
    ensures Tracks(WithOutput(st, item).transaction, done + [item])
  {
    hide UniqueIds, CallIds, OutputIds;
    NewId(done, item);
  }

  lemma OutputHoldsAll(st: State, done: seq<Item>, item: Item)
    requires Healthy(st) && Tracks(st.transaction, done)
    requires Ongoing(done + [item]) && item.itemType.FunctionCallOutput?
    ensures Held(Step(st, item)) == Held(st) + multiset{item}
    ensures Tracks(Step(st, item).transaction, done + [item])
  {
    hide Tracks, Ongoing, Held, UniqueIds, Step, Consistent, WithOutput;
    OutputAnswers(st, done, item);
    OutputIsHeld(st, item);
    OutputIsTracked(st, done, item);
    FlushHoldsAll(WithOutput(st, item));
    FlushTracks(WithOutput(st, item), done + [item]);
  }

  lemma DistinctIds(t: Transaction)
    requires Consistent(t)
    ensures forall i, j :: 0 <= i < j < |t.ids| ==> t.ids[i] != t.ids[j]
  {
  }

  lemma FlushTracks(st: State, done: seq<Item>)
    requires Tracks(st.transaction, done)
    ensures Tracks(FlushIfComplete(st).transaction, done)
  {
  }

  lemma RegularHoldsAll(st: State, done: seq<Item>, item: Item)
    requires Tracks(st.transaction, done) && !IsToolItem(item)
    ensures Held(Step(st, item)) == Held(st) + (if IsEmptyAssistant(item) then multiset{} else multiset{item})
    ensures Tracks(Step(st, item).transaction, done + [item])
  {
    hide IsEmptyAssistant, CallIds, OutputIds, Answered;
    OldIds(done, item);
    RegularIsHeld(st, item);
  }

  lemma RegularIsHeld(st: State, item: Item)
    requires !IsToolItem(item)
    ensures Held(Step(st, item)) == Held(st) + (if IsEmptyAssistant(item) then multiset{} else multiset{item})
  {
    hide IsEmptyAssistant, Answered;
  }

  lemma OldIds(done: seq<Item>, item: Item)
    requires !IsToolItem(item)
    ensures CallIds(done + [item]) == CallIds(done) && OutputIds(done + [item]) == OutputIds(done)
  {
    assert (done + [item])[..|done|] == done;
  }

  lemma {:induction false} FoldHoldsAll(items: seq<Item>)
    requires UniqueIds(items)
    requires forall n :: 0 <= n <= |items| ==> OutputIds(items[..n]) <= CallIds(items[..n])
    ensures var st := Fold(State([], FRESH), items);
            Held(st) == multiset(Visible(items)) && Tracks(st.transaction, items)
  {
    hide Step, Tracks, Held;
    if items == [] {
      NothingHeld();
    } else {
      var front, last := items[..|items| - 1], items[|items| - 1];
      assert forall n :: 0 <= n <= |front| ==> front[..n] == items[..n];
      assert front + [last] == items && items[..|items|] == items && items[..|front|] == front;
      FoldHoldsAll(front);
      FoldIsHealthy(front);
      var st := Fold(State([], FRESH), front);
      match last.itemType {
        case FunctionCall => CallHoldsAll(st, front, last);
        case FunctionCallOutput => OutputHoldsAll(st, front, last);
        case _ => RegularHoldsAll(st, front, last);
      }
    }
  }

  lemma NothingHeld()
    ensures Held(State([], FRESH)) == multiset([]) && Tracks(FRESH, [])
  {
  }

  /**
   When ids are distinct and every call is answered by exactly one later output, the result is a permutation
   of the input without its empty assistant messages: no call and no output is lost.
   */
  lemma NothingIsLost(items: seq<Item>)
    requires PairComplete(items)
    ensures multiset(Normalize(items)) == multiset(Visible(items))
  {
    hide Grouped, UniqueIds;
    var st := Fold(State([], FRESH), items);
    FoldHoldsAll(items);
    FoldIsHealthy(items);
    assert items[..|items|] == items;
    assert forall id :: id in st.transaction.ids ==> id in st.transaction.outputs;
    assert st.transaction.ids == [] && st.transaction.calls == [];
  }
}
