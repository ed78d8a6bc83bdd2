/** Durable identity of timeline items (core/runtime/timeline.py, keyless stamping in core/runtime/session.py). */
module TimelineKeys {
  import opened Events
  import Decimal
  import opened Options
  import opened Strings

  function TypeName(e: Event): string {
    match e
    case UserMessage(_) => "user_message"
    case TurnBoundary(_) => "turn_boundary"
    case RunState(_) => "run_state"
    case Delta(kind, _, _, _, _) => if kind == Text then "text_delta" else "thinking_delta"
    case Complete(kind, _, _, _) => if kind == Text then "text_complete" else "thinking_complete"
    case ToolCall(_, _, _) => "tool_call"
    case ToolResult(_, _, _) => "tool_result"
    case SubagentTask(_, _, _) => "subagent_task"
    case Done(_) => "done"
    case Error(_, _) => "error"
  }

  /** Identity of an event that carries its own id. */
  function ItemKey(e: Event): Option<string> {
    match e
    case Delta(kind, scope, id, _, _) => Some((if kind == Text then "text:" else "thinking:") + scope.nestedCallId + ":" + id)
    case Complete(kind, scope, id, _) => Some((if kind == Text then "text:" else "thinking:") + scope.nestedCallId + ":" + id)
    case ToolCall(scope, callId, _) => Some("tc:" + scope.nestedCallId + ":" + callId)
    case ToolResult(scope, callId, _) => Some("tr:" + scope.nestedCallId + ":" + callId)
    case SubagentTask(_, runId, _) => Some("sa:" + runId)
    case _ => None
  }

  predicate IsPersistable(e: Event) {
    !e.RunState? && !e.Done? && !e.Delta?
  }

  /** An event that consumes a fresh seq per emission and is stored under it. */
  predicate IsKeyless(e: Event) {
    e.UserMessage? || e.TurnBoundary? || e.Error?
  }

  function KeylessKey(e: Event, seqNo: nat): string {
    TypeName(e) + ":" + Decimal.Show(seqNo)
  }

  function DurableKey(e: Event, seqNo: nat): string {
    match ItemKey(e)
    case Some(key) => key
    case None => KeylessKey(e, seqNo)
  }

  /** What is stored is keyless, or carries an id and is no delta. */
  lemma PersistableHasKey(e: Event)
    ensures IsPersistable(e) <==> IsKeyless(e) || (ItemKey(e).Some? && !e.Delta?)
    ensures IsKeyless(e) ==> ItemKey(e).None?
  {
  }

  function Initial(e: Event): (char, char) {
    match e
    case UserMessage(_) => ('u', 's')
    case TurnBoundary(_) => ('t', 'u')
    case Error(_, _) => ('e', 'r')
    case Delta(kind, _, _, _, _) => if kind == Text then ('t', 'e') else ('t', 'h')
    case Complete(kind, _, _, _) => if kind == Text then ('t', 'e') else ('t', 'h')
    case ToolCall(_, _, _) => ('t', 'c')
    case ToolResult(_, _, _) => ('t', 'r')
    case _ => ('s', 'a')
  }

  /** The first two characters tell the key families apart. */
  lemma Initials(e: Event, seqNo: nat)
    requires IsKeyless(e) || ItemKey(e).Some?
    ensures var key := DurableKey(e, seqNo); |key| >= 2 && (key[0], key[1]) == Initial(e)
  {
    hide Decimal.Show;
  }

  /** A keyless item never shares its durable key with an item that carries an id. */
  lemma KeylessIsNeverKeyed(e: Event, n: nat, f: Event)
    requires IsKeyless(e) && ItemKey(f).Some?
    ensures KeylessKey(e, n) != ItemKey(f).value
  {
    Initials(e, n);
    Initials(f, 0);
    hide KeylessKey;
    assert Initial(e) != Initial(f);
  }

  /** Two keyless emissions with different seqs never share a durable key. */
  lemma KeylessKeysAreUnique(e: Event, n: nat, f: Event, m: nat)
    requires IsKeyless(e) && IsKeyless(f) && KeylessKey(e, n) == KeylessKey(f, m)
    ensures n == m && TypeName(e) == TypeName(f)
  {
    Initials(e, n);
    Initials(f, m);
    assert TypeName(e) == TypeName(f) by {
      hide Decimal.Show;
    }
    hide TypeName;
    Decimal.Cancel(TypeName(e) + ":", Decimal.Show(n), Decimal.Show(m));
    Decimal.ShowInjective(n, m);
  }

  // ----- Which events are one item -----

  predicate IsSegment(e: Event) {
    e.Delta? || e.Complete?
  }

  /** Deltas and completions of one kind, calls, results, and tasks. */
  predicate SameFamily(e: Event, f: Event) {
    || (IsSegment(e) && IsSegment(f) && e.kind == f.kind)
    || (e.ToolCall? && f.ToolCall?) || (e.ToolResult? && f.ToolResult?) || (e.SubagentTask? && f.SubagentTask?)
  }

  /** The id that the event carries. */
  function IdOf(e: Event): string
    requires ItemKey(e).Some?
  {
    if IsSegment(e) then e.segmentId else if e.SubagentTask? then e.runId else e.callId
  }

  /** The nested call that the id belongs to; a task's id stands by itself. */
  function NestedOf(e: Event): string
    requires ItemKey(e).Some?
  {
    if e.SubagentTask? then "" else e.scope.nestedCallId
  }

  /** One segment, one call, one result or one task. */
  predicate SameItem(e: Event, f: Event)
    requires ItemKey(e).Some? && ItemKey(f).Some?
  {
    SameFamily(e, f) && NestedOf(e) == NestedOf(f) && IdOf(e) == IdOf(f)
  }

  /** A colon inside a nested call's id lets two ids read the same. */
  predicate ReadTheSame(e: Event, f: Event)
    requires ItemKey(e).Some? && ItemKey(f).Some?
  {
    && SameFamily(e, f) && !e.SubagentTask?
    && (Shifts(NestedOf(e), IdOf(e), NestedOf(f), IdOf(f)) || Shifts(NestedOf(f), IdOf(f), NestedOf(e), IdOf(e)))
  }

  function Prefix(e: Event): string
    requires ItemKey(e).Some?
  {
    if IsSegment(e) then (if e.kind == Text then "text:" else "thinking:")
    else if e.ToolCall? then "tc:" else if e.ToolResult? then "tr:" else "sa:"
  }

  function Rest(e: Event): string
    requires ItemKey(e).Some?
  {
    if e.SubagentTask? then e.runId else NestedOf(e) + ":" + IdOf(e)
  }

  lemma KeyIsPrefixed(e: Event)
    requires ItemKey(e).Some?
    ensures ItemKey(e).value == Prefix(e) + Rest(e)
  {
    if !e.SubagentTask? {
      assert Prefix(e) + NestedOf(e) + ":" + IdOf(e) == Prefix(e) + (NestedOf(e) + ":" + IdOf(e));
    }
  }

  lemma FamiliesDiffer(e: Event, f: Event)
    requires ItemKey(e).Some? && ItemKey(f).Some?
    ensures ItemKey(e) == ItemKey(f) ==> SameFamily(e, f)
    ensures SameFamily(e, f) ==> Prefix(e) == Prefix(f)
  {
    Initials(e, 0);
    Initials(f, 0);
    hide ItemKey;
    assert !SameFamily(e, f) ==> Initial(e) != Initial(f);
  }

  /** Two events share a key exactly when they are about one item, or a colon in a nested call's id makes them read the same. */
  lemma KeysCoincideExactly(e: Event, f: Event)
    requires ItemKey(e).Some? && ItemKey(f).Some?
    ensures ItemKey(e) == ItemKey(f) <==> SameItem(e, f) || ReadTheSame(e, f)
    ensures ReadTheSame(e, f) ==> ':' in NestedOf(e) || ':' in NestedOf(f)
  {
    KeyIsPrefixed(e);
    KeyIsPrefixed(f);
    FamiliesDiffer(e, f);
    PairsCoincideExactly(NestedOf(e), IdOf(e), NestedOf(f), IdOf(f));
    PairsCoincideExactly(NestedOf(f), IdOf(f), NestedOf(e), IdOf(e));
    if ItemKey(e) == ItemKey(f) { Decimal.Cancel(Prefix(e), Rest(e), Rest(f)); }
    hide Prefix, Shifts;
  }

  /** Such events exist: two calls in different nested calls with one key. */
  lemma ColonsCollide()
    ensures var e, f := ToolCall(Scope("", "a:b"), "c", ""), ToolCall(Scope("", "a"), "b:c", "");
            ItemKey(e) == ItemKey(f) && !SameItem(e, f)
  {
    assert "tc:" + "a:b" + ":" + "c" == "tc:" + "a" + ":" + "b:c";
  }

  // ----- Recognising user messages: by prefix, and by an SQL pattern -----

  const USER_MESSAGE_KEY_PREFIX := "user_message:"

  predicate StartsAsUserMessage(key: string) {
    USER_MESSAGE_KEY_PREFIX <= key
  }

  function FoldCase(c: char): char {
    if 'A' <= c <= 'Z' then (c as int + 32) as char else c
  }

  /** LIKE 'user_message:%' in SQLite: ASCII letters match in either case and '_' matches any character. */
  predicate LikeUserMessage(key: string) {
    |key| >= |USER_MESSAGE_KEY_PREFIX| && forall i :: 0 <= i < |USER_MESSAGE_KEY_PREFIX| ==>
        USER_MESSAGE_KEY_PREFIX[i] == '_' || FoldCase(key[i]) == USER_MESSAGE_KEY_PREFIX[i]
  }

  /** On every key the runtime produces the two tests agree, and mean a user message. */
  lemma UserMessageTestsAgree(e: Event, n: nat)
    requires IsKeyless(e) || ItemKey(e).Some?
    ensures StartsAsUserMessage(DurableKey(e, n)) <==> e.UserMessage?
    ensures LikeUserMessage(DurableKey(e, n)) <==> e.UserMessage?
  {
    hide StartsAsUserMessage, LikeUserMessage, DurableKey;
    if e.UserMessage? {
      UserKey(e, n);
      IsUser(Decimal.Show(n));
    } else {
      Initials(e, n);
      NotUser(DurableKey(e, n));
    }
  }

  lemma UserKey(e: Event, n: nat)
    requires e.UserMessage?
    ensures DurableKey(e, n) == USER_MESSAGE_KEY_PREFIX + Decimal.Show(n)
  {
    hide Decimal.Show;
    assert USER_MESSAGE_KEY_PREFIX == "user_message" + ":";
    assert ("user_message" + ":") + Decimal.Show(n) == "user_message" + ":" + Decimal.Show(n);
  }

  lemma IsUser(rest: string)
    ensures StartsAsUserMessage(USER_MESSAGE_KEY_PREFIX + rest) && LikeUserMessage(USER_MESSAGE_KEY_PREFIX + rest)
  {
    var key := USER_MESSAGE_KEY_PREFIX + rest;
    assert forall i :: 0 <= i < |USER_MESSAGE_KEY_PREFIX| ==> key[i] == USER_MESSAGE_KEY_PREFIX[i];
  }

  lemma NotUser(key: string)
    requires |key| >= 2 && key[0] != 'u' && key[0] != 'U'
    ensures !StartsAsUserMessage(key) && !LikeUserMessage(key)
  {
    assert USER_MESSAGE_KEY_PREFIX[0] == 'u';
    assert LikeUserMessage(key) ==> FoldCase(key[0]) == 'u';
  }

  /** On other keys they differ: the pattern also accepts upper case and any fifth character. */
  lemma UserMessageTestsDiffer()
    ensures LikeUserMessage("USERxMESSAGE:1") && !StartsAsUserMessage("USERxMESSAGE:1")
  {
    assert USER_MESSAGE_KEY_PREFIX[0] == 'u' && "USERxMESSAGE:1"[0] == 'U';
  }
}
