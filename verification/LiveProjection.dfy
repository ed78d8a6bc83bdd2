/** In-memory projection of the active stream for reconnect replay (core/runtime/live_projection.py). */
module LiveProjection {
  import opened Events

  /** Identity of an event that later events may replace in place. */
  datatype Key =
    | Segment(kind: Kind, segmentId: string, scope: Scope)
    | Call(callId: string, scope: Scope)
    | Result(callId: string, scope: Scope)
    | Task(runId: string)

  datatype OptionalKey = NoKey | Has(key: Key)

  /** The key under which an event stays open for replacement. */
  function OpenKey(e: Event): OptionalKey {
    match e
    case Delta(kind, scope, segmentId, _, _) => Has(Segment(kind, segmentId, scope))
    case ToolCall(scope, callId, _) => Has(Call(callId, scope))
    case ToolResult(scope, callId, _) => Has(Result(callId, scope))
    case SubagentTask(_, runId, _) => Has(Task(runId))
    case _ => NoKey
  }

  /** The open event that `e` takes the place of. */
  function Target(e: Event): OptionalKey {
    if e.Complete? then Has(Segment(e.kind, e.segmentId, e.scope)) else OpenKey(e)
  }

  // ----- The list semantics: search linearly, replace in place or append -----

  function Put(events: seq<Event>, key: Key, e: Event): seq<Event> {
    if events == [] then [e]
    else if OpenKey(events[0]) == Has(key) then [e] + events[1..]
    else [events[0]] + Put(events[1..], key, e)
  }

  /** The events that satisfy `include`, in order. */
  function Included(events: seq<Event>, wanted: Event -> bool): seq<Event> {
    if events == [] then []
    else if wanted(events[0]) then [events[0]] + Included(events[1..], wanted)
    else Included(events[1..], wanted)
  }

  function NotRunState(): Event -> bool {
    (e: Event) => !e.RunState?
  }

  function Applied(events: seq<Event>, e: Event): seq<Event> {
    if e.RunState? then [e] + Included(events, NotRunState())
    else if Target(e).Has? then Put(events, Target(e).key, e)
    else if e.Done? && e.scope.nestedCallId != "" then events
    else events + [e]
  }

  lemma {:induction false} PutAbsent(events: seq<Event>, key: Key, e: Event)
    requires forall i :: 0 <= i < |events| ==> OpenKey(events[i]) != Has(key)
    ensures Put(events, key, e) == events + [e]
  {
    hide OpenKey;
    if events != [] {
      PutAbsent(events[1..], key, e);
    }
  }

  lemma {:induction false} PutPresent(events: seq<Event>, key: Key, e: Event, n: nat)
    requires n < |events| && OpenKey(events[n]) == Has(key)
    requires forall i :: 0 <= i < n ==> OpenKey(events[i]) != Has(key)
    ensures Put(events, key, e) == events[n := e]
  {
    hide OpenKey;
    if n > 0 {
      PutPresent(events[1..], key, e, n - 1);
    }
  }

  // ----- Index tables -----

  datatype Table = Segments | Calls | Results | Tasks

  function TableOf(key: Key): Table {
    match key
    case Segment(_, _, _) => Segments
    case Call(_, _) => Calls
    case Result(_, _) => Results
    case Task(_) => Tasks
  }

  datatype Tables = Tables(segments: map<Key, nat>, calls: map<Key, nat>, results: map<Key, nat>, tasks: map<Key, nat>) {
    function Of(t: Table): map<Key, nat> {
      match t
      case Segments => segments
      case Calls => calls
      case Results => results
      case Tasks => tasks
    }

    function With(key: Key, n: nat): Tables {
      match TableOf(key)
      case Segments => this.(segments := segments[key := n])
      case Calls => this.(calls := calls[key := n])
      case Results => this.(results := results[key := n])
      case Tasks => this.(tasks := tasks[key := n])
    }

    lemma WithIsLocal(key: Key, n: nat)
      ensures With(key, n).Of(TableOf(key)) == Of(TableOf(key))[key := n]
      ensures forall t :: t != TableOf(key) ==> With(key, n).Of(t) == Of(t)
    {
    }
  }

  predicate InTable(o: OptionalKey, t: Table) {
    o.Has? && TableOf(o.key) == t
  }

  /** A key is listed in `index` iff one matching open event is in the list, at that position. */
  ghost predicate Exact(events: seq<Event>, index: map<Key, nat>, t: Table) {
    && (forall k :: k in index ==> TableOf(k) == t && index[k] < |events| && OpenKey(events[index[k]]) == Has(k))
    && (forall i :: 0 <= i < |events| && InTable(OpenKey(events[i]), t) ==>
          OpenKey(events[i]).key in index && index[OpenKey(events[i]).key] == i)
  }

  ghost predicate AllExact(events: seq<Event>, tables: Tables) {
    forall t :: Exact(events, tables.Of(t), t)
  }

  /** No two open events share a key. */
  ghost predicate DistinctKeys(events: seq<Event>) {
    forall i, j :: 0 <= i < j < |events| && OpenKey(events[i]).Has? ==> OpenKey(events[i]) != OpenKey(events[j])
  }

  lemma ExactIsDistinct(events: seq<Event>, tables: Tables)
    requires AllExact(events, tables)
    ensures DistinctKeys(events)
  {
    hide OpenKey, TableOf;
    forall i, j | 0 <= i < j < |events| && OpenKey(events[i]).Has?
      ensures OpenKey(events[i]) != OpenKey(events[j])
    {
      var t := TableOf(OpenKey(events[i]).key);
      assert Exact(events, tables.Of(t), t) && InTable(OpenKey(events[i]), t);
    }
  }

  lemma AppendedExact(events: seq<Event>, index: map<Key, nat>, t: Table, e: Event)
    requires Exact(events, index, t)
    ensures !InTable(OpenKey(e), t) ==> Exact(events + [e], index, t)
    ensures InTable(OpenKey(e), t) && OpenKey(e).key !in index ==>
              Exact(events + [e], index[OpenKey(e).key := |events|], t)
  {
    hide OpenKey, TableOf;
  }

  lemma AppendKeyless(events: seq<Event>, tables: Tables, e: Event)
    requires AllExact(events, tables) && OpenKey(e) == NoKey
    ensures AllExact(events + [e], tables)
  {
    hide OpenKey, Exact;
    forall t
      ensures Exact(events + [e], tables.Of(t), t)
    {
      AppendedExact(events, tables.Of(t), t, e);
    }
  }

  lemma AppendOpen(events: seq<Event>, tables: Tables, e: Event)
    requires AllExact(events, tables) && OpenKey(e).Has?
    requires OpenKey(e).key !in tables.Of(TableOf(OpenKey(e).key))
    ensures AllExact(events + [e], tables.With(OpenKey(e).key, |events|))
  {
    hide OpenKey, Exact;
    var key := OpenKey(e).key;
    tables.WithIsLocal(key, |events|);
    forall t
      ensures Exact(events + [e], tables.With(key, |events|).Of(t), t)
    {
      AppendedExact(events, tables.Of(t), t, e);
    }
  }

  /** A key that is not listed belongs to no event of the list. */
  lemma UnlistedIsAbsent(events: seq<Event>, tables: Tables, key: Key)
    requires AllExact(events, tables) && key !in tables.Of(TableOf(key))
    ensures forall i :: 0 <= i < |events| ==> OpenKey(events[i]) != Has(key)
  {
    hide OpenKey, TableOf;
    assert Exact(events, tables.Of(TableOf(key)), TableOf(key));
    forall i | 0 <= i < |events|
      ensures OpenKey(events[i]) != Has(key)
    {
      assert OpenKey(events[i]) == Has(key) ==> InTable(OpenKey(events[i]), TableOf(key));
    }
  }

  /** A listed key belongs to the event at its position and to no other. */
  lemma ListedIsThere(events: seq<Event>, tables: Tables, key: Key)
    requires AllExact(events, tables) && key in tables.Of(TableOf(key))
    ensures var n := tables.Of(TableOf(key))[key];
            n < |events| && OpenKey(events[n]) == Has(key) && forall i :: 0 <= i < n ==> OpenKey(events[i]) != Has(key)
  {
    hide OpenKey, TableOf;
    var t := TableOf(key);
    assert Exact(events, tables.Of(t), t);
    forall i | 0 <= i < tables.Of(t)[key]
      ensures OpenKey(events[i]) != Has(key)
    {
      assert OpenKey(events[i]) == Has(key) ==> InTable(OpenKey(events[i]), t);
    }
  }

  lemma ReplacedExact(events: seq<Event>, index: map<Key, nat>, t: Table, n: nat, e: Event)
    requires Exact(events, index, t) && n < |events| && OpenKey(e) == OpenKey(events[n])
    ensures Exact(events[n := e], index, t)
  {
    hide OpenKey, TableOf;
  }

  /** Replacing an open event by one with the same key keeps the tables. */
  lemma ReplaceOpen(events: seq<Event>, tables: Tables, n: nat, e: Event)
    requires AllExact(events, tables) && n < |events| && OpenKey(e) == OpenKey(events[n])
    ensures AllExact(events[n := e], tables)
  {
    hide OpenKey, Exact;
    forall t
      ensures Exact(events[n := e], tables.Of(t), t)
    {
      ReplacedExact(events, tables.Of(t), t, n, e);
    }
  }

  lemma NextKeyIsNew(events: seq<Event>, index: map<Key, nat>, t: Table, n: nat)
    requires n < |events| && DistinctKeys(events) && Exact(events[..n], index, t)
    ensures OpenKey(events[n]).Has? ==> OpenKey(events[n]).key !in index
  {
    hide OpenKey, TableOf;
    forall k | k in index
      ensures OpenKey(events[n]) != Has(k)
    {
      assert OpenKey(events[..n][index[k]]) == Has(k);
      assert events[index[k]] == events[..n][index[k]];
    }
  }

  /** One round of the rebuild. */
  lemma Reindexed(events: seq<Event>, n: nat, tables: Tables)
    requires n < |events| && DistinctKeys(events) && AllExact(events[..n], tables)
    ensures AllExact(events[..n + 1],
                     if OpenKey(events[n]).Has? then tables.With(OpenKey(events[n]).key, n) else tables)
  {
    hide OpenKey, TableOf, DistinctKeys, Exact;
    assert events[..n + 1] == events[..n] + [events[n]];
    if OpenKey(events[n]).Has? {
      var t := TableOf(OpenKey(events[n]).key);
      assert Exact(events[..n], tables.Of(t), t);
      NextKeyIsNew(events, tables.Of(t), t, n);
      AppendOpen(events[..n], tables, events[n]);
    } else {
      assert OpenKey(events[n]) == NoKey;
      AppendKeyless(events[..n], tables, events[n]);
    }
  }

  lemma SubTable(events: seq<Event>, a: map<Key, nat>, b: map<Key, nat>, t: Table, k: Key)
    requires Exact(events, a, t) && Exact(events, b, t) && k in a
    ensures k in b && a[k] == b[k]
  {
    hide OpenKey, TableOf;
    assert InTable(OpenKey(events[a[k]]), t);
  }

  /** The list determines its tables, so two projections with the same list behave alike from then on. */
  lemma TablesAreDetermined(events: seq<Event>, a: Tables, b: Tables)
    requires AllExact(events, a) && AllExact(events, b)
    ensures a == b
  {
    hide Exact;
    forall t
      ensures a.Of(t) == b.Of(t)
    {
      assert Exact(events, a.Of(t), t) && Exact(events, b.Of(t), t);
      forall k | k in a.Of(t) { SubTable(events, a.Of(t), b.Of(t), t, k); }
      forall k | k in b.Of(t) { SubTable(events, b.Of(t), a.Of(t), t, k); }
    }
    assert a.Of(Segments) == b.Of(Segments) && a.Of(Calls) == b.Of(Calls);
    assert a.Of(Results) == b.Of(Results) && a.Of(Tasks) == b.Of(Tasks);
  }

  // ----- The class -----

  class LiveEventProjection {
    var events: seq<Event>
    var segmentIndexes: map<Key, nat>
    var toolIndexes: map<Key, nat>
    var toolResultIndexes: map<Key, nat>
    var subagentIndexes: map<Key, nat>

    function Indexes(): Tables
      reads this
    {
      Tables(segmentIndexes, toolIndexes, toolResultIndexes, subagentIndexes)
    }

    ghost predicate Valid()
      reads this
    {
      AllExact(events, Indexes())
    }

    constructor ()
      ensures Valid() && events == []
    {
      events := [];
      segmentIndexes, toolIndexes, toolResultIndexes, subagentIndexes := map[], map[], map[], map[];
    }

    method Reset(e: Event)
      requires e.RunState?
      modifies this
      ensures Valid() && events == [e]
    {
      events := [e];
      ClearIndexes();
    }

    method Snapshot(wanted: Event -> bool) returns (copy: seq<Event>)
      ensures copy == Included(events, wanted)
    {
      copy := Filter(events, wanted);
    }

    method Apply(e: Event)
      requires Valid()
      modifies this
      ensures Valid() && events == Applied(old(events), e)
    {
      hide AllExact, Included, Put, DistinctKeys;
      match e {
        case RunState(_) =>
          ExactIsDistinct(events, Indexes());
          IncludedDistinct(events, NotRunState());
          var kept := Filter(events, NotRunState());
          PrependRunState(e, kept);
          events := [e] + kept;
          RebuildIndexes();
        case Delta(_, _, _, _, _) => ApplySegment(e);
        case Complete(_, _, _, _) => ApplySegmentComplete(e);
        case ToolCall(_, _, _) => ApplyToolCall(e);
        case ToolResult(_, _, _) => ApplyToolResult(e);
        case SubagentTask(_, _, _) => ApplySubagent(e);
        case Done(scope) => if scope.nestedCallId == "" { Append(e); }
        case UserMessage(_) => Append(e);
        case TurnBoundary(_) => Append(e);
        case Error(_, _) => Append(e);
      }
    }

    method Append(e: Event)
      requires Valid() && OpenKey(e) == NoKey
      modifies `events
      ensures Valid() && events == old(events) + [e]
    {
      AppendKeyless(events, Indexes(), e);
      events := events + [e];
    }

    /** What putting an open event does, whichever table its key belongs to. */
    lemma PutOpen(e: Event)
      requires Valid() && OpenKey(e).Has?
      ensures var key := OpenKey(e).key; var index := Indexes().Of(TableOf(key));
              if key in index then
                && index[key] < |events| && Put(events, key, e) == events[index[key] := e]
                && AllExact(events[index[key] := e], Indexes())
              else
                && Put(events, key, e) == events + [e]
                && AllExact(events + [e], Indexes().With(key, |events|))
    {
      hide AllExact, OpenKey, Put, TableOf;
      var key := OpenKey(e).key;
      if key in Indexes().Of(TableOf(key)) {
        ListedIsThere(events, Indexes(), key);
        PutPresent(events, key, e, Indexes().Of(TableOf(key))[key]);
        ReplaceOpen(events, Indexes(), Indexes().Of(TableOf(key))[key], e);
      } else {
        UnlistedIsAbsent(events, Indexes(), key);
        PutAbsent(events, key, e);
        AppendOpen(events, Indexes(), e);
      }
    }

    method ApplySegment(e: Event)
      requires Valid() && e.Delta?
      modifies this
      ensures Valid() && events == Applied(old(events), e)
    {
      hide AllExact, Put;
      var key := Segment(e.kind, e.segmentId, e.scope);
      PutOpen(e);
      if key !in segmentIndexes {
        segmentIndexes := segmentIndexes[key := |events|];
        events := events + [e];
        return;
      }
      events := events[segmentIndexes[key] := e];
    }

    method ApplySegmentComplete(e: Event)
      requires Valid() && e.Complete?
      modifies this
      ensures Valid() && events == Applied(old(events), e)
    {
      hide AllExact, Put, DistinctKeys;
      var key := Segment(e.kind, e.segmentId, e.scope);
      if key !in segmentIndexes {
        UnlistedIsAbsent(events, Indexes(), key);
        PutAbsent(events, key, e);
        AppendKeyless(events, Indexes(), e);
        events := events + [e];
        return;
      }
      ListedIsThere(events, Indexes(), key);
      var n := segmentIndexes[key];
      PutPresent(events, key, e, n);
      ExactIsDistinct(events, Indexes());
      CloseKeepsDistinct(events, n, e);
      segmentIndexes := segmentIndexes - {key};
      events := events[n := e];
      RebuildIndexes();
    }

    method ApplyToolCall(e: Event)
      requires Valid() && e.ToolCall?
      modifies this
      ensures Valid() && events == Applied(old(events), e)
    {
      hide AllExact, Put;
      var key := Call(e.callId, e.scope);
      PutOpen(e);
      if key !in toolIndexes {
        toolIndexes := toolIndexes[key := |events|];
        events := events + [e];
        return;
      }
      events := events[toolIndexes[key] := e];
    }

    method ApplyToolResult(e: Event)
      requires Valid() && e.ToolResult?
      modifies this
      ensures Valid() && events == Applied(old(events), e)
    {
      hide AllExact, Put;
      var key := Result(e.callId, e.scope);
      PutOpen(e);
      if key !in toolResultIndexes {
        toolResultIndexes := toolResultIndexes[key := |events|];
        events := events + [e];
        return;
      }
      events := events[toolResultIndexes[key] := e];
    }

    method ApplySubagent(e: Event)
      requires Valid() && e.SubagentTask?
      modifies this
      ensures Valid() && events == Applied(old(events), e)
    {
      hide AllExact, Put;
      var key := Task(e.runId);
      PutOpen(e);
      if key !in subagentIndexes {
        subagentIndexes := subagentIndexes[key := |events|];
        events := events + [e];
        return;
      }
      events := events[subagentIndexes[key] := e];
    }

    method ClearIndexes()
      modifies `segmentIndexes, `toolIndexes, `toolResultIndexes, `subagentIndexes
      ensures Indexes() == Tables(map[], map[], map[], map[])
    {
      segmentIndexes, toolIndexes, toolResultIndexes, subagentIndexes := map[], map[], map[], map[];
    }

    method IndexEvent(e: Event, n: nat)
      modifies `segmentIndexes, `toolIndexes, `toolResultIndexes, `subagentIndexes
      ensures Indexes() == if OpenKey(e).Has? then old(Indexes()).With(OpenKey(e).key, n) else old(Indexes())
    {
      match e {
        case Delta(kind, scope, segmentId, _, _) =>
          segmentIndexes := segmentIndexes[Segment(kind, segmentId, scope) := n];
        case ToolCall(scope, callId, _) => toolIndexes := toolIndexes[Call(callId, scope) := n];
        case ToolResult(scope, callId, _) => toolResultIndexes := toolResultIndexes[Result(callId, scope) := n];
        case SubagentTask(_, runId, _) => subagentIndexes := subagentIndexes[Task(runId) := n];
        case _ =>
      }
    }

    method RebuildIndexes()
      requires DistinctKeys(events)
      modifies `segmentIndexes, `toolIndexes, `toolResultIndexes, `subagentIndexes
      ensures Valid()
    {
      ClearIndexes();
      assert AllExact(events[..0], Indexes());
      hide AllExact, DistinctKeys, OpenKey;
      for n := 0 to |events|
        invariant AllExact(events[..n], Indexes())
      {
        Reindexed(events, n, Indexes());
        IndexEvent(events[n], n);
      }
      assert events[..|events|] == events;
    }
  }

  method Filter(events: seq<Event>, wanted: Event -> bool) returns (kept: seq<Event>)
    ensures kept == Included(events, wanted)
  {
    kept := [];
    for i := 0 to |events|
      invariant kept + Included(events[i..], wanted) == Included(events, wanted)
    {
      assert events[i..][0] == events[i] && events[i..][1..] == events[i + 1..];
      if wanted(events[i]) { kept := kept + [events[i]]; }
    }
  }

  lemma CloseKeepsDistinct(events: seq<Event>, n: nat, e: Event)
    requires DistinctKeys(events) && n < |events| && e.Complete?
    ensures DistinctKeys(events[n := e])
  {
  }

  lemma PrependRunState(e: Event, events: seq<Event>)
    requires DistinctKeys(events) && e.RunState?
    ensures DistinctKeys([e] + events)
  {
    var after := [e] + events;
    forall i, j | 0 <= i < j < |after| && OpenKey(after[i]).Has?
      ensures OpenKey(after[i]) != OpenKey(after[j])
    {
      assert after[i] == events[i - 1] && after[j] == events[j - 1];
    }
  }

  // ----- What putting and filtering keep -----

  lemma {:induction false} PutMembers(live: seq<Event>, key: Key, e: Event, x: Event)
    requires DistinctKeys(live)
    ensures x in Put(live, key, e) <==> x == e || (x in live && OpenKey(x) != Has(key))
  {
    hide OpenKey;
    if n: nat :| n < |live| && OpenKey(live[n]) == Has(key) {
      PutPresent(live, key, e, n);
      assert live[n := e][n] == e;
      if x in live && OpenKey(x) != Has(key) {
        var i :| 0 <= i < |live| && live[i] == x;
        assert live[n := e][i] == x;
      }
    } else {
      PutAbsent(live, key, e);
    }
  }

  lemma {:induction false} IncludedMembers(live: seq<Event>, wanted: Event -> bool, x: Event)
    ensures x in Included(live, wanted) <==> x in live && wanted(x)
  {
    if live != [] {
      IncludedMembers(live[1..], wanted, x);
      assert live == [live[0]] + live[1..];
    }
  }

  // ----- Replay -----

  /** A list whose every event would be appended, were it applied to the events before it. */
  ghost predicate Replayable(events: seq<Event>) {
    && (forall i :: 0 <= i < |events| && events[i].RunState? ==> i == 0)
    && (forall i :: 0 <= i < |events| && events[i].Done? ==> events[i].scope.nestedCallId == "")
    && (forall i, j :: 0 <= i < j < |events| && OpenKey(events[i]).Has? ==> OpenKey(events[i]) != Target(events[j]))
  }

  /** `at` are the positions, in order, of the elements of `part` in `whole`. */
  ghost predicate Embeds(part: seq<Event>, whole: seq<Event>, at: seq<nat>) {
    && |at| == |part|
    && (forall i :: 0 <= i < |at| ==> at[i] < |whole| && part[i] == whole[at[i]])
    && (forall i, j :: 0 <= i < j < |at| ==> at[i] < at[j])
  }

  function Shifted(at: seq<nat>): (r: seq<nat>)
    ensures |r| == |at| && forall i :: 0 <= i < |r| ==> r[i] == at[i] + 1
  {
    seq(|at|, i requires 0 <= i < |at| => at[i] + 1)
  }

  lemma EmbedsShifted(part: seq<Event>, whole: seq<Event>, at: seq<nat>)
    requires whole != [] && Embeds(part, whole[1..], at)
    ensures Embeds(part, whole, Shifted(at))
    ensures Embeds([whole[0]] + part, whole, [0] + Shifted(at))
  {
    hide Shifted;
    var to := Shifted(at);
    assert forall i :: 0 <= i < |at| ==> whole[1..][at[i]] == whole[at[i] + 1];
  }

  lemma {:induction false} IncludedIsSubsequence(events: seq<Event>, wanted: Event -> bool) returns (at: seq<nat>)
    ensures Embeds(Included(events, wanted), events, at)
    ensures forall x :: x in Included(events, wanted) ==> wanted(x)
  {
    if events == [] {
      at := [];
    } else {
      hide Embeds, Shifted;
      var rest := IncludedIsSubsequence(events[1..], wanted);
      EmbedsShifted(Included(events[1..], wanted), events, rest);
      at := if wanted(events[0]) then [0] + Shifted(rest) else Shifted(rest);
    }
  }

  lemma IncludedDistinct(events: seq<Event>, wanted: Event -> bool)
    requires DistinctKeys(events)
    ensures DistinctKeys(Included(events, wanted))
  {
    hide OpenKey, Included;
    var at := IncludedIsSubsequence(events, wanted);
  }

  /** Any part of a replayable list is replayable. */
  lemma IncludedIsReplayable(events: seq<Event>, wanted: Event -> bool)
    requires Replayable(events)
    ensures Replayable(Included(events, wanted))
  {
    hide OpenKey, Included, Target;
    var at := IncludedIsSubsequence(events, wanted);
    var part := Included(events, wanted);
    forall i | 0 < i < |part|
      ensures !part[i].RunState?
    {
      assert at[0] < at[i] && part[i] == events[at[i]];
    }
  }

  lemma ReplaceIsReplayable(events: seq<Event>, n: nat, e: Event)
    requires Replayable(events) && n < |events| && OpenKey(events[n]).Has? && Target(e) == OpenKey(events[n])
    requires !e.RunState? && !e.Done?
    ensures Replayable(events[n := e])
  {
    var after := events[n := e];
    assert OpenKey(e).Has? ==> OpenKey(e) == OpenKey(events[n]);
    hide OpenKey, Target;
    forall i, j | 0 <= i < j < |after| && OpenKey(after[i]).Has?
      ensures OpenKey(after[i]) != Target(after[j])
    {
      if j == n {
        assert OpenKey(events[i]) != Target(events[n]);
        TargetOfOpen(events[n]);
      } else {
        assert OpenKey(events[i]).Has?;
      }
    }
  }

  lemma TargetOfOpen(e: Event)
    requires OpenKey(e).Has?
    ensures Target(e) == OpenKey(e)
  {
  }

  lemma AppendIsReplayable(events: seq<Event>, e: Event)
    requires Replayable(events) && !e.RunState? && (e.Done? ==> e.scope.nestedCallId == "")
    requires forall i :: 0 <= i < |events| && OpenKey(events[i]).Has? ==> OpenKey(events[i]) != Target(e)
    ensures Replayable(events + [e])
  {
    hide OpenKey, Target;
  }

  /** Applying an event keeps the list replayable. */
  lemma ApplyKeepsReplayable(events: seq<Event>, e: Event)
    requires Replayable(events)
    ensures Replayable(Applied(events, e))
  {
    hide Replayable, Included, Put;
    if e.RunState? {
      IncludedIsReplayable(events, NotRunState());
      StartsWithRunState(events, e);
    } else if Target(e).Has? {
      PutIsReplayable(events, e);
    } else if !(e.Done? && e.scope.nestedCallId != "") {
      AppendIsReplayable(events, e);
    }
  }

  lemma StartsWithRunState(events: seq<Event>, e: Event)
    requires Replayable(Included(events, NotRunState())) && e.RunState?
    ensures Replayable([e] + Included(events, NotRunState()))
  {
    hide Included;
    var at := IncludedIsSubsequence(events, NotRunState());
    var kept := Included(events, NotRunState());
    var after := [e] + kept;
    forall i | 0 < i < |after|
      ensures !after[i].RunState?
    {
      assert after[i] == kept[i - 1] && kept[i - 1] in kept;
    }
  }

  lemma PutIsReplayable(events: seq<Event>, e: Event)
    requires Replayable(events) && Target(e).Has?
    ensures Replayable(Put(events, Target(e).key, e))
  {
    assert !e.RunState? && !e.Done?;
    hide Put, OpenKey, Target, Replayable;
    var key := Target(e).key;
    if n: nat :| n < |events| && OpenKey(events[n]) == Has(key) {
      FirstOpen(events, n);
      PutPresent(events, key, e, n);
      ReplaceIsReplayable(events, n, e);
    } else {
      PutAbsent(events, key, e);
      AppendIsReplayable(events, e);
    }
  }

  lemma FirstOpen(events: seq<Event>, n: nat)
    requires Replayable(events) && n < |events| && OpenKey(events[n]).Has?
    ensures forall i :: 0 <= i < n ==> OpenKey(events[i]) != OpenKey(events[n])
  {
    TargetOfOpen(events[n]);
  }

  /** Fold of a list of events into the empty projection. */
  function Replayed(events: seq<Event>): seq<Event> {
    if events == [] then [] else Applied(Replayed(events[..|events| - 1]), events[|events| - 1])
  }

  lemma {:induction false} ReplayIsIdentity(events: seq<Event>)
    requires Replayable(events)
    ensures Replayed(events) == events
  {
    if events != [] {
      var front, e := events[..|events| - 1], events[|events| - 1];
      assert events == front + [e];
      ReplayIsIdentity(front);
      AppliedIsAppended(front, e);
    }
  }

  lemma AppliedIsAppended(front: seq<Event>, e: Event)
    requires Replayable(front + [e])
    ensures Applied(front, e) == front + [e]
  {
    hide OpenKey, Put;
    var all := front + [e];
    assert all[|front|] == e && forall i :: 0 <= i < |front| ==> all[i] == front[i];
    if e.RunState? {
      assert front == [];
    } else if Target(e).Has? {
      PutAbsent(front, Target(e).key, e);
    }
  }

  datatype Operation = Publish(event: Event) | Begin(runState: Event)

  predicate IsOperation(op: Operation) {
    op.Begin? ==> op.runState.RunState?
  }

  /** The list after a run of `reset` and `apply` calls. */
  function AfterRun(run: seq<Operation>): seq<Event> {
    if run == [] then []
    else
      match run[|run| - 1]
      case Publish(e) => Applied(AfterRun(run[..|run| - 1]), e)
      case Begin(e) => [e]
  }

  /** Every reachable list is replayable; in particular at most one run-state event exists, and it is first. */
  lemma {:induction false} EveryRunIsReplayable(run: seq<Operation>)
    requires forall op :: op in run ==> IsOperation(op)
    ensures Replayable(AfterRun(run))
  {
    if run != [] {
      var front, op := run[..|run| - 1], run[|run| - 1];
      assert op in run && forall o :: o in front ==> o in run;
      EveryRunIsReplayable(front);
      if op.Publish? {
        hide Replayable;
        ApplyKeepsReplayable(AfterRun(front), op.event);
      }
    }
  }

  /** Folding any snapshot of a reachable projection into an empty one reproduces it. */
  lemma SnapshotReplays(run: seq<Operation>, wanted: Event -> bool)
    requires forall op :: op in run ==> IsOperation(op)
    ensures var snapshot := Included(AfterRun(run), wanted); Replayed(snapshot) == snapshot
  {
    EveryRunIsReplayable(run);
    IncludedIsReplayable(AfterRun(run), wanted);
    ReplayIsIdentity(Included(AfterRun(run), wanted));
  }

  /** A list replays to itself exactly when it is replayable. */
  lemma ReplayableIsExact(events: seq<Event>)
    ensures Replayed(events) == events <==> Replayable(events)
  {
    if Replayed(events) == events {
      var run := seq(|events|, i requires 0 <= i < |events| => Publish(events[i]));
      ReplayIsARun(events, run);
      EveryRunIsReplayable(run);
    }
    if Replayable(events) { ReplayIsIdentity(events); }
  }

  lemma {:induction false} ReplayIsARun(events: seq<Event>, run: seq<Operation>)
    requires |run| == |events| && forall i :: 0 <= i < |run| ==> run[i] == Publish(events[i])
    ensures AfterRun(run) == Replayed(events)
  {
    hide Applied;
    if run != [] {
      ReplayIsARun(events[..|events| - 1], run[..|run| - 1]);
    }
  }

  // ----- What a run leaves, by the fields of the events -----

  /** `e` is a newer state of the open event `x`: of the same segment, call, result or task. */
  predicate Supersedes(e: Event, x: Event) {
    || (x.Delta? && (e.Delta? || e.Complete?) && e.kind == x.kind && e.segmentId == x.segmentId && e.scope == x.scope)
    || (x.ToolCall? && e.ToolCall? && e.callId == x.callId && e.scope == x.scope)
    || (x.ToolResult? && e.ToolResult? && e.callId == x.callId && e.scope == x.scope)
    || (x.SubagentTask? && e.SubagentTask? && e.runId == x.runId)
  }

  /** The end of a nested run is not shown. */
  predicate IsHidden(e: Event) {
    e.Done? && e.scope.nestedCallId != ""
  }

  lemma SupersedesByKey(e: Event, x: Event)
    ensures Supersedes(e, x) <==> Target(e).Has? && OpenKey(x) == Target(e)
  {
  }

  lemma DistinctFromReplayable(events: seq<Event>)
    requires Replayable(events)
    ensures DistinctKeys(events)
  {
    forall i, j | 0 <= i < j < |events| && OpenKey(events[i]).Has?
      ensures OpenKey(events[i]) != OpenKey(events[j])
    {
      if OpenKey(events[j]).Has? { TargetOfOpen(events[j]); }
    }
  }

  /** Applying an event replaces what it supersedes where that stands, and is otherwise put behind, unless it is hidden. */
  lemma AppliedMeans(events: seq<Event>, e: Event, n: nat)
    requires Replayable(events) && !e.RunState? && n <= |events|
    ensures n < |events| && Supersedes(e, events[n]) ==> Applied(events, e) == events[n := e]
    ensures (forall i :: 0 <= i < |events| ==> !Supersedes(e, events[i])) ==>
              Applied(events, e) == if IsHidden(e) then events else events + [e]
  {
    forall i | 0 <= i < |events| { SupersedesByKey(e, events[i]); }
    if n < |events| && Supersedes(e, events[n]) {
      FirstOpen(events, n);
      PutPresent(events, Target(e).key, e, n);
    }
    if Target(e).Has? && forall i :: 0 <= i < |events| ==> !Supersedes(e, events[i]) {
      PutAbsent(events, Target(e).key, e);
    }
    hide OpenKey, Put, Supersedes, Replayable;
  }

  function EventOf(op: Operation): Event {
    if op.Publish? then op.event else op.runState
  }

  /** The operation takes `x` out of the list: a new run begins, or a newer state comes. */
  predicate Drops(op: Operation, x: Event) {
    op.Begin? || Supersedes(op.event, x) || (op.event.RunState? && x.RunState?)
  }

  predicate Survives(run: seq<Operation>, i: nat)
    requires i < |run|
  {
    !(run[i].Publish? && IsHidden(run[i].event)) && forall j :: i < j < |run| ==> !Drops(run[j], EventOf(run[i]))
  }

  /** An operation of the run brought `x`, and none took it out since. */
  ghost predicate SurvivesIn(run: seq<Operation>, x: Event) {
    exists i :: 0 <= i < |run| && EventOf(run[i]) == x && Survives(run, i)
  }

  lemma AppliedMembers(events: seq<Event>, e: Event, x: Event)
    requires DistinctKeys(events)
    ensures x in Applied(events, e) <==> (x == e && !IsHidden(e)) || (x in events && !Drops(Publish(e), x))
  {
    SupersedesByKey(e, x);
    if e.RunState? {
      IncludedMembers(events, NotRunState(), x);
    } else if Target(e).Has? {
      PutMembers(events, Target(e).key, e, x);
    }
    hide DistinctKeys, Included, Put, Supersedes;
  }

  lemma SurvivorsMove(run: seq<Operation>, i: nat)
    requires i < |run| - 1
    ensures Survives(run, i) <==> Survives(run[..|run| - 1], i) && !Drops(run[|run| - 1], EventOf(run[i]))
  {
    hide Drops, IsHidden;
    var front := run[..|run| - 1];
    assert front[i] == run[i] && forall j :: i < j < |front| ==> front[j] == run[j];
  }

  /**
   * What is in the list after a run: of every segment, call, result and task the latest state since the run began, of
   * everything else each event, the last run state alone, and no end of a nested run.
   */
  lemma {:induction false} SurvivorsAreListed(run: seq<Operation>, x: Event)
    requires forall op :: op in run ==> IsOperation(op)
    ensures x in AfterRun(run) <==> SurvivesIn(run, x)
  {
    hide Survives, Replayable, DistinctKeys, Applied, Drops, IsHidden;
    if run != [] {
      var front, op := run[..|run| - 1], run[|run| - 1];
      assert op in run && forall o :: o in front ==> o in run;
      SurvivorsAreListed(front, x);
      OneMoreSurvivor(run, x);
      EveryRunIsReplayable(front);
      DistinctFromReplayable(AfterRun(front));
      if op.Publish? { AppliedMembers(AfterRun(front), op.event, x); }
      BeginDrops(op, x);
    }
  }

  lemma OneMoreSurvivor(run: seq<Operation>, x: Event)
    requires run != []
    ensures var front, op := run[..|run| - 1], run[|run| - 1];
            SurvivesIn(run, x) <==> (EventOf(op) == x && !(op.Publish? && IsHidden(op.event))) || (SurvivesIn(front, x) && !Drops(op, x))
  {
    hide Survives, Drops, IsHidden;
    var front, op := run[..|run| - 1], run[|run| - 1];
    LastSurvives(run);
    forall i | 0 <= i < |front|
      ensures front[i] == run[i] && (Survives(run, i) <==> Survives(front, i) && !Drops(op, EventOf(front[i])))
    {
      SurvivorsMove(run, i);
    }
  }

  lemma LastSurvives(run: seq<Operation>)
    requires run != []
    ensures Survives(run, |run| - 1) <==> !(run[|run| - 1].Publish? && IsHidden(run[|run| - 1].event))
  {
  }

  lemma BeginDrops(op: Operation, x: Event)
    ensures op.Begin? ==> Drops(op, x)
  {
  }
}
