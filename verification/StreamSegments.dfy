/**
 * Streamed text segments: the SDK normalizer (core/runtime/events.py), the delta buffers
 * (core/runtime/partial_context.py) and their agreement with the live projection.
 */
module StreamSegments {
  import opened Events
  import opened LiveProjection
  import Decimal
  import opened Options

  datatype SegmentKey =
    SegmentKey(kind: Kind, responseIndex: int, outputIndex: int, contentIndex: int, summaryIndex: int)

  datatype StreamSegment = StreamSegment(segmentId: string, text: string, complete: bool)

  /** Which of the three streamed texts of a response an event belongs to. */
  datatype Part = OutputText(contentIndex: int) | ReasoningText(contentIndex: int) | ReasoningSummary(summaryIndex: int)

  datatype SdkEvent =
    | ResponseCreated
    | ResponseEnded
    | PartDelta(part: Part, outputIndex: int, delta: string)
    | PartDone(part: Part, outputIndex: int, text: string)
    | ResponseError(message: string)
    | ToolCalled(callId: string, name: string)
    | ToolOutput(callId: string, output: string)
    | OtherRunItem(endsResponse: bool)
    | Unrelated

  const UNSCOPED := Scope("", "")

  function PartKey(part: Part, responseIndex: int, outputIndex: int): SegmentKey {
    match part
    case OutputText(c) => SegmentKey(Text, responseIndex, outputIndex, c, -1)
    case ReasoningText(c) => SegmentKey(Thinking, responseIndex, outputIndex, c, -1)
    case ReasoningSummary(n) => SegmentKey(Thinking, responseIndex, outputIndex, -1, n)
  }

  // ----- Segment ids -----

  function KindName(kind: Kind): string {
    if kind == Text then "text" else "thinking"
  }

  function SegmentId(scope: string, kind: Kind, index: nat): string {
    if scope == "" then KindName(kind) + "_" + Decimal.Show(index)
    else scope + "_" + KindName(kind) + "_" + Decimal.Show(index)
  }

  /** A scope never gives two segments the same id. */
  lemma SegmentIdsAreUnique(scope: string, k1: Kind, n1: nat, k2: Kind, n2: nat)
    requires SegmentId(scope, k1, n1) == SegmentId(scope, k2, n2)
    ensures k1 == k2 && n1 == n2
  {
    hide Decimal.Show;
    var a, b := KindName(k1) + "_" + Decimal.Show(n1), KindName(k2) + "_" + Decimal.Show(n2);
    if scope != "" {
      assert SegmentId(scope, k1, n1) == (scope + "_") + a;
      assert SegmentId(scope, k2, n2) == (scope + "_") + b;
      Decimal.Cancel(scope + "_", a, b);
    }
    assert a[1] == (if k1 == Text then 'e' else 'h') && b[1] == (if k2 == Text then 'e' else 'h');
    Decimal.Cancel(KindName(k1) + "_", Decimal.Show(n1), Decimal.Show(n2));
    Decimal.ShowInjective(n1, n2);
  }

  ghost predicate Owned(scope: string, id: string) {
    exists kind: Kind, n: nat :: id == SegmentId(scope, kind, n)
  }

  // ----- Normalizer state and transitions -----

  datatype Normalizer = Normalizer(
    segments: map<SegmentKey, StreamSegment>, nextIndex: nat, responseIndex: int, responseOpen: bool)

  const INITIAL := Normalizer(map[], 1, 0, false)

  function Begun(n: Normalizer): Normalizer {
    n.(responseIndex := n.responseIndex + 1, responseOpen := true)
  }

  /** The state once the current response index has been read. */
  function InResponse(n: Normalizer): Normalizer {
    if n.responseOpen then n else Begun(n)
  }

  predicate NeedsSegment(n: Normalizer, key: SegmentKey, complete: bool) {
    key !in n.segments || (n.segments[key].complete && !complete)
  }

  function Opened(scope: string, n: Normalizer, key: SegmentKey, complete: bool): (r: Normalizer)
    ensures key in r.segments
  {
    if NeedsSegment(n, key, complete) then
      n.(segments := n.segments[key := StreamSegment(SegmentId(scope, key.kind, n.nextIndex), "", false)],
         nextIndex := n.nextIndex + 1)
    else n
  }

  function Extended(scope: string, n: Normalizer, key: SegmentKey, delta: string): Normalizer {
    var o := Opened(scope, n, key, false);
    o.(segments := o.segments[key := o.segments[key].(text := o.segments[key].text + delta)])
  }

  function Completed(scope: string, n: Normalizer, key: SegmentKey, text: string): Normalizer {
    var o := Opened(scope, n, key, true);
    o.(segments := o.segments[key := o.segments[key].(text := text, complete := true)])
  }

  /** State and emitted event after one SDK event. */
  function Normalized(scope: string, n: Normalizer, e: SdkEvent): (Normalizer, Option<Event>) {
    match e
    case ResponseCreated => (Begun(n), None)
    case ResponseEnded => (n.(responseOpen := false), None)
    case PartDelta(part, outputIndex, delta) =>
      var in_ := InResponse(n);
      var key := PartKey(part, in_.responseIndex, outputIndex);
      var after := Extended(scope, in_, key, delta);
      (after, Some(Delta(key.kind, UNSCOPED, Opened(scope, in_, key, false).segments[key].segmentId, delta,
                         Opened(scope, in_, key, false).segments[key].text + delta)))
    case PartDone(part, outputIndex, text) =>
      var in_ := InResponse(n);
      var key := PartKey(part, in_.responseIndex, outputIndex);
      (Completed(scope, in_, key, text),
       Some(Complete(key.kind, UNSCOPED, Opened(scope, in_, key, true).segments[key].segmentId, text)))
    case ResponseError(message) => (n, Some(Error(UNSCOPED, message)))
    case ToolCalled(callId, name) => (n.(responseOpen := false), Some(ToolCall(UNSCOPED, callId, name)))
    case ToolOutput(callId, output) => (n.(responseOpen := false), Some(ToolResult(UNSCOPED, callId, output)))
    case OtherRunItem(endsResponse) => (if endsResponse then n.(responseOpen := false) else n, None)
    case Unrelated => (n, None)
  }

  /** The id of a segment that was opened before the next one. */
  ghost predicate Issued(scope: string, kind: Kind, id: string, next: nat) {
    exists m: nat :: m < next && id == SegmentId(scope, kind, m)
  }

  /** Every segment has an id issued for its kind, and no two have the same. */
  ghost predicate SegmentsSound(scope: string, n: Normalizer) {
    && (forall k :: k in n.segments ==> Issued(scope, k.kind, n.segments[k].segmentId, n.nextIndex))
    && (forall k, l :: k in n.segments && l in n.segments && k != l ==> n.segments[k].segmentId != n.segments[l].segmentId)
  }

  lemma NewIdIsFree(scope: string, kind: Kind, id: string, next: nat, other: Kind)
    requires Issued(scope, kind, id, next)
    ensures id != SegmentId(scope, other, next)
    ensures Issued(scope, kind, id, next + 1)
  {
    hide SegmentId;
    var m: nat :| m < next && id == SegmentId(scope, kind, m);
    if SegmentId(scope, kind, m) == SegmentId(scope, other, next) { SegmentIdsAreUnique(scope, kind, m, other, next); }
  }

  lemma OpenedIsSound(scope: string, n: Normalizer, key: SegmentKey, complete: bool)
    requires SegmentsSound(scope, n)
    ensures SegmentsSound(scope, Opened(scope, n, key, complete))
  {
    hide SegmentId, Issued;
    if NeedsSegment(n, key, complete) {
      var o := Opened(scope, n, key, complete);
      assert Issued(scope, key.kind, SegmentId(scope, key.kind, n.nextIndex), n.nextIndex + 1) by {
        IssuedNow(scope, key.kind, n.nextIndex);
      }
      forall k | k in n.segments {
        NewIdIsFree(scope, k.kind, n.segments[k].segmentId, n.nextIndex, key.kind);
      }
    }
  }

  lemma IssuedNow(scope: string, kind: Kind, next: nat)
    ensures Issued(scope, kind, SegmentId(scope, kind, next), next + 1)
  {
  }

  /** Writing a segment's text and completeness leaves the ids alone. */
  lemma WritingIsSound(scope: string, n: Normalizer, key: SegmentKey, text: string, complete: bool)
    requires SegmentsSound(scope, n) && key in n.segments
    ensures SegmentsSound(scope, n.(segments := n.segments[key := n.segments[key].(text := text, complete := complete)]))
  {
    hide SegmentId, Issued;
  }

  lemma NormalizedIsSound(scope: string, n: Normalizer, e: SdkEvent)
    requires SegmentsSound(scope, n)
    ensures SegmentsSound(scope, Normalized(scope, n, e).0)
  {
    hide SegmentId, Issued, Opened;
    var m := InResponse(n);
    match e {
      case PartDelta(part, outputIndex, delta) =>
        var key := PartKey(part, m.responseIndex, outputIndex);
        OpenedIsSound(scope, m, key, false);
        var o := Opened(scope, m, key, false);
        WritingIsSound(scope, o, key, o.segments[key].text + delta, o.segments[key].complete);
      case PartDone(part, outputIndex, text) =>
        var key := PartKey(part, m.responseIndex, outputIndex);
        OpenedIsSound(scope, m, key, true);
        WritingIsSound(scope, Opened(scope, m, key, true), key, text, true);
      case _ =>
    }
  }

  /** The segment whose text the event shows. */
  ghost predicate ShowsSegment(n: Normalizer, e: Event) {
    match e
    case Delta(kind, _, id, _, text) => exists k :: k in n.segments && k.kind == kind && n.segments[k] == StreamSegment(id, text, false)
    case Complete(kind, _, id, text) => exists k :: k in n.segments && k.kind == kind && n.segments[k] == StreamSegment(id, text, true)
    case _ => true
  }

  lemma EventShowsSegment(scope: string, n: Normalizer, e: SdkEvent)
    requires Normalized(scope, n, e).1.Some?
    ensures ShowsSegment(Normalized(scope, n, e).0, Normalized(scope, n, e).1.value)
  {
    hide SegmentId;
    var m, after := InResponse(n), Normalized(scope, n, e).0;
    match e {
      case PartDelta(part, outputIndex, delta) => assert PartKey(part, m.responseIndex, outputIndex) in after.segments;
      case PartDone(part, outputIndex, text) => assert PartKey(part, m.responseIndex, outputIndex) in after.segments;
      case _ =>
    }
  }

  class SdkStreamEventNormalizer {
    var segments: map<SegmentKey, StreamSegment>
    var nextSegmentIndex: nat
    var responseIndex: int
    var responseOpen: bool
    const segmentScope: string

    function State(): Normalizer
      reads this
    {
      Normalizer(segments, nextSegmentIndex, responseIndex, responseOpen)
    }

    ghost predicate Valid()
      reads this
    {
      SegmentsSound(segmentScope, State())
    }

    constructor (scope: string)
      ensures Valid() && State() == INITIAL && segmentScope == scope
    {
      segments, nextSegmentIndex, responseIndex, responseOpen := map[], 1, 0, false;
      segmentScope := scope;
    }

    method BeginResponse() returns (index: int)
      modifies `responseIndex, `responseOpen
      ensures State() == Begun(old(State())) && index == responseIndex
    {
      responseIndex := responseIndex + 1;
      responseOpen := true;
      index := responseIndex;
    }

    method ResponseIndex() returns (index: int)
      modifies `responseIndex, `responseOpen
      ensures State() == InResponse(old(State())) && index == responseIndex
    {
      if !responseOpen {
        index := BeginResponse();
        return;
      }
      index := responseIndex;
    }

    method OpenSegment(key: SegmentKey, complete: bool) returns (id: string)
      modifies `segments, `nextSegmentIndex
      ensures var o := Opened(segmentScope, old(State()), key, complete);
              && id == o.segments[key].segmentId
              && State() == if complete then o.(segments := o.segments[key := o.segments[key].(complete := true)]) else o
    {
      if key !in segments || (segments[key].complete && !complete) {
        segments := segments[key := StreamSegment(SegmentId(segmentScope, key.kind, nextSegmentIndex), "", false)];
        nextSegmentIndex := nextSegmentIndex + 1;
      }
      id := segments[key].segmentId;
      if complete {
        segments := segments[key := segments[key].(complete := true)];
      }
    }

    method AppendDelta(key: SegmentKey, delta: string) returns (id: string, text: string)
      modifies `segments, `nextSegmentIndex
      ensures State() == Extended(segmentScope, old(State()), key, delta)
      ensures key in segments && segments[key] == StreamSegment(id, text, segments[key].complete)
      ensures id == Opened(segmentScope, old(State()), key, false).segments[key].segmentId
    {
      id := OpenSegment(key, false);
      segments := segments[key := segments[key].(text := segments[key].text + delta)];
      text := segments[key].text;
    }

    method CompleteText(key: SegmentKey, text: string) returns (id: string)
      modifies `segments, `nextSegmentIndex
      ensures State() == Completed(segmentScope, old(State()), key, text)
      ensures id == Opened(segmentScope, old(State()), key, true).segments[key].segmentId
    {
      id := OpenSegment(key, true);
      var segment := segments[key];
      segments := segments[key := segment.(text := text)];
      assert segment.(text := text) == segment.(text := text, complete := true);
    }

    /** A text event carries the id and the text of one of the segments, and no two segments share an id. */
    method EventFromSdkStream(e: SdkEvent) returns (event: Option<Event>)
      requires Valid()
      modifies this
      ensures Valid() && (State(), event) == Normalized(segmentScope, old(State()), e)
      ensures event.Some? ==> ShowsSegment(State(), event.value)
    {
      NormalizedIsSound(segmentScope, State(), e);
      if Normalized(segmentScope, State(), e).1.Some? { EventShowsSegment(segmentScope, State(), e); }
      hide SegmentsSound, ShowsSegment, Normalized;
      event := Normalize(e);
    }

    method Normalize(e: SdkEvent) returns (event: Option<Event>)
      modifies this
      ensures (State(), event) == Normalized(segmentScope, old(State()), e)
    {
      event := None;
      match e {
        case ResponseCreated =>
          var index := BeginResponse();
        case ResponseEnded =>
          responseOpen := false;
        case PartDelta(part, outputIndex, delta) =>
          var index := ResponseIndex();
          var key := PartKey(part, index, outputIndex);
          var id, text := AppendDelta(key, delta);
          event := Some(Delta(key.kind, UNSCOPED, id, delta, text));
        case PartDone(part, outputIndex, text) =>
          var index := ResponseIndex();
          var key := PartKey(part, index, outputIndex);
          var id := CompleteText(key, text);
          event := Some(Complete(key.kind, UNSCOPED, id, text));
        case ResponseError(message) =>
          event := Some(Error(UNSCOPED, message));
        case ToolCalled(callId, name) =>
          event := Some(ToolCall(UNSCOPED, callId, name));
          responseOpen := false;
        case ToolOutput(callId, output) =>
          event := Some(ToolResult(UNSCOPED, callId, output));
          responseOpen := false;
        case OtherRunItem(endsResponse) =>
          if endsResponse { responseOpen := false; }
        case Unrelated =>
      }
    }
  }

  // ----- Delta buffers -----

  datatype DeltaBuffer = DeltaBuffer(kind: Kind, content: string, complete: bool)

  type Buffers = map<string, DeltaBuffer>

  function Tracked(buffers: Buffers, e: Event): Buffers {
    match e
    case Delta(kind, _, id, delta, _) =>
      if id in buffers then buffers[id := buffers[id].(content := buffers[id].content + delta)]
      else buffers[id := DeltaBuffer(kind, delta, false)]
    case Complete(kind, _, id, text) =>
      if id in buffers then buffers[id := buffers[id].(content := text, complete := true)]
      else buffers[id := DeltaBuffer(kind, text, true)]
    case _ => buffers
  }

  function FinalEvent(id: string, buffer: DeltaBuffer): Event {
    Complete(buffer.kind, UNSCOPED, id, buffer.content)
  }

  predicate Unfinished(buffer: DeltaBuffer) {
    buffer.content != "" && !buffer.complete
  }

  /** `e` completes an unfinished buffer with its content. */
  predicate Finalizes(buffers: Buffers, e: Event) {
    && e.Complete? && e.segmentId in buffers
    && Unfinished(buffers[e.segmentId]) && e == FinalEvent(e.segmentId, buffers[e.segmentId])
  }

  class DeltaBuffers {
    var buffers: Buffers
    /** The ids in the order in which their buffers were created. */
    var order: seq<string>

    ghost predicate Valid()
      reads this
    {
      && (forall id :: id in order <==> id in buffers)
      && (forall i, j :: 0 <= i < j < |order| ==> order[i] != order[j])
    }

    constructor ()
      ensures Valid() && buffers == map[]
    {
      buffers, order := map[], [];
    }

    method EnsureBuffer(id: string, kind: Kind)
      requires Valid()
      modifies this
      ensures Valid()
      ensures buffers == if id in old(buffers) then old(buffers) else old(buffers)[id := DeltaBuffer(kind, "", false)]
    {
      if id !in buffers {
        buffers := buffers[id := DeltaBuffer(kind, "", false)];
        order := order + [id];
      }
    }

    method TrackDelta(e: Event)
      requires Valid()
      modifies this
      ensures Valid() && buffers == Tracked(old(buffers), e)
    {
      match e {
        case Delta(kind, _, id, delta, _) =>
          EnsureBuffer(id, kind);
          buffers := buffers[id := buffers[id].(content := buffers[id].content + delta)];
          assert "" + delta == delta;
        case Complete(kind, _, id, text) =>
          EnsureBuffer(id, kind);
          buffers := buffers[id := buffers[id].(content := text)];
          buffers := buffers[id := buffers[id].(complete := true)];
        case _ =>
      }
    }

    /** One completion for every unfinished segment and nothing else. */
    method IncompleteSegmentEvents() returns (events: seq<Event>)
      requires Valid()
      ensures forall id :: id in buffers && Unfinished(buffers[id]) ==> FinalEvent(id, buffers[id]) in events
      ensures forall e :: e in events ==> Finalizes(buffers, e)
      ensures forall i, j :: 0 <= i < j < |events| ==> events[i] != events[j]
    {
      events := [];
      for i := 0 to |order|
        invariant forall k :: 0 <= k < i && Unfinished(buffers[order[k]]) ==> FinalEvent(order[k], buffers[order[k]]) in events
        invariant forall e :: e in events ==> Finalizes(buffers, e) && e.segmentId in order[..i]
        invariant forall k, j :: 0 <= k < j < |events| ==> events[k] != events[j]
      {
        var buffer := buffers[order[i]];
        if buffer.content == "" || buffer.complete { continue; }
        events := events + [FinalEvent(order[i], buffer)];
      }
    }
  }

  // ----- One turn: normalize, track, publish; interleaved with the rest of the session -----

  /** Publication adds the nested scope of the turn. */
  function Tagged(e: Event, tag: Scope): Event {
    match e
    case Delta(kind, _, id, delta, text) => Delta(kind, tag, id, delta, text)
    case Complete(kind, _, id, text) => Complete(kind, tag, id, text)
    case ToolCall(_, callId, name) => ToolCall(tag, callId, name)
    case ToolResult(_, callId, output) => ToolResult(tag, callId, output)
    case Error(_, message) => Error(tag, message)
    case _ => e
  }

  /** Publication changes nothing but the scope. */
  lemma TagIsAdded(e: Event, tag: Scope)
    requires e.Delta? || e.Complete? || e.ToolCall? || e.ToolResult? || e.Error?
    ensures Tagged(e, tag).scope == tag && Tagged(Tagged(e, tag), e.scope) == e
  {
  }

  datatype Turn = Turn(normalizer: Normalizer, buffers: Buffers, live: seq<Event>, cut: bool)

  datatype Step =
    | FromSdk(sdk: SdkEvent)
    | Elsewhere(event: Event)
    | RunStarted(runState: Event)

  /** An event that is no text or thinking event of this turn; segment scopes are unique to a turn. */
  ghost predicate Foreign(scope: string, e: Event) {
    e.Delta? || e.Complete? ==> !Owned(scope, e.segmentId)
  }

  ghost predicate Allowed(scope: string, step: Step) {
    match step
    case FromSdk(_) => true
    case Elsewhere(e) => Foreign(scope, e)
    case RunStarted(e) => e.RunState?
  }

  function Next(scope: string, tag: Scope, s: Turn, step: Step): Turn {
    match step
    case FromSdk(e) =>
      var (n, o) := Normalized(scope, s.normalizer, e);
      if o.None? then s.(normalizer := n)
      else Turn(n, Tracked(s.buffers, o.value), Applied(s.live, Tagged(o.value, tag)), s.cut)
    case Elsewhere(e) => s.(live := Applied(s.live, e))
    case RunStarted(e) => s.(live := [e], cut := true)
  }

  function Run(scope: string, tag: Scope, s: Turn, steps: seq<Step>): Turn {
    if steps == [] then s
    else Next(scope, tag, Run(scope, tag, s, steps[..|steps| - 1]), steps[|steps| - 1])
  }

  // ----- The invariant -----

  /** Every segment has its own buffer, with the same text and the same completeness. */
  ghost predicate BuffersMatch(scope: string, n: Normalizer, buffers: Buffers) {
    && (forall k :: k in n.segments ==>
          && n.segments[k].segmentId in buffers
          && buffers[n.segments[k].segmentId] == DeltaBuffer(k.kind, n.segments[k].text, n.segments[k].complete))
    && (forall k, m :: k in n.segments && m in n.segments && k != m ==> n.segments[k].segmentId != n.segments[m].segmentId)
    && (forall id :: id in buffers ==> Owned(scope, id))
    && (forall kind: Kind, m: nat :: m >= n.nextIndex ==> SegmentId(scope, kind, m) !in buffers)
  }

  /** Every open delta of the turn shows the text of an incomplete buffer. */
  ghost predicate LiveMatches(scope: string, tag: Scope, buffers: Buffers, live: seq<Event>) {
    forall x :: x in live && x.Delta? && Owned(scope, x.segmentId) ==>
      && x.segmentId in buffers && x.scope == tag
      && buffers[x.segmentId] == DeltaBuffer(x.kind, x.text, false)
  }

  ghost predicate ShownOpen(live: seq<Event>, id: string) {
    exists x :: x in live && x.Delta? && x.segmentId == id
  }

  ghost predicate Agrees(scope: string, tag: Scope, s: Turn) {
    && BuffersMatch(scope, s.normalizer, s.buffers)
    && LiveMatches(scope, tag, s.buffers, s.live)
    && DistinctKeys(s.live)
    && (!s.cut ==> forall id :: id in s.buffers && !s.buffers[id].complete ==> ShownOpen(s.live, id))
  }

  // ----- What publishing one event does to the open events -----

  lemma AppliedDistinct(live: seq<Event>, e: Event)
    requires DistinctKeys(live)
    ensures DistinctKeys(Applied(live, e))
  {
    hide DistinctKeys, Included, Put;
    if e.RunState? {
      IncludedDistinct(live, NotRunState());
      PrependRunState(e, Included(live, NotRunState()));
    } else if Target(e).Has? {
      PutDistinct(live, Target(e).key, e);
    } else {
      AppendDistinct(live, e);
    }
  }

  lemma AppendDistinct(live: seq<Event>, e: Event)
    requires DistinctKeys(live)
    requires OpenKey(e).Has? ==> forall i :: 0 <= i < |live| ==> OpenKey(live[i]) != OpenKey(e)
    ensures DistinctKeys(live + [e])
  {
    hide OpenKey;
  }

  lemma PutDistinct(live: seq<Event>, key: Key, e: Event)
    requires DistinctKeys(live) && Target(e) == Has(key)
    ensures DistinctKeys(Put(live, key, e))
  {
    assert OpenKey(e).Has? ==> OpenKey(e) == Has(key);
    hide OpenKey, Put, Target;
    if n: nat :| n < |live| && OpenKey(live[n]) == Has(key) {
      FirstWithKey(live, n);
      PutPresent(live, key, e, n);
      ReplaceDistinct(live, n, e);
    } else {
      PutAbsent(live, key, e);
      AppendDistinct(live, e);
    }
  }

  lemma FirstWithKey(live: seq<Event>, n: nat)
    requires DistinctKeys(live) && n < |live| && OpenKey(live[n]).Has?
    ensures forall i :: 0 <= i < |live| && i != n ==> OpenKey(live[i]) != OpenKey(live[n])
  {
    hide OpenKey;
  }

  lemma ReplaceDistinct(live: seq<Event>, n: nat, e: Event)
    requires DistinctKeys(live) && n < |live|
    requires OpenKey(e).Has? ==> OpenKey(e) == OpenKey(live[n])
    ensures DistinctKeys(live[n := e])
  {
    hide OpenKey;
  }

  /** The open events after publication: the published one, and those it did not replace. */
  lemma AppliedOpen(live: seq<Event>, e: Event, x: Event)
    requires DistinctKeys(live) && x.Delta?
    ensures x in Applied(live, e) <==> x == e || (x in live && OpenKey(x) != Target(e))
  {
    hide DistinctKeys, Included, Put;
    if e.RunState? {
      IncludedMembers(live, NotRunState(), x);
    } else if Target(e).Has? {
      PutMembers(live, Target(e).key, e, x);
    }
  }

  /** Foreign events leave the open deltas of the turn alone. */
  lemma ForeignKeeps(scope: string, live: seq<Event>, e: Event, x: Event)
    requires DistinctKeys(live) && Foreign(scope, e) && x.Delta? && Owned(scope, x.segmentId)
    ensures x in Applied(live, e) <==> x in live
  {
    hide DistinctKeys, Owned, Applied;
    AppliedOpen(live, e, x);
  }

  // ----- Each step keeps the agreement -----

  lemma OpenedFresh(scope: string, n: Normalizer, buffers: Buffers, key: SegmentKey)
    requires BuffersMatch(scope, n, buffers)
    ensures SegmentId(scope, key.kind, n.nextIndex) !in buffers
    ensures Owned(scope, SegmentId(scope, key.kind, n.nextIndex))
  {
    hide SegmentId;
  }

  /** Writing one buffer together with its segment. */
  lemma WriteBoth(scope: string, n: Normalizer, buffers: Buffers, key: SegmentKey, text: string, complete: bool)
    requires BuffersMatch(scope, n, buffers) && key in n.segments
    ensures var id := n.segments[key].segmentId;
            BuffersMatch(scope, n.(segments := n.segments[key := StreamSegment(id, text, complete)]),
                         buffers[id := DeltaBuffer(key.kind, text, complete)])
  {
    hide SegmentId, Owned;
  }

  lemma LaterIdsDiffer(scope: string, kind: Kind, n: nat)
    ensures forall k: Kind, m: nat :: m > n ==> SegmentId(scope, k, m) != SegmentId(scope, kind, n)
  {
    hide SegmentId;
    forall k: Kind, m: nat | m > n
      ensures SegmentId(scope, k, m) != SegmentId(scope, kind, n)
    {
      if SegmentId(scope, k, m) == SegmentId(scope, kind, n) { SegmentIdsAreUnique(scope, k, m, kind, n); }
    }
  }

  /** A new segment may be opened together with an empty buffer. */
  lemma OpenBoth(scope: string, n: Normalizer, buffers: Buffers, key: SegmentKey)
    requires BuffersMatch(scope, n, buffers)
    ensures var id := SegmentId(scope, key.kind, n.nextIndex);
            BuffersMatch(scope, n.(segments := n.segments[key := StreamSegment(id, "", false)], nextIndex := n.nextIndex + 1),
                         buffers[id := DeltaBuffer(key.kind, "", false)])
  {
    hide SegmentId, Owned;
    OpenedFresh(scope, n, buffers, key);
    LaterIdsDiffer(scope, key.kind, n.nextIndex);
  }

  lemma ResponseKeeps(scope: string, n: Normalizer, r: Normalizer, buffers: Buffers)
    requires BuffersMatch(scope, n, buffers) && r.segments == n.segments && r.nextIndex == n.nextIndex
    ensures BuffersMatch(scope, r, buffers)
  {
    hide SegmentId, Owned;
  }

  lemma RewriteNew(buffers: Buffers, id: string, first: DeltaBuffer, written: DeltaBuffer)
    ensures buffers[id := first][id := written] == buffers[id := written]
  {
  }

  /** Opening the segment if needed and writing it matches writing its buffer. */
  lemma Written(scope: string, n: Normalizer, buffers: Buffers, key: SegmentKey, reopen: bool, text: string, complete: bool)
    requires BuffersMatch(scope, n, buffers)
    ensures var o := Opened(scope, n, key, reopen);
            var id := o.segments[key].segmentId;
            && BuffersMatch(scope, o.(segments := o.segments[key := StreamSegment(id, text, complete)]),
                            buffers[id := DeltaBuffer(key.kind, text, complete)])
            && Owned(scope, id)
            && (NeedsSegment(n, key, reopen) ==> id !in buffers && o.segments[key] == StreamSegment(id, "", false))
            && (!NeedsSegment(n, key, reopen) ==>
                  o == n && id in buffers
                  && buffers[id] == DeltaBuffer(key.kind, n.segments[key].text, n.segments[key].complete))
  {
    hide SegmentId, Owned;
    if NeedsSegment(n, key, reopen) {
      hide BuffersMatch;
      var id := SegmentId(scope, key.kind, n.nextIndex);
      OpenedFresh(scope, n, buffers, key);
      OpenBoth(scope, n, buffers, key);
      var o := Opened(scope, n, key, reopen);
      WriteBoth(scope, o, buffers[id := DeltaBuffer(key.kind, "", false)], key, text, complete);
      RewriteNew(buffers, id, DeltaBuffer(key.kind, "", false), DeltaBuffer(key.kind, text, complete));
    } else {
      WriteBoth(scope, n, buffers, key, text, complete);
    }
  }

  lemma DeltaTracked(scope: string, n: Normalizer, buffers: Buffers, key: SegmentKey, delta: string, tag: Scope)
    requires BuffersMatch(scope, n, buffers)
    ensures var o := Opened(scope, n, key, false).segments[key];
            var e := Delta(key.kind, tag, o.segmentId, delta, o.text + delta);
            && BuffersMatch(scope, Extended(scope, n, key, delta), Tracked(buffers, e))
            && Tracked(buffers, e) == buffers[o.segmentId := DeltaBuffer(key.kind, o.text + delta, false)]
            && Owned(scope, o.segmentId)
            && (o.segmentId in buffers ==> buffers[o.segmentId].kind == key.kind)
  {
    hide BuffersMatch, SegmentId, Owned, Opened;
    var o := Opened(scope, n, key, false).segments[key];
    Written(scope, n, buffers, key, false, o.text + delta, false);
    assert o == StreamSegment(o.segmentId, o.text, false);
    assert "" + delta == delta;
  }

  lemma CompleteTracked(scope: string, n: Normalizer, buffers: Buffers, key: SegmentKey, text: string, tag: Scope)
    requires BuffersMatch(scope, n, buffers)
    ensures var o := Opened(scope, n, key, true).segments[key];
            var e := Complete(key.kind, tag, o.segmentId, text);
            && BuffersMatch(scope, Completed(scope, n, key, text), Tracked(buffers, e))
            && Tracked(buffers, e) == buffers[o.segmentId := DeltaBuffer(key.kind, text, true)]
            && Owned(scope, o.segmentId)
            && (o.segmentId in buffers ==> buffers[o.segmentId].kind == key.kind)
  {
    hide BuffersMatch, SegmentId, Owned, Opened;
    Written(scope, n, buffers, key, true, text, true);
  }

  /** Publishing a text event of the turn: the open event of its segment shows exactly the new buffer. */
  lemma OwnPublished(scope: string, tag: Scope, buffers: Buffers, live: seq<Event>, e: Event, written: DeltaBuffer)
    requires LiveMatches(scope, tag, buffers, live) && DistinctKeys(live)
    requires e.Delta? || e.Complete?
    requires e.scope == tag && written == DeltaBuffer(e.kind, e.text, e.Complete?)
    requires Owned(scope, e.segmentId) && (e.segmentId in buffers ==> buffers[e.segmentId].kind == e.kind)
    ensures LiveMatches(scope, tag, buffers[e.segmentId := written], Applied(live, e))
  {
    hide Applied, DistinctKeys, Owned;
    forall x | x in Applied(live, e) && x.Delta? && Owned(scope, x.segmentId)
      ensures var after := buffers[e.segmentId := written];
              x.segmentId in after && x.scope == tag && after[x.segmentId] == DeltaBuffer(x.kind, x.text, false)
    {
      AppliedOpen(live, e, x);
    }
  }

  lemma OwnShown(live: seq<Event>, e: Event, id: string)
    requires DistinctKeys(live) && (e.Delta? || e.Complete?)
    requires if id == e.segmentId then e.Delta? else ShownOpen(live, id)
    ensures ShownOpen(Applied(live, e), id)
  {
    hide Applied, DistinctKeys;
    if id == e.segmentId {
      AppliedOpen(live, e, e);
    } else {
      var x :| x in live && x.Delta? && x.segmentId == id;
      AppliedOpen(live, e, x);
    }
  }

  lemma OwnStep(scope: string, tag: Scope, s: Turn, n: Normalizer, e: Event, written: DeltaBuffer)
    requires Agrees(scope, tag, s) && (e.Delta? || e.Complete?) && e.scope == tag
    requires written == DeltaBuffer(e.kind, e.text, e.Complete?)
    requires BuffersMatch(scope, n, s.buffers[e.segmentId := written])
    requires Owned(scope, e.segmentId) && (e.segmentId in s.buffers ==> s.buffers[e.segmentId].kind == e.kind)
    ensures Agrees(scope, tag, Turn(n, s.buffers[e.segmentId := written], Applied(s.live, e), s.cut))
  {
    hide Applied, DistinctKeys, Owned, BuffersMatch, LiveMatches, ShownOpen;
    OwnPublished(scope, tag, s.buffers, s.live, e, written);
    AppliedDistinct(s.live, e);
    var after := s.buffers[e.segmentId := written];
    if !s.cut {
      forall id | id in after && !after[id].complete
        ensures ShownOpen(Applied(s.live, e), id)
      {
        OwnShown(s.live, e, id);
      }
    }
  }

  lemma ForeignStep(scope: string, tag: Scope, s: Turn, e: Event)
    requires Agrees(scope, tag, s) && Foreign(scope, e)
    ensures Agrees(scope, tag, s.(live := Applied(s.live, e)))
  {
    hide Applied, DistinctKeys, Foreign;
    AppliedDistinct(s.live, e);
    ForeignMatches(scope, tag, s, e);
    if !s.cut {
      forall id | id in s.buffers && !s.buffers[id].complete
        ensures ShownOpen(Applied(s.live, e), id)
      {
        var x :| x in s.live && x.Delta? && x.segmentId == id;
        ForeignKeeps(scope, s.live, e, x);
      }
    }
  }

  lemma ForeignMatches(scope: string, tag: Scope, s: Turn, e: Event)
    requires LiveMatches(scope, tag, s.buffers, s.live) && DistinctKeys(s.live) && Foreign(scope, e)
    ensures LiveMatches(scope, tag, s.buffers, Applied(s.live, e))
  {
    hide Applied, DistinctKeys, Foreign, Owned;
    forall x | x in Applied(s.live, e) && x.Delta? && Owned(scope, x.segmentId)
      ensures x in s.live
    {
      ForeignKeeps(scope, s.live, e, x);
    }
  }

  lemma SdkStep(scope: string, tag: Scope, s: Turn, e: SdkEvent)
    requires Agrees(scope, tag, s)
    ensures Agrees(scope, tag, Next(scope, tag, s, FromSdk(e)))
  {
    hide Agrees, Applied, Extended, Completed, Opened, BuffersMatch;
    var n := InResponse(s.normalizer);
    match e {
      case PartDelta(part, outputIndex, delta) =>
        var key := PartKey(part, n.responseIndex, outputIndex);
        AgreesBuffers(scope, tag, s, n);
        DeltaTracked(scope, n, s.buffers, key, delta, UNSCOPED);
        var o := Opened(scope, n, key, false).segments[key];
        OwnStep(scope, tag, s, Extended(scope, n, key, delta), Delta(key.kind, tag, o.segmentId, delta, o.text + delta),
                DeltaBuffer(key.kind, o.text + delta, false));
      case PartDone(part, outputIndex, text) =>
        var key := PartKey(part, n.responseIndex, outputIndex);
        AgreesBuffers(scope, tag, s, n);
        CompleteTracked(scope, n, s.buffers, key, text, UNSCOPED);
        var o := Opened(scope, n, key, true).segments[key];
        OwnStep(scope, tag, s, Completed(scope, n, key, text), Complete(key.kind, tag, o.segmentId, text),
                DeltaBuffer(key.kind, text, true));
      case ResponseError(message) => ForeignStep(scope, tag, s, Error(tag, message));
      case ToolCalled(callId, name) =>
        var after := s.normalizer.(responseOpen := false);
        QuietStep(scope, tag, s, after);
        ForeignStep(scope, tag, s.(normalizer := after), ToolCall(tag, callId, name));
      case ToolOutput(callId, output) =>
        var after := s.normalizer.(responseOpen := false);
        QuietStep(scope, tag, s, after);
        ForeignStep(scope, tag, s.(normalizer := after), ToolResult(tag, callId, output));
      case _ => QuietStep(scope, tag, s, Normalized(scope, s.normalizer, e).0);
    }
  }

  lemma AgreesBuffers(scope: string, tag: Scope, s: Turn, n: Normalizer)
    requires Agrees(scope, tag, s) && n.segments == s.normalizer.segments && n.nextIndex == s.normalizer.nextIndex
    ensures BuffersMatch(scope, n, s.buffers)
  {
    ResponseKeeps(scope, s.normalizer, n, s.buffers);
  }

  lemma QuietStep(scope: string, tag: Scope, s: Turn, n: Normalizer)
    requires Agrees(scope, tag, s) && n.segments == s.normalizer.segments && n.nextIndex == s.normalizer.nextIndex
    ensures Agrees(scope, tag, s.(normalizer := n))
  {
    AgreesBuffers(scope, tag, s, n);
    hide BuffersMatch, LiveMatches, DistinctKeys, ShownOpen;
  }

  lemma StepAgrees(scope: string, tag: Scope, s: Turn, step: Step)
    requires Agrees(scope, tag, s) && Allowed(scope, step)
    ensures Agrees(scope, tag, Next(scope, tag, s, step))
  {
    hide Applied, BuffersMatch, Normalized;
    match step {
      case FromSdk(e) => SdkStep(scope, tag, s, e);
      case Elsewhere(e) => ForeignStep(scope, tag, s, e);
      case RunStarted(e) =>
    }
  }

  /** A turn starts with an empty normalizer and empty buffers, beside any events that are not its own. */
  ghost predicate Starts(scope: string, s: Turn) {
    && s.normalizer == INITIAL && s.buffers == map[] && !s.cut
    && DistinctKeys(s.live) && forall x :: x in s.live ==> Foreign(scope, x)
  }

  /** In every run of a turn the three accumulated texts of a segment agree. */
  lemma {:induction false} EveryRunAgrees(scope: string, tag: Scope, s: Turn, steps: seq<Step>)
    requires Starts(scope, s) && forall step :: step in steps ==> Allowed(scope, step)
    ensures Agrees(scope, tag, Run(scope, tag, s, steps))
  {
    if steps != [] {
      var front, last := steps[..|steps| - 1], steps[|steps| - 1];
      assert last in steps && forall step :: step in front ==> step in steps;
      EveryRunAgrees(scope, tag, s, front);
      hide Agrees, Next, Allowed;
      StepAgrees(scope, tag, Run(scope, tag, s, front), last);
    }
  }

  /**
   In every run of a turn: a segment's text is the content of its buffer and the text of its open event; outside a
   run-state reset an incomplete segment does have an open event, and a complete one never has.
   */
  lemma SegmentViewsAgree(scope: string, tag: Scope, start: Turn, steps: seq<Step>, key: SegmentKey, x: Event)
    requires Starts(scope, start) && forall step :: step in steps ==> Allowed(scope, step)
    requires key in Run(scope, tag, start, steps).normalizer.segments
    ensures var s := Run(scope, tag, start, steps);
            var segment := s.normalizer.segments[key];
            && segment.segmentId in s.buffers
            && s.buffers[segment.segmentId] == DeltaBuffer(key.kind, segment.text, segment.complete)
            && (x in s.live && x.Delta? && x.segmentId == segment.segmentId ==> !segment.complete && x.text == segment.text)
            && (!s.cut && !segment.complete ==> ShownOpen(s.live, segment.segmentId))
  {
    EveryRunAgrees(scope, tag, start, steps);
    hide DistinctKeys, ShownOpen, Run, Starts, Allowed;
  }

  // ----- Closing a turn -----

  function PublishAll(live: seq<Event>, events: seq<Event>): seq<Event> {
    if events == [] then live
    else Applied(PublishAll(live, events[..|events| - 1]), events[|events| - 1])
  }

  /** The tagged completion of one of the buffers. */
  predicate Completion(tag: Scope, buffers: Buffers, e: Event) {
    e.Complete? && e.segmentId in buffers && e == Tagged(FinalEvent(e.segmentId, buffers[e.segmentId]), tag)
  }

  /** The completions of all unfinished buffers, in any order, mixed with events from elsewhere. */
  ghost predicate Closes(scope: string, tag: Scope, buffers: Buffers, events: seq<Event>) {
    && (forall e :: e in events ==> Foreign(scope, e) || Completion(tag, buffers, e))
    && (forall id :: id in buffers && Unfinished(buffers[id]) ==> Tagged(FinalEvent(id, buffers[id]), tag) in events)
  }

  /** An open delta of the turn. */
  ghost predicate OwnOpen(scope: string, live: seq<Event>, x: Event) {
    x in live && x.Delta? && Owned(scope, x.segmentId)
  }

  lemma CloseOne(scope: string, tag: Scope, buffers: Buffers, live: seq<Event>, e: Event, x: Event)
    requires LiveMatches(scope, tag, buffers, live) && DistinctKeys(live)
    requires Completion(tag, buffers, e)
    requires x in Applied(live, e) && x.Delta? && Owned(scope, x.segmentId)
    ensures x in live && x.segmentId != e.segmentId
  {
    hide Applied, DistinctKeys, Owned;
    AppliedOpen(live, e, x);
  }

  lemma {:induction false} Closing(scope: string, tag: Scope, buffers: Buffers, live: seq<Event>, events: seq<Event>)
    requires LiveMatches(scope, tag, buffers, live) && DistinctKeys(live)
    requires forall e :: e in events ==> Foreign(scope, e) || Completion(tag, buffers, e)
    ensures DistinctKeys(PublishAll(live, events)) && LiveMatches(scope, tag, buffers, PublishAll(live, events))
    ensures forall x, e :: OwnOpen(scope, PublishAll(live, events), x) && e in events && !Foreign(scope, e) ==>
              x.segmentId != e.segmentId
  {
    hide Applied, DistinctKeys, Owned, Foreign, Tagged;
    if events != [] {
      var front, last := events[..|events| - 1], events[|events| - 1];
      assert last in events && events == front + [last];
      assert forall e :: e in front ==> e in events;
      Closing(scope, tag, buffers, live, front);
      var before := PublishAll(live, front);
      AppliedDistinct(before, last);
      forall x | x in Applied(before, last) && x.Delta? && Owned(scope, x.segmentId)
        ensures x in before && (!Foreign(scope, last) ==> x.segmentId != last.segmentId)
      {
        if Foreign(scope, last) {
          ForeignKeeps(scope, before, last, x);
        } else {
          CloseOne(scope, tag, buffers, before, last, x);
        }
      }
    }
  }

  /** Once the completions are out, no open event of the turn has any text. */
  lemma ClosingLeavesNoText(scope: string, tag: Scope, s: Turn, events: seq<Event>, x: Event)
    requires Agrees(scope, tag, s) && Closes(scope, tag, s.buffers, events)
    requires OwnOpen(scope, PublishAll(s.live, events), x)
    ensures x.text == ""
  {
    hide BuffersMatch, DistinctKeys, Owned;
    Closing(scope, tag, s.buffers, s.live, events);
    var e := Tagged(FinalEvent(x.segmentId, s.buffers[x.segmentId]), tag);
    assert !Foreign(scope, e);
    assert e !in events;
    assert !Unfinished(s.buffers[x.segmentId]);
  }

  /** A turn that fails drops its buffers and publishes no completions: what was open stays open, with its text. */
  lemma {:induction false} FailedTurnStaysOpen(scope: string, live: seq<Event>, events: seq<Event>, x: Event)
    requires DistinctKeys(live) && forall e :: e in events ==> Foreign(scope, e)
    ensures DistinctKeys(PublishAll(live, events))
    ensures OwnOpen(scope, PublishAll(live, events), x) <==> OwnOpen(scope, live, x)
  {
    hide Applied, DistinctKeys, Owned, Foreign;
    if events != [] {
      var front, last := events[..|events| - 1], events[|events| - 1];
      assert last in events && forall e :: e in front ==> e in events;
      FailedTurnStaysOpen(scope, live, front, x);
      AppliedDistinct(PublishAll(live, front), last);
      if x.Delta? && Owned(scope, x.segmentId) {
        ForeignKeeps(scope, PublishAll(live, front), last, x);
      }
    }
  }

  /** A segment that streamed nothing but empty deltas stays open. */
  lemma EmptySegmentStaysOpen(scope: string, tag: Scope)
    ensures var key := PartKey(OutputText(0), 1, 0);
            var s := Next(scope, tag, Turn(INITIAL, map[], [], false), FromSdk(PartDelta(OutputText(0), 0, "")));
            && s.live == [Delta(Text, tag, SegmentId(scope, Text, 1), "", "")]
            && Closes(scope, tag, s.buffers, [])
  {
    var s := Next(scope, tag, Turn(INITIAL, map[], [], false), FromSdk(PartDelta(OutputText(0), 0, "")));
    var id := SegmentId(scope, Text, 1);
    assert "" + "" == "";
    assert s.buffers == map[id := DeltaBuffer(Text, "", false)];
    assert s.live == Put([], Segment(Text, id, tag), Delta(Text, tag, id, "", ""));
  }

  // ----- The whole turn -----

  function TaggedAll(events: seq<Event>, tag: Scope): seq<Event> {
    seq(|events|, i requires 0 <= i < |events| => Tagged(events[i], tag))
  }

  /** What the buffers report at the end of a turn closes it once it is tagged. */
  lemma CompletionsClose(scope: string, tag: Scope, buffers: Buffers, events: seq<Event>)
    requires forall id :: id in buffers && Unfinished(buffers[id]) ==> FinalEvent(id, buffers[id]) in events
    requires forall e :: e in events ==> Finalizes(buffers, e)
    ensures Closes(scope, tag, buffers, TaggedAll(events, tag))
  {
    hide Foreign, Tagged;
    forall i | 0 <= i < |events|
      ensures Completion(tag, buffers, TaggedAll(events, tag)[i])
    {
      assert events[i] in events;
      TaggedComplete(events[i], tag);
    }
    forall id | id in buffers && Unfinished(buffers[id])
      ensures Tagged(FinalEvent(id, buffers[id]), tag) in TaggedAll(events, tag)
    {
      var i :| 0 <= i < |events| && events[i] == FinalEvent(id, buffers[id]);
      assert TaggedAll(events, tag)[i] == Tagged(FinalEvent(id, buffers[id]), tag);
    }
  }

  lemma TaggedComplete(e: Event, tag: Scope)
    requires e.Complete?
    ensures Tagged(e, tag).Complete? && Tagged(e, tag).segmentId == e.segmentId
  {
  }

  /** No open event of the turn has any text. */
  ghost predicate NoTextOpen(scope: string, live: seq<Event>) {
    forall x :: OwnOpen(scope, live, x) ==> x.text == ""
  }

  lemma ClosedOff(scope: string, tag: Scope, s: Turn, completions: seq<Event>)
    requires Agrees(scope, tag, s) && Closes(scope, tag, s.buffers, completions)
    ensures NoTextOpen(scope, PublishAll(s.live, completions))
  {
    hide Agrees, Closes;
    forall x | OwnOpen(scope, PublishAll(s.live, completions), x)
      ensures x.text == ""
    {
      ClosingLeavesNoText(scope, tag, s, completions, x);
    }
  }

  /** End of a turn, complete or cut: what its buffers still hold is published, which closes the turn. */
  method PublishCompletions(scope: string, tag: Scope, buffers: DeltaBuffers, projection: LiveEventProjection)
    returns (completions: seq<Event>)
    requires buffers.Valid() && projection.Valid()
    modifies projection
    ensures projection.Valid() && projection.events == PublishAll(old(projection.events), completions)
    ensures Closes(scope, tag, buffers.buffers, completions)
  {
    hide Applied, Closes;
    var events := buffers.IncompleteSegmentEvents();
    CompletionsClose(scope, tag, buffers.buffers, events);
    completions := TaggedAll(events, tag);
    for i := 0 to |completions|
      invariant projection.Valid() && projection.events == PublishAll(old(projection.events), completions[..i])
    {
      projection.Apply(completions[i]);
      assert completions[..i + 1][..i] == completions[..i];
    }
    assert completions[..|completions|] == completions;
  }

  function AllFromSdk(events: seq<SdkEvent>): seq<Step> {
    seq(|events|, i requires 0 <= i < |events| => FromSdk(events[i]))
  }

  lemma OneMoreEvent(scope: string, tag: Scope, start: Turn, events: seq<SdkEvent>, i: nat)
    requires i < |events|
    ensures Run(scope, tag, start, AllFromSdk(events[..i + 1]))
            == Next(scope, tag, Run(scope, tag, start, AllFromSdk(events[..i])), FromSdk(events[i]))
  {
    hide Next;
    var steps := AllFromSdk(events[..i + 1]);
    assert steps[..|steps| - 1] == AllFromSdk(events[..i]) && steps[|steps| - 1] == FromSdk(events[i]);
  }

  /**
   The streaming loop of one turn: every SDK event is normalized, tracked and published, then the completions follow.
   Afterwards no event of the turn that carries text is left open.
   */
  method StreamTurn(scope: string, tag: Scope, sdkEvents: seq<SdkEvent>, projection: LiveEventProjection)
    returns (completions: seq<Event>)
    requires projection.Valid() && forall x :: x in projection.events ==> Foreign(scope, x)
    modifies projection
    ensures projection.Valid()
    ensures var s := Run(scope, tag, Turn(INITIAL, map[], old(projection.events), false), AllFromSdk(sdkEvents));
            projection.events == PublishAll(s.live, completions) && Closes(scope, tag, s.buffers, completions)
    ensures NoTextOpen(scope, projection.events)
  {
    var normalizer := new SdkStreamEventNormalizer(scope);
    var buffers := new DeltaBuffers();
    ghost var start := Turn(INITIAL, map[], projection.events, false);
    ghost var s := start;
    ExactIsDistinct(projection.events, projection.Indexes());
    EveryRunAgrees(scope, tag, start, []);
    hide Agrees, Applied, Normalized, Tracked, Tagged, DistinctKeys, AllExact, Foreign, PublishAll, Closes, NoTextOpen,
         SegmentsSound, ShowsSegment;
    for i := 0 to |sdkEvents|
      invariant fresh(normalizer) && fresh(buffers) && normalizer.segmentScope == scope && normalizer.Valid()
      invariant projection.Valid() && buffers.Valid()
      invariant s == Turn(normalizer.State(), buffers.buffers, projection.events, false)
      invariant Agrees(scope, tag, s) && s == Run(scope, tag, start, AllFromSdk(sdkEvents[..i]))
    {
      StepAgrees(scope, tag, s, FromSdk(sdkEvents[i]));
      OneMoreEvent(scope, tag, start, sdkEvents, i);
      s := Next(scope, tag, s, FromSdk(sdkEvents[i]));
      var event := normalizer.EventFromSdkStream(sdkEvents[i]);
      if event.Some? {
        buffers.TrackDelta(event.value);
        projection.Apply(Tagged(event.value, tag));
      }
    }
    assert sdkEvents[..|sdkEvents|] == sdkEvents;
    completions := PublishCompletions(scope, tag, buffers, projection);
    ClosedOff(scope, tag, s, completions);
  }
}
