/** Which streamed texts are one segment, told from the SDK events of a turn alone (core/runtime/events.py). */
module SegmentRuns {
  import opened Events
  import opened StreamSegments
  import opened Options

  predicate IsText(e: SdkEvent) {
    e.PartDelta? || e.PartDone?
  }

  /** Two parts are one if their indices agree; the index -1 stands for none. */
  predicate SamePart(p: Part, q: Part) {
    p == q || (p == ReasoningText(-1) && q == ReasoningSummary(-1)) || (p == ReasoningSummary(-1) && q == ReasoningText(-1))
  }

  lemma PartKeysCoincideExactly(p: Part, r: int, o: int, q: Part, s: int, t: int)
    ensures PartKey(p, r, o) == PartKey(q, s, t) <==> SamePart(p, q) && r == s && o == t
    ensures PartKey(p, r, o).kind == Text <==> p.OutputText?
  {
  }

  /** Another response begins, or the one under way is over. */
  predicate Separates(e: SdkEvent) {
    e.ResponseCreated? || e.ResponseEnded? || e.ToolCalled? || e.ToolOutput? || (e.OtherRunItem? && e.endsResponse)
  }

  /** Of one part of one output, by the indices alone. */
  predicate SameText(d: SdkEvent, e: SdkEvent) {
    IsText(d) && IsText(e) && SamePart(d.part, e.part) && d.outputIndex == e.outputIndex
  }

  /** No response begins or ends between `i` and `m`. */
  predicate Quiet(sdks: seq<SdkEvent>, i: nat, m: nat)
    requires m <= |sdks|
  {
    forall k :: i < k < m ==> !Separates(sdks[k])
  }

  /** The event at `m` is of the same part of the same response as the one at `i`. */
  predicate Continues(sdks: seq<SdkEvent>, i: nat, m: nat)
    requires i <= m < |sdks|
  {
    SameText(sdks[i], sdks[m]) && Quiet(sdks, i, m)
  }

  /** From `i` on the text was completed before `m`. */
  function DoneBefore(sdks: seq<SdkEvent>, i: nat, m: nat): bool
    requires i <= m <= |sdks|
  {
    m > i && (DoneBefore(sdks, i, m - 1) || (Continues(sdks, i, m - 1) && sdks[m - 1].PartDone?))
  }

  /** From `i` on the text was completed and then went on before `m`. */
  function ReopenedBefore(sdks: seq<SdkEvent>, i: nat, m: nat): bool
    requires i <= m <= |sdks|
  {
    m > i && (ReopenedBefore(sdks, i, m - 1)
              || (DoneBefore(sdks, i, m - 1) && Continues(sdks, i, m - 1) && sdks[m - 1].PartDelta?))
  }

  // ----- Runs of the normaliser -----

  function StateAfter(scope: string, sdks: seq<SdkEvent>): Normalizer {
    if sdks == [] then INITIAL else Normalized(scope, StateAfter(scope, sdks[..|sdks| - 1]), sdks[|sdks| - 1]).0
  }

  function KeyIn(n: Normalizer, e: SdkEvent): SegmentKey
    requires IsText(e)
  {
    PartKey(e.part, InResponse(n).responseIndex, e.outputIndex)
  }

  /** The event that is emitted for the SDK event at `i`. */
  function EmittedAt(scope: string, sdks: seq<SdkEvent>, i: nat): Option<Event>
    requires i < |sdks|
  {
    Normalized(scope, StateAfter(scope, sdks[..i]), sdks[i]).1
  }

  lemma StateMoves(scope: string, sdks: seq<SdkEvent>, m: nat)
    requires m < |sdks|
    ensures StateAfter(scope, sdks[..m + 1]) == Normalized(scope, StateAfter(scope, sdks[..m]), sdks[m]).0
  {
    assert sdks[..m + 1][..m] == sdks[..m];
  }

  /** A text event comes out with the id of its part's segment, and is a delta or a completion like the SDK's. */
  lemma TextIsEmitted(scope: string, n: Normalizer, e: SdkEvent)
    requires IsText(e)
    ensures var (after, out) := Normalized(scope, n, e);
            && out.Some? && (out.value.Delta? <==> e.PartDelta?) && (out.value.Complete? <==> e.PartDone?)
            && out.value.kind == (if e.part.OutputText? then Text else Thinking)
            && KeyIn(n, e) in after.segments && after.segments[KeyIn(n, e)].segmentId == out.value.segmentId
            && after.segments[KeyIn(n, e)].text == out.value.text && after.segments[KeyIn(n, e)].complete == e.PartDone?
            && after.responseOpen && after.responseIndex == InResponse(n).responseIndex
            && (e.PartDone? ==> out.value.text == e.text) && (e.PartDelta? ==> out.value.delta == e.delta)
  {
    hide SegmentId;
  }

  function IdAt(scope: string, sdks: seq<SdkEvent>, i: nat): string
    requires i < |sdks| && IsText(sdks[i])
  {
    TextIsEmitted(scope, StateAfter(scope, sdks[..i]), sdks[i]);
    EmittedAt(scope, sdks, i).value.segmentId
  }

  // ----- One segment -----

  /** What becomes of the segment `key` with the id `id`, from the event at `i` on. */
  ghost predicate Tracks(scope: string, n: Normalizer, key: SegmentKey, id: string, quiet: bool, done: bool, reopened: bool) {
    && n.responseIndex >= key.responseIndex && (n.responseOpen && n.responseIndex == key.responseIndex <==> quiet)
    && key in n.segments
    && (if reopened then n.segments[key].segmentId != id
        else n.segments[key].segmentId == id && n.segments[key].complete == done)
    && (forall k :: k in n.segments && k != key ==> n.segments[k].segmentId != id)
    && Issued(scope, key.kind, id, n.nextIndex) && SegmentsSound(scope, n)
  }

  lemma TracksOn(scope: string, n: Normalizer, e: SdkEvent, key: SegmentKey, id: string, quiet: bool, done: bool, reopened: bool)
    requires Tracks(scope, n, key, id, quiet, done, reopened)
    ensures var hit := IsText(e) && KeyIn(n, e) == key;
            Tracks(scope, Normalized(scope, n, e).0, key, id, quiet && !Separates(e), done || (hit && e.PartDone?),
                   reopened || (hit && done && e.PartDelta?))
  {
    hide SegmentsSound, SegmentId, Issued, Opened;
    NormalizedIsSound(scope, n, e);
    if IsText(e) {
      TextTracksOn(scope, n, e, key, id);
      hide Normalized;
    }
  }

  /** A text event writes one segment, and opens a new one under an id that was never given. */
  lemma TextTracksOn(scope: string, n: Normalizer, e: SdkEvent, key: SegmentKey, id: string)
    requires IsText(e) && Issued(scope, key.kind, id, n.nextIndex)
    ensures var after := Normalized(scope, n, e).0;
            && Issued(scope, key.kind, id, after.nextIndex)
            && after.responseOpen && after.responseIndex == InResponse(n).responseIndex
            && (forall k :: k in n.segments && k != KeyIn(n, e) ==> k in after.segments && after.segments[k] == n.segments[k])
            && (forall k :: k in after.segments && k != KeyIn(n, e) ==> k in n.segments)
            && KeyIn(n, e) in after.segments && after.segments[KeyIn(n, e)].complete == e.PartDone?
            && (if KeyIn(n, e) in n.segments && (e.PartDone? || !n.segments[KeyIn(n, e)].complete)
                then after.segments[KeyIn(n, e)].segmentId == n.segments[KeyIn(n, e)].segmentId
                else after.segments[KeyIn(n, e)].segmentId != id)
  {
    NewIdIsFree(scope, key.kind, id, n.nextIndex, KeyIn(n, e).kind);
    TextIsEmitted(scope, n, e);
    hide SegmentId, Issued;
  }

  /** The event at `i` has put its segment under its key and id. */
  lemma TracksFrom(scope: string, sdks: seq<SdkEvent>, i: nat)
    requires i < |sdks| && IsText(sdks[i]) && SegmentsSound(scope, StateAfter(scope, sdks[..i]))
    ensures var key := KeyIn(StateAfter(scope, sdks[..i]), sdks[i]);
            Tracks(scope, StateAfter(scope, sdks[..i + 1]), key, IdAt(scope, sdks, i), true, sdks[i].PartDone?, false)
  {
    var n := StateAfter(scope, sdks[..i]);
    StateMoves(scope, sdks, i);
    NormalizedIsSound(scope, n, sdks[i]);
    TextIsEmitted(scope, n, sdks[i]);
    hide SegmentId, Normalized, StateAfter, Issued;
  }

  lemma {:induction false} EveryStateIsSound(scope: string, sdks: seq<SdkEvent>)
    ensures SegmentsSound(scope, StateAfter(scope, sdks))
  {
    if sdks != [] {
      EveryStateIsSound(scope, sdks[..|sdks| - 1]);
      hide SegmentsSound, Normalized;
      NormalizedIsSound(scope, StateAfter(scope, sdks[..|sdks| - 1]), sdks[|sdks| - 1]);
    }
  }

  lemma HitContinues(scope: string, sdks: seq<SdkEvent>, i: nat, m: nat, n: Normalizer, key: SegmentKey)
    requires i < m < |sdks| && IsText(sdks[i])
    requires key == PartKey(sdks[i].part, key.responseIndex, sdks[i].outputIndex)
    requires n.responseIndex >= key.responseIndex && (n.responseOpen && n.responseIndex == key.responseIndex <==> Quiet(sdks, i, m))
    ensures IsText(sdks[m]) && KeyIn(n, sdks[m]) == key <==> Continues(sdks, i, m)
    ensures Quiet(sdks, i, m + 1) <==> Quiet(sdks, i, m) && !Separates(sdks[m])
  {
    if IsText(sdks[m]) {
      PartKeysCoincideExactly(sdks[m].part, InResponse(n).responseIndex, sdks[m].outputIndex,
                              sdks[i].part, key.responseIndex, sdks[i].outputIndex);
    }
  }

  lemma {:induction false} TracksUpTo(scope: string, sdks: seq<SdkEvent>, i: nat, m: nat)
    requires i < m <= |sdks| && IsText(sdks[i])
    ensures var key := KeyIn(StateAfter(scope, sdks[..i]), sdks[i]);
            Tracks(scope, StateAfter(scope, sdks[..m]), key, IdAt(scope, sdks, i), Quiet(sdks, i, m),
                   DoneBefore(sdks, i, m), ReopenedBefore(sdks, i, m))
    decreases m
  {
    hide Tracks, StateAfter, Normalized, IdAt, SegmentsSound;
    if m == i + 1 {
      EveryStateIsSound(scope, sdks[..i]);
      TracksFrom(scope, sdks, i);
      assert Continues(sdks, i, i) && !DoneBefore(sdks, i, i) && !ReopenedBefore(sdks, i, i) && Quiet(sdks, i, m);
    } else {
      TracksUpTo(scope, sdks, i, m - 1);
      var n, key := StateAfter(scope, sdks[..m - 1]), KeyIn(StateAfter(scope, sdks[..i]), sdks[i]);
      QuietIsTracked(scope, n, key, IdAt(scope, sdks, i), Quiet(sdks, i, m - 1), DoneBefore(sdks, i, m - 1),
                     ReopenedBefore(sdks, i, m - 1));
      HitContinues(scope, sdks, i, m - 1, n, key);
      TracksOn(scope, n, sdks[m - 1], key, IdAt(scope, sdks, i), Quiet(sdks, i, m - 1), DoneBefore(sdks, i, m - 1),
               ReopenedBefore(sdks, i, m - 1));
      StateMoves(scope, sdks, m - 1);
      hide Quiet, Continues, KeyIn;
    }
  }

  lemma QuietIsTracked(scope: string, n: Normalizer, key: SegmentKey, id: string, quiet: bool, done: bool, reopened: bool)
    requires Tracks(scope, n, key, id, quiet, done, reopened)
    ensures n.responseIndex >= key.responseIndex && (n.responseOpen && n.responseIndex == key.responseIndex <==> quiet)
  {
  }

  /**
   * Two text events of a turn show one segment exactly if they are of the same part of the same response, and the text
   * did not go on after a completion in between.
   */
  lemma OneSegmentExactly(scope: string, sdks: seq<SdkEvent>, i: nat, j: nat)
    requires i < j < |sdks| && IsText(sdks[i]) && IsText(sdks[j])
    ensures IdAt(scope, sdks, i) == IdAt(scope, sdks, j)
            <==> Continues(sdks, i, j) && !ReopenedBefore(sdks, i, j + 1)
  {
    hide StateAfter, Normalized, DoneBefore, ReopenedBefore, Continues, Quiet, Tracks, PartKey, InResponse;
    var n, key := StateAfter(scope, sdks[..j]), KeyIn(StateAfter(scope, sdks[..i]), sdks[i]);
    TracksUpTo(scope, sdks, i, j);
    QuietIsTracked(scope, n, key, IdAt(scope, sdks, i), Quiet(sdks, i, j), DoneBefore(sdks, i, j), ReopenedBefore(sdks, i, j));
    KeyOfText(StateAfter(scope, sdks[..i]), sdks[i]);
    HitContinues(scope, sdks, i, j, n, key);
    IdIsListed(scope, sdks, j);
    TracksUpTo(scope, sdks, i, j + 1);
    OneIdPerKey(scope, StateAfter(scope, sdks[..j + 1]), key, IdAt(scope, sdks, i), Quiet(sdks, i, j + 1),
                DoneBefore(sdks, i, j + 1), ReopenedBefore(sdks, i, j + 1), KeyIn(n, sdks[j]));
  }

  lemma KeyOfText(n: Normalizer, e: SdkEvent)
    requires IsText(e)
    ensures KeyIn(n, e) == PartKey(e.part, KeyIn(n, e).responseIndex, e.outputIndex)
  {
  }

  lemma IdIsListed(scope: string, sdks: seq<SdkEvent>, j: nat)
    requires j < |sdks| && IsText(sdks[j])
    ensures var key, after := KeyIn(StateAfter(scope, sdks[..j]), sdks[j]), StateAfter(scope, sdks[..j + 1]);
            key in after.segments && after.segments[key].segmentId == IdAt(scope, sdks, j)
  {
    hide StateAfter, Normalized;
    StateMoves(scope, sdks, j);
    TextIsEmitted(scope, StateAfter(scope, sdks[..j]), sdks[j]);
  }

  lemma OneIdPerKey(scope: string, n: Normalizer, key: SegmentKey, id: string, quiet: bool, done: bool, reopened: bool, k: SegmentKey)
    requires Tracks(scope, n, key, id, quiet, done, reopened) && k in n.segments
    ensures n.segments[k].segmentId == id <==> k == key && !reopened
  {
    hide Issued, SegmentsSound;
  }

  // ----- The text of a segment -----

  /** The deltas that came out under the id, put together in their order. */
  function TextUnder(scope: string, sdks: seq<SdkEvent>, id: string): string {
    if sdks == [] then ""
    else
      var front, e := sdks[..|sdks| - 1], sdks[|sdks| - 1];
      var out := Normalized(scope, StateAfter(scope, front), e).1;
      TextUnder(scope, front, id) + if out.Some? && out.value.Delta? && out.value.segmentId == id then e.delta else ""
  }

  /** An open segment has the text of the deltas under its id, and no delta came under an id still to be given. */
  ghost predicate TextsMatch(scope: string, n: Normalizer, sdks: seq<SdkEvent>) {
    && (forall k :: k in n.segments && !n.segments[k].complete ==> n.segments[k].text == TextUnder(scope, sdks, n.segments[k].segmentId))
    && forall kind: Kind, m: nat :: m >= n.nextIndex ==> TextUnder(scope, sdks, SegmentId(scope, kind, m)) == ""
  }

  lemma TextGrows(scope: string, sdks: seq<SdkEvent>, e: SdkEvent, id: string)
    ensures var out := Normalized(scope, StateAfter(scope, sdks), e).1;
            TextUnder(scope, sdks + [e], id)
            == TextUnder(scope, sdks, id) + if out.Some? && out.value.Delta? && out.value.segmentId == id then e.delta else ""
    ensures StateAfter(scope, sdks + [e]) == Normalized(scope, StateAfter(scope, sdks), e).0
  {
    assert (sdks + [e])[..|sdks|] == sdks && (sdks + [e])[|sdks|] == e;
    hide Normalized;
  }

  lemma OtherTextStays(scope: string, sdks: seq<SdkEvent>, e: SdkEvent, id: string)
    requires var out := Normalized(scope, StateAfter(scope, sdks), e).1;
             !(out.Some? && out.value.Delta? && out.value.segmentId == id)
    ensures TextUnder(scope, sdks + [e], id) == TextUnder(scope, sdks, id)
  {
    TextGrows(scope, sdks, e, id);
    hide Normalized, StateAfter, TextUnder;
    assert TextUnder(scope, sdks, id) + "" == TextUnder(scope, sdks, id);
  }

  /** What a delta does to the segments: one goes on, or begins under the next id. */
  lemma DeltaWrites(scope: string, n: Normalizer, e: SdkEvent)
    requires e.PartDelta? && SegmentsSound(scope, n)
    ensures var (after, out) := Normalized(scope, n, e); var key := KeyIn(n, e);
            && out.Some? && out.value.Delta? && out.value.delta == e.delta
            && key in after.segments && after.segments[key] == StreamSegment(out.value.segmentId, out.value.text, false)
            && (forall k :: k in after.segments && k != key ==>
                  k in n.segments && after.segments[k] == n.segments[k] && after.segments[k].segmentId != out.value.segmentId)
            && (if key in n.segments && !n.segments[key].complete then
                  && after.nextIndex == n.nextIndex && out.value.segmentId == n.segments[key].segmentId
                  && out.value.text == n.segments[key].text + e.delta
                else
                  && after.nextIndex == n.nextIndex + 1 && out.value.segmentId == SegmentId(scope, key.kind, n.nextIndex)
                  && out.value.text == e.delta)
            && Issued(scope, key.kind, out.value.segmentId, after.nextIndex)
  {
    NormalizedIsSound(scope, n, e);
    assert "" + e.delta == e.delta;
    hide SegmentId, Issued;
  }

  lemma DeltaKeepsTexts(scope: string, sdks: seq<SdkEvent>, e: SdkEvent)
    requires e.PartDelta? && SegmentsSound(scope, StateAfter(scope, sdks)) && TextsMatch(scope, StateAfter(scope, sdks), sdks)
    ensures TextsMatch(scope, StateAfter(scope, sdks + [e]), sdks + [e])
    ensures var out := Normalized(scope, StateAfter(scope, sdks), e).1;
            out.Some? && out.value.Delta? && out.value.text == TextUnder(scope, sdks + [e], out.value.segmentId)
  {
    var n := StateAfter(scope, sdks);
    var (after, out) := Normalized(scope, n, e);
    var id := out.value.segmentId;
    TextGrows(scope, sdks, e, id);
    DeltaWrites(scope, n, e);
    hide Normalized, StateAfter, SegmentId, TextUnder, SegmentsSound;
    assert "" + e.delta == e.delta;
    forall k | k in after.segments && !after.segments[k].complete
      ensures after.segments[k].text == TextUnder(scope, sdks + [e], after.segments[k].segmentId)
    {
      if k != KeyIn(n, e) { OtherTextStays(scope, sdks, e, after.segments[k].segmentId); }
    }
    forall kind: Kind, m: nat | m >= after.nextIndex
      ensures TextUnder(scope, sdks + [e], SegmentId(scope, kind, m)) == ""
    {
      IssuedIsOld(scope, KeyIn(n, e).kind, id, after.nextIndex, kind, m);
      OtherTextStays(scope, sdks, e, SegmentId(scope, kind, m));
    }
  }

  lemma IssuedIsOld(scope: string, kind: Kind, id: string, next: nat, other: Kind, m: nat)
    requires Issued(scope, kind, id, next) && m >= next
    ensures id != SegmentId(scope, other, m)
  {
    var i: nat :| i < next && id == SegmentId(scope, kind, i);
    hide SegmentId;
    if SegmentId(scope, kind, i) == SegmentId(scope, other, m) { SegmentIdsAreUnique(scope, kind, i, other, m); }
  }

  /** Any other event leaves the open texts alone. */
  lemma OthersKeepTexts(scope: string, sdks: seq<SdkEvent>, e: SdkEvent)
    requires !e.PartDelta? && TextsMatch(scope, StateAfter(scope, sdks), sdks)
    ensures TextsMatch(scope, StateAfter(scope, sdks + [e]), sdks + [e])
  {
    var n := StateAfter(scope, sdks);
    var after := Normalized(scope, n, e).0;
    TextGrows(scope, sdks, e, "");
    OthersWrite(scope, n, e);
    hide StateAfter, SegmentId, TextUnder, Normalized;
    forall id { OtherTextStays(scope, sdks, e, id); }
  }

  lemma OthersWrite(scope: string, n: Normalizer, e: SdkEvent)
    requires !e.PartDelta?
    ensures var (after, out) := Normalized(scope, n, e);
            && !(out.Some? && out.value.Delta?) && after.nextIndex >= n.nextIndex
            && forall k :: k in after.segments && !after.segments[k].complete ==> k in n.segments && n.segments[k] == after.segments[k]
  {
    hide SegmentId;
  }

  lemma {:induction false} EveryTextMatches(scope: string, sdks: seq<SdkEvent>)
    ensures TextsMatch(scope, StateAfter(scope, sdks), sdks)
  {
    hide TextsMatch;
    if sdks == [] {
      NoTextYet(scope);
    } else {
      var front, e := sdks[..|sdks| - 1], sdks[|sdks| - 1];
      assert sdks == front + [e];
      EveryTextMatches(scope, front);
      EveryStateIsSound(scope, front);
      if e.PartDelta? {
        DeltaKeepsTexts(scope, front, e);
      } else {
        OthersKeepTexts(scope, front, e);
      }
    }
  }

  lemma NoTextYet(scope: string)
    ensures TextsMatch(scope, INITIAL, [])
  {
  }

  /** The text that a delta event shows is what all deltas of its segment, in their order, add up to. */
  lemma TextIsTheDeltas(scope: string, sdks: seq<SdkEvent>, i: nat)
    requires i < |sdks| && sdks[i].PartDelta?
    ensures var out := EmittedAt(scope, sdks, i);
            out.Some? && out.value.Delta? && out.value.text == TextUnder(scope, sdks[..i + 1], out.value.segmentId)
  {
    hide TextUnder, StateAfter, Normalized, TextsMatch, SegmentsSound;
    assert sdks[..i] + [sdks[i]] == sdks[..i + 1];
    EveryTextMatches(scope, sdks[..i]);
    EveryStateIsSound(scope, sdks[..i]);
    DeltaKeepsTexts(scope, sdks[..i], sdks[i]);
  }
}
