/** Recognition of short utterances without a retrieval topic (core/conversation/utterances.py). */
module Utterances {

  const NON_TOPIC_MAX_KEY_CHARS := 96

  function Concat(parts: seq<string>): string {
    if parts == [] then "" else Concat(parts[..|parts| - 1]) + parts[|parts| - 1]
  }

  /** The text is a concatenation of components. */
  ghost predicate Segmentable(text: string, components: seq<string>) {
    exists parts: seq<string> :: (forall p :: p in parts ==> p in components) && Concat(parts) == text
  }

  predicate StartsWithAt(key: string, component: string, start: nat)
    requires start <= |key|
  {
    start + |component| <= |key| && key[start..start + |component|] == component
  }

  /** Every match of a component at a reachable position before `bound` leads to a reachable position. */
  ghost predicate ClosedBelow(key: string, components: seq<string>, reachable: set<nat>, bound: nat) {
    forall s, k :: s in reachable && s < bound && s <= |key| && 0 <= k < |components| && StartsWithAt(key, components[k], s) ==>
      s + |components[k]| in reachable
  }

  lemma StepIsSegmentable(key: string, components: seq<string>, start: nat, k: nat)
    requires start <= |key| && k < |components| && StartsWithAt(key, components[k], start)
    requires Segmentable(key[..start], components)
    ensures Segmentable(key[..start + |components[k]|], components)
  {
    var parts: seq<string> :| (forall p :: p in parts ==> p in components) && Concat(parts) == key[..start];
    var more := parts + [components[k]];
    assert more[..|more| - 1] == parts;
    assert key[..start + |components[k]|] == key[..start] + key[start..start + |components[k]|];
    assert Concat(more) == key[..start + |components[k]|];
    assert forall p :: p in more ==> p in components;
  }

  /** A closed set that contains 0 contains the end of every segmentable prefix. */
  lemma {:induction false} ClosedIsComplete(key: string, components: seq<string>, reachable: set<nat>, parts: seq<string>, end: nat)
    requires 0 in reachable && end <= |key| && ClosedBelow(key, components, reachable, |key|)
    requires (forall p :: p in parts ==> p in components) && Concat(parts) == key[..end]
    ensures end in reachable
    decreases |parts|
  {
    if parts != [] {
      var front, last := parts[..|parts| - 1], parts[|parts| - 1];
      var start := end - |last|;
      assert |Concat(parts)| == |Concat(front)| + |last|;
      assert Concat(front) == Concat(parts)[..start] == key[..start];
      assert last == Concat(parts)[start..] == key[start..end];
      ClosedIsComplete(key, components, reachable, front, start);
      assert last in parts;
      var k :| 0 <= k < |components| && components[k] == last;
      if last != "" { assert StartsWithAt(key, components[k], start); }
    }
  }

  /** Every reachable position ends a segmentable prefix. */
  ghost predicate Sound(key: string, components: seq<string>, reachable: set<nat>) {
    forall i :: i in reachable ==> i <= |key| && Segmentable(key[..i], components)
  }

  /** The first `k` components have been tried at `start`. */
  ghost predicate Tried(key: string, components: seq<string>, reachable: set<nat>, start: nat, k: nat)
    requires start <= |key| && k <= |components|
  {
    forall i :: 0 <= i < k && StartsWithAt(key, components[i], start) ==> start + |components[i]| in reachable
  }

  lemma TriedCloses(key: string, components: seq<string>, reachable: set<nat>, start: nat)
    requires start < |key| && ClosedBelow(key, components, reachable, start)
    requires start in reachable ==> Tried(key, components, reachable, start, |components|)
    ensures ClosedBelow(key, components, reachable, start + 1)
  {
  }

  lemma ReachOne(key: string, components: seq<string>, reachable: set<nat>, start: nat, k: nat)
    requires start < |key| && k < |components| && start in reachable && StartsWithAt(key, components[k], start)
    requires Sound(key, components, reachable) && ClosedBelow(key, components, reachable, start)
    requires Tried(key, components, reachable, start, k)
    ensures var more := reachable + {start + |components[k]|};
            && Sound(key, components, more) && ClosedBelow(key, components, more, start)
            && Tried(key, components, more, start, k + 1)
  {
    StepIsSegmentable(key, components, start, k);
    hide Segmentable, StartsWithAt;
  }

  /** Forward reachability decides whether the whole key is made of components. */
  method IsNonTopicUtterance(key: string, components: seq<string>) returns (nonTopic: bool)
    ensures nonTopic <==> 0 < |key| <= NON_TOPIC_MAX_KEY_CHARS && Segmentable(key, components)
  {
    if key == "" || |key| > NON_TOPIC_MAX_KEY_CHARS {
      return false;
    }
    var reachable: set<nat> := {0};
    StartIsSound(key, components);
    hide Sound, ClosedBelow, Tried, Segmentable;
    for start := 0 to |key|
      invariant 0 in reachable && Sound(key, components, reachable) && ClosedBelow(key, components, reachable, start)
    {
      if start in reachable {
        NothingTried(key, components, reachable, start);
        for k := 0 to |components|
          invariant 0 in reachable && start in reachable && Sound(key, components, reachable)
          invariant ClosedBelow(key, components, reachable, start) && Tried(key, components, reachable, start, k)
        {
          if StartsWithAt(key, components[k], start) {
            ReachOne(key, components, reachable, start, k);
            reachable := reachable + {start + |components[k]|};
          } else {
            TriedInVain(key, components, reachable, start, k);
          }
        }
      }
      TriedCloses(key, components, reachable, start);
    }
    ReachedMeansSegmentable(key, components, reachable);
    nonTopic := |key| in reachable;
  }

  lemma StartIsSound(key: string, components: seq<string>)
    ensures Sound(key, components, {0}) && ClosedBelow(key, components, {0}, 0)
  {
    var none: seq<string> := [];
    assert Concat(none) == key[..0] && forall p :: p in none ==> p in components;
  }

  lemma NothingTried(key: string, components: seq<string>, reachable: set<nat>, start: nat)
    requires start <= |key|
    ensures Tried(key, components, reachable, start, 0)
  {
  }

  lemma TriedInVain(key: string, components: seq<string>, reachable: set<nat>, start: nat, k: nat)
    requires start <= |key| && k < |components| && !StartsWithAt(key, components[k], start)
    requires Tried(key, components, reachable, start, k)
    ensures Tried(key, components, reachable, start, k + 1)
  {
  }

  lemma ReachedMeansSegmentable(key: string, components: seq<string>, reachable: set<nat>)
    requires 0 in reachable && Sound(key, components, reachable) && ClosedBelow(key, components, reachable, |key|)
    ensures |key| in reachable <==> Segmentable(key, components)
  {
    assert key[..|key|] == key;
    if Segmentable(key, components) {
      var parts: seq<string> :| (forall p :: p in parts ==> p in components) && Concat(parts) == key;
      ClosedIsComplete(key, components, reachable, parts, |key|);
    }
  }
}
