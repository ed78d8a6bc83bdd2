/** Stamping of timeline events with seqs (core/runtime/session.py) and resumption from the durable log. */
module SequenceStamps {
  import opened Events
  import opened TimelineKeys
  import opened TimelineWriter
  import opened Options

  /**
   * The stamping state of the session object in charge, the rows its writer has not stored yet, the rows that writers of
   * replaced objects have not stored yet, and the durable table. History: `given` holds the seq of every key that is
   * stored, will be, or was stamped by this object; `accepted` the rows of this object.
   */
  datatype Timeline = Timeline(
    seqNo: nat, itemSeq: map<string, nat>, loaded: bool, stopping: bool, queue: seq<Row>, draining: seq<Row>,
    table: Table, given: map<string, nat>, accepted: seq<Row>)

  const EMPTY := Timeline(0, map[], false, false, [], [], map[], map[], [])

  // ----- Stamping -----

  predicate CarriesSeq(e: Event) {
    !e.RunState? && !e.Done?
  }

  function Stamped(t: Timeline, e: Event): Timeline {
    if !CarriesSeq(e) then t
    else
      match ItemKey(e)
      case None => t.(seqNo := t.seqNo + 1, given := t.given[KeylessKey(e, t.seqNo + 1) := t.seqNo + 1])
      case Some(key) =>
        if key in t.itemSeq then t
        else t.(seqNo := t.seqNo + 1, itemSeq := t.itemSeq[key := t.seqNo + 1], given := t.given[key := t.seqNo + 1])
  }

  /** The seq an event is stamped with. */
  function SeqFor(t: Timeline, e: Event): nat {
    match ItemKey(e)
    case None => t.seqNo + 1
    case Some(key) => if key in t.itemSeq then t.itemSeq[key] else t.seqNo + 1
  }

  function Published(t: Timeline, e: Event, payload: string, createdAt: int): Timeline {
    var s := Stamped(t, e);
    if IsPersistable(e) && t.loaded && !t.stopping then
      var row := Row(DurableKey(e, SeqFor(t, e)), SeqFor(t, e), payload, createdAt);
      s.(queue := s.queue + [row], accepted := s.accepted + [row])
    else s
  }

  // ----- The durable side -----

  /** The largest stored seq, 0 for an empty log. */
  ghost predicate IsHead(table: Table, head: nat) {
    && (forall k :: k in table ==> table[k].seqNo <= head)
    && (head == 0 || exists k :: k in table && table[k].seqNo == head)
  }

  function AsSeq(n: int): nat { if n >= 0 then n else 0 }

  function SeqsOf(table: Table): map<string, nat> {
    map k | k in table :: AsSeq(table[k].seqNo)
  }

  function MaxNat(a: nat, b: nat): nat { if a >= b then a else b }

  /** The head of the log is loaded; keys stamped before keep their seqs, and the counter never falls. */
  function Loaded(t: Timeline, head: nat): Timeline {
    if t.loaded then t
    else t.(seqNo := MaxNat(t.seqNo, head), itemSeq := SeqsOf(t.table) + t.itemSeq, loaded := true, stopping := false,
            given := SeqsOf(t.table) + t.given)
  }

  function KeysOf(rows: seq<Row>): set<string> {
    set r | r in rows :: r.key
  }

  /** Another session object takes over; the old one's writer goes on storing what it accepted. */
  function Replaced(t: Timeline): Timeline {
    var earlier := t.draining + t.queue;
    Timeline(0, map[], false, false, [], earlier, t.table,
             map k | k in t.given && (k in t.table || k in KeysOf(earlier)) :: t.given[k], [])
  }

  /** The process dies; what was stored remains. */
  function Crashed(t: Timeline): Timeline {
    Timeline(0, map[], false, false, [], [], t.table, map k | k in t.given && k in t.table :: t.given[k], [])
  }

  function UnpooledRow(t: Timeline, runId: string, payload: string, createdAt: int, head: nat): Row {
    var key := "sa:" + runId;
    Row(key, if key in t.table then t.table[key].seqNo else head + 1, payload, createdAt)
  }

  function PersistedUnpooled(t: Timeline, runId: string, payload: string, createdAt: int, head: nat): Timeline {
    if runId == "" then t
    else
      var row := UnpooledRow(t, runId, payload, createdAt, head);
      t.(table := Upsert(t.table, row), given := t.given[row.key := AsSeq(row.seqNo)])
  }

  datatype Step =
    | Publish(event: Event, payload: string, createdAt: int)
    | Load(head: nat)
    | StoreNext
    | StoreOld
    | StopWriter
    | Close
    | Replace
    | Crash
    | Unpooled(runId: string, payload: string, createdAt: int, head: nat)

  /** What can happen. A closed session object may be loaded again, and may be replaced at any time. */
  ghost predicate Possible(t: Timeline, step: Step) {
    match step
    case Load(head) => IsHead(t.table, head)
    case StoreNext => t.queue != []
    case StoreOld => t.draining != []
    case StopWriter => t.loaded
    case Close => t.stopping && t.queue == []
    case Unpooled(_, _, _, head) => IsHead(t.table, head)
    case _ => true
  }

  /**
   * The timeline is loaded before the first stamp, and the head of the log is used for new seqs only while no row waits
   * for the writer of a replaced object and nothing was stamped above the head.
   */
  predicate Orderly(t: Timeline, step: Step) {
    match step
    case Publish(e, _, _) => t.loaded || !CarriesSeq(e)
    case Load(_) => t.loaded || t.draining == []
    case Unpooled(runId, _, _, head) =>
      runId == "" || "sa:" + runId in t.table
      || (!t.loaded && t.draining == [] && t.seqNo <= head && "sa:" + runId !in t.itemSeq)
    case _ => true
  }

  function Next(t: Timeline, step: Step): Timeline {
    match step
    case Publish(e, payload, createdAt) => Published(t, e, payload, createdAt)
    case Load(head) => Loaded(t, head)
    case StoreNext => if t.queue == [] then t else t.(queue := t.queue[1..], table := Upsert(t.table, t.queue[0]))
    case StoreOld => if t.draining == [] then t else t.(draining := t.draining[1..], table := Upsert(t.table, t.draining[0]))
    case StopWriter => t.(stopping := true)
    case Close => t.(loaded := false)
    case Replace => Replaced(t)
    case Crash => Crashed(t)
    case Unpooled(runId, payload, createdAt, head) => PersistedUnpooled(t, runId, payload, createdAt, head)
  }

  // ----- Consistency of one state -----

  ghost predicate IsKeylessKey(key: string, n: nat) {
    exists e :: IsKeyless(e) && key == KeylessKey(e, n)
  }

  ghost predicate Injective(m: map<string, nat>) {
    forall k, l :: k in m && l in m && k != l ==> m[k] != m[l]
  }

  /** Keys stored or stamped have one positive seq each, and keyless ones the seq in their key. */
  ghost predicate GivenWell(given: map<string, nat>) {
    && Injective(given)
    && (forall k :: k in given ==> given[k] >= 1)
    && (forall k, n: nat :: k in given && IsKeylessKey(k, n) ==> given[k] == n)
  }

  ghost predicate RowsAgree(rows: seq<Row>, given: map<string, nat>) {
    forall r :: r in rows ==> r.key in given && given[r.key] == r.seqNo
  }

  ghost predicate TableAgrees(table: Table, given: map<string, nat>) {
    forall k :: k in table ==> k in given && given[k] == table[k].seqNo
  }

  ghost predicate Consistent(t: Timeline) {
    && GivenWell(t.given) && TableAgrees(t.table, t.given)
    && RowsAgree(t.queue, t.given) && RowsAgree(t.draining, t.given) && RowsAgree(t.accepted, t.given)
    && (forall k :: k in t.itemSeq ==> k in t.given && t.itemSeq[k] == t.given[k])
    && (t.loaded ==> t.draining == [])
    && (!t.loaded ==> t.queue == [])
    && (forall k :: k in t.given ==> t.given[k] <= t.seqNo || (!t.loaded && (k in t.table || k in KeysOf(t.draining))))
    && (forall k :: k in t.given ==>
          k in t.itemSeq || IsKeylessKey(k, t.given[k]) || (!t.loaded && (k in t.table || k in KeysOf(t.draining))))
  }

  // ----- Preservation -----

  lemma KeyedIsNotKeyless(e: Event, n: nat)
    requires ItemKey(e).Some?
    ensures !IsKeylessKey(ItemKey(e).value, n)
  {
    hide KeylessKey, ItemKey;
    forall f | IsKeyless(f)
      ensures ItemKey(e).value != KeylessKey(f, n)
    {
      KeylessIsNeverKeyed(f, n, e);
    }
  }

  lemma KeylessOnce(e: Event, n: nat, m: nat)
    requires IsKeyless(e) && IsKeylessKey(KeylessKey(e, n), m)
    ensures n == m
  {
    hide KeylessKey, ItemKey;
    var f :| IsKeyless(f) && KeylessKey(e, n) == KeylessKey(f, m);
    KeylessKeysAreUnique(e, n, f, m);
  }

  /** Giving a new key a seq above all others. */
  lemma GiveFresh(given: map<string, nat>, key: string, n: nat)
    requires GivenWell(given) && key !in given && n >= 1 && forall k :: k in given ==> given[k] < n
    requires forall m: nat :: IsKeylessKey(key, m) ==> m == n
    ensures GivenWell(given[key := n])
  {
    hide IsKeylessKey;
  }

  /** A first-seen key of a loaded timeline gets a seq above every seq given before; a seen one keeps its own. */
  lemma StampIsFreshOrKept(t: Timeline, e: Event)
    requires Consistent(t) && t.loaded && CarriesSeq(e)
    ensures var key := DurableKey(e, SeqFor(t, e));
            && GivenWell(Stamped(t, e).given)
            && key in Stamped(t, e).given && Stamped(t, e).given[key] == SeqFor(t, e)
            && (key in t.given ==> SeqFor(t, e) == t.given[key] && Stamped(t, e) == t)
            && (key !in t.given ==> SeqFor(t, e) == t.seqNo + 1 && forall k :: k in t.given ==> t.given[k] < SeqFor(t, e))
  {
    hide KeylessKey, IsKeylessKey, GivenWell;
    var n := SeqFor(t, e);
    match ItemKey(e) {
      case None =>
        KeylessKeyIsNew(t, e);
        forall m: nat | IsKeylessKey(KeylessKey(e, n), m) ensures m == n { KeylessOnce(e, n, m); }
        GiveFresh(t.given, KeylessKey(e, n), n);
      case Some(key) =>
        if key in t.given && key !in t.itemSeq { KeyedIsNotKeyless(e, t.given[key]); }
        if key !in t.given {
          forall m: nat ensures !IsKeylessKey(key, m) { KeyedIsNotKeyless(e, m); }
          GiveFresh(t.given, key, n);
        }
    }
  }

  lemma KeylessKeyIsNew(t: Timeline, e: Event)
    requires Consistent(t) && t.loaded && IsKeyless(e)
    ensures KeylessKey(e, t.seqNo + 1) !in t.given
  {
    hide KeylessKey;
    assert IsKeylessKey(KeylessKey(e, t.seqNo + 1), t.seqNo + 1);
  }

  lemma PublishIsConsistent(t: Timeline, e: Event, payload: string, createdAt: int)
    requires Consistent(t) && (t.loaded || !CarriesSeq(e))
    ensures Consistent(Published(t, e, payload, createdAt))
  {
    if CarriesSeq(e) {
      StampIsFreshOrKept(t, e);
      StampIsConsistent(t, e);
      hide Consistent, Stamped, SeqFor, DurableKey, GivenWell, ItemKey, IsKeylessKey;
      StampFrame(t, e);
      var row := Row(DurableKey(e, SeqFor(t, e)), SeqFor(t, e), payload, createdAt);
      AcceptIsConsistent(Stamped(t, e), row);
    }
  }

  lemma StampFrame(t: Timeline, e: Event)
    ensures Stamped(t, e) == t.(seqNo := Stamped(t, e).seqNo, itemSeq := Stamped(t, e).itemSeq, given := Stamped(t, e).given)
  {
    hide KeylessKey;
  }

  lemma AcceptIsConsistent(t: Timeline, row: Row)
    requires Consistent(t) && t.loaded && row.key in t.given && t.given[row.key] == row.seqNo
    ensures Consistent(t.(queue := t.queue + [row], accepted := t.accepted + [row]))
  {
    hide GivenWell, IsKeylessKey;
  }

  lemma StampIsConsistent(t: Timeline, e: Event)
    requires Consistent(t) && t.loaded && CarriesSeq(e) && GivenWell(Stamped(t, e).given)
    requires DurableKey(e, SeqFor(t, e)) !in t.given || Stamped(t, e) == t
    ensures Consistent(Stamped(t, e))
  {
    hide GivenWell, KeylessKey;
    if ItemKey(e).None? {
      assert IsKeylessKey(KeylessKey(e, t.seqNo + 1), t.seqNo + 1);
    }
  }

  lemma LoadIsConsistent(t: Timeline, head: nat)
    requires Consistent(t) && IsHead(t.table, head) && (t.loaded || t.draining == [])
    ensures Consistent(Loaded(t, head))
  {
    hide IsKeylessKey, GivenWell;
    if !t.loaded {
      assert SeqsOf(t.table) + t.given == t.given;
      assert KeysOf([]) == {};
    }
  }

  lemma PartIsWell(given: map<string, nat>, part: map<string, nat>)
    requires GivenWell(given) && forall k :: k in part ==> k in given && part[k] == given[k]
    ensures GivenWell(part)
  {
    hide IsKeylessKey;
  }

  lemma ReplaceIsConsistent(t: Timeline)
    requires Consistent(t)
    ensures Consistent(Replaced(t))
  {
    hide IsKeylessKey, GivenWell;
    PartIsWell(t.given, Replaced(t).given);
  }

  lemma CrashIsConsistent(t: Timeline)
    requires Consistent(t)
    ensures Consistent(Crashed(t))
  {
    hide IsKeylessKey, GivenWell;
    PartIsWell(t.given, Crashed(t).given);
  }

  lemma UnpooledIsConsistent(t: Timeline, runId: string, payload: string, createdAt: int, head: nat)
    requires Consistent(t) && IsHead(t.table, head)
    requires Orderly(t, Unpooled(runId, payload, createdAt, head))
    ensures Consistent(PersistedUnpooled(t, runId, payload, createdAt, head))
  {
    hide IsKeylessKey, GivenWell;
    if runId != "" {
      var key := "sa:" + runId;
      if key in t.table {
        assert t.given[key := t.given[key]] == t.given;
      } else {
        assert ItemKey(SubagentTask(Scope("", ""), runId, "")) == Some(key);
        forall m: nat ensures !IsKeylessKey(key, m) { KeyedIsNotKeyless(SubagentTask(Scope("", ""), runId, ""), m); }
        hide ItemKey;
        assert KeysOf([]) == {} && key !in t.given;
        GiveFresh(t.given, key, head + 1);
        NewStatusIsConsistent(t, Row(key, head + 1, payload, createdAt));
      }
    }
  }

  lemma NewStatusIsConsistent(t: Timeline, row: Row)
    requires Consistent(t) && !t.loaded && row.key !in t.given && row.seqNo >= 0
    requires GivenWell(t.given[row.key := row.seqNo])
    ensures Consistent(t.(table := Upsert(t.table, row), given := t.given[row.key := row.seqNo]))
  {
    hide IsKeylessKey, GivenWell;
  }

  lemma StoreIsConsistent(t: Timeline)
    requires Consistent(t) && t.queue != []
    ensures Consistent(Next(t, StoreNext))
  {
    hide GivenWell, IsKeylessKey;
    assert t.queue[0] in t.queue && forall r :: r in t.queue[1..] ==> r in t.queue;
  }

  lemma StoreOldIsConsistent(t: Timeline)
    requires Consistent(t) && t.draining != []
    ensures Consistent(Next(t, StoreOld))
  {
    OneRowStored(t);
    hide GivenWell, IsKeylessKey, TableAgrees, RowsAgree, KeysOf, Upsert;
  }

  /** Storing the first row of the list moves its key to the table. */
  lemma OneRowStored(t: Timeline)
    requires t.draining != [] && TableAgrees(t.table, t.given) && RowsAgree(t.draining, t.given)
    ensures var table, rest := Upsert(t.table, t.draining[0]), t.draining[1..];
            && TableAgrees(table, t.given) && RowsAgree(rest, t.given)
            && forall k :: k in t.table || k in KeysOf(t.draining) <==> k in table || k in KeysOf(rest)
  {
    var rest := t.draining[1..];
    assert t.draining[0] in t.draining && forall r :: r in rest ==> r in t.draining;
    assert forall r :: r in t.draining ==> r == t.draining[0] || r in rest;
    assert forall k :: k in KeysOf(t.draining) ==> k == t.draining[0].key || k in KeysOf(rest);
  }

  lemma CloseIsConsistent(t: Timeline)
    requires Consistent(t) && t.queue == []
    ensures Consistent(t.(loaded := false))
  {
    hide GivenWell, IsKeylessKey;
  }

  lemma StepIsConsistent(t: Timeline, step: Step)
    requires Consistent(t) && Possible(t, step) && Orderly(t, step)
    ensures Consistent(Next(t, step))
  {
    hide Consistent, Published, Loaded, Replaced, Crashed, PersistedUnpooled, IsHead, Upsert;
    match step {
      case Publish(e, payload, createdAt) => PublishIsConsistent(t, e, payload, createdAt);
      case Load(head) => LoadIsConsistent(t, head);
      case StoreNext => StoreIsConsistent(t);
      case StoreOld => StoreOldIsConsistent(t);
      case StopWriter => StoppingIsConsistent(t);
      case Close => CloseIsConsistent(t);
      case Replace => ReplaceIsConsistent(t);
      case Crash => CrashIsConsistent(t);
      case Unpooled(runId, payload, createdAt, head) => UnpooledIsConsistent(t, runId, payload, createdAt, head);
    }
  }

  lemma StoppingIsConsistent(t: Timeline)
    requires Consistent(t)
    ensures Consistent(t.(stopping := true))
  {
    hide GivenWell, IsKeylessKey, TableAgrees, RowsAgree;
  }

  // ----- Runs -----

  ghost predicate Leads(t: Timeline, step: Step, next: Timeline) {
    Possible(t, step) && next == Next(t, step)
  }

  /** `states` are the states of a run from an empty log. */
  ghost predicate IsRun(states: seq<Timeline>, steps: seq<Step>) {
    && |states| == |steps| + 1 && states[0] == EMPTY
    && forall i :: 0 <= i < |steps| ==> Leads(states[i], steps[i], states[i + 1])
  }

  ghost predicate IsOrderlyRun(states: seq<Timeline>, steps: seq<Step>) {
    IsRun(states, steps) && forall i :: 0 <= i < |steps| ==> Orderly(states[i], steps[i])
  }

  /** In every orderly run the books about seqs are consistent. */
  lemma {:induction false} EveryRunIsConsistent(states: seq<Timeline>, steps: seq<Step>, i: nat)
    requires IsOrderlyRun(states, steps) && i < |states|
    ensures Consistent(states[i])
  {
    if i == 0 {
      assert EMPTY.given == map[];
    } else {
      hide Consistent, Next, Possible, Orderly;
      EveryRunIsConsistent(states, steps, i - 1);
      assert Leads(states[i - 1], steps[i - 1], states[i - 1 + 1]);
      StepIsConsistent(states[i - 1], steps[i - 1]);
    }
  }

  /** No two stored keys ever share a seq. */
  lemma StoredSeqsAreDistinct(states: seq<Timeline>, steps: seq<Step>, i: nat, k: string, l: string)
    requires IsOrderlyRun(states, steps) && i < |states| && k in states[i].table && l in states[i].table && k != l
    ensures states[i].table[k].seqNo != states[i].table[l].seqNo
  {
    EveryRunIsConsistent(states, steps, i);
    hide IsOrderlyRun, IsKeylessKey;
  }

  lemma StepKeepsStored(t: Timeline, step: Step, k: string)
    requires k in t.table
    ensures k in Next(t, step).table && Next(t, step).table[k].seqNo == t.table[k].seqNo
  {
  }

  /** A stored key keeps its seq for the rest of any run, orderly or not. */
  lemma {:induction false} StoredSeqIsForever(states: seq<Timeline>, steps: seq<Step>, i: nat, j: nat, k: string)
    requires IsRun(states, steps) && i <= j < |states| && k in states[i].table
    ensures k in states[j].table && states[j].table[k].seqNo == states[i].table[k].seqNo
    decreases j
  {
    if i < j {
      hide Next, Possible;
      StoredSeqIsForever(states, steps, i, j - 1, k);
      assert Leads(states[j - 1], steps[j - 1], states[j - 1 + 1]);
      StepKeepsStored(states[j - 1], steps[j - 1], k);
    }
  }

  /** Any later emission of a stored item is stamped with the stored seq, whichever object emits it. */
  lemma ReemissionKeepsSeq(states: seq<Timeline>, steps: seq<Step>, i: nat, j: nat, e: Event)
    requires IsOrderlyRun(states, steps) && i <= j < |states| && states[j].loaded
    requires ItemKey(e).Some? && ItemKey(e).value in states[i].table
    ensures SeqFor(states[j], e) == states[i].table[ItemKey(e).value].seqNo
  {
    var k := ItemKey(e).value;
    StoredSeqIsForever(states, steps, i, j, k);
    EveryRunIsConsistent(states, steps, j);
    hide IsOrderlyRun, IsKeylessKey, ItemKey;
    StampIsFreshOrKept(states[j], e);
  }

  /** Steps that do not end the life of the session object; a close and a reload do not. */
  predicate Lives(step: Step) {
    !step.Replace? && !step.Crash?
  }

  lemma StepKeepsGiven(t: Timeline, step: Step, k: string)
    requires Consistent(t) && Orderly(t, step) && Lives(step) && k in t.given
    ensures k in Next(t, step).given && Next(t, step).given[k] == t.given[k]
  {
    hide GivenWell, IsKeylessKey, ItemKey, KeylessKey;
    match step {
      case Publish(e, _, _) => if CarriesSeq(e) { StampIsFreshOrKept(t, e); }
      case Unpooled(runId, _, _, _) =>
        if runId != "" && "sa:" + runId == k && k !in t.table {
          hide SeqsOf;
          KeyedIsNotKeylessKey(t, runId);
        }
      case _ =>
    }
  }

  /** A sub-agent's key that was given is stored, stamped by this object, or about to be stored. */
  lemma KeyedIsNotKeylessKey(t: Timeline, runId: string)
    requires Consistent(t) && "sa:" + runId in t.given
    ensures "sa:" + runId in t.itemSeq || (!t.loaded && ("sa:" + runId in t.table || "sa:" + runId in KeysOf(t.draining)))
    ensures KeysOf([]) == {}
  {
    assert ItemKey(SubagentTask(Scope("", ""), runId, "")) == Some("sa:" + runId);
    KeyedIsNotKeyless(SubagentTask(Scope("", ""), runId, ""), t.given["sa:" + runId]);
    hide GivenWell, IsKeylessKey;
  }

  lemma OrderlyStepKeepsGiven(states: seq<Timeline>, steps: seq<Step>, i: nat, k: string)
    requires IsOrderlyRun(states, steps) && i < |steps| && Lives(steps[i]) && k in states[i].given
    ensures k in states[i + 1].given && states[i + 1].given[k] == states[i].given[k]
  {
    hide Next, Possible, Orderly, Consistent, Lives;
    EveryRunIsConsistent(states, steps, i);
    assert Leads(states[i], steps[i], states[i + 1]);
    StepKeepsGiven(states[i], steps[i], k);
  }

  /** While the session object lives, a key keeps the seq of its first emission, stored or not, over closes and reloads. */
  lemma {:induction false} GivenSeqIsKept(states: seq<Timeline>, steps: seq<Step>, i: nat, j: nat, k: string)
    requires IsOrderlyRun(states, steps) && i <= j < |states| && k in states[i].given
    requires forall n :: i <= n < j ==> Lives(steps[n])
    ensures k in states[j].given && states[j].given[k] == states[i].given[k]
    decreases j
  {
    if i < j {
      hide Leads, Orderly, Lives;
      GivenSeqIsKept(states, steps, i, j - 1, k);
      OrderlyStepKeepsGiven(states, steps, j - 1, k);
      assert states[j - 1 + 1] == states[j];
    }
  }

  /** The rows a session hands to its writer have one seq per key, as batching needs. */
  lemma AcceptedRowsAreStable(states: seq<Timeline>, steps: seq<Step>, i: nat)
    requires IsOrderlyRun(states, steps) && i < |states|
    ensures StableSeqs(states[i].accepted)
  {
    EveryRunIsConsistent(states, steps, i);
    hide IsOrderlyRun, GivenWell, IsKeylessKey;
  }

  // ----- What reaches the log, by the steps -----

  /** The events of the rendered transcript. */
  predicate BelongsInLog(e: Event) {
    e.UserMessage? || e.TurnBoundary? || e.Complete? || e.ToolCall? || e.ToolResult? || e.SubagentTask? || e.Error?
  }

  /** Whether the session object in charge after `i` steps has loaded its timeline and not been closed since. */
  function LoadedBy(steps: seq<Step>, i: nat): bool
    requires i <= |steps|
  {
    if i == 0 then false
    else
      match steps[i - 1]
      case Load(_) => true
      case Close => false
      case Replace => false
      case Crash => false
      case _ => LoadedBy(steps, i - 1)
  }

  /** Whether its writer takes rows: a load started it, and it has not been stopped since. */
  function OpenBy(steps: seq<Step>, i: nat): bool
    requires i <= |steps|
  {
    if i == 0 then false
    else
      match steps[i - 1]
      case Load(_) => OpenBy(steps, i - 1) || !LoadedBy(steps, i - 1)
      case StopWriter => false
      case Close => false
      case Replace => false
      case Crash => false
      case _ => OpenBy(steps, i - 1)
  }

  /** The publications of the object in charge that belong in the log and came while its writer took rows. */
  function TakenBy(steps: seq<Step>, i: nat): (taken: seq<Step>)
    requires i <= |steps|
    ensures forall step :: step in taken ==> step.Publish?
  {
    if i == 0 then []
    else
      match steps[i - 1]
      case Publish(e, _, _) => TakenBy(steps, i - 1) + if BelongsInLog(e) && OpenBy(steps, i - 1) then [steps[i - 1]] else []
      case Replace => []
      case Crash => []
      case _ => TakenBy(steps, i - 1)
  }

  /** How many of them its writer has stored. */
  function StoredBy(steps: seq<Step>, i: nat): nat
    requires i <= |steps|
  {
    if i == 0 then 0
    else
      match steps[i - 1]
      case StoreNext => StoredBy(steps, i - 1) + 1
      case Replace => 0
      case Crash => 0
      case _ => StoredBy(steps, i - 1)
  }

  /** The row of a publication, under the key of its item or of its own seq. */
  predicate IsRowOf(row: Row, step: Step)
    requires step.Publish?
  {
    && row.seqNo >= 0 && row.payload == step.payload && row.createdAt == step.createdAt
    && row.key == match ItemKey(step.event)
                  case Some(key) => key
                  case None => KeylessKey(step.event, row.seqNo)
  }

  predicate RowsOfSteps(rows: seq<Row>, taken: seq<Step>)
    requires forall step :: step in taken ==> step.Publish?
  {
    |rows| == |taken| && forall i :: 0 <= i < |rows| ==> IsRowOf(rows[i], taken[i])
  }

  ghost predicate Accounted(t: Timeline, steps: seq<Step>, i: nat)
    requires i <= |steps|
  {
    && t.loaded == LoadedBy(steps, i) && (t.loaded && !t.stopping) == OpenBy(steps, i)
    && RowsOfSteps(t.accepted, TakenBy(steps, i))
    && StoredBy(steps, i) <= |t.accepted| && t.queue == t.accepted[StoredBy(steps, i)..]
  }

  lemma OneMoreRow(rows: seq<Row>, taken: seq<Step>, row: Row, step: Step)
    requires step.Publish? && (forall s :: s in taken ==> s.Publish?) && RowsOfSteps(rows, taken) && IsRowOf(row, step)
    ensures (forall s :: s in taken + [step] ==> s.Publish?) && RowsOfSteps(rows + [row], taken + [step])
  {
    hide IsRowOf;
  }

  /** What publishing does for the log, by the fields of the event. */
  lemma PublishedRow(t: Timeline, e: Event, payload: string, createdAt: int)
    ensures var after := Published(t, e, payload, createdAt);
            && after.loaded == t.loaded && after.stopping == t.stopping
            && (if BelongsInLog(e) && t.loaded && !t.stopping then
                  && |after.accepted| == |t.accepted| + 1 && IsRowOf(after.accepted[|t.accepted|], Publish(e, payload, createdAt))
                  && after.accepted == t.accepted + [after.accepted[|t.accepted|]]
                  && after.queue == t.queue + [after.accepted[|t.accepted|]]
                else after.accepted == t.accepted && after.queue == t.queue)
  {
    hide KeylessKey;
  }

  lemma PublishIsAccounted(t: Timeline, steps: seq<Step>, i: nat)
    requires i < |steps| && steps[i].Publish? && Accounted(t, steps, i)
    ensures Accounted(Next(t, steps[i]), steps, i + 1)
  {
    var after := Next(t, steps[i]);
    PublishedRow(t, steps[i].event, steps[i].payload, steps[i].createdAt);
    hide Published, IsRowOf;
    if BelongsInLog(steps[i].event) && t.loaded && !t.stopping {
      OneMoreRow(t.accepted, TakenBy(steps, i), after.accepted[|t.accepted|], steps[i]);
    } else {
      assert TakenBy(steps, i) + [] == TakenBy(steps, i);
    }
  }

  lemma OthersAreAccounted(t: Timeline, steps: seq<Step>, i: nat)
    requires i < |steps| && !steps[i].Publish? && Possible(t, steps[i]) && Accounted(t, steps, i)
    ensures Accounted(Next(t, steps[i]), steps, i + 1)
  {
    hide IsRowOf, Upsert, SeqsOf, KeysOf, IsHead;
  }

  /**
   * In every run the rows accepted by the session object in charge are those of its publications that belong in the log
   * and came between a load and the next stop, in their order; those not stored yet are queued.
   */
  lemma {:induction false} AcceptedAreThePublished(states: seq<Timeline>, steps: seq<Step>, i: nat)
    requires IsRun(states, steps) && i < |states|
    ensures Accounted(states[i], steps, i)
    decreases i
  {
    hide Accounted, Next, Possible;
    if i == 0 {
      NothingAccounted(steps);
    } else {
      AcceptedAreThePublished(states, steps, i - 1);
      assert Leads(states[i - 1], steps[i - 1], states[i - 1 + 1]);
      if steps[i - 1].Publish? {
        PublishIsAccounted(states[i - 1], steps, i - 1);
      } else {
        OthersAreAccounted(states[i - 1], steps, i - 1);
      }
    }
  }

  lemma NothingAccounted(steps: seq<Step>)
    ensures Accounted(EMPTY, steps, 0)
  {
  }

  // ----- Why runs have to be orderly -----

  /** The table once every accepted row is stored. */
  function Final(t: Timeline): Table {
    OneByOne(t.table, t.draining + t.queue)
  }

  ghost predicate DistinctSeqs(table: Table) {
    forall k, l :: k in table && l in table && k != l ==> table[k].seqNo != table[l].seqNo
  }

  /** Once everything is stored, a key has the seq it was given. */
  lemma FinalSeq(t: Timeline, rows: seq<Row>, given: map<string, nat>, k: string)
    requires RowsAgree(rows, given) && TableAgrees(t.table, given)
    ensures k in OneByOne(t.table, rows) <==> k in t.table || k in KeysOf(rows)
    ensures k in OneByOne(t.table, rows) ==> k in given && OneByOne(t.table, rows)[k].seqNo == given[k]
  {
    OneByOneByKey(t.table, rows, k);
    FirstAndLatestAreRows(rows, k);
    KeyIsLatest(rows, k);
    hide OneByOne, First, Latest;
  }

  lemma {:induction false} KeyIsLatest(rows: seq<Row>, k: string)
    ensures k in Latest(rows) <==> k in KeysOf(rows)
  {
    if rows != [] {
      KeyIsLatest(rows[..|rows| - 1], k);
      assert forall r :: r in rows <==> r in rows[..|rows| - 1] || r == rows[|rows| - 1];
    }
  }

  /** The keys and seqs of the table once a first status is stored past the session objects, and every row after it. */
  lemma FinalAfterUnpooled(t: Timeline, runId: string, payload: string, createdAt: int, head: nat, k: string)
    requires TableAgrees(t.table, t.given) && RowsAgree(t.draining + t.queue, t.given)
    requires runId != "" && "sa:" + runId !in t.table && "sa:" + runId !in KeysOf(t.draining + t.queue)
    ensures var final := Final(PersistedUnpooled(t, runId, payload, createdAt, head));
            && (k in final <==> k == "sa:" + runId || k in t.table || k in KeysOf(t.draining + t.queue))
            && (k == "sa:" + runId ==> final[k].seqNo == head + 1)
            && (k in final && k != "sa:" + runId ==> k in t.given && final[k].seqNo == t.given[k])
  {
    var after := PersistedUnpooled(t, runId, payload, createdAt, head);
    var given := t.given["sa:" + runId := head + 1];
    assert RowsAgree(t.draining + t.queue, given) && TableAgrees(after.table, given);
    FinalSeq(after, t.draining + t.queue, given, k);
    hide OneByOne;
  }

  /**
   * A first status of a sub-agent, stored past the session objects, gets the seq after the head. Once everything is
   * stored that clashes with another key exactly when an accepted row that is not stored yet carries this very seq.
   */
  lemma HeadBeforeStoreClashes(t: Timeline, runId: string, payload: string, createdAt: int, head: nat)
    requires Consistent(t) && IsHead(t.table, head) && runId != "" && "sa:" + runId !in t.table
    requires "sa:" + runId !in KeysOf(t.draining + t.queue)
    ensures DistinctSeqs(Final(PersistedUnpooled(t, runId, payload, createdAt, head)))
            <==> forall r :: r in t.draining + t.queue ==> r.key in t.table || r.seqNo != head + 1
  {
    ConsistentBooks(t);
    hide Consistent, Final, PersistedUnpooled;
    var rows := t.draining + t.queue;
    var final := Final(PersistedUnpooled(t, runId, payload, createdAt, head));
    forall k { FinalAfterUnpooled(t, runId, payload, createdAt, head, k); }
    if r :| r in rows && r.key !in t.table && r.seqNo == head + 1 {
      assert r.key in KeysOf(rows) && r.key in final && "sa:" + runId in final;
    } else {
      HeadIsFresh(t, rows, head);
      AllDistinct(t, final, "sa:" + runId, head + 1);
    }
  }

  lemma AllDistinct(t: Timeline, final: Table, key: string, n: nat)
    requires Injective(t.given)
    requires forall k :: k in final && k != key ==> k in t.given && t.given[k] != n && final[k].seqNo == t.given[k]
    requires key in final ==> final[key].seqNo == n
    ensures DistinctSeqs(final)
  {
  }

  lemma ConsistentBooks(t: Timeline)
    requires Consistent(t)
    ensures Injective(t.given) && TableAgrees(t.table, t.given) && RowsAgree(t.draining + t.queue, t.given)
  {
    hide IsKeylessKey;
  }

  lemma HeadIsFresh(t: Timeline, rows: seq<Row>, head: nat)
    requires TableAgrees(t.table, t.given) && RowsAgree(rows, t.given) && IsHead(t.table, head)
    requires forall r :: r in rows ==> r.key in t.table || r.seqNo != head + 1
    ensures forall k :: k in t.table || k in KeysOf(rows) ==> k in t.given && t.given[k] != head + 1
  {
  }

  // ----- Runs that are not orderly -----

  /** The last state of some run. */
  ghost predicate Reachable(t: Timeline) {
    exists states, steps :: IsRun(states, steps) && states[|steps|] == t
  }

  lemma EmptyIsReachable()
    ensures Reachable(EMPTY)
  {
    assert IsRun([EMPTY], []);
  }

  lemma OneMoreStep(t: Timeline, step: Step)
    requires Reachable(t) && Possible(t, step)
    ensures Reachable(Next(t, step))
  {
    hide Next, Possible;
    var states, steps :| IsRun(states, steps) && states[|steps|] == t;
    var longer, more := states + [Next(t, step)], steps + [step];
    forall i | 0 <= i < |more|
      ensures Leads(longer[i], more[i], longer[i + 1])
    {
      if i < |steps| {
        assert Leads(states[i], steps[i], states[i + 1]);
      }
    }
    assert IsRun(longer, more);
  }

  lemma LoadedOnce()
    ensures Reachable(EMPTY.(loaded := true))
  {
    EmptyIsReachable();
    OneMoreStep(EMPTY, Load(0));
    assert Next(EMPTY, Load(0)) == EMPTY.(loaded := true);
  }

  const HELLO := UserMessage("hello")

  /** An object that accepted a message is replaced before its writer has stored it. */
  lemma MessageDrains()
    ensures Reachable(EMPTY.(draining := [Row(KeylessKey(HELLO, 1), 1, "", 0)], given := map[KeylessKey(HELLO, 1) := 1]))
  {
    hide KeylessKey, Reachable;
    LoadedOnce();
    var key := KeylessKey(HELLO, 1);
    var row := Row(key, 1, "", 0);
    OneMoreStep(EMPTY.(loaded := true), Publish(HELLO, "", 0));
    var t := Timeline(1, map[], true, false, [row], [], map[], map[key := 1], [row]);
    assert Next(EMPTY.(loaded := true), Publish(HELLO, "", 0)) == t;
    OneMoreStep(t, Replace);
    assert [] + [row] == [row] && key in KeysOf([row]);
    assert Next(t, Replace) == EMPTY.(draining := [row], given := map[key := 1]);
  }

  lemma FirstStatus(t: Timeline)
    requires t.table == map[]
    ensures Next(t, Unpooled("r", "", 0, 0)) == PersistedUnpooled(t, "r", "", 0, 0)
    ensures Possible(t, Unpooled("r", "", 0, 0))
  {
  }

  /** A run in which the head is read too early: two stored keys end up with one seq. */
  lemma ReplacedTooEarly() returns (t: Timeline)
    ensures Reachable(t) && !DistinctSeqs(Final(t))
  {
    var row := Row(KeylessKey(HELLO, 1), 1, "", 0);
    var before := EMPTY.(draining := [row], given := map[row.key := 1]);
    KeylessIsNeverKeyed(HELLO, 1, SubagentTask(Scope("", ""), "r", ""));
    hide KeylessKey, Reachable, Next, PersistedUnpooled, Final;
    MessageDrains();
    FirstStatus(before);
    t := Next(before, Unpooled("r", "", 0, 0));
    OneMoreStep(before, Unpooled("r", "", 0, 0));
    assert before.draining + before.queue == [row] && KeysOf([row]) == {row.key};
    FinalAfterUnpooled(before, "r", "", 0, 0, row.key);
    FinalAfterUnpooled(before, "r", "", 0, 0, "sa:" + "r");
  }

  function Status(runId: string): Event {
    SubagentTask(Scope("", ""), runId, "running")
  }

  const TWO_STATUSES: Table := map["sa:" + "q" := Stored(1, "", 0), "sa:" + "r" := Stored(2, "", 0)]

  lemma TwoStatuses()
    ensures Reachable(EMPTY.(table := TWO_STATUSES, given := map["sa:" + "q" := 1, "sa:" + "r" := 2]))
  {
    hide Reachable;
    EmptyIsReachable();
    OneMoreStep(EMPTY, Unpooled("q", "", 0, 0));
    var t := EMPTY.(table := map["sa:" + "q" := Stored(1, "", 0)], given := map["sa:" + "q" := 1]);
    assert Next(EMPTY, Unpooled("q", "", 0, 0)) == t;
    assert ("sa:" + "q")[3] != ("sa:" + "r")[3];
    assert "sa:" + "q" in t.table && IsHead(t.table, 1);
    OneMoreStep(t, Unpooled("r", "", 0, 1));
    assert Next(t, Unpooled("r", "", 0, 1))
           == EMPTY.(table := TWO_STATUSES, given := map["sa:" + "q" := 1, "sa:" + "r" := 2]);
  }

  /** An item stamped before the load keeps its live seq although another one is stored. */
  lemma StampBeforeLoadDiverges() returns (t: Timeline, e: Event)
    ensures Reachable(t) && t.loaded && ItemKey(e).Some? && ItemKey(e).value in t.table
    ensures SeqFor(t, e) != t.table[ItemKey(e).value].seqNo
  {
    e := Status("r");
    var stored := EMPTY.(table := TWO_STATUSES, given := map["sa:" + "q" := 1, "sa:" + "r" := 2]);
    TwoStatuses();
    hide Reachable;
    OneMoreStep(stored, Publish(e, "", 0));
    var live := Next(stored, Publish(e, "", 0));
    StampedFirst(stored);
    assert "sa:" + "q" in live.table && "sa:" + "r" in live.table && ("sa:" + "q")[3] != ("sa:" + "r")[3];
    HeadOfTwo();
    OneMoreStep(live, Load(2));
    t := Next(live, Load(2));
    KeepsLiveSeq(live, 2);
  }

  lemma HeadOfTwo()
    ensures IsHead(TWO_STATUSES, 2)
    ensures "sa:" + "r" in TWO_STATUSES && TWO_STATUSES["sa:" + "r"].seqNo == 2
  {
    assert "sa:" + "r" in TWO_STATUSES && TWO_STATUSES["sa:" + "r"].seqNo == 2;
  }

  lemma StampedFirst(t: Timeline)
    requires !t.loaded && t.seqNo == 0 && t.itemSeq == map[]
    ensures var live := Next(t, Publish(Status("r"), "", 0));
            live.itemSeq == map["sa:" + "r" := 1] && live.table == t.table && !live.loaded
  {
  }

  lemma KeepsLiveSeq(t: Timeline, head: nat)
    requires !t.loaded && t.itemSeq == map["sa:" + "r" := 1]
    ensures Next(t, Load(head)).itemSeq.Keys >= {"sa:" + "r"} && Next(t, Load(head)).itemSeq["sa:" + "r"] == 1
    ensures Next(t, Load(head)).loaded && Next(t, Load(head)).table == t.table
  {
    hide SeqsOf;
  }

  // ----- The session's fields and methods -----

  class SessionTimeline {
    var seqNo: nat
    var itemSeq: map<string, nat>
    var loaded: bool
    /** The writer: whether it is stopping, the rows it accepted and has not stored, those of earlier objects. */
    var stopping: bool
    var queue: seq<Row>
    var draining: seq<Row>
    /** The durable table, and the history. */
    var table: Table
    var given: map<string, nat>
    var accepted: seq<Row>
    /** Whether every call so far kept to the order that the seqs depend on. */
    ghost var orderly: bool

    function State(): Timeline
      reads this
    {
      Timeline(seqNo, itemSeq, loaded, stopping, queue, draining, table, given, accepted)
    }

    ghost predicate Valid()
      reads this
    {
      orderly ==> Consistent(State())
    }

    constructor ()
      ensures Valid() && State() == EMPTY && orderly
    {
      seqNo, itemSeq, loaded, stopping, queue, draining := 0, map[], false, false, [], [];
      table, given, accepted := map[], map[], [];
      orderly := true;
      new;
      EmptyIsConsistent();
    }

    /** Stamps the event and returns the key it is to be stored under, if it is. A key has one seq, in the books and out. */
    method StampEvent(e: Event) returns (stamp: nat, persistKey: Option<string>)
      requires Valid()
      modifies `seqNo, `itemSeq, `given, `orderly
      ensures Valid() && orderly == (old(orderly) && (loaded || !CarriesSeq(e)))
      ensures State() == Stamped(old(State()), e)
      ensures CarriesSeq(e) ==> stamp == SeqFor(old(State()), e)
      ensures persistKey == if IsPersistable(e) then Some(DurableKey(e, stamp)) else None
      ensures orderly && CarriesSeq(e) ==> DurableKey(e, stamp) in given && given[DurableKey(e, stamp)] == stamp
    {
      StampKeepsBooks(State(), e, orderly);
      orderly := orderly && (loaded || !CarriesSeq(e));
      hide Consistent, GivenWell;
      stamp, persistKey := Stamp(e);
    }

    method Stamp(e: Event) returns (stamp: nat, persistKey: Option<string>)
      modifies `seqNo, `itemSeq, `given
      ensures State() == Stamped(old(State()), e)
      ensures CarriesSeq(e) ==> stamp == SeqFor(old(State()), e)
      ensures persistKey == if IsPersistable(e) then Some(DurableKey(e, stamp)) else None
    {
      stamp, persistKey := 0, None;
      if e.RunState? || e.Done? {
        return;
      }
      var key := ItemKey(e);
      if key.None? {
        seqNo := seqNo + 1;
        stamp := seqNo;
        persistKey := Some(KeylessKey(e, seqNo));
        given := given[KeylessKey(e, seqNo) := seqNo];
      } else {
        if key.value !in itemSeq {
          seqNo := seqNo + 1;
          itemSeq := itemSeq[key.value := seqNo];
          given := given[key.value := seqNo];
        }
        stamp := itemSeq[key.value];
        persistKey := key;
      }
      if !IsPersistable(e) {
        persistKey := None;
      }
    }

    /** True iff nothing had to be stored, or the writer took the row; what it is given has one seq per key. */
    method PublishExternal(e: Event, payload: string, createdAt: int) returns (ok: bool)
      requires Valid()
      modifies this
      ensures Valid() && orderly == (old(orderly) && Orderly(old(State()), Publish(e, payload, createdAt)))
      ensures State() == Published(old(State()), e, payload, createdAt)
      ensures ok == (!IsPersistable(e) || (loaded && !stopping))
      ensures orderly ==> StableSeqs(accepted)
    {
      PublishKeepsBooks(State(), e, payload, createdAt, orderly);
      hide Consistent, StableSeqs, Published;
      orderly := orderly && (loaded || !CarriesSeq(e));
      ok := Deliver(e, payload, createdAt);
    }

    method Deliver(e: Event, payload: string, createdAt: int) returns (ok: bool)
      modifies `seqNo, `itemSeq, `given, `queue, `accepted
      ensures State() == Published(old(State()), e, payload, createdAt)
      ensures ok == (!IsPersistable(e) || (loaded && !stopping))
    {
      var stamp, persistKey := Stamp(e);
      if persistKey.Some? && loaded {
        if stopping {
          return false;
        }
        var row := Row(persistKey.value, stamp, payload, createdAt);
        queue := queue + [row];
        accepted := accepted + [row];
        return true;
      }
      return persistKey.None?;
    }

    /** Afterwards no seq in the log or in the books is above the counter. */
    method EnsureTimelineLoaded() returns (ghost head: nat)
      requires Valid()
      modifies this
      ensures Valid() && orderly == (old(orderly) && (old(loaded) || draining == []))
      ensures IsHead(table, head) && State() == Loaded(old(State()), head)
      ensures loaded && (orderly ==> forall k :: k in given ==> given[k] <= seqNo)
    {
      var maxSeq := LoadTimelineHead(table);
      head := maxSeq;
      LoadKeepsBooks(State(), maxSeq, orderly);
      orderly := orderly && (loaded || draining == []);
      hide Consistent, IsHead;
      if loaded {
        return;
      }
      seqNo := MaxNat(seqNo, maxSeq);
      itemSeq := SeqsOf(table) + itemSeq;
      given := SeqsOf(table) + given;
      loaded, stopping := true, false;
    }

    /** A stored status keeps its seq. */
    method PersistSubagentUnpooled(runId: string, payload: string, createdAt: int) returns (ghost head: nat)
      requires Valid()
      modifies `table, `given, `orderly
      ensures IsHead(old(table), head)
      ensures Valid() && orderly == (old(orderly) && Orderly(old(State()), Unpooled(runId, payload, createdAt, head)))
      ensures State() == PersistedUnpooled(old(State()), runId, payload, createdAt, head)
      ensures forall k :: k in old(table) ==> k in table && table[k].seqNo == old(table)[k].seqNo
    {
      var maxSeq := LoadTimelineHead(table);
      head := maxSeq;
      UnpooledKeepsBooks(State(), runId, payload, createdAt, maxSeq, orderly);
      StepKeepsAllStored(State(), Unpooled(runId, payload, createdAt, maxSeq));
      orderly := orderly && Orderly(State(), Unpooled(runId, payload, createdAt, maxSeq));
      hide Consistent, IsHead, PersistedUnpooled, Orderly;
      StoreStatus(runId, payload, createdAt, maxSeq);
    }

    method StoreStatus(runId: string, payload: string, createdAt: int, maxSeq: nat)
      modifies `table, `given
      ensures State() == PersistedUnpooled(old(State()), runId, payload, createdAt, maxSeq)
    {
      if runId == "" {
        return;
      }
      var key := "sa:" + runId;
      var stamp;
      if key in table {
        stamp := table[key].seqNo;
      } else {
        stamp := maxSeq + 1;
      }
      table := Upsert(table, Row(key, stamp, payload, createdAt));
      given := given[key := AsSeq(stamp)];
    }
  }

  lemma EmptyIsConsistent()
    ensures Consistent(EMPTY)
  {
    assert EMPTY.given == map[];
  }

  lemma StampKeepsBooks(t: Timeline, e: Event, orderly: bool)
    requires orderly ==> Consistent(t)
    ensures orderly && (t.loaded || !CarriesSeq(e)) ==> Consistent(Stamped(t, e))
    ensures orderly && t.loaded && CarriesSeq(e) ==>
              var key := DurableKey(e, SeqFor(t, e));
              key in Stamped(t, e).given && Stamped(t, e).given[key] == SeqFor(t, e)
  {
    hide Consistent, GivenWell, Stamped, SeqFor, DurableKey;
    if orderly && t.loaded && CarriesSeq(e) {
      StampIsFreshOrKept(t, e);
      StampIsConsistent(t, e);
    } else if !CarriesSeq(e) {
      Unstamped(t, e);
    }
  }

  lemma Unstamped(t: Timeline, e: Event)
    requires !CarriesSeq(e)
    ensures Stamped(t, e) == t
  {
  }

  lemma PublishKeepsBooks(t: Timeline, e: Event, payload: string, createdAt: int, orderly: bool)
    requires orderly ==> Consistent(t)
    ensures orderly && (t.loaded || !CarriesSeq(e)) ==>
              Consistent(Published(t, e, payload, createdAt)) && StableSeqs(Published(t, e, payload, createdAt).accepted)
  {
    hide Consistent, Published;
    if orderly && (t.loaded || !CarriesSeq(e)) {
      PublishIsConsistent(t, e, payload, createdAt);
      ConsistentIsStable(Published(t, e, payload, createdAt));
    }
  }

  lemma ConsistentIsStable(t: Timeline)
    requires Consistent(t)
    ensures StableSeqs(t.accepted)
  {
    hide GivenWell, IsKeylessKey, TableAgrees;
  }

  lemma LoadKeepsBooks(t: Timeline, head: nat, orderly: bool)
    requires (orderly ==> Consistent(t)) && IsHead(t.table, head)
    ensures orderly && (t.loaded || t.draining == []) ==>
              && Consistent(Loaded(t, head))
              && forall k :: k in Loaded(t, head).given ==> Loaded(t, head).given[k] <= Loaded(t, head).seqNo
  {
    hide Consistent, Loaded, IsHead;
    if orderly && (t.loaded || t.draining == []) {
      LoadIsConsistent(t, head);
      LoadedIsLoaded(t, head);
      CounterIsAbove(Loaded(t, head));
    }
  }

  lemma LoadedIsLoaded(t: Timeline, head: nat)
    ensures Loaded(t, head).loaded
  {
  }

  lemma CounterIsAbove(t: Timeline)
    requires Consistent(t) && t.loaded
    ensures forall k :: k in t.given ==> t.given[k] <= t.seqNo
  {
    hide GivenWell, IsKeylessKey, TableAgrees, RowsAgree;
  }

  lemma UnpooledKeepsBooks(t: Timeline, runId: string, payload: string, createdAt: int, head: nat, orderly: bool)
    requires (orderly ==> Consistent(t)) && IsHead(t.table, head)
    ensures orderly && Orderly(t, Unpooled(runId, payload, createdAt, head)) ==>
              Consistent(PersistedUnpooled(t, runId, payload, createdAt, head))
  {
    hide Consistent, PersistedUnpooled, IsHead, Orderly;
    if orderly && Orderly(t, Unpooled(runId, payload, createdAt, head)) {
      UnpooledIsConsistent(t, runId, payload, createdAt, head);
    }
  }

  lemma StepKeepsAllStored(t: Timeline, step: Step)
    ensures forall k :: k in t.table ==> k in Next(t, step).table && Next(t, step).table[k].seqNo == t.table[k].seqNo
  {
    forall k | k in t.table { StepKeepsStored(t, step, k); }
  }

  method LoadTimelineHead(table: Table) returns (maxSeq: nat)
    ensures IsHead(table, maxSeq)
  {
    maxSeq := 0;
    var rest := table.Keys;
    while rest != {}
      invariant rest <= table.Keys
      invariant forall k :: k in table.Keys - rest ==> table[k].seqNo <= maxSeq
      invariant maxSeq == 0 || exists k :: k in table && table[k].seqNo == maxSeq
      decreases |rest|
    {
      var key :| key in rest;
      if table[key].seqNo > maxSeq { maxSeq := table[key].seqNo; }
      rest := rest - {key};
    }
  }
}
