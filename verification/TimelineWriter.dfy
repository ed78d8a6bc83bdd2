/** Durable batching writer of the timeline log (core/runtime/timeline.py, service/agent/event_log.py). */
module TimelineWriter {

  datatype Row = Row(key: string, seqNo: int, payload: string, createdAt: int)

  datatype Stored = Stored(seqNo: int, payload: string, createdAt: int)

  type Table = map<string, Stored>

  // ----- Upserts: the seq of a key stays first-seen, payload and time are replaced -----

  function Upsert(table: Table, row: Row): Table {
    table[row.key := Stored(if row.key in table then table[row.key].seqNo else row.seqNo, row.payload, row.createdAt)]
  }

  function OneByOne(table: Table, rows: seq<Row>): Table {
    if rows == [] then table else Upsert(OneByOne(table, rows[..|rows| - 1]), rows[|rows| - 1])
  }

  /** The last row of every key of a batch. */
  function Latest(rows: seq<Row>): map<string, Row> {
    if rows == [] then map[] else Latest(rows[..|rows| - 1])[rows[|rows| - 1].key := rows[|rows| - 1]]
  }

  /** The first row of every key of a batch. */
  function First(rows: seq<Row>): map<string, Row> {
    if rows == [] then map[]
    else
      var front := First(rows[..|rows| - 1]);
      if rows[|rows| - 1].key in front then front else front[rows[|rows| - 1].key := rows[|rows| - 1]]
  }

  /** One statement that upserts rows of distinct keys. */
  function UpsertAll(table: Table, rows: map<string, Row>): Table {
    map key | key in table.Keys + rows.Keys ::
      if key !in rows then table[key]
      else Stored(if key in table then table[key].seqNo else rows[key].seqNo, rows[key].payload, rows[key].createdAt)
  }

  /** What a batch leaves behind: first-seen seq, latest payload. */
  lemma {:induction false} OneByOneByKey(table: Table, rows: seq<Row>, key: string)
    ensures key in First(rows) <==> key in Latest(rows)
    ensures key in OneByOne(table, rows) <==> key in table || key in Latest(rows)
    ensures key in table && key !in Latest(rows) ==> OneByOne(table, rows)[key] == table[key]
    ensures key in Latest(rows) ==>
              OneByOne(table, rows)[key]
              == Stored(if key in table then table[key].seqNo else First(rows)[key].seqNo,
                        Latest(rows)[key].payload, Latest(rows)[key].createdAt)
  {
    if rows != [] {
      OneByOneByKey(table, rows[..|rows| - 1], key);
    }
  }

  /** Collapsing a batch is invisible exactly when every new key of the batch keeps one seq. */
  lemma CollapseIsExact(table: Table, rows: seq<Row>)
    ensures forall key :: key in Latest(rows) ==> key in First(rows)
    ensures UpsertAll(table, Latest(rows)) == OneByOne(table, rows)
            <==> forall key :: key in Latest(rows) && key !in table ==> First(rows)[key].seqNo == Latest(rows)[key].seqNo
  {
    hide OneByOne, Latest, First;
    forall key { OneByOneByKey(table, rows, key); }
    var all := UpsertAll(table, Latest(rows));
    var one := OneByOne(table, rows);
    if all == one {
      forall key | key in Latest(rows) && key !in table
        ensures First(rows)[key].seqNo == Latest(rows)[key].seqNo
      {
        assert all[key] == one[key];
      }
    }
    if forall key :: key in Latest(rows) && key !in table ==> First(rows)[key].seqNo == Latest(rows)[key].seqNo {
      assert forall key :: key in all <==> key in one;
      assert forall key :: key in all ==> all[key] == one[key];
    }
  }

  /** Every key has one seq. */
  ghost predicate StableSeqs(rows: seq<Row>) {
    forall r, s :: r in rows && s in rows && r.key == s.key ==> r.seqNo == s.seqNo
  }

  lemma {:induction false} FirstAndLatestAreRows(rows: seq<Row>, key: string)
    ensures key in Latest(rows) ==> Latest(rows)[key] in rows && Latest(rows)[key].key == key
    ensures key in First(rows) ==> First(rows)[key] in rows && First(rows)[key].key == key
  {
    if rows != [] {
      FirstAndLatestAreRows(rows[..|rows| - 1], key);
    }
  }

  lemma CollapseStable(table: Table, rows: seq<Row>)
    requires StableSeqs(rows)
    ensures UpsertAll(table, Latest(rows)) == OneByOne(table, rows)
  {
    hide OneByOne, Latest, First, UpsertAll;
    CollapseIsExact(table, rows);
    forall key | key in Latest(rows) && key !in table
      ensures First(rows)[key].seqNo == Latest(rows)[key].seqNo
    {
      FirstAndLatestAreRows(rows, key);
    }
  }

  /** With two seqs for one key the collapsed batch stores the second, one-by-one upserts the first. */
  lemma UnstableSeqIsVisible(a: Row, b: Row)
    requires a.key == b.key && a.seqNo != b.seqNo
    ensures UpsertAll(map[], Latest([a, b]))[a.key].seqNo == b.seqNo
    ensures OneByOne(map[], [a, b])[a.key].seqNo == a.seqNo
  {
    assert [a, b][..1] == [a] && [a][..0] == [];
    assert OneByOne(map[], [a]) == map[a.key := Stored(a.seqNo, a.payload, a.createdAt)];
    assert Latest([a]) == map[a.key := a];
  }

  lemma {:induction false} OneByOneAppend(table: Table, a: seq<Row>, b: seq<Row>)
    ensures OneByOne(table, a + b) == OneByOne(OneByOne(table, a), b)
  {
    if b == [] {
      assert a + b == a;
    } else {
      assert (a + b)[..|a + b| - 1] == a + b[..|b| - 1];
      OneByOneAppend(table, a, b[..|b| - 1]);
    }
  }

  // ----- Rows whose upsert failed -----

  /** The rows without those at the lost positions. */
  function Kept(rows: seq<Row>, lost: set<nat>): seq<Row> {
    if rows == [] then []
    else Kept(rows[..|rows| - 1], lost) + (if |rows| - 1 in lost then [] else [rows[|rows| - 1]])
  }

  function Positions(from: nat, count: nat): (positions: set<nat>)
    ensures forall i :: i in positions <==> from <= i < from + count
  {
    if count == 0 then {} else Positions(from, count - 1) + {from + count - 1}
  }

  lemma {:induction false} KeptSame(rows: seq<Row>, lost: set<nat>, more: set<nat>)
    requires forall i :: 0 <= i < |rows| ==> (i in lost <==> i in more)
    ensures Kept(rows, lost) == Kept(rows, more)
  {
    if rows != [] {
      KeptSame(rows[..|rows| - 1], lost, more);
    }
  }

  lemma {:induction false} KeptWithAll(a: seq<Row>, b: seq<Row>, lost: set<nat>)
    requires forall i :: i in lost ==> i < |a|
    ensures Kept(a + b, lost) == Kept(a, lost) + b
  {
    if b == [] {
      assert a + b == a;
    } else {
      assert (a + b)[..|a + b| - 1] == a + b[..|b| - 1];
      KeptWithAll(a, b[..|b| - 1], lost);
    }
  }

  lemma {:induction false} KeptWithNone(a: seq<Row>, b: seq<Row>, lost: set<nat>)
    requires forall i :: |a| <= i < |a| + |b| ==> i in lost
    ensures Kept(a + b, lost) == Kept(a, lost)
  {
    if b == [] {
      assert a + b == a;
    } else {
      assert (a + b)[..|a + b| - 1] == a + b[..|b| - 1];
      KeptWithNone(a, b[..|b| - 1], lost);
    }
  }

  lemma {:induction false} KeptArePart(rows: seq<Row>, lost: set<nat>)
    ensures forall r :: r in Kept(rows, lost) ==> r in rows
  {
    if rows != [] {
      KeptArePart(rows[..|rows| - 1], lost);
    }
  }

  lemma {:induction false} NothingLost(rows: seq<Row>)
    ensures Kept(rows, {}) == rows
  {
    KeptWithAll([], rows, {});
    assert [] + rows == rows;
  }

  // ----- The writer: one queue, one consumer -----

  /** Flush calls are numbered; a barrier carries the number of its call. */
  datatype QueueItem = Item(row: Row) | Barrier(id: nat) | StopMark

  /** What the consumer does once the rows in hand are stored. */
  datatype Then = EndOfBatch | ResolveBarrier(id: nat) | DrainAndStop | ResolveAndExit(ids: seq<nat>)

  datatype Consumer =
    | NotStarted
    | Waiting
    | Batching(rows: seq<Row>)
    | Storing(rows: seq<Row>, andThen: Then)
    | Finished

  /**
   * The writer, with `stops` stop calls that have not returned. History: the rows accepted, how many of them went
   * through an upsert and the positions of those whose upsert failed; for every flush call the rows accepted before it;
   * the calls that wait for the consumer to end and those that have returned.
   */
  datatype Writer = Writer(
    queue: seq<QueueItem>, stopping: bool, stops: nat, consumer: Consumer, table: Table,
    accepted: seq<Row>, passed: nat, lost: set<nat>, marks: seq<nat>, waiting: set<nat>, resolved: set<nat>)

  datatype Operation = Start | Enqueue(row: Row) | Flush | Stop | FinishStop | Advance(ok: bool)

  const IDLE := Writer([], false, 0, NotStarted, map[], [], 0, {}, [], {}, {})

  function RowsOf(queue: seq<QueueItem>): seq<Row> {
    if queue == [] then []
    else if queue[0].Item? then [queue[0].row] + RowsOf(queue[1..])
    else RowsOf(queue[1..])
  }

  function IdsOf(queue: seq<QueueItem>): seq<nat> {
    if queue == [] then []
    else if queue[0].Barrier? then [queue[0].id] + IdsOf(queue[1..])
    else IdsOf(queue[1..])
  }

  predicate Running(w: Writer) {
    !w.consumer.NotStarted? && !w.consumer.Finished?
  }

  /** Rows reach the writer only once the session has loaded its timeline and started it. */
  predicate Accepts(w: Writer) {
    !w.stopping && !w.consumer.NotStarted?
  }

  function SetOf(ids: seq<nat>): set<nat> {
    set m | m in ids
  }

  /** One upsert of the batch; a failure is logged and the rows are gone. */
  function Store(w: Writer, rows: seq<Row>, ok: bool): Writer {
    if ok then w.(table := UpsertAll(w.table, Latest(rows)), passed := w.passed + |rows|)
    else w.(lost := w.lost + Positions(w.passed, |rows|), passed := w.passed + |rows|)
  }

  /** Drain, store and resolve on the caller's side, when no consumer is alive. */
  function DrainDirectly(w: Writer): Writer {
    Store(w, RowsOf(w.queue), true).(queue := [], resolved := w.resolved + SetOf(IdsOf(w.queue)))
  }

  /** A writer may be started again once its consumer has ended and every stop call has returned. */
  function Next(w: Writer, op: Operation): Writer {
    match op
    case Start => if !Running(w) && w.stops == 0 then w.(stopping := false, consumer := Waiting) else w
    case Enqueue(row) => if Accepts(w) then w.(queue := w.queue + [Item(row)], accepted := w.accepted + [row]) else w
    case Flush => Flushed(w.(marks := w.marks + [|w.accepted|]), |w.marks|)
    case Stop =>
      if Running(w) then w.(stopping := true, stops := w.stops + 1, queue := w.queue + [StopMark])
      else DrainDirectly(w.(stopping := true))
    case FinishStop => if w.stops > 0 && !Running(w) then DrainDirectly(w.(stops := w.stops - 1)) else w
    case Advance(ok) => Advanced(w, ok)
  }

  function Flushed(w: Writer, id: nat): Writer {
    if w.stopping && Running(w) then w.(waiting := w.waiting + {id})
    else if !Running(w) then DrainDirectly(w).(resolved := DrainDirectly(w).resolved + {id})
    else w.(queue := w.queue + [Barrier(id)])
  }

  /** One atomic section of the consumer: take an item, or finish an upsert and go on. */
  function Advanced(w: Writer, ok: bool): Writer {
    match w.consumer
    case NotStarted => w
    case Finished => w
    case Waiting => if w.queue == [] then w else Taken(w, [])
    case Batching(rows) => if w.queue == [] then w.(consumer := Storing(rows, EndOfBatch)) else Taken(w, rows)
    case Storing(rows, EndOfBatch) => Store(w, rows, ok).(consumer := Waiting)
    case Storing(rows, ResolveBarrier(id)) => Store(w, rows, ok).(consumer := Batching([]), resolved := w.resolved + {id})
    case Storing(rows, DrainAndStop) =>
      Store(w, rows, ok).(queue := [], consumer := Storing(RowsOf(w.queue), ResolveAndExit(IdsOf(w.queue))))
    case Storing(rows, ResolveAndExit(ids)) =>
      Store(w, rows, ok).(consumer := Finished, resolved := w.resolved + SetOf(ids) + w.waiting, waiting := {})
  }

  function Taken(w: Writer, rows: seq<Row>): Writer
    requires w.queue != []
  {
    match w.queue[0]
    case Item(row) => w.(queue := w.queue[1..], consumer := Batching(rows + [row]))
    case Barrier(id) => w.(queue := w.queue[1..], consumer := Storing(rows, ResolveBarrier(id)))
    case StopMark => w.(queue := w.queue[1..], consumer := Storing(rows, DrainAndStop))
  }

  function Run(ops: seq<Operation>): Writer {
    if ops == [] then IDLE else Next(Run(ops[..|ops| - 1]), ops[|ops| - 1])
  }

  // ----- The invariant -----

  function InHand(c: Consumer): seq<Row> {
    if c.Batching? || c.Storing? then c.rows else []
  }

  /** Barriers the consumer will resolve after the current upsert. */
  function IdsInHand(c: Consumer): seq<nat> {
    if c.Storing? && c.andThen.ResolveBarrier? then [c.andThen.id]
    else if c.Storing? && c.andThen.ResolveAndExit? then c.andThen.ids
    else []
  }

  /** The flush call was made when at most so many rows were accepted. */
  predicate CalledBy(marks: seq<nat>, id: nat, rows: nat) {
    id < |marks| && marks[id] <= rows
  }

  /** Each queued barrier stands behind exactly the rows accepted before its call; behind a stop mark nothing waits. */
  ghost predicate QueueInOrder(queue: seq<QueueItem>, before: nat, marks: seq<nat>) {
    queue == [] || match queue[0]
                   case Item(_) => QueueInOrder(queue[1..], before + 1, marks)
                   case Barrier(id) => id < |marks| && marks[id] == before && QueueInOrder(queue[1..], before, marks)
                   case StopMark => OnlyStops(queue[1..])
  }

  predicate OnlyStops(queue: seq<QueueItem>) {
    forall x :: x in queue ==> x.StopMark?
  }

  predicate Ending(c: Consumer) {
    c.Finished? || (c.Storing? && (c.andThen.DrainAndStop? || c.andThen.ResolveAndExit?))
  }

  ghost predicate Accounts(w: Writer) {
    && w.passed <= |w.accepted|
    && (forall i :: i in w.lost ==> i < w.passed)
    && w.table == OneByOne(map[], Kept(w.accepted[..w.passed], w.lost))
    && w.accepted[w.passed..] == InHand(w.consumer) + RowsOf(w.queue)
  }

  /** Flush calls whose barrier is queued or in hand, who wait for the consumer to end, or who have returned. */
  function Known(w: Writer): set<nat> {
    w.resolved + SetOf(IdsInHand(w.consumer)) + SetOf(IdsOf(w.queue)) + w.waiting
  }

  ghost predicate Marked(w: Writer) {
    && QueueInOrder(w.queue, w.passed + |InHand(w.consumer)|, w.marks)
    && (forall id :: id in IdsInHand(w.consumer) ==> CalledBy(w.marks, id, w.passed + |InHand(w.consumer)|))
    && (forall id :: id in w.waiting ==> CalledBy(w.marks, id, |w.accepted|))
    && (forall id :: id in w.resolved ==> CalledBy(w.marks, id, w.passed))
  }

  ghost predicate BarriersInOrder(w: Writer) {
    Marked(w) && Known(w) == Positions(0, |w.marks|)
  }

  ghost predicate Phases(w: Writer) {
    && (w.consumer.NotStarted? ==> w.queue == [] && w.accepted == [])
    && (Ending(w.consumer) ==> w.stopping && OnlyStops(w.queue))
    && (!w.stopping ==> StopMark !in w.queue)
    && (w.stopping && Running(w) && !Ending(w.consumer) ==> StopMark in w.queue)
    && (!Running(w) && w.stops == 0 ==> w.queue == [])
    && (w.stopping && Running(w) ==> w.stops > 0)
    && (w.waiting != {} ==> w.stopping && Running(w))
  }

  ghost predicate Sound(w: Writer) {
    Accounts(w) && BarriersInOrder(w) && Phases(w)
  }

  // ----- Queue lemmas -----

  lemma {:induction false} AppendItem(queue: seq<QueueItem>, x: QueueItem, before: nat, marks: seq<nat>)
    ensures RowsOf(queue + [x]) == RowsOf(queue) + (if x.Item? then [x.row] else [])
    ensures IdsOf(queue + [x]) == IdsOf(queue) + (if x.Barrier? then [x.id] else [])
    ensures QueueInOrder(queue, before, marks) && x.StopMark? ==> QueueInOrder(queue + [x], before, marks)
    ensures QueueInOrder(queue, before, marks) && StopMark !in queue
            && (x.Barrier? ==> x.id < |marks| && marks[x.id] == before + |RowsOf(queue)|) ==>
              QueueInOrder(queue + [x], before, marks)
  {
    if queue != [] {
      assert (queue + [x])[0] == queue[0] && (queue + [x])[1..] == queue[1..] + [x];
      AppendItem(queue[1..], x, if queue[0].Item? then before + 1 else before, marks);
    } else {
      assert queue + [x] == [x] && [x][1..] == [];
    }
  }

  lemma {:induction false} OneMoreCall(queue: seq<QueueItem>, before: nat, marks: seq<nat>, mark: nat)
    requires QueueInOrder(queue, before, marks)
    ensures QueueInOrder(queue, before, marks + [mark])
  {
    if queue != [] && !queue[0].StopMark? {
      OneMoreCall(queue[1..], if queue[0].Item? then before + 1 else before, marks, mark);
    }
  }

  lemma {:induction false} OnlyStopsIsEmpty(queue: seq<QueueItem>)
    requires OnlyStops(queue)
    ensures RowsOf(queue) == [] && IdsOf(queue) == []
  {
    if queue != [] {
      assert queue[0] in queue && forall x :: x in queue[1..] ==> x in queue;
      OnlyStopsIsEmpty(queue[1..]);
    }
  }

  lemma SetOfAppend(ids: seq<nat>, m: nat)
    ensures SetOf(ids + [m]) == SetOf(ids) + {m}
    ensures SetOf([m] + ids) == {m} + SetOf(ids)
  {
    assert forall x :: x in ids + [m] <==> x in ids || x == m;
    assert forall x :: x in [m] + ids <==> x in ids || x == m;
  }

  // ----- Every operation keeps the invariant -----

  lemma StableSub(rows: seq<Row>, part: seq<Row>)
    requires StableSeqs(rows) && forall r :: r in part ==> r in rows
    ensures StableSeqs(part)
  {
  }

  /** One upsert moves the rows in hand from the pending part of the history to the part that passed. */
  lemma StoreKeepsTable(w: Writer, rows: seq<Row>, rest: seq<Row>, ok: bool)
    requires StableSeqs(w.accepted) && w.passed <= |w.accepted| && (forall i :: i in w.lost ==> i < w.passed)
    requires w.table == OneByOne(map[], Kept(w.accepted[..w.passed], w.lost)) && w.accepted[w.passed..] == rows + rest
    ensures var s := Store(w, rows, ok);
            && s.passed <= |w.accepted| && (forall i :: i in s.lost ==> i < s.passed)
            && s.table == OneByOne(map[], Kept(w.accepted[..s.passed], s.lost)) && w.accepted[s.passed..] == rest
  {
    hide OneByOne, Latest, UpsertAll, Kept;
    var n := w.passed + |rows|;
    assert w.accepted[w.passed..][..|rows|] == rows;
    assert w.accepted[..n] == w.accepted[..w.passed] + rows;
    assert w.accepted[n..] == w.accepted[w.passed..][|rows|..] == rest;
    if ok {
      StableSub(w.accepted, rows);
      CollapseStable(w.table, rows);
      KeptWithAll(w.accepted[..w.passed], rows, w.lost);
      OneByOneAppend(map[], Kept(w.accepted[..w.passed], w.lost), rows);
    } else {
      var lost := w.lost + Positions(w.passed, |rows|);
      KeptWithNone(w.accepted[..w.passed], rows, lost);
      KeptSame(w.accepted[..w.passed], w.lost, lost);
    }
  }

  lemma EnqueueIsSound(w: Writer, row: Row)
    requires Sound(w) && StableSeqs(Next(w, Enqueue(row)).accepted)
    ensures Sound(Next(w, Enqueue(row)))
  {
    hide OneByOne, Kept;
    if Accepts(w) {
      var after := Next(w, Enqueue(row));
      AppendItem(w.queue, Item(row), w.passed + |InHand(w.consumer)|, w.marks);
      assert after.accepted[..w.passed] == w.accepted[..w.passed];
      assert after.accepted[w.passed..] == w.accepted[w.passed..] + [row];
    }
  }

  lemma PendingCount(w: Writer)
    requires Accounts(w)
    ensures w.passed + |InHand(w.consumer)| + |RowsOf(w.queue)| == |w.accepted|
  {
    hide OneByOne, Kept, RowsOf;
    assert |w.accepted[w.passed..]| == |w.accepted| - w.passed;
  }

  /** Nothing but stop marks is queued when no consumer is alive. */
  lemma NothingToDrain(w: Writer)
    requires Accounts(w) && OnlyStops(w.queue) && !Running(w)
    ensures RowsOf(w.queue) == [] && IdsOf(w.queue) == [] && w.passed == |w.accepted|
    ensures DrainDirectly(w) == w.(queue := [])
  {
    hide OneByOne, Kept;
    OnlyStopsIsEmpty(w.queue);
    PendingCount(w);
    assert UpsertAll(w.table, Latest([])) == w.table;
  }

  lemma DrainIsSound(w: Writer)
    requires Accounts(w) && BarriersInOrder(w) && OnlyStops(w.queue) && !Running(w)
    ensures Accounts(DrainDirectly(w)) && BarriersInOrder(DrainDirectly(w)) && DrainDirectly(w) == w.(queue := [])
  {
    NothingToDrain(w);
    hide OneByOne, Kept, DrainDirectly, CalledBy;
  }

  lemma CallIsMarked(w: Writer)
    requires Marked(w)
    ensures Marked(w.(marks := w.marks + [|w.accepted|]))
  {
    OneMoreCall(w.queue, w.passed + |InHand(w.consumer)|, w.marks, |w.accepted|);
  }

  lemma NewCall(marks: seq<nat>, rows: nat)
    ensures CalledBy(marks + [rows], |marks|, rows)
    ensures Positions(0, |marks + [rows]|) == Positions(0, |marks|) + {|marks|}
  {
  }

  /** A new call, not accounted for yet. */
  function CalledOn(w: Writer): Writer {
    w.(marks := w.marks + [|w.accepted|])
  }

  lemma CallIsNew(w: Writer)
    requires Sound(w)
    ensures var called := CalledOn(w);
            && Accounts(called) && Phases(called) && Marked(called)
            && Known(called) == Known(w) == Positions(0, |w.marks|)
            && Positions(0, |called.marks|) == Positions(0, |w.marks|) + {|w.marks|}
            && CalledBy(called.marks, |w.marks|, |w.accepted|)
            && w.passed + |InHand(w.consumer)| + |RowsOf(w.queue)| == |w.accepted|
  {
    PendingCount(w);
    CallIsMarked(w);
    NewCall(w.marks, |w.accepted|);
    assert Known(CalledOn(w)) == Known(w);
    hide OneByOne, Kept, Known, Marked, Positions, RowsOf, IdsOf, CalledBy;
  }

  lemma FlushIsSound(w: Writer)
    requires Sound(w)
    ensures Sound(Next(w, Flush))
  {
    CallIsNew(w);
    hide Sound, Accounts, Marked, Known, Positions, RowsOf, IdsOf, Phases, CalledBy;
    if !Running(w) {
      FlushReturns(CalledOn(w), |w.marks|);
    } else if w.stopping {
      FlushWaits(CalledOn(w), |w.marks|);
    } else {
      FlushQueues(CalledOn(w), |w.marks|);
    }
  }

  lemma FlushReturns(w: Writer, id: nat)
    requires Accounts(w) && Phases(w) && Marked(w) && !Running(w)
    requires Known(w) + {id} == Positions(0, |w.marks|) && CalledBy(w.marks, id, |w.accepted|)
    ensures Sound(Flushed(w, id))
  {
    NothingToDrain(w);
    ReturnsAtOnce(w, id);
    hide DrainDirectly, OneByOne, Kept, Known, Marked, Positions;
  }

  lemma FlushWaits(w: Writer, id: nat)
    requires Accounts(w) && Phases(w) && Marked(w) && Running(w) && w.stopping
    requires Known(w) + {id} == Positions(0, |w.marks|) && CalledBy(w.marks, id, |w.accepted|)
    ensures Sound(Flushed(w, id))
  {
    WaitsForStop(w, id);
    hide OneByOne, Kept, Known, Marked, Positions, RowsOf;
  }

  lemma FlushQueues(w: Writer, id: nat)
    requires Accounts(w) && Phases(w) && Marked(w) && Running(w) && !w.stopping
    requires Known(w) + {id} == Positions(0, |w.marks|)
    requires id < |w.marks| && w.marks[id] == w.passed + |InHand(w.consumer)| + |RowsOf(w.queue)|
    ensures Sound(Flushed(w, id))
  {
    QueuesBarrier(w, id);
    hide OneByOne, Kept, Known, Marked, Positions, RowsOf;
  }

  lemma ReturnsAtOnce(w: Writer, id: nat)
    requires Marked(w) && CalledBy(w.marks, id, w.passed) && IdsOf(w.queue) == []
    ensures var after := w.(queue := [], resolved := w.resolved + {id});
            Marked(after) && Known(after) == Known(w) + {id}
  {
    hide SetOf, CalledBy;
  }

  lemma QueuesBarrier(w: Writer, id: nat)
    requires Marked(w) && StopMark !in w.queue
    requires id < |w.marks| && w.marks[id] == w.passed + |InHand(w.consumer)| + |RowsOf(w.queue)|
    ensures var after := w.(queue := w.queue + [Barrier(id)]);
            Marked(after) && Known(after) == Known(w) + {id} && RowsOf(after.queue) == RowsOf(w.queue)
  {
    AppendItem(w.queue, Barrier(id), w.passed + |InHand(w.consumer)|, w.marks);
    SetOfAppend(IdsOf(w.queue), id);
    hide SetOf, CalledBy, QueueInOrder, RowsOf, IdsOf;
  }

  lemma WaitsForStop(w: Writer, id: nat)
    requires Marked(w) && CalledBy(w.marks, id, |w.accepted|)
    ensures var after := w.(waiting := w.waiting + {id});
            Marked(after) && Known(after) == Known(w) + {id}
  {
    hide SetOf, CalledBy, QueueInOrder;
  }

  lemma StopIsSound(w: Writer)
    requires Sound(w)
    ensures Sound(Next(w, Stop))
  {
    hide OneByOne, Kept, DrainDirectly, Known, Positions, Marked;
    if Running(w) {
      QueuesStopMark(w);
    } else {
      assert Marked(w.(stopping := true)) && Known(w.(stopping := true)) == Known(w) by { OnlyStopping(w); }
      DrainIsSound(w.(stopping := true));
    }
  }

  lemma OnlyStopping(w: Writer)
    requires Marked(w)
    ensures Marked(w.(stopping := true)) && Known(w.(stopping := true)) == Known(w)
  {
  }

  lemma QueuesStopMark(w: Writer)
    requires Marked(w)
    ensures var after := w.(stopping := true, stops := w.stops + 1, queue := w.queue + [StopMark]);
            Marked(after) && Known(after) == Known(w) && RowsOf(after.queue) == RowsOf(w.queue)
  {
    AppendItem(w.queue, StopMark, w.passed + |InHand(w.consumer)|, w.marks);
    assert IdsOf(w.queue) + [] == IdsOf(w.queue);
    hide SetOf, CalledBy, QueueInOrder, RowsOf, IdsOf;
  }

  lemma FinishStopIsSound(w: Writer)
    requires Sound(w)
    ensures Sound(Next(w, FinishStop))
  {
    hide OneByOne, Kept, DrainDirectly;
    if w.stops > 0 && !Running(w) {
      DrainIsSound(w.(stops := w.stops - 1));
    }
  }

  lemma TakeIsSound(w: Writer, rows: seq<Row>)
    requires Sound(w) && w.queue != [] && ((w.consumer == Waiting && rows == []) || w.consumer == Batching(rows))
    ensures Sound(Taken(w, rows))
  {
    TakeInOrder(w, rows);
    TakeMovesRow(w, rows);
    TakePhases(w, rows);
    hide OneByOne, Kept, BarriersInOrder, RowsOf, Phases, OnlyStops;
  }

  lemma TakePhases(w: Writer, rows: seq<Row>)
    requires Phases(w) && w.queue != [] && (w.consumer == Waiting || w.consumer.Batching?)
    requires w.queue[0].StopMark? ==> OnlyStops(w.queue[1..])
    ensures Phases(Taken(w, rows))
  {
    assert w.queue == [w.queue[0]] + w.queue[1..];
  }

  lemma TakeMovesRow(w: Writer, rows: seq<Row>)
    requires w.queue != [] && rows == InHand(w.consumer)
    ensures InHand(Taken(w, rows).consumer) + RowsOf(Taken(w, rows).queue) == rows + RowsOf(w.queue)
  {
    assert w.queue[0].Item? ==> rows + ([w.queue[0].row] + RowsOf(w.queue[1..])) == (rows + [w.queue[0].row]) + RowsOf(w.queue[1..]);
  }

  lemma TakeInOrder(w: Writer, rows: seq<Row>)
    requires BarriersInOrder(w) && w.queue != []
    requires (w.consumer == Waiting && rows == []) || w.consumer == Batching(rows)
    ensures BarriersInOrder(Taken(w, rows))
    ensures w.queue[0].StopMark? ==> OnlyStops(w.queue[1..])
  {
    TakeKnown(w, rows);
    hide Known, Positions;
    if w.queue[0].StopMark? {
      OnlyStopsIsEmpty(w.queue[1..]);
    }
  }

  lemma TakeKnown(w: Writer, rows: seq<Row>)
    requires w.queue != [] && IdsInHand(w.consumer) == []
    ensures Known(Taken(w, rows)) == Known(w)
  {
    if w.queue[0].Barrier? {
      SetOfAppend(IdsOf(w.queue[1..]), w.queue[0].id);
      assert SetOf([w.queue[0].id]) == {w.queue[0].id};
    }
    hide SetOf;
  }

  lemma CommitIsSound(w: Writer, ok: bool)
    requires Sound(w) && w.consumer.Storing? && StableSeqs(w.accepted)
    ensures Sound(Advanced(w, ok))
  {
    CommitAccounts(w, ok);
    CommitInOrder(w, ok);
    CommitPhases(w, ok);
    hide Accounts, BarriersInOrder, Phases, Advanced;
  }

  lemma CommitAccounts(w: Writer, ok: bool)
    requires Accounts(w) && Phases(w) && w.consumer.Storing? && StableSeqs(w.accepted)
    ensures Accounts(Advanced(w, ok))
  {
    AfterCommit(w, ok);
    hide OneByOne, Kept, Store, Phases, StableSeqs, Advanced, RowsOf;
    StoreKeepsTable(w, w.consumer.rows, RowsOf(w.queue), ok);
  }

  lemma AfterCommit(w: Writer, ok: bool)
    requires Phases(w) && w.consumer.Storing?
    ensures var s, after := Store(w, w.consumer.rows, ok), Advanced(w, ok);
            && after.table == s.table && after.passed == s.passed && after.lost == s.lost && after.accepted == w.accepted
            && InHand(after.consumer) + RowsOf(after.queue) == RowsOf(w.queue)
  {
    if Ending(w.consumer) {
      OnlyStopsIsEmpty(w.queue);
    }
    StoreFrame(w, w.consumer.rows, ok);
    hide Store, SetOf, IdsOf, OnlyStops;
  }

  lemma CommitPhases(w: Writer, ok: bool)
    requires Phases(w) && w.consumer.Storing?
    ensures Phases(Advanced(w, ok))
  {
    StoreFrame(w, w.consumer.rows, ok);
    hide Store, SetOf, IdsOf, RowsOf;
  }

  lemma CommitInOrder(w: Writer, ok: bool)
    requires BarriersInOrder(w) && Accounts(w) && Phases(w) && w.consumer.Storing?
    ensures BarriersInOrder(Advanced(w, ok))
  {
    PendingCount(w);
    if Ending(w.consumer) {
      OnlyStopsIsEmpty(w.queue);
    }
    hide Accounts, Phases, BarriersInOrder, Advanced, RowsOf, IdsOf;
    match w.consumer.andThen {
      case EndOfBatch => BatchEndsInOrder(w, ok);
      case ResolveBarrier(id) => BarrierResolvesInOrder(w, id, ok);
      case DrainAndStop => DrainsInOrder(w, ok);
      case ResolveAndExit(ids) => ExitsInOrder(w, ids, ok);
    }
  }

  lemma BatchEndsInOrder(w: Writer, ok: bool)
    requires BarriersInOrder(w) && w.consumer.Storing? && w.consumer.andThen.EndOfBatch?
    ensures BarriersInOrder(Advanced(w, ok))
  {
    StoreFrame(w, w.consumer.rows, ok);
    hide Store, Positions, SetOf, QueueInOrder;
  }

  lemma BarrierResolvesInOrder(w: Writer, id: nat, ok: bool)
    requires BarriersInOrder(w) && w.consumer.Storing? && w.consumer.andThen == ResolveBarrier(id)
    ensures BarriersInOrder(Advanced(w, ok))
  {
    StoreFrame(w, w.consumer.rows, ok);
    assert id in IdsInHand(w.consumer) && SetOf([id]) == {id} && SetOf([]) == {};
    hide Store, Positions, SetOf, QueueInOrder;
    assert Known(Advanced(w, ok)) == Known(w);
    hide Known;
  }

  lemma DrainsInOrder(w: Writer, ok: bool)
    requires BarriersInOrder(w) && w.consumer.Storing? && w.consumer.andThen.DrainAndStop?
    requires RowsOf(w.queue) == [] && IdsOf(w.queue) == []
    ensures BarriersInOrder(Advanced(w, ok))
  {
    StoreFrame(w, w.consumer.rows, ok);
    hide Store, Positions, SetOf;
    assert Known(Advanced(w, ok)) == Known(w);
    hide Known;
  }

  lemma ExitsInOrder(w: Writer, ids: seq<nat>, ok: bool)
    requires BarriersInOrder(w) && w.consumer.Storing? && w.consumer.andThen == ResolveAndExit(ids)
    requires IdsOf(w.queue) == [] && w.passed + |InHand(w.consumer)| == |w.accepted|
    ensures BarriersInOrder(Advanced(w, ok))
  {
    StoreFrame(w, w.consumer.rows, ok);
    assert SetOf([]) == {} && forall id :: id in SetOf(ids) ==> id in IdsInHand(w.consumer);
    hide Store, Positions, SetOf, QueueInOrder;
    assert Known(Advanced(w, ok)) == Known(w);
    hide Known;
  }

  lemma StoreFrame(w: Writer, rows: seq<Row>, ok: bool)
    ensures var s := Store(w, rows, ok); s == w.(table := s.table, lost := s.lost, passed := w.passed + |rows|)
  {
  }

  lemma AdvanceIsSound(w: Writer, ok: bool)
    requires Sound(w) && StableSeqs(w.accepted)
    ensures Sound(Next(w, Advance(ok)))
  {
    hide Store, Taken, OneByOne, Kept, RowsOf, IdsOf, Positions;
    match w.consumer {
      case NotStarted =>
      case Finished =>
      case Waiting => if w.queue != [] { TakeIsSound(w, []); }
      case Batching(rows) => if w.queue != [] { TakeIsSound(w, rows); }
      case Storing(_, _) => CommitIsSound(w, ok);
    }
  }

  lemma AcceptedStep(w: Writer, op: Operation)
    ensures w.accepted <= Next(w, op).accepted
  {
    hide Store, RowsOf, IdsOf, SetOf, Positions;
    StoreFrame(w.(marks := w.marks + [|w.accepted|]), RowsOf(w.queue), true);
    StoreFrame(w.(stopping := true), RowsOf(w.queue), true);
    if w.stops > 0 { StoreFrame(w.(stops := w.stops - 1), RowsOf(w.queue), true); }
    if op.Advance? { StoreFrame(w, InHand(w.consumer), op.ok); }
  }

  /** If keys keep their seqs, every step keeps the books. */
  lemma StepIsSound(w: Writer, op: Operation)
    requires Sound(w) && StableSeqs(Next(w, op).accepted)
    ensures Sound(Next(w, op))
  {
    AcceptedStep(w, op);
    StableSub(Next(w, op).accepted, w.accepted);
    hide Sound, Flushed, Advanced, DrainDirectly;
    match op {
      case Start => StartIsSound(w);
      case Enqueue(row) => EnqueueIsSound(w, row);
      case Flush => FlushIsSound(w);
      case Stop => StopIsSound(w);
      case FinishStop => FinishStopIsSound(w);
      case Advance(ok) => AdvanceIsSound(w, ok);
    }
  }

  lemma StartIsSound(w: Writer)
    requires Sound(w)
    ensures Sound(Next(w, Start))
  {
    hide OneByOne, Kept, Positions;
  }

  /**
   * In every schedule whose keys keep their seqs, over stops and restarts: the table is the one-by-one upsert of the
   * rows that passed and were not lost, and the accepted rows are those followed by the ones in hand and in the queue.
   */
  lemma {:induction false} EveryScheduleIsSound(ops: seq<Operation>)
    requires StableSeqs(Run(ops).accepted)
    ensures Sound(Run(ops))
  {
    if ops == [] {
      assert IDLE.accepted[..0] == [] && Kept([], {}) == [] && OneByOne(map[], []) == map[];
    } else {
      var front := ops[..|ops| - 1];
      AcceptedStep(Run(front), ops[|ops| - 1]);
      StableSub(Run(ops).accepted, Run(front).accepted);
      EveryScheduleIsSound(front);
      hide Sound, Next;
      StepIsSound(Run(front), ops[|ops| - 1]);
    }
  }

  /** Without a failed upsert no row is lost. */
  lemma {:induction false} OnlyFailuresLose(ops: seq<Operation>)
    requires Advance(false) !in ops
    ensures Run(ops).lost == {}
  {
    if ops != [] {
      var front := ops[..|ops| - 1];
      assert ops[|ops| - 1] in ops && forall op :: op in front ==> op in ops;
      OnlyFailuresLose(front);
      LostStep(Run(front), ops[|ops| - 1]);
    }
  }

  lemma LostStep(w: Writer, op: Operation)
    requires op != Advance(false)
    ensures Next(w, op).lost == w.lost
  {
    hide UpsertAll, RowsOf, IdsOf, SetOf;
  }

  /**
   * When a flush call has returned, every row accepted before it has been through its upsert, and the table holds
   * exactly those that passed and were not lost; once the consumer has ended, that is every row.
   */
  lemma ResolvedMeansStored(ops: seq<Operation>, id: nat)
    requires StableSeqs(Run(ops).accepted)
    ensures var w := Run(ops);
            && w.passed <= |w.accepted| && w.table == OneByOne(map[], Kept(w.accepted[..w.passed], w.lost))
            && (id in w.resolved ==> id < |w.marks| && w.marks[id] <= w.passed)
            && (w.consumer.Finished? ==> w.passed == |w.accepted| && w.waiting == {})
            && (Advance(false) !in ops ==> w.table == OneByOne(map[], w.accepted[..w.passed]))
  {
    EveryScheduleIsSound(ops);
    var w := Run(ops);
    if Advance(false) !in ops {
      OnlyFailuresLose(ops);
      NothingLost(w.accepted[..w.passed]);
    }
    hide OneByOne, Kept, Run;
    if w.consumer.Finished? {
      NothingToDrain(w);
    }
  }

  /** A waiter is never forgotten: with nothing left to do, every flush call has returned and every row was stored. */
  lemma QuietMeansDone(ops: seq<Operation>)
    requires StableSeqs(Run(ops).accepted)
    requires Advanced(Run(ops), true) == Run(ops)
    ensures var w := Run(ops);
            && w.resolved == Positions(0, |w.marks|) && w.passed == |w.accepted|
            && w.table == OneByOne(map[], Kept(w.accepted, w.lost))
  {
    EveryScheduleIsSound(ops);
    var w := Run(ops);
    hide OneByOne, Kept, Run, Store, QueueInOrder, Positions;
    AdvanceMakesProgress(w, true);
    OnlyStopsIsEmpty(w.queue);
    PendingCount(w);
    assert w.accepted[..w.passed] == w.accepted;
  }

  // ----- Which rows are taken -----

  /** The operation starts a consumer: none is alive, and every stop call has returned. */
  predicate TakesEffect(ops: seq<Operation>, i: nat)
    requires i < |ops|
  {
    ops[i] == Start && !Running(Run(ops[..i])) && Run(ops[..i]).stops == 0
  }

  /** It started one, and no stop was called since. */
  predicate OpenedAt(ops: seq<Operation>, i: nat)
    requires i < |ops|
  {
    TakesEffect(ops, i) && Stop !in ops[i + 1..]
  }

  ghost predicate Open(ops: seq<Operation>) {
    exists i :: 0 <= i < |ops| && OpenedAt(ops, i)
  }

  /** The rows enqueued between a start and the next stop, by the operations. */
  ghost function TakenIn(ops: seq<Operation>): seq<Row> {
    if ops == [] then []
    else
      var front, op := ops[..|ops| - 1], ops[|ops| - 1];
      TakenIn(front) + if op.Enqueue? && Open(front) then [op.row] else []
  }

  lemma OpenMoves(ops: seq<Operation>)
    requires ops != []
    ensures var front, op := ops[..|ops| - 1], ops[|ops| - 1];
            Open(ops) <==> TakesEffect(ops, |ops| - 1) || (Open(front) && op != Stop)
  {
    var front := ops[..|ops| - 1];
    hide OpenedAt;
    JustOpened(ops);
    forall i | 0 <= i < |front|
      ensures OpenedAt(ops, i) <==> OpenedAt(front, i) && ops[|ops| - 1] != Stop
    {
      StillOpened(ops, i);
    }
  }

  lemma JustOpened(ops: seq<Operation>)
    requires ops != []
    ensures OpenedAt(ops, |ops| - 1) <==> TakesEffect(ops, |ops| - 1)
  {
    hide TakesEffect;
  }

  lemma StillOpened(ops: seq<Operation>, i: nat)
    requires i < |ops| - 1
    ensures OpenedAt(ops, i) <==> OpenedAt(ops[..|ops| - 1], i) && ops[|ops| - 1] != Stop
  {
    var front := ops[..|ops| - 1];
    hide Run, Running;
    assert front[i] == ops[i] && front[..i] == ops[..i];
    assert ops[i + 1..] == front[i + 1..] + [ops[|ops| - 1]];
  }

  lemma EntranceMoves(w: Writer, op: Operation)
    ensures Accepts(Next(w, op)) <==> (op == Start && !Running(w) && w.stops == 0) || (Accepts(w) && op != Stop)
    ensures Next(w, op).accepted == w.accepted + if op.Enqueue? && Accepts(w) then [op.row] else []
  {
    hide Store, RowsOf, IdsOf, SetOf, Positions;
    StoreFrame(w.(marks := w.marks + [|w.accepted|]), RowsOf(w.queue), true);
    StoreFrame(w.(stopping := true), RowsOf(w.queue), true);
    if w.stops > 0 { StoreFrame(w.(stops := w.stops - 1), RowsOf(w.queue), true); }
    if op.Advance? { StoreFrame(w, InHand(w.consumer), op.ok); }
  }

  /**
   * A row is taken exactly when a start took effect before it and no stop was called since, whatever the consumer is
   * doing; the rows accepted are these, in the order of the calls.
   */
  lemma {:induction false} TakenBetweenStartAndStop(ops: seq<Operation>)
    ensures Accepts(Run(ops)) <==> Open(ops)
    ensures Run(ops).accepted == TakenIn(ops)
  {
    if ops != [] {
      var front, op := ops[..|ops| - 1], ops[|ops| - 1];
      TakenBetweenStartAndStop(front);
      OpenMoves(ops);
      hide Accepts, Next, Open, Running;
      EntranceMoves(Run(front), op);
    }
  }

  /**
   * Once the consumer is at rest and no upsert failed, the table is what upserting one by one, in the order of the
   * calls, every row enqueued between a start and the next stop leaves behind.
   */
  lemma QuietTableIsOneByOne(ops: seq<Operation>)
    requires StableSeqs(TakenIn(ops)) && Advance(false) !in ops
    requires Advanced(Run(ops), true) == Run(ops)
    ensures Run(ops).table == OneByOne(map[], TakenIn(ops))
  {
    TakenBetweenStartAndStop(ops);
    QuietMeansDone(ops);
    OnlyFailuresLose(ops);
    NothingLost(TakenIn(ops));
    hide Run, OneByOne, Kept, TakenIn, Advanced;
  }

  /** The consumer settles: every step it can take brings it closer to rest, whether its upserts fail or not. */
  lemma AdvanceMakesProgress(w: Writer, ok: bool)
    requires Phases(w)
    ensures Advanced(w, ok) == w ==>
              InHand(w.consumer) == [] && IdsInHand(w.consumer) == [] && OnlyStops(w.queue) && w.waiting == {}
    ensures Advanced(w, ok) != w ==> StepsLeft(Advanced(w, ok)) < StepsLeft(w)
  {
    hide Store;
    StoreFrame(w, InHand(w.consumer), ok);
  }

  /** A bound on the steps the consumer still takes if nothing else happens. */
  function StepsLeft(w: Writer): nat {
    4 * |w.queue| + match w.consumer
                    case NotStarted => 0
                    case Finished => 0
                    case Waiting => 0
                    case Batching(_) => 2
                    case Storing(_, EndOfBatch) => 1
                    case Storing(_, ResolveBarrier(_)) => 3
                    case Storing(_, DrainAndStop) => 2
                    case Storing(_, ResolveAndExit(_)) => 1
  }

  // ----- The class: its sections between two awaits are exactly the steps above -----

  class TimelineLogWriter {
    var queue: seq<QueueItem>
    var stopping: bool
    var stops: nat
    var consumer: Consumer
    /** The durable table, and the history the claims are about. */
    var table: Table
    var accepted: seq<Row>
    var passed: nat
    var lost: set<nat>
    var marks: seq<nat>
    var waiting: set<nat>
    var resolved: set<nat>

    function State(): Writer
      reads this
    {
      Writer(queue, stopping, stops, consumer, table, accepted, passed, lost, marks, waiting, resolved)
    }

    ghost predicate Valid()
      reads this
    {
      StableSeqs(accepted) ==> Sound(State())
    }

    constructor ()
      ensures Valid() && State() == IDLE
    {
      queue, stopping, stops, consumer, table := [], false, 0, NotStarted, map[];
      accepted, passed, lost, marks, waiting, resolved := [], 0, {}, [], {}, {};
      new;
      EveryScheduleIsSound([]);
    }

    method StartConsumer()
      requires Valid()
      modifies this
      ensures Valid() && State() == Next(old(State()), Start)
      ensures old(stops) == 0 ==> Running(State())
    {
      KeepsBooks(State(), Start);
      hide Sound, StableSeqs;
      if (consumer.NotStarted? || consumer.Finished?) && stops == 0 {
        stopping := false;
        consumer := Waiting;
      }
    }

    method Accept(row: Row) returns (ok: bool)
      requires Valid()
      modifies this
      ensures Valid() && State() == Next(old(State()), Enqueue(row)) && ok == Accepts(old(State()))
      ensures ok <==> !old(stopping) && old(consumer) != NotStarted
      ensures accepted == if ok then old(accepted) + [row] else old(accepted)
    {
      KeepsBooks(State(), Enqueue(row));
      if consumer.NotStarted? || stopping {
        return false;
      }
      queue := queue + [Item(row)];
      accepted := accepted + [row];
      return true;
    }

    /** Call of `flush` up to its first await, or to its end when no consumer is alive. */
    method RequestFlush() returns (id: nat)
      requires Valid()
      modifies this
      ensures Valid() && State() == Next(old(State()), Flush)
      ensures id == |old(marks)| && marks == old(marks) + [|old(accepted)|]
      ensures id in resolved || Running(State())
    {
      KeepsBooks(State(), Flush);
      ReturnsOrWaits(State());
      hide Sound, StableSeqs, Flushed;
      id := |marks|;
      marks := marks + [|accepted|];
      AwaitStorage(id);
    }

    method AwaitStorage(id: nat)
      modifies this
      ensures State() == Flushed(old(State()), id)
    {
      hide DrainDirectly;
      if stopping && !consumer.NotStarted? && !consumer.Finished? {
        waiting := waiting + {id};
      } else if consumer.NotStarted? || consumer.Finished? {
        DrainAlone();
        resolved := resolved + {id};
      } else {
        queue := queue + [Barrier(id)];
      }
    }

    /** Call of `stop` up to its wait for the consumer, or to its end when none is alive. */
    method RequestStop()
      requires Valid()
      modifies this
      ensures Valid() && State() == Next(old(State()), Stop)
    {
      KeepsBooks(State(), Stop);
      hide Sound, StableSeqs;
      CloseEntrance();
    }

    method CloseEntrance()
      modifies this
      ensures State() == Next(old(State()), Stop)
    {
      hide DrainDirectly;
      stopping := true;
      if !consumer.NotStarted? && !consumer.Finished? {
        stops := stops + 1;
        queue := queue + [StopMark];
      } else {
        DrainAlone();
      }
    }

    /** The rest of `stop` once the consumer has ended. */
    method FinishStopCall()
      requires Valid() && stops > 0 && consumer.Finished?
      modifies this
      ensures Valid() && State() == Next(old(State()), FinishStop)
      ensures queue == [] && (StableSeqs(accepted) ==> passed == |accepted| && resolved == Positions(0, |marks|))
    {
      KeepsBooks(State(), FinishStop);
      StopReturns(State());
      hide Sound, StableSeqs, DrainDirectly, Positions;
      stops := stops - 1;
      DrainAlone();
    }

    method DrainAlone()
      modifies `queue, `table, `passed, `lost, `resolved
      ensures State() == DrainDirectly(old(State()))
    {
      var rows, ids := DrainRemaining();
      StoreBatch(rows, true);
      ResolveBarriers(ids);
    }

    method DrainRemaining() returns (rows: seq<Row>, ids: seq<nat>)
      modifies `queue
      ensures queue == [] && rows == RowsOf(old(queue)) && ids == IdsOf(old(queue))
    {
      rows, ids := [], [];
      while queue != []
        invariant rows + RowsOf(queue) == RowsOf(old(queue))
        invariant ids + IdsOf(queue) == IdsOf(old(queue))
        decreases |queue|
      {
        var item := queue[0];
        queue := queue[1..];
        match item {
          case Item(row) => rows := rows + [row];
          case Barrier(id) => ids := ids + [id];
          case StopMark =>
        }
      }
    }

    method ResolveBarriers(ids: seq<nat>)
      modifies `resolved
      ensures resolved == old(resolved) + SetOf(ids)
    {
      for i := 0 to |ids|
        invariant resolved == old(resolved) + SetOf(ids[..i])
      {
        assert ids[..i + 1] == ids[..i] + [ids[i]];
        SetOfAppend(ids[..i], ids[i]);
        resolved := resolved + {ids[i]};
      }
      assert ids[..|ids|] == ids;
    }

    /** `ok` tells whether the upsert goes through. */
    method StoreBatch(batch: seq<Row>, ok: bool)
      modifies `table, `passed, `lost
      ensures State() == Store(old(State()), batch, ok)
    {
      if batch == [] {
        assert UpsertAll(table, Latest([])) == table && Positions(passed, 0) == {};
        return;
      }
      var collapsed: map<string, Row> := map[];
      for i := 0 to |batch|
        invariant collapsed == Latest(batch[..i])
      {
        assert batch[..i + 1][..i] == batch[..i];
        collapsed := collapsed[batch[i].key := batch[i]];
      }
      assert batch[..|batch|] == batch;
      if ok {
        table := UpsertAll(table, collapsed);
      } else {
        lost := lost + Positions(passed, |batch|);
      }
      passed := passed + |batch|;
    }

    /** One section of the consumer's loop. */
    method AdvanceConsumer(ok: bool)
      requires Valid()
      modifies this
      ensures Valid() && State() == Next(old(State()), Advance(ok))
      ensures StableSeqs(old(accepted)) && State() != old(State()) ==> StepsLeft(State()) < StepsLeft(old(State()))
    {
      KeepsBooks(State(), Advance(ok));
      SectionProgresses(State(), ok);
      hide Sound, Advanced, StepsLeft, StableSeqs;
      Section(ok);
    }

    method Section(ok: bool)
      modifies this
      ensures State() == Advanced(old(State()), ok)
    {
      match consumer {
        case NotStarted =>
        case Finished =>
        case Waiting => if queue != [] { TakeItem([]); }
        case Batching(rows) =>
          if queue == [] {
            consumer := Storing(rows, EndOfBatch);
          } else {
            TakeItem(rows);
          }
        case Storing(rows, andThen) =>
          StoreBatch(rows, ok);
          match andThen {
            case EndOfBatch => consumer := Waiting;
            case ResolveBarrier(id) =>
              resolved := resolved + {id};
              consumer := Batching([]);
            case DrainAndStop =>
              var drained, ids := DrainRemaining();
              consumer := Storing(drained, ResolveAndExit(ids));
            case ResolveAndExit(ids) =>
              ResolveBarriers(ids);
              consumer := Finished;
              resolved, waiting := resolved + waiting, {};
          }
      }
    }

    method TakeItem(rows: seq<Row>)
      requires queue != []
      modifies this
      ensures State() == Taken(old(State()), rows)
    {
      var item := queue[0];
      queue := queue[1..];
      match item {
        case Item(row) => consumer := Batching(rows + [row]);
        case Barrier(id) => consumer := Storing(rows, ResolveBarrier(id));
        case StopMark => consumer := Storing(rows, DrainAndStop);
      }
    }
  }

  lemma KeepsBooks(w: Writer, op: Operation)
    requires StableSeqs(w.accepted) ==> Sound(w)
    ensures StableSeqs(Next(w, op).accepted) ==> Sound(Next(w, op))
  {
    hide Sound, Next;
    AcceptedStep(w, op);
    if StableSeqs(Next(w, op).accepted) {
      StableSub(Next(w, op).accepted, w.accepted);
      StepIsSound(w, op);
    }
  }

  lemma ReturnsOrWaits(w: Writer)
    ensures |w.marks| in Next(w, Flush).resolved || Running(Next(w, Flush))
    ensures Next(w, Flush).marks == w.marks + [|w.accepted|]
  {
    StoreFrame(w.(marks := w.marks + [|w.accepted|]), RowsOf(w.queue), true);
    hide Store, RowsOf, IdsOf, SetOf;
  }

  lemma SectionProgresses(w: Writer, ok: bool)
    requires StableSeqs(w.accepted) ==> Sound(w)
    ensures StableSeqs(w.accepted) && Advanced(w, ok) != w ==> StepsLeft(Advanced(w, ok)) < StepsLeft(w)
  {
    hide Accounts, BarriersInOrder, StepsLeft, Advanced;
    if StableSeqs(w.accepted) {
      AdvanceMakesProgress(w, ok);
    }
  }

  /** When a stop call returns, nothing is left. */
  lemma StopReturns(w: Writer)
    requires (StableSeqs(w.accepted) ==> Sound(w)) && w.stops > 0 && w.consumer.Finished?
    ensures var after := Next(w, FinishStop);
            && after.queue == [] && after.consumer == w.consumer && after.accepted == w.accepted && after.marks == w.marks
            && (StableSeqs(w.accepted) ==> after.passed == |w.accepted| && after.resolved == Positions(0, |w.marks|))
  {
    var called := w.(stops := w.stops - 1);
    StoreFrame(called, RowsOf(w.queue), true);
    hide Sound, Store, RowsOf, IdsOf, SetOf, StableSeqs, Positions;
    if StableSeqs(w.accepted) {
      FinishStopIsSound(w);
      AllReturned(Next(w, FinishStop));
    }
  }

  lemma AllReturned(w: Writer)
    requires Sound(w) && w.consumer.Finished?
    ensures w.passed == |w.accepted| && w.resolved == Positions(0, |w.marks|)
  {
    hide OneByOne, Kept, QueueInOrder;
    OnlyStopsIsEmpty(w.queue);
    PendingCount(w);
  }
}
