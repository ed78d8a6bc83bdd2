/** Background tasks and the obligations they owe (service/agent/notifications.py, service/agent/subordinates.py). */
module Notifications {
  import opened Options

  datatype Instance = MainAgent(code: string) | SubAgent(runId: nat)

  datatype Kind = SubagentFinished | UserMessage | SandboxJob

  datatype Status = Awaiting | Pending | Processing | Completed | Failed | Canceled

  datatype TaskStatus = Running | Succeeded | Broken | Stopped

  datatype Body = Registered | Report(status: TaskStatus) | Content(text: string)

  datatype Notification = Notification(
    session: nat, target: Instance, kind: Kind, status: Status, priority: int, runId: nat, body: Body, scope: string,
    error: string, createdAt: int, updatedAt: int, startedAt: Option<int>, finishedAt: Option<int>)

  datatype Task = Task(
    session: nat, hasParent: bool, parent: Instance, status: TaskStatus, result: string, error: string,
    progress: string, updatedAt: int, finishedAt: Option<int>)

  type Rows = map<nat, Notification>

  /** The two tables; every operation below is one transaction. */
  datatype Db = Db(rows: Rows, tasks: map<nat, Task>)

  const USER_MESSAGE_PRIORITY := 10
  const RESTART_ERROR := "Subagent task was interrupted by backend restart."

  predicate Terminal(n: Notification) {
    n.status in {Completed, Failed, Canceled}
  }

  predicate Outstanding(n: Notification) {
    n.status in {Awaiting, Pending, Processing}
  }

  // ----- Obligations -----

  /** An awaiting obligation resolved: ready wakes the parent, otherwise it is canceled; the runtime scope is kept. */
  function Flipped(n: Notification, ready: bool, report: Option<TaskStatus>, error: string, now: int): Notification {
    n.(status := if ready then Pending else Canceled,
       body := if report.Some? then Report(report.value) else n.body,
       error := error,
       updatedAt := now,
       finishedAt := if ready then n.finishedAt else Some(now))
  }

  predicate Owes(n: Notification, kind: Kind, runs: set<nat>) {
    n.kind == kind && n.runId in runs && n.status == Awaiting
  }

  /** The obligations of these runs resolved; those already past awaiting are left alone. */
  function ResolveAll(rows: Rows, kind: Kind, runs: set<nat>, ready: bool, report: Option<TaskStatus>, error: string, now: int): Rows {
    map n | n in rows :: if Owes(rows[n], kind, runs) then Flipped(rows[n], ready, report, error, now) else rows[n]
  }

  // ----- Task operations -----

  function Obligation(id: nat, runId: nat, kind: Kind, session: nat, target: Instance, scope: string, now: int): Notification {
    Notification(session, target, kind, Awaiting, 0, runId, Registered, scope, "", now, now, None, None)
  }

  function CreateTask(db: Db, runId: nat, id: nat, session: nat, hasParent: bool, parent: Instance, scope: string, now: int): Db {
    Db(if hasParent then db.rows[id := Obligation(id, runId, SubagentFinished, session, parent, scope, now)] else db.rows,
       db.tasks[runId := Task(session, hasParent, parent, Running, "", "", "", now, None)])
  }

  predicate IsRunning(db: Db, runId: nat) {
    runId in db.tasks && db.tasks[runId].status == Running
  }

  function FinishTask(db: Db, runId: nat, status: TaskStatus, result: string, error: string, now: int): Db {
    if !IsRunning(db, runId) then db
    else
      Db(ResolveAll(db.rows, SubagentFinished, {runId}, status in {Succeeded, Broken}, Some(status), error, now),
         db.tasks[runId := db.tasks[runId].(
           status := status, result := result, error := error, progress := "", updatedAt := now, finishedAt := Some(now))])
  }

  /** The running tasks of a session, of a parent, or of both; no filter selects them all. */
  function RunningOf(db: Db, session: Option<nat>, parent: Option<Instance>): set<nat> {
    set r | r in db.tasks && db.tasks[r].status == Running
            && (session.None? || db.tasks[r].session == session.value)
            && (parent.None? || db.tasks[r].parent == parent.value)
  }

  function StoppedTask(t: Task, error: string, now: int): Task {
    t.(status := Stopped, error := error, progress := "", updatedAt := now, finishedAt := Some(now))
  }

  function StaleTask(t: Task, now: int): Task {
    t.(status := Broken, error := RESTART_ERROR, updatedAt := now, finishedAt := Some(now))
  }

  function CancelTasks(db: Db, runs: set<nat>, error: string, now: int): Db {
    Db(ResolveAll(db.rows, SubagentFinished, runs, false, None, error, now),
       map r | r in db.tasks :: if r in runs then StoppedTask(db.tasks[r], error, now) else db.tasks[r])
  }

  function FailTasks(db: Db, runs: set<nat>, now: int): Db {
    Db(ResolveAll(db.rows, SubagentFinished, runs, true, Some(Broken), RESTART_ERROR, now),
       map r | r in db.tasks :: if r in runs then StaleTask(db.tasks[r], now) else db.tasks[r])
  }

  function UpdateProgress(db: Db, runId: nat, progress: string, now: int): Db {
    if !IsRunning(db, runId) then db
    else db.(tasks := db.tasks[runId := db.tasks[runId].(progress := progress, updatedAt := now)])
  }

  // ----- Notification operations -----

  function Enqueue(db: Db, id: nat, session: nat, target: Instance, text: string, runId: nat, scope: string, now: int): Db {
    db.(rows := db.rows[id := Notification(session, target, UserMessage, Pending, USER_MESSAGE_PRIORITY, runId,
                                           Content(text), scope, "", now, now, None, None)])
  }

  /** Whether a driver that drains `target` may claim the row; no target means any main agent. */
  predicate Claimable(n: Notification, session: nat, target: Option<Instance>) {
    n.session == session && n.status == Pending
    && match target
       case Some(t) => n.target == t
       case None => n.target.MainAgent?
  }

  /** Highest priority first, then oldest. */
  predicate Precedes(a: Notification, b: Notification) {
    a.priority > b.priority || (a.priority == b.priority && a.createdAt <= b.createdAt)
  }

  predicate IsNext(rows: Rows, session: nat, target: Option<Instance>, id: nat) {
    && id in rows && Claimable(rows[id], session, target)
    && forall n :: n in rows && Claimable(rows[n], session, target) ==> Precedes(rows[id], rows[n])
  }

  function Claim(db: Db, id: nat, now: int): Db
    requires id in db.rows
  {
    db.(rows := db.rows[id := db.rows[id].(status := Processing, startedAt := Some(now), updatedAt := now)])
  }

  function Finish(db: Db, id: nat, status: Status, error: string, now: int): Db {
    if id !in db.rows || db.rows[id].status != Processing then db
    else db.(rows := db.rows[id := db.rows[id].(status := status, error := error, updatedAt := now, finishedAt := Some(now))])
  }

  /** Back to pending; `startedAt` stays, so that an interrupt can tell a claimed message from a fresh one. */
  function Release(db: Db, id: nat, now: int): Db {
    if id !in db.rows || db.rows[id].status != Processing then db
    else db.(rows := db.rows[id := db.rows[id].(status := Pending, error := "", updatedAt := now)])
  }

  /** Rows a session-wide or instance-wide cancel hits. */
  predicate CancelHits(n: Notification, session: nat, target: Option<Instance>) {
    n.session == session && Outstanding(n) && (target.None? || n.target == target.value)
  }

  /** Rows a user interrupt hits: claimable or claimed main-agent work, except user messages without a start time. */
  predicate InterruptHits(n: Notification, session: nat) {
    && n.session == session && n.status in {Pending, Processing} && n.target.MainAgent?
    && (n.kind != UserMessage || n.startedAt.Some?)
  }

  function CanceledRow(n: Notification, error: string, now: int): Notification {
    n.(status := Canceled, error := error, updatedAt := now, finishedAt := Some(now))
  }

  function CanceledRows(rows: Rows, hit: set<nat>, error: string, now: int): Rows {
    map n | n in rows :: if n in hit then CanceledRow(rows[n], error, now) else rows[n]
  }

  function CancelSession(db: Db, session: nat, target: Option<Instance>, error: string, now: int): Db {
    db.(rows := map n | n in db.rows ::
                  if CancelHits(db.rows[n], session, target) then CanceledRow(db.rows[n], error, now) else db.rows[n])
  }

  function CancelInterrupted(db: Db, session: nat, error: string, now: int): Db {
    db.(rows := map n | n in db.rows ::
                  if InterruptHits(db.rows[n], session) then CanceledRow(db.rows[n], error, now) else db.rows[n])
  }

  function ResetRow(n: Notification, now: int): Notification {
    n.(status := Pending, error := "", startedAt := None, updatedAt := now)
  }

  function RowsReset(rows: Rows, hit: set<nat>, now: int): Rows {
    map n | n in rows :: if n in hit then ResetRow(rows[n], now) else rows[n]
  }

  function ResetProcessing(db: Db, now: int): Db {
    db.(rows := map n | n in db.rows :: if db.rows[n].status == Processing then ResetRow(db.rows[n], now) else db.rows[n])
  }

  // ----- The transactions as steps -----

  datatype Step =
    | DoCreate(runId: nat, id: nat, session: nat, hasParent: bool, parent: Instance, scope: string, now: int)
    | DoFinishTask(runId: nat, taskStatus: TaskStatus, result: string, error: string, now: int)
    | DoCancelTasks(ofSession: Option<nat>, ofParent: Option<Instance>, error: string, now: int)
    | DoFailStale(now: int)
    | DoProgress(runId: nat, progress: string, now: int)
    | DoRegisterJob(id: nat, runId: nat, session: nat, target: Instance, now: int)
    | DoResolveJob(runId: nat, ready: bool, error: string, now: int)
    | DoEnqueue(id: nat, session: nat, target: Instance, text: string, runId: nat, scope: string, now: int)
    | DoClaim(id: nat, session: nat, from: Option<Instance>, now: int)
    | DoComplete(id: nat, now: int)
    | DoFail(id: nat, error: string, now: int)
    | DoRelease(id: nat, now: int)
    | DoCancelSession(session: nat, of: Option<Instance>, error: string, now: int)
    | DoInterrupt(session: nat, error: string, now: int)
    | DoReset(now: int)

  /** New ids are fresh, a task ends in a terminal status, and a claim takes the next row. */
  predicate Allowed(db: Db, step: Step) {
    match step
    case DoCreate(runId, id, _, _, _, _, _) => runId !in db.tasks && id !in db.rows
    case DoFinishTask(_, status, _, _, _) => status != Running
    case DoRegisterJob(id, _, _, _, _) => id !in db.rows
    case DoEnqueue(id, _, _, _, _, _, _) => id !in db.rows
    case DoClaim(id, session, from, _) => IsNext(db.rows, session, from, id)
    case _ => true
  }

  function Next(db: Db, step: Step): Db {
    match step
    case DoCreate(runId, id, session, hasParent, parent, scope, now) =>
      CreateTask(db, runId, id, session, hasParent, parent, scope, now)
    case DoFinishTask(runId, status, result, error, now) => FinishTask(db, runId, status, result, error, now)
    case DoCancelTasks(session, parent, error, now) => CancelTasks(db, RunningOf(db, session, parent), error, now)
    case DoFailStale(now) => FailTasks(db, RunningOf(db, None, None), now)
    case DoProgress(runId, progress, now) => UpdateProgress(db, runId, progress, now)
    case DoRegisterJob(id, runId, session, target, now) =>
      db.(rows := db.rows[id := Obligation(id, runId, SandboxJob, session, target, "", now)])
    case DoResolveJob(runId, ready, error, now) =>
      db.(rows := ResolveAll(db.rows, SandboxJob, {runId}, ready, None, error, now))
    case DoEnqueue(id, session, target, text, runId, scope, now) => Enqueue(db, id, session, target, text, runId, scope, now)
    case DoClaim(id, _, _, now) => if id in db.rows then Claim(db, id, now) else db
    case DoComplete(id, now) => Finish(db, id, Completed, "", now)
    case DoFail(id, error, now) => Finish(db, id, Failed, error, now)
    case DoRelease(id, now) => Release(db, id, now)
    case DoCancelSession(session, target, error, now) => CancelSession(db, session, target, error, now)
    case DoInterrupt(session, error, now) => CancelInterrupted(db, session, error, now)
    case DoReset(now) => ResetProcessing(db, now)
  }

  // ----- The protocol between the two tables -----

  predicate IsObligation(rows: Rows, id: nat, runId: nat) {
    id in rows && rows[id].kind == SubagentFinished && rows[id].runId == runId
  }

  /** An obligation belongs to a task with a parent and goes to that parent; a run has at most one. */
  ghost predicate WellOwned(db: Db) {
    && (forall id, r :: IsObligation(db.rows, id, r) ==>
          r in db.tasks && db.tasks[r].hasParent
          && db.rows[id].target == db.tasks[r].parent && db.rows[id].session == db.tasks[r].session)
    && (forall a, b, r :: IsObligation(db.rows, a, r) && IsObligation(db.rows, b, r) ==> a == b)
  }

  /** Awaiting means running; ready, claimed and handled mean that there is a result. */
  predicate StatusesMatch(row: Status, task: TaskStatus) {
    && (row == Awaiting ==> task == Running)
    && (row in {Pending, Processing, Completed, Failed} ==> task in {Succeeded, Broken})
  }

  ghost predicate Synchronised(db: Db) {
    forall id, r :: IsObligation(db.rows, id, r) && r in db.tasks ==> StatusesMatch(db.rows[id].status, db.tasks[r].status)
  }

  /** No task with a parent runs unnoticed: its obligation is awaiting, or was canceled with the parent's work. */
  ghost predicate NoneDangling(db: Db) {
    forall r :: IsRunning(db, r) && db.tasks[r].hasParent ==>
                  exists id :: IsObligation(db.rows, id, r) && db.rows[id].status in {Awaiting, Canceled}
  }

  ghost predicate MessagesNeverAwait(db: Db) {
    forall id :: id in db.rows && db.rows[id].kind == UserMessage ==> db.rows[id].status != Awaiting
  }

  ghost predicate Protocol(db: Db) {
    WellOwned(db) && Synchronised(db) && NoneDangling(db) && MessagesNeverAwait(db)
  }

  // ----- Every transaction keeps the protocol -----

  /** `after` differs from `db` in that the running tasks `runs` ended with `status` and their obligations followed. */
  ghost predicate Ended(db: Db, after: Db, runs: set<nat>, status: TaskStatus, report: Option<TaskStatus>, error: string, now: int) {
    && status != Running
    && (forall r :: r in runs ==> IsRunning(db, r))
    && after.rows == ResolveAll(db.rows, SubagentFinished, runs, status in {Succeeded, Broken}, report, error, now)
    && after.tasks.Keys == db.tasks.Keys
    && forall r :: r in db.tasks ==>
         && after.tasks[r].status == (if r in runs then status else db.tasks[r].status)
         && after.tasks[r].hasParent == db.tasks[r].hasParent
         && after.tasks[r].parent == db.tasks[r].parent && after.tasks[r].session == db.tasks[r].session
  }

  lemma EndedIsOwned(db: Db, after: Db, runs: set<nat>, status: TaskStatus, report: Option<TaskStatus>, error: string, now: int)
    requires WellOwned(db) && Ended(db, after, runs, status, report, error, now)
    ensures WellOwned(after)
  {
    assert forall id, r :: IsObligation(after.rows, id, r) ==> IsObligation(db.rows, id, r);
  }

  lemma EndedIsSynchronised(db: Db, after: Db, runs: set<nat>, status: TaskStatus, report: Option<TaskStatus>, error: string, now: int)
    requires WellOwned(db) && Synchronised(db) && Ended(db, after, runs, status, report, error, now)
    ensures Synchronised(after)
  {
    forall id, r | IsObligation(after.rows, id, r) && r in after.tasks
      ensures StatusesMatch(after.rows[id].status, after.tasks[r].status)
    {
      assert IsObligation(db.rows, id, r);
      assert StatusesMatch(db.rows[id].status, db.tasks[r].status);
      assert r in runs ==> IsRunning(db, r);
    }
  }

  lemma EndedLeavesNoneDangling(db: Db, after: Db, runs: set<nat>, status: TaskStatus, report: Option<TaskStatus>, error: string, now: int)
    requires NoneDangling(db) && Ended(db, after, runs, status, report, error, now)
    ensures NoneDangling(after)
  {
    forall r | IsRunning(after, r) && after.tasks[r].hasParent
      ensures exists id :: IsObligation(after.rows, id, r) && after.rows[id].status in {Awaiting, Canceled}
    {
      assert IsRunning(db, r);
      var id :| IsObligation(db.rows, id, r) && db.rows[id].status in {Awaiting, Canceled};
      assert IsObligation(after.rows, id, r) && after.rows[id] == db.rows[id];
    }
  }

  lemma EndedKeepsProtocol(db: Db, after: Db, runs: set<nat>, status: TaskStatus, report: Option<TaskStatus>, error: string, now: int)
    requires Protocol(db) && Ended(db, after, runs, status, report, error, now)
    ensures Protocol(after)
  {
    EndedIsOwned(db, after, runs, status, report, error, now);
    EndedIsSynchronised(db, after, runs, status, report, error, now);
    EndedLeavesNoneDangling(db, after, runs, status, report, error, now);
    hide WellOwned, Synchronised, NoneDangling;
  }

  /** Status changes that need no look at the task: to canceled, or among ready, claimed and handled. */
  predicate Harmless(a: Status, b: Status) {
    a == b || b == Canceled || (a in {Pending, Processing, Completed, Failed} && b in {Pending, Processing, Completed, Failed})
  }

  /** `after` differs from `db` in rows whose statuses changed harmlessly, and in jobs. */
  ghost predicate Moved(db: Db, after: Db) {
    && after.tasks == db.tasks && after.rows.Keys == db.rows.Keys
    && forall id :: id in db.rows ==>
         && after.rows[id].kind == db.rows[id].kind && after.rows[id].runId == db.rows[id].runId
         && after.rows[id].target == db.rows[id].target && after.rows[id].session == db.rows[id].session
         && (db.rows[id].kind == SandboxJob || Harmless(db.rows[id].status, after.rows[id].status))
  }

  lemma MovedKeepsProtocol(db: Db, after: Db)
    requires Protocol(db) && Moved(db, after)
    ensures Protocol(after)
  {
    assert forall id, r :: IsObligation(after.rows, id, r) <==> IsObligation(db.rows, id, r);
    forall r | IsRunning(after, r) && after.tasks[r].hasParent
      ensures exists id :: IsObligation(after.rows, id, r) && after.rows[id].status in {Awaiting, Canceled}
    {
      assert IsRunning(db, r);
      var id :| IsObligation(db.rows, id, r) && db.rows[id].status in {Awaiting, Canceled};
      assert IsObligation(after.rows, id, r);
    }
  }

  lemma AddedKeepsProtocol(db: Db, id: nat, n: Notification)
    requires Protocol(db) && id !in db.rows && n.kind != SubagentFinished && (n.kind == UserMessage ==> n.status != Awaiting)
    ensures Protocol(db.(rows := db.rows[id := n]))
  {
    var after := db.(rows := db.rows[id := n]);
    assert forall i, r :: IsObligation(after.rows, i, r) <==> IsObligation(db.rows, i, r);
    forall r | IsRunning(after, r) && after.tasks[r].hasParent
      ensures exists i :: IsObligation(after.rows, i, r) && after.rows[i].status in {Awaiting, Canceled}
    {
      assert IsRunning(db, r);
      var i :| IsObligation(db.rows, i, r) && db.rows[i].status in {Awaiting, Canceled};
      assert IsObligation(after.rows, i, r);
    }
  }

  lemma CreatedKeepsProtocol(db: Db, step: Step)
    requires Protocol(db) && step.DoCreate? && Allowed(db, step)
    ensures Protocol(Next(db, step))
  {
    var after := Next(db, step);
    forall i, r | IsObligation(after.rows, i, r)
      ensures if r == step.runId then i == step.id else IsObligation(db.rows, i, r)
    {
      assert i != step.id ==> IsObligation(db.rows, i, r);
    }
    forall r | IsRunning(after, r) && after.tasks[r].hasParent
      ensures exists i :: IsObligation(after.rows, i, r) && after.rows[i].status in {Awaiting, Canceled}
    {
      if r == step.runId {
        assert IsObligation(after.rows, step.id, r);
      } else {
        assert IsRunning(db, r);
        var i :| IsObligation(db.rows, i, r) && db.rows[i].status in {Awaiting, Canceled};
        assert IsObligation(after.rows, i, r);
      }
    }
  }

  lemma ProgressKeepsProtocol(db: Db, runId: nat, progress: string, now: int)
    requires Protocol(db)
    ensures Protocol(UpdateProgress(db, runId, progress, now))
  {
    var after := UpdateProgress(db, runId, progress, now);
    assert forall r :: IsRunning(after, r) <==> IsRunning(db, r);
  }

  lemma OneRowMoves(db: Db, step: Step)
    requires Allowed(db, step)
    requires step.DoClaim? || step.DoComplete? || step.DoFail? || step.DoRelease?
    ensures Moved(db, Next(db, step))
  {
    hide Precedes;
  }

  lemma ManyRowsMove(db: Db, step: Step)
    requires step.DoCancelSession? || step.DoInterrupt? || step.DoReset? || step.DoResolveJob?
    ensures Moved(db, Next(db, step))
  {
  }

  lemma StepKeepsProtocol(db: Db, step: Step)
    requires Protocol(db) && Allowed(db, step)
    ensures Protocol(Next(db, step))
  {
    hide Protocol, Moved;
    match step {
      case DoCreate(_, _, _, _, _, _, _) => CreatedKeepsProtocol(db, step);
      case DoFinishTask(runId, status, _, error, now) =>
        if IsRunning(db, runId) { EndedKeepsProtocol(db, Next(db, step), {runId}, status, Some(status), error, now); }
      case DoCancelTasks(session, parent, error, now) =>
        EndedKeepsProtocol(db, Next(db, step), RunningOf(db, session, parent), Stopped, None, error, now);
      case DoFailStale(now) =>
        EndedKeepsProtocol(db, Next(db, step), RunningOf(db, None, None), Broken, Some(Broken), RESTART_ERROR, now);
      case DoProgress(runId, progress, now) => ProgressKeepsProtocol(db, runId, progress, now);
      case DoRegisterJob(id, runId, session, target, now) =>
        AddedKeepsProtocol(db, id, Obligation(id, runId, SandboxJob, session, target, "", now));
      case DoEnqueue(id, _, _, _, _, _, _) => AddedKeepsProtocol(db, id, Next(db, step).rows[id]);
      case _ =>
        if step.DoClaim? || step.DoComplete? || step.DoFail? || step.DoRelease? {
          OneRowMoves(db, step);
        } else {
          ManyRowsMove(db, step);
        }
        MovedKeepsProtocol(db, Next(db, step));
    }
  }

  // ----- Runs -----

  /** `states` are the states of a run of allowed transactions from empty tables. */
  ghost predicate IsRun(states: seq<Db>, steps: seq<Step>) {
    && |states| == |steps| + 1 && states[0] == Db(map[], map[])
    && forall i :: 0 <= i < |steps| ==> Allowed(states[i], steps[i]) && states[i + 1] == Next(states[i], steps[i])
  }

  /** The protocol holds in every state of every run. */
  lemma {:induction false} EveryRunKeepsProtocol(states: seq<Db>, steps: seq<Step>, i: nat)
    requires IsRun(states, steps) && i < |states|
    ensures Protocol(states[i])
  {
    if i > 0 {
      hide Protocol, Next, Allowed;
      EveryRunKeepsProtocol(states, steps, i - 1);
      StepKeepsProtocol(states[i - 1], steps[i - 1]);
    }
  }

  /** No transaction changes a notification that is terminal, or a task that is. */
  lemma TerminalAbsorbs(db: Db, step: Step)
    requires Allowed(db, step)
    ensures forall id :: id in db.rows && Terminal(db.rows[id]) ==> id in Next(db, step).rows && Next(db, step).rows[id] == db.rows[id]
    ensures forall r :: r in db.tasks && db.tasks[r].status != Running ==>
              r in Next(db, step).tasks && Next(db, step).tasks[r] == db.tasks[r]
  {
  }

  /** A result reaches its parent exactly when it has one to deliver. */
  lemma FinishWakesParent(db: Db, runId: nat, id: nat, status: TaskStatus, result: string, error: string, now: int)
    requires Protocol(db) && IsRunning(db, runId) && status != Running
    requires IsObligation(db.rows, id, runId) && db.rows[id].status == Awaiting
    ensures var after := FinishTask(db, runId, status, result, error, now);
            && after.rows[id].status == (if status == Stopped then Canceled else Pending)
            && after.rows[id].body == Report(status) && after.rows[id].scope == db.rows[id].scope && after.rows[id].error == error
            && after.rows[id].finishedAt == (if status == Stopped then Some(now) else db.rows[id].finishedAt)
            && forall n :: n in db.rows && n != id ==> after.rows[n] == db.rows[n]
  {
    forall n | n in db.rows && n != id
      ensures !Owes(db.rows[n], SubagentFinished, {runId})
    {
      assert IsObligation(db.rows, n, runId) ==> n == id;
    }
  }

  // ----- How a task ended -----

  /** The step ends the running task `r` with this status, result and error. */
  predicate Ends(db: Db, step: Step, r: nat, status: TaskStatus, result: string, error: string) {
    IsRunning(db, r)
    && match step
       case DoFinishTask(run, s, given, cause, _) => run == r && s == status && given == result && cause == error
       case DoCancelTasks(session, parent, cause, _) =>
         && (session.None? || session == Some(db.tasks[r].session)) && (parent.None? || parent == Some(db.tasks[r].parent))
         && status == Stopped && result == "" && error == cause
       case DoFailStale(_) => status == Broken && result == "" && error == RESTART_ERROR
       case _ => false
  }

  predicate EndedAs(db: Db, r: nat, status: TaskStatus, result: string, error: string) {
    r in db.tasks && db.tasks[r].status == status != Running && db.tasks[r].result == result && db.tasks[r].error == error
  }

  predicate NoResultYet(db: Db, r: nat) {
    IsRunning(db, r) ==> db.tasks[r].result == ""
  }

  lemma EndMoves(db: Db, step: Step, r: nat, status: TaskStatus, result: string, error: string)
    requires Allowed(db, step) && NoResultYet(db, r)
    ensures NoResultYet(Next(db, step), r)
    ensures EndedAs(Next(db, step), r, status, result, error)
            <==> EndedAs(db, r, status, result, error) || Ends(db, step, r, status, result, error)
  {
    hide IsNext, ResolveAll;
  }

  /** Some transaction before `i` ended the task so. */
  ghost predicate EndGiven(states: seq<Db>, steps: seq<Step>, i: nat, r: nat, status: TaskStatus, result: string, error: string)
    requires |states| == |steps| + 1 && i < |states|
  {
    exists j :: 0 <= j < i && Ends(states[j], steps[j], r, status, result, error)
  }

  /** A task is over with a status, a result and an error exactly when the transaction that ended it gave it these. */
  lemma {:induction false} EndIsStored(
    states: seq<Db>, steps: seq<Step>, i: nat, r: nat, status: TaskStatus, result: string, error: string)
    requires IsRun(states, steps) && i < |states|
    ensures EndedAs(states[i], r, status, result, error) <==> EndGiven(states, steps, i, r, status, result, error)
    ensures NoResultYet(states[i], r)
    decreases i
  {
    hide EndedAs, Ends, Next, Allowed, NoResultYet;
    if i == 0 {
      NothingEnded(states[0], r, status, result, error);
    } else {
      EndIsStored(states, steps, i - 1, r, status, result, error);
      EndMoves(states[i - 1], steps[i - 1], r, status, result, error);
      assert EndGiven(states, steps, i, r, status, result, error)
        <==> EndGiven(states, steps, i - 1, r, status, result, error) || Ends(states[i - 1], steps[i - 1], r, status, result, error);
    }
  }

  lemma NothingEnded(db: Db, r: nat, status: TaskStatus, result: string, error: string)
    requires db == Db(map[], map[])
    ensures !EndedAs(db, r, status, result, error) && NoResultYet(db, r)
  {
  }

  /** An obligation that has become ready reports how its task ended. */
  ghost predicate Reported(db: Db) {
    forall id, r :: IsObligation(db.rows, id, r) && r in db.tasks && db.rows[id].status in {Pending, Processing, Completed, Failed} ==>
                      db.rows[id].body == Report(db.tasks[r].status)
  }

  lemma RowReported(db: Db, step: Step, id: nat, r: nat)
    requires Allowed(db, step) && WellOwned(db) && Synchronised(db) && Reported(db)
    requires var after := Next(db, step);
             IsObligation(after.rows, id, r) && r in after.tasks && after.rows[id].status in {Pending, Processing, Completed, Failed}
    ensures Next(db, step).rows[id].body == Report(Next(db, step).tasks[r].status)
  {
    hide Precedes;
    if IsObligation(db.rows, id, r) {
      assert r in db.tasks && StatusesMatch(db.rows[id].status, db.tasks[r].status);
    }
  }

  lemma {:induction false} EveryRunReports(states: seq<Db>, steps: seq<Step>, i: nat)
    requires IsRun(states, steps) && i < |states|
    ensures Reported(states[i])
    decreases i
  {
    if i > 0 {
      EveryRunReports(states, steps, i - 1);
      EveryRunKeepsProtocol(states, steps, i - 1);
      hide Next, Allowed, WellOwned, Synchronised, NoneDangling, MessagesNeverAwait;
      forall id, r | IsObligation(states[i].rows, id, r) && r in states[i].tasks
                     && states[i].rows[id].status in {Pending, Processing, Completed, Failed}
        ensures states[i].rows[id].body == Report(states[i].tasks[r].status)
      {
        RowReported(states[i - 1], steps[i - 1], id, r);
      }
    }
  }

  // ----- Which item is claimed -----

  ghost predicate PrioritiesByKind(rows: Rows) {
    forall id :: id in rows ==> rows[id].priority == if rows[id].kind == UserMessage then USER_MESSAGE_PRIORITY else 0
  }

  lemma StepKeepsPriorities(db: Db, step: Step)
    requires PrioritiesByKind(db.rows)
    ensures PrioritiesByKind(Next(db, step).rows)
  {
  }

  lemma {:induction false} EveryRunKeepsPriorities(states: seq<Db>, steps: seq<Step>, i: nat)
    requires IsRun(states, steps) && i < |states|
    ensures PrioritiesByKind(states[i].rows)
  {
    if i > 0 {
      hide PrioritiesByKind, Next, Allowed;
      EveryRunKeepsPriorities(states, steps, i - 1);
      StepKeepsPriorities(states[i - 1], steps[i - 1]);
    }
  }

  /**
   * In every run a waiting user message is claimed before any finished background work, and messages, like finished
   * work, in their order.
   */
  lemma UserMessagesGoFirst(states: seq<Db>, steps: seq<Step>, i: nat, session: nat, target: Option<Instance>, id: nat, n: nat)
    requires IsRun(states, steps) && i < |states| && IsNext(states[i].rows, session, target, id)
    requires n in states[i].rows && Claimable(states[i].rows[n], session, target)
    ensures var first, waiting := states[i].rows[id], states[i].rows[n];
            && (waiting.kind == UserMessage ==> first.kind == UserMessage)
            && ((first.kind == UserMessage <==> waiting.kind == UserMessage) ==> first.createdAt <= waiting.createdAt)
  {
    EveryRunKeepsPriorities(states, steps, i);
    hide IsRun;
    assert Precedes(states[i].rows[id], states[i].rows[n]);
  }

  // ----- What a user interrupt spares -----

  /** Whether the row was claimed since the last reset that found it in processing. */
  function ClaimedSince(states: seq<Db>, steps: seq<Step>, i: nat, id: nat): bool
    requires |states| == |steps| + 1 && i < |states|
  {
    if i == 0 then false
    else if steps[i - 1].DoClaim? && steps[i - 1].id == id then true
    else if steps[i - 1].DoReset? && id in states[i - 1].rows && states[i - 1].rows[id].status == Processing then false
    else ClaimedSince(states, steps, i - 1, id)
  }

  lemma {:induction false} UnknownIsUnclaimed(states: seq<Db>, steps: seq<Step>, i: nat, id: nat)
    requires IsRun(states, steps) && i < |states| && id !in states[i].rows
    ensures !ClaimedSince(states, steps, i, id)
  {
    if i > 0 {
      hide IsNext;
      UnknownIsUnclaimed(states, steps, i - 1, id);
    }
  }

  lemma {:induction false} StartTimeMeansClaimed(states: seq<Db>, steps: seq<Step>, i: nat, id: nat)
    requires IsRun(states, steps) && i < |states| && id in states[i].rows
    ensures states[i].rows[id].startedAt.Some? <==> ClaimedSince(states, steps, i, id)
  {
    if i > 0 {
      var db, step := states[i - 1], steps[i - 1];
      if id in db.rows {
        StartTimeMeansClaimed(states, steps, i - 1, id);
        StartTimeStep(db, step, id);
      } else {
        UnknownIsUnclaimed(states, steps, i - 1, id);
        NewRowUnstarted(db, step, id);
      }
    }
  }

  lemma StartTimeStep(db: Db, step: Step, id: nat)
    requires Allowed(db, step) && id in db.rows
    ensures id in Next(db, step).rows
    ensures Next(db, step).rows[id].startedAt.Some?
            <==> (step.DoClaim? && step.id == id)
                 || (db.rows[id].startedAt.Some? && !(step.DoReset? && db.rows[id].status == Processing))
  {
    hide IsNext;
  }

  lemma NewRowUnstarted(db: Db, step: Step, id: nat)
    requires Allowed(db, step) && id !in db.rows && id in Next(db, step).rows
    ensures Next(db, step).rows[id].startedAt.None? && !(step.DoClaim? && step.id == id)
  {
    hide IsNext;
  }

  /**
   * Of a session's ready or claimed main-agent work the interrupt cancels everything but the user messages that were
   * not claimed since the last reset that found them in processing.
   */
  lemma InterruptSparesExactly(states: seq<Db>, steps: seq<Step>, i: nat, id: nat, session: nat, error: string, now: int)
    requires IsRun(states, steps) && i < |states| && id in states[i].rows
    ensures var n := states[i].rows[id];
            var after := CancelInterrupted(states[i], session, error, now);
            id in after.rows
            && (if n.session == session && n.target.MainAgent? && n.status in {Pending, Processing}
                   && !(n.kind == UserMessage && !ClaimedSince(states, steps, i, id))
                then after.rows[id] == CanceledRow(n, error, now)
                else after.rows[id] == n)
  {
    StartTimeMeansClaimed(states, steps, i, id);
    hide IsRun, ClaimedSince;
  }

  /**
   * "Never claimed since the last reset" is not what decides: a message claimed and released before a reset keeps its
   * start time, and is canceled although nothing claimed it afterwards.
   */
  lemma ReleasedMessageIsNotSpared(session: nat, target: Instance, text: string)
    requires target.MainAgent?
    ensures var queued := Enqueue(Db(map[], map[]), 0, session, target, text, 0, "", 1);
            var restarted := ResetProcessing(Release(Claim(queued, 0, 2), 0, 3), 4);
            && IsNext(queued.rows, session, Some(target), 0)
            && restarted.rows[0].status == Pending
            && CancelInterrupted(restarted, session, "", 5).rows[0].status == Canceled
  {
  }

  // ----- The operations on the tables, as the services carry them out -----

  ghost predicate OnePerRun(rows: Rows, kind: Kind) {
    forall a, b :: a in rows && b in rows && rows[a].kind == kind && rows[b].kind == kind && rows[a].runId == rows[b].runId ==> a == b
  }

  lemma ResolveOneMore(rows: Rows, runs: set<nat>, r: nat, ready: bool, report: Option<TaskStatus>, error: string, now: int)
    ensures ResolveAll(ResolveAll(rows, SubagentFinished, runs, ready, report, error, now),
                       SubagentFinished, {r}, ready, report, error, now)
            == ResolveAll(rows, SubagentFinished, runs + {r}, ready, report, error, now)
  {
    hide Flipped;
    assert forall n :: Flipped(n, ready, report, error, now).status in {Pending, Canceled} by { FlippedStatus(); }
  }

  lemma FlippedStatus()
    ensures forall n, ready, report, error, now :: Flipped(n, ready, report, error, now).status in {Pending, Canceled}
  {
  }

  /** With one row per run, resolving a run is resolving that row. */
  lemma ResolveIsLocal(rows: Rows, kind: Kind, runId: nat, id: nat, ready: bool, report: Option<TaskStatus>, error: string, now: int)
    requires OnePerRun(rows, kind) && id in rows && rows[id].kind == kind && rows[id].runId == runId
    ensures ResolveAll(rows, kind, {runId}, ready, report, error, now)
            == if rows[id].status != Awaiting then rows else rows[id := Flipped(rows[id], ready, report, error, now)]
  {
    hide Flipped;
    assert forall n :: n in rows && Owes(rows[n], kind, {runId}) ==> n == id;
  }

  lemma ResolveKeepsOnePerRun(rows: Rows, runs: set<nat>, ready: bool, report: Option<TaskStatus>, error: string, now: int)
    requires OnePerRun(rows, SubagentFinished)
    ensures OnePerRun(ResolveAll(rows, SubagentFinished, runs, ready, report, error, now), SubagentFinished)
  {
  }

  lemma CancelOneMore(db: Db, runs: set<nat>, r: nat, error: string, now: int)
    requires r in db.tasks && r !in runs
    ensures var part := CancelTasks(db, runs, error, now);
            && r in part.tasks
            && Db(ResolveAll(part.rows, SubagentFinished, {r}, false, None, error, now),
                  part.tasks[r := StoppedTask(part.tasks[r], error, now)])
               == CancelTasks(db, runs + {r}, error, now)
  {
    ResolveOneMore(db.rows, runs, r, false, None, error, now);
    hide ResolveAll;
  }

  lemma FailOneMore(db: Db, runs: set<nat>, r: nat, now: int)
    requires r in db.tasks && r !in runs
    ensures var part := FailTasks(db, runs, now);
            && r in part.tasks
            && Db(ResolveAll(part.rows, SubagentFinished, {r}, true, Some(Broken), RESTART_ERROR, now),
                  part.tasks[r := StaleTask(part.tasks[r], now)])
               == FailTasks(db, runs + {r}, now)
  {
    ResolveOneMore(db.rows, runs, r, true, Some(Broken), RESTART_ERROR, now);
    hide ResolveAll;
  }

  /** What every transaction keeps. */
  ghost predicate TablesSound(db: Db) {
    Protocol(db) && PrioritiesByKind(db.rows)
  }

  lemma StepKeepsTablesSound(db: Db, step: Step)
    requires TablesSound(db) && Allowed(db, step)
    ensures TablesSound(Next(db, step))
  {
    hide Protocol, PrioritiesByKind, Next, Allowed;
    StepKeepsProtocol(db, step);
    StepKeepsPriorities(db, step);
  }

  lemma TablesAreOnePerRun(db: Db)
    requires TablesSound(db)
    ensures OnePerRun(db.rows, SubagentFinished)
  {
    assert WellOwned(db);
    forall a, b | a in db.rows && b in db.rows && db.rows[a].kind == SubagentFinished && db.rows[b].kind == SubagentFinished
                  && db.rows[a].runId == db.rows[b].runId
      ensures a == b
    {
      assert IsObligation(db.rows, a, db.rows[a].runId) && IsObligation(db.rows, b, db.rows[a].runId);
    }
  }

  class NotificationStore {
    var rows: Rows
    var tasks: map<nat, Task>

    function Contents(): Db
      reads this
    {
      Db(rows, tasks)
    }

    ghost predicate Valid()
      reads this
    {
      TablesSound(Contents())
    }

    constructor ()
      ensures Valid() && Contents() == Db(map[], map[])
    {
      rows, tasks := map[], map[];
    }

    /** Nobody ever sees the task running without an obligation that awaits it; the rest is untouched. */
    method CreateSubagentTask(runId: nat, id: nat, session: nat, hasParent: bool, parent: Instance, scope: string, now: int)
      requires Valid() && runId !in tasks && id !in rows
      modifies this
      ensures Valid() && Contents() == CreateTask(old(Contents()), runId, id, session, hasParent, parent, scope, now)
      ensures IsRunning(Contents(), runId)
      ensures hasParent ==> IsObligation(rows, id, runId) && rows[id].status == Awaiting && rows[id].target == parent
      ensures forall n :: n in old(rows) ==> n in rows && rows[n] == old(rows)[n]
      ensures forall r :: r in old(tasks) ==> r in tasks && tasks[r] == old(tasks)[r]
    {
      StepKeepsTablesSound(Contents(), DoCreate(runId, id, session, hasParent, parent, scope, now));
      hide TablesSound;
      tasks := tasks[runId := Task(session, hasParent, parent, Running, "", "", "", now, None)];
      if hasParent {
        rows := rows[id := Obligation(id, runId, SubagentFinished, session, parent, scope, now)];
      }
    }

    /** Resolves the first row of this kind and run, if it is still awaiting. */
    method ResolveObligation(kind: Kind, runId: nat, ready: bool, report: Option<TaskStatus>, error: string, now: int)
      requires OnePerRun(rows, kind)
      modifies `rows
      ensures rows == ResolveAll(old(rows), kind, {runId}, ready, report, error, now)
    {
      if id :| id in rows && rows[id].kind == kind && rows[id].runId == runId {
        ResolveIsLocal(rows, kind, runId, id, ready, report, error, now);
        if rows[id].status != Awaiting {
          return;
        }
        rows := rows[id := Flipped(rows[id], ready, report, error, now)];
      }
    }

    method FinishSubagentTask(runId: nat, status: TaskStatus, result: string, error: string, now: int)
      requires Valid() && status != Running
      modifies this
      ensures Valid() && Contents() == FinishTask(old(Contents()), runId, status, result, error, now)
      ensures !IsRunning(Contents(), runId)
      ensures forall id :: IsObligation(rows, id, runId) ==> rows[id].status != Awaiting
      ensures IsRunning(old(Contents()), runId) ==> EndedAs(Contents(), runId, status, result, error)
      ensures forall r :: r in old(tasks) && (r != runId || old(tasks)[r].status != Running) ==> r in tasks && tasks[r] == old(tasks)[r]
    {
      StepKeepsTablesSound(Contents(), DoFinishTask(runId, status, result, error, now));
      TablesAreOnePerRun(Contents());
      NoneAwaits(FinishTask(Contents(), runId, status, result, error, now), runId);
      hide TablesSound;
      if runId !in tasks {
        return;
      }
      var task := tasks[runId];
      if task.status != Running {
        return;
      }
      tasks := tasks[runId := task.(status := status, result := result, error := error, progress := "",
                                    updatedAt := now, finishedAt := Some(now))];
      ResolveObligation(SubagentFinished, runId, status in {Succeeded, Broken}, Some(status), error, now);
    }

    method CancelRunningSubagentTasks(session: Option<nat>, parent: Option<Instance>, error: string, now: int)
      requires Valid()
      modifies this
      ensures Valid() && Contents() == CancelTasks(old(Contents()), RunningOf(old(Contents()), session, parent), error, now)
      ensures RunningOf(Contents(), session, parent) == {}
      ensures forall r :: r in old(tasks) ==>
                && r in tasks
                && tasks[r] == if old(tasks)[r].status == Running && (session.None? || session == Some(old(tasks)[r].session))
                                  && (parent.None? || parent == Some(old(tasks)[r].parent))
                               then StoppedTask(old(tasks)[r], error, now) else old(tasks)[r]
    {
      StepKeepsTablesSound(Contents(), DoCancelTasks(session, parent, error, now));
      TablesAreOnePerRun(Contents());
      NoneLeft(Contents(), session, parent, error, now);
      hide TablesSound, CancelTasks;
      var runs := RunningOf(Contents(), session, parent);
      StopRuns(runs, error, now);
    }

    method StopRuns(runs: set<nat>, error: string, now: int)
      requires OnePerRun(rows, SubagentFinished) && runs <= tasks.Keys
      modifies this
      ensures Contents() == CancelTasks(old(Contents()), runs, error, now)
    {
      ghost var before := Contents();
      var todo := runs;
      assert runs - todo == {} && CancelTasks(before, {}, error, now) == before;
      hide ResolveAll, OnePerRun, StoppedTask;
      while todo != {}
        invariant todo <= runs
        invariant Contents() == CancelTasks(before, runs - todo, error, now)
        decreases |todo|
      {
        var runId :| runId in todo;
        ghost var done := runs - todo;
        CancelOneMore(before, done, runId, error, now);
        tasks := tasks[runId := StoppedTask(tasks[runId], error, now)];
        ResolveKeepsOnePerRun(before.rows, done, false, None, error, now);
        ResolveObligation(SubagentFinished, runId, false, None, error, now);
        todo := todo - {runId};
        assert runs - todo == done + {runId};
      }
      assert runs - todo == runs;
    }

    method MarkStaleRunningSubagentTasksFailed(now: int)
      requires Valid()
      modifies this
      ensures Valid() && Contents() == FailTasks(old(Contents()), RunningOf(old(Contents()), None, None), now)
      ensures forall r :: r in tasks ==> tasks[r].status != Running
    {
      StepKeepsTablesSound(Contents(), DoFailStale(now));
      TablesAreOnePerRun(Contents());
      NoneStale(Contents(), now);
      hide TablesSound, FailTasks;
      var runs := RunningOf(Contents(), None, None);
      FailRuns(runs, now);
    }

    method FailRuns(runs: set<nat>, now: int)
      requires OnePerRun(rows, SubagentFinished) && runs <= tasks.Keys
      modifies this
      ensures Contents() == FailTasks(old(Contents()), runs, now)
    {
      ghost var before := Contents();
      var todo := runs;
      assert runs - todo == {} && FailTasks(before, {}, now) == before;
      hide ResolveAll, OnePerRun, StaleTask;
      while todo != {}
        invariant todo <= runs
        invariant Contents() == FailTasks(before, runs - todo, now)
        decreases |todo|
      {
        var runId :| runId in todo;
        ghost var done := runs - todo;
        FailOneMore(before, done, runId, now);
        tasks := tasks[runId := StaleTask(tasks[runId], now)];
        ResolveKeepsOnePerRun(before.rows, done, true, Some(Broken), RESTART_ERROR, now);
        ResolveObligation(SubagentFinished, runId, true, Some(Broken), RESTART_ERROR, now);
        todo := todo - {runId};
        assert runs - todo == done + {runId};
      }
      assert runs - todo == runs;
    }

    /** The message can be claimed at once, before any finished background work, and an interrupt spares it. */
    method EnqueueUserMessage(id: nat, session: nat, target: Instance, text: string, runId: nat, scope: string, now: int)
      requires Valid() && id !in rows
      modifies `rows
      ensures Valid() && Contents() == Enqueue(old(Contents()), id, session, target, text, runId, scope, now)
      ensures Claimable(rows[id], session, Some(target)) && !InterruptHits(rows[id], session)
      ensures forall n :: n in rows && rows[n].kind != UserMessage ==> !Precedes(rows[n], rows[id])
    {
      StepKeepsTablesSound(Contents(), DoEnqueue(id, session, target, text, runId, scope, now));
      assert PrioritiesByKind(rows);
      hide TablesSound, Protocol;
      rows := rows[id := Notification(session, target, UserMessage, Pending, USER_MESSAGE_PRIORITY, runId,
                                      Content(text), scope, "", now, now, None, None)];
    }

    /** Claims the first of the claimable rows in the order of the query; none exactly when there is none. */
    method ClaimNextPending(session: nat, target: Option<Instance>, now: int) returns (claimed: Option<nat>)
      requires Valid()
      modifies `rows
      ensures Valid()
      ensures match claimed
              case None => Contents() == old(Contents()) && forall n :: n in rows ==> !Claimable(rows[n], session, target)
              case Some(id) => IsNext(old(rows), session, target, id) && Contents() == Claim(old(Contents()), id, now)
      ensures claimed.Some? <==> exists n :: n in old(rows) && old(rows)[n].status == Pending && old(rows)[n].session == session
                                             && (if target.Some? then old(rows)[n].target == target.value else old(rows)[n].target.MainAgent?)
    {
      hide TablesSound;
      claimed := None;
      var todo := rows.Keys;
      while todo != {}
        invariant todo <= rows.Keys && rows == old(rows)
        invariant claimed.Some? ==> claimed.value in rows && Claimable(rows[claimed.value], session, target)
        invariant forall n :: n in rows.Keys - todo && Claimable(rows[n], session, target) ==>
                    claimed.Some? && Precedes(rows[claimed.value], rows[n])
        decreases |todo|
      {
        var id :| id in todo;
        todo := todo - {id};
        if Claimable(rows[id], session, target) {
          if claimed.None? || !Precedes(rows[claimed.value], rows[id]) {
            claimed := Some(id);
          }
        }
      }
      if claimed.Some? {
        StepKeepsTablesSound(Contents(), DoClaim(claimed.value, session, target, now));
        rows := rows[claimed.value := rows[claimed.value].(status := Processing, startedAt := Some(now), updatedAt := now)];
      }
    }

    /** A claimed item is over; anything else, terminal items above all, stays as it is. */
    method FinishNotification(id: nat, status: Status, error: string, now: int)
      requires Valid() && status in {Completed, Failed} && (status == Completed ==> error == "")
      modifies `rows
      ensures Valid() && Contents() == Finish(old(Contents()), id, status, error, now)
      ensures id in rows ==> rows[id].status != Processing && (old(rows)[id].status == Processing ==> Terminal(rows[id]))
      ensures id in old(rows) && old(rows)[id].status == Processing ==>
                id in rows && rows[id].status == status && rows[id].error == error && rows[id].finishedAt == Some(now)
      ensures forall n :: n in rows && (n != id || Terminal(old(rows)[n])) ==> rows[n] == old(rows)[n]
    {
      StepKeepsTablesSound(Contents(), if status == Completed then DoComplete(id, now) else DoFail(id, error, now));
      hide TablesSound;
      if id !in rows || Terminal(rows[id]) {
        return;
      }
      if rows[id].status == Processing {
        rows := rows[id := rows[id].(status := status, error := error, updatedAt := now, finishedAt := Some(now))];
      }
    }

    /** A claimed item can be claimed again, and an interrupt will not take it for a fresh one. */
    method ReleaseNotification(id: nat, now: int)
      requires Valid()
      modifies `rows
      ensures Valid() && Contents() == Release(old(Contents()), id, now)
      ensures id in rows && old(rows)[id].status == Processing ==>
                && Claimable(rows[id], rows[id].session, Some(rows[id].target))
                && (rows[id].startedAt.Some? && rows[id].target.MainAgent? ==> InterruptHits(rows[id], rows[id].session))
                && rows[id].startedAt == old(rows)[id].startedAt
      ensures forall n :: n in rows && (n != id || Terminal(old(rows)[n])) ==> rows[n] == old(rows)[n]
    {
      StepKeepsTablesSound(Contents(), DoRelease(id, now));
      hide TablesSound;
      if id !in rows || rows[id].status != Processing {
        return;
      }
      rows := rows[id := rows[id].(status := Pending, error := "", updatedAt := now)];
    }

    method CancelRows(hit: set<nat>, error: string, now: int)
      requires hit <= rows.Keys
      modifies `rows
      ensures rows == CanceledRows(old(rows), hit, error, now)
    {
      var todo := hit;
      while todo != {}
        invariant todo <= hit && rows.Keys == old(rows).Keys
        invariant forall n :: n in rows ==>
                    rows[n] == if n in hit - todo then CanceledRow(old(rows)[n], error, now) else old(rows)[n]
        decreases |todo|
      {
        var id :| id in todo;
        todo := todo - {id};
        rows := rows[id := rows[id].(status := Canceled, error := error, updatedAt := now, finishedAt := Some(now))];
      }
    }

    method CancelSessionNotifications(session: nat, target: Option<Instance>, error: string, now: int)
      requires Valid()
      modifies `rows
      ensures Valid() && Contents() == CancelSession(old(Contents()), session, target, error, now)
      ensures forall n :: n in rows ==> !CancelHits(rows[n], session, target)
      ensures rows.Keys == old(rows).Keys && forall n :: n in rows ==>
                CanceledExactly(old(rows)[n], rows[n], old(rows)[n].session == session && Outstanding(old(rows)[n])
                                                       && (target.None? || target == Some(old(rows)[n].target)))
    {
      StepKeepsTablesSound(Contents(), DoCancelSession(session, target, error, now));
      SessionCanceled(Contents(), session, target, error, now);
      hide TablesSound, CancelSession, CancelHits, CanceledRows;
      var hit := set n | n in rows && CancelHits(rows[n], session, target);
      CancelRows(hit, error, now);
    }

    method CancelMainAgentInterrupted(session: nat, error: string, now: int)
      requires Valid()
      modifies `rows
      ensures Valid() && Contents() == CancelInterrupted(old(Contents()), session, error, now)
      ensures forall n :: n in rows ==> !InterruptHits(rows[n], session)
    {
      StepKeepsTablesSound(Contents(), DoInterrupt(session, error, now));
      InterruptedCanceled(Contents(), session, error, now);
      hide TablesSound, CancelInterrupted, InterruptHits, CanceledRows;
      var hit := set n | n in rows && InterruptHits(rows[n], session);
      CancelRows(hit, error, now);
    }

    method ResetProcessingAll(now: int)
      requires Valid()
      modifies `rows
      ensures Valid() && Contents() == ResetProcessing(old(Contents()), now)
      ensures forall n :: n in rows ==> rows[n].status != Processing
    {
      StepKeepsTablesSound(Contents(), DoReset(now));
      ProcessingReset(Contents(), now);
      hide TablesSound, ResetProcessing, RowsReset;
      var hit := set n | n in rows && rows[n].status == Processing;
      ResetRows(hit, now);
    }

    method ResetRows(hit: set<nat>, now: int)
      requires hit <= rows.Keys
      modifies `rows
      ensures rows == RowsReset(old(rows), hit, now)
    {
      var todo := hit;
      while todo != {}
        invariant todo <= hit && rows.Keys == old(rows).Keys
        invariant forall n :: n in rows ==> rows[n] == if n in hit - todo then ResetRow(old(rows)[n], now) else old(rows)[n]
        decreases |todo|
      {
        var id :| id in todo;
        todo := todo - {id};
        rows := rows[id := rows[id].(status := Pending, error := "", startedAt := None, updatedAt := now)];
      }
    }
  }

  /** The row is canceled if `hit`, and otherwise it stays as it is. */
  predicate CanceledExactly(before: Notification, after: Notification, hit: bool) {
    if hit then
      after.status == Canceled && after == before.(status := Canceled, error := after.error, updatedAt := after.updatedAt,
                                                   finishedAt := after.finishedAt)
    else after == before
  }

  lemma SessionCanceled(db: Db, session: nat, target: Option<Instance>, error: string, now: int)
    ensures var after := CancelSession(db, session, target, error, now);
            && after.rows == CanceledRows(db.rows, (set n | n in db.rows && CancelHits(db.rows[n], session, target)), error, now)
            && after.tasks == db.tasks
            && (forall n :: n in after.rows ==> !CancelHits(after.rows[n], session, target))
            && after.rows.Keys == db.rows.Keys && forall n :: n in db.rows ==>
                 CanceledExactly(db.rows[n], after.rows[n], db.rows[n].session == session && Outstanding(db.rows[n])
                                                            && (target.None? || target == Some(db.rows[n].target)))
  {
  }

  lemma InterruptedCanceled(db: Db, session: nat, error: string, now: int)
    ensures var after := CancelInterrupted(db, session, error, now);
            && after.rows == CanceledRows(db.rows, (set n | n in db.rows && InterruptHits(db.rows[n], session)), error, now)
            && after.tasks == db.tasks
            && forall n :: n in after.rows ==> !InterruptHits(after.rows[n], session)
  {
  }

  lemma ProcessingReset(db: Db, now: int)
    ensures var after := ResetProcessing(db, now);
            && after.rows == RowsReset(db.rows, (set n | n in db.rows && db.rows[n].status == Processing), now)
            && after.tasks == db.tasks
            && forall n :: n in after.rows ==> after.rows[n].status != Processing
  {
  }

  lemma NoneAwaits(db: Db, runId: nat)
    requires TablesSound(db) && !IsRunning(db, runId)
    ensures forall id :: IsObligation(db.rows, id, runId) ==> db.rows[id].status != Awaiting
  {
    assert WellOwned(db) && Synchronised(db);
    hide Protocol;
  }

  lemma NoneLeft(db: Db, session: Option<nat>, parent: Option<Instance>, error: string, now: int)
    ensures var after := CancelTasks(db, RunningOf(db, session, parent), error, now);
            && RunningOf(after, session, parent) == {}
            && forall r :: r in db.tasks ==>
                 && r in after.tasks
                 && after.tasks[r] == if db.tasks[r].status == Running && (session.None? || session == Some(db.tasks[r].session))
                                         && (parent.None? || parent == Some(db.tasks[r].parent))
                                      then StoppedTask(db.tasks[r], error, now) else db.tasks[r]
  {
    hide ResolveAll;
  }

  lemma NoneStale(db: Db, now: int)
    ensures var after := FailTasks(db, RunningOf(db, None, None), now);
            forall r :: r in after.tasks ==> after.tasks[r].status != Running
  {
    hide ResolveAll;
  }
}
