/** The single driver of a session's main agent and its relaunch (core/runtime/session.py). */
module MainDriver {
  import opened Notifications
  import opened Options

  /**
   * Where a drive task stands. `Queued` has not got the turn lock yet; `Leaving` has given up being the current task
   * and only winds down. A cancelled drive stays the current task until it is over: `Discarded` if it was queued,
   * `Unwinding` otherwise.
   */
  datatype Place = Queued | Draining | Drained | Reconciling | Exhausting | Leaving | Discarded | Unwinding

  datatype Drive = Drive(place: Place, attempt: nat)

  /** Who holds the start lock, and how far they are. */
  datatype Lock =
    | Free
    | ReconcileBy(task: nat)
    | Enqueueing
    | Enqueued
    | Recovering
    | Launching

  /**
   * `kicks` counts resume calls owed or under way. `excused` are the items that a user interrupt left for the next
   * launch: those that were ready or claimed when the cancelled drive was over, and a message whose queueing it overtook.
   */
  datatype Session = Session(
    db: Db, current: Option<nat>, drives: map<nat, Drive>, lock: Lock, kicks: nat, excused: set<nat>)

  /** The session and the main-agent instance whose driver this is. */
  datatype Identity = Identity(session: nat, me: Instance)

  const MAX_DRIVER_RELAUNCH := 5

  predicate Mine(n: Notification, self: Identity) {
    n.session == self.session && n.target == self.me
  }

  predicate HasWork(db: Db, self: Identity) {
    exists id :: id in db.rows && Mine(db.rows[id], self) && db.rows[id].status == Pending
  }

  predicate HasMainWork(db: Db, self: Identity) {
    exists id :: id in db.rows && db.rows[id].session == self.session && db.rows[id].target.MainAgent?
                 && db.rows[id].status == Pending
  }

  predicate HoldsTurn(d: Drive) {
    d.place !in {Queued, Discarded}
  }

  predicate TurnFree(s: Session) {
    forall t :: t in s.drives ==> !HoldsTurn(s.drives[t])
  }

  predicate IsRunning(s: Session) {
    s.current.Some? && s.current.value in s.drives
  }

  // ----- Transactions that make nothing pending for this instance -----

  predicate Quiet(s: Session, self: Identity, step: Step) {
    match step
    case DoEnqueue(_, _, target, _, _, _, _) => target != self.me
    case DoRelease(id, _) => id in s.db.rows && s.db.rows[id].target != self.me
    case DoFinishTask(_, _, _, _, _) => false
    case DoResolveJob(_, _, _, _) => false
    case DoFailStale(_) => false
    case DoReset(_) => false
    case _ => true
  }

  datatype Happening =
    | Transaction(step: Step)
    | UserArrives
    | EnqueueCommits(message: Step)
    | EnqueueReturns
    | KickArrives
    | KickReturnsEarly
    | DropKick
    | RecoveryCut
    | RecoveryLooks
    | Launch(task: nat)
    | Begin(task: nat)
    | DrainEnds(task: nat)
    | DriveFails(task: nat)
    | TakeLock(task: nat)
    | Reconcile(task: nat, successor: nat)
    | Exhaust(task: nat, now: int)
    | Leave(task: nat)
    | Interrupt(task: nat)
    | HandBack(task: nat, step: Step)
    | Unwound(task: nat)
    | ChildEnds(runId: nat, status: TaskStatus, result: string, error: string, now: int)
    | JobEnds(id: nat, ready: bool, error: string, now: int)

  predicate At(s: Session, t: nat, place: Place) {
    t in s.drives && s.drives[t].place == place
  }

  predicate Enabled(s: Session, self: Identity, h: Happening) {
    match h
    case Transaction(step) => Allowed(s.db, step) && Quiet(s, self, step)
    case UserArrives => s.lock == Free
    case EnqueueCommits(message) =>
      s.lock == Enqueueing && message.DoEnqueue? && Allowed(s.db, message)
      && message.session == self.session && message.target == self.me
    case EnqueueReturns => s.lock == Enqueued
    case KickArrives => s.lock == Free && s.kicks > 0
    case KickReturnsEarly => s.kicks > 0 && !HasMainWork(s.db, self)
    case DropKick => s.kicks > 0
    case RecoveryCut => s.lock in {Recovering, Launching}
    case RecoveryLooks => s.lock == Recovering
    case Launch(t) => s.lock == Launching && t !in s.drives
    case Begin(t) => At(s, t, Queued) && TurnFree(s)
    case DrainEnds(t) => At(s, t, Draining) && !HasWork(s.db, self)
    case DriveFails(t) => At(s, t, Draining)
    case TakeLock(t) => At(s, t, Drained) && s.lock == Free
    case Reconcile(t, u) => At(s, t, Reconciling) && s.lock == ReconcileBy(t) && u !in s.drives
    case Exhaust(t, _) => At(s, t, Exhausting) && s.lock == ReconcileBy(t)
    case Leave(t) => At(s, t, Leaving)
    case Interrupt(t) => s.current == Some(t) && t in s.drives
    case HandBack(t, step) => At(s, t, Unwinding) && step.DoRelease? && step.id in s.db.rows && Mine(s.db.rows[step.id], self)
    case Unwound(t) => At(s, t, Unwinding) || At(s, t, Discarded)
    case ChildEnds(_, status, _, _, _) => status != Running
    case JobEnds(id, _, _, _) =>
      id in s.db.rows && s.db.rows[id].kind == SandboxJob
      && forall n :: n in s.db.rows && Owes(s.db.rows[n], SandboxJob, {s.db.rows[id].runId}) ==> n == id
  }

  /** The instance's items that are ready or claimed. */
  function UnderWay(db: Db, self: Identity): set<nat> {
    set id | id in db.rows && Mine(db.rows[id], self) && db.rows[id].status in {Pending, Processing}
  }

  function Move(s: Session, t: nat, place: Place): Session
    requires t in s.drives
  {
    s.(drives := s.drives[t := s.drives[t].(place := place)])
  }

  /** The task stops being the current one. */
  function StepDown(s: Session, t: nat): Session
    requires t in s.drives
  {
    Move(s, t, Leaving).(current := if s.current == Some(t) then None else s.current, lock := Free)
  }

  function Woken(s: Session, self: Identity, target: Instance): Session {
    if target == self.me then s.(kicks := s.kicks + 1) else s
  }

  function After(s: Session, self: Identity, h: Happening): Session
    requires Enabled(s, self, h)
  {
    match h
    case Transaction(step) => s.(db := Next(s.db, step))
    case UserArrives => s.(lock := if IsRunning(s) then Enqueueing else Launching)
    case EnqueueCommits(message) =>
      s.(db := Next(s.db, message), lock := Enqueued, excused := if IsRunning(s) then s.excused else s.excused + {message.id})
    case EnqueueReturns => s.(lock := Free)
    case KickArrives => s.(kicks := s.kicks - 1, lock := if IsRunning(s) then Free else Recovering)
    case KickReturnsEarly => s.(kicks := s.kicks - 1)
    case DropKick => s.(kicks := s.kicks - 1)
    case RecoveryCut => s.(lock := Free)
    case RecoveryLooks => s.(lock := if HasMainWork(s.db, self) then Launching else Free)
    case Launch(t) =>
      s.(drives := s.drives[t := Drive(Queued, 0)], current := Some(t), lock := Free, excused := {})
    case Begin(t) => Move(s, t, Draining).(current := Some(t))
    case DrainEnds(t) => Move(s, t, Drained)
    case DriveFails(t) => Move(s, t, Drained)
    case TakeLock(t) => Move(s, t, Reconciling).(lock := ReconcileBy(t))
    case Reconcile(t, u) =>
      if !HasWork(s.db, self) then StepDown(s, t)
      else if s.drives[t].attempt >= MAX_DRIVER_RELAUNCH then Move(s, t, Exhausting)
      else s.(drives := (s.drives - {t})[u := Drive(Queued, s.drives[t].attempt + 1)], current := Some(u), lock := Free)
    case Exhaust(t, now) =>
      StepDown(s, t).(db := CancelSession(s.db, self.session, None, "Agent driver could not make progress.", now))
    case Leave(t) => s.(drives := s.drives - {t})
    case Interrupt(t) => Move(s, t, if s.drives[t].place in {Queued, Discarded} then Discarded else Unwinding)
    case HandBack(_, step) => s.(db := Next(s.db, step))
    case Unwound(t) =>
      s.(drives := s.drives - {t}, current := if s.current == Some(t) then None else s.current,
         lock := if s.lock == ReconcileBy(t) then Free else s.lock, excused := s.excused + UnderWay(s.db, self))
    case ChildEnds(r, status, result, error, now) =>
      var ended := s.(db := FinishTask(s.db, r, status, result, error, now));
      if r in s.db.tasks then Woken(ended, self, s.db.tasks[r].parent) else ended
    case JobEnds(id, ready, error, now) =>
      Woken(s.(db := Next(s.db, DoResolveJob(s.db.rows[id].runId, ready, error, now))), self, s.db.rows[id].target)
  }

  // ----- Invariant -----

  /** Everything but winding down is done by the current task, and at most one task holds the turn lock. */
  ghost predicate OneDriver(s: Session) {
    && (forall t :: t in s.drives && s.drives[t].place != Leaving ==> s.current == Some(t))
    && (forall t :: t in s.drives && s.drives[t].place == Leaving ==> s.current != Some(t))
    && (forall t, u :: t in s.drives && u in s.drives && HoldsTurn(s.drives[t]) && HoldsTurn(s.drives[u]) ==> t == u)
  }

  /** A drive has been relaunched at most five times in a row, and exactly five times when it gives up. */
  ghost predicate BudgetKept(s: Session) {
    forall t :: t in s.drives ==>
      s.drives[t].attempt <= MAX_DRIVER_RELAUNCH && (s.drives[t].place == Exhausting ==> s.drives[t].attempt == MAX_DRIVER_RELAUNCH)
  }

  ghost predicate LockHeldProperly(s: Session) {
    && (forall t :: t in s.drives && s.drives[t].place in {Reconciling, Exhausting} ==> s.lock == ReconcileBy(t))
    && (forall t :: t in s.drives && s.lock == ReconcileBy(t) ==> s.drives[t].place in {Reconciling, Exhausting, Unwinding})
    && (s.lock in {Recovering, Launching} ==> !IsRunning(s))
  }

  ghost predicate Sound(s: Session) {
    Protocol(s.db) && OneDriver(s) && BudgetKept(s) && LockHeldProperly(s)
  }

  // ----- What transactions make pending -----

  /** Work of the instance that no interrupt left behind. */
  predicate HasFreshWork(s: Session, self: Identity) {
    exists id :: id in s.db.rows && Mine(s.db.rows[id], self) && s.db.rows[id].status == Pending && id !in s.excused
  }

  lemma QuietRow(s: Session, self: Identity, step: Step, id: nat)
    requires Allowed(s.db, step) && Quiet(s, self, step) && id !in s.excused
    requires id in Next(s.db, step).rows && Mine(Next(s.db, step).rows[id], self) && Next(s.db, step).rows[id].status == Pending
    ensures id in s.db.rows && Mine(s.db.rows[id], self) && s.db.rows[id].status == Pending
  {
    hide IsNext;
  }

  lemma QuietMakesNoWork(s: Session, self: Identity, step: Step)
    requires Allowed(s.db, step) && Quiet(s, self, step)
    ensures HasFreshWork(s.(db := Next(s.db, step)), self) ==> HasFreshWork(s, self)
  {
    var after := s.(db := Next(s.db, step));
    if HasFreshWork(after, self) {
      var id :| id in after.db.rows && Mine(after.db.rows[id], self) && after.db.rows[id].status == Pending && id !in s.excused;
      QuietRow(s, self, step, id);
    }
  }

  /** Ending a task makes work pending for its parent instance only. */
  lemma ChildMakesParentWork(s: Session, self: Identity, run: nat, status: TaskStatus, result: string, error: string, now: int)
    requires WellOwned(s.db) && status != Running
    ensures HasFreshWork(s.(db := FinishTask(s.db, run, status, result, error, now)), self) ==>
              HasFreshWork(s, self) || (run in s.db.tasks && s.db.tasks[run].parent == self.me)
  {
    var db, after := s.db, FinishTask(s.db, run, status, result, error, now);
    if HasFreshWork(s.(db := after), self) {
      var id :| id in after.rows && Mine(after.rows[id], self) && after.rows[id].status == Pending && id !in s.excused;
      assert id in db.rows && Mine(db.rows[id], self);
      assert db.rows[id].status == Pending || IsObligation(db.rows, id, run);
    }
  }

  lemma JobMakesOwnerWork(s: Session, self: Identity, id: nat, ready: bool, error: string, now: int)
    requires id in s.db.rows
    requires forall n :: n in s.db.rows && Owes(s.db.rows[n], SandboxJob, {s.db.rows[id].runId}) ==> n == id
    ensures HasFreshWork(s.(db := Next(s.db, DoResolveJob(s.db.rows[id].runId, ready, error, now))), self) ==>
              HasFreshWork(s, self) || s.db.rows[id].target == self.me
  {
    var db, after := s.db, Next(s.db, DoResolveJob(s.db.rows[id].runId, ready, error, now));
    if HasFreshWork(s.(db := after), self) {
      var n :| n in after.rows && Mine(after.rows[n], self) && after.rows[n].status == Pending && n !in s.excused;
      assert n in db.rows && Mine(db.rows[n], self) && (db.rows[n].status == Pending || n == id);
    }
  }

  /** Giving up cancels everything the session still had outstanding. */
  lemma ExhaustLeavesNoWork(db: Db, self: Identity, error: string, now: int)
    ensures var after := CancelSession(db, self.session, None, error, now);
            !HasWork(after, self) && forall id :: id in after.rows && after.rows[id].session == self.session ==> !Outstanding(after.rows[id])
  {
  }

  lemma FreshWorkIsWork(s: Session, self: Identity)
    ensures HasFreshWork(s, self) ==> HasWork(s.db, self)
    ensures self.me.MainAgent? && HasWork(s.db, self) ==> HasMainWork(s.db, self)
  {
    if HasFreshWork(s, self) {
      var id :| id in s.db.rows && Mine(s.db.rows[id], self) && s.db.rows[id].status == Pending && id !in s.excused;
    }
    if self.me.MainAgent? && HasWork(s.db, self) {
      var id :| id in s.db.rows && Mine(s.db.rows[id], self) && s.db.rows[id].status == Pending;
      assert s.db.rows[id].target.MainAgent?;
    }
  }

  // ----- Every step keeps the invariant -----

  /** The transaction of a step, if it has one. */
  function TransactionOf(s: Session, self: Identity, h: Happening): Option<Step>
    requires Enabled(s, self, h)
  {
    match h
    case Transaction(step) => Some(step)
    case EnqueueCommits(message) => Some(message)
    case HandBack(_, step) => Some(step)
    case Exhaust(_, now) => Some(DoCancelSession(self.session, None, "Agent driver could not make progress.", now))
    case ChildEnds(r, status, result, error, now) => Some(DoFinishTask(r, status, result, error, now))
    case JobEnds(id, ready, error, now) => Some(DoResolveJob(s.db.rows[id].runId, ready, error, now))
    case _ => None
  }

  lemma StepKeepsTables(s: Session, self: Identity, h: Happening)
    requires Enabled(s, self, h) && Protocol(s.db)
    ensures Protocol(After(s, self, h).db)
  {
    TransactionIsTaken(s, self, h);
    hide Enabled, After, Protocol, Allowed, Next;
    if TransactionOf(s, self, h).Some? { StepKeepsProtocol(s.db, TransactionOf(s, self, h).value); }
  }

  lemma TransactionIsTaken(s: Session, self: Identity, h: Happening)
    requires Enabled(s, self, h)
    ensures match TransactionOf(s, self, h)
            case None => After(s, self, h).db == s.db
            case Some(step) => Allowed(s.db, step) && After(s, self, h).db == Next(s.db, step)
  {
    hide HasWork, HasMainWork, FinishTask, CancelSession;
  }

  /** The books about tasks and locks. */
  ghost predicate Orderly(s: Session) {
    OneDriver(s) && BudgetKept(s) && LockHeldProperly(s)
  }

  lemma SameBooks(s: Session, next: Session)
    requires Orderly(s) && next.drives == s.drives && next.current == s.current && next.lock == s.lock
    ensures Orderly(next)
  {
  }

  lemma LockMoves(s: Session, lock: Lock)
    requires Orderly(s) && !s.lock.ReconcileBy? && !lock.ReconcileBy? && (lock in {Recovering, Launching} ==> !IsRunning(s))
    ensures Orderly(s.(lock := lock))
  {
  }

  lemma LaunchIsOrderly(s: Session, self: Identity, t: nat)
    requires Orderly(s) && Enabled(s, self, Launch(t))
    ensures Orderly(After(s, self, Launch(t)))
  {
    hide HasWork, HasMainWork, CancelSession, UnderWay;
  }

  lemma BeginIsOrderly(s: Session, self: Identity, t: nat)
    requires Orderly(s) && Enabled(s, self, Begin(t))
    ensures Orderly(After(s, self, Begin(t)))
  {
    hide HasWork, HasMainWork, CancelSession, UnderWay;
  }

  lemma DrainEndsIsOrderly(s: Session, self: Identity, t: nat)
    requires Orderly(s) && Enabled(s, self, DrainEnds(t))
    ensures Orderly(After(s, self, DrainEnds(t)))
  {
    hide HasWork, HasMainWork, CancelSession, UnderWay;
  }

  lemma DriveFailsIsOrderly(s: Session, self: Identity, t: nat)
    requires Orderly(s) && Enabled(s, self, DriveFails(t))
    ensures Orderly(After(s, self, DriveFails(t)))
  {
    hide HasWork, HasMainWork, CancelSession, UnderWay;
  }

  lemma TakeLockIsOrderly(s: Session, self: Identity, t: nat)
    requires Orderly(s) && Enabled(s, self, TakeLock(t))
    ensures Orderly(After(s, self, TakeLock(t)))
  {
    hide HasWork, HasMainWork, CancelSession, UnderWay;
  }

  lemma LeaveIsOrderly(s: Session, self: Identity, t: nat)
    requires Orderly(s) && Enabled(s, self, Leave(t))
    ensures Orderly(After(s, self, Leave(t)))
  {
    hide HasWork, HasMainWork, CancelSession, UnderWay;
  }

  lemma InterruptIsOrderly(s: Session, self: Identity, t: nat)
    requires Orderly(s) && Enabled(s, self, Interrupt(t))
    ensures Orderly(After(s, self, Interrupt(t)))
  {
    hide HasWork, HasMainWork, CancelSession, UnderWay;
  }

  lemma UnwoundIsOrderly(s: Session, self: Identity, t: nat)
    requires Orderly(s) && Enabled(s, self, Unwound(t))
    ensures Orderly(After(s, self, Unwound(t)))
  {
    hide HasWork, HasMainWork, CancelSession, UnderWay;
  }

  lemma ReconcileIsOrderly(s: Session, self: Identity, t: nat, u: nat)
    requires Orderly(s) && Enabled(s, self, Reconcile(t, u))
    ensures Orderly(After(s, self, Reconcile(t, u)))
  {
    hide HasWork, HasMainWork, CancelSession, UnderWay;
  }

  lemma ExhaustIsOrderly(s: Session, self: Identity, t: nat, now: int)
    requires Orderly(s) && Enabled(s, self, Exhaust(t, now))
    ensures Orderly(After(s, self, Exhaust(t, now)))
  {
    hide HasWork, HasMainWork, CancelSession, UnderWay;
  }

  lemma StepIsOrderly(s: Session, self: Identity, h: Happening)
    requires Orderly(s) && Enabled(s, self, h)
    ensures Orderly(After(s, self, h))
  {
    hide Orderly, HasWork, HasMainWork, Next, FinishTask, CancelSession, Allowed, Quiet;
    match h {
      case Transaction(_) => SameBooks(s, After(s, self, h));
      case ChildEnds(_, _, _, _, _) => SameBooks(s, After(s, self, h));
      case JobEnds(_, _, _, _) => SameBooks(s, After(s, self, h));
      case KickReturnsEarly => SameBooks(s, After(s, self, h));
      case DropKick => SameBooks(s, After(s, self, h));
      case UserArrives => LockMoves(s, After(s, self, h).lock);
      case EnqueueCommits(_) =>
        LockMoves(s, Enqueued);
        SameBooks(s.(lock := Enqueued), After(s, self, h));
      case EnqueueReturns => LockMoves(s, Free);
      case KickArrives =>
        LockMoves(s, After(s, self, h).lock);
        SameBooks(s.(lock := After(s, self, h).lock), After(s, self, h));
      case RecoveryCut => LockMoves(s, Free);
      case RecoveryLooks =>
        NotRunning(s);
        LockMoves(s, After(s, self, h).lock);
      case Launch(t) => LaunchIsOrderly(s, self, t);
      case Begin(t) => BeginIsOrderly(s, self, t);
      case DrainEnds(t) => DrainEndsIsOrderly(s, self, t);
      case DriveFails(t) => DriveFailsIsOrderly(s, self, t);
      case TakeLock(t) => TakeLockIsOrderly(s, self, t);
      case Reconcile(t, u) => ReconcileIsOrderly(s, self, t, u);
      case Exhaust(t, now) => ExhaustIsOrderly(s, self, t, now);
      case Leave(t) => LeaveIsOrderly(s, self, t);
      case Interrupt(t) => InterruptIsOrderly(s, self, t);
      case HandBack(_, _) => SameBooks(s, After(s, self, h));
      case Unwound(t) => UnwoundIsOrderly(s, self, t);
    }
  }

  lemma NotRunning(s: Session)
    requires Orderly(s) && s.lock in {Recovering, Launching}
    ensures !IsRunning(s)
  {
  }

  lemma StepIsSound(s: Session, self: Identity, h: Happening)
    requires Sound(s) && Enabled(s, self, h)
    ensures Sound(After(s, self, h))
  {
    StepKeepsTables(s, self, h);
    assert Orderly(s);
    StepIsOrderly(s, self, h);
    hide Enabled, After, Protocol, OneDriver, BudgetKept, LockHeldProperly;
  }

  // ----- Wake-up calls -----

  /** A driver is alive, a resume call is under way or owed, or a launch is being prepared. */
  predicate Attended(s: Session) {
    IsRunning(s) || s.kicks > 0 || s.lock in {Recovering, Launching}
  }

  predicate Noticed(s: Session, self: Identity) {
    HasFreshWork(s, self) ==> Attended(s)
  }

  /** The step cuts the last resume call, or the recovery it had become, while no driver runs and work is waiting. */
  predicate StrikesLastCall(s: Session, self: Identity, h: Happening) {
    && HasFreshWork(s, self) && !IsRunning(s)
    && match h
       case DropKick => s.kicks == 1 && s.lock !in {Recovering, Launching}
       case RecoveryCut => s.kicks == 0
       case _ => false
  }

  /** What a step leaves of the attention there was. */
  lemma AttentionKept(s: Session, self: Identity, h: Happening)
    requires Sound(s) && Enabled(s, self, h) && Attended(s)
    ensures var a := After(s, self, h);
            || Attended(a)
            || h.Unwound? || h.Exhaust? || h.DropKick? || h.RecoveryCut?
            || ((h.RecoveryLooks? || h.KickReturnsEarly?) && !HasMainWork(s.db, self) && a.db == s.db && a.excused == s.excused)
            || (h.Reconcile? && !HasWork(s.db, self) && a.db == s.db && a.excused == s.excused)
  {
    hide HasWork, HasMainWork, Protocol, Next, FinishTask, CancelSession, Allowed, Quiet, UnderWay;
  }

  lemma InterruptExcuses(s: Session, self: Identity, t: nat)
    requires Enabled(s, self, Unwound(t))
    ensures !HasFreshWork(After(s, self, Unwound(t)), self)
  {
  }

  lemma EnqueueIsAttended(s: Session, self: Identity, message: Step)
    requires Enabled(s, self, EnqueueCommits(message))
    ensures var a := After(s, self, EnqueueCommits(message));
            IsRunning(a) || (HasFreshWork(a, self) ==> HasFreshWork(s, self))
  {
    var a := After(s, self, EnqueueCommits(message));
    if HasFreshWork(a, self) && !IsRunning(s) {
      var id :| id in a.db.rows && Mine(a.db.rows[id], self) && a.db.rows[id].status == Pending && id !in a.excused;
      assert id != message.id && id in s.db.rows && s.db.rows[id] == a.db.rows[id];
    }
  }

  /** Fresh work arises only where somebody attends to it. */
  lemma FreshWorkIsAttended(s: Session, self: Identity, h: Happening)
    requires Sound(s) && Enabled(s, self, h) && !h.Launch?
    ensures HasFreshWork(After(s, self, h), self) ==> HasFreshWork(s, self) || Attended(After(s, self, h))
  {
    assert WellOwned(s.db);
    match h {
      case Transaction(step) => QuietMakesNoWork(s, self, step);
      case EnqueueCommits(message) => EnqueueIsAttended(s, self, message);
      case ChildEnds(r, status, result, error, now) => ChildMakesParentWork(s, self, r, status, result, error, now);
      case JobEnds(id, ready, error, now) => JobMakesOwnerWork(s, self, id, ready, error, now);
      case Exhaust(_, now) =>
        ExhaustLeavesNoWork(s.db, self, "Agent driver could not make progress.", now);
        FreshWorkIsWork(After(s, self, h), self);
      case Unwound(t) => InterruptExcuses(s, self, t);
      case HandBack(_, _) => UnwindingIsCurrent(s, self, h);
      case _ =>
        TransactionIsTaken(s, self, h);
        SameWork(s, self, h);
    }
  }

  lemma UnwindingIsCurrent(s: Session, self: Identity, h: Happening)
    requires Sound(s) && Enabled(s, self, h) && h.HandBack?
    ensures Attended(After(s, self, h))
  {
    assert After(s, self, h).drives == s.drives && After(s, self, h).current == s.current;
    hide After, Protocol;
  }

  lemma SameWork(s: Session, self: Identity, h: Happening)
    requires Enabled(s, self, h) && TransactionOf(s, self, h).None? && !h.Launch? && !h.Unwound?
    ensures HasFreshWork(After(s, self, h), self) ==> HasFreshWork(s, self)
  {
    TransactionIsTaken(s, self, h);
    assert After(s, self, h).excused == s.excused by { hide HasWork, HasMainWork; }
    hide After, Enabled;
  }

  lemma StepNoticed(s: Session, self: Identity, h: Happening)
    requires self.me.MainAgent? && Sound(s) && Enabled(s, self, h) && Noticed(s, self) && !StrikesLastCall(s, self, h)
    ensures Noticed(After(s, self, h), self)
  {
    var a := After(s, self, h);
    if h.Launch? {
      assert IsRunning(a);
    } else if h.Unwound? {
      InterruptExcuses(s, self, h.task);
    } else if h.Exhaust? {
      ExhaustLeavesNoWork(s.db, self, "Agent driver could not make progress.", h.now);
      FreshWorkIsWork(a, self);
    } else if HasFreshWork(a, self) && !Attended(a) {
      FreshWorkIsAttended(s, self, h);
      AttentionKept(s, self, h);
      FreshWorkIsWork(s, self);
      CutUnnoticed(s, self, h);
    }
  }

  lemma CutUnnoticed(s: Session, self: Identity, h: Happening)
    requires Enabled(s, self, h) && Attended(s) && !Attended(After(s, self, h)) && HasFreshWork(s, self)
    requires h.DropKick? || h.RecoveryCut?
    ensures StrikesLastCall(s, self, h)
  {
    hide HasFreshWork;
  }

  lemma StruckIsMissed(s: Session, self: Identity, h: Happening)
    requires Enabled(s, self, h) && StrikesLastCall(s, self, h)
    ensures !Noticed(After(s, self, h), self)
  {
    SameWorkKept(s, self, h);
    hide HasFreshWork;
  }

  lemma SameWorkKept(s: Session, self: Identity, h: Happening)
    requires Enabled(s, self, h) && (h.DropKick? || h.RecoveryCut?)
    ensures HasFreshWork(After(s, self, h), self) <==> HasFreshWork(s, self)
  {
  }

  // ----- Runs -----

  const IDLE := Session(Db(map[], map[]), None, map[], Free, 0, {})

  predicate Leads(s: Session, self: Identity, h: Happening, next: Session) {
    Enabled(s, self, h) && next == After(s, self, h)
  }

  ghost predicate IsRun(states: seq<Session>, self: Identity, steps: seq<Happening>) {
    && |states| == |steps| + 1 && states[0] == IDLE
    && forall i :: 0 <= i < |steps| ==> Leads(states[i], self, steps[i], states[i + 1])
  }

  lemma {:induction false} EveryRunIsSound(states: seq<Session>, self: Identity, steps: seq<Happening>, i: nat)
    requires IsRun(states, self, steps) && i < |states|
    ensures Sound(states[i])
  {
    if i > 0 {
      hide Sound, After, Enabled;
      EveryRunIsSound(states, self, steps, i - 1);
      assert Leads(states[i - 1], self, steps[i - 1], states[i - 1 + 1]);
      StepIsSound(states[i - 1], self, steps[i - 1]);
    }
  }

  lemma {:induction false} NoticedUpTo(states: seq<Session>, self: Identity, steps: seq<Happening>, i: nat)
    requires self.me.MainAgent? && IsRun(states, self, steps) && i < |states|
    requires forall j :: 0 <= j < i ==> !StrikesLastCall(states[j], self, steps[j])
    ensures Noticed(states[i], self)
  {
    if i > 0 {
      NoticedUpTo(states, self, steps, i - 1);
      EveryRunIsSound(states, self, steps, i - 1);
      assert Leads(states[i - 1], self, steps[i - 1], states[i - 1 + 1]);
      hide Sound, After, Enabled, Noticed, StrikesLastCall;
      StepNoticed(states[i - 1], self, steps[i - 1]);
    }
  }

  /**
   * No lost wake-up, exactly. Throughout a run, pending work of the instance that no interrupt left behind finds a live
   * driver, a resume call under way, or a launch being prepared, if and only if no step of the run cuts the last call.
   */
  lemma WakeUpsAreLostExactly(states: seq<Session>, self: Identity, steps: seq<Happening>)
    requires self.me.MainAgent? && IsRun(states, self, steps)
    ensures (forall i :: 0 <= i < |states| ==> Noticed(states[i], self))
            <==> (forall i :: 0 <= i < |steps| ==> !StrikesLastCall(states[i], self, steps[i]))
  {
    hide Noticed, StrikesLastCall, After, Enabled;
    if forall i :: 0 <= i < |steps| ==> !StrikesLastCall(states[i], self, steps[i]) {
      forall i | 0 <= i < |states| { NoticedUpTo(states, self, steps, i); }
    }
    if forall i :: 0 <= i < |states| ==> Noticed(states[i], self) {
      forall i | 0 <= i < |steps|
        ensures !StrikesLastCall(states[i], self, steps[i])
      {
        assert Leads(states[i], self, steps[i], states[i + 1]);
        assert Noticed(states[i + 1], self);
        if StrikesLastCall(states[i], self, steps[i]) { StruckIsMissed(states[i], self, steps[i]); }
      }
    }
  }

  // ----- Where a drive stands -----

  /** The steps of a drive, its launch or relaunch and its cancellation. */
  predicate Moves(h: Happening, t: nat) {
    || h in {Launch(t), Begin(t), DrainEnds(t), DriveFails(t), TakeLock(t), Interrupt(t)}
    || (h.Reconcile? && (h.task == t || h.successor == t)) || (h.Exhaust? && h.task == t)
  }

  /** The move that brings a drive to a place. */
  predicate BroughtBy(s: Session, self: Identity, h: Happening, t: nat, place: Place) {
    match place
    case Queued => h == Launch(t) || (h.Reconcile? && h.successor == t && HasWork(s.db, self))
    case Draining => h == Begin(t)
    case Drained => h == DrainEnds(t) || h == DriveFails(t)
    case Reconciling => h == TakeLock(t)
    case Exhausting => h.Reconcile? && h.task == t && HasWork(s.db, self)
    case Leaving => (h.Reconcile? && h.task == t && !HasWork(s.db, self)) || (h.Exhaust? && h.task == t)
    case Discarded => h == Interrupt(t) && (At(s, t, Queued) || At(s, t, Discarded))
    case Unwinding => h == Interrupt(t) && !At(s, t, Queued) && !At(s, t, Discarded)
  }

  /** Some move before `i` brought the drive to the place, and none moved it since. */
  ghost predicate Follows(states: seq<Session>, self: Identity, steps: seq<Happening>, i: nat, t: nat, place: Place)
    requires |states| == |steps| + 1 && i < |states|
  {
    i > 0 && if Moves(steps[i - 1], t) then BroughtBy(states[i - 1], self, steps[i - 1], t, place)
             else Follows(states, self, steps, i - 1, t, place)
  }

  lemma PlaceMoves(s: Session, self: Identity, h: Happening, t: nat)
    requires Enabled(s, self, h) && t in After(s, self, h).drives
    ensures var place := After(s, self, h).drives[t].place;
            if Moves(h, t) then BroughtBy(s, self, h, t, place) else At(s, t, place)
  {
    hide HasWork, HasMainWork, Next, FinishTask, CancelSession, Allowed, Quiet, UnderWay;
  }

  /** In every run a drive stands where its last move leads, by the steps and the tables. */
  lemma {:induction false} MovesAreKnown(states: seq<Session>, self: Identity, steps: seq<Happening>, i: nat, t: nat)
    requires IsRun(states, self, steps) && i < |states| && t in states[i].drives
    ensures Follows(states, self, steps, i, t, states[i].drives[t].place)
    decreases i
  {
    hide After, Enabled, BroughtBy, Moves;
    if i > 0 {
      assert Leads(states[i - 1], self, steps[i - 1], states[i - 1 + 1]);
      PlaceMoves(states[i - 1], self, steps[i - 1], t);
      if t in states[i - 1].drives { MovesAreKnown(states, self, steps, i - 1, t); }
    }
  }

  // ----- What interrupts leave behind -----

  /** The step leaves the item to the next launch: a cancelled drive is over, or queueing it came after the drive was. */
  predicate Leaves(s: Session, self: Identity, h: Happening, id: nat) {
    (h.Unwound? && id in s.db.rows && Mine(s.db.rows[id], self) && s.db.rows[id].status in {Pending, Processing})
    || (h.EnqueueCommits? && h.message.DoEnqueue? && h.message.id == id && !IsRunning(s))
  }

  /** A step left the item to the next launch, and there was no launch since. */
  function LeftBehind(states: seq<Session>, self: Identity, steps: seq<Happening>, i: nat, id: nat): bool
    requires |states| == |steps| + 1 && i < |states|
  {
    i > 0 && !steps[i - 1].Launch?
    && (Leaves(states[i - 1], self, steps[i - 1], id) || LeftBehind(states, self, steps, i - 1, id))
  }

  lemma ExcusedMoves(s: Session, self: Identity, h: Happening, id: nat)
    requires Enabled(s, self, h)
    ensures id in After(s, self, h).excused <==> !h.Launch? && (Leaves(s, self, h, id) || id in s.excused)
  {
    hide HasWork, HasMainWork, Next, FinishTask, CancelSession, Allowed, Quiet;
  }

  /** In every run exactly the items so left since the last launch are excused. */
  lemma {:induction false} ExcusedAreLeftBehind(states: seq<Session>, self: Identity, steps: seq<Happening>, i: nat, id: nat)
    requires IsRun(states, self, steps) && i < |states|
    ensures id in states[i].excused <==> LeftBehind(states, self, steps, i, id)
    decreases i
  {
    hide After, Enabled, Leaves;
    if i > 0 {
      ExcusedAreLeftBehind(states, self, steps, i - 1, id);
      assert Leads(states[i - 1], self, steps[i - 1], states[i - 1 + 1]);
      ExcusedMoves(states[i - 1], self, steps[i - 1], id);
    }
  }

  /** An idle session whose only child runs. */
  function WithChild(self: Identity): Session {
    IDLE.(db := Next(IDLE.db, DoCreate(0, 0, self.session, true, self.me, "", 0)))
  }

  lemma ChildStarts(self: Identity)
    ensures Leads(IDLE, self, Transaction(DoCreate(0, 0, self.session, true, self.me, "", 0)), WithChild(self))
    ensures WithChild(self).db.tasks.Keys == {0} && WithChild(self).db.tasks[0].parent == self.me
    ensures WithChild(self).db.tasks[0].status == Running
    ensures WithChild(self).db.rows == map[0 := Obligation(0, 0, SubagentFinished, self.session, self.me, "", 0)]
  {
  }

  /** A child that finishes for an idle session, and whose resume call is cut: the result waits unnoticed. */
  lemma CallCanBeLost(self: Identity) returns (states: seq<Session>, steps: seq<Happening>)
    requires self.me.MainAgent?
    ensures IsRun(states, self, steps) && StrikesLastCall(states[|steps|], self, DropKick)
  {
    ChildStarts(self);
    hide IsNext;
    var create, h := Transaction(DoCreate(0, 0, self.session, true, self.me, "", 0)), ChildEnds(0, Succeeded, "", "", 0);
    var s := After(WithChild(self), self, h);
    states, steps := [IDLE, WithChild(self), s], [create, h];
    assert Leads(states[0], self, steps[0], states[1]) && Leads(states[1], self, steps[1], states[2]);
    assert 0 in s.db.rows && Mine(s.db.rows[0], self) && s.db.rows[0].status == Pending;
  }

  /** The last state of some run. */
  ghost predicate Reachable(s: Session, self: Identity) {
    exists states, steps :: IsRun(states, self, steps) && states[|steps|] == s
  }

  lemma OneMoreStep(s: Session, self: Identity, h: Happening)
    requires Reachable(s, self) && Enabled(s, self, h)
    ensures Reachable(After(s, self, h), self)
  {
    hide After, Enabled;
    var states, steps :| IsRun(states, self, steps) && states[|steps|] == s;
    var longer, more := states + [After(s, self, h)], steps + [h];
    forall i | 0 <= i < |more|
      ensures Leads(longer[i], self, more[i], longer[i + 1])
    {
      if i < |steps| { assert Leads(states[i], self, steps[i], states[i + 1]); }
    }
    assert IsRun(longer, self, more);
  }

  function OneDrive(place: Place): Session {
    IDLE.(current := Some(0), drives := map[0 := Drive(place, 0)])
  }

  lemma DriveStarts(self: Identity)
    ensures Reachable(OneDrive(Queued), self)
  {
    assert IsRun([IDLE], self, []);
    hide Reachable, HasWork, HasMainWork;
    OneMoreStep(IDLE, self, UserArrives);
    OneMoreStep(IDLE.(lock := Launching), self, Launch(0));
    assert After(IDLE.(lock := Launching), self, Launch(0)) == OneDrive(Queued);
  }

  lemma DriveUnwinds(self: Identity)
    ensures Reachable(OneDrive(Unwinding), self)
  {
    DriveStarts(self);
    hide Reachable, HasWork, HasMainWork;
    OneMoreStep(OneDrive(Queued), self, Begin(0));
    assert After(OneDrive(Queued), self, Begin(0)) == OneDrive(Draining);
    OneMoreStep(OneDrive(Draining), self, Interrupt(0));
    assert After(OneDrive(Draining), self, Interrupt(0)) == OneDrive(Unwinding);
  }

  /** A message queued while a cancelled drive unwinds: afterwards it waits, and nobody attends to it before a launch. */
  lemma MessageWaitsForLaunch(self: Identity) returns (s: Session)
    ensures Reachable(s, self) && HasWork(s.db, self) && !HasFreshWork(s, self) && !Attended(s)
  {
    DriveUnwinds(self);
    hide Reachable, HasWork, HasMainWork, HasFreshWork, Next;
    var unwinding := OneDrive(Unwinding);
    var message := DoEnqueue(0, self.session, self.me, "", 0, "", 0);
    OneMoreStep(unwinding, self, UserArrives);
    OneMoreStep(unwinding.(lock := Enqueueing), self, EnqueueCommits(message));
    var queued := unwinding.(db := Next(IDLE.db, message), lock := Enqueued);
    assert After(unwinding.(lock := Enqueueing), self, EnqueueCommits(message)) == queued;
    OneMoreStep(queued, self, EnqueueReturns);
    OneMoreStep(queued.(lock := Free), self, Unwound(0));
    s := After(queued.(lock := Free), self, Unwound(0));
    InterruptExcuses(queued.(lock := Free), self, 0);
    MessageIsWork(self);
  }

  lemma MessageIsWork(self: Identity)
    ensures HasWork(Next(IDLE.db, DoEnqueue(0, self.session, self.me, "", 0, "", 0)), self)
  {
    var db := Next(IDLE.db, DoEnqueue(0, self.session, self.me, "", 0, "", 0));
    assert 0 in db.rows && Mine(db.rows[0], self) && db.rows[0].status == Pending;
  }

  /** At most one task drives: any other only winds down, and no two hold the turn lock. */
  lemma OneTaskDrives(states: seq<Session>, self: Identity, steps: seq<Happening>, i: nat, t: nat, u: nat)
    requires IsRun(states, self, steps) && i < |states|
    requires t in states[i].drives && u in states[i].drives && t != u
    ensures states[i].drives[t].place == Leaving || states[i].drives[u].place == Leaving
    ensures !(HoldsTurn(states[i].drives[t]) && HoldsTurn(states[i].drives[u]))
  {
    EveryRunIsSound(states, self, steps, i);
    hide IsRun, Protocol;
  }

  /** A check that ends with a successor in the driver's place. */
  predicate HasSuccessor(h: Happening, next: Session) {
    h.Reconcile? && h.successor in next.drives
  }

  function Counted(h: Happening, next: Session, n: nat): nat {
    if h.Launch? then 0 else if HasSuccessor(h, next) then n + 1 else n
  }

  /** How many checks have ended with a successor since the last launch, by the steps. */
  function Relaunches(states: seq<Session>, steps: seq<Happening>, i: nat): nat
    requires |states| == |steps| + 1 && i < |states|
  {
    if i == 0 then 0 else Counted(steps[i - 1], states[i], Relaunches(states, steps, i - 1))
  }

  /** A drive that is not winding down has `n` relaunches behind it. */
  ghost predicate HasCounted(s: Session, n: nat) {
    forall t :: t in s.drives && s.drives[t].place != Leaving ==> s.drives[t].attempt == n
  }

  lemma {:induction false} AttemptIsRelaunches(states: seq<Session>, self: Identity, steps: seq<Happening>, i: nat)
    requires IsRun(states, self, steps) && i < |states|
    ensures HasCounted(states[i], Relaunches(states, steps, i))
    decreases i
  {
    hide HasCounted, Leads;
    if i == 0 {
      NobodyCounted();
    } else {
      AttemptIsRelaunches(states, self, steps, i - 1);
      EveryRunIsSound(states, self, steps, i - 1);
      assert Leads(states[i - 1], self, steps[i - 1], states[i - 1 + 1]);
      CountKept(states[i - 1], self, steps[i - 1], states[i], Relaunches(states, steps, i - 1));
    }
  }

  lemma NobodyCounted()
    ensures HasCounted(IDLE, 0)
  {
  }

  lemma CountKept(s: Session, self: Identity, h: Happening, next: Session, n: nat)
    requires Sound(s) && HasCounted(s, n) && Leads(s, self, h, next)
    ensures HasCounted(next, Counted(h, next, n))
  {
    if h.Launch? {
      NobodyDrives(s);
    } else if h.Reconcile? {
      ReconcileEffect(s, self, h.task, h.successor);
      CurrentReconciles(s, h.task);
      OnlyOneDrives(s, h.task);
    } else {
      assert OneDriver(s);
      OthersCountNothing(s, self, h);
    }
    hide Sound, HasWork, Enabled;
  }

  /** Apart from launches and checks, steps bring no drive into being and change no attempt. */
  lemma OthersCountNothing(s: Session, self: Identity, h: Happening)
    requires Enabled(s, self, h) && !h.Launch? && !h.Reconcile?
    requires s.current.Some? && s.current.value in s.drives ==> s.drives[s.current.value].place != Leaving
    ensures forall t :: t in After(s, self, h).drives ==>
              && t in s.drives && After(s, self, h).drives[t].attempt == s.drives[t].attempt
              && (s.drives[t].place == Leaving ==> After(s, self, h).drives[t].place == Leaving)
  {
    hide HasWork, HasMainWork, Next, FinishTask, CancelSession, Allowed, Quiet, UnderWay;
  }

  lemma NobodyDrives(s: Session)
    requires Sound(s) && s.lock == Launching
    ensures forall t :: t in s.drives ==> s.drives[t].place == Leaving
  {
  }

  /** A check with work pending has a successor exactly when fewer than five checks had one since the last launch. */
  lemma RelaunchesWithinBudget(states: seq<Session>, self: Identity, steps: seq<Happening>, i: nat)
    requires IsRun(states, self, steps) && i < |steps| && steps[i].Reconcile?
    ensures HasSuccessor(steps[i], states[i + 1]) <==> HasWork(states[i].db, self) && Relaunches(states, steps, i) < 5
    ensures Relaunches(states, steps, i) <= 5
  {
    EveryRunIsSound(states, self, steps, i);
    AttemptIsRelaunches(states, self, steps, i);
    assert Leads(states[i], self, steps[i], states[i + 1]);
    ReconcileEffect(states[i], self, steps[i].task, steps[i].successor);
    assert BudgetKept(states[i]) && HasCounted(states[i], states[i].drives[steps[i].task].attempt);
    hide IsRun, Sound, After, HasWork, Relaunches;
  }

  /** A driver that steps down leaves no pending work of its own; with work it does so only after five relaunches in a row. */
  lemma StepsDownWithoutWork(states: seq<Session>, self: Identity, steps: seq<Happening>, i: nat, t: nat)
    requires IsRun(states, self, steps) && i < |steps|
    requires t in states[i].drives && states[i].drives[t].place != Leaving && At(states[i + 1], t, Leaving)
    ensures !HasWork(states[i + 1].db, self)
    ensures HasWork(states[i].db, self) ==> steps[i].Exhaust? && Relaunches(states, steps, i) == 5
  {
    EveryRunIsSound(states, self, steps, i);
    AttemptIsRelaunches(states, self, steps, i);
    assert Leads(states[i], self, steps[i], states[i + 1]);
    assert BudgetKept(states[i]);
    hide IsRun, Sound, After, Enabled, HasWork, Relaunches;
    WhoStepsDown(states[i], self, steps[i], t);
  }

  lemma WhoStepsDown(s: Session, self: Identity, h: Happening, t: nat)
    requires Enabled(s, self, h) && t in s.drives && s.drives[t].place != Leaving && At(After(s, self, h), t, Leaving)
    ensures !HasWork(After(s, self, h).db, self)
    ensures HasWork(s.db, self) ==> h.Exhaust? && At(s, t, Exhausting)
  {
    WhoLeaves(s, self, h, t);
    if h.Exhaust? {
      ExhaustLeavesNoWork(s.db, self, "Agent driver could not make progress.", h.now);
    }
    hide HasWork, CancelSession;
  }

  lemma WhoLeaves(s: Session, self: Identity, h: Happening, t: nat)
    requires Enabled(s, self, h) && t in s.drives && s.drives[t].place != Leaving && At(After(s, self, h), t, Leaving)
    ensures (h.Reconcile? || h.Exhaust?) && h.task == t
  {
    hide HasWork, HasMainWork, CancelSession, Next, FinishTask, Allowed, Quiet, UnderWay;
  }

  /** The number of relaunches behind a drive: each successor counts one more, a launch starts anew. */
  lemma SuccessorCounts(s: Session, self: Identity, t: nat, u: nat)
    requires Sound(s) && Enabled(s, self, Reconcile(t, u)) && u in After(s, self, Reconcile(t, u)).drives
    ensures After(s, self, Reconcile(t, u)).drives[u] == Drive(Queued, s.drives[t].attempt + 1)
    ensures s.drives[t].attempt + 1 <= MAX_DRIVER_RELAUNCH
  {
    hide HasWork, Protocol;
  }

  // ----- The session's fields and its sections between two awaits -----

  class AgentSession {
    const self: Identity
    var db: Db
    var current: Option<nat>
    var drives: map<nat, Drive>
    var lock: Lock
    var kicks: nat
    var excused: set<nat>
    ghost var relaunches: nat // since the last launch

    function State(): Session
      reads this
    {
      Session(db, current, drives, lock, kicks, excused)
    }

    ghost predicate Valid()
      reads this
    {
      Sound(State()) && HasCounted(State(), relaunches)
    }

    constructor (identity: Identity)
      ensures Valid() && State() == IDLE && self == identity
    {
      self := identity;
      db, current, drives, lock, kicks, excused := Db(map[], map[]), None, map[], Free, 0, {};
      relaunches := 0;
    }

    predicate Running()
      reads this
    {
      current.Some? && current.value in drives
    }

    /**
     * `start_turn` up to its first await: a message is queued iff a driver runs, which has its check for pending work
     * still to come unless it is being cancelled.
     */
    method StartTurn()
      requires Valid() && Enabled(State(), self, UserArrives)
      modifies this
      ensures Valid() && State() == After(old(State()), self, UserArrives) && relaunches == old(relaunches)
      ensures lock == Enqueueing <==> Running()
      ensures Running() ==> forall t :: t in drives && drives[t].place != Leaving ==> drives[t].place !in {Reconciling, Exhausting}
    {
      StepIsSound(State(), self, UserArrives);
      NobodyReconciles(State());
      hide Sound;
      if Running() {
        lock := Enqueueing;
        return;
      }
      lock := Launching;
    }

    /** `start_notification_recovery` up to its query: nothing to do exactly when a driver runs. */
    method StartRecovery()
      requires Valid() && Enabled(State(), self, KickArrives)
      modifies this
      ensures Valid() && State() == After(old(State()), self, KickArrives) && relaunches == old(relaunches)
      ensures Attended(State()) && (lock == Recovering <==> !Running())
    {
      StepIsSound(State(), self, KickArrives);
      hide Sound;
      kicks := kicks - 1;
      if Running() {
        return;
      }
      lock := Recovering;
    }

    /** The new drive is the only one that is not winding down, and no relaunch counts against it. */
    method LaunchDrive(t: nat)
      requires Valid() && Enabled(State(), self, Launch(t))
      modifies this
      ensures Valid() && State() == After(old(State()), self, Launch(t))
      ensures Running() && forall u :: u in drives && u != t ==> drives[u].place == Leaving
      ensures relaunches == 0 && drives[t].attempt == 0
    {
      StepIsSound(State(), self, Launch(t));
      OnlyOneDrives(After(State(), self, Launch(t)), t);
      hide Sound;
      relaunches := 0;
      drives := drives[t := Drive(Queued, 0)];
      current := Some(t);
      lock, excused := Free, {};
    }

    /** The check under the start lock: with work it has a successor iff fewer than five had one since the launch. */
    method ReconcileDriver(t: nat, successor: nat) returns (relaunched: bool)
      requires Valid() && Enabled(State(), self, Reconcile(t, successor))
      modifies this
      ensures Valid() && State() == After(old(State()), self, Reconcile(t, successor))
      ensures relaunched <==> HasWork(db, self) && old(relaunches) < 5
      ensures relaunches == old(relaunches) + if relaunched then 1 else 0
      ensures relaunched ==> Running() && At(State(), successor, Queued)
      ensures !relaunched ==> if HasWork(db, self) then At(State(), t, Exhausting) else !Running()
    {
      ghost var before, h, n := State(), Reconcile(t, successor), relaunches;
      StepIsSound(before, self, h);
      ReconcileMeans(before, self, t, successor);
      CountKept(before, self, h, After(before, self, h), n);
      CurrentReconciles(before, t);
      hide Sound, After, Enabled, HasWork;
      relaunched := StepDownOrRelaunch(t, successor);
      relaunches := Counted(h, State(), n);
    }

    method StepDownOrRelaunch(t: nat, successor: nat) returns (relaunched: bool)
      requires Sound(State()) && Enabled(State(), self, Reconcile(t, successor))
      modifies this
      ensures State() == After(old(State()), self, Reconcile(t, successor)) && db == old(db) && relaunches == old(relaunches)
      ensures relaunched <==> successor in drives
      ensures t in old(drives) && (relaunched <==> HasWork(db, self) && old(drives)[t].attempt < MAX_DRIVER_RELAUNCH)
    {
      ReconcileEffect(State(), self, t, successor);
      CurrentReconciles(State(), t);
      hide Sound, HasWork, After, Enabled;
      if !HasWork(db, self) {
        lock := Free;
        if current == Some(t) { current := None; }
        drives := drives[t := drives[t].(place := Leaving)];
        return false;
      }
      if drives[t].attempt >= MAX_DRIVER_RELAUNCH {
        drives := drives[t := drives[t].(place := Exhausting)];
        return false;
      }
      drives := (drives - {t})[successor := Drive(Queued, drives[t].attempt + 1)];
      current := Some(successor);
      lock := Free;
      return true;
    }

    /** After five relaunches in a row: the session's outstanding work is canceled, and no driver is left. */
    method GiveUp(t: nat, now: int)
      requires Valid() && Enabled(State(), self, Exhaust(t, now))
      modifies this
      ensures Valid() && State() == After(old(State()), self, Exhaust(t, now))
      ensures relaunches == old(relaunches) == 5
      ensures !Running() && !HasWork(db, self)
      ensures forall id :: id in db.rows && db.rows[id].session == self.session ==> !Outstanding(db.rows[id])
    {
      StepIsSound(State(), self, Exhaust(t, now));
      CurrentReconciles(State(), t);
      ExhaustLeavesNoWork(db, self, "Agent driver could not make progress.", now);
      hide Sound, HasWork, CancelSession;
      db := CancelSession(db, self.session, None, "Agent driver could not make progress.", now);
      lock := Free;
      if current == Some(t) { current := None; }
      drives := drives[t := drives[t].(place := Leaving)];
    }
  }

  lemma ReconcileMeans(s: Session, self: Identity, t: nat, u: nat)
    requires Sound(s) && Enabled(s, self, Reconcile(t, u))
    ensures t in s.drives
    ensures var a := After(s, self, Reconcile(t, u));
            if !HasWork(s.db, self) then !IsRunning(a)
            else if s.drives[t].attempt >= MAX_DRIVER_RELAUNCH then At(a, t, Exhausting)
            else IsRunning(a) && At(a, u, Queued)
  {
    CurrentReconciles(s, t);
    hide Sound, HasWork;
  }

  lemma ReconcileEffect(s: Session, self: Identity, t: nat, u: nat)
    requires Sound(s) && Enabled(s, self, Reconcile(t, u))
    ensures t in s.drives && u !in s.drives
    ensures After(s, self, Reconcile(t, u)) ==
              if !HasWork(s.db, self) then s.(drives := s.drives[t := s.drives[t].(place := Leaving)], current := None, lock := Free)
              else if s.drives[t].attempt >= MAX_DRIVER_RELAUNCH then s.(drives := s.drives[t := s.drives[t].(place := Exhausting)])
              else s.(drives := (s.drives - {t})[u := Drive(Queued, s.drives[t].attempt + 1)], current := Some(u), lock := Free)
  {
    CurrentReconciles(s, t);
    hide Sound, HasWork;
  }

  lemma NobodyReconciles(s: Session)
    requires Sound(s) && s.lock == Free
    ensures forall t :: t in s.drives ==> s.drives[t].place !in {Reconciling, Exhausting}
  {
  }

  lemma OnlyOneDrives(s: Session, t: nat)
    requires Sound(s) && s.current == Some(t)
    ensures forall u :: u in s.drives && u != t ==> s.drives[u].place == Leaving
  {
  }

  lemma CurrentReconciles(s: Session, t: nat)
    requires Sound(s) && t in s.drives && s.drives[t].place in {Reconciling, Exhausting}
    ensures s.current == Some(t) && (s.drives[t].place == Exhausting ==> s.drives[t].attempt == MAX_DRIVER_RELAUNCH)
  {
  }
}
