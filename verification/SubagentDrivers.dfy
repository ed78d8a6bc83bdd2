/** Drivers of background sub-agents: drain, settle, sleep, wake up (core/delegation/subagents.py). */
module SubagentDrivers {
  import opened Notifications
  import opened Options

  /**
   * Where a registered driver stands. `Dormant` has no task and `Stranded` one that is over; every other place has a
   * live task. A `Spawned` one has not taken its first step. The two `Checking` places hold the driver's start lock.
   * A cancelled drive is `Unwinding` until its own handler begins. The three `Closing` places follow the commit of the
   * task's end.
   */
  datatype Place =
    | Spawned
    | Draining
    | Settling
    | CheckingPending
    | CheckingOutstanding
    | Dormant
    | Stranded
    | Completing
    | Failing
    | Unwinding
    | Cancelling
    | Closing
    | ClosingFailed
    | ClosingCanceled

  /**
   * `owes`: this drive committed the end of its task and has not called the parent since. History: `late` holds the
   * rows registered for the driver after its last check found nothing outstanding, `starterAtCheck` whether one of its
   * starters was under way at that check.
   */
  datatype Driver = Driver(place: Place, attempts: nat, owes: bool, late: set<nat>, starterAtCheck: bool)

  /**
   * `born` are the tasks created and not registered yet, `orphaned` those whose starter died in between. `kicks` are
   * the wake-up calls carried by other coroutines than a driver's own drive, by the run they are for; `starters` are
   * counted by the run that started them. `tearing` are the teardowns run by whoever canceled a sleeping driver,
   * `torn` the drivers for which one has committed.
   */
  datatype World = World(
    db: Db, drivers: map<nat, Driver>, born: set<nat>, orphaned: set<nat>, kicks: multiset<nat>,
    starters: multiset<nat>, tearing: multiset<nat>, torn: set<nat>)

  const MAX_SUBAGENT_RELAUNCH := 5
  const FRESH := Driver(Spawned, 0, false, {}, false)
  const EMPTY := World(Db(map[], map[]), map[], {}, {}, multiset{}, multiset{}, multiset{}, {})

  predicate HoldsLock(d: Driver) {
    d.place in {CheckingPending, CheckingOutstanding}
  }

  /** No live task: a wake-up call starts one, a cancellation tears the driver down from outside. */
  predicate Asleep(d: Driver) {
    d.place in {Dormant, Stranded}
  }

  predicate Closed(d: Driver) {
    d.place in {Closing, ClosingFailed, ClosingCanceled}
  }

  /** Inside the last handlers of the drive: a cancellation or an error that strikes here is handled by nobody. */
  predicate Unguarded(d: Driver) {
    d.place in {Failing, ClosingFailed, Cancelling, ClosingCanceled}
  }

  predicate HasPending(db: Db, r: nat) {
    exists id :: id in db.rows && db.rows[id].target == SubAgent(r) && db.rows[id].status == Pending
  }

  predicate HasOutstanding(db: Db, r: nat) {
    exists id :: id in db.rows && db.rows[id].target == SubAgent(r) && Outstanding(db.rows[id])
  }

  predicate ParentIs(db: Db, c: nat, p: nat) {
    c in db.tasks && db.tasks[c].parent == SubAgent(p)
  }

  // ----- Transactions that belong to no driver of this module -----

  predicate OfMain(db: Db, id: nat) {
    id in db.rows && db.rows[id].target.MainAgent?
  }

  /** Main-agent work, cancellations and progress; boot-time resets happen before any driver exists. */
  predicate Elsewhere(db: Db, step: Step) {
    match step
    case DoEnqueue(_, _, target, _, _, _, _) => target.MainAgent?
    case DoClaim(id, _, _, _) => OfMain(db, id)
    case DoComplete(id, _) => OfMain(db, id)
    case DoFail(id, _, _) => OfMain(db, id)
    case DoRelease(id, _) => OfMain(db, id)
    case DoFinishTask(_, status, _, _, _) => status == Stopped
    case DoCancelTasks(_, _, _, _) => true
    case DoCancelSession(_, _, _, _) => true
    case DoInterrupt(_, _, _) => true
    case DoProgress(_, _, _) => true
    case _ => false
  }

  /** What a driver's own turns do to its notifications. */
  predicate OwnItem(db: Db, r: nat, step: Step) {
    match step
    case DoClaim(id, _, _, _) => id in db.rows && db.rows[id].target == SubAgent(r)
    case DoComplete(id, _) => id in db.rows && db.rows[id].target == SubAgent(r)
    case DoFail(id, _, _) => id in db.rows && db.rows[id].target == SubAgent(r)
    case DoRegisterJob(id, _, _, target, _) => target == SubAgent(r)
    case _ => false
  }

  // ----- Steps -----

  datatype Happening =
    | Transaction(step: Step)
    | StarterBegins(parent: nat)
    | StarterEnds(parent: nat)
    | Create(child: Step)
    | Register(run: nat)
    | StarterDies(run: nat)
    | Begin(run: nat)
    | Handle(run: nat, step: Step)
    | HandBack(run: nat, step: Step)
    | Unwound(run: nat)
    | Loose(run: nat, step: Step)
    | DrainEnds(run: nat)
    | TakeLock(run: nat)
    | CheckPending(run: nat)
    | CheckOutstanding(run: nat)
    | DriveFails(run: nat)
    | Commit(run: nat, result: string, error: string, now: int)
    | Answer(run: nat)
    | Stop(run: nat)
    | TearCommit(run: nat, error: string, now: int)
    | TearCut(run: nat)
    | Unregister(run: nat)
    | JobEnds(id: nat, ready: bool, error: string, now: int)
    | Kick(run: nat)
    | DropCall(run: nat)
    | Remind(run: nat)

  predicate At(w: World, r: nat, place: Place) {
    r in w.drivers && w.drivers[r].place == place
  }

  /** A drive of the run may go on although a teardown from outside has dropped its registration. */
  predicate IsLoose(w: World, r: nat) {
    r in w.torn && r !in w.drivers
  }

  /** A call waits for the start lock of the driver it is for. */
  predicate MayCall(w: World, target: Instance) {
    target.SubAgent? && target.runId in w.drivers ==> !HoldsLock(w.drivers[target.runId])
  }

  predicate Enabled(w: World, h: Happening) {
    match h
    case Transaction(step) => Allowed(w.db, step) && Elsewhere(w.db, step)
    case StarterBegins(p) => At(w, p, Draining) || IsLoose(w, p)
    case StarterEnds(p) => p in w.starters
    case Create(child) =>
      child.DoCreate? && Allowed(w.db, child)
      && (child.parent.SubAgent? ==> child.hasParent && child.parent.runId in w.starters)
    case Register(r) => r in w.born && r !in w.drivers
    case StarterDies(r) => r in w.born
    case Begin(r) => At(w, r, Spawned)
    case Handle(r, step) => At(w, r, Draining) && Allowed(w.db, step) && OwnItem(w.db, r, step)
    case HandBack(r, step) =>
      At(w, r, Unwinding) && step.DoRelease? && step.id in w.db.rows && w.db.rows[step.id].target == SubAgent(r)
    case Unwound(r) => At(w, r, Unwinding)
    case Loose(r, step) =>
      IsLoose(w, r) && Allowed(w.db, step)
      && (OwnItem(w.db, r, step) || (step.DoRelease? && step.id in w.db.rows && w.db.rows[step.id].target == SubAgent(r)))
    case DrainEnds(r) => At(w, r, Draining) && !HasPending(w.db, r)
    case TakeLock(r) => At(w, r, Settling)
    case CheckPending(r) => At(w, r, CheckingPending)
    case CheckOutstanding(r) => At(w, r, CheckingOutstanding)
    case DriveFails(r) => r in w.drivers && !Asleep(w.drivers[r]) && w.drivers[r].place != Spawned
    case Commit(r, _, _, _) => r in w.drivers && w.drivers[r].place in {Completing, Failing, Cancelling} && r in w.db.tasks
    case Answer(r) => r in w.drivers && w.drivers[r].owes && Closed(w.drivers[r]) && r in w.db.tasks && MayCall(w, w.db.tasks[r].parent)
    case Stop(r) => r in w.drivers && !HoldsLock(w.drivers[r])
    case TearCommit(r, _, _) => r in w.tearing && r in w.db.tasks
    case TearCut(r) => r in w.tearing
    case Unregister(r) => r in w.drivers && r in w.db.tasks && ((Closed(w.drivers[r]) && !w.drivers[r].owes) || r in w.torn)
    case JobEnds(id, _, _, _) =>
      id in w.db.rows && w.db.rows[id].kind == SandboxJob
      && forall n :: n in w.db.rows && Owes(w.db.rows[n], SandboxJob, {w.db.rows[id].runId}) ==> n == id
    case Kick(r) => r in w.kicks && MayCall(w, SubAgent(r))
    case DropCall(r) => r in w.kicks
    case Remind(_) => true
  }

  /** How a drive at this place ends its task. */
  function EndStatus(d: Driver): TaskStatus {
    match d.place
    case Completing => Succeeded
    case Failing => Broken
    case _ => Stopped
  }

  /** The transaction of a step, if it has one. */
  function TransactionOf(w: World, h: Happening): Option<Step>
    requires Enabled(w, h)
  {
    match h
    case Transaction(step) => Some(step)
    case Create(child) => Some(child)
    case Handle(_, step) => Some(step)
    case HandBack(_, step) => Some(step)
    case Loose(_, step) => Some(step)
    case Commit(r, result, error, now) => Some(DoFinishTask(r, EndStatus(w.drivers[r]), result, error, now))
    case TearCommit(r, error, now) => Some(DoFinishTask(r, Stopped, "", error, now))
    case JobEnds(id, ready, error, now) => Some(DoResolveJob(w.db.rows[id].runId, ready, error, now))
    case _ => None
  }

  function DbAfter(w: World, h: Happening): Db
    requires Enabled(w, h)
  {
    match TransactionOf(w, h)
    case None => w.db
    case Some(step) => Next(w.db, step)
  }

  /** A wake-up call: a sleeping driver gets a new drive, any other is left alone. */
  function Woken(drivers: map<nat, Driver>, target: Instance): map<nat, Driver> {
    if target.SubAgent? && target.runId in drivers && Asleep(drivers[target.runId]) then
      drivers[target.runId := drivers[target.runId].(place := Spawned)]
    else drivers
  }

  /** Cancellation of a live task: its handlers take over unless it has not begun or is in the last of them. */
  function Struck(d: Driver): Driver {
    if Asleep(d) then d
    else if d.place == Spawned || Unguarded(d) then d.(place := Stranded, owes := false)
    else d.(place := Unwinding)
  }

  /** An error: the failure handler takes over, unless it strikes the last handlers. */
  function Erred(d: Driver): Driver {
    if Unguarded(d) then d.(place := Stranded, owes := false) else d.(place := Failing)
  }

  function Checked(w: World, r: nat): Driver
    requires r in w.drivers
  {
    var d := w.drivers[r];
    if HasPending(w.db, r) then
      d.(attempts := d.attempts + 1, place := if d.attempts + 1 > MAX_SUBAGENT_RELAUNCH then Failing else Spawned)
    else d.(place := CheckingOutstanding)
  }

  function Settled(w: World, r: nat): Driver
    requires r in w.drivers
  {
    var d := w.drivers[r];
    if HasOutstanding(w.db, r) then d.(attempts := 0, place := Dormant)
    else d.(place := Completing, late := {}, starterAtCheck := r in w.starters)
  }

  /** Whether or not it was this commit that ended the task, the parent is called. */
  function Committed(d: Driver): Driver {
    d.(owes := true, place := match d.place
                              case Completing => Closing
                              case Failing => ClosingFailed
                              case _ => ClosingCanceled)
  }

  /** A task registered for a completing driver comes too late for its check. */
  function Belated(drivers: map<nat, Driver>, target: Instance, id: nat): map<nat, Driver> {
    if target.SubAgent? && target.runId in drivers && drivers[target.runId].place == Completing then
      drivers[target.runId := drivers[target.runId].(late := drivers[target.runId].late + {id})]
    else drivers
  }

  function DriversAfter(w: World, h: Happening): map<nat, Driver>
    requires Enabled(w, h)
  {
    match h
    case Create(child) => Belated(w.drivers, child.parent, child.id)
    case Register(r) => w.drivers[r := FRESH]
    case Begin(r) => w.drivers[r := w.drivers[r].(place := Draining)]
    case Unwound(r) => w.drivers[r := w.drivers[r].(place := Cancelling)]
    case DrainEnds(r) => w.drivers[r := w.drivers[r].(place := Settling)]
    case TakeLock(r) => w.drivers[r := w.drivers[r].(place := CheckingPending)]
    case CheckPending(r) => w.drivers[r := Checked(w, r)]
    case CheckOutstanding(r) => w.drivers[r := Settled(w, r)]
    case DriveFails(r) => w.drivers[r := Erred(w.drivers[r])]
    case Commit(r, _, _, _) => w.drivers[r := Committed(w.drivers[r])]
    case Answer(r) => Woken(w.drivers[r := w.drivers[r].(owes := false)], w.db.tasks[r].parent)
    case Stop(r) => w.drivers[r := Struck(w.drivers[r])]
    case Unregister(r) => w.drivers - {r}
    case Kick(r) => Woken(w.drivers, SubAgent(r))
    case _ => w.drivers
  }

  function CallFor(target: Instance): multiset<nat> {
    if target.SubAgent? then multiset{target.runId} else multiset{}
  }

  /** Calls outside the drives: teardowns and jobs issue them, a drive outliving its registration keeps its own. */
  function KicksAfter(w: World, h: Happening): multiset<nat>
    requires Enabled(w, h)
  {
    match h
    case TearCommit(r, _, _) => w.kicks + CallFor(w.db.tasks[r].parent)
    case Unregister(r) => if w.drivers[r].owes then w.kicks + CallFor(w.db.tasks[r].parent) else w.kicks
    case JobEnds(id, _, _, _) => w.kicks + CallFor(w.db.rows[id].target)
    case Kick(r) => w.kicks - multiset{r}
    case DropCall(r) => w.kicks - multiset{r}
    case Remind(r) => w.kicks + multiset{r}
    case _ => w.kicks
  }

  function StartersAfter(w: World, h: Happening): multiset<nat>
    requires Enabled(w, h)
  {
    match h
    case StarterBegins(p) => w.starters + multiset{p}
    case StarterEnds(p) => w.starters - multiset{p}
    case Create(child) => if child.parent.SubAgent? then w.starters - multiset{child.parent.runId} else w.starters
    case _ => w.starters
  }

  function BornAfter(w: World, h: Happening): set<nat>
    requires Enabled(w, h)
  {
    match h
    case Create(child) => w.born + {child.runId}
    case Register(r) => w.born - {r}
    case StarterDies(r) => w.born - {r}
    case _ => w.born
  }

  function After(w: World, h: Happening): World
    requires Enabled(w, h)
  {
    World(DbAfter(w, h), DriversAfter(w, h), BornAfter(w, h),
          if h.StarterDies? then w.orphaned + {h.run} else w.orphaned,
          KicksAfter(w, h), StartersAfter(w, h),
          match h
          case Stop(r) => if Asleep(w.drivers[r]) then w.tearing + multiset{r} else w.tearing
          case TearCommit(r, _, _) => w.tearing - multiset{r}
          case TearCut(r) => w.tearing - multiset{r}
          case _ => w.tearing,
          if h.TearCommit? then w.torn + {h.run} else w.torn)
  }

  // ----- Runs -----

  predicate Leads(w: World, h: Happening, next: World) {
    Enabled(w, h) && next == After(w, h)
  }

  ghost predicate IsRun(worlds: seq<World>, steps: seq<Happening>) {
    && |worlds| == |steps| + 1 && worlds[0] == EMPTY
    && forall i :: 0 <= i < |steps| ==> Leads(worlds[i], steps[i], worlds[i + 1])
  }

  lemma RunStep(worlds: seq<World>, steps: seq<Happening>, i: nat)
    requires IsRun(worlds, steps) && i < |steps|
    ensures |worlds| == |steps| + 1
    ensures Enabled(worlds[i], steps[i]) && worlds[i + 1] == After(worlds[i], steps[i])
  {
    assert Leads(worlds[i], steps[i], worlds[i + 1]);
  }

  /** The last world of some run. */
  ghost predicate Reachable(w: World) {
    exists worlds, steps :: IsRun(worlds, steps) && worlds[|steps|] == w
  }

  lemma EmptyIsReachable()
    ensures Reachable(EMPTY)
  {
    assert IsRun([EMPTY], []);
  }

  lemma OneMoreStep(w: World, h: Happening)
    requires Reachable(w) && Enabled(w, h)
    ensures Reachable(After(w, h))
  {
    var worlds, steps :| IsRun(worlds, steps) && worlds[|steps|] == w;
    Longer(worlds, steps, h, After(w, h));
  }

  lemma Longer(worlds: seq<World>, steps: seq<Happening>, h: Happening, next: World)
    requires IsRun(worlds, steps) && Leads(worlds[|steps|], h, next)
    ensures IsRun(worlds + [next], steps + [h]) && (worlds + [next])[|steps + [h]|] == next
  {
    hide Leads;
    var longer, more := worlds + [next], steps + [h];
    forall i | 0 <= i < |more|
      ensures Leads(longer[i], more[i], longer[i + 1])
    {
      if i < |steps| { assert Leads(worlds[i], steps[i], worlds[i + 1]); }
    }
  }

  // ----- The tables under a step -----

  lemma TransactionAllowed(w: World, h: Happening)
    requires Enabled(w, h) && TransactionOf(w, h).Some?
    ensures Allowed(w.db, TransactionOf(w, h).value)
  {
    hide IsNext, Elsewhere, OwnItem;
  }

  /** Only a creation adds a task, and no step changes whose child a task is or revives it. */
  lemma TasksKept(db: Db, step: Step, c: nat)
    requires Allowed(db, step)
    ensures c in db.tasks ==>
              && c in Next(db, step).tasks && Next(db, step).tasks[c].parent == db.tasks[c].parent
              && (IsRunning(Next(db, step), c) ==> IsRunning(db, c))
    ensures c in Next(db, step).tasks ==> c in db.tasks || (step.DoCreate? && step.runId == c)
  {
    hide IsNext;
  }

  lemma TasksAfter(w: World, h: Happening, c: nat)
    requires Enabled(w, h)
    ensures c in w.db.tasks ==>
              && c in DbAfter(w, h).tasks && DbAfter(w, h).tasks[c].parent == w.db.tasks[c].parent
              && (IsRunning(DbAfter(w, h), c) ==> IsRunning(w.db, c))
    ensures c in DbAfter(w, h).tasks ==> c in w.db.tasks || (h.Create? && h.child.runId == c)
  {
    hide Next, IsRunning, Allowed, Enabled, TransactionOf;
    if TransactionOf(w, h).Some? {
      TransactionAllowed(w, h);
      OnlyCreatesCreate(w, h);
      TasksKept(w.db, TransactionOf(w, h).value, c);
    }
  }

  lemma OnlyCreatesCreate(w: World, h: Happening)
    requires Enabled(w, h) && TransactionOf(w, h).Some?
    ensures TransactionOf(w, h).value.DoCreate? ==> h.Create? && h.child == TransactionOf(w, h).value
  {
    hide Allowed, OfMain;
  }

  // ----- Every running task is looked after -----

  /** A running task is about to be registered, was orphaned by its starter, or has a driver that did not commit its end. */
  ghost predicate LookedAfter(w: World, r: nat) {
    && (r in w.born || r in w.drivers || r in w.torn || r in w.tearing ==> r in w.db.tasks)
    && (IsRunning(w.db, r) ==>
          && (r in w.born || r in w.orphaned || r in w.drivers)
          && (r in w.drivers ==> !Closed(w.drivers[r]))
          && r !in w.torn)
  }

  lemma EndsRunning(w: World, h: Happening)
    requires Enabled(w, h) && (h.Commit? || h.TearCommit?)
    ensures !IsRunning(DbAfter(w, h), h.run)
  {
  }

  /** How one registration may change. */
  lemma RegistrationMoves(w: World, h: Happening, r: nat)
    requires Enabled(w, h)
    ensures r in DriversAfter(w, h) ==> r in w.drivers || h == Register(r)
    ensures r in w.drivers && r !in DriversAfter(w, h) ==> h == Unregister(r)
    ensures r in DriversAfter(w, h) && Closed(DriversAfter(w, h)[r]) ==>
              r in w.drivers && (Closed(w.drivers[r]) || (h.Commit? && h.run == r))
  {
    hide HasPending, HasOutstanding, IsNext, Allowed, Elsewhere, OwnItem;
  }

  /** How one run may enter and leave the sets of runs. */
  lemma SetsMove(w: World, h: Happening, r: nat)
    requires Enabled(w, h)
    ensures var a := After(w, h);
            && (r in a.born ==> r in w.born || (h.Create? && h.child.runId == r))
            && (r in w.born ==> r in a.born || h == Register(r) || h == StarterDies(r))
            && (h.Create? && h.child.runId == r ==> r in a.born)
            && (r in w.orphaned ==> r in a.orphaned) && (h == StarterDies(r) ==> r in a.orphaned)
            && (r in a.torn ==> r in w.torn || (h.TearCommit? && h.run == r))
            && (r in a.tearing ==> r in w.tearing || (h == Stop(r) && r in w.drivers))
            && (h == Register(r) ==> r in w.born && r in a.drivers)
            && (h == Unregister(r) ==> r in w.drivers && (Closed(w.drivers[r]) || r in w.torn))
            && (h.Commit? && h.run == r ==> r in w.drivers)
            && (h.TearCommit? && h.run == r ==> r in w.tearing)
  {
    hide DbAfter, HasPending, HasOutstanding, Allowed, Elsewhere, OwnItem, KicksAfter, StartersAfter;
  }

  lemma LookedAfterKept(w: World, h: Happening, r: nat)
    requires Enabled(w, h) && LookedAfter(w, r)
    ensures LookedAfter(After(w, h), r)
  {
    assert After(w, h).db == DbAfter(w, h) && After(w, h).drivers == DriversAfter(w, h);
    TasksAfter(w, h, r);
    RegistrationMoves(w, h, r);
    SetsMove(w, h, r);
    if h.Commit? || h.TearCommit? { EndsRunning(w, h); }
    hide DbAfter, DriversAfter, IsRunning, Enabled, After, Closed;
  }

  lemma {:induction false} EveryRunLooksAfter(worlds: seq<World>, steps: seq<Happening>, i: nat, r: nat)
    requires IsRun(worlds, steps) && i < |worlds|
    ensures LookedAfter(worlds[i], r)
  {
    if i > 0 {
      EveryRunLooksAfter(worlds, steps, i - 1, r);
      hide LookedAfter, After, Enabled;
      assert Leads(worlds[i - 1], steps[i - 1], worlds[i - 1 + 1]);
      LookedAfterKept(worlds[i - 1], steps[i - 1], r);
    }
  }

  /** A running task is never without somebody who will end it, unless its starter died before registering it. */
  lemma RunningHasADriver(worlds: seq<World>, steps: seq<Happening>, i: nat, r: nat)
    requires IsRun(worlds, steps) && i < |worlds| && IsRunning(worlds[i].db, r)
    ensures r in worlds[i].born || r in worlds[i].orphaned || r in worlds[i].drivers
    ensures r in worlds[i].drivers ==> !Closed(worlds[i].drivers[r])
  {
    EveryRunLooksAfter(worlds, steps, i, r);
    hide IsRun;
  }

  /** A driver leaves the registry only when the end of its task is committed. */
  lemma UnregistersEnded(worlds: seq<World>, steps: seq<Happening>, i: nat, r: nat)
    requires IsRun(worlds, steps) && i < |steps| && r in worlds[i].drivers && r !in worlds[i + 1].drivers
    ensures r in worlds[i].db.tasks && !IsRunning(worlds[i].db, r)
  {
    EveryRunLooksAfter(worlds, steps, i, r);
    assert Leads(worlds[i], steps[i], worlds[i + 1]);
    RegistrationMoves(worlds[i], steps[i], r);
    SetsMove(worlds[i], steps[i], r);
    assert After(worlds[i], steps[i]).drivers == DriversAfter(worlds[i], steps[i]);
    hide IsRun, DriversAfter, After, Enabled;
  }

  /** The step ends the drive of `r` and leaves its registration: it strikes before the first step, or the last handlers. */
  predicate Strands(w: World, h: Happening, r: nat) {
    && r in w.drivers
    && ((h == Stop(r) && (w.drivers[r].place == Spawned || Unguarded(w.drivers[r])))
        || (h == DriveFails(r) && Unguarded(w.drivers[r])))
  }

  /** The step is a call that gets through to `r`, or drops its registration. */
  predicate Frees(w: World, h: Happening, r: nat) {
    h == Kick(r) || (h.Answer? && ParentIs(w.db, h.run, r)) || h == Unregister(r)
  }

  lemma StrandedMoves(w: World, h: Happening, r: nat)
    requires Enabled(w, h)
    ensures At(After(w, h), r, Stranded) <==> Strands(w, h, r) || (At(w, r, Stranded) && !Frees(w, h, r))
  {
    assert After(w, h).drivers == DriversAfter(w, h);
    DriverMoves(w, h, r);
    hide After, DriversAfter, Enabled;
  }

  lemma DriverMoves(w: World, h: Happening, r: nat)
    requires Enabled(w, h)
    ensures r in DriversAfter(w, h) && DriversAfter(w, h)[r].place == Stranded
            <==> Strands(w, h, r) || (At(w, r, Stranded) && !Frees(w, h, r))
  {
    if h.Stop? || h.DriveFails? {
      StrikesMove(w, h, r);
    } else {
      OthersMove(w, h, r);
    }
  }

  lemma StrikesMove(w: World, h: Happening, r: nat)
    requires Enabled(w, h) && (h.Stop? || h.DriveFails?)
    ensures r in DriversAfter(w, h) && DriversAfter(w, h)[r].place == Stranded <==> Strands(w, h, r) || At(w, r, Stranded)
    ensures !Frees(w, h, r)
  {
  }

  lemma OthersMove(w: World, h: Happening, r: nat)
    requires Enabled(w, h) && !h.Stop? && !h.DriveFails?
    ensures r in DriversAfter(w, h) && DriversAfter(w, h)[r].place == Stranded <==> At(w, r, Stranded) && !Frees(w, h, r)
    ensures !Strands(w, h, r)
  {
    hide HasPending, HasOutstanding, Allowed, Elsewhere, OwnItem, IsLoose;
  }

  /** A step before `i` ended the drive, and nothing has freed the driver since. */
  ghost predicate StrandedSince(worlds: seq<World>, steps: seq<Happening>, i: nat, r: nat)
    requires |worlds| == |steps| + 1 && i < |worlds|
  {
    exists j :: 0 <= j < i && Strands(worlds[j], steps[j], r) && forall k :: j < k < i ==> !Frees(worlds[k], steps[k], r)
  }

  lemma StrandedSinceMoves(worlds: seq<World>, steps: seq<Happening>, i: nat, r: nat)
    requires |worlds| == |steps| + 1 && i < |steps|
    ensures StrandedSince(worlds, steps, i + 1, r)
            <==> Strands(worlds[i], steps[i], r) || (StrandedSince(worlds, steps, i, r) && !Frees(worlds[i], steps[i], r))
  {
    hide Strands, Frees;
  }

  /**
   * In every run a registered driver is left with a drive that is over exactly when an earlier step struck the drive
   * before it had begun or in its last handlers, and since then no call has got through and no teardown has dropped it.
   */
  lemma {:induction false} StrandedExactly(worlds: seq<World>, steps: seq<Happening>, i: nat, r: nat)
    requires IsRun(worlds, steps) && i < |worlds|
    ensures At(worlds[i], r, Stranded) <==> StrandedSince(worlds, steps, i, r)
    decreases i
  {
    hide Strands, Frees, At, StrandedSince, Leads;
    if i == 0 {
      NobodyStranded(worlds, steps, r);
    } else {
      StrandedExactly(worlds, steps, i - 1, r);
      StrandedSinceMoves(worlds, steps, i - 1, r);
      StrandedStep(worlds, steps, i - 1, r);
    }
  }

  lemma NobodyStranded(worlds: seq<World>, steps: seq<Happening>, r: nat)
    requires IsRun(worlds, steps)
    ensures !At(worlds[0], r, Stranded) && !StrandedSince(worlds, steps, 0, r)
  {
    hide Leads;
  }

  lemma StrandedStep(worlds: seq<World>, steps: seq<Happening>, i: nat, r: nat)
    requires IsRun(worlds, steps) && i < |steps|
    ensures At(worlds[i + 1], r, Stranded)
            <==> Strands(worlds[i], steps[i], r) || (At(worlds[i], r, Stranded) && !Frees(worlds[i], steps[i], r))
  {
    RunStep(worlds, steps, i);
    hide IsRun, After, Enabled, Strands, Frees, At;
    StrandedMoves(worlds[i], steps[i], r);
  }

  // ----- Relaunches -----

  /** The number of relaunches after a step, given the number before. */
  function Counted(h: Happening, after: World, r: nat, n: nat): nat {
    if h == CheckPending(r) && At(after, r, Spawned) then n + 1
    else if h == Register(r) || (h == CheckOutstanding(r) && At(after, r, Dormant)) then 0
    else n
  }

  /** How often the driver relaunched itself since it last went to sleep with work outstanding. */
  function Relaunches(worlds: seq<World>, steps: seq<Happening>, i: nat, r: nat): nat
    requires |worlds| == |steps| + 1 && i < |worlds|
  {
    if i == 0 then 0 else Counted(steps[i - 1], worlds[i], r, Relaunches(worlds, steps, i - 1, r))
  }

  lemma AttemptsMove(w: World, h: Happening, r: nat)
    requires Enabled(w, h) && r in DriversAfter(w, h)
    ensures h == Register(r) || r in w.drivers
    ensures h == Register(r) || (h == CheckOutstanding(r) && DriversAfter(w, h)[r].place == Dormant)
            || DriversAfter(w, h)[r].attempts >= w.drivers[r].attempts + (if h == CheckPending(r) && DriversAfter(w, h)[r].place == Spawned then 1 else 0)
    ensures h == CheckPending(r) && DriversAfter(w, h)[r].place == Spawned ==> DriversAfter(w, h)[r].attempts <= MAX_SUBAGENT_RELAUNCH
  {
    hide HasPending, HasOutstanding, Allowed, Elsewhere, OwnItem;
  }

  predicate WithinBudget(w: World, r: nat, n: nat) {
    n <= MAX_SUBAGENT_RELAUNCH && (r in w.drivers ==> n <= w.drivers[r].attempts)
  }

  lemma CountMoves(w: World, h: Happening, r: nat, n: nat)
    requires Enabled(w, h) && WithinBudget(w, r, n)
    ensures WithinBudget(After(w, h), r, Counted(h, After(w, h), r, n))
  {
    hide DriversAfter, After, Enabled;
    AfterDrivers(w, h);
    if r in DriversAfter(w, h) { AttemptsMove(w, h, r); }
  }

  lemma AfterDrivers(w: World, h: Happening)
    requires Enabled(w, h)
    ensures After(w, h).drivers == DriversAfter(w, h)
  {
  }

  lemma BudgetKept(w: World, h: Happening, next: World, r: nat, n: nat)
    requires Leads(w, h, next) && WithinBudget(w, r, n)
    ensures WithinBudget(next, r, Counted(h, next, r, n))
  {
    CountMoves(w, h, r, n);
    hide After, Enabled, Counted, WithinBudget;
  }

  /** A driver that keeps losing the race relaunches itself at most five times, however often it is called or cut. */
  lemma {:induction false} RelaunchIsBounded(worlds: seq<World>, steps: seq<Happening>, i: nat, r: nat)
    requires IsRun(worlds, steps) && i < |worlds|
    ensures Relaunches(worlds, steps, i, r) <= MAX_SUBAGENT_RELAUNCH
    ensures r in worlds[i].drivers ==> Relaunches(worlds, steps, i, r) <= worlds[i].drivers[r].attempts
  {
    CountedInRun(worlds, steps, i, r);
  }

  lemma NothingCounted(worlds: seq<World>, steps: seq<Happening>, r: nat)
    requires IsRun(worlds, steps)
    ensures WithinBudget(worlds[0], r, Relaunches(worlds, steps, 0, r))
  {
    hide Leads;
    assert worlds[0] == EMPTY;
  }

  lemma {:induction false} CountedInRun(worlds: seq<World>, steps: seq<Happening>, i: nat, r: nat)
    requires IsRun(worlds, steps) && i < |worlds|
    ensures WithinBudget(worlds[i], r, Relaunches(worlds, steps, i, r))
    decreases i
  {
    hide Leads, WithinBudget, Relaunches;
    if i == 0 {
      NothingCounted(worlds, steps, r);
    } else {
      CountedInRun(worlds, steps, i - 1, r);
      OneMoreCounted(worlds, steps, i - 1, r);
    }
  }

  lemma OneMoreCounted(worlds: seq<World>, steps: seq<Happening>, i: nat, r: nat)
    requires IsRun(worlds, steps) && i < |steps| && WithinBudget(worlds[i], r, Relaunches(worlds, steps, i, r))
    ensures WithinBudget(worlds[i + 1], r, Relaunches(worlds, steps, i + 1, r))
  {
    hide Leads, WithinBudget, Counted;
    assert Leads(worlds[i], steps[i], worlds[i + 1]);
    BudgetKept(worlds[i], steps[i], worlds[i + 1], r, Relaunches(worlds, steps, i, r));
  }

  /** A first look of `r`'s driver that finds work pending: it lost the race against whoever queued that work. */
  predicate LosesRace(w: World, h: Happening, r: nat) {
    h == CheckPending(r) && HasPending(w.db, r)
  }

  /** A second look of `r`'s driver that finds something outstanding, so that it goes to sleep. */
  predicate FindsOutstanding(w: World, h: Happening, r: nat) {
    h == CheckOutstanding(r) && HasOutstanding(w.db, r)
  }

  /** How many races the driver lost since it was registered or last went to sleep, by the steps and the tables alone. */
  function RacesLost(worlds: seq<World>, steps: seq<Happening>, i: nat, r: nat): nat
    requires |worlds| == |steps| + 1 && i < |worlds|
  {
    if i == 0 then 0
    else if LosesRace(worlds[i - 1], steps[i - 1], r) then RacesLost(worlds, steps, i - 1, r) + 1
    else if steps[i - 1] == Register(r) || FindsOutstanding(worlds[i - 1], steps[i - 1], r) then 0
    else RacesLost(worlds, steps, i - 1, r)
  }

  lemma AttemptsFollow(w: World, h: Happening, r: nat)
    requires Enabled(w, h) && r in DriversAfter(w, h)
    ensures h == Register(r) || r in w.drivers
    ensures DriversAfter(w, h)[r].attempts == if h == Register(r) || FindsOutstanding(w, h, r) then 0
                                              else w.drivers[r].attempts + if LosesRace(w, h, r) then 1 else 0
  {
    hide HasPending, HasOutstanding, Allowed, Elsewhere, OwnItem;
  }

  /** The counter of a registered driver is the number of races it lost. */
  lemma {:induction false} AttemptsAreRacesLost(worlds: seq<World>, steps: seq<Happening>, i: nat, r: nat)
    requires IsRun(worlds, steps) && i < |worlds| && r in worlds[i].drivers
    ensures worlds[i].drivers[r].attempts == RacesLost(worlds, steps, i, r)
    decreases i
  {
    hide Leads, LosesRace, FindsOutstanding;
    assert worlds[0] == EMPTY;
    if i > 0 {
      RunStep(worlds, steps, i - 1);
      AfterDrivers(worlds[i - 1], steps[i - 1]);
      AttemptsFollow(worlds[i - 1], steps[i - 1], r);
      NoRaceAtRegistration(worlds[i - 1], steps[i - 1], r);
      hide IsRun, Enabled, After, DriversAfter;
      if r in worlds[i - 1].drivers { AttemptsAreRacesLost(worlds, steps, i - 1, r); }
    }
  }

  lemma NoRaceAtRegistration(w: World, h: Happening, r: nat)
    ensures h == Register(r) ==> !LosesRace(w, h, r)
    ensures !(LosesRace(w, h, r) && FindsOutstanding(w, h, r))
  {
  }

  /** With work pending a driver that has lost fewer than five races relaunches, and any other gives up. */
  lemma RelaunchesWithinBudget(worlds: seq<World>, steps: seq<Happening>, i: nat, r: nat)
    requires IsRun(worlds, steps) && i < |steps| && LosesRace(worlds[i], steps[i], r)
    ensures At(worlds[i + 1], r, if RacesLost(worlds, steps, i, r) < 5 then Spawned else Failing)
  {
    RunStep(worlds, steps, i);
    AttemptsAreRacesLost(worlds, steps, i, r);
    hide IsRun, RacesLost, HasPending;
  }

  // ----- How a task ends -----

  /** The steps of `r`'s own drive, its registration and its cancellation. */
  predicate Moves(h: Happening, r: nat) {
    h in {Register(r), Begin(r), DrainEnds(r), TakeLock(r), CheckPending(r), CheckOutstanding(r), DriveFails(r), Stop(r),
          Unwound(r), Unregister(r)}
    || (h.Commit? && h.run == r)
  }

  /** The last step before `i` that moved `r`'s drive. */
  function LastMove(steps: seq<Happening>, i: nat, r: nat): (m: Option<nat>)
    requires i <= |steps|
    ensures m.Some? ==> m.value < i && Moves(steps[m.value], r)
  {
    if i == 0 then None
    else if Moves(steps[i - 1], r) then Some(i - 1)
    else LastMove(steps, i - 1, r)
  }

  /** A second look that finds nothing outstanding. */
  predicate FindsNothing(w: World, h: Happening, r: nat) {
    h == CheckOutstanding(r) && !HasOutstanding(w.db, r)
  }

  /** An error, or a race lost with the budget used up. */
  predicate GivesUp(worlds: seq<World>, steps: seq<Happening>, m: nat, r: nat)
    requires |worlds| == |steps| + 1 && m < |steps|
  {
    steps[m] == DriveFails(r) || (LosesRace(worlds[m], steps[m], r) && RacesLost(worlds, steps, m, r) >= 5)
  }

  /** Into the cancellation handler, the last move before that being the cancellation. */
  predicate UnwindsStop(steps: seq<Happening>, m: nat, r: nat)
    requires m < |steps|
  {
    var before := LastMove(steps, m, r);
    steps[m] == Unwound(r) && before.Some? && steps[before.value] == Stop(r)
  }

  predicate CommitsOf(h: Happening, r: nat) {
    h.Commit? && h.run == r
  }

  /** The move that brings a drive to a place, by the steps and the tables. */
  predicate BroughtBy(worlds: seq<World>, steps: seq<Happening>, m: nat, r: nat, place: Place)
    requires |worlds| == |steps| + 1 && m < |steps|
    decreases m, 1
  {
    match place
    case Spawned =>
      || steps[m] == Register(r) || LosesRace(worlds[m], steps[m], r)
      || FindsOutstanding(worlds[m], steps[m], r) || steps[m] == DriveFails(r) || steps[m] == Stop(r)
    case Draining => steps[m] == Begin(r)
    case Settling => steps[m] == DrainEnds(r)
    case CheckingPending => steps[m] == TakeLock(r)
    case CheckingOutstanding => steps[m] == CheckPending(r) && !HasPending(worlds[m].db, r)
    case Dormant => FindsOutstanding(worlds[m], steps[m], r) || steps[m] == Stop(r)
    case Stranded => steps[m] == DriveFails(r) || steps[m] == Stop(r)
    case Completing => FindsNothing(worlds[m], steps[m], r)
    case Failing => GivesUp(worlds, steps, m, r)
    case Unwinding => steps[m] == Stop(r)
    case Cancelling => UnwindsStop(steps, m, r)
    case Closing => CommitsOf(steps[m], r) && Follows(worlds, steps, m, r, Completing)
    case ClosingFailed => CommitsOf(steps[m], r) && Follows(worlds, steps, m, r, Failing)
    case ClosingCanceled => CommitsOf(steps[m], r) && Follows(worlds, steps, m, r, Cancelling)
  }

  /** The last move before `i` is one that brings the drive to the place. */
  predicate Follows(worlds: seq<World>, steps: seq<Happening>, i: nat, r: nat, place: Place)
    requires |worlds| == |steps| + 1 && i < |worlds|
    decreases i, 0
  {
    var m := LastMove(steps, i, r);
    m.Some? && BroughtBy(worlds, steps, m.value, r, place)
  }

  lemma UnmovedPlace(w: World, h: Happening, r: nat)
    requires Enabled(w, h) && !Moves(h, r) && r in DriversAfter(w, h)
    ensures r in w.drivers
    ensures DriversAfter(w, h)[r].place == w.drivers[r].place || (DriversAfter(w, h)[r].place == Spawned && Asleep(w.drivers[r]))
  {
    hide HasPending, HasOutstanding, Allowed, Elsewhere, OwnItem;
  }

  /** One move of a drive, from the place where it stood. */
  predicate MovesTo(w: World, h: Happening, r: nat, place: Place)
    requires r in w.drivers
  {
    match place
    case Spawned => LosesRace(w, h, r)
    case Draining => h == Begin(r)
    case Settling => h == DrainEnds(r)
    case CheckingPending => h == TakeLock(r)
    case CheckingOutstanding => h == CheckPending(r) && !HasPending(w.db, r)
    case Dormant => FindsOutstanding(w, h, r) || h == Stop(r)
    case Stranded => h == DriveFails(r) || h == Stop(r)
    case Completing => FindsNothing(w, h, r)
    case Failing => h == DriveFails(r) || (LosesRace(w, h, r) && w.drivers[r].attempts >= 5)
    case Unwinding => h == Stop(r)
    case Cancelling => h == Unwound(r) && At(w, r, Unwinding)
    case Closing => CommitsOf(h, r) && At(w, r, Completing)
    case ClosingFailed => CommitsOf(h, r) && At(w, r, Failing)
    case ClosingCanceled => CommitsOf(h, r) && At(w, r, Cancelling)
  }

  lemma MovedPlace(w: World, h: Happening, r: nat)
    requires Enabled(w, h) && Moves(h, r) && r in DriversAfter(w, h)
    ensures h == Register(r) || r in w.drivers
    ensures h == Register(r) ==> DriversAfter(w, h)[r].place == Spawned
    ensures r in w.drivers ==> MovesTo(w, h, r, DriversAfter(w, h)[r].place)
  {
    hide HasPending, HasOutstanding, Allowed;
  }

  /** In every run the last move of a drive is the one that leads to where it stands; only a call moves a sleeper, to its start. */
  lemma {:induction false} MovesAreKnown(worlds: seq<World>, steps: seq<Happening>, i: nat, r: nat)
    requires IsRun(worlds, steps) && i < |worlds| && r in worlds[i].drivers
    ensures Follows(worlds, steps, i, r, worlds[i].drivers[r].place)
    decreases i
  {
    hide Leads;
    assert worlds[0] == EMPTY;
    if i > 0 {
      if r in worlds[i - 1].drivers { MovesAreKnown(worlds, steps, i - 1, r); }
      OneMoreMove(worlds, steps, i - 1, r);
    }
  }

  lemma OneMoreMove(worlds: seq<World>, steps: seq<Happening>, i: nat, r: nat)
    requires IsRun(worlds, steps) && i < |steps| && r in worlds[i + 1].drivers
    requires r in worlds[i].drivers ==> Follows(worlds, steps, i, r, worlds[i].drivers[r].place)
    ensures Follows(worlds, steps, i + 1, r, worlds[i + 1].drivers[r].place)
  {
    RunStep(worlds, steps, i);
    AfterDrivers(worlds[i], steps[i]);
    if Moves(steps[i], r) {
      MovedPlace(worlds[i], steps[i], r);
      if r in worlds[i].drivers {
        AttemptsAreRacesLost(worlds, steps, i, r);
        MoveIsLast(worlds, steps, i, r, worlds[i + 1].drivers[r].place);
      }
    } else {
      UnmovedPlace(worlds[i], steps[i], r);
      OtherStepKeeps(worlds, steps, i, r, worlds[i + 1].drivers[r].place);
      CalledAsleep(worlds, steps, i, r);
    }
    hide IsRun, Enabled, After, DriversAfter, RacesLost, HasOutstanding, LosesRace, MovesTo;
  }

  lemma CalledAsleep(worlds: seq<World>, steps: seq<Happening>, i: nat, r: nat)
    requires |worlds| == |steps| + 1 && i < |worlds|
    ensures Follows(worlds, steps, i, r, Dormant) || Follows(worlds, steps, i, r, Stranded) ==> Follows(worlds, steps, i, r, Spawned)
  {
    hide FindsOutstanding, LosesRace, LastMove;
    var m := LastMove(steps, i, r);
    if m.Some? {
      assert BroughtBy(worlds, steps, m.value, r, Dormant) || BroughtBy(worlds, steps, m.value, r, Stranded) ==>
               BroughtBy(worlds, steps, m.value, r, Spawned);
    }
  }

  lemma MoveIsLast(worlds: seq<World>, steps: seq<Happening>, i: nat, r: nat, place: Place)
    requires |worlds| == |steps| + 1 && i < |steps| && Moves(steps[i], r) && r in worlds[i].drivers
    requires Follows(worlds, steps, i, r, worlds[i].drivers[r].place)
    requires worlds[i].drivers[r].attempts == RacesLost(worlds, steps, i, r) && MovesTo(worlds[i], steps[i], r, place)
    ensures Follows(worlds, steps, i + 1, r, place)
  {
    hide Moves, LosesRace, FindsNothing, FindsOutstanding, HasPending, HasOutstanding, RacesLost;
    assert LastMove(steps, i + 1, r) == Some(i);
  }

  lemma OtherStepKeeps(worlds: seq<World>, steps: seq<Happening>, i: nat, r: nat, place: Place)
    requires |worlds| == |steps| + 1 && i < |steps| && !Moves(steps[i], r)
    ensures Follows(worlds, steps, i + 1, r, place) == Follows(worlds, steps, i, r, place)
  {
    hide Moves, BroughtBy;
  }

  /** The step ends the running task. */
  predicate EndsTask(w: World, next: World, r: nat) {
    IsRunning(w.db, r) && r in next.db.tasks && !IsRunning(next.db, r)
  }

  /** The obligation of a task that ended reports how it did: ready if there is a result or an error, canceled otherwise. */
  predicate Delivers(row: Notification, after: Notification, status: TaskStatus) {
    row.status == Awaiting ==> after.body == Report(status) && after.status == if status == Stopped then Canceled else Pending
  }

  predicate EndFits(place: Place, status: TaskStatus) {
    && (status == Succeeded <==> place == Completing)
    && (status == Broken <==> place == Failing)
    && (status == Stopped <==> place == Cancelling)
  }

  lemma CommitEnds(w: World, h: Happening, r: nat)
    requires Enabled(w, h) && CommitsOf(h, r) && IsRunning(w.db, r)
    ensures r in w.drivers && r in DbAfter(w, h).tasks && !IsRunning(DbAfter(w, h), r)
    ensures var t := DbAfter(w, h).tasks[r];
            && t.result == h.result && t.error == h.error
            && EndFits(w.drivers[r].place, t.status)
  {
  }

  lemma CommitDelivers(w: World, h: Happening, r: nat)
    requires Enabled(w, h) && CommitsOf(h, r) && IsRunning(w.db, r)
    ensures var after := DbAfter(w, h);
            forall id :: IsObligation(w.db.rows, id, r) ==>
                           id in after.rows && Delivers(w.db.rows[id], after.rows[id], after.tasks[r].status)
  {
  }

  lemma AfterDb(w: World, h: Happening)
    requires Enabled(w, h)
    ensures After(w, h).db == DbAfter(w, h)
  {
  }

  lemma WhoEnds(db: Db, step: Step, r: nat)
    requires IsRunning(db, r) && r in Next(db, step).tasks && !IsRunning(Next(db, step), r)
    requires Allowed(db, step)
    ensures (step.DoFinishTask? && step.runId == r && Next(db, step).tasks[r].status == step.taskStatus)
            || (step.DoCancelTasks? && Next(db, step).tasks[r].status == Stopped) || step.DoFailStale?
  {
    hide IsNext, ResolveAll;
  }

  /** Nobody but the drive itself ends a task otherwise than by stopping it. */
  lemma OthersStop(w: World, h: Happening, r: nat)
    requires Enabled(w, h) && EndsTask(w, After(w, h), r) && !CommitsOf(h, r)
    ensures DbAfter(w, h).tasks[r].status == Stopped && (h.Transaction? || (h.TearCommit? && h.run == r))
  {
    AfterDb(w, h);
    assert TransactionOf(w, h).Some?;
    var step := TransactionOf(w, h).value;
    TransactionAllowed(w, h);
    hide After;
    assert DbAfter(w, h) == Next(w.db, step);
    WhoEnds(w.db, step, r);
    hide DbAfter, Next, IsRunning, Allowed, HasPending, HasOutstanding;
  }

  /**
   * How a task ends, by the steps alone: it succeeds iff its own drive commits right after it found nothing outstanding;
   * it is broken iff the drive commits right after an error or a lost race with no budget left; it is stopped iff the
   * drive commits after a cancellation that it unwound, or somebody else ended the task. The commit stores its result
   * and its error, and the obligation reports the same end to the parent.
   */
  lemma TaskEndsAsDriven(worlds: seq<World>, steps: seq<Happening>, i: nat, r: nat)
    requires IsRun(worlds, steps) && i < |steps| && EndsTask(worlds[i], worlds[i + 1], r)
    ensures var own := CommitsOf(steps[i], r);
            var t := worlds[i + 1].db.tasks[r];
            && (t.status == Succeeded <==> own && Follows(worlds, steps, i, r, Completing))
            && (t.status == Broken <==> own && Follows(worlds, steps, i, r, Failing))
            && (t.status == Stopped <==> (own && Follows(worlds, steps, i, r, Cancelling))
                                         || steps[i].Transaction? || (steps[i].TearCommit? && steps[i].run == r))
            && (own ==> t.result == steps[i].result && t.error == steps[i].error
                        && forall id :: IsObligation(worlds[i].db.rows, id, r) ==>
                             id in worlds[i + 1].db.rows && Delivers(worlds[i].db.rows[id], worlds[i + 1].db.rows[id], t.status))
  {
    RunStep(worlds, steps, i);
    AfterDb(worlds[i], steps[i]);
    if CommitsOf(steps[i], r) {
      CommitEndsAsDriven(worlds, steps, i, r);
      CommitDelivers(worlds[i], steps[i], r);
    } else {
      OthersStop(worlds[i], steps[i], r);
    }
    hide IsRun, After, DbAfter, Enabled, Follows, Delivers;
  }

  lemma CommitEndsAsDriven(worlds: seq<World>, steps: seq<Happening>, i: nat, r: nat)
    requires IsRun(worlds, steps) && i < |steps| && Enabled(worlds[i], steps[i])
    requires CommitsOf(steps[i], r) && IsRunning(worlds[i].db, r)
    ensures var t := DbAfter(worlds[i], steps[i]).tasks[r];
            && t.result == steps[i].result && t.error == steps[i].error
            && (t.status == Succeeded <==> Follows(worlds, steps, i, r, Completing))
            && (t.status == Broken <==> Follows(worlds, steps, i, r, Failing))
            && (t.status == Stopped <==> Follows(worlds, steps, i, r, Cancelling))
  {
    MovesAreKnown(worlds, steps, i, r);
    CommitEnds(worlds[i], steps[i], r);
    ThreeEnds(worlds, steps, i, r);
    hide IsRun, DbAfter, Follows;
  }

  /** No move leads to two of the places from which a task is ended. */
  lemma ThreeEnds(worlds: seq<World>, steps: seq<Happening>, i: nat, r: nat)
    requires |worlds| == |steps| + 1 && i < |worlds|
    ensures !(Follows(worlds, steps, i, r, Completing) && Follows(worlds, steps, i, r, Failing))
    ensures !(Follows(worlds, steps, i, r, Completing) && Follows(worlds, steps, i, r, Cancelling))
    ensures !(Follows(worlds, steps, i, r, Failing) && Follows(worlds, steps, i, r, Cancelling))
  {
    hide HasOutstanding, HasPending, RacesLost;
  }

  // ----- What is outstanding when a driver completes -----

  /** Rows keep their owner, nothing settled becomes outstanding again, and only three steps add a row. */
  lemma RowsKept(db: Db, step: Step, id: nat)
    requires Allowed(db, step) && !step.DoReset?
    ensures id in db.rows ==>
              && id in Next(db, step).rows && Next(db, step).rows[id].target == db.rows[id].target
              && (Outstanding(Next(db, step).rows[id]) ==> Outstanding(db.rows[id]))
    ensures id in Next(db, step).rows && id !in db.rows ==>
              || (step.DoCreate? && step.id == id && step.hasParent && Next(db, step).rows[id].target == step.parent)
              || (step.DoRegisterJob? && step.id == id && Next(db, step).rows[id].target == step.target)
              || (step.DoEnqueue? && step.id == id && Next(db, step).rows[id].target == step.target)
  {
    hide Precedes;
  }

  lemma RowsAfter(w: World, h: Happening, id: nat)
    requires Enabled(w, h)
    ensures id in w.db.rows ==>
              && id in DbAfter(w, h).rows && DbAfter(w, h).rows[id].target == w.db.rows[id].target
              && (Outstanding(DbAfter(w, h).rows[id]) ==> Outstanding(w.db.rows[id]))
    ensures id in DbAfter(w, h).rows && id !in w.db.rows ==>
              var target := DbAfter(w, h).rows[id].target;
              || target.MainAgent?
              || (h.Create? && h.child.id == id && h.child.parent == target)
              || ((h.Handle? || h.Loose?) && target == SubAgent(h.run))
  {
    if TransactionOf(w, h).Some? {
      TransactionAllowed(w, h);
      RowsKept(w.db, TransactionOf(w, h).value, id);
    }
    hide Next, Allowed, Outstanding;
  }

  /** What is outstanding for a completing driver was registered after its check, by a starter that was under way then. */
  ghost predicate LateKnown(w: World, r: nat) {
    At(w, r, Completing) ==>
      && (forall id :: id in w.db.rows && w.db.rows[id].target == SubAgent(r) && Outstanding(w.db.rows[id]) ==> id in w.drivers[r].late)
      && (forall id :: id in w.drivers[r].late ==> id in w.db.rows && w.db.rows[id].target == SubAgent(r))
      && (w.drivers[r].late != {} || r in w.starters ==> w.drivers[r].starterAtCheck)
  }

  /** How a driver comes to complete, and what may change while it does. */
  lemma CompletingMoves(w: World, h: Happening, r: nat)
    requires Enabled(w, h) && r in DriversAfter(w, h) && DriversAfter(w, h)[r].place == Completing
    ensures r in w.drivers
    ensures var d, e := w.drivers[r], DriversAfter(w, h)[r];
            if h == CheckOutstanding(r) then
              !HasOutstanding(w.db, r) && e.late == {} && e.starterAtCheck == (r in w.starters)
            else
              && d.place == Completing && e.starterAtCheck == d.starterAtCheck
              && e.late == (if h.Create? && h.child.parent == SubAgent(r) then d.late + {h.child.id} else d.late)
  {
    hide HasPending, HasOutstanding, Allowed, Elsewhere, OwnItem;
  }

  lemma StartersMove(w: World, h: Happening, r: nat)
    requires Enabled(w, h)
    ensures r in StartersAfter(w, h) ==> r in w.starters || (h == StarterBegins(r) && (At(w, r, Draining) || r !in w.drivers))
    ensures h.Create? && h.child.parent == SubAgent(r) ==> r in w.starters
    ensures h.Handle? ==> At(w, h.run, Draining)
    ensures h.Loose? ==> h.run !in w.drivers
  {
    hide HasPending, HasOutstanding, Allowed, Elsewhere, OwnItem;
  }

  lemma CreatedRow(w: World, h: Happening)
    requires Enabled(w, h) && h.Create? && h.child.parent.SubAgent?
    ensures h.child.id in DbAfter(w, h).rows && DbAfter(w, h).rows[h.child.id].target == h.child.parent
  {
  }

  /** The outstanding rows of a completing driver, after a step that adds one at most. */
  lemma LateRows(w: World, h: Happening, r: nat, id: nat)
    requires Enabled(w, h) && LateKnown(w, r) && At(After(w, h), r, Completing)
    ensures var a := After(w, h);
            && (id in a.db.rows && a.db.rows[id].target == SubAgent(r) && Outstanding(a.db.rows[id]) ==> id in a.drivers[r].late)
            && (id in a.drivers[r].late ==> id in a.db.rows && a.db.rows[id].target == SubAgent(r))
  {
    var a := After(w, h);
    assert a.db == DbAfter(w, h) && a.drivers == DriversAfter(w, h);
    CompletingMoves(w, h, r);
    StartersMove(w, h, r);
    if h.Create? && h.child.parent == SubAgent(r) { CreatedRow(w, h); }
    if h.CheckOutstanding? { CheckIsQuiet(w, h); }
    RowsAfter(w, h, id);
    hide After, DbAfter, DriversAfter, StartersAfter, Enabled, Outstanding;
  }

  lemma LateStarters(w: World, h: Happening, r: nat)
    requires Enabled(w, h) && LateKnown(w, r) && At(After(w, h), r, Completing)
    ensures var a := After(w, h); a.drivers[r].late != {} || r in a.starters ==> a.drivers[r].starterAtCheck
  {
    var a := After(w, h);
    assert a.starters == StartersAfter(w, h) && a.drivers == DriversAfter(w, h);
    CompletingMoves(w, h, r);
    StartersMove(w, h, r);
    hide After, DbAfter, DriversAfter, StartersAfter, Enabled, Outstanding;
  }

  lemma LateKnownKept(w: World, h: Happening, r: nat)
    requires Enabled(w, h) && LateKnown(w, r)
    ensures LateKnown(After(w, h), r)
  {
    hide After, Enabled, Outstanding;
    if At(After(w, h), r, Completing) {
      LateStarters(w, h, r);
      forall id { LateRows(w, h, r, id); }
    }
  }

  lemma CheckIsQuiet(w: World, h: Happening)
    requires Enabled(w, h) && h.CheckOutstanding?
    ensures DbAfter(w, h) == w.db
  {
  }

  lemma {:induction false} EveryRunKnowsLate(worlds: seq<World>, steps: seq<Happening>, i: nat, r: nat)
    requires IsRun(worlds, steps) && i < |worlds|
    ensures LateKnown(worlds[i], r)
  {
    if i > 0 {
      EveryRunKnowsLate(worlds, steps, i - 1, r);
      hide LateKnown, After, Enabled;
      assert Leads(worlds[i - 1], steps[i - 1], worlds[i - 1 + 1]);
      LateKnownKept(worlds[i - 1], steps[i - 1], r);
    }
  }

  /**
   * A task completes with something outstanding for its driver exactly when a row registered after the driver's last
   * check is still outstanding; there is no such row unless a starter was under way at that check.
   */
  lemma CompletionOwes(worlds: seq<World>, steps: seq<Happening>, i: nat, r: nat)
    requires IsRun(worlds, steps) && i < |worlds| && At(worlds[i], r, Completing)
    ensures var w := worlds[i];
            && (HasOutstanding(w.db, r)
                <==> exists id :: id in w.drivers[r].late && id in w.db.rows && Outstanding(w.db.rows[id]))
            && (!w.drivers[r].starterAtCheck ==> !HasOutstanding(w.db, r) && w.drivers[r].late == {})
  {
    EveryRunKnowsLate(worlds, steps, i, r);
    hide IsRun;
  }

  // ----- Wake-up calls -----

  /** The drive of `c` committed its end and still has to call `p`. */
  predicate Owing(w: World, c: nat, p: nat) {
    c in w.drivers && w.drivers[c].owes && ParentIs(w.db, c, p)
  }

  /** No wake-up call for `p` is under way or owed, except by the drive of `c`. */
  ghost predicate OthersSilent(w: World, c: nat, p: nat) {
    p !in w.kicks && forall other :: Owing(w, other, p) ==> other == c
  }

  /** A wake-up call for `p` is under way or owed. */
  ghost predicate Called(w: World, p: nat) {
    p in w.kicks || exists c :: Owing(w, c, p)
  }

  /** The step cuts the last wake-up call for `p`: it strands the only drive that owes one, or drops the only one under way. */
  ghost predicate CutsLastCall(w: World, h: Happening, p: nat) {
    match h
    case Stop(c) => Strands(w, h, c) && Owing(w, c, p) && OthersSilent(w, c, p)
    case DriveFails(c) => Strands(w, h, c) && Owing(w, c, p) && OthersSilent(w, c, p)
    case DropCall(q) => q == p && w.kicks[p] == 1 && forall other :: !Owing(w, other, p)
    case _ => false
  }

  /** Registered and without a drive that would still look at its pending work: asleep, stranded, or past its last look. */
  predicate Unaware(w: World, p: nat) {
    At(w, p, Dormant) || At(w, p, Stranded) || At(w, p, CheckingOutstanding)
  }

  ghost predicate Noticed(w: World, p: nat) {
    Unaware(w, p) && HasPending(w.db, p) ==> Called(w, p)
  }

  ghost predicate AllNoticed(w: World) {
    forall p :: Noticed(w, p)
  }

  /**
   * The step abandons pending work of `p`: it cuts the last call for an unaware driver, or strands the driver itself
   * while nobody calls it.
   */
  ghost predicate Abandons(w: World, h: Happening, p: nat) {
    && HasPending(w.db, p)
    && ((Unaware(w, p) && CutsLastCall(w, h, p)) || (Strands(w, h, p) && OthersSilent(w, p, p)))
  }

  lemma {:induction false} EveryRunKeepsTables(worlds: seq<World>, steps: seq<Happening>, i: nat)
    requires IsRun(worlds, steps) && i < |worlds|
    ensures Protocol(worlds[i].db)
  {
    if i > 0 {
      EveryRunKeepsTables(worlds, steps, i - 1);
      assert Leads(worlds[i - 1], steps[i - 1], worlds[i - 1 + 1]);
      StepKeepsTables(worlds[i - 1], steps[i - 1]);
    }
  }

  lemma StepKeepsTables(w: World, h: Happening)
    requires Protocol(w.db) && Enabled(w, h)
    ensures Protocol(After(w, h).db)
  {
    assert After(w, h).db == DbAfter(w, h);
    hide After, Protocol, Allowed, Next;
    if TransactionOf(w, h).Some? {
      TransactionAllowed(w, h);
      StepKeepsProtocol(w.db, TransactionOf(w, h).value);
    }
  }

  /** Where pending work can come from. */
  lemma PendingFrom(db: Db, step: Step, id: nat)
    requires WellOwned(db) && Allowed(db, step) && !step.DoReset? && !step.DoFailStale?
    requires id in Next(db, step).rows && Next(db, step).rows[id].status == Pending
    ensures (id in db.rows && db.rows[id].status == Pending)
            || (step.DoFinishTask? && step.taskStatus in {Succeeded, Broken} && IsObligation(db.rows, id, step.runId))
            || (step.DoResolveJob? && id in db.rows && Owes(db.rows[id], SandboxJob, {step.runId}))
            || (step.DoRelease? && step.id == id)
            || (step.DoEnqueue? && step.id == id && Next(db, step).rows[id].target == step.target)
    ensures id in db.rows ==> Next(db, step).rows[id].target == db.rows[id].target
  {
    hide Precedes;
  }

  lemma CommitCalls(w: World, h: Happening, id: nat, p: nat)
    requires Enabled(w, h) && h.Commit? && WellOwned(w.db)
    requires IsObligation(w.db.rows, id, h.run) && w.db.rows[id].target == SubAgent(p)
    ensures Called(After(w, h), p)
  {
    TasksAfter(w, h, h.run);
    assert After(w, h).db == DbAfter(w, h) && After(w, h).drivers == DriversAfter(w, h);
    assert ParentIs(w.db, h.run, p);
    hide After, DbAfter, WellOwned;
    assert Owing(After(w, h), h.run, p);
  }

  lemma JobCalls(w: World, h: Happening, id: nat, p: nat)
    requires Enabled(w, h) && h.JobEnds? && id in w.db.rows && w.db.rows[id].target == SubAgent(p)
    requires Owes(w.db.rows[id], SandboxJob, {w.db.rows[h.id].runId})
    ensures Called(After(w, h), p)
  {
    assert After(w, h).kicks == KicksAfter(w, h);
    assert id == h.id;
    hide After;
  }

  /** New pending work comes with a call, or for a driver that is awake. */
  lemma PendingIsCalled(w: World, h: Happening, p: nat)
    requires Protocol(w.db) && Enabled(w, h) && HasPending(DbAfter(w, h), p)
    ensures HasPending(w.db, p) || Called(After(w, h), p) || At(w, p, Draining) || At(w, p, Unwinding) || p !in w.drivers
  {
    assert WellOwned(w.db);
    if TransactionOf(w, h).Some? {
      var id :| id in DbAfter(w, h).rows && DbAfter(w, h).rows[id].target == SubAgent(p) && DbAfter(w, h).rows[id].status == Pending;
      PendingRow(w, h, id, p);
    }
  }

  lemma PendingRow(w: World, h: Happening, id: nat, p: nat)
    requires WellOwned(w.db) && Enabled(w, h) && TransactionOf(w, h).Some?
    requires id in DbAfter(w, h).rows && DbAfter(w, h).rows[id].target == SubAgent(p) && DbAfter(w, h).rows[id].status == Pending
    ensures HasPending(w.db, p) || Called(After(w, h), p) || At(w, p, Draining) || At(w, p, Unwinding) || p !in w.drivers
  {
    var step := TransactionOf(w, h).value;
    TransactionAllowed(w, h);
    PendingFrom(w.db, step, id);
    if h.Commit? && IsObligation(w.db.rows, id, h.run) {
      CommitCalls(w, h, id, p);
    }
    if h.JobEnds? && Owes(w.db.rows[id], SandboxJob, {step.runId}) { JobCalls(w, h, id, p); }
    hide After, DbAfter, WellOwned, Called, Next, Allowed, IsObligation;
  }

  /** A driver becomes unaware by its check, when nothing is pending, or by being stranded. */
  lemma UnawareBefore(w: World, h: Happening, p: nat)
    requires Enabled(w, h) && p in DriversAfter(w, h) && DriversAfter(w, h)[p].place in {Dormant, Stranded, CheckingOutstanding}
    ensures p in w.drivers
    ensures Unaware(w, p) || (DbAfter(w, h) == w.db && ((h == CheckPending(p) && !HasPending(w.db, p)) || Strands(w, h, p)))
  {
    hide HasPending, HasOutstanding, Allowed, Elsewhere, OwnItem, Next;
  }

  /** A call for a registered driver, once it gets through, finds it awake or wakes it. */
  lemma AnswerWakes(w: World, h: Happening, p: nat)
    requires Enabled(w, h) && p in DriversAfter(w, h)
    requires h == Kick(p) || (h.Answer? && ParentIs(w.db, h.run, p))
    ensures DriversAfter(w, h)[p].place !in {Dormant, Stranded, CheckingOutstanding}
  {
  }

  /** An owed call stays owed until it gets through or its drive is stranded; if the driver is dropped first it goes on. */
  lemma OwingKept(w: World, h: Happening, c: nat, p: nat)
    requires Enabled(w, h) && Owing(w, c, p)
    ensures Owing(After(w, h), c, p) || h == Answer(c) || Strands(w, h, c) || (h == Unregister(c) && p in After(w, h).kicks)
  {
    TasksAfter(w, h, c);
    var a := After(w, h);
    assert a.db == DbAfter(w, h) && a.drivers == DriversAfter(w, h) && a.kicks == KicksAfter(w, h);
    hide After, DbAfter, HasPending, HasOutstanding, Allowed, Elsewhere, OwnItem;
    OwesKept(w, h, c);
  }

  lemma OwesKept(w: World, h: Happening, c: nat)
    requires Enabled(w, h) && c in w.drivers && w.drivers[c].owes
    ensures (c in DriversAfter(w, h) && DriversAfter(w, h)[c].owes) || h == Answer(c) || h == Unregister(c) || Strands(w, h, c)
  {
    hide HasPending, HasOutstanding, Allowed, Elsewhere, OwnItem;
  }

  lemma KicksKept(w: World, h: Happening, p: nat)
    requires Enabled(w, h) && p in w.kicks
    ensures p in KicksAfter(w, h) || h == Kick(p) || (h == DropCall(p) && w.kicks[p] == 1)
  {
    hide HasPending, HasOutstanding, Allowed, Elsewhere, OwnItem;
  }

  lemma OtherStillOwes(w: World, h: Happening, c: nat, p: nat)
    requires Enabled(w, h) && (h == Stop(c) || h == DriveFails(c)) && Strands(w, h, c) && p !in w.kicks && !OthersSilent(w, c, p)
    ensures Called(After(w, h), p)
  {
    var other :| other != c && Owing(w, other, p);
    assert !Strands(w, h, other);
    hide After, Enabled, HasPending, Unguarded, Owing, Strands;
    OwingKept(w, h, other, p);
  }

  /** A call stays under way unless the step answers it or cuts the last one. */
  lemma CallKept(w: World, h: Happening, p: nat)
    requires Enabled(w, h) && Called(w, p) && !CutsLastCall(w, h, p)
    ensures Called(After(w, h), p) || h == Kick(p) || (h.Answer? && ParentIs(w.db, h.run, p))
  {
    hide After, Enabled, KicksAfter, HasPending, IsRunning;
    AfterKicks(w, h);
    if p in w.kicks {
      KicksKept(w, h, p);
      if h == DropCall(p) && w.kicks[p] == 1 {
        var c :| Owing(w, c, p);
        OwingKept(w, h, c, p);
      }
    } else {
      var c :| Owing(w, c, p);
      assert ParentIs(w.db, c, p);
      OwingKept(w, h, c, p);
      if Strands(w, h, c) { OtherStillOwes(w, h, c, p); }
    }
  }

  lemma AfterKicks(w: World, h: Happening)
    requires Enabled(w, h)
    ensures After(w, h).kicks == KicksAfter(w, h)
  {
  }

  /** A stranded driver with pending work is still called if the step does not abandon it. */
  lemma StrandedIsCalled(w: World, h: Happening, p: nat)
    requires Enabled(w, h) && Strands(w, h, p) && HasPending(w.db, p) && !Abandons(w, h, p)
    ensures Called(After(w, h), p)
  {
    if p in w.kicks {
      assert After(w, h).kicks == KicksAfter(w, h) == w.kicks;
    } else {
      hide After, Enabled, HasPending, CutsLastCall;
      OtherStillOwes(w, h, p, p);
    }
  }

  lemma StaysCalled(w: World, h: Happening, p: nat)
    requires Protocol(w.db) && Enabled(w, h) && Noticed(w, p) && !Abandons(w, h, p) && Unaware(w, p)
    requires HasPending(DbAfter(w, h), p) && p in DriversAfter(w, h)
    requires DriversAfter(w, h)[p].place in {Dormant, Stranded, CheckingOutstanding}
    ensures Called(After(w, h), p)
  {
    hide After, DbAfter, DriversAfter, Enabled, HasPending, Called, CutsLastCall, Protocol;
    PendingIsCalled(w, h, p);
    if HasPending(w.db, p) {
      CallKept(w, h, p);
      if h == Kick(p) || (h.Answer? && ParentIs(w.db, h.run, p)) { AnswerWakes(w, h, p); }
    }
  }

  /** Any step but one that abandons it keeps pending work noticed. */
  lemma StepNoticed(w: World, h: Happening, p: nat)
    requires Protocol(w.db) && Enabled(w, h) && Noticed(w, p) && !Abandons(w, h, p)
    ensures Noticed(After(w, h), p)
  {
    var a := After(w, h);
    assert a.db == DbAfter(w, h) && a.drivers == DriversAfter(w, h);
    hide After, DbAfter, DriversAfter, Enabled, HasPending, Called, Abandons, Protocol, Strands;
    if Unaware(a, p) && HasPending(a.db, p) {
      UnawareBefore(w, h, p);
      if Unaware(w, p) {
        StaysCalled(w, h, p);
      } else {
        StrandedIsCalled(w, h, p);
      }
    }
  }

  lemma CutsAreQuiet(w: World, h: Happening, p: nat)
    requires Enabled(w, h) && (CutsLastCall(w, h, p) || Strands(w, h, p))
    ensures DbAfter(w, h) == w.db
  {
  }

  /** After the last call is cut, and equally after the uncalled driver itself is stranded, nobody owes it one. */
  lemma NotOwingAfterCut(w: World, h: Happening, c: nat, p: nat)
    requires Enabled(w, h) && (CutsLastCall(w, h, p) || (Strands(w, h, p) && OthersSilent(w, p, p)))
    ensures !Owing(After(w, h), c, p)
  {
    OwingOutlivesCut(w, h, c, p);
    hide After, Enabled, Owing;
  }

  lemma OwingOutlivesCut(w: World, h: Happening, c: nat, p: nat)
    requires Enabled(w, h) && (CutsLastCall(w, h, p) || Strands(w, h, p))
    ensures h.DropCall? || h.Stop? || h.DriveFails?
    ensures Owing(After(w, h), c, p) ==> Owing(w, c, p) && (h.DropCall? || c != h.run)
  {
    CutsAreQuiet(w, h, p);
    DriversAfterCut(w, h, c, p);
    assert After(w, h).db == DbAfter(w, h) && After(w, h).drivers == DriversAfter(w, h);
    hide After, DbAfter, DriversAfter, HasPending, Enabled, CutsLastCall, Strands;
  }

  lemma DriversAfterCut(w: World, h: Happening, c: nat, p: nat)
    requires Enabled(w, h) && (CutsLastCall(w, h, p) || Strands(w, h, p))
    ensures h.DropCall? || h.Stop? || h.DriveFails?
    ensures c in DriversAfter(w, h) ==> c in w.drivers && if !h.DropCall? && c == h.run then !DriversAfter(w, h)[c].owes
                                                         else DriversAfter(w, h)[c] == w.drivers[c]
  {
    hide HasPending, HasOutstanding;
  }

  lemma NoKicksAfterCut(w: World, h: Happening, p: nat)
    requires Enabled(w, h) && (CutsLastCall(w, h, p) || (Strands(w, h, p) && OthersSilent(w, p, p)))
    ensures p !in After(w, h).kicks
  {
    assert After(w, h).kicks == KicksAfter(w, h);
    hide After, Owing;
  }

  lemma UnawareAfterCut(w: World, h: Happening, p: nat)
    requires Enabled(w, h) && ((Unaware(w, p) && CutsLastCall(w, h, p)) || Strands(w, h, p))
    ensures Unaware(After(w, h), p)
  {
    assert After(w, h).drivers == DriversAfter(w, h);
    PlaceAfterCut(w, h, p);
    hide After, DriversAfter, Enabled, CutsLastCall;
  }

  /** Stranding leaves every other driver where it is, and so does a dropped call. */
  lemma PlaceAfterCut(w: World, h: Happening, p: nat)
    requires Enabled(w, h) && (CutsLastCall(w, h, p) || Strands(w, h, p)) && p in w.drivers
    ensures p in DriversAfter(w, h)
    ensures DriversAfter(w, h)[p].place == if Strands(w, h, p) then Stranded else w.drivers[p].place
  {
    hide Owing, HasPending, HasOutstanding, OthersSilent, Allowed;
  }

  /** A step that abandons pending work leaves it to a driver without a drive, and nobody calls that. */
  lemma AbandonedIsMissed(w: World, h: Happening, p: nat)
    requires Enabled(w, h) && Abandons(w, h, p)
    ensures !Noticed(After(w, h), p)
  {
    CutsAreQuiet(w, h, p);
    assert After(w, h).db == DbAfter(w, h);
    hide After, DbAfter, HasPending, Strands, CutsLastCall, OthersSilent, Enabled, Owing, Unaware;
    NoKicksAfterCut(w, h, p);
    UnawareAfterCut(w, h, p);
    forall c { NotOwingAfterCut(w, h, c, p); }
  }

  lemma {:induction false} NoticedUpTo(worlds: seq<World>, steps: seq<Happening>, i: nat, p: nat)
    requires IsRun(worlds, steps) && i < |worlds|
    requires forall j :: 0 <= j < i ==> !Abandons(worlds[j], steps[j], p)
    ensures Noticed(worlds[i], p)
  {
    if i > 0 {
      NoticedUpTo(worlds, steps, i - 1, p);
      EveryRunKeepsTables(worlds, steps, i - 1);
      assert Leads(worlds[i - 1], steps[i - 1], worlds[i - 1 + 1]);
      hide Noticed, Protocol, After, Enabled, Abandons;
      StepNoticed(worlds[i - 1], steps[i - 1], p);
    }
  }

  /**
   * No lost wake-up, exactly. Throughout a run, pending work of a registered driver that is asleep, stranded or about
   * to sleep has a wake-up call under way or owed by the drive whose commit made it pending, if and only if no step of
   * the run abandons such work: by cutting the last call, or by stranding the driver itself while nobody calls it.
   */
  lemma WakeUpsAreLostExactly(worlds: seq<World>, steps: seq<Happening>)
    requires IsRun(worlds, steps)
    ensures (forall i :: 0 <= i < |worlds| ==> AllNoticed(worlds[i]))
            <==> (forall i, p: nat :: 0 <= i < |steps| ==> !Abandons(worlds[i], steps[i], p))
  {
    hide Noticed, Abandons, After, Enabled;
    if forall i, p: nat :: 0 <= i < |steps| ==> !Abandons(worlds[i], steps[i], p) {
      forall i, p: nat | 0 <= i < |worlds|
        ensures Noticed(worlds[i], p)
      {
        NoticedUpTo(worlds, steps, i, p);
      }
    }
    if forall i :: 0 <= i < |worlds| ==> AllNoticed(worlds[i]) {
      forall i, p: nat | 0 <= i < |steps|
        ensures !Abandons(worlds[i], steps[i], p)
      {
        NotStruck(worlds, steps, i, p);
      }
    }
  }

  lemma NotStruck(worlds: seq<World>, steps: seq<Happening>, i: nat, p: nat)
    requires IsRun(worlds, steps) && i < |steps| && Noticed(worlds[i + 1], p)
    ensures !Abandons(worlds[i], steps[i], p)
  {
    assert Leads(worlds[i], steps[i], worlds[i + 1]);
    hide Noticed, Abandons, After, Enabled;
    if Abandons(worlds[i], steps[i], p) { AbandonedIsMissed(worlds[i], steps[i], p); }
  }

  /**
   * An owed call is safe, however often its drive is cancelled and whatever errors it meets, until the call gets
   * through, the drive is stranded, or a teardown drops the registration and takes the call over.
   */
  lemma {:induction false} OwedCallSurvives(worlds: seq<World>, steps: seq<Happening>, i: nat, j: nat, c: nat, p: nat)
    requires IsRun(worlds, steps) && i <= j < |worlds| && Owing(worlds[i], c, p)
    requires forall k :: i <= k < j ==>
               steps[k] != Answer(c) && steps[k] != Unregister(c) && !Strands(worlds[k], steps[k], c)
    ensures Owing(worlds[j], c, p)
    decreases j
  {
    hide Owing, Strands, Leads;
    if i < j {
      OwedCallSurvives(worlds, steps, i, j - 1, c, p);
      OwingInRun(worlds, steps, j - 1, c, p);
    }
  }

  lemma OwingInRun(worlds: seq<World>, steps: seq<Happening>, i: nat, c: nat, p: nat)
    requires IsRun(worlds, steps) && i < |steps| && Owing(worlds[i], c, p)
    requires steps[i] != Answer(c) && steps[i] != Unregister(c) && !Strands(worlds[i], steps[i], c)
    ensures Owing(worlds[i + 1], c, p)
  {
    RunStep(worlds, steps, i);
    hide IsRun, After, Enabled, Strands, Owing;
    OwingKept(worlds[i], steps[i], c, p);
  }

  // ----- Sleepers -----

  /** A sleeping driver has something outstanding, or is being called. */
  ghost predicate WillWake(w: World, p: nat) {
    At(w, p, Dormant) ==> HasOutstanding(w.db, p) || Called(w, p)
  }

  /** The cancelling transaction hits the row. */
  predicate Hits(db: Db, step: Step, n: Notification) {
    match step
    case DoFinishTask(r, _, _, _, _) => IsRunning(db, r) && Owes(n, SubagentFinished, {r})
    case DoCancelTasks(session, parent, _, _) => Owes(n, SubagentFinished, RunningOf(db, session, parent))
    case DoCancelSession(session, target, _, _) => CancelHits(n, session, target)
    case _ => false
  }

  /** Something is outstanding for `p`, and the transaction cancels all of it. */
  predicate CancelsAll(db: Db, step: Step, p: nat) {
    && HasOutstanding(db, p)
    && forall id :: id in db.rows && db.rows[id].target == SubAgent(p) && Outstanding(db.rows[id]) ==> Hits(db, step, db.rows[id])
  }

  /**
   * The step leaves the sleeping `p` with nothing to wait for: a transaction that belongs to no driver cancels all that
   * is outstanding while nobody calls, or the last call is cut when nothing is outstanding.
   */
  ghost predicate Forgets(w: World, h: Happening, p: nat) {
    && At(w, p, Dormant)
    && if h.Transaction? then CancelsAll(w.db, h.step, p) && !Called(w, p)
       else CutsLastCall(w, h, p) && !HasOutstanding(w.db, p)
  }

  /** Transactions that belong to no driver take nothing from the outstanding rows of a sub-agent but what they cancel. */
  lemma ElsewhereCancels(db: Db, step: Step, p: nat)
    requires Allowed(db, step) && Elsewhere(db, step)
    ensures HasOutstanding(db, p) && !HasOutstanding(Next(db, step), p) <==> CancelsAll(db, step, p)
  {
    hide IsNext;
    forall id | id in db.rows && db.rows[id].target == SubAgent(p) && Outstanding(db.rows[id])
      ensures id in Next(db, step).rows && Next(db, step).rows[id].target == SubAgent(p)
      ensures Outstanding(Next(db, step).rows[id]) <==> !Hits(db, step, db.rows[id])
    {
    }
    forall id | id in Next(db, step).rows && Next(db, step).rows[id].target == SubAgent(p) && Outstanding(Next(db, step).rows[id])
      ensures id in db.rows && db.rows[id].target == SubAgent(p) && Outstanding(db.rows[id])
    {
    }
  }

  /** Who can settle a row that is outstanding for a sleeping driver. */
  lemma SettledBy(w: World, h: Happening, id: nat, p: nat)
    requires WellOwned(w.db) && Enabled(w, h) && At(w, p, Dormant)
    requires id in w.db.rows && w.db.rows[id].target == SubAgent(p) && Outstanding(w.db.rows[id])
    requires id in DbAfter(w, h).rows && !Outstanding(DbAfter(w, h).rows[id])
    ensures || h.Transaction?
            || ((h.Commit? || h.TearCommit?) && IsObligation(w.db.rows, id, h.run))
            || (h.JobEnds? && Owes(w.db.rows[id], SandboxJob, {w.db.rows[h.id].runId}))
  {
    hide IsNext, Elsewhere;
  }

  /** When the last outstanding row of a sleeper goes, it is called, unless that was a transaction of nobody's drive. */
  lemma LastRowIsCalled(w: World, h: Happening, p: nat)
    requires WellOwned(w.db) && Enabled(w, h) && !h.Transaction? && At(w, p, Dormant)
    requires HasOutstanding(w.db, p) && !HasOutstanding(DbAfter(w, h), p)
    ensures Called(After(w, h), p)
  {
    var id :| id in w.db.rows && w.db.rows[id].target == SubAgent(p) && Outstanding(w.db.rows[id]);
    RowsAfter(w, h, id);
    hide After, DbAfter, Enabled, WellOwned, Called, Outstanding, IsObligation, Owes;
    SettledBy(w, h, id, p);
    if h.Commit? {
      CommitCalls(w, h, id, p);
    } else if h.TearCommit? {
      TearCalls(w, h, id, p);
    } else {
      JobCalls(w, h, id, p);
    }
  }

  lemma TearCalls(w: World, h: Happening, id: nat, p: nat)
    requires Enabled(w, h) && h.TearCommit? && WellOwned(w.db)
    requires IsObligation(w.db.rows, id, h.run) && w.db.rows[id].target == SubAgent(p)
    ensures Called(After(w, h), p)
  {
    assert After(w, h).kicks == KicksAfter(w, h);
    hide After;
  }

  lemma DormantBefore(w: World, h: Happening, p: nat)
    requires Enabled(w, h) && p in DriversAfter(w, h) && DriversAfter(w, h)[p].place == Dormant
    ensures p in w.drivers
    ensures At(w, p, Dormant) || (h == CheckOutstanding(p) && HasOutstanding(w.db, p) && DbAfter(w, h) == w.db)
    ensures h != Kick(p) && !(h.Answer? && ParentIs(w.db, h.run, p))
  {
    hide HasPending, HasOutstanding, Allowed, Elsewhere, OwnItem, Next;
  }

  lemma SleeperStays(w: World, h: Happening, p: nat)
    requires Protocol(w.db) && Enabled(w, h) && At(w, p, Dormant) && WillWake(w, p) && !Forgets(w, h, p)
    requires h != Kick(p) && !(h.Answer? && ParentIs(w.db, h.run, p))
    ensures HasOutstanding(DbAfter(w, h), p) || Called(After(w, h), p)
  {
    assert WellOwned(w.db);
    if h.Transaction? { TransactionSettles(w, h, p); }
    hide After, Enabled, HasOutstanding, Called, CutsLastCall, Protocol, WellOwned, DbAfter, CancelsAll;
    if CutsLastCall(w, h, p) { CutsAreQuiet(w, h, p); }
    if Called(w, p) && !CutsLastCall(w, h, p) {
      CallKept(w, h, p);
    } else if !h.Transaction? && HasOutstanding(w.db, p) && !HasOutstanding(DbAfter(w, h), p) {
      LastRowIsCalled(w, h, p);
    }
  }

  lemma TransactionSettles(w: World, h: Happening, p: nat)
    requires Enabled(w, h) && h.Transaction?
    ensures HasOutstanding(w.db, p) && !HasOutstanding(DbAfter(w, h), p) <==> CancelsAll(w.db, h.step, p)
    ensures !CutsLastCall(w, h, p)
  {
    ElsewhereCancels(w.db, h.step, p);
    hide Next, Elsewhere, Allowed, HasOutstanding, CancelsAll;
  }

  lemma StepWillWake(w: World, h: Happening, p: nat)
    requires Protocol(w.db) && Enabled(w, h) && WillWake(w, p) && !Forgets(w, h, p)
    ensures WillWake(After(w, h), p)
  {
    var a := After(w, h);
    assert a.db == DbAfter(w, h) && a.drivers == DriversAfter(w, h);
    hide After, DbAfter, DriversAfter, Enabled, HasOutstanding, Called, Forgets, Protocol;
    if At(a, p, Dormant) {
      DormantBefore(w, h, p);
      if At(w, p, Dormant) { SleeperStays(w, h, p); }
    }
  }

  lemma ForgottenSleeps(w: World, h: Happening, p: nat)
    requires Enabled(w, h) && Forgets(w, h, p)
    ensures !WillWake(After(w, h), p)
  {
    if h.Transaction? {
      CanceledSleeps(w, h, p);
    } else {
      CutSleeps(w, h, p);
    }
  }

  lemma CanceledSleeps(w: World, h: Happening, p: nat)
    requires Enabled(w, h) && h.Transaction? && Forgets(w, h, p)
    ensures !WillWake(After(w, h), p)
  {
    var a := After(w, h);
    assert a.db == DbAfter(w, h) && a.kicks == w.kicks && a.drivers == w.drivers;
    TransactionSettles(w, h, p);
    hide After, HasOutstanding, DbAfter, Enabled, CancelsAll, Owing;
    forall c { OwingBefore(w, h, c, p); }
  }

  lemma OwingBefore(w: World, h: Happening, c: nat, p: nat)
    requires Enabled(w, h) && h.Transaction?
    ensures Owing(After(w, h), c, p) ==> Owing(w, c, p)
  {
    TasksAfter(w, h, c);
    assert After(w, h).db == DbAfter(w, h) && After(w, h).drivers == w.drivers;
    hide After, DbAfter, Enabled;
  }

  lemma CutSleeps(w: World, h: Happening, p: nat)
    requires Enabled(w, h) && !h.Transaction? && Forgets(w, h, p)
    ensures !WillWake(After(w, h), p)
  {
    CutsAreQuiet(w, h, p);
    DormantAfterCut(w, h, p);
    assert After(w, h).db == DbAfter(w, h);
    hide After, DbAfter, HasOutstanding, Strands, CutsLastCall, Enabled, Owing, At;
    NoKicksAfterCut(w, h, p);
    forall c { NotOwingAfterCut(w, h, c, p); }
  }

  lemma DormantAfterCut(w: World, h: Happening, p: nat)
    requires Enabled(w, h) && At(w, p, Dormant) && CutsLastCall(w, h, p)
    ensures At(After(w, h), p, Dormant)
  {
    assert After(w, h).drivers == DriversAfter(w, h);
    PlaceAfterCut(w, h, p);
    hide After, DriversAfter, Enabled, CutsLastCall;
  }

  lemma {:induction false} WillWakeUpTo(worlds: seq<World>, steps: seq<Happening>, i: nat, p: nat)
    requires IsRun(worlds, steps) && i < |worlds|
    requires forall j :: 0 <= j < i ==> !Forgets(worlds[j], steps[j], p)
    ensures WillWake(worlds[i], p)
  {
    if i > 0 {
      WillWakeUpTo(worlds, steps, i - 1, p);
      EveryRunKeepsTables(worlds, steps, i - 1);
      assert Leads(worlds[i - 1], steps[i - 1], worlds[i - 1 + 1]);
      hide WillWake, Protocol, After, Enabled, Forgets;
      StepWillWake(worlds[i - 1], steps[i - 1], p);
    }
  }

  lemma NotForgotten(worlds: seq<World>, steps: seq<Happening>, i: nat, p: nat)
    requires IsRun(worlds, steps) && i < |steps| && WillWake(worlds[i + 1], p)
    ensures !Forgets(worlds[i], steps[i], p)
  {
    assert Leads(worlds[i], steps[i], worlds[i + 1]);
    hide WillWake, Forgets, After, Enabled;
    if Forgets(worlds[i], steps[i], p) { ForgottenSleeps(worlds[i], steps[i], p); }
  }

  ghost predicate AllWillWake(w: World) {
    forall p :: WillWake(w, p)
  }

  /**
   * No sleeper is forgotten, exactly. Throughout a run every sleeping driver has something outstanding or is being
   * called, if and only if no step of the run makes one forgotten.
   */
  lemma SleepersAreForgottenExactly(worlds: seq<World>, steps: seq<Happening>)
    requires IsRun(worlds, steps)
    ensures (forall i :: 0 <= i < |worlds| ==> AllWillWake(worlds[i]))
            <==> (forall i, p: nat :: 0 <= i < |steps| ==> !Forgets(worlds[i], steps[i], p))
  {
    hide WillWake, Forgets, After, Enabled;
    if forall i, p: nat :: 0 <= i < |steps| ==> !Forgets(worlds[i], steps[i], p) {
      forall i, p: nat | 0 <= i < |worlds|
        ensures WillWake(worlds[i], p)
      {
        WillWakeUpTo(worlds, steps, i, p);
      }
    }
    if forall i :: 0 <= i < |worlds| ==> AllWillWake(worlds[i]) {
      forall i, p: nat | 0 <= i < |steps|
        ensures !Forgets(worlds[i], steps[i], p)
      {
        NotForgotten(worlds, steps, i, p);
      }
    }
  }

  // ----- Runs from the empty world -----

  const PARENT := DoCreate(0, 0, 0, true, MainAgent("main"), "", 0)
  const CHILD := DoCreate(1, 1, 0, true, SubAgent(0), "", 0)

  /** A task of the main agent, its driver, and possibly a starter under way. */
  function Alone(d: Driver, starters: multiset<nat>): World {
    World(Next(Db(map[], map[]), PARENT), map[0 := d], {}, {}, multiset{}, starters, multiset{}, {})
  }

  /** The task and its child, both registered. */
  function Family(parent: Driver, child: Driver): World {
    World(Next(Next(Db(map[], map[]), PARENT), CHILD), map[0 := parent, 1 := child], {}, {}, multiset{}, multiset{}, multiset{}, {})
  }

  const AWAKE := FRESH.(place := Draining)
  const ASLEEP := FRESH.(place := Dormant)

  lemma ParentRegistered()
    ensures Reachable(Alone(FRESH, multiset{}))
  {
    EmptyIsReachable();
    OneMoreStep(EMPTY, Create(PARENT));
    var w := After(EMPTY, Create(PARENT));
    assert w == EMPTY.(db := Next(Db(map[], map[]), PARENT), born := {0});
    OneMoreStep(w, Register(0));
    assert After(w, Register(0)) == Alone(FRESH, multiset{});
  }

  lemma StarterUnderWay()
    ensures Reachable(Alone(AWAKE, multiset{0}))
  {
    hide Reachable;
    ParentRegistered();
    OneMoreStep(Alone(FRESH, multiset{}), Begin(0));
    assert After(Alone(FRESH, multiset{}), Begin(0)) == Alone(AWAKE, multiset{});
    OneMoreStep(Alone(AWAKE, multiset{}), StarterBegins(0));
    assert After(Alone(AWAKE, multiset{}), StarterBegins(0)) == Alone(AWAKE, multiset{0});
  }

  lemma NothingPendingYet(db: Db)
    requires db == Next(Db(map[], map[]), PARENT) || db == Next(Next(Db(map[], map[]), PARENT), CHILD)
    ensures !HasPending(db, 0)
    ensures HasOutstanding(db, 0) <==> db == Next(Next(Db(map[], map[]), PARENT), CHILD)
    ensures IsRunning(db, 0)
  {
    var one := Next(Db(map[], map[]), PARENT);
    var two := Next(one, CHILD);
    assert one.rows == map[0 := Obligation(0, 0, SubagentFinished, 0, MainAgent("main"), "", 0)];
    assert two.rows == one.rows[1 := Obligation(1, 1, SubagentFinished, 0, SubAgent(0), "", 0)];
    assert 1 in two.rows && Outstanding(two.rows[1]) && two.rows[1].target == SubAgent(0);
  }

  /** A drive comes to its second check while the tables stand still. */
  lemma Settles(w: World, r: nat)
    requires Reachable(w) && r in w.drivers && w.drivers[r] == AWAKE && !HasPending(w.db, r)
    ensures Reachable(w.(drivers := w.drivers[r := FRESH.(place := CheckingOutstanding)]))
  {
    hide HasPending, Reachable;
    var w1 := w.(drivers := w.drivers[r := FRESH.(place := Settling)]);
    var w2 := w.(drivers := w.drivers[r := FRESH.(place := CheckingPending)]);
    OneMoreStep(w, DrainEnds(r));
    assert After(w, DrainEnds(r)) == w1;
    OneMoreStep(w1, TakeLock(r));
    assert After(w1, TakeLock(r)) == w2;
    OneMoreStep(w2, CheckPending(r));
    assert After(w2, CheckPending(r)) == w.(drivers := w.drivers[r := FRESH.(place := CheckingOutstanding)]);
  }

  /** The check itself, with something outstanding and without. */
  lemma Checks(w: World, r: nat)
    requires Reachable(w) && r in w.drivers && w.drivers[r] == FRESH.(place := CheckingOutstanding)
    ensures Reachable(w.(drivers := w.drivers[r := if HasOutstanding(w.db, r) then ASLEEP
                                                   else FRESH.(place := Completing, starterAtCheck := r in w.starters)]))
  {
    hide HasOutstanding, Reachable;
    OneMoreStep(w, CheckOutstanding(r));
    assert After(w, CheckOutstanding(r)).drivers == w.drivers[r := Settled(w, r)];
  }

  lemma StarterLeftBehind()
    ensures Reachable(Alone(FRESH.(place := Completing, starterAtCheck := true), multiset{0}))
  {
    StarterUnderWay();
    var start := Alone(AWAKE, multiset{0});
    NothingPendingYet(start.db);
    hide Reachable, Next, HasPending, HasOutstanding;
    Settles(start, 0);
    var w1 := Alone(FRESH.(place := CheckingOutstanding), multiset{0});
    assert start.(drivers := start.drivers[0 := FRESH.(place := CheckingOutstanding)]) == w1;
    Checks(w1, 0);
    assert w1.drivers[0 := FRESH.(place := Completing, starterAtCheck := true)]
           == map[0 := FRESH.(place := Completing, starterAtCheck := true)];
  }

  /** A starter that outlives its turn: the parent passes both checks, and its child is registered only then. */
  lemma OutlivingStarterIsMissed() returns (w: World)
    ensures Reachable(w) && At(w, 0, Completing) && HasOutstanding(w.db, 0) && w.drivers[0].late == {1}
  {
    StarterLeftBehind();
    hide Reachable;
    var before := Alone(FRESH.(place := Completing, starterAtCheck := true), multiset{0});
    OneMoreStep(before, Create(CHILD));
    w := After(before, Create(CHILD));
    NothingPendingYet(w.db);
    assert {} + {1} == {1};
  }

  /** The child is created and not registered yet. */
  function Expecting(parent: Driver): World {
    Family(parent, FRESH).(drivers := map[0 := parent], born := {1})
  }

  lemma ChildCreated()
    ensures Reachable(Expecting(AWAKE))
  {
    hide Reachable;
    StarterUnderWay();
    OneMoreStep(Alone(AWAKE, multiset{0}), Create(CHILD));
    assert multiset{0} - multiset{0} == multiset{};
    assert After(Alone(AWAKE, multiset{0}), Create(CHILD)) == Expecting(AWAKE);
  }

  lemma BothRegistered()
    ensures Reachable(Family(AWAKE, AWAKE))
  {
    hide Reachable;
    ChildCreated();
    OneMoreStep(Expecting(AWAKE), Register(1));
    assert map[0 := AWAKE][1 := FRESH] == map[0 := AWAKE, 1 := FRESH];
    assert After(Expecting(AWAKE), Register(1)) == Family(AWAKE, FRESH);
    OneMoreStep(Family(AWAKE, FRESH), Begin(1));
    assert map[0 := AWAKE, 1 := FRESH][1 := AWAKE] == map[0 := AWAKE, 1 := AWAKE];
    assert After(Family(AWAKE, FRESH), Begin(1)) == Family(AWAKE, AWAKE);
  }

  lemma ParentSleeps()
    ensures Reachable(Family(ASLEEP, AWAKE))
  {
    BothRegistered();
    var start := Family(AWAKE, AWAKE);
    NothingPendingYet(start.db);
    hide Reachable, Next, HasPending, HasOutstanding;
    Settles(start, 0);
    var w1 := Family(FRESH.(place := CheckingOutstanding), AWAKE);
    assert start.drivers[0 := FRESH.(place := CheckingOutstanding)] == w1.drivers;
    Checks(w1, 0);
    assert w1.drivers[0 := ASLEEP] == (Family(ASLEEP, AWAKE)).drivers;
  }

  lemma ExpectingSleeps()
    ensures Reachable(Expecting(ASLEEP))
  {
    ChildCreated();
    var start := Expecting(AWAKE);
    NothingPendingYet(start.db);
    hide Reachable, Next, HasPending, HasOutstanding;
    Settles(start, 0);
    var w1 := Expecting(FRESH.(place := CheckingOutstanding));
    assert start.drivers[0 := FRESH.(place := CheckingOutstanding)] == w1.drivers;
    Checks(w1, 0);
    assert w1.drivers[0 := ASLEEP] == (Expecting(ASLEEP)).drivers;
  }

  /** A child canceled before it was registered: its parent sleeps on with nothing outstanding and nobody to call it. */
  lemma UnregisteredChildIsForgotten() returns (w: World, h: Happening)
    ensures Reachable(w) && Enabled(w, h) && Forgets(w, h, 0)
    ensures Reachable(After(w, h)) && !WillWake(After(w, h), 0)
  {
    ExpectingSleeps();
    w, h := Expecting(ASLEEP), Transaction(DoFinishTask(1, Stopped, "", "canceled", 0));
    OnlyChildRow(w.db);
    hide Reachable, WillWake, Next;
    OneMoreStep(w, h);
    assert CancelsAll(w.db, h.step, 0);
    ForgottenSleeps(w, h, 0);
  }

  lemma OnlyChildRow(db: Db)
    requires db == Next(Next(Db(map[], map[]), PARENT), CHILD)
    ensures HasOutstanding(db, 0) && IsRunning(db, 1)
    ensures forall id :: id in db.rows && db.rows[id].target == SubAgent(0) ==> Owes(db.rows[id], SubagentFinished, {1})
  {
    assert db.rows == map[0 := Obligation(0, 0, SubagentFinished, 0, MainAgent("main"), "", 0),
                          1 := Obligation(1, 1, SubagentFinished, 0, SubAgent(0), "", 0)];
    assert 1 in db.rows && Outstanding(db.rows[1]) && db.rows[1].target == SubAgent(0);
  }

  lemma ChildHasNoWork(db: Db)
    requires db == Next(Next(Db(map[], map[]), PARENT), CHILD)
    ensures !HasPending(db, 1) && !HasOutstanding(db, 1) && IsRunning(db, 1)
  {
    assert db.rows == map[0 := Obligation(0, 0, SubagentFinished, 0, MainAgent("main"), "", 0),
                          1 := Obligation(1, 1, SubagentFinished, 0, SubAgent(0), "", 0)];
  }

  lemma ChildFails()
    ensures Reachable(Family(ASLEEP, FRESH.(place := Failing)))
  {
    hide Reachable;
    ParentSleeps();
    OneMoreStep(Family(ASLEEP, AWAKE), DriveFails(1));
    assert After(Family(ASLEEP, AWAKE), DriveFails(1)) == Family(ASLEEP, FRESH.(place := Failing));
  }

  lemma ChildCompletes(parent: Driver)
    requires Reachable(Family(parent, AWAKE))
    ensures Reachable(Family(parent, FRESH.(place := Completing)))
  {
    hide Reachable;
    var start := Family(parent, AWAKE);
    ChildHasNoWork(start.db);
    Settles(start, 1);
    var w1 := Family(parent, FRESH.(place := CheckingOutstanding));
    assert start.drivers[1 := FRESH.(place := CheckingOutstanding)] == w1.drivers;
    OneMoreStep(w1, CheckOutstanding(1));
    assert After(w1, CheckOutstanding(1)) == Family(parent, FRESH.(place := Completing));
  }

  /** The world after the child's commit. */
  function Ended(parent: Driver, child: Driver): World {
    Family(parent, Committed(child)).(db := FinishTask(Family(parent, child).db, 1, EndStatus(child), "", "", 0))
  }

  /** Whether the child fails or succeeds, its commit gives its parent work and leaves the one call to it. */
  lemma ChildCommits(parent: Driver, child: Driver)
    requires Reachable(Family(parent, child)) && child in {FRESH.(place := Failing), FRESH.(place := Completing)}
    requires !parent.owes
    ensures var w := Ended(parent, child);
            && Reachable(w) && HasPending(w.db, 0) && ParentIs(w.db, 1, 0) && !ParentIs(w.db, 0, 0)
            && Owing(w, 1, 0) && OthersSilent(w, 1, 0)
  {
    hide Reachable, HasPending;
    var before, h := Family(parent, child), Commit(1, "", "", 0);
    ChildHasNoWork(before.db);
    OneMoreStep(before, h);
    CommittedChild(parent, child);
    EndIsPending(before.db, EndStatus(child));
  }

  lemma CommittedChild(parent: Driver, child: Driver)
    requires child in {FRESH.(place := Failing), FRESH.(place := Completing)}
    requires Enabled(Family(parent, child), Commit(1, "", "", 0))
    ensures After(Family(parent, child), Commit(1, "", "", 0)) == Ended(parent, child)
  {
    hide FinishTask;
    assert map[0 := parent, 1 := child][1 := Committed(child)] == map[0 := parent, 1 := Committed(child)];
  }

  lemma EndIsPending(db: Db, status: TaskStatus)
    requires db == Next(Next(Db(map[], map[]), PARENT), CHILD) && status in {Succeeded, Broken}
    ensures var after := FinishTask(db, 1, status, "", "", 0);
            HasPending(after, 0) && ParentIs(after, 1, 0) && !ParentIs(after, 0, 0)
  {
    var after := FinishTask(db, 1, status, "", "", 0);
    assert 1 in after.rows && after.rows[1].target == SubAgent(0) && after.rows[1].status == Pending;
  }

  lemma Abandoned(w: World, h: Happening, p: nat)
    requires Reachable(w) && Enabled(w, h) && Abandons(w, h, p)
    ensures Reachable(After(w, h)) && !Noticed(After(w, h), p)
  {
    hide Reachable, Noticed, Abandons, After, Enabled;
    OneMoreStep(w, h);
    AbandonedIsMissed(w, h, p);
  }

  lemma FailedChildIsCut(w: World)
    requires w == Ended(ASLEEP, FRESH.(place := Failing)) && HasPending(w.db, 0)
    requires ParentIs(w.db, 1, 0) && !ParentIs(w.db, 0, 0) && Owing(w, 1, 0) && OthersSilent(w, 1, 0)
    ensures Enabled(w, Stop(1)) && At(w, 1, ClosingFailed) && Abandons(w, Stop(1), 0)
  {
    hide HasPending, OthersSilent, FinishTask, After;
  }

  /** The child fails, commits, and is cancelled before it calls its sleeping parent: the wake-up is lost. */
  lemma CutFailureLosesWakeUp() returns (w: World)
    ensures Reachable(w) && Enabled(w, Stop(1)) && At(w, 1, ClosingFailed) && Abandons(w, Stop(1), 0)
    ensures Reachable(After(w, Stop(1))) && !Noticed(After(w, Stop(1)), 0)
  {
    ChildFails();
    ChildCommits(ASLEEP, FRESH.(place := Failing));
    w := Ended(ASLEEP, FRESH.(place := Failing));
    FailedChildIsCut(w);
    hide Reachable, Noticed, Ended, After, Enabled, Abandons;
    Abandoned(w, Stop(1), 0);
  }

  /** The world after the child has called. */
  function Answered(parent: Driver): World {
    Ended(parent, FRESH.(place := Completing)).(drivers := map[0 := parent, 1 := FRESH.(place := Closing)])
  }

  lemma ChildAnswers(parent: Driver, after: Driver)
    requires Reachable(Family(parent, AWAKE)) && parent in {AWAKE, ASLEEP}
    requires after == if parent == ASLEEP then FRESH else AWAKE
    ensures Reachable(Answered(after)) && HasPending(Answered(after).db, 0)
  {
    hide Reachable, HasPending;
    ChildCompletes(parent);
    ChildCommits(parent, FRESH.(place := Completing));
    CallGetsThrough(parent, after);
    hide After, Ended, Family;
    OneMoreStep(Ended(parent, FRESH.(place := Completing)), Answer(1));
  }

  lemma CallGetsThrough(parent: Driver, after: Driver)
    requires parent in {AWAKE, ASLEEP} && after == if parent == ASLEEP then FRESH else AWAKE
    requires ParentIs(Ended(parent, FRESH.(place := Completing)).db, 1, 0)
    ensures var w := Ended(parent, FRESH.(place := Completing));
            && Enabled(w, Answer(1)) && After(w, Answer(1)) == Answered(after) && Answered(after).db == w.db
  {
    var w := Ended(parent, FRESH.(place := Completing));
    hide FinishTask, Next;
    assert w.drivers == map[0 := parent, 1 := Committed(FRESH.(place := Completing))];
    assert DriversAfter(w, Answer(1)) == map[0 := after, 1 := FRESH.(place := Closing)];
  }

  lemma NobodyOwes(w: World, p: nat)
    requires w.kicks == multiset{} && forall c :: c in w.drivers ==> !w.drivers[c].owes
    ensures OthersSilent(w, p, p)
  {
  }

  /** Work waits for a driver that nobody calls, and the step strands its drive. */
  lemma UncalledIsAbandoned(d: Driver, h: Happening)
    requires Reachable(Answered(d)) && HasPending(Answered(d).db, 0) && !d.owes
    requires Enabled(Answered(d), h) && Strands(Answered(d), h, 0)
    ensures Abandons(Answered(d), h, 0)
    ensures Reachable(After(Answered(d), h)) && !Noticed(After(Answered(d), h), 0)
  {
    NobodyOwes(Answered(d), 0);
    hide Reachable, Noticed, HasPending, OthersSilent, FinishTask, After, Enabled, Strands;
    Abandoned(Answered(d), h, 0);
  }

  lemma SpawnedCanBeStruck()
    ensures var w := Answered(FRESH); At(w, 0, Spawned) && Enabled(w, Stop(0)) && Strands(w, Stop(0), 0)
  {
    hide FinishTask, Next;
  }

  /** The call got through, and the drive it started is cancelled before its first step: the work is left. */
  lemma CutBeforeBeginLosesWork() returns (w: World)
    ensures Reachable(w) && Enabled(w, Stop(0)) && At(w, 0, Spawned) && Abandons(w, Stop(0), 0)
    ensures Reachable(After(w, Stop(0))) && !Noticed(After(w, Stop(0)), 0)
  {
    ParentSleeps();
    ChildAnswers(ASLEEP, FRESH);
    w := Answered(FRESH);
    SpawnedCanBeStruck();
    hide Reachable, Noticed, HasPending, Abandons, FinishTask, After, Enabled, Strands, Answered;
    UncalledIsAbandoned(FRESH, Stop(0));
  }

  lemma ParentFails()
    ensures Reachable(Answered(FRESH.(place := Failing))) && HasPending(Answered(FRESH.(place := Failing)).db, 0)
  {
    BothRegistered();
    ChildAnswers(AWAKE, AWAKE);
    hide Reachable, HasPending, FinishTask, Next;
    ErrorAfterAnswer();
    hide After, Ended;
    OneMoreStep(Answered(AWAKE), DriveFails(0));
  }

  lemma ErrorAfterAnswer()
    ensures Enabled(Answered(AWAKE), DriveFails(0))
    ensures After(Answered(AWAKE), DriveFails(0)) == Answered(FRESH.(place := Failing))
    ensures Answered(AWAKE).db == Answered(FRESH.(place := Failing)).db
  {
    hide FinishTask, Next;
    var w := Answered(AWAKE);
    assert w.drivers[0 := Erred(AWAKE)] == map[0 := FRESH.(place := Failing), 1 := FRESH.(place := Closing)];
  }

  /** The call found the parent awake; then the parent meets an error, and another one in its failure handler. */
  lemma ErrorInHandlerLosesWork() returns (w: World)
    ensures Reachable(w) && Enabled(w, DriveFails(0)) && At(w, 0, Failing) && Abandons(w, DriveFails(0), 0)
    ensures Reachable(After(w, DriveFails(0))) && !Noticed(After(w, DriveFails(0)), 0)
  {
    ParentFails();
    w := Answered(FRESH.(place := Failing));
    hide Reachable, Noticed, HasPending, Abandons, FinishTask, After;
    UncalledIsAbandoned(FRESH.(place := Failing), DriveFails(0));
  }

  /** A cancellation inside the failure handler, before its commit, leaves a running task with a drive that is over. */
  lemma CutBeforeCommitStrands() returns (w: World)
    ensures Reachable(w) && At(w, 1, Stranded) && IsRunning(w.db, 1)
  {
    ChildFails();
    hide Reachable;
    var before := Family(ASLEEP, FRESH.(place := Failing));
    ChildHasNoWork(before.db);
    OneMoreStep(before, Stop(1));
    w := After(before, Stop(1));
  }

  /** So does one that strikes a drive before its first step. */
  lemma CutBeforeBeginStrands() returns (w: World)
    ensures Reachable(w) && At(w, 0, Stranded) && IsRunning(w.db, 0)
  {
    ParentRegistered();
    hide Reachable;
    var before := Alone(FRESH, multiset{});
    NothingPendingYet(before.db);
    OneMoreStep(before, Stop(0));
    w := After(before, Stop(0));
  }

  // ----- The registry and its sections between two awaits -----

  ghost predicate Sound(w: World) {
    Protocol(w.db) && forall r: nat :: LookedAfter(w, r) && LateKnown(w, r)
  }

  lemma StepIsSound(w: World, h: Happening)
    requires Sound(w) && Enabled(w, h)
    ensures Sound(After(w, h))
  {
    hide Protocol, LookedAfter, LateKnown, After, Enabled;
    StepKeepsTables(w, h);
    forall r: nat
      ensures LookedAfter(After(w, h), r) && LateKnown(After(w, h), r)
    {
      LookedAfterKept(w, h, r);
      LateKnownKept(w, h, r);
    }
  }

  class SubagentRuntime {
    var db: Db
    var drivers: map<nat, Driver>
    var born: set<nat>
    var orphaned: set<nat>
    var kicks: multiset<nat>
    var starters: multiset<nat>
    var tearing: multiset<nat>
    var torn: set<nat>

    function State(): World
      reads this
    {
      World(db, drivers, born, orphaned, kicks, starters, tearing, torn)
    }

    ghost predicate Valid()
      reads this
    {
      Sound(State())
    }

    constructor ()
      ensures Valid() && State() == EMPTY
    {
      db, drivers, born, orphaned := Db(map[], map[]), map[], {}, {};
      kicks, starters, tearing, torn := multiset{}, multiset{}, multiset{}, {};
    }

    /** Spawn and registration are one step: nobody sees a registered driver without a task. */
    method RegisterDriver(r: nat)
      requires Valid() && Enabled(State(), Register(r))
      modifies this
      ensures Valid() && State() == After(old(State()), Register(r))
      ensures r in drivers && !Asleep(drivers[r]) && r in db.tasks
    {
      StepIsSound(State(), Register(r));
      RegisteredIsKnown(State(), r);
      drivers := drivers[r := FRESH];
      born := born - {r};
    }

    /** The wake-up call: whoever it is for is awake afterwards, or gone; nobody else is touched. */
    method ResumeSubagentInstance(r: nat)
      requires Valid() && Enabled(State(), Kick(r))
      modifies this
      ensures Valid() && State() == After(old(State()), Kick(r))
      ensures r in drivers ==> !Asleep(drivers[r])
      ensures db == old(db) && drivers.Keys == old(drivers).Keys
      ensures forall other :: other in drivers && other != r ==> drivers[other] == old(drivers)[other]
    {
      StepIsSound(State(), Kick(r));
      hide Sound;
      kicks := kicks - multiset{r};
      if r !in drivers {
        return;
      }
      if !Asleep(drivers[r]) {
        return;
      }
      drivers := drivers[r := drivers[r].(place := Spawned)];
    }

    /** First look, under the lock: with work pending the driver relaunches or has spent its budget. */
    method SettlePending(r: nat)
      requires Valid() && Enabled(State(), CheckPending(r))
      modifies this
      ensures Valid() && State() == After(old(State()), CheckPending(r))
      ensures HasPending(db, r) <==> drivers[r].place in {Spawned, Failing}
      ensures HasPending(db, r) ==> drivers[r].place == if old(drivers)[r].attempts < 5 then Spawned else Failing
    {
      StepIsSound(State(), CheckPending(r));
      hide Sound;
      if HasPending(db, r) {
        var driver := drivers[r].(attempts := drivers[r].attempts + 1);
        if driver.attempts > MAX_SUBAGENT_RELAUNCH {
          drivers := drivers[r := driver.(place := Failing)];
          return;
        }
        drivers := drivers[r := driver.(place := Spawned)];
        return;
      }
      drivers := drivers[r := drivers[r].(place := CheckingOutstanding)];
    }

    /** Second look: it sleeps iff something is outstanding, and otherwise completes. */
    method SettleOutstanding(r: nat)
      requires Valid() && Enabled(State(), CheckOutstanding(r))
      modifies this
      ensures Valid() && State() == After(old(State()), CheckOutstanding(r))
      ensures if HasOutstanding(db, r) then drivers[r].place == Dormant else drivers[r].place == Completing
    {
      StepIsSound(State(), CheckOutstanding(r));
      hide Sound;
      if HasOutstanding(db, r) {
        drivers := drivers[r := drivers[r].(attempts := 0, place := Dormant)];
        return;
      }
      drivers := drivers[r := drivers[r].(place := Completing, late := {}, starterAtCheck := r in starters)];
    }

    /**
     * The end of the task and of its obligation commit together: a drive that completes succeeds, one that fails breaks
     * and one that was cancelled stops its task, and the obligation reports that. Whoever has new pending work will be
     * called.
     */
    method CommitEnd(r: nat, result: string, error: string, now: int)
      requires Valid() && Enabled(State(), Commit(r, result, error, now))
      modifies this
      ensures Valid() && State() == After(old(State()), Commit(r, result, error, now))
      ensures !IsRunning(db, r) && r in drivers && drivers[r].owes
      ensures forall id :: IsObligation(db.rows, id, r) ==> db.rows[id].status != Awaiting
      ensures IsRunning(old(db), r) ==>
                && r in db.tasks && db.tasks[r].result == result && db.tasks[r].error == error
                && EndFits(old(drivers)[r].place, db.tasks[r].status)
                && forall id :: IsObligation(old(db).rows, id, r) ==>
                     id in db.rows && Delivers(old(db).rows[id], db.rows[id], db.tasks[r].status)
      ensures forall p: nat :: HasPending(db, p) && !HasPending(old(db), p) ==> Called(State(), p)
    {
      var h := Commit(r, result, error, now);
      CommitIsReported(State(), h, r);
      StepIsSound(State(), h);
      CommitIsComplete(State(), h);
      hide Sound, Called, HasPending, Delivers;
      db := FinishTask(db, r, EndStatus(drivers[r]), result, error, now);
      drivers := drivers[r := Committed(drivers[r])];
    }

    /** The call to the parent: it is awake afterwards unless it is gone, and the call is no longer owed. */
    method AnswerParent(r: nat)
      requires Valid() && Enabled(State(), Answer(r))
      modifies this
      ensures Valid() && State() == After(old(State()), Answer(r))
      ensures forall p :: ParentIs(db, r, p) && p in drivers ==> !Asleep(drivers[p])
      ensures db == old(db) && r in drivers && !drivers[r].owes
    {
      StepIsSound(State(), Answer(r));
      hide Sound;
      var parent := db.tasks[r].parent;
      drivers := drivers[r := drivers[r].(owes := false)];
      if parent.SubAgent? {
        if parent.runId in drivers {
          if Asleep(drivers[parent.runId]) {
            drivers := drivers[parent.runId := drivers[parent.runId].(place := Spawned)];
          }
        }
      }
    }

    /** Cancels the live task, if there is one; it unwinds with what it owes, unless it had not begun or was at its end. */
    method StopDriverTask(r: nat) returns (live: bool)
      requires Valid() && Enabled(State(), Stop(r))
      modifies this
      ensures Valid() && State() == After(old(State()), Stop(r))
      ensures live <==> !Asleep(old(drivers)[r])
      ensures !live ==> drivers == old(drivers) && r in tearing
      ensures drivers[r].place == Stranded && live <==> Strands(old(State()), Stop(r), r)
      ensures live && drivers[r].place != Stranded ==> drivers[r].place == Unwinding && drivers[r].owes == old(drivers)[r].owes
    {
      StepIsSound(State(), Stop(r));
      hide Sound;
      live := !Asleep(drivers[r]);
      if live {
        drivers := drivers[r := Struck(drivers[r])];
      } else {
        assert drivers == drivers[r := Struck(drivers[r])];
        tearing := tearing + multiset{r};
      }
    }

    /** A driver is dropped only when the end of its task is committed. */
    method CleanupSubagent(r: nat)
      requires Valid() && Enabled(State(), Unregister(r))
      modifies this
      ensures Valid() && State() == After(old(State()), Unregister(r))
      ensures r !in drivers && !IsRunning(db, r)
    {
      StepIsSound(State(), Unregister(r));
      assert LookedAfter(State(), r);
      hide Sound;
      if drivers[r].owes {
        kicks := kicks + CallFor(db.tasks[r].parent);
      }
      drivers := drivers - {r};
    }
  }

  lemma RegisteredIsKnown(w: World, r: nat)
    requires Sound(w) && r in w.born
    ensures r in w.db.tasks
  {
    assert LookedAfter(w, r);
  }

  lemma CommitIsReported(w: World, h: Happening, r: nat)
    requires Enabled(w, h) && CommitsOf(h, r)
    ensures IsRunning(w.db, r) ==>
              && r in After(w, h).db.tasks
              && var t := After(w, h).db.tasks[r];
                 && t.result == h.result && t.error == h.error && EndFits(w.drivers[r].place, t.status)
                 && forall id :: IsObligation(w.db.rows, id, r) ==>
                      id in After(w, h).db.rows && Delivers(w.db.rows[id], After(w, h).db.rows[id], t.status)
  {
    AfterDb(w, h);
    if IsRunning(w.db, r) {
      CommitEnds(w, h, r);
      CommitDelivers(w, h, r);
    }
    hide After, DbAfter, Delivers;
  }

  lemma CommitIsComplete(w: World, h: Happening)
    requires Protocol(w.db) && h.Commit? && Enabled(w, h)
    ensures var a := After(w, h);
            && !IsRunning(a.db, h.run) && h.run in a.drivers && a.drivers[h.run].owes
            && (forall id :: IsObligation(a.db.rows, id, h.run) ==> a.db.rows[id].status != Awaiting)
            && (forall p: nat :: HasPending(a.db, p) && !HasPending(w.db, p) ==> Called(a, p))
  {
    EndsRunning(w, h);
    StepKeepsTables(w, h);
    assert After(w, h).db == DbAfter(w, h);
    forall p: nat | HasPending(After(w, h).db, p) && !HasPending(w.db, p)
      ensures Called(After(w, h), p)
    {
      CommitCallsParent(w, h, p);
    }
    hide Called, HasPending;
    assert Synchronised(After(w, h).db) && WellOwned(After(w, h).db);
  }

  lemma CommitCallsParent(w: World, h: Happening, p: nat)
    requires Protocol(w.db) && h.Commit? && Enabled(w, h) && HasPending(After(w, h).db, p) && !HasPending(w.db, p)
    ensures Called(After(w, h), p)
  {
    assert WellOwned(w.db) && After(w, h).db == DbAfter(w, h);
    var id :| id in DbAfter(w, h).rows && DbAfter(w, h).rows[id].target == SubAgent(p) && DbAfter(w, h).rows[id].status == Pending;
    TransactionAllowed(w, h);
    PendingFrom(w.db, TransactionOf(w, h).value, id);
    hide After, DbAfter, WellOwned, Called, Next, Allowed;
    if IsObligation(w.db.rows, id, h.run) {
      CommitCalls(w, h, id, p);
    }
  }
}
