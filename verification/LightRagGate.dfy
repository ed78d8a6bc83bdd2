/** Readers and transitions of the shared LightRAG instance (core/lightrag/runtime.py). */
module LightRagGate {
  import opened Options

  /** What an instance under construction is for. */
  datatype Job = Starting | Restarting(fallback: bool) | Restoring

  /** Where a coroutine stands; critical sections of the condition variable are single steps. */
  datatype Actor =
    | ClientWaiting
    | Holding(rag: nat)
    | Letting(rag: nat)
    | StartWaiting
    | StopWaiting
    | RestartWaiting(fallback: bool)
    | Draining(restart: bool, fallback: bool)
    | Shutting(restart: bool, fallback: bool)
    | Building(job: Job)
    | Initialising(built: nat, job: Job)
    | Publishing(built: nat, job: Job)
    | Undoing(built: nat, job: Job)
    | Ending

  /** The module's globals, with instance ids, the set of instances whose finalisation began, and the coroutines. */
  datatype Gate = Gate(
    rag: Option<nat>, active: nat, transitioning: bool, finalized: set<nat>, next: nat, actors: map<nat, Actor>)

  const CLOSED := Gate(None, 0, false, {}, 0, map[])

  /** A step of one coroutine: it arrives, goes on, meets an error, or is cancelled. */
  datatype Step = Arrive(actor: nat, as_: Actor) | Advance(actor: nat) | Fail(actor: nat) | Cancel(actor: nat)

  predicate IsArrival(a: Actor) {
    a.ClientWaiting? || a.StartWaiting? || a.StopWaiting? || a.RestartWaiting?
  }

  predicate Holds(a: Actor) {
    a.Holding? || a.Letting?
  }

  /** Between raising the flag and lowering it. */
  predicate InTransition(a: Actor) {
    a.Draining? || a.Shutting? || a.Building? || a.Initialising? || a.Publishing? || a.Undoing? || a.Ending?
  }

  /** The part of a transition in which nothing is published. */
  predicate Exclusive(a: Actor) {
    a.Shutting? || a.Building? || a.Initialising? || a.Publishing? || a.Undoing?
  }

  predicate Enabled(g: Gate, step: Step) {
    match step
    case Arrive(id, a) => id !in g.actors && IsArrival(a)
    case Advance(id) => id in g.actors && MayAdvance(g, g.actors[id])
    case Fail(id) => id in g.actors && (g.actors[id].Shutting? || g.actors[id].Building? || g.actors[id].Initialising?)
    case Cancel(id) => id in g.actors
  }

  predicate MayAdvance(g: Gate, a: Actor) {
    match a
    case ClientWaiting => !g.transitioning
    case StartWaiting => !g.transitioning
    case StopWaiting => !g.transitioning
    case RestartWaiting(_) => !g.transitioning
    case Draining(_, _) => g.active == 0
    case Letting(_) => g.active > 0
    case _ => true
  }

  function Gone(g: Gate, id: nat): Gate {
    g.(actors := g.actors - {id})
  }

  function At(g: Gate, id: nat, a: Actor): Gate {
    g.(actors := g.actors[id := a])
  }

  /** After an attempt came to nothing: a restart with a fallback builds that one, everything else ends. */
  function GivenUp(job: Job): Actor {
    if job == Restarting(true) then Building(Restoring) else Ending
  }

  function Advanced(g: Gate, id: nat): Gate
    requires id in g.actors
  {
    match g.actors[id]
    case ClientWaiting => if g.rag.None? then Gone(g, id) else At(g, id, Holding(g.rag.value)).(active := g.active + 1)
    case Holding(r) => At(g, id, Letting(r))
    case Letting(_) => if g.active == 0 then g else Gone(g, id).(active := g.active - 1)
    case StartWaiting => if g.rag.Some? then Gone(g, id) else At(g, id, Building(Starting)).(transitioning := true)
    case StopWaiting => At(g, id, Draining(false, false)).(transitioning := true)
    case RestartWaiting(f) => At(g, id, Draining(true, f)).(transitioning := true)
    case Draining(restart, f) =>
      At(g, id, Shutting(restart, f)).(rag := None, finalized := if g.rag.Some? then g.finalized + {g.rag.value} else g.finalized)
    case Shutting(restart, f) => At(g, id, if restart then Building(Restarting(f)) else Ending)
    case Building(job) => At(g, id, Initialising(g.next, job)).(next := g.next + 1)
    case Initialising(b, job) => At(g, id, Publishing(b, job))
    case Publishing(b, _) => At(g, id, Ending).(rag := Some(b))
    case Undoing(_, job) => At(g, id, GivenUp(job))
    case Ending => Gone(g, id).(transitioning := false)
  }

  function Failed(g: Gate, id: nat): Gate
    requires id in g.actors
  {
    match g.actors[id]
    case Shutting(restart, f) => At(g, id, if restart then GivenUp(Restarting(f)) else Ending)
    case Building(job) => At(g, id, GivenUp(job))
    case Initialising(b, job) => At(g, id, Undoing(b, job)).(finalized := g.finalized + {b})
    case _ => g
  }

  /** Where cancellation leaves each place; a reader cut on its way out never lowers the count, an ending never the flag. */
  function Canceled(g: Gate, id: nat): Gate
    requires id in g.actors
  {
    match g.actors[id]
    case Holding(r) => At(g, id, Letting(r))
    case Draining(_, _) => Gone(g, id).(transitioning := false)
    case Shutting(_, _) => Failed(g, id)
    case Building(job) => At(g, id, if job.Restoring? then Ending else GivenUp(job))
    case Initialising(_, job) => if job.Restoring? then At(g, id, Ending) else Failed(g, id)
    case Publishing(b, job) =>
      if job.Restarting? then At(g, id, Undoing(b, job)).(finalized := g.finalized + {b}) else At(g, id, Ending)
    case Undoing(_, _) => At(g, id, Ending)
    case _ => Gone(g, id)
  }

  function After(g: Gate, step: Step): Gate
    requires Enabled(g, step)
  {
    match step
    case Arrive(id, a) => At(g, id, a)
    case Advance(id) => Advanced(g, id)
    case Fail(id) => Failed(g, id)
    case Cancel(id) => Canceled(g, id)
  }

  // ----- Invariant -----

  function Holders(actors: map<nat, Actor>): set<nat> {
    set id | id in actors && Holds(actors[id])
  }

  ghost predicate OneTransition(g: Gate) {
    && (forall id :: id in g.actors && InTransition(g.actors[id]) ==> g.transitioning)
    && (forall a, b :: a in g.actors && b in g.actors && InTransition(g.actors[a]) && InTransition(g.actors[b]) ==> a == b)
  }

  ghost predicate Exclusion(g: Gate) {
    && (forall id :: id in g.actors && Exclusive(g.actors[id]) ==> g.rag.None?)
    && |Holders(g.actors)| <= g.active
  }

  ghost predicate HoldersServed(g: Gate) {
    forall id :: id in g.actors && Holds(g.actors[id]) ==> g.rag == Some(g.actors[id].rag)
  }

  /** Nothing published or about to be is finalised; every instance was built once. */
  ghost predicate InstancesFresh(g: Gate) {
    && (g.rag.Some? ==> g.rag.value < g.next && g.rag.value !in g.finalized)
    && (forall r :: r in g.finalized ==> r < g.next)
    && (forall id :: id in g.actors && (g.actors[id].Initialising? || g.actors[id].Publishing?) ==>
          g.actors[id].built < g.next && g.actors[id].built !in g.finalized)
  }

  ghost predicate Sound(g: Gate) {
    OneTransition(g) && Exclusion(g) && HoldersServed(g) && InstancesFresh(g)
  }

  // ----- Every step keeps the invariant -----

  lemma HoldersAfter(actors: map<nat, Actor>, id: nat, a: Actor)
    ensures Holders(actors[id := a]) == if Holds(a) then Holders(actors) + {id} else Holders(actors) - {id}
    ensures Holders(actors - {id}) == Holders(actors) - {id}
  {
  }

  /** The size of the set of readers, after one of them changed. */
  lemma HoldersCount(actors: map<nat, Actor>, id: nat, a: Actor)
    ensures |Holders(actors[id := a])| <= |Holders(actors)| + 1
    ensures !Holds(a) || id in Holders(actors) ==> |Holders(actors[id := a])| <= |Holders(actors)|
    ensures |Holders(actors - {id})| == |Holders(actors)| - (if id in Holders(actors) then 1 else 0)
  {
    HoldersAfter(actors, id, a);
    hide Holders;
    var h := Holders(actors);
    if id in h {
      assert h + {id} == h && |h - {id}| == |h| - 1;
    } else {
      assert h - {id} == h;
    }
  }

  lemma NoHolders(g: Gate)
    requires Exclusion(g) && g.active == 0
    ensures forall id :: id in g.actors ==> !Holds(g.actors[id])
  {
    assert Holders(g.actors) == {};
    assert forall id :: id in g.actors && Holds(g.actors[id]) ==> id in Holders(g.actors);
  }

  /** One actor moves on; flag, count and instances stay as they are. */
  lemma MoveIsSound(g: Gate, id: nat, a: Actor)
    requires Sound(g)
    requires Holds(a) ==> id in g.actors && Holds(g.actors[id]) && g.actors[id].rag == a.rag
    requires InTransition(a) ==> id in g.actors && InTransition(g.actors[id])
    requires Exclusive(a) ==> Exclusive(g.actors[id])
    requires a.Initialising? || a.Publishing? ==> a.built < g.next && a.built !in g.finalized
    ensures Sound(At(g, id, a))
  {
    assert Holds(a) ==> id in Holders(g.actors);
    HoldersCount(g.actors, id, a);
    hide Holders;
  }

  lemma GoneIsSound(g: Gate, id: nat)
    requires Sound(g)
    ensures Sound(Gone(g, id))
  {
    HoldersCount(g.actors, id, Ending);
    hide Holders;
  }

  lemma LeaveIsSound(g: Gate, id: nat)
    requires Sound(g) && id in g.actors && g.actors[id].Letting? && g.active > 0
    ensures Sound(Advanced(g, id))
  {
    HoldersCount(g.actors, id, Ending);
    assert id in Holders(g.actors);
    hide Holders;
  }

  lemma EnterIsSound(g: Gate, id: nat)
    requires Sound(g) && id in g.actors && g.actors[id].ClientWaiting? && !g.transitioning && g.rag.Some?
    ensures Sound(Advanced(g, id))
  {
    HoldersCount(g.actors, id, Holding(g.rag.value));
    hide Holders;
  }

  /** A transition begins only when the flag is down, and ends by lowering it. */
  lemma BeginIsSound(g: Gate, id: nat)
    requires Sound(g) && id in g.actors && !g.transitioning
    requires g.actors[id].StopWaiting? || g.actors[id].RestartWaiting? || (g.actors[id].StartWaiting? && g.rag.None?)
    ensures Sound(Advanced(g, id))
  {
    HoldersCount(g.actors, id, Advanced(g, id).actors[id]);
    hide Holders;
  }

  lemma EndIsSound(g: Gate, id: nat)
    requires Sound(g) && id in g.actors && InTransition(g.actors[id])
    ensures Sound(Gone(g, id).(transitioning := false))
  {
    HoldersCount(g.actors, id, Ending);
    hide Holders;
  }

  lemma DrainedIsSound(g: Gate, id: nat)
    requires Sound(g) && id in g.actors && g.actors[id].Draining? && g.active == 0
    ensures Sound(Advanced(g, id))
  {
    NoHolders(g);
    HoldersCount(g.actors, id, Advanced(g, id).actors[id]);
    hide Holders;
  }

  lemma BuildIsSound(g: Gate, id: nat)
    requires Sound(g) && id in g.actors && g.actors[id].Building?
    ensures Sound(Advanced(g, id))
  {
    HoldersCount(g.actors, id, Advanced(g, id).actors[id]);
    hide Holders;
  }

  lemma PublishIsSound(g: Gate, id: nat)
    requires Sound(g) && id in g.actors && g.actors[id].Publishing?
    ensures Sound(Advanced(g, id))
  {
    HoldersCount(g.actors, id, Ending);
    assert forall a :: a in g.actors ==> !Holds(g.actors[a]);
    hide Holders;
  }

  /** Undoing an instance that was never published. */
  lemma UndoIsSound(g: Gate, id: nat)
    requires Sound(g) && id in g.actors && (g.actors[id].Initialising? || g.actors[id].Publishing?)
    ensures var a := g.actors[id]; Sound(At(g, id, Undoing(a.built, a.job)).(finalized := g.finalized + {a.built}))
  {
    HoldersCount(g.actors, id, Undoing(g.actors[id].built, g.actors[id].job));
    hide Holders;
  }

  lemma AdvanceIsSound(g: Gate, id: nat)
    requires Sound(g) && id in g.actors && MayAdvance(g, g.actors[id])
    ensures Sound(Advanced(g, id))
  {
    hide Sound;
    match g.actors[id] {
      case ClientWaiting => if g.rag.None? { GoneIsSound(g, id); } else { EnterIsSound(g, id); }
      case Holding(r) => MoveIsSound(g, id, Letting(r));
      case Letting(_) => LeaveIsSound(g, id);
      case StartWaiting => if g.rag.Some? { GoneIsSound(g, id); } else { BeginIsSound(g, id); }
      case StopWaiting => BeginIsSound(g, id);
      case RestartWaiting(_) => BeginIsSound(g, id);
      case Draining(_, _) => DrainedIsSound(g, id);
      case Shutting(restart, f) => MoveIsSound(g, id, if restart then Building(Restarting(f)) else Ending);
      case Building(_) => BuildIsSound(g, id);
      case Initialising(b, job) =>
        BuiltIsFresh(g, id);
        MoveIsSound(g, id, Publishing(b, job));
      case Publishing(_, _) => PublishIsSound(g, id);
      case Undoing(_, job) => MoveIsSound(g, id, GivenUp(job));
      case Ending => EndIsSound(g, id);
    }
  }

  lemma BuiltIsFresh(g: Gate, id: nat)
    requires Sound(g) && id in g.actors && (g.actors[id].Initialising? || g.actors[id].Publishing?)
    ensures g.actors[id].built < g.next && g.actors[id].built !in g.finalized
  {
  }

  lemma FailIsSound(g: Gate, id: nat)
    requires Sound(g) && id in g.actors && (g.actors[id].Shutting? || g.actors[id].Building? || g.actors[id].Initialising?)
    ensures Sound(Failed(g, id))
  {
    hide Sound;
    match g.actors[id] {
      case Shutting(restart, f) => MoveIsSound(g, id, if restart then GivenUp(Restarting(f)) else Ending);
      case Building(job) => MoveIsSound(g, id, GivenUp(job));
      case Initialising(_, _) => UndoIsSound(g, id);
    }
  }

  lemma CancelIsSound(g: Gate, id: nat)
    requires Sound(g) && id in g.actors
    ensures Sound(Canceled(g, id))
  {
    hide Sound;
    match g.actors[id] {
      case Holding(r) => MoveIsSound(g, id, Letting(r));
      case Draining(_, _) => EndIsSound(g, id);
      case Shutting(_, _) => FailIsSound(g, id);
      case Building(job) => MoveIsSound(g, id, if job.Restoring? then Ending else GivenUp(job));
      case Initialising(_, job) => if job.Restoring? { MoveIsSound(g, id, Ending); } else { FailIsSound(g, id); }
      case Publishing(_, job) => if job.Restarting? { UndoIsSound(g, id); } else { MoveIsSound(g, id, Ending); }
      case Undoing(_, _) => MoveIsSound(g, id, Ending);
      case _ => GoneIsSound(g, id);
    }
  }

  lemma StepIsSound(g: Gate, step: Step)
    requires Sound(g) && Enabled(g, step)
    ensures Sound(After(g, step))
  {
    hide Sound;
    match step {
      case Arrive(id, a) => MoveIsSound(g, id, a);
      case Advance(id) => AdvanceIsSound(g, id);
      case Fail(id) => FailIsSound(g, id);
      case Cancel(id) => CancelIsSound(g, id);
    }
  }

  // ----- Runs -----

  predicate Leads(g: Gate, step: Step, next: Gate) {
    Enabled(g, step) && next == After(g, step)
  }

  ghost predicate IsRun(states: seq<Gate>, steps: seq<Step>) {
    && |states| == |steps| + 1 && states[0] == CLOSED
    && forall i :: 0 <= i < |steps| ==> Leads(states[i], steps[i], states[i + 1])
  }

  lemma {:induction false} EveryRunIsSound(states: seq<Gate>, steps: seq<Step>, i: nat)
    requires IsRun(states, steps) && i < |states|
    ensures Sound(states[i])
  {
    if i > 0 {
      hide Sound, After, Enabled;
      EveryRunIsSound(states, steps, i - 1);
      assert Leads(states[i - 1], steps[i - 1], states[i - 1 + 1]);
      StepIsSound(states[i - 1], steps[i - 1]);
    }
  }

  /** In every interleaving: one transition at a time, readers hold the published instance, and it is alive. */
  lemma ReadersAreSafe(states: seq<Gate>, steps: seq<Step>, i: nat, a: nat, b: nat)
    requires IsRun(states, steps) && i < |states| && a in states[i].actors && b in states[i].actors
    ensures var g := states[i];
            && (InTransition(g.actors[a]) && InTransition(g.actors[b]) ==> a == b)
            && (Holds(g.actors[a]) ==> g.rag == Some(g.actors[a].rag) && g.actors[a].rag !in g.finalized)
            && (Exclusive(g.actors[a]) ==> !Holds(g.actors[b]))
  {
    EveryRunIsSound(states, steps, i);
    hide IsRun, Holders;
  }

  /** An instance whose finalisation begins is neither held nor, from then on, published. */
  lemma FinalisesOnlyUnused(states: seq<Gate>, steps: seq<Step>, i: nat, r: nat, a: nat)
    requires IsRun(states, steps) && i < |steps|
    requires r in states[i + 1].finalized && r !in states[i].finalized
    ensures a in states[i].actors && Holds(states[i].actors[a]) ==> states[i].actors[a].rag != r
    ensures states[i + 1].rag != Some(r)
  {
    EveryRunIsSound(states, steps, i);
    EveryRunIsSound(states, steps, i + 1);
    assert Leads(states[i], steps[i], states[i + 1]);
    WhoFinalises(states[i], steps[i], r);
    if states[i].active == 0 { NoHolders(states[i]); }
    hide IsRun, Holders, After;
  }

  lemma WhoFinalises(g: Gate, step: Step, r: nat)
    requires Enabled(g, step) && r in After(g, step).finalized && r !in g.finalized
    ensures g.active == 0
            || exists id :: id in g.actors && Exclusive(g.actors[id])
  {
    assert !step.Arrive?;
    assert step.actor in g.actors;
    assert g.active == 0 || Exclusive(g.actors[step.actor]);
  }

  // ----- What a start, a stop and a restart leave behind -----

  /**
   * What the steps say of a coroutine: as what it arrived last, how many errors and cancellations it met since, and how
   * many instances had been built when it arrived, or later withdrew the published one.
   */
  datatype Story = Story(arrival: Actor, disturbed: nat, built: nat)

  predicate Withdraws(g: Gate, step: Step, id: nat) {
    step == Advance(id) && id in g.actors && g.actors[id].Draining?
  }

  function Continued(story: Story, g: Gate, step: Step, id: nat): Story {
    if step.Arrive? && step.actor == id then Story(step.as_, 0, g.next)
    else if step == Fail(id) || step == Cancel(id) then story.(disturbed := story.disturbed + 1)
    else if Withdraws(g, step, id) then story.(built := g.next)
    else story
  }

  function StoryOf(states: seq<Gate>, steps: seq<Step>, i: nat, id: nat): Story
    requires |states| == |steps| + 1 && i < |states|
  {
    if i == 0 then Story(ClientWaiting, 0, 0)
    else Continued(StoryOf(states, steps, i - 1, id), states[i - 1], steps[i - 1], id)
  }

  /** A start and a restart publish unless they are disturbed; a fallback makes up for one disturbance. */
  predicate Publishes(story: Story) {
    match story.arrival
    case StartWaiting => story.disturbed == 0
    case RestartWaiting(fallback) => story.disturbed <= if fallback then 1 else 0
    case _ => false
  }

  /** Whose attempt this is, after so many disturbances. */
  predicate AttemptFits(job: Job, story: Story, failed: nat) {
    match job
    case Starting => story.arrival.StartWaiting? && story.disturbed == failed
    case Restarting(f) => story.arrival == RestartWaiting(f) && story.disturbed == failed
    case Restoring => story.arrival == RestartWaiting(true) && story.disturbed == 1 + failed
  }

  predicate Fits(g: Gate, a: Actor, story: Story) {
    match a
    case Draining(restart, f) => story.arrival == (if restart then RestartWaiting(f) else StopWaiting) && story.disturbed == 0
    case Shutting(restart, f) => story.arrival == (if restart then RestartWaiting(f) else StopWaiting) && story.disturbed == 0
    case Building(job) => AttemptFits(job, story, 0)
    case Initialising(b, job) => AttemptFits(job, story, 0) && b >= story.built
    case Publishing(b, job) => AttemptFits(job, story, 0) && b >= story.built
    case Undoing(b, job) => AttemptFits(job, story, 1) && b in g.finalized
    case Ending =>
      && (story.arrival.StartWaiting? || story.arrival.StopWaiting? || story.arrival.RestartWaiting?)
      && (g.rag.Some? <==> Publishes(story)) && (g.rag.Some? ==> g.rag.value >= story.built)
    case _ => if Holds(a) then story.arrival.ClientWaiting? else story.arrival == a && story.disturbed == 0
  }

  predicate Consistent(g: Gate, id: nat, story: Story) {
    id in g.actors ==> story.built <= g.next && Fits(g, g.actors[id], story)
  }

  lemma OwnStepFits(g: Gate, step: Step, id: nat, story: Story)
    requires Enabled(g, step) && step.actor == id && Consistent(g, id, story)
    requires id in g.actors && Exclusive(g.actors[id]) ==> g.rag.None?
    ensures Consistent(After(g, step), id, Continued(story, g, step, id))
  {
    if step.Advance? {
      AdvanceFits(g, id, story);
    } else if !step.Arrive? {
      DisturbedFits(g, step, id, story);
    }
    hide Advanced, Failed, Canceled, Publishes;
  }

  lemma AdvanceFits(g: Gate, id: nat, story: Story)
    requires Enabled(g, Advance(id)) && Consistent(g, id, story)
    requires Exclusive(g.actors[id]) ==> g.rag.None?
    ensures Consistent(Advanced(g, id), id, Continued(story, g, Advance(id), id))
  {
    var a := g.actors[id];
    if a.Building? || a.Initialising? || a.Publishing? || a.Undoing? {
      AttemptFollows(g, id, story);
    } else {
      EntryFollows(g, id, story);
    }
    hide Advanced, Fits;
  }

  lemma AttemptFollows(g: Gate, id: nat, story: Story)
    requires id in g.actors && Consistent(g, id, story) && g.rag.None?
    requires var a := g.actors[id]; a.Building? || a.Initialising? || a.Publishing? || a.Undoing?
    ensures Consistent(Advanced(g, id), id, story)
  {
  }

  lemma EntryFollows(g: Gate, id: nat, story: Story)
    requires id in g.actors && Consistent(g, id, story) && (g.actors[id].Shutting? ==> g.rag.None?)
    requires var a := g.actors[id]; !a.Building? && !a.Initialising? && !a.Publishing? && !a.Undoing?
    ensures Consistent(Advanced(g, id), id, Continued(story, g, Advance(id), id))
  {
  }

  lemma DisturbedFits(g: Gate, step: Step, id: nat, story: Story)
    requires Enabled(g, step) && step in {Fail(id), Cancel(id)} && Consistent(g, id, story)
    requires Exclusive(g.actors[id]) ==> g.rag.None?
    ensures Consistent(After(g, step), id, story.(disturbed := story.disturbed + 1))
  {
    if step.Fail? {
      FailedFits(g, id, story);
    } else {
      if g.actors[id].Shutting? || g.actors[id].Initialising? { FailedFits(g, id, story); }
      CanceledFits(g, id, story);
    }
    hide Failed, Canceled, Fits;
  }

  lemma FailedFits(g: Gate, id: nat, story: Story)
    requires id in g.actors && Consistent(g, id, story) && g.rag.None?
    requires g.actors[id].Shutting? || g.actors[id].Building? || g.actors[id].Initialising?
    ensures Consistent(Failed(g, id), id, story.(disturbed := story.disturbed + 1))
  {
  }

  lemma CanceledFits(g: Gate, id: nat, story: Story)
    requires id in g.actors && Consistent(g, id, story) && (Exclusive(g.actors[id]) ==> g.rag.None?)
    requires g.actors[id].Shutting? || g.actors[id].Initialising? ==>
               Consistent(Failed(g, id), id, story.(disturbed := story.disturbed + 1))
    ensures Consistent(Canceled(g, id), id, story.(disturbed := story.disturbed + 1))
  {
    hide Failed;
  }

  lemma OtherStepFits(g: Gate, step: Step, id: nat, story: Story)
    requires Sound(g) && Enabled(g, step) && step.actor != id && Consistent(g, id, story)
    ensures Consistent(After(g, step), id, Continued(story, g, step, id))
  {
    hide Exclusion, HoldersServed, InstancesFresh, Publishes;
    if id in g.actors {
      var after := After(g, step);
      assert id in after.actors && after.actors[id] == g.actors[id] && after.next >= g.next;
      if InTransition(g.actors[id]) {
        assert step.actor in g.actors ==> !InTransition(g.actors[step.actor]);
        assert after.rag == g.rag;
      }
    }
  }

  lemma {:induction false} StoriesFit(states: seq<Gate>, steps: seq<Step>, i: nat, id: nat)
    requires IsRun(states, steps) && i < |states|
    ensures Consistent(states[i], id, StoryOf(states, steps, i, id))
    decreases i
  {
    hide After, Enabled, Fits;
    if i > 0 {
      StoriesFit(states, steps, i - 1, id);
      EveryRunIsSound(states, steps, i - 1);
      assert Leads(states[i - 1], steps[i - 1], states[i - 1 + 1]);
      hide Consistent, Continued;
      if steps[i - 1].actor == id {
        assert Exclusion(states[i - 1]);
        OwnStepFits(states[i - 1], steps[i - 1], id, StoryOf(states, steps, i - 1, id));
      } else {
        OtherStepFits(states[i - 1], steps[i - 1], id, StoryOf(states, steps, i - 1, id));
      }
    }
  }

  /**
   * At the end of a transition an instance is published exactly if the coroutine came to start or restart and was not
   * disturbed, or was disturbed once while it restarted with a fallback; that instance was built after it arrived, and
   * after it withdrew the one before. A stop leaves nothing published.
   */
  lemma EndsAsItCame(states: seq<Gate>, steps: seq<Step>, i: nat, id: nat)
    requires IsRun(states, steps) && i < |states| && id in states[i].actors && states[i].actors[id].Ending?
    ensures var story := StoryOf(states, steps, i, id);
            && (states[i].rag.Some? <==> Publishes(story))
            && (states[i].rag.Some? ==> states[i].rag.value >= story.built && states[i].rag.value !in states[i].finalized)
            && (story.arrival.StopWaiting? ==> states[i].rag.None?)
  {
    StoriesFit(states, steps, i, id);
    EveryRunIsSound(states, steps, i);
    hide IsRun, OneTransition, Exclusion, HoldersServed;
  }

  /** A coroutine that came to stop builds nothing and publishes nothing at any of its steps. */
  lemma StopNeverPublishes(states: seq<Gate>, steps: seq<Step>, i: nat, id: nat)
    requires IsRun(states, steps) && i < |steps| && steps[i].actor == id && id in states[i].actors
    requires StoryOf(states, steps, i, id).arrival.StopWaiting?
    ensures states[i + 1].next == states[i].next && states[i + 1].rag in {states[i].rag, None}
  {
    StoriesFit(states, steps, i, id);
    assert Leads(states[i], steps[i], states[i + 1]);
    hide IsRun, StoryOf, Publishes;
    StopStep(states[i], steps[i], id, StoryOf(states, steps, i, id));
  }

  lemma StopStep(g: Gate, step: Step, id: nat, story: Story)
    requires Enabled(g, step) && step.actor == id && id in g.actors && Fits(g, g.actors[id], story) && story.arrival.StopWaiting?
    ensures After(g, step).next == g.next && After(g, step).rag in {g.rag, None}
  {
  }

  /**
   * A restart whose first attempt was disturbed goes on to a fallback instance if it was given one, once what it had
   * built is undone, and to none otherwise.
   */
  lemma FallbackIsTriedExactly(states: seq<Gate>, steps: seq<Step>, i: nat, id: nat)
    requires IsRun(states, steps) && i < |states| && id in states[i].actors
    requires StoryOf(states, steps, i, id).arrival.RestartWaiting? && StoryOf(states, steps, i, id).disturbed == 1
    ensures var f, a := StoryOf(states, steps, i, id).arrival.fallback, states[i].actors[id];
            if a.Undoing? then
              a.built in states[i].finalized && Advanced(states[i], id).actors[id] == if f then Building(Restoring) else Ending
            else if f then
              ((a.Building? || a.Initialising? || a.Publishing?) && a.job == Restoring) || (a.Ending? && states[i].rag.Some?)
            else a.Ending? && states[i].rag.None?
  {
    StoriesFit(states, steps, i, id);
    hide IsRun, StoryOf;
  }

  /** How many steps a coroutine has before it at most. */
  function StepsLeft(a: Actor): nat {
    match a
    case ClientWaiting => 3
    case Holding(_) => 2
    case Letting(_) => 1
    case StartWaiting => 12
    case StopWaiting => 14
    case RestartWaiting(_) => 14
    case Draining(_, _) => 13
    case Shutting(_, _) => 12
    case Building(job) => if job.Restoring? then 6 else 11
    case Initialising(_, job) => if job.Restoring? then 5 else 10
    case Publishing(_, job) => if job.Restoring? then 4 else 9
    case Undoing(_, job) => if job.Restoring? then 3 else 8
    case Ending => 2
  }

  /** When a coroutine may be over: at the end of its way, with nothing to do, or cancelled before it began. */
  predicate MayLeave(g: Gate, step: Step, a: Actor) {
    match a
    case ClientWaiting => step.Cancel? || g.rag.None?
    case StartWaiting => step.Cancel? || g.rag.Some?
    case StopWaiting => step.Cancel?
    case RestartWaiting(_) => step.Cancel?
    case Draining(_, _) => step.Cancel?
    case Letting(_) => true
    case Ending => true
    case _ => false
  }

  /**
   * In every run a coroutine goes on with each of its own steps towards its end, and is over only there, when it has
   * nothing to do, or when it is cancelled before it withdrew anything: a stop or a restart that went past draining ends
   * as `EndsAsItCame` says.
   */
  lemma GoesOnToItsEnd(states: seq<Gate>, steps: seq<Step>, i: nat, id: nat)
    requires IsRun(states, steps) && i < |steps| && id in states[i].actors && !steps[i].Arrive?
    ensures if steps[i].actor != id then id in states[i + 1].actors && states[i + 1].actors[id] == states[i].actors[id]
            else if id in states[i + 1].actors then StepsLeft(states[i + 1].actors[id]) < StepsLeft(states[i].actors[id])
            else MayLeave(states[i], steps[i], states[i].actors[id])
  {
    assert Leads(states[i], steps[i], states[i + 1]);
    hide IsRun;
    OneStepOn(states[i], steps[i], id);
  }

  lemma OneStepOn(g: Gate, step: Step, id: nat)
    requires Enabled(g, step) && id in g.actors && !step.Arrive?
    ensures var after := After(g, step);
            if step.actor != id then id in after.actors && after.actors[id] == g.actors[id]
            else if id in after.actors then StepsLeft(after.actors[id]) < StepsLeft(g.actors[id])
            else MayLeave(g, step, g.actors[id])
  {
  }

  // ----- The price: exits that are cut block the gate -----

  /** A reader cut while it leaves; it never lowers the count. */
  predicate CutsReader(g: Gate, step: Step) {
    step.Cancel? && step.actor in g.actors && g.actors[step.actor].Letting?
  }

  /** A transition cut while it ends; it never lowers the flag. */
  predicate CutsEnding(g: Gate, step: Step) {
    step.Cancel? && step.actor in g.actors && g.actors[step.actor].Ending?
  }

  /** The flag is up and nobody is left to lower it. */
  ghost predicate FlagStuck(g: Gate) {
    g.transitioning && forall a :: a in g.actors ==> !InTransition(g.actors[a])
  }

  function CutReaders(states: seq<Gate>, steps: seq<Step>, i: nat): nat
    requires |states| == |steps| + 1 && i < |states|
  {
    if i == 0 then 0
    else CutReaders(states, steps, i - 1) + (if CutsReader(states[i - 1], steps[i - 1]) then 1 else 0)
  }

  function Share(actors: map<nat, Actor>, id: nat): int {
    if id in actors && Holds(actors[id]) then 1 else 0
  }

  /** The count follows the one coroutine that takes the step, unless that is a reader cut on its way out. */
  lemma CountFollows(g: Gate, step: Step)
    requires Enabled(g, step)
    ensures var after := After(g, step);
            after.active - Share(after.actors, step.actor)
            == g.active - Share(g.actors, step.actor) + (if CutsReader(g, step) then 1 else 0)
    ensures var after := After(g, step);
            after.actors == if step.actor in after.actors then g.actors[step.actor := after.actors[step.actor]] else g.actors - {step.actor}
  {
  }

  lemma HoldersShare(actors: map<nat, Actor>, id: nat, after: map<nat, Actor>)
    requires after == if id in after then actors[id := after[id]] else actors - {id}
    ensures |Holders(after)| - Share(after, id) == |Holders(actors)| - Share(actors, id)
  {
    var h, k := Holders(actors), Holders(after);
    assert h - {id} == k - {id};
    assert id in h <==> Share(actors, id) == 1;
    assert id in k <==> Share(after, id) == 1;
    SetSize(h, id);
    SetSize(k, id);
  }

  lemma CountStep(g: Gate, step: Step)
    requires Enabled(g, step)
    ensures After(g, step).active - |Holders(After(g, step).actors)|
            == g.active - |Holders(g.actors)| + (if CutsReader(g, step) then 1 else 0)
  {
    hide After, Enabled, Holders, Share;
    CountFollows(g, step);
    HoldersShare(g.actors, step.actor, After(g, step).actors);
  }

  lemma SetSize(h: set<nat>, id: nat)
    ensures |h - {id}| == if id in h then |h| - 1 else |h|
  {
    assert id !in h ==> h - {id} == h;
  }

  /** In every run the count exceeds the readers by exactly the readers that were cut on their way out. */
  lemma {:induction false} CountIsExact(states: seq<Gate>, steps: seq<Step>, i: nat)
    requires IsRun(states, steps) && i < |states|
    ensures states[i].active == |Holders(states[i].actors)| + CutReaders(states, steps, i)
  {
    if i == 0 {
      assert Holders(CLOSED.actors) == {};
    } else {
      CountIsExact(states, steps, i - 1);
      EveryRunIsSound(states, steps, i - 1);
      assert Leads(states[i - 1], steps[i - 1], states[i - 1 + 1]);
      hide Sound, After, Enabled, Holders, CutsReader;
      CountStep(states[i - 1], steps[i - 1]);
    }
  }

  lemma FlagStep(g: Gate, step: Step)
    requires Sound(g) && Enabled(g, step)
    ensures FlagStuck(After(g, step)) <==> FlagStuck(g) || CutsEnding(g, step)
  {
    var after := After(g, step);
    if FlagStuck(g) {
      FlagStays(g, step);
    } else if CutsEnding(g, step) {
      assert forall a :: a in after.actors ==> a in g.actors && a != step.actor && after.actors[a] == g.actors[a];
    } else if g.transitioning {
      var a :| a in g.actors && InTransition(g.actors[a]);
      FlagFollows(g, step, a);
    } else {
      FlagRises(g, step);
    }
  }

  lemma FlagStays(g: Gate, step: Step)
    requires FlagStuck(g) && Enabled(g, step)
    ensures FlagStuck(After(g, step))
  {
  }

  lemma FlagFollows(g: Gate, step: Step, a: nat)
    requires Sound(g) && Enabled(g, step) && a in g.actors && InTransition(g.actors[a]) && !CutsEnding(g, step)
    ensures !FlagStuck(After(g, step))
  {
    hide Sound;
    var after := After(g, step);
    if step.actor == a {
      assert after.transitioning ==> a in after.actors && InTransition(after.actors[a]);
    } else {
      assert a in after.actors && after.actors[a] == g.actors[a];
    }
  }

  lemma FlagRises(g: Gate, step: Step)
    requires !g.transitioning && Enabled(g, step)
    ensures !FlagStuck(After(g, step))
  {
    var after := After(g, step);
    if after.transitioning { assert step.actor in after.actors && InTransition(after.actors[step.actor]); }
  }

  /** In every run the flag is stuck exactly when a transition was cut while it ended. */
  lemma {:induction false} FlagIsStuckExactly(states: seq<Gate>, steps: seq<Step>, i: nat)
    requires IsRun(states, steps) && i < |states|
    ensures FlagStuck(states[i]) <==> exists j :: 0 <= j < i && CutsEnding(states[j], steps[j])
  {
    if i > 0 {
      FlagIsStuckExactly(states, steps, i - 1);
      EveryRunIsSound(states, steps, i - 1);
      assert Leads(states[i - 1], steps[i - 1], states[i - 1 + 1]);
      hide Sound, After, Enabled, FlagStuck, CutsEnding;
      FlagStep(states[i - 1], steps[i - 1]);
    }
  }

  lemma {:induction false} CutsOnlyGrow(states: seq<Gate>, steps: seq<Step>, j: nat, i: nat)
    requires |states| == |steps| + 1 && j < i < |states| && CutsReader(states[j], steps[j])
    ensures CutReaders(states, steps, i) > 0
  {
    if j < i - 1 { CutsOnlyGrow(states, steps, j, i - 1); }
  }

  /**
   * From the moment a reader is cut on its way out no stop and no restart ever gets past draining; from the moment an
   * ending is cut nobody who waits for the flag ever goes on.
   */
  lemma CutExitsBlock(states: seq<Gate>, steps: seq<Step>, j: nat, i: nat, a: nat)
    requires IsRun(states, steps) && j < i < |steps| && a in states[i].actors && steps[i] == Advance(a)
    ensures CutsReader(states[j], steps[j]) ==> !states[i].actors[a].Draining?
    ensures CutsEnding(states[j], steps[j]) ==> !IsArrival(states[i].actors[a])
  {
    CountIsExact(states, steps, i);
    FlagIsStuckExactly(states, steps, i);
    assert Leads(states[i], steps[i], states[i + 1]);
    if CutsReader(states[j], steps[j]) { CutsOnlyGrow(states, steps, j, i); }
    hide IsRun, Holders, CutReaders, After;
  }

  /** The last gate of some run. */
  ghost predicate Reachable(g: Gate) {
    exists states, steps :: IsRun(states, steps) && states[|steps|] == g
  }

  lemma OneMoreStep(g: Gate, step: Step)
    requires Reachable(g) && Enabled(g, step)
    ensures Reachable(After(g, step))
  {
    var states, steps :| IsRun(states, steps) && states[|steps|] == g;
    Longer(states, steps, step, After(g, step));
  }

  lemma Longer(states: seq<Gate>, steps: seq<Step>, step: Step, next: Gate)
    requires IsRun(states, steps) && Leads(states[|steps|], step, next)
    ensures IsRun(states + [next], steps + [step]) && (states + [next])[|steps + [step]|] == next
  {
    hide Leads;
    var longer, more := states + [next], steps + [step];
    forall i | 0 <= i < |more|
      ensures Leads(longer[i], more[i], longer[i + 1])
    {
      if i < |steps| { assert Leads(states[i], steps[i], states[i + 1]); }
    }
  }

  /** A start that has just published its instance. */
  lemma StartPublishes()
    ensures Reachable(Gate(Some(0), 0, true, {}, 1, map[0 := Ending]))
  {
    assert IsRun([CLOSED], []);
    hide Reachable;
    OneMoreStep(CLOSED, Arrive(0, StartWaiting));
    var g1 := CLOSED.(actors := map[0 := StartWaiting]);
    OneMoreStep(g1, Advance(0));
    var g2 := CLOSED.(transitioning := true, actors := map[0 := Building(Starting)]);
    assert After(g1, Advance(0)) == g2;
    OneMoreStep(g2, Advance(0));
    var g3 := g2.(next := 1, actors := map[0 := Initialising(0, Starting)]);
    assert After(g2, Advance(0)) == g3;
    OneMoreStep(g3, Advance(0));
    var g4 := g3.(actors := map[0 := Publishing(0, Starting)]);
    assert After(g3, Advance(0)) == g4;
    OneMoreStep(g4, Advance(0));
    assert After(g4, Advance(0)) == Gate(Some(0), 0, true, {}, 1, map[0 := Ending]);
  }

  /** Both cuts happen in runs from the closed gate. */
  lemma EndingCanBeCut() returns (g: Gate)
    ensures Reachable(g) && CutsEnding(g, Cancel(0))
  {
    StartPublishes();
    g := Gate(Some(0), 0, true, {}, 1, map[0 := Ending]);
  }

  lemma ReaderCanBeCut() returns (g: Gate)
    ensures Reachable(g) && CutsReader(g, Cancel(1))
  {
    hide Reachable;
    StartPublishes();
    var g0 := Gate(Some(0), 0, true, {}, 1, map[0 := Ending]);
    OneMoreStep(g0, Advance(0));
    var g1 := Gate(Some(0), 0, false, {}, 1, map[]);
    assert After(g0, Advance(0)) == g1;
    OneMoreStep(g1, Arrive(1, ClientWaiting));
    var g2 := g1.(actors := map[1 := ClientWaiting]);
    OneMoreStep(g2, Advance(1));
    var g3 := g1.(active := 1, actors := map[1 := Holding(0)]);
    assert After(g2, Advance(1)) == g3;
    OneMoreStep(g3, Advance(1));
    g := g1.(active := 1, actors := map[1 := Letting(0)]);
    assert After(g3, Advance(1)) == g;
  }

  // ----- The module's globals and its critical sections -----

  class RagGate {
    var rag: Option<nat>
    var active: nat
    var transitioning: bool
    /** The coroutines and the history of instances. */
    var finalized: set<nat>
    var next: nat
    var actors: map<nat, Actor>

    function State(): Gate
      reads this
    {
      Gate(rag, active, transitioning, finalized, next, actors)
    }

    ghost predicate Valid()
      reads this
    {
      Sound(State())
    }

    constructor ()
      ensures Valid() && State() == CLOSED
    {
      rag, active, transitioning, finalized, next, actors := None, 0, false, {}, 0, map[];
      new;
      assert Holders(actors) == {};
    }

    /** Entry of a reader: it gets the published instance, which is not finalised and will not be while it is held. */
    method EnterClient(id: nat) returns (held: Option<nat>)
      requires Valid() && Enabled(State(), Advance(id)) && actors[id].ClientWaiting?
      modifies this
      ensures Valid() && State() == After(old(State()), Advance(id))
      ensures held == rag == old(rag) && (held.Some? ==> held.value !in finalized && actors[id] == Holding(held.value))
      ensures held.Some? ==> forall a :: a in actors ==> !Exclusive(actors[a])
    {
      StepIsSound(State(), Advance(id));
      HeldIsAlive(After(State(), Advance(id)));
      hide Sound;
      if rag.None? {
        actors := actors - {id};
        return None;
      }
      active := active + 1;
      held := rag;
      actors := actors[id := Holding(held.value)];
    }

    /** A reader leaves; the others keep what they hold. */
    method LeaveClient(id: nat)
      requires Valid() && Enabled(State(), Advance(id)) && actors[id].Letting?
      modifies this
      ensures Valid() && State() == After(old(State()), Advance(id))
      ensures forall a :: a in actors && Holds(actors[a]) ==> rag == Some(actors[a].rag) && actors[a].rag !in finalized
      ensures |Holders(actors)| <= active
    {
      StepIsSound(State(), Advance(id));
      HeldIsAlive(After(State(), Advance(id)));
      hide Sound;
      active := active - 1;
      actors := actors - {id};
    }

    /** A transition begins alone: nobody else is in one, and no reader enters while it lasts. */
    method BeginTransition(id: nat)
      requires Valid() && Enabled(State(), Advance(id))
      requires actors[id].StartWaiting? || actors[id].StopWaiting? || actors[id].RestartWaiting?
      modifies this
      ensures Valid() && State() == After(old(State()), Advance(id))
      ensures transitioning <==> id in actors
      ensures id !in actors <==> old(actors)[id].StartWaiting? && old(rag).Some?
      ensures rag == old(rag) && active == old(active)
      ensures forall a :: a in actors && InTransition(actors[a]) ==> a == id
      ensures transitioning ==> forall a :: a in actors && IsArrival(actors[a]) ==> !Enabled(State(), Advance(a))
    {
      StepIsSound(State(), Advance(id));
      NoneInTransition(State());
      hide Sound;
      if actors[id].StartWaiting? && rag.Some? {
        actors := actors - {id};
        return;
      }
      transitioning := true;
      actors := actors[id := match actors[id]
                             case StartWaiting => Building(Starting)
                             case StopWaiting => Draining(false, false)
                             case RestartWaiting(f) => Draining(true, f)];
    }

    /** A wait for readers that is cancelled leaves the gate open with its instance. */
    method AbandonDraining(id: nat)
      requires Valid() && id in actors && actors[id].Draining?
      modifies this
      ensures Valid() && State() == After(old(State()), Cancel(id))
      ensures !transitioning && rag == old(rag) && active == old(active)
      ensures forall a :: a in actors ==> !InTransition(actors[a])
    {
      StepIsSound(State(), Cancel(id));
      AloneInTransition(State(), id);
      hide Sound;
      transitioning := false;
      actors := actors - {id};
    }

    /** What is withdrawn to be finalised is held by nobody, and nothing is published any more. */
    method Withdraw(id: nat) returns (previous: Option<nat>)
      requires Valid() && Enabled(State(), Advance(id)) && actors[id].Draining?
      modifies this
      ensures Valid() && State() == After(old(State()), Advance(id))
      ensures previous == old(rag) && rag.None? && (previous.Some? ==> previous.value in finalized)
      ensures forall a :: a in actors ==> !Holds(actors[a])
    {
      StepIsSound(State(), Advance(id));
      NoHolders(State());
      hide Sound;
      previous := rag;
      rag := None;
      if previous.Some? { finalized := finalized + {previous.value}; }
      actors := actors[id := Shutting(actors[id].restart, actors[id].fallback)];
    }

    /** What is published was never finalised, and replaces nothing that anybody holds. */
    method Publish(id: nat)
      requires Valid() && id in actors && actors[id].Publishing?
      modifies this
      ensures Valid() && State() == After(old(State()), Advance(id))
      ensures old(rag).None? && rag.Some? && rag.value !in finalized
      ensures forall a :: a in actors ==> !Holds(actors[a])
    {
      StepIsSound(State(), Advance(id));
      PublishReplacesNothing(State(), id);
      hide Sound;
      rag := Some(actors[id].built);
      actors := actors[id := Ending];
    }

    /** The gate is open again and no transition is under way. */
    method EndTransition(id: nat)
      requires Valid() && id in actors && actors[id].Ending?
      modifies this
      ensures Valid() && State() == After(old(State()), Advance(id))
      ensures !transitioning && rag == old(rag) && forall a :: a in actors ==> !InTransition(actors[a])
    {
      StepIsSound(State(), Advance(id));
      AloneInTransition(State(), id);
      hide Sound;
      transitioning := false;
      actors := actors - {id};
    }
  }

  lemma HeldIsAlive(g: Gate)
    requires Sound(g)
    ensures forall a :: a in g.actors && Holds(g.actors[a]) ==> g.rag == Some(g.actors[a].rag) && g.actors[a].rag !in g.finalized
    ensures g.rag.Some? ==> g.rag.value !in g.finalized && forall a :: a in g.actors ==> !Exclusive(g.actors[a])
    ensures |Holders(g.actors)| <= g.active
  {
    hide Holders;
  }

  lemma NoneInTransition(g: Gate)
    requires Sound(g) && !g.transitioning
    ensures forall a :: a in g.actors ==> !InTransition(g.actors[a])
  {
    hide Holders;
  }

  lemma AloneInTransition(g: Gate, id: nat)
    requires Sound(g) && id in g.actors && InTransition(g.actors[id])
    ensures forall a :: a in g.actors && a != id ==> !InTransition(g.actors[a])
  {
    hide Holders;
  }

  lemma PublishReplacesNothing(g: Gate, id: nat)
    requires Sound(g) && id in g.actors && g.actors[id].Publishing?
    ensures g.rag.None? && g.actors[id].built !in g.finalized
    ensures forall a :: a in g.actors ==> !Holds(g.actors[a])
  {
    hide Holders;
  }
}
