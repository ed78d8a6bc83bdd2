/** The drain loop of a driver (core/task_runtime/executor.py) over the notification store. */
module Drain {
  import opened Notifications
  import opened Options

  /** How a turn ends: with an answer, preempted by a signal, by cancellation of the driver's task, or with an error. */
  datatype Outcome = Answered | Preempted | Cancelled | Errored

  /** Whether cancellation strikes during a transaction, and on which side of its commit. */
  datatype Cut = Uncut | BeforeCommit | AfterCommit

  datatype Ending = Returned | Raised | StillDraining

  // ----- What the handlers do to a claimed notification -----

  function Unless(cut: Cut, before: Db, after: Db): Db {
    if cut == BeforeCommit then before else after
  }

  /** The tables after a turn and its handlers; `second` is the cut of the release that follows a cut completion. */
  function Settled(db: Db, id: nat, outcome: Outcome, first: Cut, second: Cut, now: int): Db {
    match outcome
    case Answered =>
      var done := Unless(first, db, Finish(db, id, Completed, "", now));
      if first == Uncut then done else Unless(second, done, Release(done, id, now))
    case Preempted => Unless(first, db, Finish(db, id, Completed, "", now))
    case Cancelled => Unless(first, db, Release(db, id, now))
    case Errored => Unless(first, db, Finish(db, id, Failed, "notification handling failed", now))
  }

  predicate Raises(outcome: Outcome, first: Cut) {
    outcome == Cancelled || first != Uncut
  }

  /** The cancellations that keep a claimed item in processing. */
  predicate Strands(outcome: Outcome, first: Cut, second: Cut) {
    first == BeforeCommit && (outcome == Answered ==> second == BeforeCommit)
  }

  /** The cancellations that hand a claimed item back. */
  predicate HandsBack(outcome: Outcome, first: Cut, second: Cut) {
    match outcome
    case Answered => first == BeforeCommit && second != BeforeCommit
    case Cancelled => first != BeforeCommit
    case _ => false
  }

  /** Exactly which end a claimed item meets; without cancellation it is always terminal. */
  lemma ItemsEnd(db: Db, id: nat, outcome: Outcome, first: Cut, second: Cut, now: int)
    requires id in db.rows && db.rows[id].status == Processing
    ensures var after := Settled(db, id, outcome, first, second, now);
            && after.rows.Keys == db.rows.Keys
            && (after.rows[id].status == Processing <==> Strands(outcome, first, second))
            && (after.rows[id].status == Pending <==> HandsBack(outcome, first, second))
            && (Terminal(after.rows[id]) <==> !Strands(outcome, first, second) && !HandsBack(outcome, first, second))
            && (after.rows[id].status == Failed <==> outcome == Errored && first != BeforeCommit)
            && (after.rows[id].status == Completed
                <==> (outcome == Preempted && first != BeforeCommit) || (outcome == Answered && first != BeforeCommit))
            && (!Raises(outcome, first) ==> Terminal(after.rows[id]))
            && (forall n :: n in db.rows && n != id ==> after.rows[n] == db.rows[n])
  {
  }

  /**
   * A preempted turn whose completion is cut leaves its item in processing, where the loop would have handed an
   * interrupted one back.
   */
  lemma CutCompletionStrandsTheItem(db: Db, id: nat, now: int)
    requires id in db.rows && db.rows[id].status == Processing
    ensures Settled(db, id, Preempted, BeforeCommit, Uncut, now).rows[id].status == Processing
    ensures Settled(db, id, Answered, BeforeCommit, Uncut, now).rows[id].status == Pending
  {
  }

  // ----- Transactions from elsewhere -----

  /** Steps that do not claim or settle this driver's items; processing rows are reset only at boot. */
  predicate Foreign(db: Db, step: Step, driver: Instance) {
    match step
    case DoReset(_) => false
    case DoClaim(id, _, _, _) => id in db.rows ==> db.rows[id].target != driver
    case DoComplete(id, _) => id in db.rows ==> db.rows[id].target != driver
    case DoFail(id, _, _) => id in db.rows ==> db.rows[id].target != driver
    case DoRelease(id, _) => id in db.rows ==> db.rows[id].target != driver
    case _ => true
  }

  /** All they can do to a claimed item is cancel it. */
  lemma ForeignLeavesItem(db: Db, step: Step, driver: Instance, id: nat)
    requires Allowed(db, step) && Foreign(db, step, driver) && id in db.rows && db.rows[id].target == driver
    ensures id in Next(db, step).rows && Next(db, step).rows[id].target == driver
    ensures db.rows[id].status == Processing ==> Next(db, step).rows[id].status in {Processing, Canceled}
    ensures Terminal(db.rows[id]) ==> Next(db, step).rows[id] == db.rows[id]
  {
    hide IsNext;
  }

  /** `after` keeps the driver's terminal items, and its items in processing unless canceled. */
  ghost predicate Undisturbed(db: Db, after: Db, driver: Instance) {
    forall id :: id in db.rows && db.rows[id].target == driver ==>
      && id in after.rows && after.rows[id].target == driver
      && (db.rows[id].status == Processing ==> after.rows[id].status in {Processing, Canceled})
      && (Terminal(db.rows[id]) ==> after.rows[id] == db.rows[id])
  }

  lemma UndisturbedStep(start: Db, db: Db, step: Step, driver: Instance)
    requires Undisturbed(start, db, driver) && Allowed(db, step) && Foreign(db, step, driver)
    ensures Undisturbed(start, Next(db, step), driver)
  {
    hide Next, Allowed, Foreign;
    forall id | id in db.rows && db.rows[id].target == driver {
      ForeignLeavesItem(db, step, driver, id);
    }
  }

  lemma StartsUndisturbed(db: Db, driver: Instance)
    ensures Undisturbed(db, db, driver)
  {
  }

  method Meanwhile(store: NotificationStore, steps: seq<Step>, driver: Instance)
    requires store.Valid()
    modifies store
    ensures store.Valid()
    ensures Undisturbed(old(store.Contents()), store.Contents(), driver)
  {
    hide Next, Allowed, Foreign, TablesSound, Undisturbed;
    StartsUndisturbed(store.Contents(), driver);
    for i := 0 to |steps|
      invariant store.Valid() && Undisturbed(old(store.Contents()), store.Contents(), driver)
    {
      var db := store.Contents();
      if Allowed(db, steps[i]) && Foreign(db, steps[i], driver) {
        UndisturbedStep(old(store.Contents()), db, steps[i], driver);
        StepKeepsTablesSound(db, steps[i]);
        store.rows, store.tasks := Next(db, steps[i]).rows, Next(db, steps[i]).tasks;
      }
    }
  }

  // ----- The loop -----

  /** One round as the outside world shapes it. */
  datatype Round = Round(before: seq<Step>, claimCut: Cut, during: seq<Step>, outcome: Outcome, first: Cut, second: Cut)

  predicate StrandsRound(round: Round) {
    round.claimCut == AfterCommit || Strands(round.outcome, round.first, round.second)
  }

  /** Cancellation strikes in the round: in a transaction, or in the turn. */
  predicate IsCut(round: Round) {
    round.claimCut != Uncut || round.outcome == Cancelled || round.first != Uncut
  }

  /** The handlers around one turn; true when the exception leaves the loop. */
  method SettleTurn(store: NotificationStore, id: nat, outcome: Outcome, first: Cut, second: Cut, now: int)
    returns (raised: bool)
    requires store.Valid()
    modifies store`rows
    ensures store.Valid()
    ensures id in old(store.rows) && old(store.rows)[id].status == Processing && first == Uncut ==>
              id in store.rows && store.rows[id].status == match outcome
                                                          case Answered => Completed
                                                          case Preempted => Completed
                                                          case Cancelled => Pending
                                                          case Errored => Failed
    ensures store.Contents() == Settled(old(store.Contents()), id, outcome, first, second, now)
    ensures raised == Raises(outcome, first)
  {
    hide TablesSound;
    match outcome {
      case Answered =>
        if first != BeforeCommit { store.FinishNotification(id, Completed, "", now); }
        if first != Uncut {
          if second != BeforeCommit { store.ReleaseNotification(id, now); }
          return true;
        }
        return false;
      case Preempted =>
        if first != BeforeCommit { store.FinishNotification(id, Completed, "", now); }
        return first != Uncut;
      case Cancelled =>
        if first != BeforeCommit { store.ReleaseNotification(id, now); }
        return true;
      case Errored =>
        if first != BeforeCommit { store.FinishNotification(id, Failed, "notification handling failed", now); }
        return first != Uncut;
    }
  }

  /** Every item in the list is settled for good. */
  ghost predicate AllTerminal(rows: Rows, items: seq<nat>, driver: Instance) {
    forall i :: 0 <= i < |items| ==> items[i] in rows && rows[items[i]].target == driver && Terminal(rows[items[i]])
  }

  /** `views[i]` shows the tables at the claim of `items[i]`. */
  ghost predicate ClaimsInOrder(items: seq<nat>, views: seq<Db>, session: nat, driver: Instance) {
    && |views| == |items|
    && (forall i :: 0 <= i < |items| ==> IsNext(views[i].rows, session, Some(driver), items[i]))
    && (forall i, j :: 0 <= i < j < |items| ==> items[i] != items[j])
  }

  /** The state in which the last item may be left when the loop is cut short. */
  ghost predicate LastItem(rows: Rows, items: seq<nat>, stranded: bool) {
    items != [] ==>
      var last := items[|items| - 1];
      && last in rows && rows[last].status != Awaiting
      && (rows[last].status == Processing ==> stranded)
  }

  lemma ClaimedIsNew(view: Db, session: nat, driver: Instance, items: seq<nat>, id: nat, now: int)
    requires AllTerminal(view.rows, items, driver) && IsNext(view.rows, session, Some(driver), id)
    ensures forall i :: 0 <= i < |items| ==> items[i] != id
    ensures AllTerminal(Claim(view, id, now).rows, items, driver) && Held(Claim(view, id, now).rows, id, driver)
  {
    hide Precedes;
  }

  /** A claimed item whose turn is on. */
  ghost predicate Held(rows: Rows, id: nat, driver: Instance) {
    id in rows && rows[id].target == driver && rows[id].status in {Processing, Canceled}
  }

  lemma StaysSettled(db: Db, after: Db, items: seq<nat>, driver: Instance)
    requires AllTerminal(db.rows, items, driver) && Undisturbed(db, after, driver)
    ensures AllTerminal(after.rows, items, driver)
  {
  }

  lemma StaysHeld(db: Db, after: Db, id: nat, driver: Instance)
    requires Held(db.rows, id, driver) && Undisturbed(db, after, driver)
    ensures Held(after.rows, id, driver)
  {
  }

  lemma SettledRows(db: Db, items: seq<nat>, driver: Instance, id: nat, outcome: Outcome, first: Cut, second: Cut, now: int)
    requires AllTerminal(db.rows, items, driver) && Held(db.rows, id, driver)
    requires forall i :: 0 <= i < |items| ==> items[i] != id
    ensures var rows := Settled(db, id, outcome, first, second, now).rows;
            && AllTerminal(rows, items, driver)
            && id in rows && rows[id].target == driver && rows[id].status != Awaiting
            && (!Raises(outcome, first) ==> Terminal(rows[id]))
            && (rows[id].status == Processing ==> Strands(outcome, first, second))
  {
    if db.rows[id].status == Processing {
      ItemsEnd(db, id, outcome, first, second, now);
      hide Settled;
    } else {
      CanceledStays(db, id, outcome, first, second, now);
      hide Settled;
    }
  }

  lemma RaisedAfter(rows: Rows, items: seq<nat>, driver: Instance)
    requires AllTerminal(rows, items, driver)
    ensures LastItem(rows, items, false)
    ensures items != [] ==> AllTerminal(rows, items[..|items| - 1], driver)
  {
  }

  lemma HeldIsLast(rows: Rows, id: nat, driver: Instance)
    requires Held(rows, id, driver)
    ensures id in rows && rows[id].target == driver && rows[id].status != Awaiting
  {
  }

  lemma OneMoreTerminal(rows: Rows, items: seq<nat>, driver: Instance)
    requires items != [] && AllTerminal(rows, items[..|items| - 1], driver)
    requires var last := items[|items| - 1]; last in rows && rows[last].target == driver && Terminal(rows[last])
    ensures AllTerminal(rows, items, driver) && LastItem(rows, items, false)
  {
    assert items == items[..|items| - 1] + [items[|items| - 1]];
  }

  lemma CanceledStays(db: Db, id: nat, outcome: Outcome, first: Cut, second: Cut, now: int)
    requires id in db.rows && db.rows[id].status == Canceled
    ensures Settled(db, id, outcome, first, second, now) == db
  {
  }

  /** One round: claim the next item if there is one, run its turn, settle it. */
  method DrainRound(store: NotificationStore, session: nat, driver: Instance, round: Round, ghost items: seq<nat>, now: int)
    returns (ending: Ending, ghost claimed: Option<nat>, ghost view: Db, ghost stranded: bool)
    requires store.Valid() && AllTerminal(store.rows, items, driver)
    modifies store
    ensures store.Valid() && AllTerminal(store.rows, items, driver)
    ensures ending == Returned ==>
              claimed.None? && forall n :: n in store.rows ==> !Claimable(store.rows[n], session, Some(driver))
    ensures ending == StillDraining ==> claimed.Some? && claimed.value in store.rows && Terminal(store.rows[claimed.value])
    ensures claimed.Some? ==> ClaimedLast(store.rows, items, claimed.value, view, session, driver, stranded)
    ensures stranded ==> claimed.Some? && ending == Raised && StrandsRound(round)
    ensures ending == Raised ==> IsCut(round)
  {
    hide TablesSound, IsNext, Settled, Precedes, Claim, Held, Undisturbed, AllTerminal;
    claimed, stranded := None, false;
    ghost var start := store.Contents();
    Meanwhile(store, round.before, driver);
    view := store.Contents();
    StaysSettled(start, view, items, driver);
    if round.claimCut == BeforeCommit {
      ending := Raised;
      return;
    }
    var next := store.ClaimNextPending(session, Some(driver), now);
    if next.None? {
      ending := if round.claimCut == Uncut then Returned else Raised;
      return;
    }
    var id := next.value;
    claimed := next;
    ClaimedIsNew(view, session, driver, items, id, now);
    ghost var held := store.Contents();
    if round.claimCut == AfterCommit {
      HeldIsLast(held.rows, id, driver);
      ending, stranded := Raised, true;
      return;
    }
    Meanwhile(store, round.during, driver);
    ghost var turned := store.Contents();
    StaysSettled(held, turned, items, driver);
    StaysHeld(held, turned, id, driver);
    var raised := SettleTurn(store, id, round.outcome, round.first, round.second, now);
    SettledRows(turned, items, driver, id, round.outcome, round.first, round.second, now);
    ending := if raised then Raised else StillDraining;
    stranded := raised && store.rows[id].status == Processing;
  }

  /** The item just claimed: first in order, new, and in processing only if the cut stranded it. */
  ghost predicate ClaimedLast(rows: Rows, items: seq<nat>, id: nat, view: Db, session: nat, driver: Instance, stranded: bool) {
    && IsNext(view.rows, session, Some(driver), id)
    && (forall i :: 0 <= i < |items| ==> items[i] != id)
    && id in rows && rows[id].target == driver && rows[id].status != Awaiting
    && (rows[id].status == Processing ==> stranded)
  }

  /**
   * Drains one instance through the given rounds. However the turns mix, every claim takes the first pending item,
   * no item is claimed twice, and all items are terminal when the loop returns; when an exception leaves it, all but
   * the last are, and the last is in processing only if the cut struck before a commit in a handler or after the
   * claim's own.
   */
  method RunUntilIdle(store: NotificationStore, session: nat, driver: Instance, initial: Option<Outcome>,
                      rounds: seq<Round>, now: int)
    returns (ending: Ending, ghost items: seq<nat>, ghost views: seq<Db>, ghost stranded: bool)
    requires store.Valid()
    modifies store
    ensures store.Valid()
    ensures ClaimsInOrder(items, views, session, driver)
    ensures ending != Raised ==> AllTerminal(store.rows, items, driver) && !stranded
    ensures ending == Raised && items != [] ==> AllTerminal(store.rows, items[..|items| - 1], driver)
    ensures LastItem(store.rows, items, stranded)
    ensures ending == Returned ==> forall n :: n in store.rows ==> !Claimable(store.rows[n], session, Some(driver))
    ensures stranded ==> exists round :: round in rounds && StrandsRound(round)
    ensures initial in {Some(Cancelled), Some(Errored)} ==> ending == Raised && items == []
    ensures ending == Raised ==> initial in {Some(Cancelled), Some(Errored)} || exists round :: round in rounds && IsCut(round)
  {
    hide TablesSound, IsNext, AllTerminal, IsCut, StrandsRound, Claimable;
    items, views, stranded := [], [], false;
    if initial.Some? && initial.value in {Cancelled, Errored} {
      return Raised, items, views, stranded;
    }
    assert AllTerminal(store.rows, [], driver) by { NothingYet(store.rows, driver); }
    for i := 0 to |rounds|
      invariant store.Valid() && ClaimsInOrder(items, views, session, driver) && AllTerminal(store.rows, items, driver) && !stranded
    {
      ghost var claimed, view;
      ending, claimed, view, stranded := DrainRound(store, session, driver, rounds[i], items, now);
      RaisedAfter(store.rows, items, driver);
      assert rounds[i] in rounds;
      if claimed.Some? {
        assert (items + [claimed.value])[..|items|] == items;
        items, views := items + [claimed.value], views + [view];
      }
      if ending != StillDraining {
        return;
      }
      OneMoreTerminal(store.rows, items, driver);
    }
    RaisedAfter(store.rows, items, driver);
    ending := StillDraining;
  }

  lemma NothingYet(rows: Rows, driver: Instance)
    ensures AllTerminal(rows, [], driver)
  {
  }
}
