/**
 The accelerator-reload protocol of src/omnitensor/plugin_lifecycle.py. A step is what the event loop runs
 between two awaits: a policy change asking for a reload, the start of the reload task, or the task going
 on after the lock, the runtime, a sleep or the announcement it awaited. The task is not cancelled, and
 announcing a reload does not raise.
 */
module AcceleratorReload {
  type Profile(==, !new, 0)

  /** Where the reload task stands. `affected` is what it took from `pending` at the top of its loop. */
  datatype Spot =
    | NoTask
    | Created
    | AwaitingLock(attempt: nat, affected: set<Profile>)
    | Reloading(attempt: nat, affected: set<Profile>)
    | Sleeping(attempt: nat, affected: set<Profile>)
    | Announcing

  datatype Lifecycle = Lifecycle(pending: set<Profile>, unavailable: set<Profile>, requested: bool, spot: Spot)

  function Initial(): Lifecycle { Lifecycle({}, {}, false, NoTask) }

  /** `Succeed(known)`: the runtime's reload returned, with a snapshot or without. */
  datatype Event =
    | Request(affected: set<Profile>, hasLoop: bool)
    | Start
    | Begin
    | Succeed(known: bool)
    | Fail
    | Wake
    | Announced

  predicate Refused(s: Lifecycle, p: Profile) { p in s.pending || p in s.unavailable }

  predicate Enabled(s: Lifecycle, e: Event) {
    match e
    case Request(affected, _) => affected != {}
    case Start => s.spot.Created?
    case Begin => s.spot.AwaitingLock?
    case Succeed(_) => s.spot.Reloading?
    case Fail => s.spot.Reloading?
    case Wake => s.spot.Sleeping?
    case Announced => s.spot.Announcing?
  }

  /** The top of the loop: take everything pending if anybody asked, else finish and clear the gate. */
  function AtTop(s: Lifecycle, retries: nat): Lifecycle {
    if !s.requested then s.(pending := {}, spot := NoTask)
    else if retries > 0 then s.(requested := false, spot := AwaitingLock(0, s.pending))
    else s.(requested := false, unavailable := s.unavailable + s.pending, pending := {}, spot := NoTask)
  }

  function Requested(s: Lifecycle, affected: set<Profile>, hasLoop: bool): Lifecycle {
    s.(pending := s.pending + affected,
      requested := true,
      spot := if s.spot.NoTask? && hasLoop then Created else s.spot)
  }

  function Succeeded(s: Lifecycle, known: bool, retries: nat): Lifecycle
    requires s.spot.Reloading?
  {
    if known then s.(unavailable := s.unavailable - s.spot.affected, spot := Announcing) else AtTop(s, retries)
  }

  function Failed(s: Lifecycle, retries: nat): Lifecycle
    requires s.spot.Reloading?
  {
    var Reloading(attempt, affected) := s.spot;
    if attempt + 1 < retries then s.(spot := Sleeping(attempt, affected))
    else AtTop(s.(unavailable := s.unavailable + affected), retries)
  }

  function Step(s: Lifecycle, e: Event, retries: nat): Lifecycle
    requires Enabled(s, e)
  {
    match e
    case Request(affected, hasLoop) => Requested(s, affected, hasLoop)
    case Start => AtTop(s, retries)
    case Begin => s.(spot := Reloading(s.spot.attempt, s.spot.affected))
    case Succeed(known) => Succeeded(s, known, retries)
    case Fail => Failed(s, retries)
    case Wake => s.(spot := AwaitingLock(s.spot.attempt + 1, s.spot.affected))
    case Announced => AtTop(s, retries)
  }

  /** `states` is a run through `events`: one state before each event and one after the last. */
  ghost predicate Run(events: seq<Event>, states: seq<Lifecycle>, retries: nat) {
    && |states| == |events| + 1
    && states[0] == Initial()
    && forall i :: 0 <= i < |events| ==> Follows(states[i], events[i], states[i + 1], retries)
  }

  ghost predicate Follows(s: Lifecycle, e: Event, next: Lifecycle, retries: nat) {
    Enabled(s, e) && next == Step(s, e, retries)
  }

  // What the history says, with no reference to the state.

  predicate Asks(e: Event, p: Profile) { e.Request? && p in e.affected }

  predicate Ends(e: Event) { e.Succeed? || e.Fail? }

  /** A reload begun at `b` is still the one under way at `k`. */
  ghost predicate UnderWay(events: seq<Event>, b: nat, k: nat) {
    b < k <= |events| && events[b].Begin? && forall m :: b < m < k ==> !Ends(events[m])
  }

  /**
   Some reload that began after event `i` has returned, be it without a snapshot: what it was asked for is then
   not refused any longer either, though nothing says it was reloaded (`EmptyReturnReopens`).
   */
  ghost predicate ReturnedSince(events: seq<Event>, i: nat) {
    exists b: nat, k: nat :: i < b && k < |events| && UnderWay(events, b, k) && events[k].Succeed?
  }

  /** The reload under way now, if there is one, began after event `i`. */
  ghost predicate BegunSince(events: seq<Event>, i: nat) {
    exists b: nat :: i < b && UnderWay(events, b, |events|)
  }

  /**
   What is known of a profile asked for at event `i` and not reloaded since: the gate refuses it; once
   nothing more is requested it is in what the task took, or unavailable; and it is pending again unless
   the reload under way began after the request.
   */
  ghost predicate Owed(s: Lifecycle, p: Profile, begun: bool) {
    && Refused(s, p)
    && match s.spot
       case NoTask => s.requested || p in s.unavailable
       case Created => s.requested
       case AwaitingLock(_, affected) => s.requested || p in affected || p in s.unavailable
       case Reloading(_, affected) =>
         && (s.requested || p in affected || p in s.unavailable)
         && (begun || (s.requested && p in s.pending))
       case Sleeping(_, affected) => s.requested || p in affected || p in s.unavailable
       case Announcing => s.requested && p in s.pending
  }

  lemma RequestOwes(s: Lifecycle, e: Event, p: Profile, retries: nat)
    requires Enabled(s, e) && Asks(e, p)
    ensures Owed(Step(s, e, retries), p, false)
  {
  }

  lemma StepOwes(s: Lifecycle, e: Event, p: Profile, begun: bool, begunNext: bool, retries: nat)
    requires Enabled(s, e) && Owed(s, p, begun)
    requires !(e.Succeed? && begun) && (e.Begin? ==> begunNext) && (begun && !Ends(e) ==> begunNext)
    ensures Owed(Step(s, e, retries), p, begunNext)
  {
  }

  lemma RunPrefix(events: seq<Event>, states: seq<Lifecycle>, retries: nat)
    requires Run(events, states, retries) && events != []
    ensures Run(events[..|events| - 1], states[..|events|], retries)
    ensures Follows(states[|events| - 1], events[|events| - 1], states[|events|], retries)
  {
    hide Follows;
    var n := |events| - 1;
    forall i | 0 <= i < n ensures Follows(states[..n + 1][i], events[..n][i], states[..n + 1][i + 1], retries) {
      assert Follows(states[i], events[i], states[i + 1], retries);
    }
  }

  /** How the history facts move with one more event. */
  lemma HistoryGrows(events: seq<Event>, i: nat)
    requires |events| >= 2 && i < |events| - 1
    ensures var before, last := events[..|events| - 1], events[|events| - 1];
      && (ReturnedSince(before, i) ==> ReturnedSince(events, i))
      && (BegunSince(before, i) && last.Succeed? ==> ReturnedSince(events, i))
      && (BegunSince(before, i) && !Ends(last) ==> BegunSince(events, i))
      && (last.Begin? ==> BegunSince(events, i))
  {
    var n := |events| - 1;
    var before, last := events[..n], events[n];
    if ReturnedSince(before, i) {
      var b: nat, k: nat :| i < b && k < n && UnderWay(before, b, k) && before[k].Succeed?;
      assert UnderWay(events, b, k);
    }
    if BegunSince(before, i) {
      var b: nat :| i < b && UnderWay(before, b, n);
      assert UnderWay(events, b, n);
      assert !Ends(last) ==> UnderWay(events, b, n + 1);
    }
    if last.Begin? {
      assert UnderWay(events, n, n + 1);
    }
  }

  lemma {:induction false} OwedUntilReloaded(
    events: seq<Event>, states: seq<Lifecycle>, i: nat, p: Profile, retries: nat)
    requires Run(events, states, retries) && i < |events| && Asks(events[i], p) && !ReturnedSince(events, i)
    ensures Owed(states[|events|], p, BegunSince(events, i))
    decreases |events|
  {
    hide Owed, Enabled, Step, ReturnedSince, BegunSince, Asks, Ends;
    var n := |events| - 1;
    RunPrefix(events, states, retries);
    if i == n {
      RequestOwes(states[n], events[n], p, retries);
      JustAsked(events, p, states[n + 1]);
    } else {
      HistoryGrows(events, i);
      OwedUntilReloaded(events[..n], states[..n + 1], i, p, retries);
      StepOwes(states[n], events[n], p, BegunSince(events[..n], i), BegunSince(events, i), retries);
    }
  }

  lemma JustAsked(events: seq<Event>, p: Profile, s: Lifecycle)
    requires events != [] && Owed(s, p, false)
    ensures Owed(s, p, BegunSince(events, |events| - 1))
  {
  }

  /**
   From the moment a reload is asked for a profile, admission refuses it until a reload that began after
   that request has succeeded, whatever requests, retries, failures and announcements come in between.
   */
  lemma RefusedUntilReloaded(
    events: seq<Event>, states: seq<Lifecycle>, i: nat, p: Profile, retries: nat)
    requires Run(events, states, retries) && i < |events| && Asks(events[i], p)
    ensures ReturnedSince(events, i) || Refused(states[|events|], p)
  {
    if !ReturnedSince(events, i) {
      OwedUntilReloaded(events, states, i, p, retries);
    }
  }

  // The gate does not close on anybody else, and does not stay closed for nothing.

  predicate EverAsked(events: seq<Event>, p: Profile) { exists i :: 0 <= i < |events| && Asks(events[i], p) }

  function Taken(s: Lifecycle): set<Profile> {
    match s.spot
    case AwaitingLock(_, affected) => affected
    case Reloading(_, affected) => affected
    case Sleeping(_, affected) => affected
    case _ => {}
  }

  lemma StepAsked(s: Lifecycle, e: Event, p: Profile, retries: nat)
    requires Enabled(s, e)
    requires Refused(Step(s, e, retries), p) || p in Taken(Step(s, e, retries))
    ensures Refused(s, p) || p in Taken(s) || Asks(e, p)
  {
  }

  /** Only a profile somebody asked to reload is ever refused here. */
  lemma {:induction false} OnlyAskedRefused(events: seq<Event>, states: seq<Lifecycle>, p: Profile, retries: nat)
    requires Run(events, states, retries)
    requires Refused(states[|events|], p) || p in Taken(states[|events|])
    ensures EverAsked(events, p)
    decreases |events|
  {
    hide Enabled, Step, Asks;
    if events != [] {
      var n := |events| - 1;
      RunPrefix(events, states, retries);
      StepAsked(states[n], events[n], p, retries);
      if !Asks(events[n], p) {
        OnlyAskedRefused(events[..n], states[..n + 1], p, retries);
        var i :| 0 <= i < n && Asks(events[..n][i], p);
        assert Asks(events[i], p);
      }
    } else {
      NobodyYet(states[0], p);
    }
  }

  lemma NobodyYet(s: Lifecycle, p: Profile)
    requires s == Initial()
    ensures !Refused(s, p) && p !in Taken(s)
  {
  }

  function Requests(events: seq<Event>): nat {
    if events == [] then 0
    else Requests(events[..|events| - 1]) + (if events[|events| - 1].Request? then 1 else 0)
  }

  /** At most this many further events happen before the task ends, if nobody asks again. */
  function Remaining(s: Lifecycle, retries: nat): int {
    (if s.requested then 3 * retries + 1 else 0) +
    match s.spot
    case NoTask => 0
    case Created => 1
    case AwaitingLock(k, _) => 3 * (retries - k)
    case Reloading(k, _) => 3 * (retries - k) - 1
    case Sleeping(k, _) => 3 * (retries - k) - 2
    case Announcing => 1
  }

  /** A waiting, running or sleeping attempt is one of those allowed, and an idle gate is not held shut. */
  predicate Settling(s: Lifecycle, retries: nat) {
    match s.spot
    case NoTask => s.requested || s.pending == {}
    case Created => true
    case AwaitingLock(k, _) => k < retries
    case Reloading(k, _) => k < retries
    case Sleeping(k, _) => k + 1 < retries
    case Announcing => true
  }

  lemma StepSettles(s: Lifecycle, e: Event, retries: nat)
    requires Enabled(s, e) && Settling(s, retries)
    ensures var next := Step(s, e, retries);
      && Settling(next, retries)
      && Remaining(next, retries) + 1 <= Remaining(s, retries) + (if e.Request? then 3 * retries + 3 else 0)
  {
  }

  /**
   Each request pays for at most one loop of bounded retries, so the task's whole life is bounded by the
   requests made; and with no task and no request outstanding nothing is left pending.
   */
  lemma {:induction false} WorkBounded(events: seq<Event>, states: seq<Lifecycle>, retries: nat)
    requires Run(events, states, retries)
    ensures Settling(states[|events|], retries)
    ensures |events| + Remaining(states[|events|], retries) <= (3 * retries + 3) * Requests(events)
    decreases |events|
  {
    hide Enabled, Step, Remaining, Settling;
    if events != [] {
      var n := |events| - 1;
      RunPrefix(events, states, retries);
      WorkBounded(events[..n], states[..n + 1], retries);
      StepSettles(states[n], events[n], retries);
      var c, r := 3 * retries + 3, Requests(events[..n]);
      assert c * (r + 1) == c * r + c;
    } else {
      AtRest(states[0], retries);
    }
  }

  lemma AtRest(s: Lifecycle, retries: nat)
    requires s == Initial()
    ensures Settling(s, retries) && Remaining(s, retries) == 0
  {
  }

  /**
   A failed attempt is followed by another while fewer than `retries` were made, its profiles still taken and nothing
   published; the last one publishes them as unavailable and gives the loop its next turn.
   */
  lemma FailureRetries(s: Lifecycle, retries: nat)
    requires s.spot.Reloading?
    ensures var next := Step(s, Fail, retries); var Reloading(attempt, affected) := s.spot;
      if attempt + 1 < retries then
        next == s.(spot := Sleeping(attempt, affected)) &&
        Step(next, Wake, retries) == s.(spot := AwaitingLock(attempt + 1, affected))
      else GoesOn(s.(unavailable := s.unavailable + affected), next, retries)
  {
  }

  /** The loop's top: if anybody asked, a first attempt at all that is pending; else the gate clears and the task ends. */
  ghost predicate GoesOn(s: Lifecycle, next: Lifecycle, retries: nat) {
    if s.requested && retries > 0 then next == s.(requested := false, spot := AwaitingLock(0, s.pending))
    else next == Lifecycle({}, if s.requested then s.unavailable + s.pending else s.unavailable, false, NoTask)
  }

  lemma LoopTurns(s: Lifecycle, retries: nat)
    ensures s.spot.Created? ==> GoesOn(s, Step(s, Start, retries), retries)
    ensures s.spot.Announcing? ==> GoesOn(s, Step(s, Announced, retries), retries)
    ensures s.spot.Reloading? ==> GoesOn(s, Step(s, Succeed(false), retries), retries)
  {
  }

  /** A reload that brings a snapshot frees what it took, and nothing else, before it is announced. */
  lemma SuccessFrees(s: Lifecycle, retries: nat)
    requires s.spot.Reloading?
    ensures Step(s, Succeed(true), retries) == s.(unavailable := s.unavailable - s.spot.affected, spot := Announcing)
  {
  }

  /** A request adds to what is pending and is remembered, and starts a task where there is none and a loop to run it. */
  lemma RequestAdds(s: Lifecycle, affected: set<Profile>, hasLoop: bool, retries: nat)
    requires affected != {}
    ensures var next := Step(s, Request(affected, hasLoop), retries);
      && next.pending == s.pending + affected && next.unavailable == s.unavailable && next.requested
      && (next.spot == if s.spot.NoTask? && hasLoop then Created else s.spot)
  {
  }

  /** A reload that succeeds with nobody asking meanwhile opens the gate for all it took, and for nobody unavailable. */
  lemma SuccessReopens(s: Lifecycle, p: Profile, retries: nat)
    requires s.spot.Reloading? && !s.requested
    ensures var done := Step(Step(s, Succeed(true), retries), Announced, retries);
      done.spot.NoTask? && (Refused(done, p) <==> p in s.unavailable && p !in s.spot.affected)
  {
  }

  /**
   A reload that returns without a snapshot, with nobody asking meanwhile, opens the gate as well: for all that
   was pending, except what was unavailable before, whether this reload took it or not.
   */
  lemma EmptyReturnReopens(s: Lifecycle, p: Profile, retries: nat)
    requires s.spot.Reloading? && !s.requested
    ensures var done := Step(s, Succeed(false), retries);
      done.spot.NoTask? && (Refused(done, p) <==> p in s.unavailable)
  {
  }

  /** The lifecycle as it is kept: two sets, a flag and the task, changed in place. */
  class PluginLifecycle {
    const retries: nat
    var pending: set<Profile>
    var unavailable: set<Profile>
    var requested: bool
    var task: Spot

    ghost function View(): Lifecycle
      reads this
    {
      Lifecycle(pending, unavailable, requested, task)
    }

    constructor (retries: nat)
      ensures this.retries == retries && View() == Initial()
    {
      this.retries, pending, unavailable, requested, task := retries, {}, {}, false, NoTask;
    }

    method ScheduleReload(affected: set<Profile>, hasLoop: bool)
      modifies this
      ensures View() == if affected == {} then old(View()) else Requested(old(View()), affected, hasLoop)
      ensures forall p :: p in affected ==> Refused(View(), p)
    {
      if affected == {} {
        return;
      }
      pending := pending + affected;
      requested := true;
      if task == NoTask && hasLoop {
        task := Created;
      }
    }

    /** The `while self._requested` loop up to the next await, or out of it through `finally`. */
    method TopOfLoop()
      modifies this
      ensures View() == AtTop(old(View()), retries)
    {
      while requested
        invariant pending == old(pending) && task == old(task)
        invariant requested ==> old(requested) && unavailable == old(unavailable)
        invariant !requested && old(requested) ==> retries == 0
        invariant !requested ==> unavailable == old(unavailable) + (if old(requested) then pending else {})
        decreases if requested then 1 else 0
      {
        var affected := pending;
        requested := false;
        if retries > 0 {
          task := AwaitingLock(0, affected);
          return;
        }
        unavailable := unavailable + affected;
      }
      pending := {};
      task := NoTask;
    }

    method BeginReload()
      requires task.AwaitingLock?
      modifies this
      ensures View() == Step(old(View()), Begin, retries)
    {
      task := Reloading(task.attempt, task.affected);
    }

    method ReloadReturned(known: bool)
      requires task.Reloading?
      modifies this
      ensures View() == Step(old(View()), Succeed(known), retries)
    {
      if known {
        unavailable := unavailable - task.affected;
        task := Announcing;
      } else {
        TopOfLoop();
      }
    }

    method ReloadRaised()
      requires task.Reloading?
      modifies this
      ensures View() == Step(old(View()), Fail, retries)
    {
      var Reloading(attempt, affected) := task;
      if attempt + 1 < retries {
        task := Sleeping(attempt, affected);
        return;
      }
      unavailable := unavailable + affected;
      TopOfLoop();
    }

    method SleepEnded()
      requires task.Sleeping?
      modifies this
      ensures View() == Step(old(View()), Wake, retries)
    {
      task := AwaitingLock(task.attempt + 1, task.affected);
    }
  }
}
