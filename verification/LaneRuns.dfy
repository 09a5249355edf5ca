/** The scheduler over whole runs: what every reachable state guarantees. */
module LaneRuns {
  import opened LaneSafety
  import opened LaneScheduler
  import opened Prelude
  import opened RunningCounts
  import opened Stride

  ghost predicate Run(s: Scheduler, events: seq<Event>, out: Scheduler, max: nat)
    decreases |events|
  {
    if events == [] then out == s
    else Enabled(s, events[0], max) && Ready(s, events[0]) && Run(Step(s, events[0]), events[1..], out, max)
  }

  lemma InitialKept(executors: set<Backend>, max: nat)
    ensures Kept(Initial(executors), max)
  {
    assert WellFormed<JobId>(Empty());
    var s := Initial(executors);
    forall k ensures HeldFor(s.place, k) == {} {
    }
    hide WellFormed, Next;
  }

  lemma {:induction false} RunKept(s: Scheduler, events: seq<Event>, out: Scheduler, max: nat)
    requires Kept(s, max) && Run(s, events, out, max)
    ensures Kept(out, max)
    decreases |events|
  {
    hide Kept, Enabled, Ready, Step;
    if events != [] {
      StepKept(s, events[0], max);
      RunKept(Step(s, events[0]), events[1..], out, max);
    }
  }

  lemma ReachableKept(executors: set<Backend>, events: seq<Event>, s: Scheduler, max: nat)
    requires Run(Initial(executors), events, s, max)
    ensures Kept(s, max)
  {
    hide Kept, Run;
    InitialKept(executors, max);
    RunKept(Initial(executors), events, s, max);
  }

  ghost predicate QueuedAt(s: Scheduler, b: Backend, k: Key, j: JobId) {
    b in s.lanes && j in Waiting(s.lanes[b], k)
  }

  ghost predicate HeldBy(s: Scheduler, w: WorkerId, j: JobId) {
    w in s.tasks && s.tasks[w].spot.Executing? && s.tasks[w].spot.job == j
  }

  /**
   Until shutdown is over, a job whose future is unresolved is in exactly one lane, once, under one key,
   or in exactly one worker's hands, live or retired: whatever was submitted, swapped, failed or cancelled.
   */
  lemma JobsConserved(executors: set<Backend>, events: seq<Event>, s: Scheduler, j: JobId, max: nat)
    requires Run(Initial(executors), events, s, max) && !s.finished && j in s.place && j !in s.outcome
    ensures (exists b, k :: QueuedAt(s, b, k, j)) != (exists w :: HeldBy(s, w, j))
    ensures forall b, k, b', k' :: QueuedAt(s, b, k, j) && QueuedAt(s, b', k', j) ==> b == b' && k == k'
    ensures forall w, w' :: HeldBy(s, w, j) && HeldBy(s, w', j) ==> w == w'
    ensures forall b, k :: b in s.lanes ==> Distinct(Waiting(s.lanes[b], k))
  {
    ReachableKept(executors, events, s, max);
    assert Located(s) && Recorded(s);
    hide Run, Kept, Waiting, Located;
    forall b, k | b in s.lanes ensures Distinct(Waiting(s.lanes[b], k)) {
      ListAt(s, Queued(b, k));
    }
    forall b, k | QueuedAt(s, b, k, j) ensures s.place[j] == Queued(b, k) {
      ListAt(s, Queued(b, k));
    }
    forall w | HeldBy(s, w, j) ensures s.place[j] == Held(w, s.tasks[w].spot.profile) {
      ListAt(s, Held(w, s.tasks[w].spot.profile));
      assert j in ListOf(s, Held(w, s.tasks[w].spot.profile));
    }
    ListAt(s, s.place[j]);
    assert j in ListOf(s, s.place[j]);
    match s.place[j]
    case Queued(b, k) => assert QueuedAt(s, b, k, j);
    case Held(w, k) => assert HeldBy(s, w, j);
  }

  /** The running table counts exactly the jobs in workers' hands. */
  lemma RunningIsHeld(executors: set<Backend>, events: seq<Event>, s: Scheduler, k: Key, max: nat)
    requires Run(Initial(executors), events, s, max) && !s.finished
    ensures RunningOf(s.running, k) == |HeldFor(s.place, k)|
    ensures forall j :: j in HeldFor(s.place, k) <==>
      exists w :: w in s.tasks && s.tasks[w].spot == Executing(j, k)
    ensures k in s.running <==> HeldFor(s.place, k) != {}
  {
    ReachableKept(executors, events, s, max);
    assert Located(s) && Counted(s);
    assert RunningOf(s.running, k) == |HeldFor(s.place, k)|;
    hide Run, Kept, Located, Waiting;
    forall j ensures j in HeldFor(s.place, k) <==> exists w :: w in s.tasks && s.tasks[w].spot == Executing(j, k) {
      if j in HeldFor(s.place, k) {
        ListAt(s, s.place[j]);
        assert j in ListOf(s, s.place[j]);
        assert s.tasks[s.place[j].worker].spot == Executing(j, k);
      }
      if w :| w in s.tasks && s.tasks[w].spot == Executing(j, k) {
        ListAt(s, Held(w, k));
        assert j in ListOf(s, Held(w, k));
      }
    }
  }

  /**
   A worker that goes on always finds its executor and its lane, and a live scheduler names a worker for every
   lane; whether that worker still runs is another matter (module DeadLanes).
   */
  lemma NeverStuck(executors: set<Backend>, events: seq<Event>, s: Scheduler, e: Event, max: nat)
    requires Run(Initial(executors), events, s, max) && Enabled(s, e, max)
    ensures Ready(s, e)
    ensures s.started && !s.stopped && !s.finished ==> s.workers.Keys == s.lanes.Keys == s.executors
  {
    ReachableKept(executors, events, s, max);
    StepKept(s, e, max);
    hide Run, Step, Ready, Located, Counted, Recorded, Alert, WellFormed;
  }

  /** No wake-up is lost: a parked worker nobody has woken has nothing to serve under the policy it read. */
  lemma NoLostWakeUp(executors: set<Backend>, events: seq<Event>, s: Scheduler, w: WorkerId, max: nat)
    requires Run(Initial(executors), events, s, max) && !s.finished
    requires w in s.tasks && s.tasks[w].spot.Parked? && !s.tasks[w].cancelled && w.backend !in s.awake
    ensures w.backend in s.lanes && WellFormed(s.lanes[w.backend])
    ensures forall k :: k in s.lanes[w.backend].order ==> !Admits(s.tasks[w].spot.policy, k)
  {
    ReachableKept(executors, events, s, max);
    assert Alert(s);
    hide Run, Kept, WellFormed;
  }

  // What was submitted stays known, and what was resolved stays as it was.

  lemma StepRemembers(s: Scheduler, e: Event, j: JobId, max: nat)
    requires Enabled(s, e, max) && Ready(s, e) && !e.Resume?
    ensures j in s.place ==> j in Step(s, e).place
    ensures j in s.outcome ==> j in Step(s, e).outcome && Step(s, e).outcome[j] == s.outcome[j]
  {
    hide WellFormed, WorkersOf, StillRunning, Cancelling, Spawned, Assigned, Hollow;
  }

  lemma LoopedRemembers(s: Scheduler, w: WorkerId, f: Finding, j: JobId)
    requires w in s.tasks && w.backend in s.lanes && WellFormed(s.lanes[w.backend])
    ensures j in s.place ==> j in Looped(s, w, f).place
    ensures j in s.outcome ==> j in Looped(s, w, f).outcome && Looped(s, w, f).outcome[j] == s.outcome[j]
  {
    hide WellFormed, Next, Served, Popped;
  }

  lemma EndedRemembers(s: Scheduler, w: WorkerId, ending: Ending, j: JobId)
    requires w in s.tasks && s.tasks[w].spot.Executing?
    ensures j in s.place ==> j in Ended(s, w, ending).place
    ensures j in s.outcome ==> j in Ended(s, w, ending).outcome && Ended(s, w, ending).outcome[j] == s.outcome[j]
  {
  }

  lemma DegradedRemembers(s: Scheduler, b: Backend, j: JobId)
    ensures j in s.place ==> j in Degraded(s, b).place
    ensures j in s.outcome ==> j in Degraded(s, b).outcome && Degraded(s, b).outcome[j] == s.outcome[j]
  {
  }

  lemma ResumedRemembers(s: Scheduler, w: WorkerId, f: Finding, j: JobId)
    requires w in s.tasks
    requires !Unwinds(s.tasks[w], f.ending) ==> w.backend in s.lanes && WellFormed(s.lanes[w.backend])
    ensures j in s.place ==> j in Resumed(s, w, f).place
    ensures j in s.outcome ==> j in Resumed(s, w, f).outcome && Resumed(s, w, f).outcome[j] == s.outcome[j]
  {
    assert WellFormed<JobId>(Empty());
    hide Ended, Degraded, Looped, WellFormed;
    if s.tasks[w].spot.Executing? {
      EndedRemembers(s, w, Interrupted, j);
      EndedRemembers(s, w, f.ending, j);
    }
    if !Unwinds(s.tasks[w], f.ending) {
      if !s.tasks[w].spot.Executing? {
        LoopedRemembers(s, w, f, j);
      } else {
        var ended := Ended(s, w, f.ending);
        DegradedRemembers(ended, w.backend, j);
        if f.ending.RaisedBase? {
          LoopedRemembers(Degraded(ended, w.backend), w, f, j);
        } else {
          LoopedRemembers(ended, w, f, j);
        }
      }
    }
  }

  lemma AnyStepRemembers(s: Scheduler, e: Event, j: JobId, max: nat)
    requires Enabled(s, e, max) && Ready(s, e)
    ensures j in s.place ==> j in Step(s, e).place
    ensures j in s.outcome ==> j in Step(s, e).outcome && Step(s, e).outcome[j] == s.outcome[j]
  {
    if e.Resume? {
      ResumedRemembers(s, e.worker, e.finding, j);
      hide Resumed, WellFormed;
    } else {
      StepRemembers(s, e, j, max);
    }
  }

  /** A future once resolved is never resolved again, and a job once accepted stays accounted for. */
  lemma {:induction false} OutcomesStick(s: Scheduler, events: seq<Event>, out: Scheduler, j: JobId, max: nat)
    requires Run(s, events, out, max)
    ensures j in s.place ==> j in out.place
    ensures j in s.outcome ==> j in out.outcome && out.outcome[j] == s.outcome[j]
    decreases |events|
  {
    hide Enabled, Ready, Step;
    if events != [] {
      AnyStepRemembers(s, events[0], j, max);
      OutcomesStick(Step(s, events[0]), events[1..], out, j, max);
    }
  }

  lemma SubmitKnows(s: Scheduler, e: Event)
    requires e.Submit? && Ready(s, e)
    ensures e.job in Step(s, e).place
  {
    hide WellFormed;
  }

  lemma {:induction false} SubmittedIsKnown(s: Scheduler, events: seq<Event>, out: Scheduler, i: nat, max: nat)
    requires Run(s, events, out, max) && i < |events| && events[i].Submit?
    ensures events[i].job in out.place
    decreases |events|
  {
    hide Enabled, Ready, Step;
    var next := Step(s, events[0]);
    if i == 0 {
      SubmitKnows(s, events[0]);
      OutcomesStick(next, events[1..], out, events[0].job, max);
    } else {
      SubmittedIsKnown(next, events[1..], out, i - 1, max);
    }
  }

  /** When shutdown is over, every future ever handed out is resolved: no caller can wait for ever. */
  lemma StopResolvesAll(executors: set<Backend>, events: seq<Event>, s: Scheduler, i: nat, max: nat)
    requires Run(Initial(executors), events, s, max) && s.finished && i < |events| && events[i].Submit?
    ensures events[i].job in s.outcome && s.running.Keys == {}
  {
    ReachableKept(executors, events, s, max);
    SubmittedIsKnown(Initial(executors), events, s, i, max);
    assert AllResolved(s);
    hide Run;
  }
}
