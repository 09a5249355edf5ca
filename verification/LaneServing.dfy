/**
 Whom a lane serves and when its backend counts as degraded, told by the tables before and after a step and by
 what the worker found, with none of the scheduler's own operations named.
 */
module LaneServing {
  import opened DeadLanes
  import opened LaneOutcomes
  import opened LaneRuns
  import opened LaneSafety
  import opened LaneScheduler
  import opened Prelude
  import opened RunningCounts
  import opened Stride
  import opened StrideDepth
  import opened StrideSteps

  /** A worker goes on in a scheduler not stopped, and nothing is raised around it. */
  ghost predicate LooksForWork(s: Scheduler, e: Event, b: Backend) {
    WorkerGoesOn(s, e, b) && !s.stopped && !LaneRaises(s, e, b)
  }

  /** The lane serves a job the policy found admits, and the worker takes it, counted on its profile. */
  ghost predicate TakesNext(s: Scheduler, r: Scheduler, w: WorkerId, f: Finding) {
    && w in r.tasks && r.tasks[w].spot.Executing? && w.backend in s.lanes && w.backend in r.lanes
    && var Executing(j, k) := r.tasks[w].spot;
      && Serves(s.lanes[w.backend], r.lanes[w.backend], f.policy, f.weightOf(k), k, j)
      && j in r.place && r.place[j] == Held(w, k)
  }

  /** Nobody the policy found admits waits: the worker parks and the lane is as it was. */
  ghost predicate Parks(s: Scheduler, r: Scheduler, w: WorkerId, f: Finding) {
    && w in r.tasks && r.tasks[w].spot == Parked(f.policy) && w.backend !in r.awake
    && w.backend in s.lanes && w.backend in r.lanes && r.lanes[w.backend] == s.lanes[w.backend]
    && forall k :: k in s.lanes[w.backend].order ==> !Admits(f.policy, k)
  }

  ghost predicate OtherLanes(s: Scheduler, r: Scheduler, b: Backend) {
    forall d :: d != b ==> (d in r.lanes <==> d in s.lanes) && (d in s.lanes ==> r.lanes[d] == s.lanes[d])
  }

  lemma DispatchTakes(s: Scheduler, w: WorkerId, f: Finding)
    requires w in s.tasks && w.backend in s.lanes && WellFormed(s.lanes[w.backend])
    requires Next(s.lanes[w.backend], f.policy).Some?
    ensures var r := Dispatched(s, w, f.weightOf, f.policy); TakesNext(s, r, w, f) && OtherLanes(s, r, w.backend)
  {
    hide Popped, Next, Serves, WellFormed, Dispatched;
    PopServes(s.lanes[w.backend], f.weightOf, f.policy);
    DispatchedTables(s, w, f.weightOf, f.policy);
  }

  lemma IdleParks(s: Scheduler, w: WorkerId, f: Finding)
    requires w in s.tasks && w.backend in s.lanes && WellFormed(s.lanes[w.backend])
    requires Next(s.lanes[w.backend], f.policy).None?
    ensures var r := Idle(s, w, f.policy); Parks(s, r, w, f) && OtherLanes(s, r, w.backend)
  {
    hide WellFormed;
  }

  lemma LoopedTakes(s: Scheduler, w: WorkerId, f: Finding)
    requires w in s.tasks && w.backend in s.lanes && WellFormed(s.lanes[w.backend]) && !s.stopped && !f.raises
    ensures var r := Looped(s, w, f); OtherLanes(s, r, w.backend) && (TakesNext(s, r, w, f) || Parks(s, r, w, f))
  {
    hide WellFormed, TakesNext, Parks, Dispatched, Idle;
    if Next(s.lanes[w.backend], f.policy).Some? {
      DispatchTakes(s, w, f);
    } else {
      IdleParks(s, w, f);
    }
  }

  lemma AfterCall(s: Scheduler, mid: Scheduler, r: Scheduler, w: WorkerId, f: Finding)
    requires mid.lanes == s.lanes
    ensures TakesNext(mid, r, w, f) ==> TakesNext(s, r, w, f)
    ensures Parks(mid, r, w, f) ==> Parks(s, r, w, f)
    ensures OtherLanes(mid, r, w.backend) ==> OtherLanes(s, r, w.backend)
  {
    hide Serves;
  }

  /**
   A worker that looks for work takes the lane's next job under the policy and weights it found, or parks because
   nobody waiting is admitted; other lanes are not touched.
   */
  lemma LooksAndTakes(s: Scheduler, e: Event, b: Backend, max: nat)
    requires Sound(s, max) && Enabled(s, e, max) && Ready(s, e) && LooksForWork(s, e, b)
    ensures var r := Step(s, e);
      OtherLanes(s, r, b) && (TakesNext(s, r, e.worker, e.finding) || Parks(s, r, e.worker, e.finding))
  {
    var w, f := e.worker, e.finding;
    hide WellFormed, Located, Counted, Recorded, Alert, Staffed, LanesOk, Ended, Looped, TakesNext, Parks, OtherLanes;
    if s.tasks[w].spot.Executing? {
      var ended := Ended(s, w, f.ending);
      LoopedTakes(ended, w, f);
      AfterCall(s, ended, Looped(ended, w, f), w, f);
    } else {
      LoopedTakes(s, w, f);
    }
  }

  /** A worker is newly in a call on this job. */
  ghost predicate NewlyExecutes(s: Scheduler, r: Scheduler, w: WorkerId) {
    w in r.tasks && r.tasks[w].spot.Executing? && !(w in s.tasks && s.tasks[w].spot == r.tasks[w].spot)
  }

  lemma OnlyResumeDispatches(s: Scheduler, e: Event, w: WorkerId, max: nat)
    requires Enabled(s, e, max) && Ready(s, e) && !e.Resume?
    ensures !NewlyExecutes(s, Step(s, e), w)
  {
    hide WellFormed, Pushed, Emptied, Resolved, Hollow, WorkersOf, StillRunning, DepthIn;
  }

  lemma EmptiedIdles(s: Scheduler, w: WorkerId, f: Finding)
    requires w in s.tasks && w.backend in s.lanes && WellFormed(s.lanes[w.backend])
    requires s.stopped || f.raises || s.lanes[w.backend].order == []
    ensures w in Looped(s, w, f).tasks && !Looped(s, w, f).tasks[w].spot.Executing?
  {
    hide WellFormed, Emptied, Resolved, Popped;
  }

  lemma RaisedIdles(s: Scheduler, w: WorkerId, f: Finding)
    requires w in s.tasks
    ensures var there := Degraded(s, w.backend); w.backend in there.lanes && WellFormed(there.lanes[w.backend])
    ensures var r := Looped(Degraded(s, w.backend), w, f); w in r.tasks && !r.tasks[w].spot.Executing?
  {
    assert WellFormed<JobId>(Empty());
    hide WellFormed, Degraded, Looped;
    EmptiedIdles(Degraded(s, w.backend), w, f);
  }

  lemma OtherwiseIdles(s: Scheduler, e: Event, max: nat)
    requires Sound(s, max) && e.Resume? && Enabled(s, e, max) && Ready(s, e) && !LooksForWork(s, e, e.worker.backend)
    ensures var r := Step(s, e); e.worker in r.tasks && !r.tasks[e.worker].spot.Executing?
  {
    var w, f := e.worker, e.finding;
    hide WellFormed, Located, Counted, Recorded, Alert, Staffed, LanesOk, Ended, Looped, Unwound;
    if Unwinds(s.tasks[w], f.ending) {
      UnwoundTask(s, w);
    } else if !s.tasks[w].spot.Executing? {
      EmptiedIdles(s, w, f);
    } else if f.ending.RaisedBase? {
      RaisedIdles(Ended(s, w, f.ending), w, f);
    } else {
      EmptiedIdles(Ended(s, w, f.ending), w, f);
    }
  }

  lemma OthersStay(s: Scheduler, e: Event, w: WorkerId, max: nat)
    requires e.Resume? && Enabled(s, e, max) && Ready(s, e) && w != e.worker
    ensures !NewlyExecutes(s, Step(s, e), w)
  {
    ResumedTask(s, e.worker, e.finding);
    hide Resumed, WellFormed;
  }

  /**
   A worker newly in a call got there by looking for work: its job is the one the lane serves next under the policy
   it found, which admits the job's profile.
   */
  lemma ExecutesAdmitted(s: Scheduler, e: Event, w: WorkerId, max: nat)
    requires Sound(s, max) && Enabled(s, e, max) && Ready(s, e) && NewlyExecutes(s, Step(s, e), w)
    ensures e.Resume? && e.worker == w && LooksForWork(s, e, w.backend)
    ensures TakesNext(s, Step(s, e), w, e.finding)
    ensures Admits(e.finding.policy, Step(s, e).tasks[w].spot.profile)
  {
    hide Sound, Enabled, Step, LooksForWork, Serves;
    if !e.Resume? {
      OnlyResumeDispatches(s, e, w, max);
    } else if e.worker != w {
      OthersStay(s, e, w, max);
    } else if !LooksForWork(s, e, w.backend) {
      OtherwiseIdles(s, e, max);
    } else {
      LooksAndTakes(s, e, w.backend, max);
      TakenAdmitted(s, Step(s, e), w, e.finding);
    }
  }

  lemma TakenAdmitted(s: Scheduler, r: Scheduler, w: WorkerId, f: Finding)
    requires TakesNext(s, r, w, f)
    ensures Admits(f.policy, r.tasks[w].spot.profile)
  {
    hide PassesAfter, OnlyList;
  }

  /** A worker that goes on but does not look for work: it ends when the scheduler stopped, and else waits, its lane empty. */
  ghost predicate Rests(s: Scheduler, r: Scheduler, e: Event, w: WorkerId)
    requires e.Resume?
  {
    && w in r.tasks && r.tasks[w].spot == (if s.stopped then Done else Parked(e.finding.policy))
    && (!s.stopped ==> w.backend in r.lanes && r.lanes[w.backend].order == [] && w.backend !in r.awake)
  }

  lemma EmptiedRests(s: Scheduler, e: Event, w: WorkerId)
    requires e.Resume? && w == e.worker && w in s.tasks && w.backend in s.lanes && WellFormed(s.lanes[w.backend])
    requires s.stopped || e.finding.raises || s.lanes[w.backend].order == []
    ensures Rests(s, Looped(s, w, e.finding), e, w)
  {
    hide WellFormed, Emptied, Resolved, Popped;
  }

  lemma RaisedRests(s: Scheduler, e: Event, w: WorkerId)
    requires e.Resume? && w == e.worker && w in s.tasks
    ensures var there := Degraded(s, w.backend); w.backend in there.lanes && WellFormed(there.lanes[w.backend])
    ensures Rests(s, Looped(Degraded(s, w.backend), w, e.finding), e, w)
  {
    assert WellFormed<JobId>(Empty());
    hide WellFormed, Degraded, Looped, Rests;
    EmptiedRests(Degraded(s, w.backend), e, w);
    SameRests(s, Degraded(s, w.backend), Looped(Degraded(s, w.backend), w, e.finding), e, w);
  }

  lemma SameRests(s: Scheduler, mid: Scheduler, r: Scheduler, e: Event, w: WorkerId)
    requires e.Resume? && mid.stopped == s.stopped && Rests(mid, r, e, w)
    ensures Rests(s, r, e, w)
  {
  }

  /**
   A worker that was cancelled, or whose call was, is done; one that goes on without looking for work is done when the
   scheduler stopped, and otherwise waits for its lane, now empty, to be woken.
   */
  lemma ResumeRests(s: Scheduler, e: Event, max: nat)
    requires Sound(s, max) && e.Resume? && Enabled(s, e, max) && Ready(s, e) && !LooksForWork(s, e, e.worker.backend)
    ensures var r := Step(s, e);
      if WorkerGoesOn(s, e, e.worker.backend) then Rests(s, r, e, e.worker)
      else e.worker in r.tasks && r.tasks[e.worker].spot.Done?
  {
    var w, f := e.worker, e.finding;
    hide WellFormed, Located, Counted, Recorded, Alert, Staffed, LanesOk, Ended, Looped, Unwound, Rests;
    if Unwinds(s.tasks[w], f.ending) {
      UnwoundTask(s, w);
    } else if !s.tasks[w].spot.Executing? {
      EmptiedRests(s, e, w);
    } else if f.ending.RaisedBase? {
      RaisedRests(Ended(s, w, f.ending), e, w);
      SameRests(s, Ended(s, w, f.ending), Step(s, e), e, w);
    } else {
      EmptiedRests(Ended(s, w, f.ending), e, w);
      SameRests(s, Ended(s, w, f.ending), Step(s, e), e, w);
    }
  }

  /** An accepted job joins its profile's list in its backend's lane, and that lane is woken. */
  lemma SubmitJoins(s: Scheduler, b: Backend, k: Key, j: JobId, max: nat)
    requires Enabled(s, Submit(b, k, j), max) && Ready(s, Submit(b, k, j))
    ensures var r := Step(s, Submit(b, k, j));
      && Joins(s.lanes[b], r.lanes[b], k, j) && OtherLanes(s, r, b) && b in r.awake
      && r.place == s.place[j := Queued(b, k)] && r.outcome == s.outcome && r.tasks == s.tasks
  {
    hide Pushed, WellFormed, Joins, DepthIn, Submitted, Enabled, Updated, Resumed, Finished;
    PushJoins(s.lanes[b], k, j);
    SubmittedTables(s, b, k, j);
    assert Step(s, Submit(b, k, j)) == Submitted(s, b, k, j);
    hide Step;
  }

  // Which backends count as degraded.

  /** What was waiting on the lane is failed. */
  ghost predicate LaneFails(s: Scheduler, e: Event, b: Backend) {
    && LaneRaises(s, e, b)
    && ((s.tasks[e.worker].spot.Executing? && e.finding.ending.RaisedBase?) ||
        (b in s.lanes && s.lanes[b].order != []))
  }

  /** A call on the backend returned, the backend was removed, or shutdown is over. */
  ghost predicate Recovers(s: Scheduler, e: Event, b: Backend) {
    match e
    case Resume(w, f) => WorkerGoesOn(s, e, b) && s.tasks[w].spot.Executing? && f.ending.Returned?
    case Update(next, _) => b in s.executors && b !in next
    case Joined => true
    case _ => false
  }

  lemma LoopedDegrades(s: Scheduler, w: WorkerId, f: Finding, b: Backend)
    requires w in s.tasks && w.backend in s.lanes && WellFormed(s.lanes[w.backend])
    ensures b in Looped(s, w, f).degraded <==>
      b in s.degraded || (b == w.backend && !s.stopped && f.raises && s.lanes[b].order != [])
  {
    hide WellFormed, Next, Popped, Served, Emptied, Resolved;
  }

  lemma EndedDegrades(s: Scheduler, w: WorkerId, ending: Ending, b: Backend)
    requires w in s.tasks && s.tasks[w].spot.Executing?
    ensures b in Ended(s, w, ending).degraded <==> b in s.degraded && !(ending.Returned? && b == w.backend)
  {
    hide Resolved, Unslotted;
  }

  lemma RaisedDegrades(s: Scheduler, w: WorkerId, f: Finding, b: Backend)
    requires w in s.tasks
    ensures var there := Degraded(s, w.backend); w.backend in there.lanes && WellFormed(there.lanes[w.backend])
    ensures b in Looped(Degraded(s, w.backend), w, f).degraded <==> b in s.degraded || b == w.backend
  {
    assert WellFormed<JobId>(Empty());
    hide WellFormed, Looped, Emptied, Resolved;
    LoopedDegrades(Degraded(s, w.backend), w, f, b);
  }

  lemma CallDegrades(s: Scheduler, w: WorkerId, f: Finding, b: Backend)
    requires w in s.tasks && s.tasks[w].spot.Executing? && !Unwinds(s.tasks[w], f.ending)
    requires w.backend in s.lanes && WellFormed(s.lanes[w.backend])
    ensures b in Resumed(s, w, f).degraded <==>
      || (b == w.backend && (f.ending.RaisedBase? || (!s.stopped && f.raises && s.lanes[b].order != [])))
      || (b in s.degraded && !(f.ending.Returned? && b == w.backend))
  {
    hide WellFormed, Ended, Looped, Degraded;
    var ended := Ended(s, w, f.ending);
    EndedDegrades(s, w, f.ending, b);
    if f.ending.RaisedBase? {
      RaisedDegrades(ended, w, f, b);
    } else {
      LoopedDegrades(ended, w, f, b);
    }
  }

  lemma UnwoundDegrades(s: Scheduler, w: WorkerId, b: Backend)
    requires w in s.tasks
    ensures Unwound(s, w).degraded == s.degraded
  {
    hide Resolved, Unslotted;
  }

  lemma ResumeDegrades(s: Scheduler, e: Event, b: Backend, max: nat)
    requires e.Resume? && Enabled(s, e, max) && Ready(s, e)
    ensures b in Step(s, e).degraded <==> LaneFails(s, e, b) || (b in s.degraded && !Recovers(s, e, b))
  {
    var w, f := e.worker, e.finding;
    hide WellFormed, Ended, Looped, Degraded, Unwound;
    if Unwinds(s.tasks[w], f.ending) {
      UnwoundDegrades(s, w, b);
    } else if s.tasks[w].spot.Executing? {
      CallDegrades(s, w, f, b);
      hide Resumed;
    } else {
      LoopedDegrades(s, w, f, b);
    }
  }

  /** A backend is degraded after a step exactly if the step failed its lane, or it was and did not recover. */
  lemma DegradedExactly(s: Scheduler, e: Event, b: Backend, max: nat)
    requires Sound(s, max) && Enabled(s, e, max) && Ready(s, e)
    ensures b in Step(s, e).degraded <==> LaneFails(s, e, b) || (b in s.degraded && !Recovers(s, e, b))
  {
    if e.Resume? {
      ResumeDegrades(s, e, b, max);
      hide Step, LaneFails, Recovers, Sound;
    } else {
      hide WellFormed, Pushed, Emptied, Resolved, Hollow, WorkersOf, StillRunning, DepthIn, Sound;
    }
  }
}
