/**
 What becomes of a job, told by events: which outcome its future gets and why, over every run; who is
 dispatched, and under which policy; and when a backend counts as degraded.
 */
module LaneOutcomes {
  import opened LaneRuns
  import opened LaneSafety
  import opened LaneScheduler
  import opened Placement
  import opened Prelude
  import opened RunningCounts
  import opened Stride
  import opened StrideDepth
  import opened StrideSteps

  /** Accepted, and its future unresolved. */
  ghost predicate Open(s: Scheduler, j: JobId) { j in s.place && j !in s.outcome }

  ghost predicate QueuedOn(s: Scheduler, b: Backend, j: JobId) {
    j in s.place && s.place[j].Queued? && s.place[j].backend == b
  }

  ghost predicate HasOutcome(s: Scheduler, j: JobId, o: Outcome) { j in s.outcome && s.outcome[j] == o }

  /** The worker's call on this job ends, and nobody had cancelled the worker. */
  ghost predicate CallEnds(s: Scheduler, e: Event, j: JobId) {
    && e.Resume? && e.worker in s.tasks && !s.tasks[e.worker].cancelled
    && s.tasks[e.worker].spot.Executing? && s.tasks[e.worker].spot.job == j
  }

  /** A worker of this backend goes on with its loop: neither it nor its call was cancelled. */
  ghost predicate WorkerGoesOn(s: Scheduler, e: Event, b: Backend) {
    && e.Resume? && e.worker.backend == b && e.worker in s.tasks && !s.tasks[e.worker].cancelled
    && !(s.tasks[e.worker].spot.Executing? && e.finding.ending.Interrupted?)
  }

  /** Something other than an ordinary exception comes out of the call, or reading the policy raises. */
  ghost predicate LaneRaises(s: Scheduler, e: Event, b: Backend) {
    && WorkerGoesOn(s, e, b)
    && ((s.tasks[e.worker].spot.Executing? && e.finding.ending.RaisedBase?) || (!s.stopped && e.finding.raises))
  }

  /** The executor returned a result. */
  ghost predicate Delivers(s: Scheduler, e: Event, j: JobId) { CallEnds(s, e, j) && e.finding.ending.Returned? }

  /** The executor raised, or the job's lane was failed around it. */
  ghost predicate Fails(s: Scheduler, e: Event, j: JobId) {
    || (CallEnds(s, e, j) && (e.finding.ending.Raised? || e.finding.ending.RaisedBase?))
    || (e.Resume? && QueuedOn(s, e.worker.backend, j) && LaneRaises(s, e, e.worker.backend))
  }

  /** Its worker or its call was cancelled, its caller gave it up, its backend went, or the scheduler stopped. */
  ghost predicate Cancels(s: Scheduler, e: Event, j: JobId) {
    match e
    case Resume(w, f) =>
      && w in s.tasks && s.tasks[w].spot.Executing? && s.tasks[w].spot.job == j
      && (s.tasks[w].cancelled || f.ending.Interrupted?)
    case Abandon(given) => given == j
    case Update(next, _) => exists b :: b in s.executors && b !in next && QueuedOn(s, b, j)
    case Joined => exists b :: b in s.lanes && QueuedOn(s, b, j)
    case _ => false
  }

  // One step.

  /** Still open, or resolved just so. */
  ghost predicate Settles(r: Scheduler, j: JobId, delivers: bool, fails: bool, cancels: bool) {
    && (HasOutcome(r, j, Delivered) <==> delivers)
    && (HasOutcome(r, j, Failed) <==> fails)
    && (HasOutcome(r, j, Outcome.Cancelled) <==> cancels)
  }

  lemma EndedSettles(s: Scheduler, w: WorkerId, ending: Ending, j: JobId)
    requires Open(s, j) && w in s.tasks && s.tasks[w].spot.Executing?
    ensures var r := Ended(s, w, ending); var held := s.tasks[w].spot.job == j;
      && Settles(r, j, held && ending.Returned?, held && (ending.Raised? || ending.RaisedBase?), held && ending.Interrupted?)
      && (!held ==> Open(r, j) && r.place[j] == s.place[j])
  {
    hide Unslotted;
  }

  lemma DegradedSettles(s: Scheduler, b: Backend, j: JobId)
    requires Open(s, j)
    ensures var r := Degraded(s, b);
      && Settles(r, j, false, QueuedOn(s, b, j), false)
      && (!QueuedOn(s, b, j) ==> Open(r, j) && r.place[j] == s.place[j])
  {
  }

  /** A queued job is in a lane that is not empty. */
  lemma QueuedInOrder(s: Scheduler, b: Backend, j: JobId)
    requires Located(s) && QueuedOn(s, b, j) && b in s.lanes && WellFormed(s.lanes[b])
    ensures s.lanes[b].order != []
  {
    ListAt(s, s.place[j]);
    assert j in ListOf(s, s.place[j]);
  }

  lemma LoopedSettles(s: Scheduler, w: WorkerId, f: Finding, j: JobId)
    requires Open(s, j) && Located(s) && w in s.tasks && w.backend in s.lanes && WellFormed(s.lanes[w.backend])
    ensures Settles(Looped(s, w, f), j, false, !s.stopped && f.raises && QueuedOn(s, w.backend, j), false)
  {
    if QueuedOn(s, w.backend, j) {
      QueuedInOrder(s, w.backend, j);
    }
    if !s.stopped && f.raises && s.lanes[w.backend].order != [] {
      DegradedSettles(s, w.backend, j);
    }
    hide WellFormed, Next, Popped, Served, Degraded, Located;
  }

  /** A job in a worker's hands is nobody else's and in no lane. */
  lemma HeldJob(s: Scheduler, w: WorkerId)
    requires Located(s) && w in s.tasks && s.tasks[w].spot.Executing?
    ensures var spot := s.tasks[w].spot; spot.job in s.place && s.place[spot.job] == Held(w, spot.profile)
  {
    EndedLocated(s, w, Returned);
  }

  lemma UnwoundSettles(s: Scheduler, w: WorkerId, j: JobId)
    requires Open(s, j) && w in s.tasks
    ensures Settles(Unwound(s, w), j, false, false, s.tasks[w].spot.Executing? && s.tasks[w].spot.job == j)
  {
    if s.tasks[w].spot.Executing? {
      EndedSettles(s, w, Interrupted, j);
    }
    hide Ended;
  }

  /** The call just ended goes before the loop: what is resolved by it stays so. */
  lemma LoopedLeaves(s: Scheduler, w: WorkerId, f: Finding, j: JobId)
    requires j in s.outcome && w in s.tasks && w.backend in s.lanes && WellFormed(s.lanes[w.backend])
    ensures j in Looped(s, w, f).outcome && Looped(s, w, f).outcome[j] == s.outcome[j]
  {
    LoopedRemembers(s, w, f, j);
  }

  /** The loop's top after a call, from a state in which the job is open or already resolved. */
  lemma ThenLooped(s: Scheduler, w: WorkerId, f: Finding, j: JobId)
    requires (Open(s, j) || j in s.outcome) && Located(s)
    requires w in s.tasks && w.backend in s.lanes && WellFormed(s.lanes[w.backend])
    ensures var r := Looped(s, w, f); var fails := !s.stopped && f.raises && QueuedOn(s, w.backend, j);
      if j in s.outcome then j in r.outcome && r.outcome[j] == s.outcome[j] else Settles(r, j, false, fails, false)
  {
    hide WellFormed, Looped, Located, Settles;
    if j in s.outcome {
      LoopedLeaves(s, w, f, j);
    } else {
      LoopedSettles(s, w, f, j);
    }
  }

  /** The lane failed and the loop's top taken, likewise. */
  lemma ThenDegraded(s: Scheduler, w: WorkerId, f: Finding, j: JobId)
    requires (Open(s, j) || j in s.outcome) && Located(s) && w in s.tasks
    ensures var there := Degraded(s, w.backend); w.backend in there.lanes && WellFormed(there.lanes[w.backend])
    ensures var r := Looped(Degraded(s, w.backend), w, f);
      if j in s.outcome then j in r.outcome && r.outcome[j] == s.outcome[j]
      else Settles(r, j, false, QueuedOn(s, w.backend, j), false)
  {
    assert WellFormed<JobId>(Empty());
    hide WellFormed, Looped, Located, Degraded;
    var failed := Degraded(s, w.backend);
    DegradedLocated(s, w.backend);
    if j in s.outcome {
      DegradedRemembers(s, w.backend, j);
    } else {
      DegradedSettles(s, w.backend, j);
    }
    ThenLooped(failed, w, f, j);
  }

  lemma EndedLoopedSettles(s: Scheduler, w: WorkerId, f: Finding, j: JobId)
    requires Open(s, j) && Located(s) && w in s.tasks && s.tasks[w].spot.Executing?
    requires w.backend in s.lanes && WellFormed(s.lanes[w.backend])
    requires !s.tasks[w].cancelled && !f.ending.Interrupted?
    ensures var held, queued := s.tasks[w].spot.job == j, QueuedOn(s, w.backend, j);
      Settles(Resumed(s, w, f), j, held && f.ending.Returned?,
        (held && !f.ending.Returned?) || (queued && (f.ending.RaisedBase? || (!s.stopped && f.raises))), false)
  {
    hide Ended, Degraded, Looped, WellFormed, Located;
    var ended := Ended(s, w, f.ending);
    if s.tasks[w].spot.job == j {
      HeldNotQueued(s, w, j);
    }
    EndedSettles(s, w, f.ending, j);
    EndedLocated(s, w, f.ending);
    if f.ending.RaisedBase? {
      ThenDegraded(ended, w, f, j);
    } else {
      ThenLooped(ended, w, f, j);
    }
  }

  lemma HeldNotQueued(s: Scheduler, w: WorkerId, j: JobId)
    requires Located(s) && w in s.tasks && s.tasks[w].spot.Executing? && s.tasks[w].spot.job == j
    ensures forall b :: !QueuedOn(s, b, j)
  {
    HeldJob(s, w);
  }

  lemma ResumeSettles(s: Scheduler, w: WorkerId, f: Finding, j: JobId, max: nat)
    requires Sound(s, max) && Enabled(s, Resume(w, f), max) && Ready(s, Resume(w, f)) && Open(s, j)
    ensures var e := Resume(w, f); Settles(Resumed(s, w, f), j, Delivers(s, e, j), Fails(s, e, j), Cancels(s, e, j))
  {
    hide WellFormed, Located, Counted, Recorded, Alert, Staffed, LanesOk, Ended, Looped, Unwound, Settles, Open;
    if Unwinds(s.tasks[w], f.ending) {
      UnwoundSettles(s, w, j);
    } else if s.tasks[w].spot.Executing? {
      if s.tasks[w].spot.job == j {
        HeldNotQueued(s, w, j);
      }
      EndedLoopedSettles(s, w, f, j);
    } else {
      LoopedSettles(s, w, f, j);
    }
  }

  lemma VacatedSettles(s: Scheduler, backends: set<Backend>, j: JobId)
    requires Open(s, j)
    ensures var r := Vacated(s, backends, Outcome.Cancelled);
      Settles(r, j, false, false, exists b :: b in backends && QueuedOn(s, b, j))
  {
    if In(s.place[j], backends) {
      assert QueuedOn(s, s.place[j].backend, j);
    }
    assert HasOutcome(Vacated(s, backends, Outcome.Cancelled), j, Outcome.Cancelled) <==> In(s.place[j], backends);
  }

  lemma UpdateSettles(s: Scheduler, next: set<Backend>, serial: nat, j: JobId)
    requires Open(s, j)
    ensures Settles(Updated(s, next, serial), j, false, false, Cancels(s, Update(next, serial), j))
  {
    VacatedSettles(s, s.executors - next, j);
    hide Vacated, WorkersOf, StillRunning, Open;
  }

  lemma JoinedSettles(s: Scheduler, j: JobId)
    requires Open(s, j)
    ensures Settles(Finished(s), j, false, false, Cancels(s, Joined, j))
  {
    VacatedSettles(s, s.lanes.Keys, j);
    hide Vacated, Hollow, Open;
  }

  lemma OtherSettles(s: Scheduler, e: Event, j: JobId, max: nat)
    requires Enabled(s, e, max) && Ready(s, e) && !e.Resume? && Open(s, j)
    ensures Settles(Step(s, e), j, false, false, Cancels(s, e, j))
  {
    if e.Update? {
      UpdateSettles(s, e.next, e.serial, j);
      hide Updated, Settles, Cancels;
    } else if e.Joined? {
      JoinedSettles(s, j);
      hide Finished, Settles, Cancels;
    } else {
      hide WellFormed, Pushed, WorkersOf, Vacated, DepthIn;
    }
  }

  /**
   One step resolves an open future as delivered, failed or cancelled exactly as its event says, and otherwise
   leaves it open.
   */
  lemma StepSettles(s: Scheduler, e: Event, j: JobId, max: nat)
    requires Kept(s, max) && Enabled(s, e, max) && Ready(s, e) && Open(s, j)
    ensures Settles(Step(s, e), j, Delivers(s, e, j), Fails(s, e, j), Cancels(s, e, j))
  {
    if e.Resume? {
      ResumeSettles(s, e.worker, e.finding, j, max);
      hide Resumed, Settles, WellFormed;
    } else {
      OtherSettles(s, e, j, max);
      hide Step, Settles, Cancels;
    }
  }

  // Whole runs.

  /** A run with the scheduler before each event and after the last. */
  ghost predicate Trace(executors: set<Backend>, events: seq<Event>, states: seq<Scheduler>, max: nat) {
    && |states| == |events| + 1 && states[0] == Initial(executors)
    && forall m :: 0 <= m < |events| ==> Follows(states[m], events[m], states[m + 1], max)
  }

  ghost predicate Follows(s: Scheduler, e: Event, next: Scheduler, max: nat) {
    Enabled(s, e, max) && Ready(s, e) && next == Step(s, e)
  }

  lemma {:induction false} TraceKept(executors: set<Backend>, events: seq<Event>, states: seq<Scheduler>, n: nat, max: nat)
    requires Trace(executors, events, states, max) && n <= |events|
    ensures Kept(states[n], max)
  {
    hide Kept, Enabled, Ready, Step;
    if n == 0 {
      InitialKept(executors, max);
    } else {
      TraceKept(executors, events, states, n - 1, max);
      assert Follows(states[n - 1], events[n - 1], states[n], max);
      StepKept(states[n - 1], events[n - 1], max);
    }
  }

  lemma KnownFirst(s: Scheduler, max: nat)
    requires Kept(s, max)
    ensures s.outcome.Keys <= s.place.Keys
  {
    hide Located, Counted, Alert, Staffed, LanesOk;
  }

  lemma LoopedPlaces(s: Scheduler, w: WorkerId, f: Finding)
    requires Located(s) && w in s.tasks && Empty?(s.tasks[w].spot)
    requires w.backend in s.lanes && WellFormed(s.lanes[w.backend])
    ensures Looped(s, w, f).place.Keys == s.place.Keys
  {
    hide WellFormed, Next, Popped, Located, Waiting;
    var lane := s.lanes[w.backend];
    if !s.stopped && !(f.raises && lane.order != []) && Next(lane, f.policy).Some? {
      DispatchedLocated(s, w, f.weightOf, f.policy);
      DispatchedTables(s, w, f.weightOf, f.policy);
      hide Served, Dispatched;
    }
  }

  lemma EndedPlaces(s: Scheduler, w: WorkerId, ending: Ending)
    requires Located(s) && w in s.tasks && s.tasks[w].spot.Executing?
    ensures var r := Ended(s, w, ending);
      r.place.Keys == s.place.Keys && Located(r) && w in r.tasks && Empty?(r.tasks[w].spot)
  {
    EndedLocated(s, w, ending);
    hide Located, Unslotted, Resolved;
  }

  lemma ResumedPlaces(s: Scheduler, w: WorkerId, f: Finding)
    requires Located(s) && w in s.tasks
    requires !Unwinds(s.tasks[w], f.ending) ==> w.backend in s.lanes && WellFormed(s.lanes[w.backend])
    ensures Resumed(s, w, f).place.Keys == s.place.Keys
  {
    assert WellFormed<JobId>(Empty());
    hide Located, Looped, Ended, WellFormed, Emptied, Resolved;
    if s.tasks[w].spot.Executing? {
      EndedPlaces(s, w, Interrupted);
      EndedPlaces(s, w, f.ending);
    }
    if !Unwinds(s.tasks[w], f.ending) {
      if !s.tasks[w].spot.Executing? {
        LoopedPlaces(s, w, f);
      } else {
        var ended := Ended(s, w, f.ending);
        DegradedLocated(ended, w.backend);
        LoopedPlaces(if f.ending.RaisedBase? then Degraded(ended, w.backend) else ended, w, f);
      }
    }
  }

  lemma OtherPlaces(s: Scheduler, e: Event, max: nat)
    requires Enabled(s, e, max) && Ready(s, e) && !e.Resume?
    ensures Step(s, e).place.Keys == s.place.Keys + (if e.Submit? then {e.job} else {})
  {
    hide WellFormed, Pushed, WorkersOf, StillRunning, Resolved, Hollow, DepthIn;
  }

  lemma JustAccepted(s: Scheduler, e: Event, max: nat)
    requires e.Submit? && Enabled(s, e, max) && Ready(s, e)
    ensures Step(s, e).outcome == s.outcome && e.job !in s.place
  {
    hide WellFormed, Pushed, DepthIn;
  }

  /** A job not yet accepted has no outcome, and none after the step either. */
  lemma NotYetResolved(s: Scheduler, e: Event, j: JobId, max: nat)
    requires Kept(s, max) && Enabled(s, e, max) && Ready(s, e) && j !in s.place
    ensures j !in s.outcome && j !in Step(s, e).outcome
  {
    hide Sound, AllResolved, Step, Enabled, Ready;
    KnownFirst(s, max);
    StepKept(s, e, max);
    KnownFirst(Step(s, e), max);
    if e.Submit? {
      JustAccepted(s, e, max);
    } else if e.Resume? {
      StillSound(s, e, max);
      ResumedKeys(s, e, max);
    } else {
      OtherPlaces(s, e, max);
    }
  }

  lemma StillSound(s: Scheduler, e: Event, max: nat)
    requires Kept(s, max) && Enabled(s, e, max) && !e.Abandon?
    ensures Sound(s, max)
  {
  }

  lemma ResumedKeys(s: Scheduler, e: Event, max: nat)
    requires Sound(s, max) && e.Resume? && Enabled(s, e, max) && Ready(s, e)
    ensures Step(s, e).place.Keys == s.place.Keys
  {
    ResumedPlaces(s, e.worker, e.finding);
    hide Resumed, WellFormed, Located, Counted, Recorded, Alert, Staffed, LanesOk;
  }

  /** An open future whose event says so, at some point of the run. */
  ghost predicate EverDelivered(events: seq<Event>, states: seq<Scheduler>, n: nat, j: JobId)
    requires n <= |events| < |states|
  {
    exists i :: 0 <= i < n && Open(states[i], j) && Delivers(states[i], events[i], j)
  }

  ghost predicate EverFailed(events: seq<Event>, states: seq<Scheduler>, n: nat, j: JobId)
    requires n <= |events| < |states|
  {
    exists i :: 0 <= i < n && Open(states[i], j) && Fails(states[i], events[i], j)
  }

  ghost predicate EverCancelled(events: seq<Event>, states: seq<Scheduler>, n: nat, j: JobId)
    requires n <= |events| < |states|
  {
    exists i :: 0 <= i < n && Open(states[i], j) && Cancels(states[i], events[i], j)
  }

  lemma StepOutcome(s: Scheduler, e: Event, next: Scheduler, j: JobId, max: nat)
    requires Kept(s, max) && Follows(s, e, next, max)
    ensures HasOutcome(next, j, Delivered) <==> HasOutcome(s, j, Delivered) || (Open(s, j) && Delivers(s, e, j))
    ensures HasOutcome(next, j, Failed) <==> HasOutcome(s, j, Failed) || (Open(s, j) && Fails(s, e, j))
    ensures HasOutcome(next, j, Outcome.Cancelled)
      <==> HasOutcome(s, j, Outcome.Cancelled) || (Open(s, j) && Cancels(s, e, j))
  {
    hide Kept, Step, Enabled, Ready, Delivers, Fails, Cancels;
    if j !in s.place {
      NotYetResolved(s, e, j, max);
    } else if j in s.outcome {
      AnyStepRemembers(s, e, j, max);
    } else {
      StepSettles(s, e, j, max);
    }
  }

  /**
   Over every run, a job's future is delivered if and only if the call of the worker holding it returned while the
   future was open and nobody had cancelled the worker; failed if and only if then the call raised, or the job was
   queued on a lane that was failed; cancelled if and only if its worker or call was cancelled, its caller gave it
   up, its backend was removed while it was queued, or it was still queued when shutdown finished.
   */
  lemma {:induction false} OutcomeExactly(
    executors: set<Backend>, events: seq<Event>, states: seq<Scheduler>, n: nat, j: JobId, max: nat)
    requires Trace(executors, events, states, max) && n <= |events|
    ensures HasOutcome(states[n], j, Delivered) <==> EverDelivered(events, states, n, j)
    ensures HasOutcome(states[n], j, Failed) <==> EverFailed(events, states, n, j)
    ensures HasOutcome(states[n], j, Outcome.Cancelled) <==> EverCancelled(events, states, n, j)
  {
    hide Follows, Open, Delivers, Fails, Cancels;
    if n == 0 {
      NobodyYet(executors, j);
    } else {
      hide HasOutcome, Kept;
      OutcomeExactly(executors, events, states, n - 1, j, max);
      TraceKept(executors, events, states, n - 1, max);
      assert Follows(states[n - 1], events[n - 1], states[n], max);
      StepOutcome(states[n - 1], events[n - 1], states[n], j, max);
    }
  }

  lemma NobodyYet(executors: set<Backend>, j: JobId)
    ensures j !in Initial(executors).outcome
  {
  }
}
