/**
 Lanes without a worker. An executor call that ends in a cancellation nobody asked for takes the worker
 task down with it; the scheduler still names that worker, and what is queued on its lane waits.
 */
module DeadLanes {
  import opened LaneRuns
  import opened LaneSafety
  import opened LaneScheduler
  import opened RunningCounts
  import opened Stride
  import opened StrideDepth

  /** A call of this worker ends interrupted, and nobody has cancelled the worker. */
  ghost predicate Breaks(s: Scheduler, e: Event, w: WorkerId) {
    && e.Resume? && e.worker == w
    && w in s.tasks && s.tasks[w].spot.Executing? && !s.tasks[w].cancelled
    && e.finding.ending.Interrupted?
  }

  /** At some point of the run that does happen. */
  ghost predicate Broken(s: Scheduler, events: seq<Event>, w: WorkerId)
    decreases |events|
  {
    events != [] && Ready(s, events[0]) && (Breaks(s, events[0], w) || Broken(Step(s, events[0]), events[1..], w))
  }

  ghost predicate IsDone(s: Scheduler, w: WorkerId) {
    w in s.tasks && s.tasks[w].spot.Done?
  }

  /** A task of the live scheduler that nobody has cancelled. */
  ghost predicate Uncancelled(s: Scheduler, w: WorkerId) {
    !s.stopped && (w in s.tasks ==> !s.tasks[w].cancelled)
  }

  // What one worker going on does to a task.

  /** Flags and roster as before, and every task but `v` as it was. */
  ghost predicate OnlyTask(s: Scheduler, r: Scheduler, v: WorkerId) {
    && r.started == s.started && r.stopped == s.stopped && r.finished == s.finished && r.workers == s.workers && r.tasks.Keys == s.tasks.Keys
    && (forall w :: w in s.tasks ==> r.tasks[w].cancelled == s.tasks[w].cancelled)
    && (forall w :: w in s.tasks && w != v ==> r.tasks[w] == s.tasks[w])
  }

  lemma OnlyTransitive(a: Scheduler, b: Scheduler, c: Scheduler, v: WorkerId)
    requires OnlyTask(a, b, v) && OnlyTask(b, c, v)
    ensures OnlyTask(a, c, v)
  {
  }

  /** Only the tables of tasks, of flags and of the roster matter here. */
  lemma SpotOnly(s: Scheduler, r: Scheduler, v: WorkerId, spot: Spot)
    requires v in s.tasks && r.tasks == WithSpot(s, v, spot).tasks
    requires r.started == s.started && r.stopped == s.stopped && r.finished == s.finished && r.workers == s.workers
    ensures OnlyTask(s, r, v) && r.tasks[v].spot == spot
  {
  }

  lemma DispatchedTask(s: Scheduler, v: WorkerId, weightOf: Key -> Weight, policy: Policy)
    requires v in s.tasks && v.backend in s.lanes && WellFormed(s.lanes[v.backend])
    requires Next(s.lanes[v.backend], policy).Some?
    ensures var r := Dispatched(s, v, weightOf, policy); OnlyTask(s, r, v) && !r.tasks[v].spot.Done?
  {
    var (profile, j) := Served(s.lanes[v.backend], policy).value;
    hide WellFormed, Next, Served, Popped, OnlyTask;
    SpotOnly(s, Dispatched(s, v, weightOf, policy), v, Executing(j, profile));
  }

  lemma DegradedOnly(s: Scheduler, v: WorkerId, b: Backend)
    ensures OnlyTask(s, Degraded(s, b), v)
  {
    hide Resolved, Emptied;
  }

  lemma LoopedTask(s: Scheduler, v: WorkerId, f: Finding)
    requires v in s.tasks && v.backend in s.lanes && WellFormed(s.lanes[v.backend])
    ensures var r := Looped(s, v, f); OnlyTask(s, r, v) && (r.tasks[v].spot.Done? <==> s.stopped)
  {
    hide WellFormed, Next, OnlyTask, Degraded, Dispatched;
    var lane := s.lanes[v.backend];
    if s.stopped {
      SpotOnly(s, WithSpot(s, v, Done), v, Done);
    } else if f.raises && lane.order != [] {
      var failed := Degraded(s, v.backend);
      DegradedOnly(s, v, v.backend);
      SpotOnly(failed, Idle(failed, v, f.policy), v, Parked(f.policy));
      OnlyTransitive(s, failed, Idle(failed, v, f.policy), v);
    } else if Next(lane, f.policy).None? {
      SpotOnly(s, Idle(s, v, f.policy), v, Parked(f.policy));
    } else {
      DispatchedTask(s, v, f.weightOf, f.policy);
    }
  }

  lemma EndedTask(s: Scheduler, v: WorkerId, ending: Ending)
    requires v in s.tasks && s.tasks[v].spot.Executing?
    ensures OnlyTask(s, Ended(s, v, ending), v)
  {
    hide Resolved, Unslotted, OnlyTask;
    SpotOnly(s, Ended(s, v, ending), v, Top);
  }

  lemma GoneTask(s: Scheduler, v: WorkerId)
    requires v in s.tasks
    ensures OnlyTask(s, WithSpot(s, v, Done), v) && WithSpot(s, v, Done).tasks[v].spot.Done?
  {
    hide OnlyTask;
    SpotOnly(s, WithSpot(s, v, Done), v, Done);
  }

  lemma UnwoundTask(s: Scheduler, v: WorkerId)
    requires v in s.tasks
    ensures OnlyTask(s, Unwound(s, v), v) && Unwound(s, v).tasks[v].spot.Done?
  {
    hide Ended, OnlyTask, WithSpot;
    if s.tasks[v].spot.Executing? {
      EndedTask(s, v, Interrupted);
      SpotTasks(s, v);
      GoneTask(Ended(s, v, Interrupted), v);
      OnlyTransitive(s, Ended(s, v, Interrupted), WithSpot(Ended(s, v, Interrupted), v, Done), v);
    } else {
      GoneTask(s, v);
    }
  }

  lemma SpotTasks(s: Scheduler, v: WorkerId)
    requires v in s.tasks
    ensures v in WithSpot(s, v, Top).tasks
  {
  }

  lemma ResumedTask(s: Scheduler, v: WorkerId, f: Finding)
    requires v in s.tasks
    requires !Unwinds(s.tasks[v], f.ending) ==> v.backend in s.lanes && WellFormed(s.lanes[v.backend])
    ensures var r := Resumed(s, v, f);
      OnlyTask(s, r, v) && (r.tasks[v].spot.Done? <==> Unwinds(s.tasks[v], f.ending) || s.stopped)
  {
    assert WellFormed<JobId>(Empty());
    hide WellFormed, Looped, Ended, Degraded, Unwound, OnlyTask;
    if Unwinds(s.tasks[v], f.ending) {
      UnwoundTask(s, v);
    } else if !s.tasks[v].spot.Executing? {
      LoopedTask(s, v, f);
    } else {
      var ended := Ended(s, v, f.ending);
      EndedTask(s, v, f.ending);
      var there := if f.ending.RaisedBase? then Degraded(ended, v.backend) else ended;
      DegradedOnly(ended, v, v.backend);
      LoopedTask(there, v, f);
      if f.ending.RaisedBase? {
        OnlyTransitive(s, ended, there, v);
      }
      OnlyTransitive(s, there, Looped(there, v, f), v);
    }
  }

  // One step, for a task nobody has cancelled.

  lemma UpdateTask(s: Scheduler, next: set<Backend>, serial: nat, w: WorkerId)
    requires forall b :: b in next ==> WorkerId(b, serial) !in s.tasks
    ensures var r := Updated(s, next, serial);
      && r.stopped == s.stopped
      && (w in s.tasks ==> w in r.tasks && r.tasks[w].spot == s.tasks[w].spot && (s.tasks[w].cancelled ==> r.tasks[w].cancelled))
      && (w !in s.tasks && w in r.tasks ==> r.tasks[w] == Task(Top, false))
  {
    hide WorkersOf, StillRunning, Emptied, Resolved;
  }

  lemma OtherTask(s: Scheduler, e: Event, w: WorkerId, max: nat)
    requires Enabled(s, e, max) && Ready(s, e) && !e.Resume? && !e.Update?
    ensures var r := Step(s, e);
      && (s.stopped ==> r.stopped)
      && (w in s.tasks ==> w in r.tasks && r.tasks[w].spot == s.tasks[w].spot && (s.tasks[w].cancelled ==> r.tasks[w].cancelled))
      && (w !in s.tasks && w in r.tasks ==> r.tasks[w] == Task(Top, false))
  {
    hide WellFormed, Pushed, Emptied, Resolved, Hollow, WorkersOf, StillRunning, DepthIn;
  }

  /** A task not cancelled by now was never cancelled, and it is done exactly if it was, or this step broke it. */
  lemma StepTask(s: Scheduler, e: Event, w: WorkerId, max: nat)
    requires Enabled(s, e, max) && Ready(s, e) && Uncancelled(Step(s, e), w)
    ensures Uncancelled(s, w)
    ensures IsDone(Step(s, e), w) <==> IsDone(s, w) || Breaks(s, e, w)
  {
    if e.Resume? {
      ResumedTask(s, e.worker, e.finding);
      hide Resumed, WellFormed;
    } else if e.Update? {
      UpdateTask(s, e.next, e.serial, w);
      hide Updated;
    } else {
      OtherTask(s, e, w, max);
      hide Step;
    }
  }

  lemma {:induction false} RunUncancelled(s: Scheduler, events: seq<Event>, out: Scheduler, w: WorkerId, max: nat)
    requires Run(s, events, out, max) && Uncancelled(out, w)
    ensures Uncancelled(s, w)
    decreases |events|
  {
    hide Enabled, Ready, Step, Uncancelled, IsDone, Breaks;
    if events != [] {
      RunUncancelled(Step(s, events[0]), events[1..], out, w, max);
      StepTask(s, events[0], w, max);
    }
  }

  /** A task nobody has cancelled is done exactly if it was, or one of its calls ended interrupted. */
  lemma {:induction false} DoneExactly(s: Scheduler, events: seq<Event>, out: Scheduler, w: WorkerId, max: nat)
    requires Run(s, events, out, max) && Uncancelled(out, w)
    ensures IsDone(out, w) <==> IsDone(s, w) || Broken(s, events, w)
    decreases |events|
  {
    hide Enabled, Ready, Step, Uncancelled, IsDone, Breaks;
    if events != [] {
      RunUncancelled(Step(s, events[0]), events[1..], out, w, max);
      StepTask(s, events[0], w, max);
      DoneExactly(Step(s, events[0]), events[1..], out, w, max);
    }
  }

  // The workers a live scheduler names.

  ghost predicate RosterUncancelled(s: Scheduler) {
    forall b :: b in s.workers ==> s.workers[b] in s.tasks && s.workers[b].backend == b && !s.tasks[s.workers[b]].cancelled
  }

  lemma UpdatedUncancelled(s: Scheduler, next: set<Backend>, serial: nat)
    requires RosterUncancelled(s) && forall b :: b in next ==> WorkerId(b, serial) !in s.tasks
    ensures RosterUncancelled(Updated(s, next, serial))
  {
    hide StillRunning, Emptied, Resolved;
  }

  lemma StepRoster(s: Scheduler, e: Event, max: nat)
    requires Enabled(s, e, max) && Ready(s, e) && RosterUncancelled(s) && !Step(s, e).stopped
    ensures RosterUncancelled(Step(s, e))
  {
    if e.Resume? {
      ResumedTask(s, e.worker, e.finding);
      hide Resumed, WellFormed;
    } else if e.Update? {
      UpdatedUncancelled(s, e.next, e.serial);
      hide Updated, RosterUncancelled;
    } else {
      hide WellFormed, Pushed, Emptied, Resolved, Hollow, WorkersOf, StillRunning, DepthIn;
    }
  }

  lemma {:induction false} RunRoster(s: Scheduler, events: seq<Event>, out: Scheduler, max: nat)
    requires Run(s, events, out, max) && RosterUncancelled(s) && !out.stopped
    ensures RosterUncancelled(out)
    decreases |events|
  {
    hide Enabled, Ready, Step, RosterUncancelled;
    if events != [] {
      RunStopped(Step(s, events[0]), events[1..], out, max);
      StepRoster(s, events[0], max);
      RunRoster(Step(s, events[0]), events[1..], out, max);
    }
  }

  lemma {:induction false} RunStopped(s: Scheduler, events: seq<Event>, out: Scheduler, max: nat)
    requires Run(s, events, out, max) && !out.stopped
    ensures !s.stopped
    decreases |events|
  {
    hide Enabled, Ready, Step;
    if events != [] {
      RunStopped(Step(s, events[0]), events[1..], out, max);
      StepStopped(s, events[0], max);
    }
  }

  lemma StepStopped(s: Scheduler, e: Event, max: nat)
    requires Enabled(s, e, max) && Ready(s, e)
    ensures s.stopped ==> Step(s, e).stopped
  {
    if e.Resume? {
      ResumedTask(s, e.worker, e.finding);
      hide Resumed, WellFormed;
    } else {
      hide WellFormed, Pushed, Emptied, Resolved, Hollow, WorkersOf, StillRunning, DepthIn;
    }
  }

  /**
   In a scheduler not stopped, the worker a lane names is done, and the lane without a worker, exactly if a
   call of that worker ended interrupted at some point of the run though nobody had cancelled the worker.
   */
  lemma DeadExactly(executors: set<Backend>, events: seq<Event>, s: Scheduler, b: Backend, max: nat)
    requires Run(Initial(executors), events, s, max) && !s.stopped && b in s.workers
    ensures s.workers[b] in s.tasks && !s.tasks[s.workers[b]].cancelled
    ensures s.tasks[s.workers[b]].spot.Done? <==> Broken(Initial(executors), events, s.workers[b])
  {
    hide Run, Broken;
    RunRoster(Initial(executors), events, s, max);
    DoneExactly(Initial(executors), events, s, s.workers[b], max);
  }

  // While a lane is dead, what is queued on it stays there.

  /** The job is queued on a lane whose worker is done, and its future is unresolved. */
  ghost predicate Stranded(s: Scheduler, b: Backend, k: Key, j: JobId) {
    && s.started && !s.stopped && b in s.workers && IsDone(s, s.workers[b])
    && j in s.place && s.place[j] == Queued(b, k) && j !in s.outcome
  }

  /** Neither the scheduler is stopped, nor the backend removed, nor the job given up by its caller. */
  ghost predicate Spares(e: Event, b: Backend, j: JobId) {
    && !e.Stop?
    && (e.Update? ==> b in e.next)
    && (e.Abandon? ==> e.job != j)
  }

  ghost predicate JobAsWas(s: Scheduler, r: Scheduler, j: JobId) {
    && j in s.place && j in r.place && r.place[j] == s.place[j]
    && (j in r.outcome <==> j in s.outcome)
  }

  lemma LoopedElsewhere(s: Scheduler, v: WorkerId, f: Finding, b: Backend, j: JobId, max: nat)
    requires Located(s) && v in s.tasks && Empty?(s.tasks[v].spot) && !s.stopped
    requires v.backend in s.lanes && WellFormed(s.lanes[v.backend]) && v.backend != b
    requires j in s.place && s.place[j].Queued? && s.place[j].backend == b
    ensures JobAsWas(s, Looped(s, v, f), j)
  {
    hide WellFormed, Next, Popped, Located, Waiting;
    var lane := s.lanes[v.backend];
    if !(f.raises && lane.order != []) && Next(lane, f.policy).Some? {
      DispatchedLocated(s, v, f.weightOf, f.policy);
      DispatchedTables(s, v, f.weightOf, f.policy);
      hide Served;
    }
  }

  lemma EndedElsewhere(s: Scheduler, v: WorkerId, ending: Ending, j: JobId)
    requires Located(s) && v in s.tasks && s.tasks[v].spot.Executing?
    requires j in s.place && s.place[j].Queued?
    ensures JobAsWas(s, Ended(s, v, ending), j) && Located(Ended(s, v, ending))
  {
    EndedLocated(s, v, ending);
    hide Located, Unslotted;
  }

  lemma UnwoundElsewhere(s: Scheduler, v: WorkerId, j: JobId)
    requires Located(s) && v in s.tasks && j in s.place && s.place[j].Queued?
    ensures JobAsWas(s, Unwound(s, v), j)
  {
    if s.tasks[v].spot.Executing? {
      EndedElsewhere(s, v, Interrupted, j);
    }
    hide Located, Ended;
  }

  lemma DegradedElsewhere(s: Scheduler, d: Backend, j: JobId)
    requires Located(s) && j in s.place && s.place[j].Queued? && s.place[j].backend != d
    ensures JobAsWas(s, Degraded(s, d), j) && Located(Degraded(s, d))
  {
    DegradedLocated(s, d);
    hide Located;
  }

  lemma ResumedElsewhere(s: Scheduler, v: WorkerId, f: Finding, b: Backend, j: JobId, max: nat)
    requires Located(s) && v in s.tasks && !s.stopped
    requires !Unwinds(s.tasks[v], f.ending) ==>
      v.backend in s.lanes && WellFormed(s.lanes[v.backend]) && v.backend != b
    requires j in s.place && s.place[j].Queued? && s.place[j].backend == b
    ensures JobAsWas(s, Resumed(s, v, f), j)
  {
    assert WellFormed<JobId>(Empty());
    hide WellFormed, Looped, Ended, Degraded, Unwound, Located;
    if Unwinds(s.tasks[v], f.ending) {
      UnwoundElsewhere(s, v, j);
    } else if !s.tasks[v].spot.Executing? {
      LoopedElsewhere(s, v, f, b, j, max);
    } else {
      var ended := Ended(s, v, f.ending);
      EndedElsewhere(s, v, f.ending, j);
      if f.ending.RaisedBase? {
        DegradedElsewhere(ended, v.backend, j);
        LoopedElsewhere(Degraded(ended, v.backend), v, f, b, j, max);
      } else {
        LoopedElsewhere(ended, v, f, b, j, max);
      }
    }
  }

  /** Whoever else goes on in a dead lane is a retired worker about to unwind. */
  lemma OnlyRetiredLeft(s: Scheduler, v: WorkerId, ending: Ending)
    requires Staffed(s) && v in s.tasks && !s.tasks[v].spot.Done?
    requires v.backend in s.workers && IsDone(s, s.workers[v.backend])
    ensures Unwinds(s.tasks[v], ending)
  {
  }

  lemma StrandedStill(s: Scheduler, r: Scheduler, v: WorkerId, b: Backend, k: Key, j: JobId)
    requires Stranded(s, b, k, j) && OnlyTask(s, r, v) && v != s.workers[b] && JobAsWas(s, r, j)
    ensures Stranded(r, b, k, j)
  {
  }

  lemma StrandedResumed(s: Scheduler, v: WorkerId, f: Finding, b: Backend, k: Key, j: JobId, max: nat)
    requires Staffed(s) && Located(s) && v in s.tasks && !s.tasks[v].spot.Done? && Ready(s, Resume(v, f))
    requires Stranded(s, b, k, j)
    ensures Stranded(Resumed(s, v, f), b, k, j)
  {
    hide Resumed, WellFormed, Located, Staffed, Unwinds, OnlyTask, JobAsWas;
    if v.backend == b {
      OnlyRetiredLeft(s, v, f.ending);
    }
    ResumedTask(s, v, f);
    ResumedElsewhere(s, v, f, b, j, max);
    StrandedStill(s, Resumed(s, v, f), v, b, k, j);
  }

  lemma StrandedUpdated(s: Scheduler, next: set<Backend>, serial: nat, b: Backend, k: Key, j: JobId)
    requires Staffed(s) && s.executors == s.lanes.Keys && Stranded(s, b, k, j) && b in next
    requires forall d :: d in next ==> WorkerId(d, serial) !in s.tasks
    ensures Stranded(Updated(s, next, serial), b, k, j)
  {
    UpdateTask(s, next, serial, s.workers[b]);
    hide WorkersOf, StillRunning, Spawned, Cancelling;
  }

  lemma StrandedOther(s: Scheduler, e: Event, b: Backend, k: Key, j: JobId, max: nat)
    requires Enabled(s, e, max) && Ready(s, e) && Stranded(s, b, k, j) && Spares(e, b, j) && !e.Resume? && !e.Update?
    ensures Stranded(Step(s, e), b, k, j)
  {
    hide WellFormed, Pushed, Emptied, Hollow, WorkersOf, StillRunning, DepthIn;
  }

  lemma StrandedStep(s: Scheduler, e: Event, b: Backend, k: Key, j: JobId, max: nat)
    requires Sound(s, max) && Enabled(s, e, max) && Ready(s, e) && Stranded(s, b, k, j) && Spares(e, b, j)
    ensures Stranded(Step(s, e), b, k, j)
  {
    if e.Resume? {
      StrandedResumed(s, e.worker, e.finding, b, k, j, max);
      hide Resumed, WellFormed, Stranded;
    } else if e.Update? {
      StrandedUpdated(s, e.next, e.serial, b, k, j);
      hide Updated, Stranded;
    } else {
      hide Sound, Step, Enabled, Stranded, Spares, WellFormed;
      StrandedOther(s, e, b, k, j, max);
    }
  }

  /**
   A job queued on a dead lane waits: whatever else is submitted, woken, swapped or finished, its future stays
   unresolved until the scheduler is stopped, the backend removed or the job given up by its caller.
   */
  lemma {:induction false} StrandedWaits(s: Scheduler, events: seq<Event>, out: Scheduler, b: Backend, k: Key, j: JobId,
                                         max: nat)
    requires Kept(s, max) && Run(s, events, out, max) && Stranded(s, b, k, j)
    requires forall e :: e in events ==> Spares(e, b, j)
    ensures Stranded(out, b, k, j) && QueuedAt(out, b, k, j)
    decreases |events|
  {
    hide Enabled, Ready, Step, Stranded, Spares;
    assert !s.finished by {
      NotFinished(s, b, k, j);
    }
    if events == [] {
      StrandedIsQueued(s, b, k, j, max);
    } else {
      StepKept(s, events[0], max);
      StrandedStep(s, events[0], b, k, j, max);
      StrandedWaits(Step(s, events[0]), events[1..], out, b, k, j, max);
    }
  }

  lemma NotFinished(s: Scheduler, b: Backend, k: Key, j: JobId)
    requires Stranded(s, b, k, j)
    ensures !AllResolved(s)
  {
  }

  lemma StrandedIsQueued(s: Scheduler, b: Backend, k: Key, j: JobId, max: nat)
    requires Sound(s, max) && Stranded(s, b, k, j)
    ensures QueuedAt(s, b, k, j)
  {
    ListAt(s, Queued(b, k));
    assert j in ListOf(s, Queued(b, k));
  }

  // Such a lane is reached by five events.

  lemma RunFirst(s: Scheduler, e: Event, rest: seq<Event>, out: Scheduler, max: nat)
    requires Enabled(s, e, max) && Ready(s, e) && Run(Step(s, e), rest, out, max)
    ensures Run(s, [e] + rest, out, max)
  {
    assert ([e] + rest)[1..] == rest;
    hide Enabled, Ready, Step;
  }

  /** One lane, its worker at the top of its loop, and the jobs known so far; no future is resolved. */
  ghost predicate OneLane(s: Scheduler, b: Backend, w: WorkerId, known: set<JobId>, spot: Spot) {
    && s.started && !s.stopped && !s.finished && s.workers == map[b := w] && w.backend == b
    && w in s.tasks && s.tasks[w] == Task(spot, false)
    && s.place.Keys == known && s.outcome == map[]
    && s.executors == {b} && b in s.lanes
  }

  lemma StartedLane(b: Backend, max: nat)
    ensures var s := Initial({b});
      && Enabled(s, Start(0), max)
      && OneLane(Step(s, Start(0)), b, WorkerId(b, 0), {}, Top)
      && Holding(Step(s, Start(0)).lanes[b], 0)
  {
  }

  /** One job waits on this queue, or none. */
  ghost predicate Holding(q: Queue<JobId>, count: nat) {
    WellFormed(q) && DepthIn(q) == count && (count > 0 ==> q.order != [])
  }

  lemma PushedFirst(q: Queue<JobId>, k: Key, j: JobId)
    requires Holding(q, 0)
    ensures Holding(Pushed(q, k, j), 1)
  {
    PushDepth(q, k, j);
    assert k in Pushed(q, k, j).items;
    hide Pushed, DepthIn;
  }

  lemma PoppedLast(q: Queue<JobId>, weightOf: Key -> Weight)
    requires Holding(q, 1)
    ensures Next(q, Everyone).Some? && Holding(Popped(q, weightOf, Everyone), 0)
  {
    hide Popped, DepthIn;
    assert Admits(Everyone, q.order[0]);
    PopDepth(q, weightOf, Everyone);
  }

  lemma MaySubmit(s: Scheduler, b: Backend, w: WorkerId, known: set<JobId>, spot: Spot, k: Key, j: JobId, max: nat)
    requires OneLane(s, b, w, known, spot) && j !in known && Holding(s.lanes[b], 0) && max > 0
    ensures Enabled(s, Submit(b, k, j), max) && Ready(s, Submit(b, k, j))
    ensures Step(s, Submit(b, k, j)) == Submitted(s, b, k, j)
  {
    hide DepthIn, WellFormed, Submitted;
  }

  lemma SubmittedLane(s: Scheduler, b: Backend, w: WorkerId, known: set<JobId>, spot: Spot, k: Key, j: JobId)
    requires OneLane(s, b, w, known, spot) && j !in known && Holding(s.lanes[b], 0)
    ensures var r := Submitted(s, b, k, j); OneLane(r, b, w, known + {j}, spot) && r.place[j] == Queued(b, k)
    ensures Holding(Submitted(s, b, k, j).lanes[b], 1)
  {
    hide Pushed, WellFormed, DepthIn;
    PushedFirst(s.lanes[b], k, j);
    SubmittedTables(s, b, k, j);
    hide Submitted, Holding;
  }

  lemma SubmittedTables(s: Scheduler, b: Backend, k: Key, j: JobId)
    requires b in s.lanes && WellFormed(s.lanes[b])
    ensures var r := Submitted(s, b, k, j);
      && r.lanes == s.lanes[b := Pushed(s.lanes[b], k, j)] && r.place == s.place[j := Queued(b, k)]
      && r.awake == s.awake + {b}
      && r.tasks == s.tasks && r.workers == s.workers && r.outcome == s.outcome && r.executors == s.executors
      && r.started == s.started && r.stopped == s.stopped && r.finished == s.finished
  {
  }

  const TAKE := Finding(Returned, _ => IntWeight(1), Everyone, false)
  const BREAK := Finding(Interrupted, _ => IntWeight(1), Everyone, false)

  /** The lane's worker is in a call, and nothing is queued. */
  ghost predicate InCall(s: Scheduler, b: Backend, w: WorkerId, known: set<JobId>) {
    && b in s.lanes && Holding(s.lanes[b], 0)
    && exists j, p :: OneLane(s, b, w, known, Executing(j, p))
  }

  lemma TakenLane(s: Scheduler, b: Backend, w: WorkerId, known: set<JobId>, max: nat)
    requires OneLane(s, b, w, known, Top) && Located(s) && Holding(s.lanes[b], 1)
    ensures Enabled(s, Resume(w, TAKE), max) && Ready(s, Resume(w, TAKE))
    ensures InCall(Step(s, Resume(w, TAKE)), b, w, known)
  {
    hide WellFormed, Next, Popped, DepthIn, Located;
    PoppedLast(s.lanes[b], TAKE.weightOf);
    DispatchedLocated(s, w, TAKE.weightOf, Everyone);
    var (p, j) := Served(s.lanes[b], Everyone).value;
    var r := Dispatched(s, w, TAKE.weightOf, Everyone);
    assert Step(s, Resume(w, TAKE)) == r;
    assert OneLane(r, b, w, known, Executing(j, p));
  }

  lemma BrokenLane(s: Scheduler, b: Backend, w: WorkerId, known: set<JobId>, held: JobId, p: Key, k: Key,
                   j: JobId, max: nat)
    requires OneLane(s, b, w, known, Executing(held, p)) && Located(s) && j in known && s.place[j] == Queued(b, k)
    ensures Enabled(s, Resume(w, BREAK), max) && Ready(s, Resume(w, BREAK)) && Breaks(s, Resume(w, BREAK), w)
    ensures Stranded(Step(s, Resume(w, BREAK)), b, k, j)
  {
    EndedLocated(s, w, Interrupted);
    hide Located, Unslotted;
  }

  /** The events: started, a job submitted and taken, another submitted, the first one's call interrupted. */
  function Breaking(b: Backend, k: Key, first: JobId, second: JobId): seq<Event> {
    var w := WorkerId(b, 0);
    [Start(0), Submit(b, k, first), Resume(w, TAKE), Submit(b, k, second), Resume(w, BREAK)]
  }

  /** Whatever `rest` leads to from here, it leads to from the start, after the first three events. */
  ghost predicate Precedes(s: Scheduler, b: Backend, k: Key, first: JobId, rest: seq<Event>, max: nat) {
    forall out :: Run(s, rest, out, max) ==>
      Run(Initial({b}), [Start(0), Submit(b, k, first), Resume(WorkerId(b, 0), TAKE)] + rest, out, max)
  }

  lemma SoundLocated(s: Scheduler, max: nat)
    requires Sound(s, max)
    ensures Located(s)
  {
    hide Located, Counted, Recorded, Alert, Staffed, LanesOk;
  }

  lemma GetsBusy(b: Backend, k: Key, first: JobId, rest: seq<Event>, max: nat)
    requires max > 0
    ensures exists s :: Sound(s, max) && InCall(s, b, WorkerId(b, 0), {first}) && Precedes(s, b, k, first, rest, max)
  {
    hide Enabled, Ready, OneLane, Holding, Sound, InCall, Submitted, Step, Initial, Run;
    var w := WorkerId(b, 0);
    var s0 := Initial({b});
    InitialSound(b, max);
    StartedLane(b, max);
    var s1 := Step(s0, Start(0));
    SoundStep(s0, Start(0), max);
    MaySubmit(s1, b, w, {}, Top, k, first, max);
    SubmittedLane(s1, b, w, {}, Top, k, first);
    var s2 := Step(s1, Submit(b, k, first));
    SoundStep(s1, Submit(b, k, first), max);
    SoundLocated(s2, max);
    TakenLane(s2, b, w, {} + {first}, max);
    var s3 := Step(s2, Resume(w, TAKE));
    SoundStep(s2, Resume(w, TAKE), max);
    assert {} + {first} == {first};
    forall out | Run(s3, rest, out, max)
      ensures Run(s0, [Start(0), Submit(b, k, first), Resume(w, TAKE)] + rest, out, max)
    {
      RunFirst(s2, Resume(w, TAKE), rest, out, max);
      RunFirst(s1, Submit(b, k, first), [Resume(w, TAKE)] + rest, out, max);
      RunFirst(s0, Start(0), [Submit(b, k, first)] + ([Resume(w, TAKE)] + rest), out, max);
      assert [Start(0)] + ([Submit(b, k, first)] + ([Resume(w, TAKE)] + rest))
        == [Start(0), Submit(b, k, first), Resume(w, TAKE)] + rest;
    }
  }

  lemma InitialSound(b: Backend, max: nat)
    ensures Sound(Initial({b}), max) && Ready(Initial({b}), Start(0))
  {
    InitialKept({b}, max);
    hide Sound;
  }

  lemma BreaksBusy(s: Scheduler, b: Backend, k: Key, first: JobId, second: JobId, max: nat)
    requires Sound(s, max) && InCall(s, b, WorkerId(b, 0), {first}) && first != second && max > 0
    ensures exists out ::
      Run(s, [Submit(b, k, second), Resume(WorkerId(b, 0), BREAK)], out, max) && Stranded(out, b, k, second) &&
      QueuedAt(out, b, k, second)
  {
    hide Enabled, Ready, OneLane, Holding, Sound, Submitted, Step, Stranded, QueuedAt;
    var w := WorkerId(b, 0);
    var j, p :| OneLane(s, b, w, {first}, Executing(j, p));
    MaySubmit(s, b, w, {first}, Executing(j, p), k, second, max);
    SubmittedLane(s, b, w, {first}, Executing(j, p), k, second);
    var mid := Step(s, Submit(b, k, second));
    SoundStep(s, Submit(b, k, second), max);
    SoundLocated(mid, max);
    BrokenLane(mid, b, w, {first} + {second}, j, p, k, second, max);
    var out := Step(mid, Resume(w, BREAK));
    SoundStep(mid, Resume(w, BREAK), max);
    StrandedIsQueued(out, b, k, second, max);
    RunFirst(mid, Resume(w, BREAK), [], out, max);
    RunFirst(s, Submit(b, k, second), [Resume(w, BREAK)] + [], out, max);
    assert [Submit(b, k, second)] + ([Resume(w, BREAK)] + []) == [Submit(b, k, second), Resume(w, BREAK)];
  }

  /** A lane can die with a job on it, in a scheduler started and never stopped. */
  lemma DeadLaneIsReachable(b: Backend, k: Key, first: JobId, second: JobId, max: nat)
    requires first != second && max > 0
    ensures exists s ::
      Run(Initial({b}), Breaking(b, k, first, second), s, max) && Stranded(s, b, k, second) && QueuedAt(s, b, k, second)
  {
    hide Sound, InCall, Stranded, QueuedAt, Run, Initial;
    var w := WorkerId(b, 0);
    var rest := [Submit(b, k, second), Resume(w, BREAK)];
    GetsBusy(b, k, first, rest, max);
    var s :| Sound(s, max) && InCall(s, b, w, {first}) && Precedes(s, b, k, first, rest, max);
    BreaksBusy(s, b, k, first, second, max);
    assert [Start(0), Submit(b, k, first), Resume(w, TAKE)] + rest == Breaking(b, k, first, second);
  }
}
