/** The scheduler of src/omnitensor/scheduler.py with its tables changed in place; each method is one step, or part of one. */
module Lanes {
  import opened LaneSafety
  import opened LaneScheduler
  import opened Placement
  import opened Prelude
  import opened RunningCounts
  import opened Stride
  import opened StrideDepth

  datatype Refusal = SchedulerStopped | UnknownBackend | QueueFull

  /** Every job in a lane, under any key. */
  function JobsIn(q: Queue<JobId>): set<JobId>
    requires forall k :: k in q.order ==> k in q.items
  {
    set k, j | k in q.order && j in q.items[k] :: j
  }

  /** The lane's deques hold exactly the jobs placed there. */
  lemma LaneHolds(s: Scheduler, b: Backend)
    requires Located(s) && b in s.lanes && WellFormed(s.lanes[b])
    ensures JobsIn(s.lanes[b]) == QueuedIn(s.place, {b})
  {
    var q := s.lanes[b];
    hide Located;
    forall j ensures j in JobsIn(q) <==> j in QueuedIn(s.place, {b}) {
      if j in JobsIn(q) {
        var k :| k in q.order && j in q.items[k];
        ListAt(s, Queued(b, k));
        assert j in ListOf(s, Queued(b, k));
      }
      if j in QueuedIn(s.place, {b}) {
        ListAt(s, s.place[j]);
        assert j in Waiting(q, s.place[j].profile);
      }
    }
  }

  lemma ResolvedTwice(outcome: map<JobId, Outcome>, first: set<JobId>, second: set<JobId>, o: Outcome)
    ensures Resolved(Resolved(outcome, first, o), second, o) == Resolved(outcome, first + second, o)
  {
  }

  function SetOf(jobs: seq<JobId>): set<JobId> { set j | j in jobs }

  function WorkerOf(workers: map<Backend, WorkerId>, b: Backend): set<WorkerId> {
    if b in workers then {workers[b]} else {}
  }

  lemma SameWorker(workers: map<Backend, WorkerId>, left: map<Backend, WorkerId>, b: Backend)
    requires b in workers <==> b in left
    requires b in workers ==> left[b] == workers[b]
    ensures WorkerOf(left, b) == WorkerOf(workers, b)
  {
  }

  lemma NoneGone(s: Scheduler)
    ensures RetiredAll(s, {}) == s
  {
    assert WorkersOf(s, {}) == {} && QueuedIn(s.place, {}) == {};
    assert Cancelling(s.tasks, {}) == s.tasks && Resolved(s.outcome, {}, Outcome.Cancelled) == s.outcome;
    assert s.lanes - {} == s.lanes && s.workers - {} == s.workers;
  }

  lemma MinusBoth<K, V>(m: map<K, V>, gone: set<K>, b: K)
    ensures (m - gone) - {b} == m - (gone + {b})
  {
  }

  /** One backend retired: its worker cancelled, its lane dropped and the futures in it cancelled. */
  function RetiredOne(s: Scheduler, b: Backend): Scheduler
    requires b in s.lanes && forall k :: k in s.lanes[b].order ==> k in s.lanes[b].items
  {
    s.(lanes := s.lanes - {b}, awake := s.awake - {b}, workers := s.workers - {b}, degraded := s.degraded - {b},
      retired := s.retired + WorkerOf(s.workers, b),
      tasks := Cancelling(s.tasks, WorkerOf(s.workers, b)),
      outcome := Resolved(s.outcome, JobsIn(s.lanes[b]), Outcome.Cancelled))
  }

  /** The tables once `gone` are retired. */
  function RetiredAll(s: Scheduler, gone: set<Backend>): Scheduler {
    s.(lanes := s.lanes - gone, awake := s.awake - gone, workers := s.workers - gone, degraded := s.degraded - gone,
      retired := s.retired + WorkersOf(s, gone),
      tasks := Cancelling(s.tasks, WorkersOf(s, gone)),
      outcome := Resolved(s.outcome, QueuedIn(s.place, gone), Outcome.Cancelled))
  }

  /** Retiring one backend after others is retiring them all. */
  lemma OneMoreGone(s: Scheduler, gone: set<Backend>, b: Backend)
    requires Located(s) && b in s.lanes && WellFormed(s.lanes[b]) && b !in gone
    ensures RetiredOne(RetiredAll(s, gone), b) == RetiredAll(s, gone + {b})
  {
    hide Located, WellFormed, JobsIn, Resolved, Cancelling, WorkersOf, WorkerOf, QueuedIn;
    MinusBoth(s.lanes, gone, b);
    MinusBoth(s.workers, gone, b);
    SameWorker(s.workers, s.workers - gone, b);
    TasksBoth(s, gone, b);
    FuturesBoth(s, gone, b);
  }

  lemma FuturesBoth(s: Scheduler, gone: set<Backend>, b: Backend)
    requires Located(s) && b in s.lanes && WellFormed(s.lanes[b])
    ensures Resolved(Resolved(s.outcome, QueuedIn(s.place, gone), Outcome.Cancelled), JobsIn(s.lanes[b]), Outcome.Cancelled) ==
      Resolved(s.outcome, QueuedIn(s.place, gone + {b}), Outcome.Cancelled)
  {
    hide Located, WellFormed, JobsIn, Resolved, QueuedIn;
    LaneHolds(s, b);
    JobsBoth(s.place, gone, b);
    ResolvedTwice(s.outcome, QueuedIn(s.place, gone), QueuedIn(s.place, {b}), Outcome.Cancelled);
  }

  lemma TasksBoth(s: Scheduler, gone: set<Backend>, b: Backend)
    ensures WorkersOf(s, gone) + WorkerOf(s.workers, b) == WorkersOf(s, gone + {b})
    ensures Cancelling(Cancelling(s.tasks, WorkersOf(s, gone)), WorkerOf(s.workers, b)) ==
      Cancelling(s.tasks, WorkersOf(s, gone + {b}))
  {
    assert WorkersOf(s, gone + {b}) == WorkersOf(s, gone) + WorkerOf(s.workers, b);
  }

  lemma JobsBoth(place: map<JobId, Place>, gone: set<Backend>, b: Backend)
    ensures QueuedIn(place, gone) + QueuedIn(place, {b}) == QueuedIn(place, gone + {b})
  {
  }

  function SwappedIn(s: Scheduler, next: set<Backend>, hired: set<Backend>, serial: nat, removed: set<Backend>): Scheduler {
    s.(executors := next,
      lanes := s.lanes + FreshLanes(next - s.lanes.Keys),
      workers := s.workers + Assigned(hired, serial),
      tasks := s.tasks + Spawned(hired, serial),
      place := Emptied(s.place, removed))
  }

  /** An update is the removed backends retired and then the new executors swapped in. */
  lemma UpdatedIs(s: Scheduler, next: set<Backend>, serial: nat)
    requires s.executors == s.lanes.Keys
    ensures var removed := s.executors - next;
      Updated(s, next, serial) ==
        SwappedIn(RetiredAll(s.(retired := StillRunning(s)), removed), next, Hiring(s, next), serial, removed)
  {
    var removed := s.executors - next;
    assert WorkersOf(s.(retired := StillRunning(s)), removed) == WorkersOf(s, removed);
    assert next - (s.lanes - removed).Keys == next - s.lanes.Keys;
    hide Resolved, WorkersOf, QueuedIn, Cancelling, StillRunning, Emptied, Spawned, Assigned, FreshLanes;
  }

  class Scheduling {
    const max: nat
    var executors: set<Backend>
    var lanes: map<Backend, Queue<JobId>>
    var awake: set<Backend>
    var workers: map<Backend, WorkerId>
    var retired: set<WorkerId>
    var tasks: map<WorkerId, Task>
    var outcome: map<JobId, Outcome>
    var running: map<Key, nat>
    var degraded: set<Backend>
    var started: bool
    var stopped: bool
    ghost var finished: bool
    ghost var place: map<JobId, Place>

    ghost function View(): Scheduler
      reads this
    {
      Scheduler(executors, lanes, awake, workers, retired, tasks, place, outcome, running, degraded,
        started, stopped, finished)
    }

    constructor (executors: set<Backend>, max: nat)
      ensures View() == LaneScheduler.Initial(executors) && this.max == max
    {
      this.max, this.executors := max, executors;
      lanes := FreshLanes(executors);
      awake, workers, retired, tasks := {}, map[], {}, map[];
      outcome, running, degraded := map[], map[], {};
      started, stopped, finished, place := false, false, false, map[];
    }

    /** A future once done is left alone. */
    method Resolve(j: JobId, o: Outcome)
      modifies `outcome
      ensures outcome == Resolved(old(outcome), {j}, o)
    {
      if j !in outcome {
        outcome := outcome[j := o];
      }
    }

    method ResolveList(jobs: seq<JobId>, o: Outcome)
      modifies `outcome
      ensures outcome == Resolved(old(outcome), SetOf(jobs), o)
    {
      for i := 0 to |jobs|
        invariant outcome == Resolved(old(outcome), SetOf(jobs[..i]), o)
      {
        Resolve(jobs[i], o);
        ResolvedTwice(old(outcome), SetOf(jobs[..i]), {jobs[i]}, o);
        assert SetOf(jobs[..i + 1]) == SetOf(jobs[..i]) + {jobs[i]};
      }
      assert jobs[..|jobs|] == jobs;
    }

    /** Every job still queued in the lane, key by key. */
    method ResolveLane(q: Queue<JobId>, o: Outcome)
      requires WellFormed(q)
      modifies `outcome
      ensures outcome == Resolved(old(outcome), JobsIn(q), o)
    {
      ghost var seen: set<JobId> := {};
      for i := 0 to |q.order|
        invariant seen == set k, j | k in q.order[..i] && j in q.items[k] :: j
        invariant outcome == Resolved(old(outcome), seen, o)
      {
        var jobs := q.items[q.order[i]];
        ResolveList(jobs, o);
        ResolvedTwice(old(outcome), seen, SetOf(jobs), o);
        assert q.order[..i + 1] == q.order[..i] + [q.order[i]];
        seen := seen + SetOf(jobs);
      }
      assert q.order[..|q.order|] == q.order;
    }

    method Submit(b: Backend, profile: Key, j: JobId) returns (refusal: Option<Refusal>)
      requires LanesOk(View(), max) && j !in place
      modifies this
      ensures refusal == Some(SchedulerStopped) <==> old(stopped)
      ensures refusal == Some(UnknownBackend) <==> !old(stopped) && b !in old(lanes)
      ensures refusal == Some(QueueFull) <==> !old(stopped) && b in old(lanes) && old(DepthIn(lanes[b])) == max
      ensures refusal.Some? ==> View() == old(View())
      ensures refusal.None? ==> View() == Submitted(old(View()), b, profile, j)
    {
      if stopped {
        return Some(SchedulerStopped);
      }
      if b !in lanes {
        return Some(UnknownBackend);
      }
      if DepthOf(lanes[b].items, lanes[b].order) >= max {
        return Some(QueueFull);
      }
      lanes := lanes[b := Pushed(lanes[b], profile, j)];
      awake := awake + {b};
      place := place[j := Queued(b, profile)];
      return None;
    }

    /** Everything queued for a backend that failed outside a job is failed with it. */
    method Degrade(b: Backend)
      requires Sound(View(), max) && b in lanes
      modifies this
      ensures View() == Degraded(old(View()), b)
    {
      LaneHolds(View(), b);
      ResolveLane(lanes[b], Failed);
      place := Emptied(place, {b});
      lanes := lanes[b := Empty()];
      degraded := degraded + {b};
    }

    /** The end of one executor call, as `_execute` leaves it. */
    method EndCall(w: WorkerId, ending: Ending)
      requires w in tasks && tasks[w].spot.Executing?
      modifies this
      ensures View() == Ended(old(View()), w, ending)
    {
      hide Resolved, Unslotted, RunningOf, OutcomeOf;
      var Executing(j, profile) := tasks[w].spot;
      if ending.Returned? {
        degraded := degraded - {w.backend};
      }
      Resolve(j, OutcomeOf(ending));
      tasks := tasks[w := tasks[w].(spot := Top)];
      place := place[j := Gone];
      JobFinished(profile);
    }

    method JobFinished(profile: Key)
      modifies `running
      ensures running == Unslotted(old(running), profile)
    {
      var remaining: int := RunningOf(running, profile) - 1;
      if remaining <= 0 {
        running := running - {profile};
      } else {
        running := running[profile := remaining];
      }
    }

    /** The worker's loop from its top to its next await; a lane that cannot be read is degraded and looked at again. */
    method TopOfLoop(w: WorkerId, f: Finding)
      requires Sound(View(), max) && w in tasks && w.backend in lanes && WellFormed(lanes[w.backend])
      modifies this
      ensures View() == Looped(old(View()), w, f)
    {
      hide Sound, WellFormed, Degraded, Dispatched, Next;
      var b := w.backend;
      if stopped {
        tasks := tasks[w := tasks[w].(spot := Done)];
        return;
      }
      if f.raises && lanes[b].order != [] {
        Degrade(b);
        DegradedTask(old(View()), b);
        GoIdle(w, f.policy);
        return;
      }
      if Next(lanes[b], f.policy).None? {
        GoIdle(w, f.policy);
        return;
      }
      Dispatch(w, f.weightOf, f.policy);
    }

    method Dispatch(w: WorkerId, weightOf: Key -> Weight, policy: Policy)
      requires w in tasks && w.backend in lanes && WellFormed(lanes[w.backend])
      requires Next(lanes[w.backend], policy).Some?
      modifies this
      ensures View() == Dispatched(old(View()), w, weightOf, policy)
    {
      hide WellFormed, Next, Popped;
      var (profile, j) := Served(lanes[w.backend], policy).value;
      lanes := lanes[w.backend := Popped(lanes[w.backend], weightOf, policy)];
      running := running[profile := RunningOf(running, profile) + 1];
      tasks := tasks[w := tasks[w].(spot := Executing(j, profile))];
      place := place[j := Held(w, profile)];
    }

    method GoIdle(w: WorkerId, policy: Policy)
      requires w in tasks
      modifies this
      ensures View() == Idle(old(View()), w, policy)
    {
      awake := awake - {w.backend};
      tasks := tasks[w := tasks[w].(spot := Parked(policy))];
    }

    /** The backends a new discovery pass no longer has: their workers retired, their queued futures cancelled. */
    method Retire(removed: set<Backend>)
      requires LanesOk(View(), max) && Located(View()) && removed <= lanes.Keys
      modifies this
      ensures View() == RetiredAll(old(View()), removed)
    {
      hide LaneOk, WellFormed, Located, RetiredAll, RetiredOne;
      ghost var s := View();
      var todo := removed;
      ghost var gone: set<Backend> := {};
      NoneGone(s);
      while todo != {}
        invariant todo !! gone && todo + gone == removed
        invariant View() == RetiredAll(s, gone)
        decreases |todo|
      {
        var b :| b in todo;
        todo := todo - {b};
        StillThere(s, gone, b);
        OneMoreGone(s, gone, b);
        RetireOne(b);
        gone := gone + {b};
      }
    }

    method RetireWorker(b: Backend)
      modifies `workers, `tasks, `retired
      ensures workers == old(workers) - {b}
      ensures retired == old(retired) + WorkerOf(old(workers), b)
      ensures tasks == Cancelling(old(tasks), WorkerOf(old(workers), b))
    {
      if b in workers {
        var w := workers[b];
        workers := workers - {b};
        if w in tasks {
          tasks := tasks[w := tasks[w].(cancelled := true)];
        }
        retired := retired + {w};
      }
    }

    method RetireOne(b: Backend)
      requires b in lanes && WellFormed(lanes[b])
      modifies this
      ensures View() == RetiredOne(old(View()), b)
    {
      hide WellFormed, JobsIn, Resolved, Cancelling, WorkerOf;
      degraded := degraded - {b};
      RetireWorker(b);
      awake := awake - {b};
      ResolveLane(lanes[b], Outcome.Cancelled);
      lanes := lanes - {b};
    }

    /** Retired workers that have finished unwinding are forgotten. */
    method Reap()
      modifies this
      ensures View() == old(View()).(retired := StillRunning(old(View())))
    {
      retired := set w | w in retired && w in tasks && !tasks[w].spot.Done?;
    }

    /** The new executors, with lanes for the added ones and workers where the scheduler is running. */
    method SwapIn(next: set<Backend>, hired: set<Backend>, serial: nat, ghost removed: set<Backend>)
      modifies this
      ensures View() == SwappedIn(old(View()), next, hired, serial, removed)
    {
      lanes := lanes + FreshLanes(next - lanes.Keys);
      executors := next;
      workers := workers + Assigned(hired, serial);
      tasks := tasks + Spawned(hired, serial);
      place := Emptied(place, removed);
    }

    method UpdateExecutors(next: set<Backend>, serial: nat)
      requires Sound(View(), max) && forall b :: b in next ==> WorkerId(b, serial) !in tasks
      modifies this
      ensures View() == Updated(old(View()), next, serial)
    {
      hide Located, LaneOk, RetiredAll, StillRunning, Updated, SwappedIn, Counted, Recorded, Staffed, Alert;
      UpdatedIs(View(), next, serial);
      var removed := executors - next;
      var hired := if started && !stopped then next - lanes.Keys else {};
      Reap();
      SameLists(old(View()), View());
      Retire(removed);
      SwapIn(next, hired, serial, removed);
    }
  }

  lemma StillThere(s: Scheduler, gone: set<Backend>, b: Backend)
    requires b in s.lanes && b !in gone
    ensures var r := RetiredAll(s, gone); b in r.lanes && r.lanes[b] == s.lanes[b]
  {
  }

  lemma SameLists(s: Scheduler, s': Scheduler)
    requires Located(s) && s' == s.(retired := s'.retired)
    ensures Located(s')
  {
    hide Exactly;
    Rests(s, s');
  }
}
