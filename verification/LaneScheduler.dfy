/**
 The scheduler of src/omnitensor/scheduler.py as a step machine: one weighted queue and one worker task
 per backend, executors that come and go, failures outside a job, and shutdown. A step is what runs
 between two awaits of one task, or one synchronous call.
 */
module LaneScheduler {
  import opened RunningCounts
  import opened Stride
  import opened StrideDepth

  type Backend(==, !new, 0)
  /** A submitted job and the future handed back for it. */
  type JobId(==, !new, 0)

  /** A worker task, named by its backend and the spawning that created it. */
  datatype WorkerId = WorkerId(backend: Backend, serial: nat)

  datatype Place = Queued(backend: Backend, profile: Key) | Held(worker: WorkerId, profile: Key) | Gone

  /** Where a task is: at the top of its loop, suspended, or done. `Parked` remembers the policy its last look used. */
  datatype Spot = Top | Parked(policy: Policy) | Executing(job: JobId, profile: Key) | Done

  datatype Task = Task(spot: Spot, cancelled: bool)

  datatype Outcome = Delivered | Failed | Cancelled

  /** How an executor call ends: a result, an Exception, another BaseException, or cancellation. */
  datatype Ending = Returned | Raised | RaisedBase | Interrupted

  datatype Scheduler = Scheduler(
    executors: set<Backend>,
    lanes: map<Backend, Queue<JobId>>,
    awake: set<Backend>,
    workers: map<Backend, WorkerId>,
    retired: set<WorkerId>,
    tasks: map<WorkerId, Task>,
    place: map<JobId, Place>,
    outcome: map<JobId, Outcome>,
    running: map<Key, nat>,
    degraded: set<Backend>,
    started: bool,
    stopped: bool,
    finished: bool)

  function FreshLanes(backends: set<Backend>): map<Backend, Queue<JobId>> {
    map b | b in backends :: Empty()
  }

  function Initial(executors: set<Backend>): Scheduler {
    Scheduler(executors, FreshLanes(executors), {}, map[], {}, map[], map[], map[], map[], {},
      false, false, false)
  }

  /** What a worker finds when it goes on: how its call ended, and the policy it reads; `raises` if reading it fails. */
  datatype Finding = Finding(ending: Ending, weightOf: Key -> Weight, policy: Policy, raises: bool)

  datatype Event =
    | Start(serial: nat)
    | Submit(backend: Backend, profile: Key, job: JobId)
    | Abandon(job: JobId)
    | Update(next: set<Backend>, serial: nat)
    | Kick
    | Resume(worker: WorkerId, finding: Finding)
    | Stop
    | Joined

  /** A future is resolved once: whoever comes later finds it done and leaves it. */
  function Resolved(outcome: map<JobId, Outcome>, jobs: set<JobId>, o: Outcome): (r: map<JobId, Outcome>)
    ensures r.Keys == outcome.Keys + jobs
    ensures forall j :: j in outcome ==> r[j] == outcome[j]
  {
    outcome + map j | j in jobs && j !in outcome :: o
  }

  predicate In(place: Place, backends: set<Backend>) { place.Queued? && place.backend in backends }

  function QueuedIn(place: map<JobId, Place>, backends: set<Backend>): set<JobId> {
    set j | j in place && In(place[j], backends)
  }

  function Emptied(place: map<JobId, Place>, backends: set<Backend>): (r: map<JobId, Place>)
    ensures r.Keys == place.Keys
    ensures forall j :: j in place ==> r[j] == (if In(place[j], backends) then Gone else place[j])
  {
    map j | j in place :: if In(place[j], backends) then Gone else place[j]
  }

  /** Every future queued on these backends resolved, and its job forgotten. */
  function Vacated(s: Scheduler, backends: set<Backend>, o: Outcome): Scheduler {
    s.(place := Emptied(s.place, backends), outcome := Resolved(s.outcome, QueuedIn(s.place, backends), o))
  }

  function Degraded(s: Scheduler, b: Backend): (r: Scheduler)
    ensures r.lanes == s.lanes[b := Empty()] && r.tasks == s.tasks && r.stopped == s.stopped
  {
    Vacated(s, {b}, Failed).(lanes := s.lanes[b := Empty()], degraded := s.degraded + {b})
  }

  function Submitted(s: Scheduler, b: Backend, profile: Key, j: JobId): Scheduler
    requires b in s.lanes && WellFormed(s.lanes[b])
  {
    s.(lanes := s.lanes[b := Pushed(s.lanes[b], profile, j)],
      awake := s.awake + {b},
      place := s.place[j := Queued(b, profile)])
  }

  function Hired(backends: set<Backend>, serial: nat): (r: set<WorkerId>)
    ensures forall w :: w in r <==> w.backend in backends && w.serial == serial
  {
    set b | b in backends :: WorkerId(b, serial)
  }

  function Spawned(backends: set<Backend>, serial: nat): map<WorkerId, Task> {
    map w | w in Hired(backends, serial) :: Task(Top, false)
  }

  function Assigned(backends: set<Backend>, serial: nat): map<Backend, WorkerId> {
    map b | b in backends :: WorkerId(b, serial)
  }

  /** `task.cancel()` on each of these workers. */
  function Cancelling(tasks: map<WorkerId, Task>, these: set<WorkerId>): (r: map<WorkerId, Task>)
    ensures r.Keys == tasks.Keys
    ensures forall w :: w in tasks ==> r[w] == (if w in these then tasks[w].(cancelled := true) else tasks[w])
  {
    map w | w in tasks :: if w in these then tasks[w].(cancelled := true) else tasks[w]
  }

  function WorkersOf(s: Scheduler, backends: set<Backend>): set<WorkerId> {
    set b | b in backends && b in s.workers :: s.workers[b]
  }

  function StillRunning(s: Scheduler): set<WorkerId> {
    set w | w in s.retired && w in s.tasks && !s.tasks[w].spot.Done?
  }

  /** The executors of a new discovery pass swapped in. */
  function Updated(s: Scheduler, next: set<Backend>, serial: nat): Scheduler {
    var removed := s.executors - next;
    var added := next - s.lanes.Keys;
    var hired := if s.started && !s.stopped then added else {};
    Vacated(s, removed, Outcome.Cancelled).(
      executors := next,
      lanes := (s.lanes - removed) + FreshLanes(added),
      awake := s.awake - removed,
      workers := (s.workers - removed) + Assigned(hired, serial),
      retired := StillRunning(s) + WorkersOf(s, removed),
      tasks := Cancelling(s.tasks, WorkersOf(s, removed)) + Spawned(hired, serial),
      degraded := s.degraded - removed)
  }

  function WithSpot(s: Scheduler, w: WorkerId, spot: Spot): Scheduler
    requires w in s.tasks
  {
    s.(tasks := s.tasks[w := s.tasks[w].(spot := spot)])
  }

  function OutcomeOf(ending: Ending): Outcome {
    match ending
    case Returned => Delivered
    case Raised => Failed
    case RaisedBase => Failed
    case Interrupted => Cancelled
  }

  /** The executor call of `w` is over: its future resolved, its count given back. */
  function Ended(s: Scheduler, w: WorkerId, ending: Ending): (r: Scheduler)
    requires w in s.tasks && s.tasks[w].spot.Executing?
    ensures r.lanes == s.lanes && r.tasks == WithSpot(s, w, Top).tasks && r.stopped == s.stopped
  {
    var Executing(j, profile) := s.tasks[w].spot;
    WithSpot(s, w, Top).(
      outcome := Resolved(s.outcome, {j}, OutcomeOf(ending)),
      place := s.place[j := Gone],
      running := Unslotted(s.running, profile),
      degraded := if ending.Returned? then s.degraded - {w.backend} else s.degraded)
  }

  /** Nothing to serve: the wake-up is cleared and waited for. */
  function Idle(s: Scheduler, w: WorkerId, policy: Policy): Scheduler
    requires w in s.tasks
  {
    WithSpot(s, w, Parked(policy)).(awake := s.awake - {w.backend})
  }

  /** The next job of the lane taken and its executor called. */
  function Dispatched(s: Scheduler, w: WorkerId, weightOf: Key -> Weight, policy: Policy): Scheduler
    requires w in s.tasks && w.backend in s.lanes && WellFormed(s.lanes[w.backend])
    requires Next(s.lanes[w.backend], policy).Some?
  {
    var (profile, j) := Served(s.lanes[w.backend], policy).value;
    WithSpot(s, w, Executing(j, profile)).(
      lanes := s.lanes[w.backend := Popped(s.lanes[w.backend], weightOf, policy)],
      place := s.place[j := Held(w, profile)],
      running := s.running[profile := RunningOf(s.running, profile) + 1])
  }

  /** The worker's loop from its top to its next await. A policy is only read while something is queued. */
  function Looped(s: Scheduler, w: WorkerId, f: Finding): Scheduler
    requires w in s.tasks && w.backend in s.lanes && WellFormed(s.lanes[w.backend])
  {
    var lane := s.lanes[w.backend];
    if s.stopped then WithSpot(s, w, Done)
    else if f.raises && lane.order != [] then Idle(Degraded(s, w.backend), w, f.policy)
    else if Next(lane, f.policy).None? then Idle(s, w, f.policy)
    else Dispatched(s, w, f.weightOf, f.policy)
  }

  /** The task ends here: it was cancelled, or its executor call was. */
  predicate Unwinds(task: Task, ending: Ending) { task.cancelled || (task.spot.Executing? && ending.Interrupted?) }

  function Unwound(s: Scheduler, w: WorkerId): Scheduler
    requires w in s.tasks
  {
    WithSpot(if s.tasks[w].spot.Executing? then Ended(s, w, Interrupted) else s, w, Done)
  }

  /** An emptied deque stays under its key. */
  function Hollow(q: Queue<JobId>): Queue<JobId> {
    q.(items := map k | k in q.items :: [])
  }

  function Finished(s: Scheduler): Scheduler {
    Vacated(s, s.lanes.Keys, Outcome.Cancelled).(
      lanes := map b | b in s.lanes :: Hollow(s.lanes[b]),
      workers := map[], retired := {}, degraded := {}, finished := true)
  }

  ghost predicate Enabled(s: Scheduler, e: Event, max: nat) {
    && (s.finished ==> e.Abandon?)
    && match e
       case Start(serial) => !s.started && !s.stopped && forall b :: b in s.executors ==> WorkerId(b, serial) !in s.tasks
       case Submit(b, _, j) =>
         !s.stopped && b in s.lanes && WellFormed(s.lanes[b]) && DepthIn(s.lanes[b]) < max && j !in s.place
       case Abandon(j) => j in s.place
       case Update(next, serial) => forall b :: b in next ==> WorkerId(b, serial) !in s.tasks
       case Kick => true
       case Resume(w, f) =>
         && w in s.tasks && !s.tasks[w].spot.Done?
         && (s.tasks[w].spot.Parked? ==> s.tasks[w].cancelled || w.backend in s.awake)
       case Stop => !s.stopped
       case Joined =>
         && s.stopped
         && forall w :: w in s.tasks && (w in s.workers.Values || w in s.retired) ==> s.tasks[w].spot.Done?
  }

  /** What a step needs of the tables: the lane it works on, and for a worker going on, its executor. */
  ghost predicate Ready(s: Scheduler, e: Event) {
    && (e.Submit? ==> e.backend in s.lanes && WellFormed(s.lanes[e.backend]))
    && (e.Resume? ==>
          && e.worker in s.tasks
          && (!Unwinds(s.tasks[e.worker], e.finding.ending) ==>
                && e.worker.backend in s.executors
                && e.worker.backend in s.lanes
                && WellFormed(s.lanes[e.worker.backend])))
  }

  /**
   A worker going on: it unwinds, or settles the call it was in and takes the top of its loop. What is
   raised that is no ordinary exception fails the whole lane first.
   */
  function Resumed(s: Scheduler, w: WorkerId, f: Finding): Scheduler
    requires w in s.tasks
    requires !Unwinds(s.tasks[w], f.ending) ==> w.backend in s.lanes && WellFormed(s.lanes[w.backend])
  {
    if Unwinds(s.tasks[w], f.ending) then Unwound(s, w)
    else if !s.tasks[w].spot.Executing? then Looped(s, w, f)
    else
      var ended := Ended(s, w, f.ending);
      if f.ending.RaisedBase? then Looped(Degraded(ended, w.backend), w, f) else Looped(ended, w, f)
  }

  function Step(s: Scheduler, e: Event): Scheduler
    requires Ready(s, e)
  {
    match e
    case Start(serial) =>
      s.(started := true, workers := Assigned(s.executors, serial), tasks := s.tasks + Spawned(s.executors, serial))
    case Submit(b, profile, j) => Submitted(s, b, profile, j)
    case Abandon(j) => s.(outcome := Resolved(s.outcome, {j}, Outcome.Cancelled))
    case Update(next, serial) => Updated(s, next, serial)
    case Kick => s.(awake := s.lanes.Keys)
    case Resume(w, f) => Resumed(s, w, f)
    case Stop =>
      s.(stopped := true, awake := s.lanes.Keys,
        tasks := Cancelling(s.tasks, WorkersOf(s, s.workers.Keys) + s.retired))
    case Joined => Finished(s)
  }
}
