/**
 The plugin worker pool of src/omnitensor/plugin_admission.py as a step machine. A step is the code one
 event runs before control returns to the event loop: an arrival, a cancellation, a resumption, the end
 of a job's work, a kick. Interleavings are arbitrary sequences of steps.
 */
module PluginPool {
  import opened Prelude
  import opened RunningCounts
  import opened Stride
  import opened StrideDepth

  /** One submitted job, and the future it waits on: each job has its own. */
  type JobId(==, !new, 0)

  datatype Waiter = Pending | Granted | Cancelled

  /** Where the job's coroutine stands. */
  datatype Stage = Suspended | Started | Finished

  /** `cancelling`: cancelled after the grant, before it could resume. */
  datatype Job = Job(profile: Key, waiter: Waiter, stage: Stage, cancelling: bool)

  /** What the pressure probe answers when asked. */
  datatype Reading = NoProbe | ProbeFailed | Probe(saturated: bool)

  /** Everything a pump reads from outside: policy, and the probe's answer at each turn of its loop. */
  datatype Outside = Outside(weightOf: Key -> Weight, policy: Policy, readings: nat -> Reading)

  datatype Limits = Limits(maxConcurrent: nat, maxWaiting: nat)

  datatype Pool = Pool(queue: Queue<JobId>, running: map<Key, nat>, jobs: map<JobId, Job>)

  function Width(limits: Limits, reading: Reading): (w: nat)
    requires limits.maxConcurrent >= 1
    ensures 1 <= w <= limits.maxConcurrent
    ensures reading != Probe(true) ==> w == limits.maxConcurrent
    ensures reading == Probe(true) ==> w == 1
  {
    if reading.Probe? && reading.saturated then 1 else limits.maxConcurrent
  }

  /** Granted and not resumed, granted then cancelled, or started. */
  predicate Holds(job: Job) {
    (job.stage == Suspended && job.waiter == Granted) || job.stage == Started
  }

  ghost function Holders(jobs: map<JobId, Job>): set<JobId> {
    set id | id in jobs && Holds(jobs[id])
  }

  ghost function HoldersOf(jobs: map<JobId, Job>, profile: Key): set<JobId> {
    set id | id in jobs && Holds(jobs[id]) && jobs[id].profile == profile
  }

  // The steps.

  function Grant(pool: Pool, profile: Key, id: JobId): Pool
    requires id in pool.jobs
  {
    pool.(
      running := pool.running[profile := RunningOf(pool.running, profile) + 1],
      jobs := pool.jobs[id := pool.jobs[id].(waiter := Granted)])
  }

  /** Hand out slots until the width is used up or nothing admitted waits; `turn` counts the loop's turns. */
  ghost function Pumped(limits: Limits, pool: Pool, out: Outside, turn: nat): Pool
    requires limits.maxConcurrent >= 1 && WellFormed(pool.queue)
    requires QueuedJobsExist(pool)
    decreases DepthIn(pool.queue)
  {
    if Total(pool.running) >= Width(limits, out.readings(turn)) then pool
    else
      var served := Served(pool.queue, out.policy);
      if served.None? then pool
      else
        PopDepth(pool.queue, out.weightOf, out.policy);
        PopKeepsExist(pool, out.weightOf, out.policy);
        Pumped(limits, Turn(pool, out.weightOf, out.policy), out, turn + 1)
  }

  /** One turn of the pump's loop: a cancelled waiter is passed over, a live one is given the slot. */
  function Turn(pool: Pool, weightOf: Key -> Weight, policy: Policy): Pool
    requires WellFormed(pool.queue) && QueuedJobsExist(pool) && Next(pool.queue, policy).Some?
  {
    var (profile, id) := Served(pool.queue, policy).value;
    ServedIsQueued(pool, policy);
    var rest := pool.(queue := Popped(pool.queue, weightOf, policy));
    if pool.jobs[id].waiter == Cancelled then rest else Grant(rest, profile, id)
  }

  ghost predicate QueuedJobsExist(pool: Pool) {
    forall k, id :: id in Waiting(pool.queue, k) ==> id in pool.jobs
  }

  lemma ServedIsQueued(pool: Pool, policy: Policy)
    requires WellFormed(pool.queue) && QueuedJobsExist(pool) && Next(pool.queue, policy).Some?
    ensures Served(pool.queue, policy).value.1 in Waiting(pool.queue, Served(pool.queue, policy).value.0)
    ensures Served(pool.queue, policy).value.1 in pool.jobs
  {
  }

  lemma PopKeepsExist(pool: Pool, weightOf: Key -> Weight, policy: Policy)
    requires WellFormed(pool.queue) && QueuedJobsExist(pool) && Next(pool.queue, policy).Some?
    ensures WellFormed(Turn(pool, weightOf, policy).queue) && QueuedJobsExist(Turn(pool, weightOf, policy))
    ensures Turn(pool, weightOf, policy).queue == Popped(pool.queue, weightOf, policy)
  {
    hide Popped, WellFormed, Waiting, Next;
    PopEffect(pool.queue, weightOf, policy);
    ServedIsQueued(pool, policy);
    var (key, item) := Served(pool.queue, policy).value;
    var r := Popped(pool.queue, weightOf, policy);
    forall k, id | id in Waiting(r, k) ensures id in pool.jobs {
      assert id in Waiting(pool.queue, k) by {
        if k == key {
          assert id in [item] + Waiting(r, key);
        }
      }
    }
  }

  // The invariant.

  /** A job in the queue is suspended, unserved and under its own profile; a live waiter is queued once. */
  ghost predicate QueueTracksJobs(pool: Pool)
    ensures QueueTracksJobs(pool) ==> QueuedJobsExist(pool)
  {
    && QueuedJobsExist(pool)
    && (forall k :: Distinct(Waiting(pool.queue, k)))
    && (forall k, id :: id in Waiting(pool.queue, k) ==>
      var job := pool.jobs[id]; job.profile == k && job.stage == Suspended && job.waiter != Granted)
    && (forall id :: id in pool.jobs && pool.jobs[id].stage == Suspended && pool.jobs[id].waiter == Pending ==>
      id in Waiting(pool.queue, pool.jobs[id].profile))
  }

  /** Each profile's running count is the number of its jobs holding a slot, and the total is bounded. */
  ghost predicate SlotsCounted(limits: Limits, pool: Pool) {
    && (forall p :: RunningOf(pool.running, p) == |HoldersOf(pool.jobs, p)|)
    && (forall p :: p in pool.running ==> pool.running[p] > 0)
    && Total(pool.running) == |Holders(pool.jobs)| <= limits.maxConcurrent
  }

  ghost predicate Sound(limits: Limits, pool: Pool) {
    && limits.maxConcurrent >= 1
    && WellFormed(pool.queue) && Spread(pool.queue)
    && DepthIn(pool.queue) <= limits.maxWaiting
    && QueueTracksJobs(pool)
    && SlotsCounted(limits, pool)
  }

  /** Setting one job's record, when that makes it a holder. */
  lemma HolderGained(jobs: map<JobId, Job>, id: JobId, job: Job)
    requires id in jobs && !Holds(jobs[id]) && Holds(job) && job.profile == jobs[id].profile
    ensures |Holders(jobs[id := job])| == |Holders(jobs)| + 1
    ensures |HoldersOf(jobs[id := job], job.profile)| == |HoldersOf(jobs, job.profile)| + 1
    ensures forall p :: p != job.profile ==> HoldersOf(jobs[id := job], p) == HoldersOf(jobs, p)
  {
    assert Holders(jobs[id := job]) == Holders(jobs) + {id};
    assert HoldersOf(jobs[id := job], job.profile) == HoldersOf(jobs, job.profile) + {id};
  }

  lemma HolderLost(jobs: map<JobId, Job>, id: JobId, job: Job)
    requires id in jobs && Holds(jobs[id]) && !Holds(job) && job.profile == jobs[id].profile
    ensures |Holders(jobs[id := job])| == |Holders(jobs)| - 1
    ensures |HoldersOf(jobs[id := job], job.profile)| == |HoldersOf(jobs, job.profile)| - 1
    ensures forall p :: p != job.profile ==> HoldersOf(jobs[id := job], p) == HoldersOf(jobs, p)
  {
    assert Holders(jobs) == Holders(jobs[id := job]) + {id};
    assert HoldersOf(jobs, job.profile) == HoldersOf(jobs[id := job], job.profile) + {id};
  }

  lemma HoldersSame(jobs: map<JobId, Job>, id: JobId, job: Job)
    requires Holds(job) == (id in jobs && Holds(jobs[id]))
    requires id in jobs ==> job.profile == jobs[id].profile
    ensures Holders(jobs[id := job]) == Holders(jobs)
    ensures forall p :: HoldersOf(jobs[id := job], p) == HoldersOf(jobs, p)
  {
  }

  // One turn of the pump keeps the pool sound.

  /** The queue tracks every job but `id`, which it no longer holds. */
  ghost predicate TracksOthers(pool: Pool, id: JobId) {
    && QueuedJobsExist(pool)
    && (forall k :: Distinct(Waiting(pool.queue, k)) && id !in Waiting(pool.queue, k))
    && (forall k, other :: other in Waiting(pool.queue, k) ==>
      var job := pool.jobs[other]; job.profile == k && job.stage == Suspended && job.waiter != Granted)
    && (forall other ::
      other in pool.jobs && other != id && pool.jobs[other].stage == Suspended && pool.jobs[other].waiter == Pending ==>
      other in Waiting(pool.queue, pool.jobs[other].profile))
  }

  lemma TracksAll(pool: Pool, id: JobId, job: Job)
    requires TracksOthers(pool, id) && !(job.stage == Suspended && job.waiter == Pending)
    ensures QueueTracksJobs(pool.(jobs := pool.jobs[id := job]))
  {
    hide Waiting;
  }

  lemma FrontTaken(pool: Pool, rest: Queue<JobId>, key: Key, id: JobId)
    requires QueueTracksJobs(pool)
    requires Waiting(pool.queue, key) == [id] + Waiting(rest, key)
    requires forall k :: k != key ==> Waiting(rest, k) == Waiting(pool.queue, k)
    ensures TracksOthers(pool.(queue := rest), id)
  {
    hide Waiting;
    var before, after := Waiting(pool.queue, key), Waiting(rest, key);
    assert before[0] == id && id in before;
    assert forall i :: 0 <= i < |after| ==> after[i] == before[i + 1];
    assert id !in after && Distinct(after);
    forall k, other | other in Waiting(rest, k) ensures other in Waiting(pool.queue, k) {
      if k == key {
        assert other in [id] + after;
      }
    }
    forall k ensures Distinct(Waiting(rest, k)) && id !in Waiting(rest, k) {
      if k != key {
        assert Waiting(rest, k) == Waiting(pool.queue, k);
        assert pool.jobs[id].profile == key;
      }
    }
    forall other | other in pool.jobs && other != id
        && pool.jobs[other].stage == Suspended && pool.jobs[other].waiter == Pending
      ensures other in Waiting(rest, pool.jobs[other].profile)
    {
      assert other in Waiting(pool.queue, pool.jobs[other].profile);
      assert other in before ==> other in [id] + after;
    }
  }

  lemma TurnTracks(pool: Pool, weightOf: Key -> Weight, policy: Policy)
    requires WellFormed(pool.queue) && QueueTracksJobs(pool) && Next(pool.queue, policy).Some?
    ensures QueueTracksJobs(Turn(pool, weightOf, policy))
  {
    hide Popped, WellFormed, Waiting, Next, TracksOthers, QueueTracksJobs, QueuedJobsExist;
    PopEffect(pool.queue, weightOf, policy);
    ServedIsQueued(pool, policy);
    var (key, id) := Served(pool.queue, policy).value;
    var rest := pool.(queue := Popped(pool.queue, weightOf, policy));
    FrontTaken(pool, rest.queue, key, id);
    if pool.jobs[id].waiter == Cancelled {
      TracksAll(rest, id, pool.jobs[id]);
      assert rest.jobs[id := pool.jobs[id]] == rest.jobs;
    } else {
      var job := pool.jobs[id].(waiter := Granted);
      TracksAll(rest, id, job);
      TracksIgnoresRunning(rest.(jobs := rest.jobs[id := job]), Grant(rest, key, id));
    }
  }

  lemma TracksIgnoresRunning(pool: Pool, other: Pool)
    requires QueueTracksJobs(pool) && other.queue == pool.queue && other.jobs == pool.jobs
    ensures QueueTracksJobs(other)
  {
  }

  lemma GrantCounts(limits: Limits, pool: Pool, id: JobId)
    requires SlotsCounted(limits, pool) && id in pool.jobs && !Holds(pool.jobs[id])
    requires pool.jobs[id].stage == Suspended && Total(pool.running) < limits.maxConcurrent
    ensures SlotsCounted(limits, Grant(pool, pool.jobs[id].profile, id))
  {
    var profile := pool.jobs[id].profile;
    var job := pool.jobs[id].(waiter := Granted);
    var r := Grant(pool, profile, id);
    HolderGained(pool.jobs, id, job);
    TotalSet(pool.running, profile, RunningOf(pool.running, profile) + 1);
    hide Holders, HoldersOf, Total;
    assert r.jobs == pool.jobs[id := job];
    forall p ensures RunningOf(r.running, p) == |HoldersOf(r.jobs, p)| {
      assert RunningOf(pool.running, p) == |HoldersOf(pool.jobs, p)|;
      if p != profile {
        assert HoldersOf(r.jobs, p) == HoldersOf(pool.jobs, p);
      }
    }
  }

  lemma TurnSound(limits: Limits, pool: Pool, weightOf: Key -> Weight, policy: Policy)
    requires Sound(limits, pool) && Next(pool.queue, policy).Some? && Total(pool.running) < limits.maxConcurrent
    ensures Sound(limits, Turn(pool, weightOf, policy))
  {
    TurnTracks(pool, weightOf, policy);
    PopDepth(pool.queue, weightOf, policy);
    PoppedKeeps(pool.queue, weightOf, policy);
    ServedIsQueued(pool, policy);
    var (profile, id) := Served(pool.queue, policy).value;
    var rest := pool.(queue := Popped(pool.queue, weightOf, policy));
    hide Popped, WellFormed, Spread, Waiting, Next, SlotsCounted;
    assert SlotsCounted(limits, rest) by {
      CountsIgnoreQueue(limits, pool, rest);
    }
    if pool.jobs[id].waiter != Cancelled {
      GrantCounts(limits, rest, id);
    }
  }

  lemma CountsIgnoreQueue(limits: Limits, pool: Pool, other: Pool)
    requires SlotsCounted(limits, pool) && other.running == pool.running && other.jobs == pool.jobs
    ensures SlotsCounted(limits, other)
  {
  }

  /** The pump keeps the pool sound, and stops only with the width used up or nothing admitted waiting. */
  lemma {:induction false} PumpSound(limits: Limits, pool: Pool, out: Outside, turn: nat) returns (last: nat)
    requires Sound(limits, pool)
    ensures Sound(limits, Pumped(limits, pool, out, turn))
    ensures last >= turn && Settled(limits, Pumped(limits, pool, out, turn), out.policy, out.readings(last))
    decreases DepthIn(pool.queue)
  {
    last := turn;
    if Total(pool.running) < Width(limits, out.readings(turn)) {
      if Next(pool.queue, out.policy).Some? {
        TurnSound(limits, pool, out.weightOf, out.policy);
        PopDepth(pool.queue, out.weightOf, out.policy);
        PopKeepsExist(pool, out.weightOf, out.policy);
        hide Popped, WellFormed, Spread, Waiting, Next, SlotsCounted, Turn;
        last := PumpSound(limits, Turn(pool, out.weightOf, out.policy), out, turn + 1);
      } else {
        NothingAdmitted(pool, out.policy);
      }
    }
  }

  /** The width read last is used up, or no live waiter is admitted. */
  ghost predicate Settled(limits: Limits, pool: Pool, policy: Policy, reading: Reading)
    requires limits.maxConcurrent >= 1
  {
    || Total(pool.running) >= Width(limits, reading)
    || forall id :: id in pool.jobs && pool.jobs[id].stage == Suspended && pool.jobs[id].waiter == Pending ==>
      !Admits(policy, pool.jobs[id].profile)
  }

  lemma NothingAdmitted(pool: Pool, policy: Policy)
    requires WellFormed(pool.queue) && QueueTracksJobs(pool) && Next(pool.queue, policy).None?
    ensures forall id :: id in pool.jobs && pool.jobs[id].stage == Suspended && pool.jobs[id].waiter == Pending ==>
      !Admits(policy, pool.jobs[id].profile)
  {
    forall id | id in pool.jobs && pool.jobs[id].stage == Suspended && pool.jobs[id].waiter == Pending
      ensures !Admits(policy, pool.jobs[id].profile)
    {
      assert id in Waiting(pool.queue, pool.jobs[id].profile);
    }
  }

  // The events, and what each leaves behind.

  datatype Event =
    | Arrive(id: JobId, profile: Key, out: Outside)
    | Cancel(id: JobId)
    | Resume(id: JobId, out: Outside)
    | Finish(id: JobId, out: Outside)
    | Kick(out: Outside)

  /** Which events the event loop can deliver: a job arrives once, resumes once its future is done. */
  ghost predicate Enabled(pool: Pool, event: Event) {
    match event
    case Arrive(id, _, _) => id !in pool.jobs
    case Cancel(id) => id in pool.jobs && pool.jobs[id].stage == Suspended
    case Resume(id, _) => id in pool.jobs && pool.jobs[id].stage == Suspended && pool.jobs[id].waiter != Pending
    case Finish(id, _) => id in pool.jobs && pool.jobs[id].stage == Started
    case Kick(_) => true
  }

  function SetJob(pool: Pool, id: JobId, job: Job): Pool {
    pool.(jobs := pool.jobs[id := job])
  }

  function Enqueued(pool: Pool, id: JobId, profile: Key): Pool
    requires WellFormed(pool.queue)
  {
    SetJob(pool, id, Job(profile, Pending, Suspended, false)).(queue := Pushed(pool.queue, profile, id))
  }

  function Cancelling(job: Job): Job {
    match job.waiter
    case Pending => job.(waiter := Cancelled)
    case Granted => job.(cancelling := true)
    case Cancelled => job
  }

  /** A holder leaves: its slot is free before anything is pumped. */
  function Left(pool: Pool, id: JobId): Pool
    requires id in pool.jobs
  {
    SetJob(pool, id, pool.jobs[id].(stage := Finished))
      .(running := Unslotted(pool.running, pool.jobs[id].profile))
  }

  /** A cancelled waiter leaves: it is taken out of the queue and frees nothing. */
  function Withdrawn(pool: Pool, id: JobId): Pool
    requires WellFormed(pool.queue) && id in pool.jobs
  {
    SetJob(pool, id, pool.jobs[id].(stage := Finished))
      .(queue := Discarded(pool.queue, pool.jobs[id].profile, id))
  }

  /** The state an event leaves just before it pumps, or for good when it does not pump. */
  ghost function Moved(limits: Limits, pool: Pool, event: Event): Pool
    requires WellFormed(pool.queue) && Enabled(pool, event)
  {
    match event
    case Arrive(id, profile, _) =>
      if DepthIn(pool.queue) >= limits.maxWaiting then pool else Enqueued(pool, id, profile)
    case Cancel(id) => SetJob(pool, id, Cancelling(pool.jobs[id]))
    case Resume(id, _) =>
      var job := pool.jobs[id];
      if job.waiter == Cancelled then Withdrawn(pool, id)
      else if job.cancelling then Left(pool, id)
      else SetJob(pool, id, job.(stage := Started))
    case Finish(id, _) => Left(pool, id)
    case Kick(_) => pool
  }

  ghost predicate Pumps(limits: Limits, pool: Pool, event: Event)
    requires WellFormed(pool.queue) && Enabled(pool, event)
  {
    match event
    case Arrive(_, _, _) => DepthIn(pool.queue) < limits.maxWaiting
    case Cancel(_) => false
    case Resume(id, _) => pool.jobs[id].waiter == Granted && pool.jobs[id].cancelling
    case Finish(_, _) => true
    case Kick(_) => true
  }

  lemma BackAdded(pool: Pool, rest: Queue<JobId>, key: Key, id: JobId)
    requires QueueTracksJobs(pool) && id !in pool.jobs
    requires Waiting(rest, key) == Waiting(pool.queue, key) + [id]
    requires forall k :: k != key ==> Waiting(rest, k) == Waiting(pool.queue, k)
    ensures QueueTracksJobs(SetJob(pool, id, Job(key, Pending, Suspended, false)).(queue := rest))
  {
    hide Waiting;
    var r := SetJob(pool, id, Job(key, Pending, Suspended, false)).(queue := rest);
    forall k ensures Distinct(Waiting(rest, k)) {
      assert Distinct(Waiting(pool.queue, k)) && id !in Waiting(pool.queue, k);
    }
    forall k, other | other in Waiting(rest, k)
      ensures other in Waiting(pool.queue, k) || (other == id && k == key)
    {
    }
    assert id in Waiting(rest, key);
  }

  lemma CountsIgnoreOthers(limits: Limits, pool: Pool, other: Pool, id: JobId, job: Job)
    requires SlotsCounted(limits, pool) && other.running == pool.running && other.jobs == pool.jobs[id := job]
    requires Holds(job) == (id in pool.jobs && Holds(pool.jobs[id]))
    requires id in pool.jobs ==> job.profile == pool.jobs[id].profile
    ensures SlotsCounted(limits, other)
  {
    HoldersSame(pool.jobs, id, job);
    hide Holders, HoldersOf;
  }

  lemma EnqueuedSound(limits: Limits, pool: Pool, id: JobId, profile: Key)
    requires Sound(limits, pool) && id !in pool.jobs && DepthIn(pool.queue) < limits.maxWaiting
    ensures Sound(limits, Enqueued(pool, id, profile))
  {
    PushedKeeps(pool.queue, profile, id);
    PushDepth(pool.queue, profile, id);
    PushEffect(pool.queue, profile, id);
    hide WellFormed, Spread, Pushed, Waiting, DepthIn, SlotsCounted, QueueTracksJobs;
    var r := Enqueued(pool, id, profile);
    CountsIgnoreOthers(limits, pool, r, id, Job(profile, Pending, Suspended, false));
    BackAdded(pool, r.queue, profile, id);
  }

  lemma CancellingSound(limits: Limits, pool: Pool, id: JobId)
    requires Sound(limits, pool) && id in pool.jobs && pool.jobs[id].stage == Suspended
    ensures Sound(limits, SetJob(pool, id, Cancelling(pool.jobs[id])))
  {
    var job := Cancelling(pool.jobs[id]);
    HoldersSame(pool.jobs, id, job);
    hide WellFormed, Spread, Waiting, Holders, HoldersOf, DepthIn;
    assert SlotsCounted(limits, SetJob(pool, id, job));
  }

  lemma StartedSound(limits: Limits, pool: Pool, id: JobId)
    requires Sound(limits, pool) && id in pool.jobs
    requires pool.jobs[id].stage == Suspended && pool.jobs[id].waiter == Granted
    ensures Sound(limits, SetJob(pool, id, pool.jobs[id].(stage := Started)))
  {
    var job := pool.jobs[id].(stage := Started);
    HoldersSame(pool.jobs, id, job);
    hide WellFormed, Spread, Waiting, Holders, HoldersOf, DepthIn;
    assert SlotsCounted(limits, SetJob(pool, id, job));
  }

  lemma LeftSound(limits: Limits, pool: Pool, id: JobId)
    requires Sound(limits, pool) && id in pool.jobs && Holds(pool.jobs[id])
    ensures Sound(limits, Left(pool, id))
  {
    hide WellFormed, Spread, Waiting, DepthIn;
    LeftCounts(limits, pool, id);
    hide SlotsCounted;
    assert QueueTracksJobs(Left(pool, id));
  }

  lemma HolderCounted(limits: Limits, pool: Pool, id: JobId)
    requires SlotsCounted(limits, pool) && id in pool.jobs && Holds(pool.jobs[id])
    ensures RunningOf(pool.running, pool.jobs[id].profile) > 0
  {
    var profile := pool.jobs[id].profile;
    assert RunningOf(pool.running, profile) == |HoldersOf(pool.jobs, profile)|;
    assert id in HoldersOf(pool.jobs, profile);
  }

  lemma LeftCounts(limits: Limits, pool: Pool, id: JobId)
    requires SlotsCounted(limits, pool) && id in pool.jobs && Holds(pool.jobs[id])
    ensures SlotsCounted(limits, Left(pool, id))
  {
    hide Holders, HoldersOf, Total, Unslotted;
    var profile := pool.jobs[id].profile;
    var job := pool.jobs[id].(stage := Finished);
    var r := Left(pool, id);
    HolderCounted(limits, pool, id);
    HolderLost(pool.jobs, id, job);
    UnslottedCounts(pool.running, profile);
    assert r.jobs == pool.jobs[id := job];
    forall p ensures RunningOf(r.running, p) == |HoldersOf(r.jobs, p)| {
      assert RunningOf(pool.running, p) == |HoldersOf(pool.jobs, p)|;
      if p != profile {
        assert HoldersOf(r.jobs, p) == HoldersOf(pool.jobs, p);
      }
    }
  }

  lemma ItemStruck(pool: Pool, rest: Queue<JobId>, id: JobId)
    requires QueueTracksJobs(pool) && id in pool.jobs
    requires Waiting(rest, pool.jobs[id].profile) == Without(Waiting(pool.queue, pool.jobs[id].profile), id)
    requires forall k :: k != pool.jobs[id].profile ==> Waiting(rest, k) == Waiting(pool.queue, k)
    ensures TracksOthers(pool.(queue := rest), id)
  {
    hide Waiting;
    var key := pool.jobs[id].profile;
    WithoutMembers(Waiting(pool.queue, key), id);
    forall k ensures Distinct(Waiting(rest, k)) && id !in Waiting(rest, k) {
      if k != key {
        assert Waiting(rest, k) == Waiting(pool.queue, k);
      }
    }
    forall k, other | other in Waiting(rest, k) ensures other in Waiting(pool.queue, k) {
    }
    forall other | other in pool.jobs && other != id
        && pool.jobs[other].stage == Suspended && pool.jobs[other].waiter == Pending
      ensures other in Waiting(rest, pool.jobs[other].profile)
    {
      assert other in Waiting(pool.queue, pool.jobs[other].profile);
    }
  }

  lemma WithdrawnSound(limits: Limits, pool: Pool, id: JobId)
    requires Sound(limits, pool) && id in pool.jobs
    requires pool.jobs[id].stage == Suspended && pool.jobs[id].waiter == Cancelled
    ensures Sound(limits, Withdrawn(pool, id))
  {
    var profile := pool.jobs[id].profile;
    var job := pool.jobs[id].(stage := Finished);
    DiscardedKeeps(pool.queue, profile, id);
    DiscardDepth(pool.queue, profile, id);
    DiscardEffect(pool.queue, profile, id);
    hide WellFormed, Spread, Discarded, Waiting, DepthIn, SlotsCounted, QueueTracksJobs, TracksOthers;
    var r := Withdrawn(pool, id);
    ItemStruck(pool, r.queue, id);
    TracksAll(pool.(queue := r.queue), id, job);
    CountsIgnoreOthers(limits, pool, r, id, job);
    assert r == SetJob(pool.(queue := r.queue), id, job);
  }

  // The machine.

  ghost function Step(limits: Limits, pool: Pool, event: Event): (r: Pool)
    requires Sound(limits, pool) && Enabled(pool, event)
    ensures Sound(limits, r)
  {
    MovedSound(limits, pool, event);
    var moved := Moved(limits, pool, event);
    if !Pumps(limits, pool, event) then moved
    else
      assert QueuedJobsExist(moved);
      PumpKeepsSound(limits, moved, event.out, 0);
      Pumped(limits, moved, event.out, 0)
  }

  lemma PumpKeepsSound(limits: Limits, pool: Pool, out: Outside, turn: nat)
    requires Sound(limits, pool)
    ensures Sound(limits, Pumped(limits, pool, out, turn))
  {
    var _ := PumpSound(limits, pool, out, turn);
  }

  lemma MovedSound(limits: Limits, pool: Pool, event: Event)
    requires Sound(limits, pool) && Enabled(pool, event)
    ensures Sound(limits, Moved(limits, pool, event))
  {
    hide Sound;
    match event
    case Arrive(id, profile, _) =>
      SoundQueue(limits, pool);
      if DepthIn(pool.queue) < limits.maxWaiting {
        EnqueuedSound(limits, pool, id, profile);
      }
    case Cancel(id) => CancellingSound(limits, pool, id);
    case Resume(id, _) =>
      var job := pool.jobs[id];
      if job.waiter == Cancelled {
        WithdrawnSound(limits, pool, id);
      } else if job.cancelling {
        LeftSound(limits, pool, id);
      } else {
        StartedSound(limits, pool, id);
      }
    case Finish(id, _) => LeftSound(limits, pool, id);
    case Kick(_) =>
  }

  lemma SoundQueue(limits: Limits, pool: Pool)
    requires Sound(limits, pool)
    ensures WellFormed(pool.queue) && QueuedJobsExist(pool) && limits.maxConcurrent >= 1
  {
  }

  /** After a step that pumps, the width read last is used up or no live waiter is admitted. */
  lemma StepSettles(limits: Limits, pool: Pool, event: Event) returns (last: nat)
    requires Sound(limits, pool) && Enabled(pool, event) && Pumps(limits, pool, event)
    ensures Settled(limits, Step(limits, pool, event), event.out.policy, event.out.readings(last))
  {
    MovedSound(limits, pool, event);
    hide Sound, Settled, Moved, Pumped;
    last := PumpSound(limits, Moved(limits, pool, event), event.out, 0);
  }

  // Whole runs.

  function Start(): Pool { Pool(Empty(), map[], map[]) }

  lemma StartSound(limits: Limits)
    requires limits.maxConcurrent >= 1
    ensures Sound(limits, Start())
  {
    var start := Start();
    assert Total(start.running) == 0;
    assert Holders(start.jobs) == {};
    forall p ensures HoldersOf(start.jobs, p) == {} {
    }
  }

  /** Every event of the sequence is one the event loop could deliver at its turn. */
  ghost predicate Feasible(limits: Limits, pool: Pool, events: seq<Event>)
    requires Sound(limits, pool)
    decreases |events|
  {
    events == [] || (Enabled(pool, events[0]) && Feasible(limits, Step(limits, pool, events[0]), events[1..]))
  }

  ghost function RunPool(limits: Limits, pool: Pool, events: seq<Event>): (r: Pool)
    requires Sound(limits, pool) && Feasible(limits, pool, events)
    ensures Sound(limits, r)
    decreases |events|
  {
    if events == [] then pool else RunPool(limits, Step(limits, pool, events[0]), events[1..])
  }

  /**
   Over every interleaving from an empty pool: each profile's running count is the number of its jobs
   that hold a slot, and no more jobs than the configured width hold one.
   */
  lemma SlotSafety(limits: Limits, events: seq<Event>)
    requires limits.maxConcurrent >= 1
    ensures Sound(limits, Start())
    ensures Feasible(limits, Start(), events) ==>
      var end := RunPool(limits, Start(), events);
      && (forall p :: RunningOf(end.running, p) == |HoldersOf(end.jobs, p)|)
      && Total(end.running) == |Holders(end.jobs)| <= limits.maxConcurrent
      && DepthIn(end.queue) <= limits.maxWaiting
  {
    StartSound(limits);
  }

  /** Nothing leaks: once every job has finished, no slot is counted and nothing is queued. */
  lemma IdlePoolIsEmpty(limits: Limits, pool: Pool)
    requires Sound(limits, pool) && forall id :: id in pool.jobs ==> pool.jobs[id].stage == Finished
    ensures pool.running == map[] && pool.queue.items == map[]
  {
    forall p ensures p !in pool.running {
      assert RunningOf(pool.running, p) == |HoldersOf(pool.jobs, p)|;
      assert HoldersOf(pool.jobs, p) == {};
    }
    forall k ensures k !in pool.queue.items {
      QueuedIsSuspended(pool, k);
    }
  }

  lemma QueuedIsSuspended(pool: Pool, k: Key)
    requires WellFormed(pool.queue) && QueueTracksJobs(pool)
    ensures k in pool.queue.items ==> exists id :: id in pool.jobs && pool.jobs[id].stage == Suspended
  {
    if k in pool.queue.items {
      assert pool.queue.items[k] != [];
      var id := pool.queue.items[k][0];
      assert id in Waiting(pool.queue, k);
      assert pool.jobs[id].stage == Suspended;
    }
  }
}
