/**
 Who the plugin worker pool serves. A pump is a chain of turns, each told by the tables before and after and by
 what the pump reads from outside; from that, over every run: no slot goes to a profile the policy read holds out,
 and a held-out profile's waiters stay where they were.
 */
module PluginTurns {
  import opened PluginPool
  import opened Prelude
  import opened RunningCounts
  import opened Stride
  import opened StrideDepth
  import opened StrideSteps

  // One turn.

  /** Fewer slots are out than the configured width, or than one while the probe says saturated. */
  ghost predicate HasRoom(limits: Limits, pool: Pool, reading: Reading) {
    Total(pool.running) < if reading == Probe(true) then 1 else limits.maxConcurrent
  }

  /**
   The queue serves `id` of profile `key` under the policy and weights read. A live waiter is granted a slot
   counted on that profile, and a cancelled one is passed over.
   */
  ghost predicate TurnOn(pool: Pool, next: Pool, out: Outside, key: Key, id: JobId) {
    && id in pool.jobs
    && Serves(pool.queue, next.queue, out.policy, out.weightOf(key), key, id)
    && (if pool.jobs[id].waiter == Cancelled then next.jobs == pool.jobs && next.running == pool.running
        else
          && next.jobs == pool.jobs[id := pool.jobs[id].(waiter := Granted)]
          && next.running == pool.running[key := RunningOf(pool.running, key) + 1])
  }

  ghost predicate TakesTurn(pool: Pool, next: Pool, out: Outside) {
    exists key, id :: TurnOn(pool, next, out, key, id)
  }

  ghost predicate NobodyAdmitted(pool: Pool, policy: Policy) {
    forall k :: k in pool.queue.order ==> !Admits(policy, k)
  }

  /** Turn after turn while there is room at that turn's reading, until there is none or nobody admitted waits. */
  ghost predicate Turns(limits: Limits, ps: seq<Pool>, out: Outside, turn: nat) {
    && ps != []
    && (forall t :: 0 <= t < |ps| - 1 ==>
          HasRoom(limits, ps[t], out.readings(turn + t)) && TakesTurn(ps[t], ps[t + 1], out))
    && (HasRoom(limits, ps[|ps| - 1], out.readings(turn + |ps| - 1)) ==> NobodyAdmitted(ps[|ps| - 1], out.policy))
  }

  lemma TurnIs(pool: Pool, out: Outside)
    requires WellFormed(pool.queue) && QueuedJobsExist(pool) && Next(pool.queue, out.policy).Some?
    ensures TakesTurn(pool, Turn(pool, out.weightOf, out.policy), out)
  {
    hide Popped, Next, Serves, WellFormed;
    var (key, id) := Served(pool.queue, out.policy).value;
    PopServes(pool.queue, out.weightOf, out.policy);
    ServedIsQueued(pool, out.policy);
    assert TurnOn(pool, Turn(pool, out.weightOf, out.policy), out, key, id);
  }

  lemma TurnsFrom(limits: Limits, pool: Pool, rest: seq<Pool>, out: Outside, turn: nat)
    requires Turns(limits, rest, out, turn + 1)
    requires HasRoom(limits, pool, out.readings(turn)) && TakesTurn(pool, rest[0], out)
    ensures Turns(limits, [pool] + rest, out, turn)
  {
    hide HasRoom, TakesTurn, NobodyAdmitted;
    var ps := [pool] + rest;
    forall t | 0 <= t < |ps| - 1
      ensures HasRoom(limits, ps[t], out.readings(turn + t)) && TakesTurn(ps[t], ps[t + 1], out)
    {
      if t > 0 {
        assert ps[t] == rest[t - 1] && ps[t + 1] == rest[t];
        assert turn + t == turn + 1 + (t - 1);
      }
    }
    assert ps[|ps| - 1] == rest[|rest| - 1] && turn + |ps| - 1 == turn + 1 + |rest| - 1;
  }

  /** Another turn is to be taken. */
  ghost predicate GoesOn(limits: Limits, pool: Pool, out: Outside, turn: nat)
    requires limits.maxConcurrent >= 1 && WellFormed(pool.queue)
  {
    !(Total(pool.running) >= Width(limits, out.readings(turn))) && Next(pool.queue, out.policy).Some?
  }

  lemma PumpStops(limits: Limits, pool: Pool, out: Outside, turn: nat)
    requires Sound(limits, pool) && !GoesOn(limits, pool, out, turn)
    ensures WellFormed(pool.queue) && QueuedJobsExist(pool) && Pumped(limits, pool, out, turn) == pool
    ensures Turns(limits, [pool], out, turn)
  {
    SoundQueue(limits, pool);
    hide Popped, Turn, SlotsCounted, QueueTracksJobs;
  }

  lemma PumpGoesOn(limits: Limits, pool: Pool, out: Outside, turn: nat)
    requires Sound(limits, pool) && GoesOn(limits, pool, out, turn)
    ensures WellFormed(pool.queue) && QueuedJobsExist(pool) && Next(pool.queue, out.policy).Some?
    ensures var next := Turn(pool, out.weightOf, out.policy);
      && Sound(limits, next) && DepthIn(next.queue) < DepthIn(pool.queue)
      && Pumped(limits, pool, out, turn) == Pumped(limits, next, out, turn + 1)
      && HasRoom(limits, pool, out.readings(turn)) && TakesTurn(pool, next, out)
  {
    SoundQueue(limits, pool);
    TurnSound(limits, pool, out.weightOf, out.policy);
    PopDepth(pool.queue, out.weightOf, out.policy);
    PopKeepsExist(pool, out.weightOf, out.policy);
    TurnIs(pool, out);
    hide Popped, WellFormed, Next, Turn, TakesTurn, SlotsCounted, QueueTracksJobs;
  }

  /** A pump is such a chain. */
  lemma {:induction false} PumpTurns(limits: Limits, pool: Pool, out: Outside, turn: nat) returns (ps: seq<Pool>)
    requires Sound(limits, pool)
    ensures Turns(limits, ps, out, turn)
    ensures ps[0] == pool && ps[|ps| - 1] == Pumped(limits, pool, out, turn)
    decreases DepthIn(pool.queue)
  {
    hide WellFormed, Turn, Turns, TakesTurn, Sound, Pumped, HasRoom, GoesOn, QueuedJobsExist;
    SoundQueue(limits, pool);
    if GoesOn(limits, pool, out, turn) {
      PumpGoesOn(limits, pool, out, turn);
      var rest := PumpTurns(limits, Turn(pool, out.weightOf, out.policy), out, turn + 1);
      TurnsStart(limits, rest, out, turn + 1);
      TurnsFrom(limits, pool, rest, out, turn);
      ps := [pool] + rest;
    } else {
      PumpStops(limits, pool, out, turn);
      ps := [pool];
    }
  }

  lemma TurnsStart(limits: Limits, ps: seq<Pool>, out: Outside, turn: nat)
    requires Turns(limits, ps, out, turn)
    ensures ps != []
  {
  }

  // The events.

  /** The job's record set, and every other job's left alone. */
  ghost predicate OnlyJob(pool: Pool, mid: Pool, id: JobId, job: Job) {
    mid.jobs == pool.jobs[id := job]
  }

  /** One slot of the profile given back, and the other counts left alone. */
  ghost predicate GivesBack(pool: Pool, mid: Pool, profile: Key) {
    && (forall p :: RunningOf(mid.running, p) == RunningOf(pool.running, p) - (if p == profile then 1 else 0))
    && (forall p :: p in mid.running ==> mid.running[p] > 0)
  }

  /** What an event does before it pumps, and whether it pumps. */
  ghost predicate Happens(limits: Limits, pool: Pool, event: Event, mid: Pool, pumps: bool)
    requires WellFormed(pool.queue) && Enabled(pool, event)
  {
    match event
    case Arrive(id, profile, _) =>
      && pumps == (DepthIn(pool.queue) < limits.maxWaiting)
      && (if pumps then
            && OnlyJob(pool, mid, id, Job(profile, Pending, Suspended, false))
            && Joins(pool.queue, mid.queue, profile, id) && mid.running == pool.running
          else mid == pool)
    case Cancel(id) =>
      var job := pool.jobs[id];
      && !pumps && mid.queue == pool.queue && mid.running == pool.running
      && OnlyJob(pool, mid, id,
           if job.waiter == Granted then job.(cancelling := true) else job.(waiter := Cancelled))
    case Resume(id, _) =>
      var job := pool.jobs[id];
      if job.waiter == Cancelled then
        && !pumps && OnlyJob(pool, mid, id, job.(stage := Finished)) && mid.running == pool.running
        && Drops(pool.queue, mid.queue, job.profile, id)
      else if job.cancelling then
        && pumps && OnlyJob(pool, mid, id, job.(stage := Finished)) && mid.queue == pool.queue
        && GivesBack(pool, mid, job.profile)
      else
        && !pumps && OnlyJob(pool, mid, id, job.(stage := Started))
        && mid.queue == pool.queue && mid.running == pool.running
    case Finish(id, _) =>
      && pumps && OnlyJob(pool, mid, id, pool.jobs[id].(stage := Finished)) && mid.queue == pool.queue
      && GivesBack(pool, mid, pool.jobs[id].profile)
    case Kick(_) => pumps && mid == pool
  }

  lemma LeftGivesBack(limits: Limits, pool: Pool, id: JobId)
    requires SlotsCounted(limits, pool) && id in pool.jobs && Holds(pool.jobs[id])
    ensures GivesBack(pool, Left(pool, id), pool.jobs[id].profile)
  {
    HolderCounted(limits, pool, id);
    UnslottedCounts(pool.running, pool.jobs[id].profile);
    hide HoldersOf, Holders, Unslotted, Total;
  }

  lemma MovedHappens(limits: Limits, pool: Pool, event: Event)
    requires Sound(limits, pool) && Enabled(pool, event)
    ensures WellFormed(pool.queue)
    ensures Happens(limits, pool, event, Moved(limits, pool, event), Pumps(limits, pool, event))
  {
    hide Pushed, Discarded, WellFormed, Joins, Drops, GivesBack, QueueTracksJobs, Unslotted;
    SoundQueue(limits, pool);
    match event
    case Arrive(id, profile, _) => PushJoins(pool.queue, profile, id);
    case Cancel(_) =>
    case Resume(id, _) =>
      if pool.jobs[id].waiter == Cancelled {
        DiscardDrops(pool.queue, pool.jobs[id].profile, id);
      } else if pool.jobs[id].cancelling {
        LeftGivesBack(limits, pool, id);
      }
    case Finish(id, _) => LeftGivesBack(limits, pool, id);
    case Kick(_) =>
  }

  /** Every event is what it does, then, where it pumps, turns under what it read from outside. */
  lemma StepIsTurns(limits: Limits, pool: Pool, event: Event) returns (mid: Pool, pumps: bool, ps: seq<Pool>)
    requires Sound(limits, pool) && Enabled(pool, event)
    ensures WellFormed(pool.queue) && Happens(limits, pool, event, mid, pumps)
    ensures pumps ==> !event.Cancel? && Turns(limits, ps, event.out, 0)
    ensures ps != [] && ps[0] == mid && ps[|ps| - 1] == Step(limits, pool, event)
    ensures !pumps ==> |ps| == 1
    ensures Sound(limits, mid)
  {
    hide Sound, Moved, Happens, Turns, Pumped;
    MovedHappens(limits, pool, event);
    MovedSound(limits, pool, event);
    mid, pumps := Moved(limits, pool, event), Pumps(limits, pool, event);
    if pumps {
      ps := PumpTurns(limits, mid, event.out, 0);
      TurnsStart(limits, ps, event.out, 0);
    } else {
      ps := [mid];
    }
  }

  // What a chain of turns gives and leaves.

  /** The slot is newly given: the job waited before. */
  ghost predicate NewlyGranted(pool: Pool, r: Pool, id: JobId) {
    id in r.jobs && r.jobs[id].waiter == Granted && !(id in pool.jobs && pool.jobs[id].waiter == Granted)
  }

  ghost predicate Tracked(pool: Pool) {
    forall k, id :: id in Waiting(pool.queue, k) && id in pool.jobs ==> pool.jobs[id].profile == k
  }

  lemma TurnGrants(pool: Pool, next: Pool, out: Outside, id: JobId, k: Key)
    requires TakesTurn(pool, next, out) && Tracked(pool)
    ensures Tracked(next)
    ensures NewlyGranted(pool, next, id) ==> Admits(out.policy, next.jobs[id].profile)
    ensures !Admits(out.policy, k) ==> Waiting(next.queue, k) == Waiting(pool.queue, k)
    ensures pool.jobs.Keys == next.jobs.Keys
    ensures id in pool.jobs ==> next.jobs[id].profile == pool.jobs[id].profile
    ensures id in pool.jobs && pool.jobs[id].waiter == Cancelled ==> next.jobs[id] == pool.jobs[id]
  {
    var key, served :| TurnOn(pool, next, out, key, served);
    assert Admits(out.policy, key);
    hide PassesAfter, IsNext;
    assert served in Waiting(pool.queue, key);
    forall o, j | j in Waiting(next.queue, o) ensures j in Waiting(pool.queue, o) {
    }
  }

  lemma {:induction false} TurnsGrant(limits: Limits, ps: seq<Pool>, out: Outside, n: nat, id: JobId, k: Key)
    requires Turns(limits, ps, out, 0) && n < |ps| && Tracked(ps[0])
    ensures Tracked(ps[n])
    ensures NewlyGranted(ps[0], ps[n], id) ==> Admits(out.policy, ps[n].jobs[id].profile)
    ensures !Admits(out.policy, k) ==> Waiting(ps[n].queue, k) == Waiting(ps[0].queue, k)
    ensures ps[0].jobs.Keys == ps[n].jobs.Keys
    ensures id in ps[0].jobs ==> ps[n].jobs[id].profile == ps[0].jobs[id].profile
    ensures id in ps[0].jobs && ps[0].jobs[id].waiter == Cancelled ==> ps[n].jobs[id] == ps[0].jobs[id]
  {
    hide TakesTurn, HasRoom, Waiting, Tracked, NobodyAdmitted;
    if n > 0 {
      TurnsGrant(limits, ps, out, n - 1, id, k);
      assert TakesTurn(ps[n - 1], ps[n - 1 + 1], out);
      TurnGrants(ps[n - 1], ps[n], out, id, k);
    }
  }

  lemma SoundTracked(limits: Limits, pool: Pool)
    requires Sound(limits, pool)
    ensures Tracked(pool) && WellFormed(pool.queue)
  {
    hide SlotsCounted;
  }

  /** A slot is newly given only in an event whose policy, as the pump read it, admits the job's profile. */
  lemma StepGrants(limits: Limits, pool: Pool, event: Event, id: JobId)
    requires Sound(limits, pool) && Enabled(pool, event)
    requires NewlyGranted(pool, Step(limits, pool, event), id)
    ensures !event.Cancel? && Admits(event.out.policy, Step(limits, pool, event).jobs[id].profile)
  {
    SoundTracked(limits, pool);
    var mid, pumps, ps := StepIsTurns(limits, pool, event);
    SoundTracked(limits, mid);
    MidGrantsNone(limits, pool, event, mid, pumps, id);
    hide Sound, Happens, Turns, Step, Tracked, Enabled;
    if pumps {
      TurnsGrant(limits, ps, event.out, |ps| - 1, id, Step(limits, pool, event).jobs[id].profile);
    }
  }

  /** A cancelled waiter stays one, and does not start. */
  predicate StaysCancelled(was: Job, job: Job) {
    was.waiter == Cancelled ==> job.waiter == Cancelled && (was.stage != Started ==> job.stage != Started)
  }

  lemma MidGrantsNone(limits: Limits, pool: Pool, event: Event, mid: Pool, pumps: bool, id: JobId)
    requires WellFormed(pool.queue) && Enabled(pool, event) && Happens(limits, pool, event, mid, pumps)
    ensures !NewlyGranted(pool, mid, id)
    ensures pool.jobs.Keys <= mid.jobs.Keys
    ensures id in pool.jobs ==> mid.jobs[id].profile == pool.jobs[id].profile
    ensures id in pool.jobs ==> StaysCancelled(pool.jobs[id], mid.jobs[id])
  {
    hide Joins, Drops, GivesBack, WellFormed;
  }

  /** What becomes of one profile's waiters by an event's own doing: one joins, one cancelled leaves, or nothing. */
  function WaitersAfter(limits: Limits, pool: Pool, event: Event, k: Key, room: bool): seq<JobId> {
    var before := Waiting(pool.queue, k);
    match event
    case Arrive(id, profile, _) => if room && profile == k then before + [id] else before
    case Resume(id, _) =>
      if id in pool.jobs && pool.jobs[id].waiter == Cancelled && pool.jobs[id].profile == k then Without(before, id)
      else before
    case _ => before
  }

  lemma MidWaiters(limits: Limits, pool: Pool, event: Event, mid: Pool, pumps: bool, k: Key)
    requires WellFormed(pool.queue) && Enabled(pool, event) && Happens(limits, pool, event, mid, pumps)
    ensures Waiting(mid.queue, k) == WaitersAfter(limits, pool, event, k, DepthIn(pool.queue) < limits.maxWaiting)
  {
    hide WellFormed, Waiting, GivesBack, LowestStored;
  }

  /** A profile the policy holds out keeps its waiters: the pump takes nobody from it, whatever else it does. */
  lemma HeldOutStays(limits: Limits, pool: Pool, event: Event, k: Key)
    requires Sound(limits, pool) && Enabled(pool, event) && WellFormed(pool.queue)
    requires event.Cancel? || !Admits(event.out.policy, k)
    ensures Waiting(Step(limits, pool, event).queue, k)
      == WaitersAfter(limits, pool, event, k, DepthIn(pool.queue) < limits.maxWaiting)
  {
    var mid, pumps, ps := StepIsTurns(limits, pool, event);
    SoundTracked(limits, mid);
    MidWaiters(limits, pool, event, mid, pumps, k);
    hide Sound, Happens, Turns, Step, Tracked, Enabled, WellFormed, Waiting;
    if pumps {
      var id :| true;
      TurnsGrant(limits, ps, event.out, |ps| - 1, id, k);
    }
  }

  // Over whole runs.

  lemma StepKeepsJob(limits: Limits, pool: Pool, event: Event, id: JobId)
    requires Sound(limits, pool) && Enabled(pool, event) && id in pool.jobs
    ensures var r := Step(limits, pool, event);
      && id in r.jobs && r.jobs[id].profile == pool.jobs[id].profile
      && StaysCancelled(pool.jobs[id], r.jobs[id])
  {
    SoundTracked(limits, pool);
    var mid, pumps, ps := StepIsTurns(limits, pool, event);
    SoundTracked(limits, mid);
    MidGrantsNone(limits, pool, event, mid, pumps, id);
    hide Sound, Happens, Turns, Step, Tracked, Enabled;
    if pumps {
      TurnsGrant(limits, ps, event.out, |ps| - 1, id, pool.jobs[id].profile);
    }
  }

  lemma {:induction false} RunKeepsJob(limits: Limits, pool: Pool, events: seq<Event>, id: JobId)
    requires Sound(limits, pool) && Feasible(limits, pool, events) && id in pool.jobs
    ensures var end := RunPool(limits, pool, events);
      && id in end.jobs && end.jobs[id].profile == pool.jobs[id].profile
      && StaysCancelled(pool.jobs[id], end.jobs[id])
    decreases |events|
  {
    hide Sound, Step, Enabled;
    if events != [] {
      StepKeepsJob(limits, pool, events[0], id);
      RunKeepsJob(limits, Step(limits, pool, events[0]), events[1..], id);
    }
  }

  /** The policy read in this event admits the profile. */
  ghost predicate AdmitsIn(event: Event, profile: Key) { !event.Cancel? && Admits(event.out.policy, profile) }

  /**
   Over every interleaving: a job that holds or has held a slot got it in an event whose policy, read then,
   admitted its profile. A profile disabled, or everything paused, throughout is never served.
   */
  lemma {:induction false} SlotNeedsAdmission(limits: Limits, pool: Pool, events: seq<Event>, id: JobId)
    requires Sound(limits, pool) && Feasible(limits, pool, events)
    requires NewlyGranted(pool, RunPool(limits, pool, events), id)
    ensures exists i :: 0 <= i < |events| && AdmitsIn(events[i], RunPool(limits, pool, events).jobs[id].profile)
    decreases |events|
  {
    hide Sound, Step, Enabled;
    var next := Step(limits, pool, events[0]);
    var end := RunPool(limits, pool, events);
    if NewlyGranted(pool, next, id) {
      StepGrants(limits, pool, events[0], id);
      RunKeepsJob(limits, next, events[1..], id);
      assert AdmitsIn(events[0], end.jobs[id].profile);
    } else {
      SlotNeedsAdmission(limits, next, events[1..], id);
      var i :| 0 <= i < |events[1..]| && AdmitsIn(events[1..][i], end.jobs[id].profile);
      assert AdmitsIn(events[i + 1], end.jobs[id].profile);
    }
  }

  /** A job cancelled while it waited never starts. */
  lemma CancelledNeverStarts(limits: Limits, pool: Pool, events: seq<Event>, id: JobId)
    requires Sound(limits, pool) && Feasible(limits, pool, events)
    requires id in pool.jobs && pool.jobs[id].waiter == Cancelled && pool.jobs[id].stage != Started
    ensures var end := RunPool(limits, pool, events); id in end.jobs && end.jobs[id].stage != Started
  {
    RunKeepsJob(limits, pool, events, id);
  }
}
