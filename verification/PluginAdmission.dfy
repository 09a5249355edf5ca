/** The worker pool of src/omnitensor/plugin_admission.py, changed in place. */
module PluginAdmission {
  import opened Prelude
  import opened RunningCounts
  import opened Stride
  import opened StrideDepth
  import opened PluginPool

  const MAX_CONCURRENT_LIMIT := 32
  const MAX_WAITING_LIMIT := 1024

  predicate InBounds(maxConcurrent: int, maxWaiting: int) {
    1 <= maxConcurrent <= MAX_CONCURRENT_LIMIT && 1 <= maxWaiting <= MAX_WAITING_LIMIT
  }

  /** Building a pool: a size outside its bounds is refused. */
  method Create(maxConcurrent: int, maxWaiting: int) returns (pool: Option<PluginAdmissionQueue>)
    ensures pool.Some? <==> 1 <= maxConcurrent <= 32 && 1 <= maxWaiting <= 1024
    ensures pool.Some? ==> fresh(pool.value) && pool.value.View() == Start()
    ensures pool.Some? ==> pool.value.limits == Limits(maxConcurrent, maxWaiting)
  {
    if !InBounds(maxConcurrent, maxWaiting) {
      return None;
    }
    var built := new PluginAdmissionQueue(Limits(maxConcurrent, maxWaiting));
    return Some(built);
  }

  class PluginAdmissionQueue {
    const limits: Limits
    const queue: StrideQueue<JobId>
    var running: map<Key, nat>
    /** The futures and coroutine positions the event loop keeps for this pool's jobs. */
    var jobs: map<JobId, Job>

    function View(): Pool
      reads this, queue
    {
      Pool(queue.View(), running, jobs)
    }

    constructor (limits: Limits)
      requires InBounds(limits.maxConcurrent, limits.maxWaiting)
      ensures View() == Start() && this.limits == limits
      ensures Sound(limits, View()) && fresh(queue)
    {
      this.limits := limits;
      queue := new StrideQueue();
      running, jobs := map[], map[];
      new;
      StartSound(limits);
    }

    method Running() returns (total: nat)
      ensures total == Total(running)
    {
      total := 0;
      var left := running.Keys;
      while left != {}
        invariant left <= running.Keys
        invariant total + SumOver(running, left) == Total(running)
        decreases left
      {
        var profile :| profile in left;
        SumPick(running, left, profile);
        total := total + running[profile];
        left := left - {profile};
      }
    }

    method Pump(out: Outside)
      requires limits.maxConcurrent >= 1 && WellFormed(queue.View()) && QueuedJobsExist(View())
      modifies this, queue
      ensures View() == Pumped(limits, old(View()), out, 0)
    {
      hide WellFormed, QueuedJobsExist, Popped, Served, Next;
      var turn := 0;
      while true
        invariant WellFormed(queue.View()) && QueuedJobsExist(View())
        invariant Pumped(limits, old(View()), out, 0) == Pumped(limits, View(), out, turn)
        decreases DepthIn(queue.View())
      {
        ghost var before := View();
        var total := Running();
        if total >= Width(limits, out.readings(turn)) {
          return;
        }
        ServedOrNot(before, out);
        var served := queue.Pop(out.weightOf, out.policy);
        if served.None? {
          return;
        }
        var (profile, id) := served.value;
        if jobs[id].waiter != Cancelled {
          running := running[profile := RunningOf(running, profile) + 1];
          jobs := jobs[id := jobs[id].(waiter := Granted)];
        }
        assert View() == Turn(before, out.weightOf, out.policy);
        turn := turn + 1;
      }
    }

    /** A job arrives: refused when too many wait, else queued and the pool pumped. */
    method Acquire(id: JobId, profile: Key, out: Outside) returns (accepted: bool)
      requires Sound(limits, View()) && Enabled(View(), Arrive(id, profile, out))
      modifies this, queue
      ensures View() == Step(limits, old(View()), Arrive(id, profile, out))
      ensures accepted <==> DepthIn(old(queue.View())) < limits.maxWaiting
    {
      ghost var before, event := View(), Arrive(id, profile, out);
      SoundQueue(limits, before);
      MovedSound(limits, before, event);
      var waiting := queue.Depth();
      if waiting >= limits.maxWaiting {
        return false;
      }
      SoundQueue(limits, Moved(limits, before, event));
      hide Sound, WellFormed, Pushed;
      jobs := jobs[id := Job(profile, Pending, Suspended, false)];
      queue.Push(profile, id);
      assert View() == Moved(limits, before, event);
      Pump(out);
      return true;
    }

    /** The job's task is cancelled while it waits, or after its grant before it resumes. */
    method CancelJob(id: JobId)
      requires Sound(limits, View()) && Enabled(View(), Cancel(id))
      modifies `jobs
      ensures View() == Step(limits, old(View()), Cancel(id))
    {
      jobs := jobs[id := Cancelling(jobs[id])];
    }

    /** The job's coroutine runs on from its await. */
    method ResumeJob(id: JobId, out: Outside)
      requires Sound(limits, View()) && Enabled(View(), Resume(id, out))
      modifies this, queue
      ensures View() == Step(limits, old(View()), Resume(id, out))
    {
      ghost var before, event := View(), Resume(id, out);
      SoundQueue(limits, before);
      MovedSound(limits, before, event);
      SoundQueue(limits, Moved(limits, before, event));
      hide Sound, WellFormed, Discarded;
      var job := jobs[id];
      if job.waiter == Cancelled {
        jobs := jobs[id := job.(stage := Finished)];
        var _ := queue.Discard(job.profile, id);
      } else if job.cancelling {
        jobs := jobs[id := job.(stage := Finished)];
        Release(job.profile, out);
      } else {
        jobs := jobs[id := job.(stage := Started)];
      }
    }

    /** The job's work ends: returned, failed or cancelled inside it. */
    method FinishJob(id: JobId, out: Outside)
      requires Sound(limits, View()) && Enabled(View(), Finish(id, out))
      modifies this, queue
      ensures View() == Step(limits, old(View()), Finish(id, out))
    {
      ghost var before, event := View(), Finish(id, out);
      MovedSound(limits, before, event);
      SoundQueue(limits, Moved(limits, before, event));
      hide Sound, WellFormed;
      var job := jobs[id];
      jobs := jobs[id := job.(stage := Finished)];
      Release(job.profile, out);
    }

    method Release(profile: Key, out: Outside)
      requires limits.maxConcurrent >= 1 && WellFormed(queue.View()) && QueuedJobsExist(View())
      modifies this, queue
      ensures View() == Pumped(limits, old(View()).(running := Unslotted(old(running), profile)), out, 0)
    {
      ghost var before := View();
      var remaining: int := RunningOf(running, profile) - 1;
      if remaining > 0 {
        running := running[profile := remaining];
      } else {
        running := running - {profile};
      }
      assert View() == before.(running := Unslotted(before.running, profile));
      Pump(out);
    }

    /** Policy changed: the waiters are looked at again. */
    method Kick(out: Outside)
      requires Sound(limits, View())
      modifies this, queue
      ensures View() == Step(limits, old(View()), Event.Kick(out))
    {
      SoundQueue(limits, View());
      Pump(out);
    }

    method HasRoom() returns (room: bool)
      requires WellFormed(queue.View())
      ensures room <==> DepthIn(queue.View()) < limits.maxWaiting
    {
      var waiting := queue.Depth();
      room := waiting < limits.maxWaiting;
    }
  }

  /** What a turn of the pump may rely on about the item a pop hands it. */
  lemma ServedOrNot(pool: Pool, out: Outside)
    requires WellFormed(pool.queue) && QueuedJobsExist(pool)
    ensures Served(pool.queue, out.policy).None? ==>
      Next(pool.queue, out.policy).None? && Popped(pool.queue, out.weightOf, out.policy) == pool.queue
    ensures Served(pool.queue, out.policy).Some? ==>
      && Next(pool.queue, out.policy).Some?
      && Served(pool.queue, out.policy).value.1 in pool.jobs
      && WellFormed(Popped(pool.queue, out.weightOf, out.policy))
      && DepthIn(Popped(pool.queue, out.weightOf, out.policy)) < DepthIn(pool.queue)
      && QueuedJobsExist(Turn(pool, out.weightOf, out.policy))
  {
    if Next(pool.queue, out.policy).Some? {
      PopDepth(pool.queue, out.weightOf, out.policy);
      PopKeepsExist(pool, out.weightOf, out.policy);
      ServedIsQueued(pool, out.policy);
    }
  }
}
