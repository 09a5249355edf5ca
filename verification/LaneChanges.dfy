/**
 What starting, waking, swapping the executors and stopping do to the lanes and their workers, one backend and one
 worker at a time, with none of the scheduler's own operations named.
 */
module LaneChanges {
  import opened LaneScheduler

  /** No worker of `s` is touched, except that the ones picked are told to end. */
  ghost predicate OnlyCancels(s: Scheduler, r: Scheduler, picked: set<WorkerId>) {
    forall w :: w in s.tasks ==>
      w in r.tasks && r.tasks[w] == Task(s.tasks[w].spot, s.tasks[w].cancelled || w in picked)
  }

  /** The workers of `r` that `s` does not have are at the top of their loop, one on each of these backends. */
  ghost predicate Hires(s: Scheduler, r: Scheduler, backends: set<Backend>, serial: nat) {
    && (forall w :: w in r.tasks && w !in s.tasks ==> w.backend in backends && w.serial == serial)
    && (forall b :: b in backends ==> StartsFresh(r, WorkerId(b, serial)))
  }

  ghost predicate StartsFresh(r: Scheduler, w: WorkerId) {
    && w in r.tasks && r.tasks[w].spot.Top? && !r.tasks[w].cancelled
    && w.backend in r.workers && r.workers[w.backend] == w
  }

  /** Every executor gets a worker; nothing else moves. */
  lemma StartHires(s: Scheduler, serial: nat, max: nat)
    requires Enabled(s, Start(serial), max)
    ensures var r := Step(s, Start(serial));
      && Hires(s, r, s.executors, serial) && OnlyCancels(s, r, {}) && r.workers.Keys == s.executors
      && r.started && !r.stopped && r.lanes == s.lanes && r.place == s.place && r.outcome == s.outcome
  {
  }

  /** A changed policy wakes every lane and does nothing else. */
  lemma KickWakes(s: Scheduler, max: nat)
    requires Enabled(s, Kick, max)
    ensures var r := Step(s, Kick);
      && (forall b :: b in r.awake <==> b in s.lanes)
      && r.lanes == s.lanes && r.tasks == s.tasks && r.place == s.place && r.outcome == s.outcome
      && r.workers == s.workers && r.executors == s.executors && r.stopped == s.stopped
  {
  }

  /** The worker of one of the lanes, or one retired and not yet done. */
  ghost predicate OnDuty(s: Scheduler, w: WorkerId) {
    (exists b :: b in s.workers && s.workers[b] == w) || w in s.retired
  }

  ghost predicate StopsThem(s: Scheduler, r: Scheduler) {
    forall w :: w in s.tasks ==>
      w in r.tasks && r.tasks[w] == Task(s.tasks[w].spot, s.tasks[w].cancelled || OnDuty(s, w))
  }

  /** Stopping wakes every lane and tells every worker to end; no future is resolved yet. */
  lemma StopTells(s: Scheduler, max: nat)
    requires Enabled(s, Stop, max)
    ensures var r := Step(s, Stop);
      && r.stopped && StopsThem(s, r) && (forall b :: b in r.awake <==> b in s.lanes)
      && r.tasks.Keys == s.tasks.Keys && r.lanes == s.lanes && r.place == s.place && r.outcome == s.outcome
  {
  }

  /** Lanes after a swap: kept ones as they were, new ones empty, removed ones gone. */
  ghost predicate LanesSwap(s: Scheduler, r: Scheduler, next: set<Backend>) {
    && (forall b :: b in r.lanes <==> b in next || (b in s.lanes && b !in s.executors))
    && (forall b :: b in r.lanes && b in s.lanes ==> r.lanes[b] == s.lanes[b])
    && (forall b :: b in r.lanes && b !in s.lanes ==> r.lanes[b].order == [] && r.lanes[b].items == map[])
    && (forall b :: b in r.awake <==> b in s.awake && !(b in s.executors && b !in next))
  }

  ghost predicate TableSwaps(s: Scheduler, r: Scheduler, removed: set<Backend>, hired: set<Backend>) {
    forall b :: b !in hired ==>
      (b in r.workers <==> b in s.workers && b !in removed) && (b in r.workers ==> r.workers[b] == s.workers[b])
  }

  /** Who is retired: the workers of removed backends, and the retired that are not done. */
  ghost predicate Retires(s: Scheduler, r: Scheduler, removed: set<Backend>) {
    forall w :: w in r.retired <==>
      (w in s.retired && w in s.tasks && !s.tasks[w].spot.Done?) || LosesLane(s, w, removed)
  }

  ghost predicate LosesLane(s: Scheduler, w: WorkerId, removed: set<Backend>) {
    exists b :: b in removed && b in s.workers && s.workers[b] == w
  }

  ghost predicate CancelsRemoved(s: Scheduler, r: Scheduler, removed: set<Backend>) {
    forall w :: w in s.tasks ==>
      w in r.tasks && r.tasks[w] == Task(s.tasks[w].spot, s.tasks[w].cancelled || LosesLane(s, w, removed))
  }

  /** Swapping the executors, lane by lane and worker by worker. */
  lemma UpdateSwaps(s: Scheduler, next: set<Backend>, serial: nat, max: nat)
    requires Enabled(s, Update(next, serial), max)
    ensures var r := Step(s, Update(next, serial));
      && r.executors == next && LanesSwap(s, r, next) && r.started == s.started && r.stopped == s.stopped
  {
    hide Emptied, Resolved;
  }

  /** The workers of removed backends are told to end and kept to be waited for. */
  lemma UpdateRetires(s: Scheduler, next: set<Backend>, serial: nat, max: nat)
    requires Enabled(s, Update(next, serial), max)
    ensures var r := Step(s, Update(next, serial)); var removed := s.executors - next;
      CancelsRemoved(s, r, removed) && Retires(s, r, removed)
  {
    hide Emptied, Resolved, FreshLanes;
  }

  /** The backends that get a worker: those of new lanes while the scheduler runs. */
  function Hiring(s: Scheduler, next: set<Backend>): set<Backend> {
    set b | b in next && b !in s.lanes && s.started && !s.stopped
  }

  lemma UpdatedTables(s: Scheduler, next: set<Backend>, serial: nat)
    ensures var r := Updated(s, next, serial); var removed, hired := s.executors - next, Hiring(s, next);
      && r.workers == (s.workers - removed) + Assigned(hired, serial)
      && r.tasks == Cancelling(s.tasks, WorkersOf(s, removed)) + Spawned(hired, serial)
  {
    hide Emptied, Resolved, FreshLanes, WorkersOf, Cancelling, Spawned, Assigned, StillRunning;
    assert (if s.started && !s.stopped then next - s.lanes.Keys else {}) == Hiring(s, next);
  }

  lemma SpawningHires(s: Scheduler, r: Scheduler, told: map<WorkerId, Task>, kept: map<Backend, WorkerId>,
                      hired: set<Backend>, serial: nat)
    requires told.Keys == s.tasks.Keys && forall b :: b in hired ==> WorkerId(b, serial) !in s.tasks
    requires r.workers == kept + Assigned(hired, serial) && r.tasks == told + Spawned(hired, serial)
    ensures Hires(s, r, hired, serial)
  {
  }

  lemma AssigningSwaps(s: Scheduler, r: Scheduler, removed: set<Backend>, hired: set<Backend>, serial: nat)
    requires r.workers == (s.workers - removed) + Assigned(hired, serial)
    ensures TableSwaps(s, r, removed, hired)
  {
  }

  lemma NobodyYet(s: Scheduler, next: set<Backend>, serial: nat, max: nat)
    requires Enabled(s, Update(next, serial), max)
    ensures forall b :: b in Hiring(s, next) ==> WorkerId(b, serial) !in s.tasks
  {
  }

  /** New lanes get a worker at once while the scheduler runs, and none before it starts or after it stops. */
  lemma UpdateHires(s: Scheduler, next: set<Backend>, serial: nat, max: nat)
    requires Enabled(s, Update(next, serial), max)
    ensures var r := Step(s, Update(next, serial));
      Hires(s, r, Hiring(s, next), serial) && TableSwaps(s, r, s.executors - next, Hiring(s, next))
  {
    NobodyYet(s, next, serial, max);
    UpdatedTables(s, next, serial);
    hide Updated, Hiring, WorkersOf, Hires, TableSwaps, Assigned, Spawned, Enabled;
    var r := Updated(s, next, serial);
    var removed, hired := s.executors - next, Hiring(s, next);
    SpawningHires(s, r, Cancelling(s.tasks, WorkersOf(s, removed)), s.workers - removed, hired, serial);
    AssigningSwaps(s, r, removed, hired, serial);
  }
}
