/**
 What the scheduler keeps over every interleaving: each unresolved job in exactly one lane or one worker's
 hands, counts that match, workers that always find their lane, wake-ups that are not lost, and a shutdown
 that leaves no future unresolved.
 */
module LaneSafety {
  import opened LaneScheduler
  import opened Placement
  import opened RunningCounts
  import opened Stride
  import opened StrideDepth

  /** The jobs at each place: a key's list in a lane, or the one job of an executing worker. */
  function ListOf(s: Scheduler, at: Place): seq<JobId> {
    match at
    case Queued(b, k) => if b in s.lanes then Waiting(s.lanes[b], k) else []
    case Held(w, k) =>
      if w in s.tasks && s.tasks[w].spot.Executing? && s.tasks[w].spot.profile == k then [s.tasks[w].spot.job] else []
    case Gone => []
  }

  ghost predicate Located(s: Scheduler) {
    forall at: Place :: !at.Gone? ==> Exactly(ListOf(s, at), s.place, at)
  }

  ghost function HeldFor(place: map<JobId, Place>, profile: Key): set<JobId> {
    set j | j in place && place[j].Held? && place[j].profile == profile
  }

  /** The running table counts exactly the held jobs, and holds no zeros. */
  ghost predicate Counted(s: Scheduler) {
    && (forall k :: RunningOf(s.running, k) == |HeldFor(s.place, k)|)
    && (forall k :: k in s.running ==> s.running[k] > 0)
  }

  /** Shutdown is not over, and a job is let go only once its future is resolved. */
  ghost predicate Recorded(s: Scheduler) {
    && !s.finished
    && (forall j :: j in s.place && s.place[j].Gone? ==> j in s.outcome)
    && s.outcome.Keys <= s.place.Keys
  }

  ghost predicate LaneOk(q: Queue<JobId>, max: nat)
    ensures LaneOk(q, max) ==> WellFormed(q)
  {
    WellFormed(q) && DepthIn(q) <= max
  }

  ghost predicate LanesOk(s: Scheduler, max: nat) {
    && s.executors == s.lanes.Keys
    && (forall b :: b in s.lanes ==> LaneOk(s.lanes[b], max))
  }

  /** Every worker entry names a task of its own lane; a running scheduler names a worker for every lane. */
  ghost predicate Rostered(s: Scheduler) {
    && (!s.started ==> s.tasks.Keys == {} && s.retired == {} && s.workers.Keys == {})
    && s.workers.Keys <= s.lanes.Keys
    && (forall b :: b in s.workers ==> s.workers[b] in s.tasks && s.workers[b].backend == b)
    && (s.started && !s.stopped ==> s.workers.Keys == s.lanes.Keys)
  }

  /** A task still going is its lane's worker or a cancelled, retired one. */
  ghost predicate Accounted(s: Scheduler) {
    && (forall w :: w in s.tasks && !s.tasks[w].spot.Done? ==>
          w in s.retired || (w.backend in s.workers && s.workers[w.backend] == w))
    && (forall w :: w in s.retired ==> w in s.tasks && s.tasks[w].cancelled)
    && (forall w :: w in s.tasks && s.stopped && !s.tasks[w].spot.Done? ==> s.tasks[w].cancelled)
  }

  ghost predicate Staffed(s: Scheduler) {
    Rostered(s) && Accounted(s)
  }

  /** A parked worker whose wake-up is clear has nothing to serve under the policy it last read. */
  ghost predicate Alert(s: Scheduler) {
    forall w :: w in s.tasks && s.tasks[w].spot.Parked? && !s.tasks[w].cancelled && w.backend !in s.awake ==>
      w.backend in s.lanes && WellFormed(s.lanes[w.backend]) &&
      Next(s.lanes[w.backend], s.tasks[w].spot.policy).None?
  }

  ghost predicate Sound(s: Scheduler, max: nat) {
    LanesOk(s, max) && Staffed(s) && Located(s) && Counted(s) && Recorded(s) && Alert(s)
  }

  // Moving jobs between places.

  lemma ListAt(s: Scheduler, at: Place)
    requires Located(s) && !at.Gone?
    ensures Exactly(ListOf(s, at), s.place, at)
  {
  }

  lemma Arrives(s: Scheduler, s': Scheduler, j: JobId, to: Place)
    requires Located(s) && j !in s.place && s'.place == s.place[j := to] && !to.Gone?
    requires ListOf(s', to) == ListOf(s, to) + [j]
    requires forall at: Place :: at != to && !at.Gone? ==> ListOf(s', at) == ListOf(s, at)
    ensures Located(s')
  {
    hide Exactly, ListOf;
    forall at: Place | !at.Gone? ensures Exactly(ListOf(s', at), s'.place, at) {
      ListAt(s, at);
      if at == to {
        Gain(ListOf(s, to), s.place, j, to);
      } else {
        Stay(ListOf(s, at), s.place, j, to, at);
      }
    }
  }

  lemma Moves(s: Scheduler, s': Scheduler, j: JobId, from: Place, to: Place)
    requires Located(s) && s'.place == s.place[j := to] && from != to && !from.Gone?
    requires ListOf(s, from) == [j] + ListOf(s', from)
    requires to.Gone? || ListOf(s', to) == ListOf(s, to) + [j]
    requires forall at: Place :: at != to && at != from && !at.Gone? ==> ListOf(s', at) == ListOf(s, at)
    ensures j in s.place && s.place[j] == from && Located(s')
  {
    hide Exactly, ListOf;
    ListAt(s, from);
    LoseFirst(ListOf(s, from), s.place, to, from);
    assert ListOf(s, from)[1..] == ListOf(s', from);
    forall at: Place | !at.Gone? ensures Exactly(ListOf(s', at), s'.place, at) {
      ListAt(s, at);
      if at == to {
        Gain(ListOf(s, to), s.place, j, to);
      } else if at != from {
        Stay(ListOf(s, at), s.place, j, to, at);
      }
    }
  }

  lemma Clears(s: Scheduler, s': Scheduler, backends: set<Backend>)
    requires Located(s) && s'.place == Emptied(s.place, backends)
    requires forall at: Place :: !at.Gone? ==> ListOf(s', at) == if In(at, backends) then [] else ListOf(s, at)
    ensures Located(s')
  {
    hide ListOf;
    forall at: Place | !at.Gone? ensures Exactly(ListOf(s', at), s'.place, at) {
      ListAt(s, at);
    }
  }

  lemma Rests(s: Scheduler, s': Scheduler)
    requires Located(s) && s'.place == s.place
    requires forall at: Place :: !at.Gone? ==> ListOf(s', at) == ListOf(s, at)
    ensures Located(s')
  {
    hide ListOf, Exactly;
    forall at: Place | !at.Gone? ensures Exactly(ListOf(s', at), s'.place, at) {
      ListAt(s, at);
    }
  }

  // Submitting.

  lemma SubmittedLocated(s: Scheduler, b: Backend, k: Key, j: JobId)
    requires Located(s) && b in s.lanes && WellFormed(s.lanes[b]) && j !in s.place
    ensures Located(Submitted(s, b, k, j))
  {
    var r := Submitted(s, b, k, j);
    PushEffect(s.lanes[b], k, j);
    hide Pushed, Waiting, WellFormed;
    Arrives(s, r, j, Queued(b, k));
  }

  lemma PushedOk(q: Queue<JobId>, k: Key, j: JobId, max: nat)
    requires WellFormed(q) && DepthIn(q) < max
    ensures LaneOk(Pushed(q, k, j), max)
  {
    hide Pushed, WellFormed, DepthIn;
    PushDepth(q, k, j);
  }

  lemma PoppedOk(q: Queue<JobId>, weightOf: Key -> Weight, policy: Policy, max: nat)
    requires LaneOk(q, max) && Next(q, policy).Some?
    ensures LaneOk(Popped(q, weightOf, policy), max)
  {
    hide Popped, WellFormed, DepthIn;
    PopDepth(q, weightOf, policy);
  }

  lemma EmptyOk(max: nat)
    ensures LaneOk(Empty(), max)
  {
  }

  lemma SubmittedLanes(s: Scheduler, b: Backend, k: Key, j: JobId, max: nat)
    requires LanesOk(s, max) && b in s.lanes && DepthIn(s.lanes[b]) < max
    ensures LanesOk(Submitted(s, b, k, j), max)
  {
    hide LaneOk, WellFormed, DepthIn, Pushed;
    PushedOk(s.lanes[b], k, j, max);
  }

  lemma SubmittedStaffed(s: Scheduler, b: Backend, k: Key, j: JobId)
    requires Staffed(s) && b in s.lanes && WellFormed(s.lanes[b])
    ensures Staffed(Submitted(s, b, k, j))
  {
    hide Pushed, WellFormed;
  }

  lemma SubmittedWatched(s: Scheduler, b: Backend, k: Key, j: JobId)
    requires Recorded(s) && Alert(s) && b in s.lanes && WellFormed(s.lanes[b]) && j !in s.place
    ensures Recorded(Submitted(s, b, k, j)) && Alert(Submitted(s, b, k, j))
  {
    hide Pushed, WellFormed, Next;
  }

  lemma SubmittedCounted(s: Scheduler, b: Backend, k: Key, j: JobId)
    requires Counted(s) && b in s.lanes && WellFormed(s.lanes[b]) && j !in s.place
    ensures Counted(Submitted(s, b, k, j))
  {
    var r := Submitted(s, b, k, j);
    forall p ensures HeldFor(r.place, p) == HeldFor(s.place, p) {
    }
    hide Pushed, WellFormed, RunningOf;
  }

  // Ending a call.

  lemma EndedLocated(s: Scheduler, w: WorkerId, ending: Ending)
    requires Located(s) && w in s.tasks && s.tasks[w].spot.Executing?
    ensures var spot := s.tasks[w].spot; spot.job in s.place && s.place[spot.job] == Held(w, spot.profile)
    ensures Located(Ended(s, w, ending))
  {
    var Executing(j, k) := s.tasks[w].spot;
    hide Waiting;
    Moves(s, Ended(s, w, ending), j, Held(w, k), Gone);
  }

  lemma EndedCounted(s: Scheduler, w: WorkerId, ending: Ending)
    requires Counted(s) && w in s.tasks && s.tasks[w].spot.Executing?
    requires var spot := s.tasks[w].spot; spot.job in s.place && s.place[spot.job] == Held(w, spot.profile)
    ensures Counted(Ended(s, w, ending))
  {
    var Executing(j, k) := s.tasks[w].spot;
    var r := Ended(s, w, ending);
    HeldLost(s.place, j, r.place);
    assert RunningOf(s.running, k) == |HeldFor(s.place, k)|;
    UnslottedCounts(s.running, k);
    hide HeldFor, Unslotted, RunningOf, Total, Ended;
    EndedTables(s, w, ending);
    forall p ensures RunningOf(r.running, p) == |HeldFor(r.place, p)| {
      assert RunningOf(s.running, p) == |HeldFor(s.place, p)|;
    }
  }

  lemma EndedTables(s: Scheduler, w: WorkerId, ending: Ending)
    requires w in s.tasks && s.tasks[w].spot.Executing?
    ensures var r := Ended(s, w, ending);
      r.running == Unslotted(s.running, s.tasks[w].spot.profile) && r.place == s.place[s.tasks[w].spot.job := Gone]
  {
  }

  lemma HeldLost(place: map<JobId, Place>, j: JobId, after: map<JobId, Place>)
    requires j in place && place[j].Held? && after == place[j := Gone]
    ensures |HeldFor(after, place[j].profile)| == |HeldFor(place, place[j].profile)| - 1
    ensures forall p :: p != place[j].profile ==> HeldFor(after, p) == HeldFor(place, p)
  {
    assert HeldFor(after, place[j].profile) == HeldFor(place, place[j].profile) - {j};
  }

  lemma HeldGained(place: map<JobId, Place>, j: JobId, w: WorkerId, k: Key)
    requires j in place && !place[j].Held?
    ensures var after := place[j := Held(w, k)];
      && |HeldFor(after, k)| == |HeldFor(place, k)| + 1
      && forall p :: p != k ==> HeldFor(after, p) == HeldFor(place, p)
  {
    assert HeldFor(place[j := Held(w, k)], k) == HeldFor(place, k) + {j};
  }

  lemma EndedStaffed(s: Scheduler, w: WorkerId, ending: Ending, max: nat)
    requires LanesOk(s, max) && Staffed(s) && w in s.tasks && s.tasks[w].spot.Executing?
    ensures LanesOk(Ended(s, w, ending), max) && Staffed(Ended(s, w, ending))
  {
    hide WellFormed, LaneOk, Unslotted;
  }

  lemma EndedWatched(s: Scheduler, w: WorkerId, ending: Ending)
    requires Recorded(s) && Alert(s) && w in s.tasks && s.tasks[w].spot.Executing?
    requires s.tasks[w].spot.job in s.place
    ensures Recorded(Ended(s, w, ending)) && Alert(Ended(s, w, ending))
  {
    hide WellFormed, Next, Unslotted;
  }

  // A task suspended, or done, with no job in hand.

  predicate Empty?(spot: Spot) { !spot.Executing? }

  lemma SpotStaffed(s: Scheduler, w: WorkerId, spot: Spot)
    requires Staffed(s) && w in s.tasks && (s.tasks[w].spot.Done? ==> spot.Done?)
    ensures Staffed(WithSpot(s, w, spot))
  {
  }

  lemma SpotLocated(s: Scheduler, w: WorkerId, spot: Spot)
    requires Located(s) && w in s.tasks && Empty?(s.tasks[w].spot) && Empty?(spot)
    ensures Located(WithSpot(s, w, spot))
  {
    hide Waiting, Exactly;
    Rests(s, WithSpot(s, w, spot));
  }

  lemma SpotTables(s: Scheduler, w: WorkerId, spot: Spot, max: nat)
    requires LanesOk(s, max) && Counted(s) && Recorded(s) && w in s.tasks
    ensures var r := WithSpot(s, w, spot); LanesOk(r, max) && Counted(r) && Recorded(r)
  {
    hide WellFormed, LaneOk;
  }

  lemma SpotKeeps(s: Scheduler, w: WorkerId, spot: Spot, max: nat)
    requires Sound(s, max) && w in s.tasks && Empty?(s.tasks[w].spot) && !s.tasks[w].spot.Done? && Empty?(spot)
    ensures var r := WithSpot(s, w, spot); LanesOk(r, max) && Located(r) && Counted(r) && Recorded(r) && Staffed(r)
  {
    SpotStaffed(s, w, spot);
    SpotLocated(s, w, spot);
    SpotTables(s, w, spot, max);
    hide LanesOk, Located, Counted, Recorded, Staffed, Alert;
  }

  lemma DoneKeeps(s: Scheduler, w: WorkerId, max: nat)
    requires Sound(s, max) && w in s.tasks && Empty?(s.tasks[w].spot) && !s.tasks[w].spot.Done?
    ensures Sound(WithSpot(s, w, Done), max)
  {
    SpotKeeps(s, w, Done, max);
    hide LanesOk, Located, Counted, Recorded, Staffed, WellFormed, Next;
  }

  /** Going idle clears the wake-up, which nobody else on this lane was relying on. */
  lemma IdleKeeps(s: Scheduler, w: WorkerId, policy: Policy, max: nat)
    requires Sound(s, max) && w in s.tasks && Empty?(s.tasks[w].spot) && !s.tasks[w].spot.Done? && !s.tasks[w].cancelled
    requires w.backend in s.lanes && WellFormed(s.lanes[w.backend]) && Next(s.lanes[w.backend], policy).None?
    ensures Sound(Idle(s, w, policy), max)
  {
    var r := Idle(s, w, policy);
    SpotKeeps(s, w, Parked(policy), max);
    SoleWorker(s, w);
    assert Alert(r) by {
      hide LanesOk, Located, Counted, Recorded, Staffed, WellFormed, Next;
    }
    hide Alert;
    OnlyAwake(WithSpot(s, w, Parked(policy)), r, max);
  }

  lemma OnlyAwake(s: Scheduler, s': Scheduler, max: nat)
    requires LanesOk(s, max) && Located(s) && Counted(s) && Recorded(s) && Staffed(s)
    requires s' == s.(awake := s'.awake)
    ensures LanesOk(s', max) && Located(s') && Counted(s') && Recorded(s') && Staffed(s')
  {
    assert Located(s') by {
      hide LanesOk, Counted, Recorded, Staffed, Exactly;
      Rests(s, s');
    }
    hide Located, WellFormed, LaneOk;
  }

  /** The only task going on this lane that has not been cancelled. */
  lemma SoleWorker(s: Scheduler, w: WorkerId)
    requires Staffed(s) && w in s.tasks && !s.tasks[w].spot.Done? && !s.tasks[w].cancelled
    ensures forall v :: v in s.tasks && v != w && !s.tasks[v].spot.Done? && v.backend == w.backend ==> s.tasks[v].cancelled
    ensures w.backend in s.lanes && !s.stopped
  {
  }

  // Taking the next job.

  lemma DispatchedTables(s: Scheduler, w: WorkerId, weightOf: Key -> Weight, policy: Policy)
    requires w in s.tasks
    requires w.backend in s.lanes && WellFormed(s.lanes[w.backend]) && Next(s.lanes[w.backend], policy).Some?
    ensures var (k, j) := Served(s.lanes[w.backend], policy).value; var r := Dispatched(s, w, weightOf, policy);
      && r.place == s.place[j := Held(w, k)]
      && r.running == s.running[k := RunningOf(s.running, k) + 1]
      && r.tasks == s.tasks[w := Task(Executing(j, k), s.tasks[w].cancelled)]
      && r.lanes == s.lanes[w.backend := Popped(s.lanes[w.backend], weightOf, policy)]
  {
    hide Popped, WellFormed, Next;
  }

  lemma DispatchedLocated(s: Scheduler, w: WorkerId, weightOf: Key -> Weight, policy: Policy)
    requires Located(s) && w in s.tasks && Empty?(s.tasks[w].spot)
    requires w.backend in s.lanes && WellFormed(s.lanes[w.backend]) && Next(s.lanes[w.backend], policy).Some?
    ensures var (k, j) := Served(s.lanes[w.backend], policy).value;
      j in s.place && s.place[j] == Queued(w.backend, k)
    ensures Located(Dispatched(s, w, weightOf, policy))
  {
    hide WellFormed, Popped, Waiting, Dispatched, Located, Exactly, HeldFor;
    var (k, j) := Served(s.lanes[w.backend], policy).value;
    var r := Dispatched(s, w, weightOf, policy);
    DispatchedTables(s, w, weightOf, policy);
    PopEffect(s.lanes[w.backend], weightOf, policy);
    hide Served;
    Moves(s, r, j, Queued(w.backend, k), Held(w, k));
  }

  lemma DispatchedCounted(s: Scheduler, w: WorkerId, weightOf: Key -> Weight, policy: Policy)
    requires Counted(s) && w in s.tasks
    requires w.backend in s.lanes && WellFormed(s.lanes[w.backend]) && Next(s.lanes[w.backend], policy).Some?
    requires var (k, j) := Served(s.lanes[w.backend], policy).value; j in s.place && s.place[j].Queued?
    ensures Counted(Dispatched(s, w, weightOf, policy))
  {
    hide WellFormed, Popped, Waiting, Dispatched, Located, Exactly, HeldFor;
    var (k, j) := Served(s.lanes[w.backend], policy).value;
    var r := Dispatched(s, w, weightOf, policy);
    HeldGained(s.place, j, w, k);
    DispatchedTables(s, w, weightOf, policy);
    hide Served;
    forall p ensures RunningOf(r.running, p) == |HeldFor(r.place, p)| {
      assert RunningOf(s.running, p) == |HeldFor(s.place, p)|;
    }
  }

  lemma DispatchedLanes(s: Scheduler, w: WorkerId, weightOf: Key -> Weight, policy: Policy, max: nat)
    requires LanesOk(s, max) && w in s.tasks && w.backend in s.lanes && Next(s.lanes[w.backend], policy).Some?
    ensures LanesOk(Dispatched(s, w, weightOf, policy), max)
  {
    hide LaneOk, WellFormed, Popped, Next, Served;
    PoppedOk(s.lanes[w.backend], weightOf, policy, max);
  }

  lemma DispatchedStaffed(s: Scheduler, w: WorkerId, weightOf: Key -> Weight, policy: Policy)
    requires Staffed(s) && w in s.tasks && !s.tasks[w].spot.Done?
    requires w.backend in s.lanes && WellFormed(s.lanes[w.backend]) && Next(s.lanes[w.backend], policy).Some?
    ensures Staffed(Dispatched(s, w, weightOf, policy))
  {
    hide Popped, WellFormed, Next, Served;
  }

  lemma DispatchedWatched(s: Scheduler, w: WorkerId, weightOf: Key -> Weight, policy: Policy)
    requires Recorded(s) && Alert(s) && w in s.tasks
    requires w.backend in s.lanes && WellFormed(s.lanes[w.backend]) && Next(s.lanes[w.backend], policy).Some?
    requires forall v :: v in s.tasks && v != w && !s.tasks[v].spot.Done? && v.backend == w.backend ==> s.tasks[v].cancelled
    ensures Recorded(Dispatched(s, w, weightOf, policy)) && Alert(Dispatched(s, w, weightOf, policy))
  {
    hide Popped, WellFormed, Next, Served;
  }

  // Emptying lanes.

  lemma EmptiedCounted(s: Scheduler, s': Scheduler, backends: set<Backend>)
    requires Counted(s) && s'.place == Emptied(s.place, backends) && s'.running == s.running
    ensures Counted(s')
  {
    forall p ensures HeldFor(s'.place, p) == HeldFor(s.place, p) {
    }
    hide RunningOf, HeldFor, Emptied;
    forall p ensures RunningOf(s'.running, p) == |HeldFor(s'.place, p)| {
      assert RunningOf(s.running, p) == |HeldFor(s.place, p)|;
    }
  }

  lemma VacatedRecorded(s: Scheduler, backends: set<Backend>, o: Outcome)
    requires Recorded(s)
    ensures Recorded(Vacated(s, backends, o))
  {
    hide Resolved, Emptied;
  }

  lemma DegradedKeeps(s: Scheduler, b: Backend, max: nat)
    requires Sound(s, max) && b in s.lanes
    ensures Sound(Degraded(s, b), max)
  {
    var r := Degraded(s, b);
    hide Exactly;
    DegradedLocated(s, b);
    DegradedLanes(s, b, max);
    DegradedStaffed(s, b);
    DegradedAlert(s, b);
    EmptiedCounted(s, r, {b});
    VacatedRecorded(s, {b}, Failed);
    hide Located, Counted, LanesOk, Staffed, Alert, Emptied, Resolved;
  }

  lemma DegradedLocated(s: Scheduler, b: Backend)
    requires Located(s)
    ensures Located(Degraded(s, b))
  {
    hide Exactly, Resolved, Emptied;
    Clears(s, Degraded(s, b), {b});
  }

  lemma DegradedLanes(s: Scheduler, b: Backend, max: nat)
    requires LanesOk(s, max) && b in s.lanes
    ensures LanesOk(Degraded(s, b), max)
  {
    EmptyOk(max);
    hide LaneOk, WellFormed, Resolved, Emptied;
  }

  lemma DegradedStaffed(s: Scheduler, b: Backend)
    requires Staffed(s) && b in s.lanes
    ensures Staffed(Degraded(s, b))
  {
    hide Resolved, Emptied;
  }

  lemma DegradedAlert(s: Scheduler, b: Backend)
    requires Alert(s)
    ensures Alert(Degraded(s, b))
  {
    assert WellFormed<JobId>(Empty()) && forall policy :: Next<JobId>(Empty(), policy).None?;
    hide WellFormed, Next, Resolved, Emptied;
  }

  // A worker going on.

  lemma DispatchedKeeps(s: Scheduler, w: WorkerId, weightOf: Key -> Weight, policy: Policy, max: nat)
    requires Sound(s, max) && w in s.tasks && Empty?(s.tasks[w].spot) && !s.tasks[w].spot.Done? && !s.tasks[w].cancelled
    requires w.backend in s.lanes && Next(s.lanes[w.backend], policy).Some?
    ensures Sound(Dispatched(s, w, weightOf, policy), max)
  {
    hide WellFormed, Located, Counted, Recorded, Staffed, Alert, Dispatched, Served;
    SoleWorker(s, w);
    DispatchedLocated(s, w, weightOf, policy);
    DispatchedCounted(s, w, weightOf, policy);
    DispatchedLanes(s, w, weightOf, policy, max);
    DispatchedStaffed(s, w, weightOf, policy);
    DispatchedWatched(s, w, weightOf, policy);
  }

  lemma EndedKeeps(s: Scheduler, w: WorkerId, ending: Ending, max: nat)
    requires Sound(s, max) && w in s.tasks && s.tasks[w].spot.Executing?
    ensures Sound(Ended(s, w, ending), max)
  {
    hide WellFormed, LanesOk, Located, Counted, Recorded, Staffed, Alert, Ended;
    EndedLocated(s, w, ending);
    EndedCounted(s, w, ending);
    EndedStaffed(s, w, ending, max);
    EndedWatched(s, w, ending);
  }

  lemma LoopedKeeps(s: Scheduler, w: WorkerId, f: Finding, max: nat)
    requires Sound(s, max) && w in s.tasks && Empty?(s.tasks[w].spot) && !s.tasks[w].spot.Done? && !s.tasks[w].cancelled
    ensures w.backend in s.lanes && WellFormed(s.lanes[w.backend]) && Sound(Looped(s, w, f), max)
  {
    var b := w.backend;
    SoleWorker(s, w);
    assert WellFormed(s.lanes[b]);
    if !s.stopped {
      if f.raises && s.lanes[b].order != [] {
        DegradedKeeps(s, b, max);
        assert Next<JobId>(Empty(), f.policy).None?;
        IdleKeeps(Degraded(s, b), w, f.policy, max);
      } else if Next(s.lanes[b], f.policy).None? {
        IdleKeeps(s, w, f.policy, max);
      } else {
        DispatchedKeeps(s, w, f.weightOf, f.policy, max);
      }
    }
    hide Sound, WellFormed, Degraded, Idle, Dispatched, Next;
  }

  lemma UnwoundKeeps(s: Scheduler, w: WorkerId, max: nat)
    requires Sound(s, max) && w in s.tasks && !s.tasks[w].spot.Done?
    ensures Sound(Unwound(s, w), max)
  {
    hide Sound, Ended, WithSpot;
    if s.tasks[w].spot.Executing? {
      EndedKeeps(s, w, Interrupted, max);
      EndedAtTop(s, w, Interrupted);
      DoneKeeps(Ended(s, w, Interrupted), w, max);
    } else {
      DoneKeeps(s, w, max);
    }
  }

  lemma EndedAtTop(s: Scheduler, w: WorkerId, ending: Ending)
    requires w in s.tasks && s.tasks[w].spot.Executing?
    ensures var r := Ended(s, w, ending); w in r.tasks && r.tasks[w] == Task(Top, s.tasks[w].cancelled)
    ensures Ended(s, w, ending).lanes == s.lanes
  {
  }

  lemma DegradedTask(s: Scheduler, b: Backend)
    ensures Degraded(s, b).tasks == s.tasks
  {
  }

  /** A worker that goes on always finds its lane and its executor. */
  lemma LaneFound(s: Scheduler, e: Event, max: nat)
    requires Sound(s, max) && Enabled(s, e, max) && e.Resume?
    ensures Ready(s, e)
  {
    hide Located, Counted, Recorded, Alert, WellFormed, LaneOk;
    if !Unwinds(s.tasks[e.worker], e.finding.ending) {
      SoleWorker(s, e.worker);
    }
  }

  lemma ResumedKeeps(s: Scheduler, w: WorkerId, f: Finding, max: nat)
    requires Sound(s, max) && w in s.tasks && !s.tasks[w].spot.Done?
    requires !Unwinds(s.tasks[w], f.ending) ==> w.backend in s.lanes && WellFormed(s.lanes[w.backend])
    ensures Sound(Resumed(s, w, f), max)
  {
    hide Sound, Ended, Degraded, Looped, Unwound, WellFormed;
    if Unwinds(s.tasks[w], f.ending) {
      UnwoundKeeps(s, w, max);
    } else if !s.tasks[w].spot.Executing? {
      LoopedKeeps(s, w, f, max);
    } else {
      var ended := Ended(s, w, f.ending);
      EndedKeeps(s, w, f.ending, max);
      EndedAtTop(s, w, f.ending);
      if f.ending.RaisedBase? {
        DegradedKeeps(ended, w.backend, max);
        DegradedTask(ended, w.backend);
        LoopedKeeps(Degraded(ended, w.backend), w, f, max);
      } else {
        LoopedKeeps(ended, w, f, max);
      }
    }
  }

  // Executors swapped.

  lemma UpdatedLanes(s: Scheduler, next: set<Backend>, serial: nat, max: nat)
    requires LanesOk(s, max)
    ensures LanesOk(Updated(s, next, serial), max)
  {
    EmptyOk(max);
    hide LaneOk, WellFormed, Resolved, Emptied, WorkersOf, StillRunning, Cancelling, Spawned, Assigned;
  }

  function Hiring(s: Scheduler, next: set<Backend>): set<Backend> {
    if s.started && !s.stopped then next - s.lanes.Keys else {}
  }

  lemma UpdatedTables(s: Scheduler, next: set<Backend>, serial: nat)
    ensures var r := Updated(s, next, serial); var removed, hired := s.executors - next, Hiring(s, next);
      && r.workers == (s.workers - removed) + Assigned(hired, serial)
      && r.retired == StillRunning(s) + WorkersOf(s, removed)
      && r.tasks == Cancelling(s.tasks, WorkersOf(s, removed)) + Spawned(hired, serial)
      && r.place == Emptied(s.place, removed) && r.awake == s.awake - removed
      && r.lanes.Keys == (s.lanes.Keys - removed) + (next - s.lanes.Keys)
      && (forall b :: b in r.lanes ==> r.lanes[b] == if b in s.lanes then s.lanes[b] else Empty())
      && r.started == s.started && r.stopped == s.stopped
  {
    hide WorkersOf, StillRunning, Emptied, Resolved, Assigned, Spawned, Cancelling;
  }

  lemma UpdatedList(s: Scheduler, next: set<Backend>, serial: nat, at: Place)
    requires s.executors == s.lanes.Keys && !at.Gone?
    requires forall b :: b in next ==> WorkerId(b, serial) !in s.tasks
    ensures ListOf(Updated(s, next, serial), at) == if In(at, s.executors - next) then [] else ListOf(s, at)
  {
    UpdatedTables(s, next, serial);
    hide Updated, WorkersOf;
    if at.Queued? {
      assert Waiting<JobId>(Empty(), at.profile) == [];
    }
  }

  lemma UpdatedLocated(s: Scheduler, next: set<Backend>, serial: nat)
    requires Located(s) && s.executors == s.lanes.Keys
    requires forall b :: b in next ==> WorkerId(b, serial) !in s.tasks
    ensures Located(Updated(s, next, serial))
  {
    UpdatedTables(s, next, serial);
    hide ListOf, Located, Updated, Exactly, Emptied, WorkersOf, StillRunning;
    var r, removed := Updated(s, next, serial), s.executors - next;
    forall at: Place | !at.Gone? ensures ListOf(r, at) == if In(at, removed) then [] else ListOf(s, at) {
      UpdatedList(s, next, serial, at);
    }
    Clears(s, r, removed);
  }

  lemma UpdatedRoster(s: Scheduler, next: set<Backend>, serial: nat, b: Backend)
    requires Rostered(s) && s.executors == s.lanes.Keys && b in Updated(s, next, serial).workers
    ensures var r := Updated(s, next, serial); r.workers[b] in r.tasks && r.workers[b].backend == b && b in r.lanes
  {
    UpdatedTables(s, next, serial);
    hide Updated, WorkersOf, StillRunning, Emptied;
  }

  lemma UpdatedRostered(s: Scheduler, next: set<Backend>, serial: nat)
    requires Rostered(s) && s.executors == s.lanes.Keys
    ensures Rostered(Updated(s, next, serial))
  {
    UpdatedTables(s, next, serial);
    hide Updated, Emptied;
    var r := Updated(s, next, serial);
    forall b | b in r.workers ensures r.workers[b] in r.tasks && r.workers[b].backend == b && b in r.lanes {
      UpdatedRoster(s, next, serial, b);
    }
    assert !r.started ==> r.tasks.Keys == {} && r.retired == {} && r.workers.Keys == {};
  }

  lemma UpdatedGoing(s: Scheduler, next: set<Backend>, serial: nat, w: WorkerId)
    requires Rostered(s) && Accounted(s) && s.executors == s.lanes.Keys
    requires forall b :: b in next ==> WorkerId(b, serial) !in s.tasks
    requires var r := Updated(s, next, serial); w in r.tasks && !r.tasks[w].spot.Done?
    ensures var r := Updated(s, next, serial);
      && (w in r.retired || (w.backend in r.workers && r.workers[w.backend] == w))
      && (r.stopped ==> r.tasks[w].cancelled)
  {
    UpdatedTables(s, next, serial);
    var removed := s.executors - next;
    assert w in s.tasks || w in Spawned(Hiring(s, next), serial);
    if w.backend in removed && w.backend in s.workers && s.workers[w.backend] == w {
      assert w in WorkersOf(s, removed);
    }
    hide Updated, WorkersOf;
  }

  lemma UpdatedRetired(s: Scheduler, next: set<Backend>, serial: nat, w: WorkerId)
    requires Rostered(s) && Accounted(s)
    requires forall b :: b in next ==> WorkerId(b, serial) !in s.tasks
    requires w in Updated(s, next, serial).retired
    ensures var r := Updated(s, next, serial); w in r.tasks && r.tasks[w].cancelled
  {
    UpdatedTables(s, next, serial);
    hide Updated;
  }

  lemma UpdatedAccounted(s: Scheduler, next: set<Backend>, serial: nat)
    requires Rostered(s) && Accounted(s) && s.executors == s.lanes.Keys
    requires forall b :: b in next ==> WorkerId(b, serial) !in s.tasks
    ensures Accounted(Updated(s, next, serial))
  {
    var r := Updated(s, next, serial);
    forall w | w in r.tasks && !r.tasks[w].spot.Done?
      ensures w in r.retired || (w.backend in r.workers && r.workers[w.backend] == w)
      ensures r.stopped ==> r.tasks[w].cancelled
    {
      UpdatedGoing(s, next, serial, w);
    }
    forall w | w in r.retired ensures w in r.tasks && r.tasks[w].cancelled {
      UpdatedRetired(s, next, serial, w);
    }
    hide Updated, Rostered;
  }

  lemma UpdatedAlert(s: Scheduler, next: set<Backend>, serial: nat)
    requires Alert(s) && Staffed(s) && s.executors == s.lanes.Keys
    requires forall b :: b in next ==> WorkerId(b, serial) !in s.tasks
    ensures Alert(Updated(s, next, serial))
  {
    UpdatedTables(s, next, serial);
    hide Updated, Emptied, WellFormed, Next, StillRunning;
    var r := Updated(s, next, serial);
    forall w | w in r.tasks && r.tasks[w].spot.Parked? && !r.tasks[w].cancelled && w.backend !in r.awake
      ensures w.backend in r.lanes && WellFormed(r.lanes[w.backend])
      ensures Next(r.lanes[w.backend], r.tasks[w].spot.policy).None?
    {
      assert w in s.tasks && s.tasks[w] == r.tasks[w];
      SoleWorker(s, w);
    }
  }

  lemma UpdatedRecorded(s: Scheduler, next: set<Backend>, serial: nat)
    requires Recorded(s) && Counted(s)
    ensures Recorded(Updated(s, next, serial)) && Counted(Updated(s, next, serial))
  {
    var removed := s.executors - next;
    EmptiedCounted(s, Updated(s, next, serial), removed);
    VacatedRecorded(s, removed, Outcome.Cancelled);
    hide Resolved, Emptied, Counted, WorkersOf, StillRunning, Cancelling, Spawned, Assigned;
  }

  // Starting, waking, cancelling.

  lemma StartLocated(s: Scheduler, serial: nat)
    requires Located(s) && s.tasks.Keys == {}
    ensures Located(Step(s, Start(serial)))
  {
    hide Exactly;
    Rests(s, Step(s, Start(serial)));
  }

  lemma StartStaffed(s: Scheduler, serial: nat)
    requires Staffed(s) && !s.started && !s.stopped && s.executors == s.lanes.Keys
    ensures Staffed(Step(s, Start(serial))) && Alert(Step(s, Start(serial)))
  {
    hide WellFormed, Next;
  }

  lemma StartTables(s: Scheduler, serial: nat, max: nat)
    requires LanesOk(s, max) && Counted(s) && Recorded(s)
    ensures var r := Step(s, Start(serial)); LanesOk(r, max) && Counted(r) && Recorded(r)
  {
    hide WellFormed, LaneOk;
  }

  /** Only flags, wake-ups and who is cancelled differ. */
  ghost predicate Flagged(s: Scheduler, s': Scheduler, these: set<WorkerId>) {
    && s'.tasks == Cancelling(s.tasks, these)
    && s' == s.(tasks := s'.tasks, awake := s'.awake, stopped := s'.stopped)
    && s'.awake == s.lanes.Keys
    && (s'.stopped && !s.stopped ==> WorkersOf(s, s.workers.Keys) + s.retired <= these)
    && (s.stopped ==> s'.stopped)
  }

  lemma FlaggedLocated(s: Scheduler, s': Scheduler, these: set<WorkerId>)
    requires Located(s) && Flagged(s, s', these)
    ensures Located(s')
  {
    hide Exactly;
    Rests(s, s');
  }

  lemma FlaggedTables(s: Scheduler, s': Scheduler, these: set<WorkerId>, max: nat)
    requires LanesOk(s, max) && Counted(s) && Recorded(s) && Flagged(s, s', these)
    ensures LanesOk(s', max) && Counted(s') && Recorded(s')
  {
    hide WellFormed, LaneOk, WorkersOf;
  }

  lemma FlaggedStaffed(s: Scheduler, s': Scheduler, these: set<WorkerId>)
    requires Staffed(s) && Flagged(s, s', these)
    ensures Staffed(s')
  {
  }

  lemma FlaggedAlert(s: Scheduler, s': Scheduler, these: set<WorkerId>)
    requires Staffed(s) && Flagged(s, s', these)
    ensures Alert(s')
  {
    hide WellFormed, Next, WorkersOf;
  }

  lemma CancellingKeeps(s: Scheduler, s': Scheduler, these: set<WorkerId>, max: nat)
    requires Sound(s, max) && Flagged(s, s', these)
    ensures Sound(s', max)
  {
    hide Located, LanesOk, Counted, Recorded, Staffed, Alert, Flagged;
    FlaggedLocated(s, s', these);
    FlaggedTables(s, s', these, max);
    FlaggedStaffed(s, s', these);
    FlaggedAlert(s, s', these);
  }

  // Shutdown.

  /** Every future ever handed out is resolved, and nothing is counted as running. */
  ghost predicate AllResolved(s: Scheduler) {
    s.finished && s.outcome.Keys == s.place.Keys && s.running.Keys == {}
  }

  /** Once the joined tasks are done, no task is left going. */
  lemma JoinedMeansDone(s: Scheduler, max: nat)
    requires Staffed(s) && Enabled(s, Joined, max)
    ensures forall w :: w in s.tasks ==> s.tasks[w].spot.Done?
  {
    forall w | w in s.tasks ensures s.tasks[w].spot.Done? {
      if w.backend in s.workers && s.workers[w.backend] == w {
        assert w in s.workers.Values;
      }
    }
  }

  lemma NobodyRunning(s: Scheduler)
    requires Counted(s) && forall j :: j in s.place ==> !s.place[j].Held?
    ensures s.running.Keys == {}
  {
    forall k ensures k !in s.running {
      assert HeldFor(s.place, k) == {};
      assert RunningOf(s.running, k) == |HeldFor(s.place, k)|;
    }
  }

  lemma AllQueued(s: Scheduler, max: nat)
    requires Sound(s, max) && forall w :: w in s.tasks ==> s.tasks[w].spot.Done?
    ensures forall j :: j in s.place && !s.place[j].Gone? ==> s.place[j].Queued? && s.place[j].backend in s.lanes
  {
    hide Staffed, Counted, Alert, Recorded, LanesOk;
    forall j | j in s.place && !s.place[j].Gone? ensures s.place[j].Queued? && s.place[j].backend in s.lanes {
      ListAt(s, s.place[j]);
      assert j in ListOf(s, s.place[j]);
    }
  }

  lemma FinishedRecorded(s: Scheduler)
    requires Recorded(s)
    requires forall j :: j in s.place && !s.place[j].Gone? ==> s.place[j].Queued? && s.place[j].backend in s.lanes
    ensures var r := Finished(s); r.finished && r.running == s.running && r.outcome.Keys == r.place.Keys
  {
    hide Hollow;
  }

  lemma FinishedResolves(s: Scheduler, max: nat)
    requires Sound(s, max) && Enabled(s, Joined, max)
    ensures AllResolved(Finished(s))
  {
    hide Located, Counted, Alert, Staffed, LanesOk, Enabled, Finished, Recorded;
    JoinedMeansDone(s, max);
    AllQueued(s, max);
    NobodyRunning(s);
    FinishedRecorded(s);
  }

  // Whole runs.

  /** The invariant while the scheduler lives; once it has stopped, that nothing is left to wait for. */
  ghost predicate Kept(s: Scheduler, max: nat) {
    AllResolved(s) || Sound(s, max)
  }

  lemma AbandonLocated(s: Scheduler, j: JobId)
    requires Located(s)
    ensures Located(Step(s, Abandon(j)))
  {
    hide Exactly;
    Rests(s, Step(s, Abandon(j)));
  }

  lemma AbandonTables(s: Scheduler, j: JobId, max: nat)
    requires LanesOk(s, max) && Counted(s) && Recorded(s) && j in s.place
    ensures var r := Step(s, Abandon(j)); LanesOk(r, max) && Counted(r) && Recorded(r)
  {
    hide WellFormed, LaneOk;
  }

  lemma AbandonStaffed(s: Scheduler, j: JobId)
    requires Staffed(s) && Alert(s)
    ensures Staffed(Step(s, Abandon(j))) && Alert(Step(s, Abandon(j)))
  {
    hide WellFormed, Next;
  }

  lemma AbandonKeeps(s: Scheduler, j: JobId, max: nat)
    requires Sound(s, max) && j in s.place
    ensures Sound(Step(s, Abandon(j)), max)
  {
    hide Located, Counted, Recorded, Alert, Staffed, LanesOk, Step;
    AbandonLocated(s, j);
    AbandonTables(s, j, max);
    AbandonStaffed(s, j);
  }

  lemma AbandonResolved(s: Scheduler, j: JobId)
    requires AllResolved(s) && j in s.place
    ensures AllResolved(Step(s, Abandon(j)))
  {
  }

  lemma UpdateKeeps(s: Scheduler, next: set<Backend>, serial: nat, max: nat)
    requires Sound(s, max) && forall b :: b in next ==> WorkerId(b, serial) !in s.tasks
    ensures Sound(Updated(s, next, serial), max)
  {
    hide Located, Counted, Recorded, Alert, Updated, WellFormed, LaneOk;
    UpdatedLocated(s, next, serial);
    UpdatedLanes(s, next, serial, max);
    UpdatedRostered(s, next, serial);
    UpdatedAccounted(s, next, serial);
    UpdatedAlert(s, next, serial);
    UpdatedRecorded(s, next, serial);
    hide Accounted, Rostered;
  }

  lemma StartKeeps(s: Scheduler, serial: nat, max: nat)
    requires Sound(s, max) && !s.started && !s.stopped
    ensures Sound(Step(s, Start(serial)), max)
  {
    hide Located, Counted, Recorded, Alert, Step, WellFormed, LaneOk, Accounted;
    StartLocated(s, serial);
    StartStaffed(s, serial);
    StartTables(s, serial, max);
  }

  lemma SubmitKeeps(s: Scheduler, b: Backend, k: Key, j: JobId, max: nat)
    requires Sound(s, max) && b in s.lanes && WellFormed(s.lanes[b]) && DepthIn(s.lanes[b]) < max && j !in s.place
    ensures Sound(Submitted(s, b, k, j), max)
  {
    hide Located, Counted, Recorded, Alert, Submitted, WellFormed, LaneOk, Staffed, LanesOk;
    SubmittedLocated(s, b, k, j);
    SubmittedCounted(s, b, k, j);
    SubmittedLanes(s, b, k, j, max);
    SubmittedStaffed(s, b, k, j);
    SubmittedWatched(s, b, k, j);
  }

  lemma FlagsKeep(s: Scheduler, e: Event, max: nat)
    requires Sound(s, max) && (e.Kick? || e.Stop?) && Enabled(s, e, max)
    ensures Sound(Step(s, e), max)
  {
    hide Sound;
    var these := if e.Stop? then WorkersOf(s, s.workers.Keys) + s.retired else {};
    assert s.tasks == Cancelling(s.tasks, {});
    CancellingKeeps(s, Step(s, e), these, max);
  }

  lemma SoundStep(s: Scheduler, e: Event, max: nat)
    requires Sound(s, max) && Enabled(s, e, max) && !e.Joined?
    ensures Ready(s, e) && Sound(Step(s, e), max)
  {
    hide Sound, Updated, Submitted, Resumed, WellFormed;
    match e
    case Start(serial) => StartKeeps(s, serial, max);
    case Submit(b, k, j) => SubmitKeeps(s, b, k, j, max);
    case Abandon(j) => AbandonKeeps(s, j, max);
    case Update(next, serial) => UpdateKeeps(s, next, serial, max);
    case Kick => FlagsKeep(s, e, max);
    case Resume(w, f) =>
      LaneFound(s, e, max);
      ResumedKeeps(s, w, f, max);
    case Stop => FlagsKeep(s, e, max);
  }

  /** Every step keeps it, and finds what it needs. */
  lemma StepKept(s: Scheduler, e: Event, max: nat)
    requires Kept(s, max) && Enabled(s, e, max)
    ensures Ready(s, e) && Kept(Step(s, e), max)
  {
    if AllResolved(s) {
      AbandonResolved(s, e.job);
    } else if e.Joined? {
      FinishedResolves(s, max);
    } else {
      SoundStep(s, e, max);
    }
    hide Sound, Step, AllResolved, Enabled;
  }
}
