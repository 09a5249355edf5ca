/**
 What each step of the store does, told by its tables before and after, and which objects a job holds, told by the
 events of a run; so that what no job loses under its hands is a statement about events.
 */
module StoreHistory {
  import opened ModelLoss
  import opened ModelStore
  import opened ModelTeardown
  import opened Placement
  import opened Prelude
  import opened StoreMeaning

  /** The cache, its lock and what is given up are as they were. */
  ghost predicate CacheStays(s: Store, r: Store) {
    r.entries == s.entries && r.section == s.section
  }

  /** Who is inside, what is parked and what is released or about to be are as they were. */
  ghost predicate JobsStay(s: Store, r: Store) {
    && r.inFlight == s.inFlight && r.inside == s.inside
    && r.pending == s.pending && r.draining == s.draining && r.released == s.released
  }

  /** The last one out takes what is parked with it. */
  ghost predicate GoesOut(s: Store, r: Store, j: JobId) {
    && CacheStays(s, r) && r.released == s.released
    && r.inside == s.inside - {j} && r.inFlight == s.inFlight - 1
    && if r.inFlight == 0 && s.pending != [] then r.pending == [] && r.draining == s.draining[j := s.pending]
       else r.pending == s.pending && r.draining == s.draining
  }

  /** The oldest of what the job took is released. */
  ghost predicate ReleasesOne(s: Store, r: Store, j: JobId)
    requires j in s.draining && s.draining[j] != []
  {
    && CacheStays(s, r) && r.inside == s.inside && r.inFlight == s.inFlight && r.pending == s.pending
    && r.released == s.released + [s.draining[j][0]]
    && (forall k :: k != j ==> (k in r.draining <==> k in s.draining) && (k in s.draining ==> r.draining[k] == s.draining[k]))
    && (if |s.draining[j]| == 1 then j !in r.draining else j in r.draining && r.draining[j] == s.draining[j][1..])
  }

  /** A fresh object is handed out at once, now the most recently used; for any other a build is begun. */
  ghost predicate LooksUp(s: Store, r: Store, caller: Caller, path: Path, revision: Option<Revision>) {
    && JobsStay(s, r)
    && if exists o :: Fresh(s.entries, path, revision, o) then
         r.section.Free? && exists o, rest ::
           Fresh(s.entries, path, revision, o) && OthersOf(s.entries, path, rest)
           && r.entries == rest + [Entry(path, revision.value, o)]
       else r.entries == s.entries && r.section == Building(caller, path, revision)
  }

  /** The new object is stored last and the oldest over the bound are to be given up; without a revision none is stored. */
  ghost predicate Stores(s: Store, r: Store, o: Object, max: nat)
    requires s.section.Building?
  {
    JobsStay(s, r) && exists rest :: OthersOf(s.entries, s.section.path, rest) && StoresBeside(s, r, o, rest, max)
  }

  ghost predicate StoresBeside(s: Store, r: Store, o: Object, rest: seq<Entry>, max: nat)
    requires s.section.Building?
  {
    var Building(caller, path, revision) := s.section;
    match revision
    case None => r.entries == rest && r.section.Free?
    case Some(v) =>
      && NewestOf(rest + [Entry(path, v, o)], max, r.entries)
      && r.section.Settling? && r.section.caller == caller && r.section.result == Some(o)
      && GivenAway(s.entries, path, rest, max, r.section.left)
  }

  /** What was stored under the path, then the oldest others over the bound. */
  ghost predicate GivenAway(entries: seq<Entry>, path: Path, rest: seq<Entry>, max: nat, left: seq<Object>) {
    exists stale: seq<Object>, over: nat ::
      && (forall o :: o in stale <==> exists r :: Entry(path, r, o) in entries) && |stale| <= 1
      && over <= |rest| && over == (if |rest| + 1 > max then |rest| + 1 - max else 0)
      && left == stale + Objects(rest[..over])
  }

  /** The first of what is given up is parked while anybody is inside, and else on its way to its library. */
  ghost predicate LooksAtCount(s: Store, r: Store)
    requires s.section.Settling? && s.section.left != []
  {
    var Settling(caller, result, left) := s.section;
    && r.entries == s.entries && r.inside == s.inside && r.inFlight == s.inFlight
    && r.draining == s.draining && r.released == s.released
    && if s.inside == {} then r.pending == s.pending && r.section == Tearing(caller, result, left[0], left[1..])
       else r.pending == s.pending + [left[0]] && r.section == Settling(caller, result, left[1..])
  }

  ghost predicate Does(s: Store, e: Event, r: Store, max: nat)
    requires Enabled(s, e)
  {
    match e
    case Enter(j) =>
      && CacheStays(s, r) && r.inside == s.inside + {j} && r.inFlight == s.inFlight + 1
      && r.pending == s.pending && r.draining == s.draining && r.released == s.released
    case Leave(j) => GoesOut(s, r, j)
    case Drain(j) => ReleasesOne(s, r, j)
    case Lookup(caller, path, revision) => LooksUp(s, r, caller, path, revision)
    case BuildFails => JobsStay(s, r) && r.entries == s.entries && r.section.Free?
    case Built(o) => Stores(s, r, o, max)
    case Check => LooksAtCount(s, r)
    case TearDown =>
      && r.released == s.released + [s.section.victim] && r.entries == s.entries
      && r.section == Settling(s.section.caller, s.section.result, s.section.left)
      && r.inside == s.inside && r.inFlight == s.inFlight && r.pending == s.pending && r.draining == s.draining
    case Return => JobsStay(s, r) && r.entries == s.entries && r.section.Free?
    case Close =>
      && JobsStay(s, r) && r.entries == [] && r.section.Settling? && r.section.result.None?
      && r.section.caller.Outsider?
      && |r.section.left| == |s.entries| && forall i :: 0 <= i < |s.entries| ==> r.section.left[i] == s.entries[i].value
  }

  lemma LookupDoes(s: Store, caller: Caller, path: Path, revision: Option<Revision>, max: nat)
    requires CacheOk(s.entries, max)
    ensures s.section.Free? ==> LooksUp(s, LookedUp(s, caller, path, revision), caller, path, revision)
  {
    HitExactly(s.entries, path, revision, max);
    if Hit(s.entries, path, revision) {
      var rest := HitMoves(s.entries, path, revision, max);
      var o := s.entries[Find(s.entries, path).value].value;
      assert Fresh(s.entries, path, revision, o);
      assert Touched(s.entries, Find(s.entries, path).value) == rest + [Entry(path, revision.value, o)];
    }
    hide Fresh, OthersOf, Hit, Touched, CacheOk;
  }

  lemma BuiltDoes(s: Store, o: Object, max: nat)
    requires CacheOk(s.entries, max) && s.section.Building? && max >= 1
    ensures Stores(s, BuiltObject(s, o, max), o, max)
  {
    var Building(caller, path, revision) := s.section;
    var rest := WithoutPath(s.entries, path);
    WithoutPathIs(s.entries, path);
    if revision.Some? {
      var entry := Entry(path, revision.value, o);
      KeptNewest(s.entries, entry, max);
      DisplacedIs(s.entries, entry, max);
      StoredIs(s.entries, path, max);
      GivenAwayIs(s.entries, path, rest, max);
    }
    hide OthersOf, NewestOf, GivenAway, Kept, Displaced, WithoutPath, CacheOk;
    assert OthersOf(s.entries, path, rest) && StoresBeside(s, BuiltObject(s, o, max), o, rest, max);
  }

  lemma GivenAwayIs(entries: seq<Entry>, path: Path, rest: seq<Entry>, max: nat)
    requires forall o :: o in StoredAt(entries, path) <==> exists r :: Entry(path, r, o) in entries
    requires max >= 1
    ensures var over := Surplus(|rest| + 1, max);
      over <= |rest| && GivenAway(entries, path, rest, max, StoredAt(entries, path) + Objects(rest[..over]))
  {
    hide StoredAt, Objects;
  }

  /** Every step comes to that. */
  lemma StepDoes(s: Store, e: Event, max: nat)
    requires Sound(s, max) && Enabled(s, e)
    ensures e.Leave? ==> s.inFlight > 0
    ensures Does(s, e, Step(s, e, max), max)
  {
    InsideCounted(s, e, max);
    if e.Lookup? {
      LookupDoes(s, e.caller, e.path, e.revision, max);
      hide LooksUp, LookedUp, Sound;
    } else if e.Built? {
      BuiltDoes(s, e.made, max);
      hide Stores, BuiltObject, Sound;
    } else {
      OtherDoes(s, e, max);
    }
  }

  lemma OtherDoes(s: Store, e: Event, max: nat)
    requires Enabled(s, e) && !e.Lookup? && !e.Built?
    requires e.Leave? ==> s.inFlight > 0
    requires s.inFlight == 0 <==> s.inside == {}
    ensures Does(s, e, Step(s, e, max), max)
  {
    hide LooksUp, Stores, Moved, LookedUp, BuiltObject;
  }

  lemma InsideCounted(s: Store, e: Event, max: nat)
    requires Sound(s, max) && Enabled(s, e)
    ensures e.Leave? ==> s.inFlight > 0
    ensures s.inFlight == 0 <==> s.inside == {}
  {
    hide Located, Shielded, CacheOk;
    if e.Leave? {
      assert e.job in s.inside;
    }
  }

  // What a job holds.

  /** In this event the job is handed this object: cached and fresh, built for it uncached, or built and settled. */
  ghost predicate HandsTo(s: Store, e: Event, j: JobId, o: Object) {
    match e
    case Lookup(caller, path, revision) => caller == Job(j) && Fresh(s.entries, path, revision, o)
    case Built(made) => s.section.Building? && s.section.caller == Job(j) && s.section.revision.None? && made == o
    case Return => s.section.Settling? && s.section.caller == Job(j) && s.section.result == Some(o)
    case _ => false
  }

  ghost predicate Holds(s: Store, j: JobId, o: Object) { j in s.obtained && o in s.obtained[j] }

  lemma LookupHands(s: Store, caller: Caller, path: Path, revision: Option<Revision>, j: JobId, o: Object, max: nat)
    requires CacheOk(s.entries, max) && (caller.Job? ==> caller.id in s.obtained)
    ensures Holds(LookedUp(s, caller, path, revision), j, o) <==>
      Holds(s, j, o) || (caller == Job(j) && Fresh(s.entries, path, revision, o))
  {
    HitExactly(s.entries, path, revision, max);
    if Hit(s.entries, path, revision) && Fresh(s.entries, path, revision, o) {
      OneFresh(s.entries, path, revision, o, s.entries[Find(s.entries, path).value].value, max);
    }
    hide Fresh, Hit, Touched, CacheOk;
  }

  /** A step leaves a job holding what it held, unless it leaves, and what the step hands it. */
  lemma StepHands(s: Store, e: Event, j: JobId, o: Object, max: nat)
    requires Sound(s, max) && Enabled(s, e) && (e.Leave? ==> s.inFlight > 0)
    ensures Holds(Step(s, e, max), j, o) <==> (e != Leave(j) && Holds(s, j, o)) || HandsTo(s, e, j, o)
  {
    CallerHolds(s, e, max);
    hide Located, Shielded, CacheOk, Fresh, Moved, Hit, Touched, Find, LookedUp, WithoutPath, Kept, Displaced, StoredAt;
    if e.Lookup? {
      LookupHands(s, e.caller, e.path, e.revision, j, o, max);
    }
  }

  lemma CallerHolds(s: Store, e: Event, max: nat)
    requires Sound(s, max) && Enabled(s, e)
    ensures SectionCaller(s.section).Job? ==> SectionCaller(s.section).id in s.obtained
    ensures e.Lookup? && e.caller.Job? ==> e.caller.id in s.obtained
    ensures e.Enter? ==> e.job !in s.obtained
  {
    hide Located, Shielded, CacheOk;
  }

  /** Handed to the job by one of the first `n` events, and the job has not left since. */
  ghost predicate HandedSince(events: seq<Event>, states: seq<Store>, n: nat, j: JobId, o: Object)
    requires n <= |events| <= |states|
  {
    exists i: nat :: i < n && HandsTo(states[i], events[i], j, o) && Remains(events, i, n, j)
  }

  ghost predicate Remains(events: seq<Event>, i: nat, n: nat, j: JobId)
    requires n <= |events|
  {
    forall m :: i < m < n ==> events[m] != Leave(j)
  }

  /** A job holds exactly what the events since it came in handed it. */
  lemma {:induction false} HoldsExactly(events: seq<Event>, states: seq<Store>, n: nat, j: JobId, o: Object, max: nat)
    requires Trace(events, states, max) && n <= |events| && max >= 1
    ensures Holds(states[n], j, o) <==> HandedSince(events, states, n, j, o)
  {
    hide Follows, HandsTo, Holds, Sound, Step, Enabled, Initial;
    if n == 0 {
      NobodyHolds(j, o);
    } else {
      HoldsExactly(events, states, n - 1, j, o, max);
      TraceSound(events, states, n - 1, max);
      FollowsIs(states[n - 1], events[n - 1], states[n], max);
      StepHands(states[n - 1], events[n - 1], j, o, max);
      OneMore(events, states, n, j, o);
    }
  }

  lemma NobodyHolds(j: JobId, o: Object)
    ensures !Holds(Initial(), j, o)
  {
  }

  lemma FollowsIs(s: Store, e: Event, next: Store, max: nat)
    requires Follows(s, e, next, max)
    ensures Enabled(s, e) && (e.Leave? ==> s.inFlight > 0) && next == Step(s, e, max)
  {
  }

  lemma LeaverGetsNothing(s: Store, j: JobId, o: Object)
    ensures !HandsTo(s, Leave(j), j, o)
  {
  }

  lemma OneMore(events: seq<Event>, states: seq<Store>, n: nat, j: JobId, o: Object)
    requires 0 < n <= |events| <= |states|
    ensures HandedSince(events, states, n, j, o) <==>
      (events[n - 1] != Leave(j) && HandedSince(events, states, n - 1, j, o)) ||
      HandsTo(states[n - 1], events[n - 1], j, o)
  {
    LeaverGetsNothing(states[n - 1], j, o);
    hide HandsTo;
    if HandedSince(events, states, n, j, o) {
      var i: nat :| i < n && HandsTo(states[i], events[i], j, o) && Remains(events, i, n, j);
      if i < n - 1 {
        assert Remains(events, i, n - 1, j);
      }
    }
    if events[n - 1] != Leave(j) && HandedSince(events, states, n - 1, j, o) {
      var i: nat :| i < n - 1 && HandsTo(states[i], events[i], j, o) && Remains(events, i, n - 1, j);
      assert Remains(events, i, n, j);
    }
    if HandsTo(states[n - 1], events[n - 1], j, o) {
      assert Remains(events, n - 1, n, j);
    }
  }

  /**
   Over every interleaving: what an event handed a job inside `running()` is, until the job leaves, neither released
   nor being torn down nor taken out for release.
   */
  lemma HandedIsSafe(events: seq<Event>, states: seq<Store>, n: nat, j: JobId, o: Object, max: nat)
    requires Trace(events, states, max) && n <= |events| && max >= 1 && HandedSince(events, states, n, j, o)
    ensures o !in states[n].released
    ensures states[n].section.Tearing? ==> o != states[n].section.victim
    ensures forall k :: k in states[n].draining ==> o !in states[n].draining[k]
  {
    HoldsExactly(events, states, n, j, o, max);
    TraceIsRun(events, states, n, max);
    NeverUnderAJob(events[..n], states[n], max);
    hide Trace, HandedSince, Run;
  }
}
