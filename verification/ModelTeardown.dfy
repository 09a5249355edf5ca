/**
 Every interleaving of job entry and exit, lookup, build, eviction, replacement and close over one model
 store, and what it never does: tear an object down under a job that holds it, twice, or never.
 */
module ModelTeardown {
  import opened ModelStore
  import opened Placement
  import opened Prelude

  /** Who calls into the cache: a job inside `running()`, or anyone else. */
  datatype Caller = Job(id: JobId) | Outsider

  /**
   Where the holder of the cache lock stands. `Settling`: the cache is already updated and `left` must
   still be handed to the releaser; `Tearing`: the releaser found no job in flight and is inside the
   native teardown of `victim`.
   */
  datatype Section =
    | Free
    | Building(caller: Caller, path: Path, revision: Option<Revision>)
    | Settling(caller: Caller, result: Option<Object>, left: seq<Object>)
    | Tearing(caller: Caller, result: Option<Object>, victim: Object, left: seq<Object>)

  /** Where an object that was ever built is now. `Loose`: built for a path that could not be revalidated, never cached. */
  datatype Place = Cached | Displacing | TornNow | Parked | Draining(job: JobId) | Released | Dropped | Loose

  datatype Store = Store(
    entries: seq<Entry>,
    inFlight: nat,
    pending: seq<Object>,
    section: Section,
    draining: map<JobId, seq<Object>>,
    inside: set<JobId>,
    obtained: map<JobId, set<Object>>,
    place: map<Object, Place>,
    released: seq<Object>)

  function Initial(): Store {
    Store([], 0, [], Free, map[], {}, map[], map[], [])
  }

  /** The caller takes hold of an object; only a job inside `running()` is followed. */
  function Handed(obtained: map<JobId, set<Object>>, caller: Caller, o: Object): map<JobId, set<Object>> {
    if caller.Job? && caller.id in obtained then obtained[caller.id := obtained[caller.id] + {o}] else obtained
  }

  datatype Event =
    | Enter(job: JobId)
    | Leave(job: JobId)
    | Drain(job: JobId)
    | Lookup(caller: Caller, path: Path, revision: Option<Revision>)
    | BuildFails
    | Built(made: Object)
    | Check
    | TearDown
    | Return
    | Close

  function SectionCaller(section: Section): Caller {
    match section
    case Free => Outsider
    case Building(caller, _, _) => caller
    case Settling(caller, _, _) => caller
    case Tearing(caller, _, _, _) => caller
  }

  predicate Enabled(s: Store, e: Event) {
    match e
    case Enter(j) => j !in s.inside && j !in s.draining
    case Leave(j) => j in s.inside && SectionCaller(s.section) != Job(j)
    case Drain(j) => j in s.draining && s.draining[j] != []
    case Lookup(caller, _, _) => s.section.Free? && (caller.Job? ==> caller.id in s.inside)
    case BuildFails => s.section.Building?
    case Built(o) => s.section.Building? && o !in s.place
    case Check => s.section.Settling? && s.section.left != []
    case TearDown => s.section.Tearing?
    case Return => s.section.Settling? && s.section.left == []
    case Close => s.section.Free?
  }

  // The steps.

  function Entered(s: Store, j: JobId): Store {
    s.(inFlight := s.inFlight + 1, inside := s.inside + {j}, obtained := s.obtained[j := {}])
  }

  /** The last job to leave takes what was parked and must release it. */
  function LeftBy(s: Store, j: JobId): Store
    requires s.inFlight > 0
  {
    var out := s.(inFlight := s.inFlight - 1, inside := s.inside - {j}, obtained := s.obtained - {j});
    if out.inFlight == 0 && s.pending != [] then
      out.(pending := [], draining := s.draining[j := s.pending], place := Moved(s.place, s.pending, Draining(j)))
    else out
  }

  function Drained(s: Store, j: JobId): Store
    requires j in s.draining && s.draining[j] != []
  {
    var queue := s.draining[j];
    s.(draining := if |queue| == 1 then s.draining - {j} else s.draining[j := queue[1..]],
      released := s.released + [queue[0]],
      place := s.place[queue[0] := Released])
  }

  function LookedUp(s: Store, caller: Caller, path: Path, revision: Option<Revision>): Store {
    if Hit(s.entries, path, revision) then
      var i := Find(s.entries, path).value;
      s.(entries := Touched(s.entries, i), obtained := Handed(s.obtained, caller, s.entries[i].value))
    else s.(section := Building(caller, path, revision))
  }

  /** A build that finished: cached and displacing others, or, with no revision to go by, handed out loose. */
  function BuiltObject(s: Store, o: Object, max: nat): Store
    requires s.section.Building?
  {
    var Building(caller, path, revision) := s.section;
    match revision
    case None =>
      s.(entries := WithoutPath(s.entries, path),
        section := Free,
        obtained := Handed(s.obtained, caller, o),
        place := Moved(s.place, StoredAt(s.entries, path), Dropped)[o := Loose])
    case Some(r) =>
      var entry := Entry(path, r, o);
      var displaced := Displaced(s.entries, entry, max);
      s.(entries := Kept(s.entries, entry, max),
        section := Settling(caller, Some(o), displaced),
        place := Moved(s.place, displaced, Displacing)[o := Cached])
  }

  /** The releaser looks at the in-flight count: park, or go on to tear down. */
  function Checked(s: Store): Store
    requires s.section.Settling? && s.section.left != []
  {
    var Settling(caller, result, left) := s.section;
    if s.inFlight > 0 then
      s.(pending := s.pending + [left[0]],
        section := Settling(caller, result, left[1..]),
        place := s.place[left[0] := Parked])
    else
      s.(section := Tearing(caller, result, left[0], left[1..]), place := s.place[left[0] := TornNow])
  }

  function Torn(s: Store): Store
    requires s.section.Tearing?
  {
    var Tearing(caller, result, o, left) := s.section;
    s.(section := Settling(caller, result, left), released := s.released + [o], place := s.place[o := Released])
  }

  function Returned(s: Store): Store
    requires s.section.Settling?
  {
    var Settling(caller, result, left) := s.section;
    s.(section := Free,
      obtained := if result.Some? then Handed(s.obtained, caller, result.value) else s.obtained)
  }

  function Closed(s: Store): Store {
    s.(entries := [],
      section := Settling(Outsider, None, Objects(s.entries)),
      place := Moved(s.place, Objects(s.entries), Displacing))
  }

  function Step(s: Store, e: Event, max: nat): Store
    requires Enabled(s, e) && (e.Leave? ==> s.inFlight > 0)
  {
    match e
    case Enter(j) => Entered(s, j)
    case Leave(j) => LeftBy(s, j)
    case Drain(j) => Drained(s, j)
    case Lookup(caller, path, revision) => LookedUp(s, caller, path, revision)
    case BuildFails => s.(section := Free)
    case Built(o) => BuiltObject(s, o, max)
    case Check => Checked(s)
    case TearDown => Torn(s)
    case Return => Returned(s)
    case Close => Closed(s)
  }

  // The invariant.

  /** Where the objects at each place are to be found. */
  function ListOf(s: Store, at: Place): seq<Object> {
    match at
    case Cached => Objects(s.entries)
    case Displacing => if s.section.Settling? || s.section.Tearing? then s.section.left else []
    case TornNow => if s.section.Tearing? then [s.section.victim] else []
    case Parked => s.pending
    case Draining(j) => if j in s.draining then s.draining[j] else []
    case Released => s.released
    case Dropped => []
    case Loose => []
  }

  predicate Kept?(at: Place) { !at.Dropped? && !at.Loose? }

  ghost predicate Located(s: Store) {
    && (forall at :: Kept?(at) ==> Exactly(ListOf(s, at), s.place, at))
    && (forall j :: j in s.draining ==> s.draining[j] != [])
  }

  predicate Gone(place: Place) { place.TornNow? || place.Draining? || place.Released? }

  predicate Serving?(section: Section) { section.Settling? || section.Tearing? }

  /** The count is of the jobs inside, nothing is parked for nobody, and a caller in the cache stays inside. */
  ghost predicate Counted(s: Store) {
    && s.inFlight == |s.inside|
    && s.obtained.Keys == s.inside
    && (forall j :: j in s.inside ==> j !in s.draining)
    && (s.inFlight == 0 ==> s.pending == [])
    && (SectionCaller(s.section).Job? ==> SectionCaller(s.section).id in s.inside)
  }

  /** No object a job inside holds, or is about to be handed, is being or has been torn down. */
  ghost predicate Shielded(s: Store) {
    && (forall j, o :: j in s.obtained && o in s.obtained[j] ==> o in s.place && !Gone(s.place[o]))
    && (Serving?(s.section) && s.section.result.Some? ==>
          s.section.result.value in s.place && s.place[s.section.result.value] == Cached)
  }

  ghost predicate Sound(s: Store, max: nat) {
    max >= 1 && CacheOk(s.entries, max) && Located(s) && Counted(s) && Shielded(s)
  }

  lemma ListAt(s: Store, at: Place)
    requires Located(s) && Kept?(at)
    ensures Exactly(ListOf(s, at), s.place, at)
  {
  }

  // Moving objects between places.

  /** One object moved: the lists of other places are as before, so only the two it moves between matter. */
  lemma MovedOne(s: Store, s': Store, o: Object, from: Place, to: Place)
    requires Located(s) && o in s.place && s.place[o] == from && s'.place == s.place[o := to]
    requires forall at :: Kept?(at) && at != from && at != to ==> ListOf(s', at) == ListOf(s, at)
    requires Exactly(ListOf(s', from), s'.place, from) && Exactly(ListOf(s', to), s'.place, to)
    requires forall j :: j in s'.draining ==> s'.draining[j] != []
    ensures Located(s')
  {
    hide Exactly, ListOf;
    forall at | Kept?(at) ensures Exactly(ListOf(s', at), s'.place, at) {
      if at != from && at != to {
        Stay(ListOf(s, at), s.place, o, to, at);
      }
    }
  }

  /** Nothing moved. */
  lemma MovedNone(s: Store, s': Store)
    requires Located(s) && s'.place == s.place && s'.draining == s.draining
    requires forall at :: Kept?(at) ==> ListOf(s', at) == ListOf(s, at)
    ensures Located(s')
  {
    hide Exactly, ListOf;
  }

  /** A whole list moved from one place to an empty one. */
  lemma MovedList(s: Store, s': Store, from: Place, to: Place)
    requires Located(s) && Kept?(from) && Kept?(to) && from != to && ListOf(s, to) == []
    requires s'.place == Moved(s.place, ListOf(s, from), to)
    requires ListOf(s', from) == [] && ListOf(s', to) == ListOf(s, from)
    requires forall at :: Kept?(at) && at != from && at != to ==> ListOf(s', at) == ListOf(s, at)
    requires forall j :: j in s'.draining ==> s'.draining[j] != []
    ensures Located(s')
  {
    var moved := ListOf(s, from);
    GainAll(s.place, moved, from, to);
    assert Exactly(moved, s.place, from);
    assert forall o :: o in moved ==> o in s.place && s.place[o] == from;
    hide Exactly, ListOf, Moved;
    forall at | Kept?(at) ensures Exactly(ListOf(s', at), s'.place, at) {
      if at != from && at != to {
        StayAll(ListOf(s, at), s.place, moved, to, at);
      }
    }
  }

  // Each step keeps it: where the objects are, who is counted, what is shielded.

  lemma EnterLocated(s: Store, j: JobId)
    requires Located(s)
    ensures Located(Entered(s, j))
  {
    hide Exactly;
    MovedNone(s, Entered(s, j));
  }

  lemma EnterCounted(s: Store, j: JobId)
    requires Counted(s) && Enabled(s, Enter(j))
    ensures Counted(Entered(s, j))
  {
  }

  lemma EnterShielded(s: Store, j: JobId)
    requires Shielded(s)
    ensures Shielded(Entered(s, j))
  {
  }

  lemma LeaveLocated(s: Store, j: JobId)
    requires Located(s) && Counted(s) && Enabled(s, Leave(j)) && s.inFlight > 0
    ensures Located(LeftBy(s, j))
  {
    hide Exactly;
    var out := LeftBy(s, j);
    if out.inFlight == 0 && s.pending != [] {
      MovedList(s, out, Parked, Draining(j));
    } else {
      MovedNone(s, out);
    }
  }

  lemma LeaveCounted(s: Store, j: JobId)
    requires Counted(s) && Enabled(s, Leave(j))
    ensures s.inFlight > 0 && Counted(LeftBy(s, j))
  {
    assert |s.inside - {j}| == |s.inside| - 1;
    if |s.inside| == 1 {
      assert s.inside - {j} == {};
    }
  }

  lemma LeaveShielded(s: Store, j: JobId)
    requires Counted(s) && Shielded(s) && Exactly(s.pending, s.place, Parked) && Enabled(s, Leave(j)) && s.inFlight > 0
    ensures Shielded(LeftBy(s, j))
  {
    LeaveCounted(s, j);
    var out := LeftBy(s, j);
    assert out.inFlight == 0 ==> out.obtained.Keys == {};
    hide Counted;
  }

  lemma DrainLocated(s: Store, j: JobId)
    requires Located(s) && Enabled(s, Drain(j))
    ensures s.draining[j][0] in s.place && s.place[s.draining[j][0]] == Draining(j)
    ensures Located(Drained(s, j))
  {
    var o, out := s.draining[j][0], Drained(s, j);
    ListAt(s, Draining(j));
    ListAt(s, Released);
    LoseFirst(s.draining[j], s.place, Released, Draining(j));
    Gain(s.released, s.place, o, Released);
    hide Exactly;
    MovedOne(s, out, o, Draining(j), Released);
  }

  lemma DrainGuarded(s: Store, j: JobId)
    requires Counted(s) && Shielded(s) && Enabled(s, Drain(j))
    requires s.draining[j][0] in s.place && s.place[s.draining[j][0]] == Draining(j)
    ensures Counted(Drained(s, j)) && Shielded(Drained(s, j))
  {
  }

  lemma LookupLocated(s: Store, caller: Caller, path: Path, revision: Option<Revision>, max: nat)
    requires Located(s) && CacheOk(s.entries, max) && Enabled(s, Lookup(caller, path, revision))
    ensures Located(LookedUp(s, caller, path, revision)) && CacheOk(LookedUp(s, caller, path, revision).entries, max)
  {
    var out := LookedUp(s, caller, path, revision);
    if Hit(s.entries, path, revision) {
      TouchedOk(s.entries, Find(s.entries, path).value, max);
    }
    ListAt(s, Cached);
    assert Exactly(Objects(out.entries), out.place, Cached);
    hide Exactly, CacheOk, Touched, Objects, Hit;
    forall at | Kept?(at) ensures Exactly(ListOf(out, at), out.place, at) {
      ListAt(s, at);
    }
  }

  lemma LookupGuarded(s: Store, caller: Caller, path: Path, revision: Option<Revision>)
    requires Counted(s) && Shielded(s) && Exactly(Objects(s.entries), s.place, Cached)
    requires Enabled(s, Lookup(caller, path, revision))
    ensures Counted(LookedUp(s, caller, path, revision)) && Shielded(LookedUp(s, caller, path, revision))
  {
    if Hit(s.entries, path, revision) {
      var i := Find(s.entries, path).value;
      assert Objects(s.entries)[i] == s.entries[i].value;
      assert s.entries[i].value in Objects(s.entries);
    }
  }

  lemma BuildFailsKeeps(s: Store)
    requires Located(s) && Counted(s) && Shielded(s) && s.section.Building?
    ensures Located(s.(section := Free)) && Counted(s.(section := Free)) && Shielded(s.(section := Free))
  {
    assert Located(s.(section := Free)) by {
      hide Exactly, Counted, Shielded;
      MovedNone(s, s.(section := Free));
    }
    hide Located;
  }

  lemma LooseLocated(s: Store, o: Object, max: nat)
    requires Located(s) && CacheOk(s.entries, max) && Enabled(s, Built(o)) && s.section.revision.None?
    ensures Located(BuiltObject(s, o, max)) && CacheOk(BuiltObject(s, o, max).entries, max)
  {
    var out, stored := BuiltObject(s, o, max), StoredAt(s.entries, s.section.path);
    WithoutPathOk(s.entries, s.section.path, max);
    ListAt(s, Cached);
    assert Exactly(Objects(out.entries), out.place, Cached);
    hide Exactly, CacheOk, Objects, StoredAt, WithoutPath;
    forall at | Kept?(at) ensures Exactly(ListOf(out, at), out.place, at) {
      if at != Cached {
        ListAt(s, at);
        StayAll(ListOf(s, at), s.place, stored, Dropped, at);
        Stay(ListOf(s, at), Moved(s.place, stored, Dropped), o, Loose, at);
      }
    }
  }

  /** A cached build: what it displaces is the old object under the path and the oldest over the bound. */
  lemma CachedLocated(s: Store, o: Object, max: nat)
    requires Located(s) && CacheOk(s.entries, max) && max >= 1 && Enabled(s, Built(o)) && s.section.revision.Some?
    ensures Located(BuiltObject(s, o, max)) && CacheOk(BuiltObject(s, o, max).entries, max)
  {
    var entry := Entry(s.section.path, s.section.revision.value, o);
    var out, displaced := BuiltObject(s, o, max), Displaced(s.entries, entry, max);
    ListAt(s, Cached);
    KeptOk(s.entries, entry, max);
    ListAt(s, Displacing);
    assert Exactly(Objects(out.entries), out.place, Cached);
    assert Exactly(displaced, out.place, Displacing);
    hide Exactly, CacheOk, Objects, Displaced, Kept;
    forall at | Kept?(at) ensures Exactly(ListOf(out, at), out.place, at) {
      if at != Cached && at != Displacing {
        ListAt(s, at);
        StayAll(ListOf(s, at), s.place, displaced, Displacing, at);
        Stay(ListOf(s, at), Moved(s.place, displaced, Displacing), o, Cached, at);
      }
    }
  }

  lemma BuiltCounted(s: Store, o: Object, max: nat)
    requires Counted(s) && Enabled(s, Built(o))
    ensures Counted(BuiltObject(s, o, max))
  {
    hide Objects, StoredAt, WithoutPath, Displaced, Kept, Moved;
  }

  lemma BuiltShielded(s: Store, o: Object, max: nat)
    requires Shielded(s) && Enabled(s, Built(o))
    ensures Shielded(BuiltObject(s, o, max))
  {
    hide Objects, StoredAt, WithoutPath, Displaced, Kept;
  }

  lemma CheckLocated(s: Store)
    requires Located(s) && Enabled(s, Check)
    ensures s.section.left[0] in s.place && s.place[s.section.left[0]] == Displacing
    ensures Located(Checked(s))
  {
    var o, out, to := s.section.left[0], Checked(s), if s.inFlight > 0 then Parked else TornNow;
    ListAt(s, Displacing);
    ListAt(s, to);
    LoseFirst(s.section.left, s.place, to, Displacing);
    Gain(ListOf(s, to), s.place, o, to);
    assert [] + [o] == [o];
    hide Exactly;
    MovedOne(s, out, o, Displacing, to);
  }

  lemma CheckGuarded(s: Store)
    requires Counted(s) && Shielded(s) && Enabled(s, Check)
    requires s.section.left[0] in s.place && s.place[s.section.left[0]] == Displacing
    ensures Counted(Checked(s)) && Shielded(Checked(s))
  {
    assert s.inFlight == 0 ==> s.obtained.Keys == {};
  }

  lemma TearDownLocated(s: Store)
    requires Located(s) && Enabled(s, TearDown)
    ensures s.section.victim in s.place && s.place[s.section.victim] == TornNow
    ensures Located(Torn(s))
  {
    var o, out := s.section.victim, Torn(s);
    ListAt(s, TornNow);
    ListAt(s, Released);
    assert [o][0] == o && [o][1..] == [];
    LoseFirst([o], s.place, Released, TornNow);
    Gain(s.released, s.place, o, Released);
    hide Exactly;
    MovedOne(s, out, o, TornNow, Released);
  }

  lemma TearDownGuarded(s: Store)
    requires Counted(s) && Shielded(s) && Enabled(s, TearDown)
    requires s.section.victim in s.place && s.place[s.section.victim] == TornNow
    ensures Counted(Torn(s)) && Shielded(Torn(s))
  {
  }

  lemma ReturnKeeps(s: Store)
    requires Located(s) && Counted(s) && Shielded(s) && Enabled(s, Return)
    ensures Located(Returned(s)) && Counted(Returned(s)) && Shielded(Returned(s))
  {
    assert Located(Returned(s)) by {
      hide Exactly, Counted, Shielded;
      MovedNone(s, Returned(s));
    }
    hide Located;
  }

  lemma CloseLocated(s: Store)
    requires Located(s) && Enabled(s, Close)
    ensures Located(Closed(s))
  {
    hide Exactly;
    MovedList(s, Closed(s), Cached, Displacing);
  }

  lemma CloseGuarded(s: Store)
    requires Counted(s) && Shielded(s) && Enabled(s, Close)
    ensures Counted(Closed(s)) && Shielded(Closed(s))
  {
    hide Objects;
  }

  /** Only a lookup, a build and a close touch the entries. */
  lemma EntriesOk(s: Store, e: Event, max: nat)
    requires CacheOk(s.entries, max) && Enabled(s, e) && (e.Leave? ==> s.inFlight > 0) && !e.Lookup? && !e.Built?
    ensures CacheOk(Step(s, e, max).entries, max)
  {
    hide Objects, Moved;
  }

  /** Every step of every thread keeps the invariant. */
  lemma StepSound(s: Store, e: Event, max: nat)
    requires Sound(s, max) && Enabled(s, e)
    ensures (e.Leave? ==> s.inFlight > 0) && Sound(Step(s, e, max), max)
  {
    hide Located, Counted, Shielded, CacheOk, Exactly, Moved;
    hide Entered, LeftBy, Drained, LookedUp, BuiltObject, Checked, Torn, Returned, Closed;
    if !e.Lookup? && !e.Built? && (e.Leave? ==> s.inFlight > 0) {
      EntriesOk(s, e, max);
    }
    match e
    case Enter(j) =>
      EnterLocated(s, j);
      EnterCounted(s, j);
      EnterShielded(s, j);
    case Leave(j) =>
      LeaveCounted(s, j);
      LeaveLocated(s, j);
      ListAt(s, Parked);
      LeaveShielded(s, j);
    case Drain(j) =>
      DrainLocated(s, j);
      DrainGuarded(s, j);
    case Lookup(caller, path, revision) =>
      LookupLocated(s, caller, path, revision, max);
      ListAt(s, Cached);
      LookupGuarded(s, caller, path, revision);
    case BuildFails => BuildFailsKeeps(s);
    case Built(o) =>
      if s.section.revision.None? {
        LooseLocated(s, o, max);
      } else {
        CachedLocated(s, o, max);
      }
      BuiltCounted(s, o, max);
      BuiltShielded(s, o, max);
    case Check =>
      CheckLocated(s);
      CheckGuarded(s);
    case TearDown =>
      TearDownLocated(s);
      TearDownGuarded(s);
    case Return => ReturnKeeps(s);
    case Close =>
      CloseLocated(s);
      CloseGuarded(s);
  }

  // Whole runs.

  /** A run of the store from `s`: every event possible when it happens, and where they lead. */
  ghost predicate Run(s: Store, events: seq<Event>, out: Store, max: nat)
    decreases |events|
  {
    if events == [] then out == s
    else
      && Enabled(s, events[0])
      && (events[0].Leave? ==> s.inFlight > 0)
      && Run(Step(s, events[0], max), events[1..], out, max)
  }

  lemma {:induction false} RunSound(s: Store, events: seq<Event>, out: Store, max: nat)
    requires Sound(s, max) && Run(s, events, out, max)
    ensures Sound(out, max)
    decreases |events|
  {
    hide Sound, Step, Enabled;
    if events != [] {
      StepSound(s, events[0], max);
      RunSound(Step(s, events[0], max), events[1..], out, max);
    }
  }

  lemma InitialSound(max: nat)
    requires max >= 1
    ensures Sound(Initial(), max)
  {
  }

  /**
   Over every interleaving: no object a job obtained inside `running()` is released, being torn down, or
   taken out for release while that job is inside; none is released twice; nothing is parked with no job
   in flight; and the in-flight count is the number of jobs inside.
   */
  lemma NeverUnderAJob(events: seq<Event>, s: Store, max: nat)
    requires max >= 1 && Run(Initial(), events, s, max)
    ensures s.obtained.Keys == s.inside && s.inFlight == |s.inside|
    ensures forall j, o :: j in s.inside && o in s.obtained[j] ==> o !in s.released
    ensures forall j, o :: j in s.inside && o in s.obtained[j] && s.section.Tearing? ==> o != s.section.victim
    ensures forall j, o, k :: j in s.inside && o in s.obtained[j] && k in s.draining ==> o !in s.draining[k]
    ensures Distinct(s.released)
    ensures s.inFlight == 0 ==> s.pending == []
  {
    InitialSound(max);
    RunSound(Initial(), events, s, max);
    ListAt(s, Released);
    ListAt(s, TornNow);
    forall k | k in s.draining ensures Exactly(s.draining[k], s.place, Draining(k)) {
      ListAt(s, Draining(k));
    }
    hide Located, CacheOk, Run;
    assert s.section.Tearing? ==> s.section.victim in ListOf(s, TornNow);
  }

  /** A lookup never hands out an object that was released or that anything is about to release. */
  lemma LookupNeverReleased(events: seq<Event>, s: Store, path: Path, revision: Option<Revision>, max: nat)
    requires max >= 1 && Run(Initial(), events, s, max) && Hit(s.entries, path, revision)
    ensures var o := s.entries[Find(s.entries, path).value].value;
      o !in s.released && o !in s.pending && forall k :: k in s.draining ==> o !in s.draining[k]
  {
    InitialSound(max);
    RunSound(Initial(), events, s, max);
    ListAt(s, Released);
    ListAt(s, Parked);
    ListAt(s, Cached);
    forall k | k in s.draining ensures Exactly(s.draining[k], s.place, Draining(k)) {
      ListAt(s, Draining(k));
    }
    hide Located, CacheOk, Run;
    var i := Find(s.entries, path).value;
    assert Objects(s.entries)[i] == s.entries[i].value;
    assert s.entries[i].value in Objects(s.entries);
  }

  /** Nobody is in the cache or in a job, no leaver is still releasing, and the cache is empty. */
  ghost predicate Quiet(s: Store) {
    s.entries == [] && s.section.Free? && s.inside == {} && s.draining.Keys == {}
  }

  /** A lookup of a file that could not be read, whose build is handed out without being cached. */
  predicate Unreadable(e: Event) { e.Lookup? && e.revision.None? }

  ghost predicate NoneLost(s: Store) {
    && (s.section.Building? ==> s.section.revision.Some?)
    && (forall o :: o in s.place ==> Kept?(s.place[o]))
  }

  lemma StepNoneLost(s: Store, e: Event, max: nat)
    requires NoneLost(s) && Enabled(s, e) && (e.Leave? ==> s.inFlight > 0) && !Unreadable(e)
    ensures NoneLost(Step(s, e, max))
  {
    hide Objects, Displaced, Kept, Touched, Hit;
  }

  lemma {:induction false} RunNoneLost(s: Store, events: seq<Event>, out: Store, max: nat)
    requires NoneLost(s) && Run(s, events, out, max) && forall e :: e in events ==> !Unreadable(e)
    ensures NoneLost(out)
    decreases |events|
  {
    hide NoneLost, Step, Enabled;
    if events != [] {
      StepNoneLost(s, events[0], max);
      assert forall e :: e in events[1..] ==> e in events;
      RunNoneLost(Step(s, events[0], max), events[1..], out, max);
    }
  }

  /**
   Once the store is closed and quiet, every object ever built has been released, except those a lookup
   of an unreadable file dropped from the cache or never cached.
   */
  lemma QuietReleased(events: seq<Event>, s: Store, max: nat)
    requires max >= 1 && Run(Initial(), events, s, max) && Quiet(s)
    ensures forall o :: o in s.place ==> o in s.released || s.place[o].Dropped? || s.place[o].Loose?
    ensures (forall e :: e in events ==> !Unreadable(e)) ==> s.place.Keys == set o | o in s.released
  {
    InitialSound(max);
    RunSound(Initial(), events, s, max);
    assert s.pending == [];
    hide CacheOk, Run, Counted, Shielded, Exactly;
    forall o | o in s.place ensures o in s.released || s.place[o].Dropped? || s.place[o].Loose? {
      if Kept?(s.place[o]) {
        PlacedSomewhere(s, o);
      }
    }
    ReleasedWasBuilt(s);
    if forall e :: e in events ==> !Unreadable(e) {
      RunNoneLost(Initial(), events, s, max);
    }
  }

  lemma PlacedSomewhere(s: Store, o: Object)
    requires Located(s) && o in s.place && Kept?(s.place[o])
    ensures o in ListOf(s, s.place[o])
  {
  }

  lemma ReleasedWasBuilt(s: Store)
    requires Located(s)
    ensures forall o :: o in s.released ==> o in s.place
  {
    ListAt(s, Released);
  }

  /** What is dropped for an unreadable file, or was never cached, is never released afterwards. */
  lemma {:induction false} DroppedForGood(s: Store, events: seq<Event>, out: Store, v: Object, max: nat)
    requires Sound(s, max) && Run(s, events, out, max) && v in s.place && !Kept?(s.place[v])
    ensures v in out.place && out.place[v] == s.place[v] && v !in out.released
    decreases |events|
  {
    hide Sound, Step, Enabled;
    if events == [] {
      NotReleased(s, v, max);
    } else {
      StepSound(s, events[0], max);
      StepLeavesDropped(s, events[0], v, max);
      DroppedForGood(Step(s, events[0], max), events[1..], out, v, max);
    }
  }

  lemma NotReleased(s: Store, v: Object, max: nat)
    requires Sound(s, max) && v in s.place && !Kept?(s.place[v])
    ensures v !in s.released
  {
    ListAt(s, Released);
  }

  /** What is dropped or loose stays so. */
  lemma StepLeavesDropped(s: Store, e: Event, v: Object, max: nat)
    requires Sound(s, max) && Enabled(s, e) && v in s.place && !Kept?(s.place[v]) && (e.Leave? ==> s.inFlight > 0)
    ensures v in Step(s, e, max).place && Step(s, e, max).place[v] == s.place[v]
  {
    ListAt(s, Cached);
    ListAt(s, Parked);
    hide Located, Counted, Shielded, CacheOk, Enabled, Objects, Displaced, Kept, WithoutPath, StoredAt, Hit;
    match e
    case Drain(j) => DrainLocated(s, j);
    case Check => CheckLocated(s);
    case TearDown => TearDownLocated(s);
    case Built(o) => DisplacedWereCached(s, o, v, max);
    case _ =>
  }

  lemma DisplacedWereCached(s: Store, o: Object, v: Object, max: nat)
    requires max >= 1 && CacheOk(s.entries, max) && Exactly(Objects(s.entries), s.place, Cached) && Enabled(s, Built(o))
    requires v in s.place && !Kept?(s.place[v])
    ensures var out := BuiltObject(s, o, max); v in out.place && out.place[v] == s.place[v]
  {
    assert v !in Objects(s.entries);
    WithoutPathOk(s.entries, s.section.path, max);
    if s.section.revision.Some? {
      assert o !in Objects(s.entries);
      KeptOk(s.entries, Entry(s.section.path, s.section.revision.value, o), max);
    }
    hide Objects, Displaced, Kept, WithoutPath, StoredAt, CacheOk, Exactly;
  }
}
