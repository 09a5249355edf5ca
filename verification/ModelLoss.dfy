/**
 Which runtime objects are lost over a run: the builds of lookups that could not read the file drop what was
 cached under that path when the lookup came and hand out what they make, and nothing else escapes release.
 */
module ModelLoss {
  import opened ModelStore
  import opened ModelTeardown
  import opened Placement
  import opened Prelude

  /** A run with the store before each event and after the last. */
  ghost predicate Trace(events: seq<Event>, states: seq<Store>, max: nat) {
    && |states| == |events| + 1 && states[0] == Initial()
    && forall m :: 0 <= m < |events| ==> Follows(states[m], events[m], states[m + 1], max)
  }

  ghost predicate Follows(s: Store, e: Event, next: Store, max: nat) {
    Enabled(s, e) && (e.Leave? ==> s.inFlight > 0) && next == Step(s, e, max)
  }

  lemma {:induction false} RunMore(s: Store, events: seq<Event>, mid: Store, e: Event, out: Store, max: nat)
    requires Run(s, events, mid, max) && Follows(mid, e, out, max)
    ensures Run(s, events + [e], out, max)
    decreases |events|
  {
    hide Enabled, Step;
    if events == [] {
      assert ([] + [e])[1..] == [];
      assert [] + [e] == [e];
    } else {
      assert (events + [e])[1..] == events[1..] + [e];
      RunMore(Step(s, events[0], max), events[1..], mid, e, out, max);
    }
  }

  /** Every prefix of a trace is a run to the store the trace shows there. */
  lemma {:induction false} TraceIsRun(events: seq<Event>, states: seq<Store>, n: nat, max: nat)
    requires Trace(events, states, max) && n <= |events|
    ensures Run(Initial(), events[..n], states[n], max)
  {
    hide Follows, Initial;
    if n > 0 {
      TraceIsRun(events, states, n - 1, max);
      RunMore(Initial(), events[..n - 1], states[n - 1], events[n - 1], states[n], max);
      assert events[..n - 1] + [events[n - 1]] == events[..n];
    }
  }

  ghost predicate Stored(s: Store, path: Path, o: Object) { o in StoredAt(s.entries, path) }

  /** Lookup `i` finds nothing to hand out, and its build is finished by event `j`. */
  ghost predicate Completes(events: seq<Event>, i: nat, j: nat) {
    && i < j < |events| && events[i].Lookup? && events[j].Built?
    && forall k :: i < k < j ==> Aside(events[k])
  }

  /** What others do while somebody is building. */
  predicate Aside(e: Event) { e.Enter? || e.Leave? || e.Drain? }

  /** The build of an unreadable lookup of a path is finished, and this object was stored there when the lookup came. */
  ghost predicate DroppedBy(events: seq<Event>, states: seq<Store>, i: nat, j: nat, o: Object)
    requires |states| == |events| + 1
  {
    Completes(events, i, j) && Unreadable(events[i]) && Stored(states[i], events[i].path, o)
  }

  /** The object is what the build of an unreadable lookup made. */
  ghost predicate LooseBy(events: seq<Event>, i: nat, j: nat, o: Object) {
    Completes(events, i, j) && Unreadable(events[i]) && events[j].made == o
  }

  ghost predicate EverDropped(events: seq<Event>, states: seq<Store>, n: nat, o: Object)
    requires |states| == |events| + 1
  {
    exists i: nat, j: nat :: j < n && DroppedBy(events, states, i, j, o)
  }

  ghost predicate EverLoose(events: seq<Event>, n: nat, o: Object) {
    exists i: nat, j: nat :: j < n && LooseBy(events, i, j, o)
  }

  // A build, back to the lookup that began it and on to the event that ends it.

  /** While the store is building, that is the doing of lookup `i`, and nobody has touched the cache since. */
  ghost predicate BegunBy(events: seq<Event>, states: seq<Store>, i: nat, n: nat)
    requires |states| == |events| + 1
  {
    && i < n <= |events| && events[i].Lookup? && (forall k :: i < k < n ==> Aside(events[k]))
    && states[n].section == Building(events[i].caller, events[i].path, events[i].revision)
    && states[n].entries == states[i].entries
  }

  lemma AsideKeeps(s: Store, e: Event, next: Store, max: nat)
    requires Follows(s, e, next, max) && s.section.Building? && !e.BuildFails? && !e.Built?
    ensures Aside(e) && next.section == s.section && next.entries == s.entries
  {
    hide Moved;
  }

  lemma BeginsBuilding(s: Store, e: Event, next: Store, max: nat)
    requires Follows(s, e, next, max) && next.section.Building? && !s.section.Building?
    ensures e.Lookup? && next.section == Building(e.caller, e.path, e.revision) && next.entries == s.entries
  {
    hide Moved, Objects, Touched, Displaced, Kept;
  }

  lemma EndsBuilding(s: Store, e: Event, next: Store, max: nat)
    requires Follows(s, e, next, max) && (e.BuildFails? || e.Built?)
    ensures s.section.Building? && !next.section.Building?
  {
    hide Moved, Objects, Displaced, Kept;
  }

  lemma {:induction false} BuildHasLookup(events: seq<Event>, states: seq<Store>, n: nat, max: nat)
    requires Trace(events, states, max) && n <= |events| && states[n].section.Building?
    ensures exists i: nat :: BegunBy(events, states, i, n)
  {
    hide Follows;
    var e, s := events[n - 1], states[n - 1];
    assert Follows(s, e, states[n], max);
    if s.section.Building? {
      if e.BuildFails? || e.Built? {
        EndsBuilding(s, e, states[n], max);
      } else {
        AsideKeeps(s, e, states[n], max);
        BuildHasLookup(events, states, n - 1, max);
        var i: nat :| BegunBy(events, states, i, n - 1);
        assert BegunBy(events, states, i, n);
      }
    } else {
      BeginsBuilding(s, e, states[n], max);
      assert BegunBy(events, states, n - 1, n);
    }
  }

  /** A lookup whose next cache event is a `Built` was building all the while. */
  lemma {:induction false} LookupBuilds(events: seq<Event>, states: seq<Store>, i: nat, n: nat, max: nat)
    requires Trace(events, states, max) && i < n <= |events| && Unreadable(events[i])
    requires forall k :: i < k < n ==> Aside(events[k])
    ensures BegunBy(events, states, i, n)
  {
    hide Follows;
    assert Follows(states[n - 1], events[n - 1], states[n], max);
    if n == i + 1 {
      UnreadableBuilds(states[i], events[i], states[n], max);
    } else {
      LookupBuilds(events, states, i, n - 1, max);
      AsideKeeps(states[n - 1], events[n - 1], states[n], max);
    }
  }

  lemma UnreadableBuilds(s: Store, e: Event, next: Store, max: nat)
    requires Follows(s, e, next, max) && Unreadable(e)
    ensures next.section == Building(e.caller, e.path, None) && next.entries == s.entries
  {
  }

  // One step.

  /** This event finishes an unreadable build of a path the object is stored under. */
  ghost predicate Drops(s: Store, e: Event, o: Object) {
    e.Built? && s.section.Building? && s.section.revision.None? && Stored(s, s.section.path, o)
  }

  ghost predicate Loosens(s: Store, e: Event, o: Object) {
    e.Built? && s.section.Building? && s.section.revision.None? && e.made == o
  }

  ghost predicate Is(s: Store, o: Object, at: Place) { o in s.place && s.place[o] == at }

  lemma StoredIsCached(s: Store, path: Path, o: Object)
    requires Located(s) && Stored(s, path, o)
    ensures Is(s, o, Cached)
  {
    ListAt(s, Cached);
    var i := Find(s.entries, path).value;
    assert Objects(s.entries)[i] == o;
  }

  /** An event that is no unreadable build loses nothing. */
  lemma OthersLoseNothing(s: Store, e: Event, next: Store, o: Object, max: nat)
    requires Follows(s, e, next, max) && !(e.Built? && s.section.revision.None?)
    ensures o in next.place && !Kept?(next.place[o]) ==> o in s.place && !Kept?(s.place[o])
  {
    hide Objects, Displaced, Kept, Touched, Hit;
  }

  lemma UnreadableBuilt(s: Store, e: Event, next: Store, o: Object, max: nat)
    requires Sound(s, max) && Follows(s, e, next, max) && e.Built? && s.section.revision.None?
    ensures Is(next, o, Dropped) <==> Is(s, o, Dropped) || Drops(s, e, o)
    ensures Is(next, o, Loose) <==> Is(s, o, Loose) || Loosens(s, e, o)
  {
    hide Located, Counted, Shielded, CacheOk, StoredAt, WithoutPath;
    if Stored(s, s.section.path, o) {
      StoredIsCached(s, s.section.path, o);
    }
  }

  lemma StepLoses(s: Store, e: Event, next: Store, o: Object, max: nat)
    requires Sound(s, max) && Follows(s, e, next, max)
    ensures Is(next, o, Dropped) <==> Is(s, o, Dropped) || Drops(s, e, o)
    ensures Is(next, o, Loose) <==> Is(s, o, Loose) || Loosens(s, e, o)
  {
    hide Sound, Step, Stored;
    if e.Built? && s.section.revision.None? {
      UnreadableBuilt(s, e, next, o, max);
    } else {
      OthersLoseNothing(s, e, next, o, max);
      if o in s.place && !Kept?(s.place[o]) {
        StepLeavesDropped(s, e, o, max);
      }
    }
  }

  // The whole run.

  lemma TraceSound(events: seq<Event>, states: seq<Store>, n: nat, max: nat)
    requires Trace(events, states, max) && n <= |events| && max >= 1
    ensures Sound(states[n], max)
  {
    hide Sound, Follows;
    TraceIsRun(events, states, n, max);
    InitialSound(max);
    RunSound(Initial(), events[..n], states[n], max);
  }

  lemma DropsExactly(events: seq<Event>, states: seq<Store>, n: nat, o: Object, max: nat)
    requires Trace(events, states, max) && n < |events|
    ensures Drops(states[n], events[n], o) <==> exists i: nat :: DroppedBy(events, states, i, n, o)
    ensures Loosens(states[n], events[n], o) <==> exists i: nat :: LooseBy(events, i, n, o)
  {
    hide Follows, Stored;
    var s, e := states[n], events[n];
    if e.Built? && s.section.Building? && s.section.revision.None? {
      BuildHasLookup(events, states, n, max);
      var i: nat :| BegunBy(events, states, i, n);
      assert Completes(events, i, n) && Unreadable(events[i]);
      assert Drops(s, e, o) ==> DroppedBy(events, states, i, n, o) by {
        SameStored(states[i], s, events[i].path, o);
      }
      assert Loosens(s, e, o) ==> LooseBy(events, i, n, o);
    }
    forall i: nat | Completes(events, i, n) && Unreadable(events[i])
      ensures DroppedBy(events, states, i, n, o) ==> Drops(s, e, o)
      ensures LooseBy(events, i, n, o) ==> Loosens(s, e, o)
    {
      LookupBuilds(events, states, i, n, max);
      SameStored(states[i], s, events[i].path, o);
    }
  }

  lemma SameStored(a: Store, b: Store, path: Path, o: Object)
    requires a.entries == b.entries
    ensures Stored(a, path, o) <==> Stored(b, path, o)
  {
  }

  lemma EverStep(events: seq<Event>, states: seq<Store>, n: nat, o: Object)
    requires |states| == |events| + 1
    ensures EverDropped(events, states, n + 1, o)
      <==> EverDropped(events, states, n, o) || exists i: nat :: DroppedBy(events, states, i, n, o)
    ensures EverLoose(events, n + 1, o) <==> EverLoose(events, n, o) || exists i: nat :: LooseBy(events, i, n, o)
  {
    hide DroppedBy, LooseBy;
  }

  /**
   After any number of events: an object has been dropped from the cache unreleased exactly if it was stored
   under a path when a lookup that could not read the file came, and that lookup's build was finished; and it
   was never cached at all exactly if it is what such a build made.
   */
  lemma {:induction false} LostExactly(events: seq<Event>, states: seq<Store>, n: nat, o: Object, max: nat)
    requires Trace(events, states, max) && max >= 1 && n <= |events|
    ensures Is(states[n], o, Dropped) <==> EverDropped(events, states, n, o)
    ensures Is(states[n], o, Loose) <==> EverLoose(events, n, o)
  {
    hide Follows, DroppedBy, LooseBy, Sound;
    if n > 0 {
      hide EverDropped, EverLoose;
      LostExactly(events, states, n - 1, o, max);
      TraceSound(events, states, n - 1, max);
      assert Follows(states[n - 1], events[n - 1], states[n], max);
      StepLoses(states[n - 1], events[n - 1], states[n], o, max);
      DropsExactly(events, states, n - 1, o, max);
      EverStep(events, states, n - 1, o);
    }
  }

  /**
   Once the store is closed and quiet, an object ever built has been released if and only if no unreadable
   lookup's build dropped it and none made it.
   */
  lemma QuietExactly(events: seq<Event>, states: seq<Store>, o: Object, max: nat)
    requires Trace(events, states, max) && max >= 1
    requires var s := states[|events|]; Quiet(s) && o in s.place
    ensures o in states[|events|].released
      <==> !EverDropped(events, states, |events|, o) && !EverLoose(events, |events|, o)
  {
    hide Trace, EverDropped, EverLoose;
    var n := |events|;
    TraceLength(events, states, max);
    LostExactly(events, states, n, o, max);
    TraceIsRun(events, states, n, max);
    assert events[..n] == events;
    QuietReleased(events, states[n], max);
    TraceSound(events, states, n, max);
    ListAt(states[n], Released);
  }

  lemma TraceLength(events: seq<Event>, states: seq<Store>, max: nat)
    requires Trace(events, states, max)
    ensures |states| == |events| + 1
  {
  }

  // A run that loses two objects.

  /** One file read and cached by anyone, then not readable the next time it is asked for. */
  function Losing(p: Path, r: Revision, first: Object, second: Object): seq<Event> {
    [Lookup(Outsider, p, Some(r)), Built(first), Return, Lookup(Outsider, p, None), Built(second)]
  }

  function AfterLosing(first: Object, second: Object): Store {
    Store([], 0, [], Free, map[], {}, map[], map[first := Dropped, second := Loose], [])
  }

  lemma CachesFirst(p: Path, r: Revision, first: Object, max: nat)
    requires max >= 1
    ensures var s := Initial().(section := Building(Outsider, p, Some(r)));
      Step(Initial(), Lookup(Outsider, p, Some(r)), max) == s
      && Step(s, Built(first), max) == Initial().(
           entries := [Entry(p, r, first)], section := Settling(Outsider, Some(first), []), place := map[first := Cached])
  {
    var entry := Entry(p, r, first);
    assert WithoutPath([], p) + [entry] == [entry];
    assert [entry][0..] == [entry] && [entry][..0] == [];
    assert Kept([], entry, max) == [entry] && Displaced([], entry, max) == [];
    assert Moved<Object, Place>(map[], [], Displacing) == map[];
  }

  lemma LosesFirst(p: Path, r: Revision, first: Object, second: Object, max: nat)
    requires first != second
    ensures var s := Initial().(entries := [Entry(p, r, first)], place := map[first := Cached]);
      var building := s.(section := Building(Outsider, p, None));
      Step(s, Lookup(Outsider, p, None), max) == building
      && Step(building, Built(second), max) == AfterLosing(first, second)
  {
    var entries := [Entry(p, r, first)];
    assert Find(entries, p) == Some(0);
    assert WithoutPath(entries, p) == [] && StoredAt(entries, p) == [first];
    assert Moved(map[first := Cached], [first], Dropped) == map[first := Dropped];
  }

  lemma RunFirst(s: Store, e: Event, next: Store, rest: seq<Event>, out: Store, max: nat)
    requires Follows(s, e, next, max) && Run(next, rest, out, max)
    ensures Run(s, [e] + rest, out, max)
  {
    assert ([e] + rest)[1..] == rest;
    hide Step, Enabled;
  }

  /** After five events the store is quiet, both objects are built, and neither is or ever will be released. */
  lemma LosesTwo(p: Path, r: Revision, first: Object, second: Object, max: nat)
    requires first != second && max >= 1
    ensures var s := AfterLosing(first, second);
      Run(Initial(), Losing(p, r, first, second), s, max) && Quiet(s)
    ensures forall more, out :: Run(AfterLosing(first, second), more, out, max) ==>
      first !in out.released && second !in out.released
  {
    LosingRun(p, r, first, second, max);
    var s := AfterLosing(first, second);
    InitialSound(max);
    RunSound(Initial(), Losing(p, r, first, second), s, max);
    forall more, out | Run(s, more, out, max) ensures first !in out.released && second !in out.released {
      DroppedForGood(s, more, out, first, max);
      DroppedForGood(s, more, out, second, max);
    }
  }

  lemma LosingRun(p: Path, r: Revision, first: Object, second: Object, max: nat)
    requires first != second && max >= 1
    ensures Run(Initial(), Losing(p, r, first, second), AfterLosing(first, second), max)
  {
    var s0, s1 := Initial(), Initial().(section := Building(Outsider, p, Some(r)));
    var s3 := Initial().(entries := [Entry(p, r, first)], place := map[first := Cached]);
    var s2 := s3.(section := Settling(Outsider, Some(first), []));
    var s4, s5 := s3.(section := Building(Outsider, p, None)), AfterLosing(first, second);
    CachesFirst(p, r, first, max);
    LosesFirst(p, r, first, second, max);
    assert Follows(s0, Lookup(Outsider, p, Some(r)), s1, max) && Follows(s1, Built(first), s2, max);
    assert Follows(s2, Return, s3, max);
    assert Follows(s3, Lookup(Outsider, p, None), s4, max) && Follows(s4, Built(second), s5, max);
    hide Follows, Run, AfterLosing;
    LosingSteps(p, r, first, second, s0, s1, s2, s3, s4, s5, max);
  }

  lemma LosingSteps(p: Path, r: Revision, first: Object, second: Object,
                    s0: Store, s1: Store, s2: Store, s3: Store, s4: Store, s5: Store, max: nat)
    requires Follows(s0, Lookup(Outsider, p, Some(r)), s1, max) && Follows(s1, Built(first), s2, max)
    requires Follows(s2, Return, s3, max)
    requires Follows(s3, Lookup(Outsider, p, None), s4, max) && Follows(s4, Built(second), s5, max)
    ensures Run(s0, Losing(p, r, first, second), s5, max)
  {
    hide Follows;
    RunFirst(s4, Built(second), s5, [], s5, max);
    RunFirst(s3, Lookup(Outsider, p, None), s4, [Built(second)] + [], s5, max);
    var last := [Lookup(Outsider, p, None)] + ([Built(second)] + []);
    RunFirst(s2, Return, s3, last, s5, max);
    RunFirst(s1, Built(first), s2, [Return] + last, s5, max);
    RunFirst(s0, Lookup(Outsider, p, Some(r)), s1, [Built(first)] + ([Return] + last), s5, max);
    assert [Lookup(Outsider, p, Some(r))] + ([Built(first)] + ([Return] + last)) == Losing(p, r, first, second);
  }
}
