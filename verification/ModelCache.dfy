/**
 The store as src/omnitensor/executors/base.py keeps it: the ordered entries, the in-flight count and the
 parked objects, changed in place. Each method is one caller's critical section taken alone; the last
 lemmas show that such a call is a run of the step machine, so the interleaved guarantees cover it.
 */
module ModelCache {
  import opened Prelude
  import opened ModelStore
  import T = ModelTeardown

  class RuntimeStore {
    const max: nat
    var entries: seq<Entry>
    var inFlight: nat
    var pending: seq<Object>
    /** The objects handed back to their library, in order. */
    var released: seq<Object>

    constructor (max: nat)
      requires max >= 1
      ensures this.max == max && entries == [] && inFlight == 0 && pending == [] && released == []
    {
      this.max, entries, inFlight, pending, released := max, [], 0, [], [];
    }

    /** Park while any job is in flight, else release at once. */
    method Releasing(value: Object)
      modifies `pending, `released
      ensures pending == old(pending) + (if inFlight > 0 then [value] else [])
      ensures released == old(released) + (if inFlight > 0 then [] else [value])
    {
      if inFlight > 0 {
        pending := pending + [value];
      } else {
        released := released + [value];
      }
    }

    method Enter()
      modifies `inFlight
      ensures inFlight == old(inFlight) + 1
    {
      inFlight := inFlight + 1;
    }

    /** The last job out takes everything parked, and releases it after giving up the lock. */
    method Leave()
      requires inFlight > 0
      modifies `inFlight, `pending, `released
      ensures inFlight == old(inFlight) - 1
      ensures pending == if inFlight == 0 then [] else old(pending)
      ensures released == old(released) + (if inFlight == 0 then old(pending) else [])
    {
      inFlight := inFlight - 1;
      var parked := if inFlight == 0 then pending else [];
      if parked != [] {
        pending := [];
      }
      for i := 0 to |parked|
        invariant released == old(released) + parked[..i]
        invariant pending == if inFlight == 0 then [] else old(pending)
        invariant inFlight == old(inFlight) - 1
      {
        released := released + [parked[i]];
      }
    }

    /** `made` is what the build returns, or nothing when it raises. */
    method GetOrBuild(path: Path, revision: Option<Revision>, made: Option<Object>) returns (value: Option<Object>)
      requires max >= 1 && |entries| <= max
      modifies this
      ensures inFlight == old(inFlight)
      ensures value == Served(old(entries), path, revision, made)
      ensures entries == EntriesAfter(old(entries), path, revision, made, max)
      ensures var given := GivenUp(old(entries), path, revision, made, max);
        && pending == old(pending) + (if inFlight > 0 then given else [])
        && released == old(released) + (if inFlight > 0 then [] else given)
    {
      var found := Find(entries, path);
      if found.Some? && revision == Some(entries[found.value].revision) {
        value := Some(entries[found.value].value);
        entries := Touched(entries, found.value);
        return;
      }
      value := made;
      if made.None? {
        return;
      }
      if revision.None? {
        entries := WithoutPath(entries, path);
        return;
      }
      ghost var entry := Entry(path, revision.value, made.value);
      ghost var grown := WithoutPath(entries, path) + [entry];
      var replaced := StoredAt(entries, path);
      entries := WithoutPath(entries, path) + [Entry(path, revision.value, made.value)];
      if replaced != [] {
        Releasing(replaced[0]);
      }
      ghost var cut := 0;
      while |entries| > max
        invariant cut <= |grown| && entries == grown[cut..] && cut <= Surplus(|grown|, max)
        invariant inFlight == old(inFlight)
        invariant pending == old(pending) + (if inFlight > 0 then replaced + Objects(grown[..cut]) else [])
        invariant released == old(released) + (if inFlight > 0 then [] else replaced + Objects(grown[..cut]))
      {
        var oldest := entries[0];
        entries := entries[1..];
        Releasing(oldest.value);
        assert Objects(grown[..cut + 1]) == Objects(grown[..cut]) + [oldest.value];
        cut := cut + 1;
      }
    }

    method Clear()
      modifies this
      ensures inFlight == old(inFlight) && entries == []
      ensures pending == old(pending) + (if inFlight > 0 then Objects(old(entries)) else [])
      ensures released == old(released) + (if inFlight > 0 then [] else Objects(old(entries)))
    {
      var values := entries;
      entries := [];
      for i := 0 to |values|
        invariant entries == [] && inFlight == old(inFlight)
        invariant pending == old(pending) + (if inFlight > 0 then Objects(values[..i]) else [])
        invariant released == old(released) + (if inFlight > 0 then [] else Objects(values[..i]))
      {
        Releasing(values[i].value);
        assert Objects(values[..i + 1]) == Objects(values[..i]) + [values[i].value];
      }
      assert values[..|values|] == values;
    }
  }

  function Served(entries: seq<Entry>, path: Path, revision: Option<Revision>, made: Option<Object>): Option<Object> {
    if Hit(entries, path, revision) then Some(entries[Find(entries, path).value].value) else made
  }

  function EntriesAfter(entries: seq<Entry>, path: Path, revision: Option<Revision>, made: Option<Object>, max: nat):
    seq<Entry>
  {
    if Hit(entries, path, revision) then Touched(entries, Find(entries, path).value)
    else if made.None? then entries
    else if revision.None? then WithoutPath(entries, path)
    else Kept(entries, Entry(path, revision.value, made.value), max)
  }

  function GivenUp(entries: seq<Entry>, path: Path, revision: Option<Revision>, made: Option<Object>, max: nat):
    seq<Object>
  {
    if Hit(entries, path, revision) || made.None? || revision.None? then []
    else Displaced(entries, Entry(path, revision.value, made.value), max)
  }

  // Each call taken alone is a run of the step machine.

  /** `given` handed to the releaser with nobody in between: all parked, or all released. */
  ghost predicate HandedOn(s: T.Store, out: T.Store, given: seq<Object>) {
    && out.entries == s.entries && out.inFlight == s.inFlight
    && out.inside == s.inside && out.draining == s.draining
    && out.pending == s.pending + (if s.inFlight > 0 then given else [])
    && out.released == s.released + (if s.inFlight > 0 then [] else given)
  }

  /** Some run from `s` leads to a store with exactly these fields. */
  ghost predicate RunsTo(
    s: T.Store, entries: seq<Entry>, inFlight: nat, pending: seq<Object>, released: seq<Object>, max: nat)
  {
    exists events, out :: T.Run(s, events, out, max) && Holds(out, entries, inFlight, pending, released)
  }

  ghost predicate Holds(
    s: T.Store, entries: seq<Entry>, inFlight: nat, pending: seq<Object>, released: seq<Object>)
  {
    s.entries == entries && s.inFlight == inFlight && s.pending == pending && s.released == released
  }

  lemma {:induction false} RunsOn(s: T.Store, first: seq<T.Event>, mid: T.Store, second: seq<T.Event>, out: T.Store, max: nat)
    requires T.Run(s, first, mid, max) && T.Run(mid, second, out, max)
    ensures T.Run(s, first + second, out, max)
    decreases |first|
  {
    hide T.Step, T.Enabled;
    if first == [] {
      assert first + second == second;
    } else {
      RunsOn(T.Step(s, first[0], max), first[1..], mid, second, out, max);
      assert (first + second)[1..] == first[1..] + second;
    }
  }

  lemma OneEvent(s: T.Store, e: T.Event, max: nat)
    requires T.Enabled(s, e) && (e.Leave? ==> s.inFlight > 0)
    ensures T.Run(s, [e], T.Step(s, e, max), max)
  {
    hide T.Step, T.Enabled;
    var out := T.Step(s, e, max);
    assert T.Run(out, [e][1..], out, max);
  }

  lemma SettlesOne(s: T.Store, max: nat) returns (events: seq<T.Event>, out: T.Store)
    requires s.section.Settling? && s.section.left != []
    ensures T.Run(s, events, out, max)
    ensures out.section == T.Settling(s.section.caller, s.section.result, s.section.left[1..]) && HandedOn(s, out, [s.section.left[0]])
  {
    events, out := [T.Check], T.Checked(s);
    OneEvent(s, T.Check, max);
    if s.inFlight == 0 {
      OneEvent(out, T.TearDown, max);
      RunsOn(s, [T.Check], out, [T.TearDown], T.Torn(out), max);
      events, out := [T.Check] + [T.TearDown], T.Torn(out);
    }
    hide T.Run;
  }

  lemma {:induction false} SettlesAlone(s: T.Store, max: nat) returns (events: seq<T.Event>, out: T.Store)
    requires s.section.Settling?
    ensures T.Run(s, events, out, max)
    ensures out.section == T.Free && HandedOn(s, out, s.section.left)
    decreases |s.section.left|
  {
    hide T.Run, T.Enabled, T.Checked, T.Torn;
    var left := s.section.left;
    if left == [] {
      events, out := [T.Return], T.Returned(s);
      OneReturn(s, max);
    } else {
      var first, mid := SettlesOne(s, max);
      events, out := SettlesAlone(mid, max);
      RunsOn(s, first, mid, events, out, max);
      events := first + events;
      assert left == [left[0]] + left[1..];
    }
  }

  lemma OneReturn(s: T.Store, max: nat)
    requires s.section.Settling? && s.section.left == []
    ensures T.Run(s, [T.Return], T.Returned(s), max)
  {
    OneEvent(s, T.Return, max);
  }

  /** A lookup that builds: as three stages of the machine. */
  lemma BuildsAlone(s: T.Store, path: Path, revision: Option<Revision>, made: Option<Object>, max: nat)
    returns (events: seq<T.Event>, out: T.Store)
    requires s.section.Free? && !Hit(s.entries, path, revision) && (made.Some? ==> made.value !in s.place)
    ensures T.Run(s, events, out, max)
    ensures out.section.Free? && out.inFlight == s.inFlight
    ensures out.entries == EntriesAfter(s.entries, path, revision, made, max)
    ensures var given := GivenUp(s.entries, path, revision, made, max);
      && out.pending == s.pending + (if s.inFlight > 0 then given else [])
      && out.released == s.released + (if s.inFlight > 0 then [] else given)
  {
    hide T.Run, Kept, Displaced, WithoutPath, StoredAt, Hit;
    var lookup := T.Lookup(T.Outsider, path, revision);
    var mid := s.(section := T.Building(T.Outsider, path, revision));
    OneEvent(s, lookup, max);
    assert T.Step(s, lookup, max) == mid;
    var next := if made.None? then T.BuildFails else T.Built(made.value);
    OneEvent(mid, next, max);
    out := T.Step(mid, next, max);
    RunsOn(s, [lookup], mid, [next], out, max);
    events := [lookup] + [next];
    if made.Some? && revision.Some? {
      var built := out;
      var rest;
      rest, out := SettlesAlone(built, max);
      RunsOn(s, events, built, rest, out, max);
      events := events + rest;
    }
  }

  /**
   `get_or_build` with nobody interleaving is a run of the step machine: whatever the machine never does,
   this method never does.
   */
  lemma GetOrBuildIsARun(s: T.Store, path: Path, revision: Option<Revision>, made: Option<Object>, max: nat)
    requires s.section.Free? && (made.Some? ==> made.value !in s.place)
    ensures var given := GivenUp(s.entries, path, revision, made, max);
      RunsTo(s, EntriesAfter(s.entries, path, revision, made, max), s.inFlight,
        s.pending + (if s.inFlight > 0 then given else []), s.released + (if s.inFlight > 0 then [] else given), max)
  {
    if Hit(s.entries, path, revision) {
      var lookup := T.Lookup(T.Outsider, path, revision);
      OneEvent(s, lookup, max);
      assert T.Run(s, [lookup], T.Step(s, lookup, max), max);
    } else {
      var events, out := BuildsAlone(s, path, revision, made, max);
      assert T.Run(s, events, out, max);
    }
    hide T.Run, Kept, Displaced, WithoutPath, StoredAt, Hit;
  }

  lemma ClearIsARun(s: T.Store, max: nat)
    requires s.section.Free?
    ensures var given := Objects(s.entries);
      RunsTo(s, [], s.inFlight,
        s.pending + (if s.inFlight > 0 then given else []), s.released + (if s.inFlight > 0 then [] else given), max)
  {
    hide T.Run, Objects;
    OneEvent(s, T.Close, max);
    var rest, out := SettlesAlone(T.Closed(s), max);
    RunsOn(s, [T.Close], T.Closed(s), rest, out, max);
    assert T.Run(s, [T.Close] + rest, out, max);
  }

  lemma {:induction false} DrainsAlone(s: T.Store, j: JobId, max: nat) returns (events: seq<T.Event>, out: T.Store)
    requires j in s.draining && s.draining[j] != []
    ensures T.Run(s, events, out, max)
    ensures out.released == s.released + s.draining[j] && j !in out.draining
    ensures out.inFlight == s.inFlight && out.pending == s.pending && out.entries == s.entries
    decreases |s.draining[j]|
  {
    hide T.Run;
    OneEvent(s, T.Drain(j), max);
    events, out := [T.Drain(j)], T.Drained(s, j);
    var queue := s.draining[j];
    assert queue == [queue[0]] + queue[1..];
    if |queue| > 1 {
      var mid := out;
      var rest;
      rest, out := DrainsAlone(mid, j, max);
      RunsOn(s, events, mid, rest, out, max);
      events := events + rest;
    }
  }

  lemma LeaveIsARun(s: T.Store, j: JobId, max: nat)
    requires T.Enabled(s, T.Leave(j)) && s.inFlight > 0 && j !in s.draining
    ensures RunsTo(s, s.entries, s.inFlight - 1,
      if s.inFlight == 1 then [] else s.pending, s.released + (if s.inFlight == 1 then s.pending else []), max)
  {
    hide T.Run;
    OneEvent(s, T.Leave(j), max);
    var mid := T.LeftBy(s, j);
    if j in mid.draining {
      var rest, out := DrainsAlone(mid, j, max);
      RunsOn(s, [T.Leave(j)], mid, rest, out, max);
      assert T.Run(s, [T.Leave(j)] + rest, out, max);
    } else {
      assert T.Run(s, [T.Leave(j)], mid, max);
    }
  }
}
