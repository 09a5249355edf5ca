/**
 What the bounded cache hands out and gives up, told by the list of entries alone: an object only for the revision
 it was built for, the least recently used given up first.
 */
module StoreMeaning {
  import opened ModelCache
  import opened ModelStore
  import opened Prelude

  /** Some entry was stored under this path for this very revision. */
  ghost predicate Fresh(entries: seq<Entry>, path: Path, revision: Option<Revision>, o: Object) {
    revision.Some? && Entry(path, revision.value, o) in entries
  }

  /** `r` is `entries` with the entry at `i` taken out. */
  ghost predicate TakenOut(entries: seq<Entry>, i: nat, r: seq<Entry>)
    requires i < |entries|
  {
    |r| == |entries| - 1 && forall k :: 0 <= k < |r| ==> r[k] == entries[if k < i then k else k + 1]
  }

  /** The entries under other paths, in their order. */
  ghost predicate OthersOf(entries: seq<Entry>, path: Path, r: seq<Entry>) {
    if exists i :: 0 <= i < |entries| && entries[i].path == path then
      exists i :: 0 <= i < |entries| && entries[i].path == path && TakenOut(entries, i, r)
    else r == entries
  }

  lemma FindIs(entries: seq<Entry>, path: Path, i: nat, max: nat)
    requires CacheOk(entries, max) && i < |entries| && entries[i].path == path
    ensures Find(entries, path) == Some(i)
  {
  }

  /** A lookup hits exactly when the object was stored for the file's present revision: a changed file is built anew. */
  lemma HitExactly(entries: seq<Entry>, path: Path, revision: Option<Revision>, max: nat)
    requires CacheOk(entries, max)
    ensures Hit(entries, path, revision) <==> exists o :: Fresh(entries, path, revision, o)
    ensures Hit(entries, path, revision) ==>
      Fresh(entries, path, revision, entries[Find(entries, path).value].value)
  {
    if o :| Fresh(entries, path, revision, o) {
      var i :| 0 <= i < |entries| && entries[i] == Entry(path, revision.value, o);
      FindIs(entries, path, i, max);
    }
    if Hit(entries, path, revision) {
      var e := entries[Find(entries, path).value];
      assert e == Entry(path, revision.value, e.value) && e in entries;
      assert Fresh(entries, path, revision, e.value);
    }
  }

  lemma OneFresh(entries: seq<Entry>, path: Path, revision: Option<Revision>, a: Object, b: Object, max: nat)
    requires CacheOk(entries, max) && Fresh(entries, path, revision, a) && Fresh(entries, path, revision, b)
    ensures a == b
  {
  }

  lemma WithoutPathIs(entries: seq<Entry>, path: Path)
    ensures OthersOf(entries, path, WithoutPath(entries, path))
  {
    var found := Find(entries, path);
    if found.Some? {
      assert TakenOut(entries, found.value, WithoutPath(entries, path));
    }
  }

  /** What a call leaves in the cache. */
  ghost predicate CacheAfter(entries: seq<Entry>, path: Path, revision: Option<Revision>, made: Option<Object>, max: nat,
                             r: seq<Entry>)
  {
    if exists o :: Fresh(entries, path, revision, o) then
      exists o, rest :: Fresh(entries, path, revision, o) && OthersOf(entries, path, rest)
        && r == rest + [Entry(path, revision.value, o)]
    else if made.None? then r == entries
    else if revision.None? then OthersOf(entries, path, r)
    else
      exists rest :: OthersOf(entries, path, rest) && NewestOf(rest + [Entry(path, revision.value, made.value)], max, r)
  }

  /** The last `max` of them. */
  ghost predicate NewestOf(all: seq<Entry>, max: nat, r: seq<Entry>) {
    if |all| <= max then r == all else r == all[|all| - max..]
  }

  /** The object handed out: the cached one if fresh, else what the build made. */
  ghost predicate HandsOut(entries: seq<Entry>, path: Path, revision: Option<Revision>, made: Option<Object>,
                           value: Option<Object>)
  {
    if exists o :: Fresh(entries, path, revision, o) then value.Some? && Fresh(entries, path, revision, value.value)
    else value == made
  }

  /** What is given up: what was stored under the path, then the oldest others over the bound, in that order. */
  ghost predicate GivesUp(entries: seq<Entry>, path: Path, revision: Option<Revision>, made: Option<Object>, max: nat,
                          given: seq<Object>)
  {
    if (exists o :: Fresh(entries, path, revision, o)) || made.None? || revision.None? then given == []
    else
      exists rest, stale: seq<Object>, over: nat ::
        && OthersOf(entries, path, rest) && over == Surplus(|rest| + 1, max) && over <= |rest|
        && (forall o :: o in stale <==> exists r :: Entry(path, r, o) in entries) && |stale| <= 1
        && given == stale + Objects(rest[..over])
  }

  lemma TouchedIs(entries: seq<Entry>, i: nat)
    requires i < |entries|
    ensures Touched(entries, i) == DropAt(entries, i) + [entries[i]] && TakenOut(entries, i, DropAt(entries, i))
  {
  }

  lemma StoredIs(entries: seq<Entry>, path: Path, max: nat)
    requires CacheOk(entries, max)
    ensures forall o :: o in StoredAt(entries, path) <==> exists r :: Entry(path, r, o) in entries
  {
    forall o ensures o in StoredAt(entries, path) <==> exists r :: Entry(path, r, o) in entries {
      var found := Find(entries, path);
      if o in StoredAt(entries, path) {
        assert entries[found.value] == Entry(path, entries[found.value].revision, o);
      }
      if r :| Entry(path, r, o) in entries {
        var i :| 0 <= i < |entries| && entries[i] == Entry(path, r, o);
        FindIs(entries, path, i, max);
      }
    }
  }

  lemma HandsOutExactly(entries: seq<Entry>, path: Path, revision: Option<Revision>, made: Option<Object>, max: nat)
    requires CacheOk(entries, max)
    ensures HandsOut(entries, path, revision, made, Served(entries, path, revision, made))
  {
    HitExactly(entries, path, revision, max);
    hide Hit, Fresh;
  }

  lemma HitMoves(entries: seq<Entry>, path: Path, revision: Option<Revision>, max: nat) returns (rest: seq<Entry>)
    requires CacheOk(entries, max) && Hit(entries, path, revision)
    ensures OthersOf(entries, path, rest)
    ensures var i := Find(entries, path).value;
      Touched(entries, i) == rest + [entries[i]] && entries[i] == Entry(path, revision.value, entries[i].value)
  {
    var i := Find(entries, path).value;
    TouchedIs(entries, i);
    rest := DropAt(entries, i);
    assert entries[i].path == path && TakenOut(entries, i, rest);
  }

  lemma KeptNewest(entries: seq<Entry>, entry: Entry, max: nat)
    ensures NewestOf(WithoutPath(entries, entry.path) + [entry], max, Kept(entries, entry, max))
  {
  }

  /**
   A call leaves what it hands out as the most recently used, everything else in its order, and of too many the
   newest; a failed build leaves everything, and an unreadable file only loses what was stored under its path.
   */
  lemma CacheExactly(entries: seq<Entry>, path: Path, revision: Option<Revision>, made: Option<Object>, max: nat)
    requires CacheOk(entries, max)
    ensures CacheAfter(entries, path, revision, made, max, EntriesAfter(entries, path, revision, made, max))
  {
    HitExactly(entries, path, revision, max);
    if Hit(entries, path, revision) {
      var rest := HitMoves(entries, path, revision, max);
      hide Hit, Fresh, OthersOf, Touched;
    } else {
      WithoutPathIs(entries, path);
      if made.Some? && revision.Some? {
        KeptNewest(entries, Entry(path, revision.value, made.value), max);
      }
      hide Hit, Fresh, OthersOf, WithoutPath, Kept, NewestOf;
    }
  }

  lemma DisplacedIs(entries: seq<Entry>, entry: Entry, max: nat)
    requires max >= 1
    ensures var rest := WithoutPath(entries, entry.path); var over := Surplus(|rest| + 1, max);
      over <= |rest| && Displaced(entries, entry, max) == StoredAt(entries, entry.path) + Objects(rest[..over])
  {
    var rest := WithoutPath(entries, entry.path);
    var over := Surplus(|rest| + 1, max);
    assert (rest + [entry])[..over] == rest[..over];
  }

  /** What a call gives up, and in which order. */
  lemma GivesUpExactly(entries: seq<Entry>, path: Path, revision: Option<Revision>, made: Option<Object>, max: nat)
    requires CacheOk(entries, max) && max >= 1
    ensures GivesUp(entries, path, revision, made, max, GivenUp(entries, path, revision, made, max))
  {
    HitExactly(entries, path, revision, max);
    WithoutPathIs(entries, path);
    StoredIs(entries, path, max);
    hide Hit, Fresh, OthersOf, WithoutPath, StoredAt, Displaced, CacheOk;
    if made.Some? && revision.Some? && !Hit(entries, path, revision) {
      DisplacedIs(entries, Entry(path, revision.value, made.value), max);
    }
  }
}
