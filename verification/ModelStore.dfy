/**
 The runtime-object cache of src/omnitensor/executors/base.py and its deferred teardown, as a step
 machine. A step is what one thread does while it holds a lock, or one call into a native library; any
 number of threads interleave between steps. The cache lock makes `get_or_build` and `close` one
 section at a time; the in-flight count has a lock of its own.
 */
module ModelStore {
  import opened Prelude

  type Path(==, !new, 0)
  type Revision(==, !new, 0)
  /** One runtime object: a session, a compiled model, a net. */
  type Object(==, !new, 0)
  /** One entry into `running()`. */
  type JobId(==, !new, 0)

  datatype Entry = Entry(path: Path, revision: Revision, value: Object)

  // The bounded cache: entries from least to most recently used.

  ghost predicate CacheOk(entries: seq<Entry>, max: nat) {
    && |entries| <= max
    && (forall i, j :: 0 <= i < j < |entries| ==> entries[i].path != entries[j].path)
    && (forall i, j :: 0 <= i < j < |entries| ==> entries[i].value != entries[j].value)
  }

  function Find(entries: seq<Entry>, path: Path): (i: Option<nat>)
    ensures i.Some? ==> i.value < |entries| && entries[i.value].path == path
    ensures i.None? ==> forall k :: 0 <= k < |entries| ==> entries[k].path != path
  {
    if entries == [] then None
    else if entries[0].path == path then Some(0)
    else
      var i := Find(entries[1..], path);
      if i.None? then None else Some(i.value + 1)
  }

  /** Stored under `path` and not stale; a file that cannot be read has no revision and is never a hit. */
  predicate Hit(entries: seq<Entry>, path: Path, revision: Option<Revision>) {
    var i := Find(entries, path);
    i.Some? && revision == Some(entries[i.value].revision)
  }

  /** The entry at `i` made the most recently used. */
  function Touched(entries: seq<Entry>, i: nat): seq<Entry>
    requires i < |entries|
  {
    DropAt(entries, i) + [entries[i]]
  }

  function WithoutPath(entries: seq<Entry>, path: Path): seq<Entry> {
    var i := Find(entries, path);
    if i.None? then entries else DropAt(entries, i.value)
  }

  /** The objects stored under `path`: none or one. */
  function StoredAt(entries: seq<Entry>, path: Path): (r: seq<Object>)
    ensures |r| <= 1
  {
    var i := Find(entries, path);
    if i.None? then [] else [entries[i.value].value]
  }

  function Objects(entries: seq<Entry>): (r: seq<Object>)
    ensures |r| == |entries|
  {
    seq(|entries|, i requires 0 <= i < |entries| => entries[i].value)
  }

  /** The new entry stored last, then the oldest entries dropped down to the bound. */
  function Kept(entries: seq<Entry>, entry: Entry, max: nat): seq<Entry> {
    var grown := WithoutPath(entries, entry.path) + [entry];
    grown[Surplus(|grown|, max)..]
  }

  /** What that displaces, in the order it is given up: the replaced object, then the evicted ones. */
  function Displaced(entries: seq<Entry>, entry: Entry, max: nat): seq<Object> {
    var grown := WithoutPath(entries, entry.path) + [entry];
    StoredAt(entries, entry.path) + Objects(grown[..Surplus(|grown|, max)])
  }

  lemma TouchedOk(entries: seq<Entry>, i: nat, max: nat)
    requires CacheOk(entries, max) && i < |entries|
    ensures CacheOk(Touched(entries, i), max)
    ensures forall o :: o in Objects(Touched(entries, i)) <==> o in Objects(entries)
  {
    var r := Touched(entries, i);
    forall o ensures o in Objects(r) <==> o in Objects(entries) {
      if o in Objects(entries) {
        var k :| 0 <= k < |entries| && entries[k].value == o;
        var k' := if k < i then k else if k == i then |r| - 1 else k - 1;
        assert Objects(r)[k'] == o;
      }
      if o in Objects(r) {
        var k :| 0 <= k < |r| && r[k].value == o;
        var k' := if k == |r| - 1 then i else if k < i then k else k + 1;
        assert Objects(entries)[k'] == o;
      }
    }
  }

  lemma WithoutPathOk(entries: seq<Entry>, path: Path, max: nat)
    requires CacheOk(entries, max)
    ensures var r := WithoutPath(entries, path);
      && CacheOk(r, max)
      && (forall k :: 0 <= k < |r| ==> r[k].path != path)
      && (forall o :: o in Objects(entries) <==> o in Objects(r) || o in StoredAt(entries, path))
      && (forall o :: o in StoredAt(entries, path) ==> o !in Objects(r))
  {
    var r := WithoutPath(entries, path);
    var found := Find(entries, path);
    if found.Some? {
      var i := found.value;
      forall o ensures o in Objects(entries) <==> o in Objects(r) || o == entries[i].value {
        if o in Objects(entries) {
          var k :| 0 <= k < |entries| && entries[k].value == o;
          if k != i {
            assert Objects(r)[if k < i then k else k - 1] == o;
          }
        }
        if o in Objects(r) {
          var k :| 0 <= k < |r| && r[k].value == o;
          assert Objects(entries)[if k < i then k else k + 1] == o;
        }
        assert Objects(entries)[i] == entries[i].value;
      }
    }
  }

  /** Appending a fresh entry and cutting the oldest down to the bound. */
  lemma TrimOk(rest: seq<Entry>, entry: Entry, max: nat)
    requires CacheOk(rest, max) && max >= 1 && entry.value !in Objects(rest)
    requires forall k :: 0 <= k < |rest| ==> rest[k].path != entry.path
    ensures var grown := rest + [entry]; var cut := Surplus(|grown|, max);
      var kept, evicted := grown[cut..], Objects(grown[..cut]);
      && CacheOk(kept, max)
      && entry.value in Objects(kept) && entry.value !in evicted
      && Distinct(evicted)
      && (forall o :: o in evicted ==> o in Objects(rest) && o !in Objects(kept))
      && (forall o :: o in Objects(rest) ==> o in Objects(kept) || o in evicted)
      && (forall o :: o in Objects(kept) ==> o in Objects(rest) || o == entry.value)
  {
    var grown := rest + [entry];
    var cut := Surplus(|grown|, max);
    var kept, evicted := grown[cut..], Objects(grown[..cut]);
    forall k | 0 <= k < |rest| ensures grown[k] == rest[k] && rest[k].value in Objects(rest) {
      assert Objects(rest)[k] == rest[k].value;
    }
    assert Objects(kept)[|kept| - 1] == entry.value;
    forall o | o in Objects(rest) ensures o in Objects(kept) || o in evicted {
      var k :| 0 <= k < |rest| && rest[k].value == o;
      if k < cut {
        assert evicted[k] == o;
      } else {
        assert Objects(kept)[k - cut] == o;
      }
    }
  }

  /**
   Storing a new object keeps paths and objects distinct and the bound, never displaces what was just
   stored, and splits everything held into kept and displaced.
   */
  lemma KeptOk(entries: seq<Entry>, entry: Entry, max: nat)
    requires CacheOk(entries, max) && max >= 1 && entry.value !in Objects(entries)
    ensures var kept := Kept(entries, entry, max); var displaced := Displaced(entries, entry, max);
      && CacheOk(kept, max)
      && entry.value in Objects(kept) && entry.value !in displaced
      && Distinct(displaced)
      && (forall o :: o in displaced ==> o in Objects(entries) && o !in Objects(kept))
      && (forall o :: o in Objects(entries) ==> o in Objects(kept) || o in displaced)
      && (forall o :: o in Objects(kept) ==> o in Objects(entries) || o == entry.value)
  {
    WithoutPathOk(entries, entry.path, max);
    TrimOk(WithoutPath(entries, entry.path), entry, max);
    hide WithoutPath, StoredAt, Objects, CacheOk;
  }
}
