/**
 Things that are always in exactly one place, with the list kept for each place: how moving them changes
 the lists. Shared by the runtime-object store and the scheduler.
 */
module Placement {
  import opened Prelude

  /** `list` holds the things at `at`, each once, and no others. */
  ghost predicate Exactly<T(!new), P(!new)>(list: seq<T>, place: map<T, P>, at: P) {
    Distinct(list) && forall o :: o in list <==> o in place && place[o] == at
  }

  function Moved<T, P>(place: map<T, P>, things: seq<T>, to: P): (r: map<T, P>)
    ensures r.Keys == place.Keys
    ensures forall o :: o in place ==> r[o] == (if o in things then to else place[o])
  {
    map o | o in place :: if o in things then to else place[o]
  }

  lemma Stay<T(!new), P(!new)>(list: seq<T>, place: map<T, P>, o: T, to: P, at: P)
    requires Exactly(list, place, at) && to != at && (o in place ==> place[o] != at)
    ensures Exactly(list, place[o := to], at)
  {
  }

  lemma Gain<T(!new), P(!new)>(list: seq<T>, place: map<T, P>, o: T, at: P)
    requires Exactly(list, place, at) && (o in place ==> place[o] != at)
    ensures Exactly(list + [o], place[o := at], at)
  {
    assert o !in list;
  }

  lemma LoseFirst<T(!new), P(!new)>(list: seq<T>, place: map<T, P>, to: P, at: P)
    requires Exactly(list, place, at) && list != [] && to != at
    ensures list[0] in place && place[list[0]] == at
    ensures Exactly(list[1..], place[list[0] := to], at)
  {
    assert list == [list[0]] + list[1..];
    assert list[0] !in list[1..];
  }

  lemma StayAll<T(!new), P(!new)>(list: seq<T>, place: map<T, P>, moved: seq<T>, to: P, at: P)
    requires Exactly(list, place, at) && to != at && forall o :: o in moved ==> o in place && place[o] != at
    ensures Exactly(list, Moved(place, moved, to), at)
  {
  }

  lemma GainAll<T(!new), P(!new)>(place: map<T, P>, moved: seq<T>, from: P, to: P)
    requires Exactly(moved, place, from) && Exactly([], place, to) && from != to
    ensures Exactly(moved, Moved(place, moved, to), to) && Exactly([], Moved(place, moved, to), from)
  {
  }
}
