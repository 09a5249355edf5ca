/** The per-profile count of work in flight, as a table that holds no zeros. */
module RunningCounts {
  import opened Stride

  function RunningOf(running: map<Key, nat>, profile: Key): nat {
    if profile in running then running[profile] else 0
  }

  ghost function Total(running: map<Key, nat>): nat {
    SumOver(running, running.Keys)
  }

  ghost function SumOver(running: map<Key, nat>, keys: set<Key>): nat
    requires keys <= running.Keys
  {
    if keys == {} then 0
    else
      var k :| k in keys;
      running[k] + SumOver(running, keys - {k})
  }

  lemma {:induction false} SumPick(running: map<Key, nat>, keys: set<Key>, k: Key)
    requires keys <= running.Keys && k in keys
    ensures SumOver(running, keys) == running[k] + SumOver(running, keys - {k})
    decreases keys
  {
    var j :| j in keys && SumOver(running, keys) == running[j] + SumOver(running, keys - {j});
    if j != k {
      SumPick(running, keys - {j}, k);
      SumPick(running, keys - {k}, j);
      assert keys - {j} - {k} == keys - {k} - {j};
    }
  }

  lemma {:induction false} SumSame(a: map<Key, nat>, b: map<Key, nat>, keys: set<Key>)
    requires keys <= a.Keys && keys <= b.Keys && forall k :: k in keys ==> a[k] == b[k]
    ensures SumOver(a, keys) == SumOver(b, keys)
    decreases keys
  {
    if keys != {} {
      var k :| k in keys;
      SumPick(a, keys, k);
      SumPick(b, keys, k);
      SumSame(a, b, keys - {k});
    }
  }

  lemma TotalSet(running: map<Key, nat>, profile: Key, n: nat)
    ensures Total(running[profile := n]) == Total(running) - RunningOf(running, profile) + n
  {
    var after := running[profile := n];
    SumPick(after, after.Keys, profile);
    SumSame(running, after, after.Keys - {profile});
    if profile in running {
      SumPick(running, running.Keys, profile);
      assert after.Keys == running.Keys;
    } else {
      assert after.Keys - {profile} == running.Keys;
    }
  }

  lemma TotalDropped(running: map<Key, nat>, profile: Key)
    ensures Total(running - {profile}) == Total(running) - RunningOf(running, profile)
  {
    if profile in running {
      SumPick(running, running.Keys, profile);
      SumSame(running, running - {profile}, running.Keys - {profile});
      assert (running - {profile}).Keys == running.Keys - {profile};
    } else {
      assert running - {profile} == running;
    }
  }

  /** One slot of `profile` given back; a count that reaches zero leaves the table. */
  function Unslotted(running: map<Key, nat>, profile: Key): map<Key, nat> {
    var remaining: int := RunningOf(running, profile) - 1;
    if remaining > 0 then running[profile := remaining] else running - {profile}
  }

  lemma UnslottedCounts(running: map<Key, nat>, profile: Key)
    requires RunningOf(running, profile) > 0
    ensures Total(Unslotted(running, profile)) == Total(running) - 1
    ensures RunningOf(Unslotted(running, profile), profile) == RunningOf(running, profile) - 1
    ensures forall p :: p != profile ==> RunningOf(Unslotted(running, profile), p) == RunningOf(running, p)
    ensures (forall p :: p in running ==> running[p] > 0) ==>
      forall p :: p in Unslotted(running, profile) ==> Unslotted(running, profile)[p] > 0
  {
    TotalSet(running, profile, RunningOf(running, profile) - 1);
    TotalDropped(running, profile);
  }
}
