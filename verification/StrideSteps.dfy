/**
 What one push, pop or discard does to the weighted queue, as a relation between the tables before and after
 that names none of the queue's own operations. Each relation leaves nothing open: it has one outcome.
 */
module StrideSteps {
  import opened Prelude
  import opened Stride
  import opened StrideDepth

  /** Everybody waits as before, but for `after` under `key`. */
  ghost predicate OnlyList<T>(q: Queue<T>, r: Queue<T>, key: Key, after: seq<T>) {
    Waiting(r, key) == after && forall k :: k != key ==> Waiting(r, k) == Waiting(q, k)
  }

  /** The keys with passes are those in order. */
  ghost predicate PassesFor<T>(q: Queue<T>) { forall k :: k in q.passes <==> k in q.order }

  // A push.

  /** A pass no stored pass is below, and that is one of them; zero where nothing is stored. */
  ghost predicate LowestStored<T>(q: Queue<T>, pass: int) {
    && (forall k :: k in q.passes ==> pass <= q.passes[k])
    && (if q.passes.Keys == {} then pass == 0 else exists k :: k in q.passes && q.passes[k] == pass)
  }

  /** The item goes to the back of its key's list; a key that was not there comes last, at the lowest stored pass. */
  ghost predicate Joins<T>(q: Queue<T>, r: Queue<T>, key: Key, item: T) {
    && OnlyList(q, r, key, Waiting(q, key) + [item])
    && r.order == (if key in q.order then q.order else q.order + [key])
    && PassesFor(r)
    && (forall k :: k in q.passes ==> k in r.passes && r.passes[k] == q.passes[k])
    && (key !in q.order ==> key in r.passes && LowestStored(q, r.passes[key]))
  }

  lemma PushJoins<T>(q: Queue<T>, key: Key, item: T)
    requires WellFormed(q)
    ensures Joins(q, Pushed(q, key, item), key, item)
  {
    PushEffect(q, key, item);
    PushedKeeps(q, key, item);
    if key !in q.order {
      assert q.passes.Keys == {} <==> q.order == [] by {
        assert q.order != [] ==> q.order[0] in q.passes;
      }
    }
  }

  lemma SameQueue<T>(a: Queue<T>, b: Queue<T>)
    requires WellFormed(a) && WellFormed(b) && a.order == b.order
    requires forall k :: Waiting(a, k) == Waiting(b, k)
    requires forall k :: k in a.order ==> a.passes[k] == b.passes[k]
    ensures a == b
  {
    assert a.items.Keys == b.items.Keys && a.passes.Keys == b.passes.Keys;
    forall k | k in a.items ensures a.items[k] == b.items[k] {
      assert Waiting(a, k) == Waiting(b, k);
    }
  }

  /** A push can only come to that. */
  lemma JoinsOnce<T>(q: Queue<T>, a: Queue<T>, b: Queue<T>, key: Key, item: T)
    requires WellFormed(q) && WellFormed(a) && WellFormed(b) && Joins(q, a, key, item) && Joins(q, b, key, item)
    ensures a == b
  {
    if key !in q.order {
      OneLowestStored(q, a.passes[key], b.passes[key]);
    }
    hide Waiting, LowestStored;
    forall k ensures Waiting(a, k) == Waiting(b, k) {
    }
    SameQueue(a, b);
  }

  lemma OneLowestStored<T>(q: Queue<T>, a: int, b: int)
    requires LowestStored(q, a) && LowestStored(q, b)
    ensures a == b
  {
  }

  // A pop.

  /** Admitted, with a pass no admitted key's is below, and first in order among those. */
  ghost predicate IsNext<T>(q: Queue<T>, policy: Policy, key: Key)
    requires PassesFor(q)
  {
    exists i :: 0 <= i < |q.order| && q.order[i] == key && IsNextAt(q, policy, i)
  }

  ghost predicate IsNextAt<T>(q: Queue<T>, policy: Policy, i: nat)
    requires PassesFor(q) && i < |q.order|
  {
    && Admits(policy, q.order[i])
    && forall j :: 0 <= j < |q.order| && Admits(policy, q.order[j]) ==>
      q.passes[q.order[i]] <= q.passes[q.order[j]] && (j < i ==> q.passes[q.order[i]] < q.passes[q.order[j]])
  }

  /** The pass of the served key once it has paid for the serve. */
  function PaidPass<T>(q: Queue<T>, key: Key, weight: Weight): int
    requires key in q.passes
  {
    q.passes[key] + Increment(weight)
  }

  /** The lowest pass of an admitted key once `key` has paid. */
  ghost predicate LowestAdmitted<T>(q: Queue<T>, policy: Policy, key: Key, weight: Weight, pass: int)
    requires PassesFor(q) && key in q.order
  {
    && pass <= PaidPass(q, key, weight)
    && (forall k :: k in q.order && k != key && Admits(policy, k) ==> pass <= q.passes[k])
    && (pass == PaidPass(q, key, weight) ||
        exists k :: k in q.order && k != key && Admits(policy, k) && q.passes[k] == pass)
  }

  /** The larger of the two. */
  function Raised(pass: int, floor: int): int { if pass < floor then floor else pass }

  /** The served key pays, other admitted keys keep their passes, the rest rise to the lowest admitted and no further. */
  ghost predicate PassesAfter<T>(q: Queue<T>, r: Queue<T>, policy: Policy, weight: Weight, key: Key)
    requires PassesFor(q) && PassesFor(r) && key in q.order
  {
    forall k, floor :: k in r.order && LowestAdmitted(q, policy, key, weight, floor) ==>
      k in q.order && r.passes[k] == PassAfter(q, policy, weight, key, floor, k)
  }

  function PassAfter<T>(q: Queue<T>, policy: Policy, weight: Weight, key: Key, floor: int, k: Key): int
    requires key in q.passes && k in q.passes
  {
    if k == key then PaidPass(q, key, weight)
    else if Admits(policy, k) then q.passes[k] else Raised(q.passes[k], floor)
  }

  /** The front item of the next key is taken, the key with it once drained; the passes move as above. */
  ghost predicate Serves<T>(q: Queue<T>, r: Queue<T>, policy: Policy, weight: Weight, key: Key, item: T) {
    && PassesFor(q) && PassesFor(r) && IsNext(q, policy, key)
    && (Waiting(q, key) != [] && item == Waiting(q, key)[0] && OnlyList(q, r, key, Waiting(q, key)[1..]))
    && r.order == (if |Waiting(q, key)| == 1 then Without(q.order, key) else q.order)
    && PassesAfter(q, r, policy, weight, key)
  }

  lemma NextIsNext<T>(q: Queue<T>, policy: Policy)
    requires WellFormed(q)
    ensures Next(q, policy).Some? ==> IsNext(q, policy, Next(q, policy).value)
    ensures Next(q, policy).None? ==> forall k :: k in q.order ==> !Admits(policy, k)
  {
    var best := Best(q, policy, |q.order|);
    if best.Some? {
      assert IsNextAt(q, policy, best.value);
    }
  }

  lemma LevelledPasses<T>(q: Queue<T>, policy: Policy, weight: Weight, k: Key, floor: int)
    requires WellFormed(q) && Next(q, policy).Some? && k in q.order
    requires LowestAdmitted(q, policy, Next(q, policy).value, weight, floor)
    ensures Levelled(q, policy, weight).passes[k] == PassAfter(q, policy, weight, Next(q, policy).value, floor, k)
  {
    var key := Next(q, policy).value;
    var paid := Charged(q, key, weight);
    ChargedAdvances(q, policy, weight);
    ClampedLevels(paid, policy);
    hide Clamped;
    var low := Next(paid, policy).value;
    assert low in paid.order && Admits(policy, low);
    assert paid.passes[low] == floor;
  }

  lemma SomeLowest<T>(q: Queue<T>, policy: Policy, weight: Weight)
    requires WellFormed(q) && Next(q, policy).Some?
    ensures exists floor :: LowestAdmitted(q, policy, Next(q, policy).value, weight, floor)
  {
    var paid := Charged(q, Next(q, policy).value, weight);
    ChargedAdvances(q, policy, weight);
    assert LowestAdmitted(q, policy, Next(q, policy).value, weight, paid.passes[Next(paid, policy).value]);
  }

  lemma TakenTables<T>(q: Queue<T>, key: Key)
    requires WellFormed(q) && key in q.items
    ensures var r := Taken(q, key);
      && r.order == (if |q.items[key]| == 1 then Without(q.order, key) else q.order)
      && (forall k :: k in r.order ==> k in q.order && k in r.passes && r.passes[k] == q.passes[k])
  {
    TakenKeeps(q, key);
    WithoutMembers(q.order, key);
  }

  lemma PoppedIs<T>(q: Queue<T>, weightOf: Key -> Weight, policy: Policy)
    requires WellFormed(q) && Next(q, policy).Some?
    ensures var key := Next(q, policy).value; var mid := Levelled(q, policy, weightOf(key));
      key in q.order && key in mid.items && mid.items[key] == Waiting(q, key) != [] && mid.order == q.order
      && Popped(q, weightOf, policy) == Taken(mid, key)
  {
    hide Levelled, Taken;
  }

  lemma PopOrder<T>(q: Queue<T>, weightOf: Key -> Weight, policy: Policy)
    requires WellFormed(q) && Next(q, policy).Some?
    ensures var key := Next(q, policy).value; var r := Popped(q, weightOf, policy);
      && WellFormed(r) && r.order == (if |Waiting(q, key)| == 1 then Without(q.order, key) else q.order)
  {
    hide Popped, Next, Levelled, Taken, Waiting, WellFormed;
    PoppedKeeps(q, weightOf, policy);
    PoppedIs(q, weightOf, policy);
    TakenTables(Levelled(q, policy, weightOf(Next(q, policy).value)), Next(q, policy).value);
  }

  lemma PopPass<T>(q: Queue<T>, weightOf: Key -> Weight, policy: Policy, k: Key, floor: int)
    requires WellFormed(q) && Next(q, policy).Some? && k in Popped(q, weightOf, policy).order
    requires var key := Next(q, policy).value; LowestAdmitted(q, policy, key, weightOf(key), floor)
    ensures k in q.order && k in Popped(q, weightOf, policy).passes
    ensures var key := Next(q, policy).value;
      Popped(q, weightOf, policy).passes[k] == PassAfter(q, policy, weightOf(key), key, floor, k)
  {
    var key := Next(q, policy).value;
    var mid := Levelled(q, policy, weightOf(key));
    hide Popped, Next, Levelled, Taken, Waiting, LowestAdmitted, PassAfter;
    PoppedIs(q, weightOf, policy);
    TakenTables(mid, key);
    LevelledPasses(q, policy, weightOf(key), k, floor);
  }

  lemma HasPasses<T>(q: Queue<T>)
    requires WellFormed(q)
    ensures PassesFor(q)
  {
  }

  lemma PopPasses<T>(q: Queue<T>, weightOf: Key -> Weight, policy: Policy)
    requires WellFormed(q) && Next(q, policy).Some?
    ensures var key := Next(q, policy).value; var r := Popped(q, weightOf, policy);
      key in q.order && PassesFor(q) && PassesFor(r) && PassesAfter(q, r, policy, weightOf(key), key)
  {
    hide Popped, Next, Levelled, Taken, Waiting, LowestAdmitted, PassAfter, WellFormed;
    var key := Next(q, policy).value;
    PopOrder(q, weightOf, policy);
    PoppedIs(q, weightOf, policy);
    HasPasses(q);
    HasPasses(Popped(q, weightOf, policy));
    forall k, floor | k in Popped(q, weightOf, policy).order && LowestAdmitted(q, policy, key, weightOf(key), floor)
      ensures k in q.order && Popped(q, weightOf, policy).passes[k] == PassAfter(q, policy, weightOf(key), key, floor, k)
    {
      PopPass(q, weightOf, policy, k, floor);
    }
  }

  lemma FrontTaken<T>(before: seq<T>, item: T, after: seq<T>)
    requires before == [item] + after
    ensures before != [] && item == before[0] && after == before[1..]
  {
  }

  /** A pop serves the next key, or finds nobody admitted and changes nothing. */
  lemma PopServes<T>(q: Queue<T>, weightOf: Key -> Weight, policy: Policy)
    requires WellFormed(q)
    ensures Served(q, policy).None? ==>
      Popped(q, weightOf, policy) == q && forall k :: k in q.order ==> !Admits(policy, k)
    ensures Served(q, policy).Some? ==> var (key, item) := Served(q, policy).value;
      Serves(q, Popped(q, weightOf, policy), policy, weightOf(key), key, item)
  {
    NextIsNext(q, policy);
    if Next(q, policy).Some? {
      PopServesNext(q, weightOf, policy);
    }
    hide Next, Serves, PassesAfter, WellFormed;
  }

  lemma PopServesNext<T>(q: Queue<T>, weightOf: Key -> Weight, policy: Policy)
    requires WellFormed(q) && Next(q, policy).Some?
    ensures Served(q, policy).Some? && Served(q, policy).value.0 == Next(q, policy).value
    ensures var key := Next(q, policy).value;
      Serves(q, Popped(q, weightOf, policy), policy, weightOf(key), key, Served(q, policy).value.1)
  {
    var key := Next(q, policy).value;
    assert Served(q, policy).Some? && Served(q, policy).value.0 == key;
    hide Popped, Next, PassesAfter, IsNext, WellFormed, Waiting, Served, PassesFor;
    NextIsNext(q, policy);
    PopOrder(q, weightOf, policy);
    PopPasses(q, weightOf, policy);
    PopEffect(q, weightOf, policy);
    FrontTaken(Waiting(q, key), Served(q, policy).value.1, Waiting(Popped(q, weightOf, policy), key));
  }

  lemma OneNext<T>(q: Queue<T>, policy: Policy, a: Key, b: Key)
    requires PassesFor(q) && IsNext(q, policy, a) && IsNext(q, policy, b)
    ensures a == b
  {
  }

  lemma OneLowest<T>(q: Queue<T>, policy: Policy, key: Key, weight: Weight, a: int, b: int)
    requires PassesFor(q) && key in q.order
    requires LowestAdmitted(q, policy, key, weight, a) && LowestAdmitted(q, policy, key, weight, b)
    ensures a == b
  {
  }

  lemma NextSettles<T>(q: Queue<T>, policy: Policy, key: Key)
    requires WellFormed(q) && IsNext(q, policy, key)
    ensures Next(q, policy) == Some(key)
  {
    NextIsNext(q, policy);
    if Next(q, policy).Some? {
      OneNext(q, policy, key, Next(q, policy).value);
    }
  }

  lemma OnePass<T>(q: Queue<T>, policy: Policy, weight: Weight, key: Key, a: Queue<T>, b: Queue<T>)
    requires WellFormed(q) && PassesFor(a) && PassesFor(b) && IsNext(q, policy, key)
    requires PassesAfter(q, a, policy, weight, key) && PassesAfter(q, b, policy, weight, key) && a.order == b.order
    ensures forall k :: k in a.order ==> a.passes[k] == b.passes[k]
  {
    NextSettles(q, policy, key);
    SomeLowest(q, policy, weight);
    var floor :| LowestAdmitted(q, policy, key, weight, floor);
    hide LowestAdmitted, IsNext, PassAfter;
  }

  /** A pop can only come to that: one key, one item, one queue left. */
  lemma ServesOnce<T>(q: Queue<T>, policy: Policy, weightOf: Key -> Weight, a: Queue<T>, k: Key, i: T,
                      b: Queue<T>, l: Key, j: T)
    requires WellFormed(q) && WellFormed(a) && WellFormed(b)
    requires Serves(q, a, policy, weightOf(k), k, i) && Serves(q, b, policy, weightOf(l), l, j)
    ensures k == l && i == j && a == b
  {
    OneNext(q, policy, k, l);
    OnePass(q, policy, weightOf(k), k, a, b);
    hide IsNext, PassesAfter, WellFormed, Waiting;
    forall o ensures Waiting(a, o) == Waiting(b, o) {
    }
    SameQueue(a, b);
  }

  // A discard.

  /** The first occurrence is struck out; a key left with nothing goes; no pass that stays is moved. */
  ghost predicate Drops<T>(q: Queue<T>, r: Queue<T>, key: Key, item: T) {
    && OnlyList(q, r, key, Without(Waiting(q, key), item))
    && r.order == (if Waiting(q, key) == [item] then Without(q.order, key) else q.order)
    && PassesFor(r)
    && forall k :: k in r.order ==> k in q.passes && r.passes[k] == q.passes[k]
  }

  lemma DiscardDrops<T>(q: Queue<T>, key: Key, item: T)
    requires WellFormed(q)
    ensures Drops(q, Discarded(q, key, item), key, item)
  {
    DiscardEffect(q, key, item);
    DiscardedKeeps(q, key, item);
    WithoutMembers(q.order, key);
  }

  lemma DropsOnce<T>(q: Queue<T>, a: Queue<T>, b: Queue<T>, key: Key, item: T)
    requires WellFormed(a) && WellFormed(b) && Drops(q, a, key, item) && Drops(q, b, key, item)
    ensures a == b
  {
    forall k ensures Waiting(a, k) == Waiting(b, k) {
    }
    SameQueue(a, b);
  }
}
