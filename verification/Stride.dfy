/**
 The weighted queue of src/omnitensor/stride.py: per-key FIFO queues, served by smallest pass.

 Passes are counted in sixtieths of a unit. Sixty is a multiple of every weight in 1..5, so the
 increment 1/weight of the source is the integer 60/weight and nothing is rounded.
 */
module Stride {
  import opened Prelude

  /** Profile identities: the queue compares keys and never looks inside one. */
  type Key(==, !new, 0)

  const UNIT := 60
  const MAX_STRIDE_WEIGHT := 5

  /** Whatever a policy hands back as a weight; Python's bool is kept apart from int. */
  datatype Weight = IntWeight(n: int) | BoolWeight(b: bool) | OtherWeight

  /** The `admits` argument: absent, or a test on keys. */
  datatype Policy = Everyone | Gate(test: Key -> bool)

  predicate Admits(policy: Policy, key: Key) {
    policy.Everyone? || policy.test(key)
  }

  function StrideWeight(weight: Weight): (w: int)
    ensures 1 <= w <= MAX_STRIDE_WEIGHT
    ensures weight.IntWeight? && 1 <= weight.n <= 5 ==> w == weight.n
    ensures weight.IntWeight? && weight.n > 5 ==> w == 5
    ensures weight.IntWeight? && weight.n < 1 ==> w == 1
    ensures !weight.IntWeight? ==> w == 1
  {
    match weight
    case IntWeight(n) => if n < 1 then 1 else if n > MAX_STRIDE_WEIGHT then MAX_STRIDE_WEIGHT else n
    case _ => 1
  }

  /** How far one serve at this weight moves a pass. */
  function Increment(weight: Weight): (u: int)
    ensures 12 <= u <= UNIT
    ensures u * StrideWeight(weight) == UNIT
  {
    UNIT / StrideWeight(weight)
  }

  /** The three tables of the queue as one value. */
  datatype Queue<T> = Queue(items: map<Key, seq<T>>, order: seq<Key>, passes: map<Key, int>)

  function Empty<T>(): Queue<T> { Queue(map[], [], map[]) }

  /** The tables hold the same distinct keys, and no key has an empty queue. */
  ghost predicate WellFormed<T>(q: Queue<T>) {
    && Distinct(q.order)
    && (forall k :: k in q.items <==> k in q.order)
    && (forall k :: k in q.passes <==> k in q.order)
    && (forall k :: k in q.items ==> q.items[k] != [])
  }

  /** All stored passes lie within one unit of each other. */
  ghost predicate Spread<T>(q: Queue<T>) {
    forall j, k :: j in q.passes && k in q.passes ==> q.passes[j] <= q.passes[k] + UNIT
  }

  function Waiting<T>(q: Queue<T>, key: Key): seq<T> {
    if key in q.items then q.items[key] else []
  }

  /**
   The position, among the first `n` keys in order, of the admitted key with the smallest pass;
   the earliest such key on a tie.
   */
  function Best<T>(q: Queue<T>, policy: Policy, n: nat): (best: Option<nat>)
    requires WellFormed(q) && n <= |q.order|
    ensures best.None? <==> forall j :: 0 <= j < n ==> !Admits(policy, q.order[j])
    ensures best.Some? ==> best.value < n && Admits(policy, q.order[best.value])
    ensures best.Some? ==> forall j :: 0 <= j < n && Admits(policy, q.order[j]) ==>
      q.passes[q.order[best.value]] <= q.passes[q.order[j]]
    ensures best.Some? ==> forall j :: 0 <= j < best.value && Admits(policy, q.order[j]) ==>
      q.passes[q.order[best.value]] < q.passes[q.order[j]]
  {
    if n == 0 then None
    else
      var best := Best(q, policy, n - 1);
      if !Admits(policy, q.order[n - 1]) then best
      else if best.None? || q.passes[q.order[n - 1]] < q.passes[q.order[best.value]] then Some(n - 1)
      else best
  }

  function Next<T>(q: Queue<T>, policy: Policy): (next: Option<Key>)
    requires WellFormed(q)
    ensures next.None? <==> forall k :: k in q.order ==> !Admits(policy, k)
    ensures next.Some? ==> next.value in q.order && Admits(policy, next.value)
    ensures next.Some? ==> forall k :: k in q.order && Admits(policy, k) ==> q.passes[next.value] <= q.passes[k]
  {
    var best := Best(q, policy, |q.order|);
    if best.None? then None else Some(q.order[best.value])
  }

  /** The smallest stored pass: the virtual time a newcomer joins at. */
  function JoinPass<T>(q: Queue<T>): (pass: int)
    requires WellFormed(q)
    ensures q.order == [] ==> pass == 0
    ensures forall k :: k in q.passes ==> pass <= q.passes[k]
    ensures q.order != [] ==> exists k :: k in q.passes && q.passes[k] == pass
  {
    var next := Next(q, Everyone);
    if next.None? then
      0
    else q.passes[next.value]
  }

  function Pushed<T>(q: Queue<T>, key: Key, item: T): Queue<T>
    requires WellFormed(q)
  {
    var items := q.items[key := Waiting(q, key) + [item]];
    if key in q.items then q.(items := items)
    else Queue(items, q.order + [key], q.passes[key := JoinPass(q)])
  }

  function Pruned<T>(q: Queue<T>, key: Key): Queue<T> {
    Queue(q.items - {key}, Without(q.order, key), q.passes - {key})
  }

  /** A held-out key's pass raised to `time`; an admitted key's pass as it was. */
  function LevelPass(policy: Policy, time: int, key: Key, pass: int): int {
    if !Admits(policy, key) && pass < time then time else pass
  }

  /** Held-out keys raised to the smallest admitted pass, never past it. */
  function Clamped<T>(q: Queue<T>, policy: Policy): Queue<T>
    requires WellFormed(q)
  {
    var next := Next(q, policy);
    if policy.Everyone? || next.None? then q
    else
      var time := q.passes[next.value];
      q.(passes := map k | k in q.passes :: LevelPass(policy, time, k, q.passes[k]))
  }

  /** `key` charged for one serve. */
  function Charged<T>(q: Queue<T>, key: Key, weight: Weight): (c: Queue<T>)
    requires WellFormed(q) && key in q.order
    ensures WellFormed(c)
  {
    q.(passes := q.passes[key := q.passes[key] + Increment(weight)])
  }

  /** The first item of `key` removed, and the key with it once drained. */
  function Taken<T>(q: Queue<T>, key: Key): Queue<T>
    requires WellFormed(q) && key in q.items
  {
    if |q.items[key]| == 1 then Pruned(q, key)
    else q.(items := q.items[key := q.items[key][1..]])
  }

  /** The queue just after a serve: charged and levelled, nothing yet removed. */
  function Levelled<T>(q: Queue<T>, policy: Policy, weight: Weight): (c: Queue<T>)
    requires WellFormed(q) && Next(q, policy).Some?
    ensures WellFormed(c) && c.items == q.items && c.order == q.order
  {
    Clamped(Charged(q, Next(q, policy).value, weight), policy)
  }

  function Popped<T>(q: Queue<T>, weightOf: Key -> Weight, policy: Policy): Queue<T>
    requires WellFormed(q)
  {
    var next := Next(q, policy);
    if next.None? then q
    else Taken(Levelled(q, policy, weightOf(next.value)), next.value)
  }

  /** What a pop hands out: the front item of the next key. */
  function Served<T>(q: Queue<T>, policy: Policy): Option<(Key, T)>
    requires WellFormed(q)
  {
    var next := Next(q, policy);
    if next.None? then None else Some((next.value, q.items[next.value][0]))
  }

  function Discarded<T(==)>(q: Queue<T>, key: Key, item: T): Queue<T>
    requires WellFormed(q)
  {
    if key !in q.items || item !in q.items[key] then q
    else if |q.items[key]| == 1 then Pruned(q, key)
    else q.(items := q.items[key := Without(q.items[key], item)])
  }

  // What every operation keeps.

  lemma PushedKeeps<T>(q: Queue<T>, key: Key, item: T)
    requires WellFormed(q)
    ensures WellFormed(Pushed(q, key, item))
    ensures Spread(q) ==> Spread(Pushed(q, key, item))
  {
    if key !in q.items {
      assert key !in q.order;
    }
  }

  lemma PrunedKeeps<T>(q: Queue<T>, key: Key)
    requires WellFormed(q)
    ensures WellFormed(Pruned(q, key))
    ensures Spread(q) ==> Spread(Pruned(q, key))
  {
    WithoutMembers(q.order, key);
  }

  /** Levelling changes no admitted pass, lowers none, and lifts the rest exactly to the lowest admitted pass. */
  lemma ClampedLevels<T>(q: Queue<T>, policy: Policy)
    requires WellFormed(q) && Next(q, policy).Some?
    ensures var time := q.passes[Next(q, policy).value]; var c := Clamped(q, policy);
      && c.items == q.items && c.order == q.order && c.passes.Keys == q.passes.Keys
      && forall k :: k in q.passes ==>
        && c.passes[k] >= time
        && c.passes[k] >= q.passes[k]
        && (Admits(policy, k) ==> c.passes[k] == q.passes[k])
        && (c.passes[k] == q.passes[k] || c.passes[k] == time)
  {
  }

  /** Charging the next key moves virtual time forward, by at most the charge. */
  lemma ChargedAdvances<T>(q: Queue<T>, policy: Policy, weight: Weight)
    requires WellFormed(q) && Next(q, policy).Some?
    ensures var key := Next(q, policy).value; var c := Charged(q, key, weight);
      && Next(c, policy).Some?
      && q.passes[key] <= c.passes[Next(c, policy).value] <= q.passes[key] + UNIT
  {
    var key := Next(q, policy).value;
    var c := Charged(q, key, weight);
    assert Admits(policy, key) && key in c.order;
  }

  /**
   After a serve, and before a drained key is pruned, no key, held out or not, is below the lowest
   admitted pass.
   */
  lemma LevelledKeeps<T>(q: Queue<T>, policy: Policy, weight: Weight)
    requires WellFormed(q) && Next(q, policy).Some?
    ensures var c := Levelled(q, policy, weight);
      && Next(c, policy).Some?
      && forall k :: k in c.passes ==> c.passes[Next(c, policy).value] <= c.passes[k]
  {
    var mid := Charged(q, Next(q, policy).value, weight);
    ChargedAdvances(q, policy, weight);
    ClampedLevels(mid, policy);
    var low := Next(mid, policy).value;
    var c := Levelled(q, policy, weight);
    assert WellFormed(c);
    assert low in c.order && Admits(policy, low);
  }

  lemma LevelledSpread<T>(q: Queue<T>, policy: Policy, weight: Weight)
    requires WellFormed(q) && Next(q, policy).Some? && Spread(q)
    ensures Spread(Levelled(q, policy, weight))
  {
    var key := Next(q, policy).value;
    var mid := Charged(q, key, weight);
    ChargedAdvances(q, policy, weight);
    ClampedLevels(mid, policy);
    var time := mid.passes[Next(mid, policy).value];
    var c := Levelled(q, policy, weight);
    forall k | k in c.passes ensures time <= c.passes[k] <= time + UNIT {
      assert q.passes[k] <= q.passes[key] + UNIT;
    }
  }

  lemma TakenKeeps<T>(q: Queue<T>, key: Key)
    requires WellFormed(q) && key in q.items
    ensures WellFormed(Taken(q, key))
    ensures Spread(q) ==> Spread(Taken(q, key))
  {
    PrunedKeeps(q, key);
    assert q.items[key] != [];
  }

  lemma PoppedKeeps<T>(q: Queue<T>, weightOf: Key -> Weight, policy: Policy)
    requires WellFormed(q)
    ensures WellFormed(Popped(q, weightOf, policy))
    ensures Spread(q) ==> Spread(Popped(q, weightOf, policy))
  {
    var next := Next(q, policy);
    if next.Some? {
      if Spread(q) {
        LevelledSpread(q, policy, weightOf(next.value));
      }
      TakenKeeps(Levelled(q, policy, weightOf(next.value)), next.value);
    }
  }

  lemma DiscardedKeeps<T>(q: Queue<T>, key: Key, item: T)
    requires WellFormed(q)
    ensures WellFormed(Discarded(q, key, item))
    ensures Spread(q) ==> Spread(Discarded(q, key, item))
  {
    PrunedKeeps(q, key);
    if key in q.items && item in q.items[key] && |q.items[key]| > 1 {
      assert Without(q.items[key], item) != [];
    }
  }

  /** Items queued under the given keys. */
  function DepthOf<T>(items: map<Key, seq<T>>, keys: seq<Key>): nat
    requires forall k :: k in keys ==> k in items
  {
    if keys == [] then 0
    else |items[keys[|keys| - 1]]| + DepthOf(items, keys[..|keys| - 1])
  }

  /** The queue itself: three tables changed in place. */
  class StrideQueue<T(==)> {
    var items: map<Key, seq<T>>
    var order: seq<Key>
    var passes: map<Key, int>

    function View(): Queue<T>
      reads this
    {
      Queue(items, order, passes)
    }

    constructor ()
      ensures View() == Empty()
    {
      items, order, passes := map[], [], map[];
    }

    method Push(key: Key, item: T)
      requires WellFormed(View())
      modifies this
      ensures View() == Pushed(old(View()), key, item)
    {
      if key !in items {
        var pass := JoinPass(View());
        items := items[key := []];
        order := order + [key];
        passes := passes[key := pass];
      }
      items := items[key := items[key] + [item]];
    }

    method Depth() returns (depth: nat)
      requires WellFormed(View())
      ensures depth == DepthOf(items, order)
    {
      depth := 0;
      for i := 0 to |order|
        invariant depth == DepthOf(items, order[..i])
      {
        assert order[..i + 1][..i] == order[..i];
        depth := depth + |items[order[i]]|;
      }
      assert order[..|order|] == order;
    }

    method ClampHeldOut(policy: Policy)
      requires WellFormed(View())
      modifies `passes
      ensures View() == Clamped(old(View()), policy)
    {
      var next := Next(View(), policy);
      if policy.Gate? && next.Some? {
        LevelAll(policy, passes[next.value]);
      }
    }

    method LevelAll(policy: Policy, time: int)
      requires forall k :: k in passes <==> k in order
      modifies `passes
      ensures passes == map k | k in old(passes) :: LevelPass(policy, time, k, old(passes)[k])
    {
      ghost var done: set<Key> := {};
      for i := 0 to |order|
        invariant passes.Keys == old(passes).Keys
        invariant forall j :: 0 <= j < i ==> order[j] in done
        invariant forall k :: k in passes ==>
          passes[k] == (if k in done then LevelPass(policy, time, k, old(passes)[k]) else old(passes)[k])
      {
        var key := order[i];
        if !Admits(policy, key) {
          passes := passes[key := if passes[key] < time then time else passes[key]];
        }
        done := done + {key};
      }
    }

    method Choose(weightOf: Key -> Weight, policy: Policy) returns (chosen: Option<Key>)
      requires WellFormed(View())
      modifies `passes
      ensures chosen == Next(old(View()), policy)
      ensures View() ==
        if chosen.None? then old(View()) else Levelled(old(View()), policy, weightOf(chosen.value))
    {
      chosen := Next(View(), policy);
      if chosen.Some? {
        ghost var charged := Charged(View(), chosen.value, weightOf(chosen.value));
        passes := passes[chosen.value := passes[chosen.value] + Increment(weightOf(chosen.value))];
        assert View() == charged;
        ClampHeldOut(policy);
      }
    }

    method Prune(key: Key)
      requires WellFormed(View())
      modifies this
      ensures View() == Pruned(old(View()), key)
    {
      items := items - {key};
      order := Without(order, key);
      passes := passes - {key};
    }

    method Pop(weightOf: Key -> Weight, policy: Policy) returns (served: Option<(Key, T)>)
      requires WellFormed(View())
      modifies this
      ensures View() == Popped(old(View()), weightOf, policy)
      ensures served == Served(old(View()), policy)
    {
      var chosen := Choose(weightOf, policy);
      if chosen.None? {
        return None;
      }
      var key := chosen.value;
      var item := items[key][0];
      if |items[key]| == 1 {
        Prune(key);
      } else {
        items := items[key := items[key][1..]];
      }
      return Some((key, item));
    }

    method Discard(key: Key, item: T) returns (removed: bool)
      requires WellFormed(View())
      modifies this
      ensures View() == Discarded(old(View()), key, item)
      ensures removed <==> key in old(items) && item in old(items)[key]
    {
      if key !in items || item !in items[key] {
        return false;
      }
      var queue := Without(items[key], item);
      if queue == [] {
        Prune(key);
      } else {
        items := items[key := queue];
      }
      return true;
    }
  }
}
