/** What each operation of the weighted queue does to the list under each key, and to the number of items. */
module StrideDepth {
  import opened Prelude
  import opened Stride
  import opened StrideRuns

  ghost function DepthIn<T>(q: Queue<T>): nat
    requires WellFormed(q)
  {
    DepthOf(q.items, q.order)
  }

  lemma {:induction false} DepthFirst<T>(items: map<Key, seq<T>>, keys: seq<Key>)
    requires keys != [] && forall k :: k in keys ==> k in items
    ensures DepthOf(items, keys) == |items[keys[0]]| + DepthOf(items, keys[1..])
  {
    if |keys| > 1 {
      DepthFirst(items, keys[..|keys| - 1]);
      assert keys[1..][..|keys| - 2] == keys[..|keys| - 1][1..];
    }
  }

  lemma {:induction false} DepthSame<T>(before: map<Key, seq<T>>, after: map<Key, seq<T>>, keys: seq<Key>)
    requires forall k :: k in keys ==> k in before && k in after && before[k] == after[k]
    ensures DepthOf(before, keys) == DepthOf(after, keys)
  {
    if keys != [] {
      DepthSame(before, after, keys[..|keys| - 1]);
    }
  }

  lemma {:induction false} DepthChanged<T>(items: map<Key, seq<T>>, keys: seq<Key>, key: Key, queue: seq<T>)
    requires Distinct(keys) && key in keys && forall k :: k in keys ==> k in items
    ensures DepthOf(items[key := queue], keys) == DepthOf(items, keys) - |items[key]| + |queue|
  {
    var front, last := keys[..|keys| - 1], keys[|keys| - 1];
    assert keys == front + [last];
    if last == key {
      assert key !in front;
      DepthSame(items, items[key := queue], front);
    } else {
      DepthChanged(items, front, key, queue);
    }
  }

  lemma {:induction false} DepthRemoved<T>(items: map<Key, seq<T>>, keys: seq<Key>, key: Key)
    requires Distinct(keys) && key in keys && forall k :: k in keys ==> k in items
    ensures forall k :: k in Without(keys, key) ==> k in items - {key}
    ensures DepthOf(items - {key}, Without(keys, key)) == DepthOf(items, keys) - |items[key]|
  {
    WithoutMembers(keys, key);
    DepthFirst(items, keys);
    assert keys == [keys[0]] + keys[1..];
    if keys[0] == key {
      assert key !in keys[1..];
      DepthSame(items, items - {key}, keys[1..]);
    } else {
      DepthRemoved(items, keys[1..], key);
      var rest := Without(keys[1..], key);
      assert Without(keys, key) == [keys[0]] + rest;
      assert ([keys[0]] + rest)[1..] == rest;
      DepthFirst(items - {key}, Without(keys, key));
    }
  }

  lemma PushDepth<T>(q: Queue<T>, key: Key, item: T)
    requires WellFormed(q)
    ensures WellFormed(Pushed(q, key, item)) && DepthIn(Pushed(q, key, item)) == DepthIn(q) + 1
  {
    PushedKeeps(q, key, item);
    if key in q.items {
      DepthChanged(q.items, q.order, key, q.items[key] + [item]);
    } else {
      var r := Pushed(q, key, item);
      assert (q.order + [key])[..|q.order|] == q.order;
      DepthSame(q.items, r.items, q.order);
    }
  }

  lemma PopDepth<T>(q: Queue<T>, weightOf: Key -> Weight, policy: Policy)
    requires WellFormed(q) && Next(q, policy).Some?
    ensures WellFormed(Popped(q, weightOf, policy)) && DepthIn(Popped(q, weightOf, policy)) == DepthIn(q) - 1
  {
    PoppedKeeps(q, weightOf, policy);
    var key := Next(q, policy).value;
    var level := Levelled(q, policy, weightOf(key));
    TakenDepth(level, key);
  }

  lemma TakenDepth<T>(q: Queue<T>, key: Key)
    requires WellFormed(q) && key in q.items
    ensures WellFormed(Taken(q, key)) && DepthIn(Taken(q, key)) == DepthIn(q) - 1
  {
    TakenKeeps(q, key);
    assert q.items[key] != [];
    if |q.items[key]| == 1 {
      DepthRemoved(q.items, q.order, key);
    } else {
      DepthChanged(q.items, q.order, key, q.items[key][1..]);
    }
  }

  lemma DiscardDepth<T>(q: Queue<T>, key: Key, item: T)
    requires WellFormed(q)
    ensures WellFormed(Discarded(q, key, item)) && DepthIn(Discarded(q, key, item)) <= DepthIn(q)
  {
    DiscardedKeeps(q, key, item);
    if key in q.items && item in q.items[key] {
      if |q.items[key]| == 1 {
        DepthRemoved(q.items, q.order, key);
      } else {
        DepthChanged(q.items, q.order, key, Without(q.items[key], item));
      }
    }
  }

  lemma PushEffect<T>(q: Queue<T>, key: Key, item: T)
    requires WellFormed(q)
    ensures Waiting(Pushed(q, key, item), key) == Waiting(q, key) + [item]
    ensures forall k :: k != key ==> Waiting(Pushed(q, key, item), k) == Waiting(q, k)
  {
  }

  /** A pop takes the front of one key's queue and leaves every other queue alone. */
  lemma PopEffect<T>(q: Queue<T>, weightOf: Key -> Weight, policy: Policy)
    requires WellFormed(q) && Next(q, policy).Some?
    ensures WellFormed(Popped(q, weightOf, policy))
    ensures var (key, item) := Served(q, policy).value; var r := Popped(q, weightOf, policy);
      && Waiting(q, key) == [item] + Waiting(r, key)
      && forall k :: k != key ==> Waiting(r, k) == Waiting(q, k)
  {
    PoppedKeeps(q, weightOf, policy);
    var key := Next(q, policy).value;
    PopWaiting(q, weightOf, policy, key);
    hide Popped, WellFormed, Waiting, Next;
    forall k | k != key ensures Waiting(Popped(q, weightOf, policy), k) == Waiting(q, k) {
      PopWaiting(q, weightOf, policy, k);
    }
  }

  lemma DiscardEffect<T>(q: Queue<T>, key: Key, item: T)
    requires WellFormed(q)
    ensures Waiting(Discarded(q, key, item), key) == Without(Waiting(q, key), item)
    ensures forall k :: k != key ==> Waiting(Discarded(q, key, item), k) == Waiting(q, k)
  {
    if key in q.items && item in q.items[key] && |q.items[key]| == 1 {
      assert Without(q.items[key], item) == [];
    }
  }
}
