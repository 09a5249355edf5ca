/**
 What the weighted queue promises over whole runs: any sequence of pushes, pops and discards, with
 weights and admission policy changing arbitrarily between pops.
 */
module StrideRuns {
  import opened Prelude
  import opened Stride

  datatype Op<T> =
    | Push(key: Key, item: T)
    | Pop(weightOf: Key -> Weight, policy: Policy)
    | Discard(key: Key, item: T)

  ghost function Step<T>(q: Queue<T>, op: Op<T>): (r: Queue<T>)
    requires WellFormed(q)
    ensures WellFormed(r)
  {
    match op
    case Push(key, item) => PushedKeeps(q, key, item); Pushed(q, key, item)
    case Pop(weightOf, policy) => PoppedKeeps(q, weightOf, policy); Popped(q, weightOf, policy)
    case Discard(key, item) => DiscardedKeeps(q, key, item); Discarded(q, key, item)
  }

  ghost function Run<T>(q: Queue<T>, ops: seq<Op<T>>): (r: Queue<T>)
    requires WellFormed(q)
    ensures WellFormed(r)
    decreases |ops|
  {
    if ops == [] then q else Run(Step(q, ops[0]), ops[1..])
  }

  /** The spread invariant, over every run. */
  lemma {:induction false} RunSpread<T>(q: Queue<T>, ops: seq<Op<T>>)
    requires WellFormed(q) && Spread(q)
    ensures Spread(Run(q, ops))
    decreases |ops|
  {
    if ops != [] {
      match ops[0] {
        case Push(key, item) => PushedKeeps(q, key, item);
        case Pop(weightOf, policy) => PoppedKeeps(q, weightOf, policy);
        case Discard(key, item) => DiscardedKeeps(q, key, item);
      }
      RunSpread(Step(q, ops[0]), ops[1..]);
    }
  }

  /** Every reachable queue has matching tables and passes within one unit of each other. */
  lemma ReachableSpread<T>(ops: seq<Op<T>>)
    ensures WellFormed(Run(Empty(), ops)) && Spread(Run(Empty(), ops))
  {
    RunSpread(Empty<T>(), ops);
  }

  ghost predicate Serves<T>(q: Queue<T>, op: Op<T>, key: Key)
    requires WellFormed(q)
  {
    op.Pop? && Served(q, op.policy).Some? && Served(q, op.policy).value.0 == key
  }

  ghost function ServeCount<T>(q: Queue<T>, ops: seq<Op<T>>, key: Key): nat
    requires WellFormed(q)
    decreases |ops|
  {
    if ops == [] then 0
    else (if Serves(q, ops[0], key) then 1 else 0) + ServeCount(Step(q, ops[0]), ops[1..], key)
  }

  /** Serves of any key other than `key`. */
  ghost function OtherServes<T>(q: Queue<T>, ops: seq<Op<T>>, key: Key): nat
    requires WellFormed(q)
    decreases |ops|
  {
    if ops == [] then 0
    else
      (if ops[0].Pop? && Served(q, ops[0].policy).Some? && !Serves(q, ops[0], key) then 1 else 0)
      + OtherServes(Step(q, ops[0]), ops[1..], key)
  }

  /** How often a key that was absent entered the queue. */
  ghost function Joins<T>(q: Queue<T>, ops: seq<Op<T>>): nat
    requires WellFormed(q)
    decreases |ops|
  {
    if ops == [] then 0
    else (if ops[0].Push? && ops[0].key !in q.items then 1 else 0) + Joins(Step(q, ops[0]), ops[1..])
  }

  /** `key` is pending at every point of the run, and every pop's policy admits it. */
  ghost predicate Active<T>(q: Queue<T>, ops: seq<Op<T>>, key: Key)
    requires WellFormed(q)
    decreases |ops|
  {
    key in q.items &&
    (ops == [] || ((ops[0].Pop? ==> Admits(ops[0].policy, key)) && Active(Step(q, ops[0]), ops[1..], key)))
  }

  /** A pending, admitted key's pass moves only when it is served, and it is served only when lowest. */
  lemma ActivePass<T>(q: Queue<T>, op: Op<T>, key: Key)
    requires WellFormed(q) && key in q.items && key in Step(q, op).items
    requires op.Pop? ==> Admits(op.policy, key)
    ensures Serves(q, op, key) ==>
      && Step(q, op).passes[key] == q.passes[key] + Increment(op.weightOf(key))
      && forall k :: k in q.items && Admits(op.policy, k) ==> q.passes[key] <= q.passes[k]
    ensures !Serves(q, op, key) ==> Step(q, op).passes[key] == q.passes[key]
  {
    if op.Pop? {
      PoppedPass(q, op.weightOf, op.policy, key);
    }
  }

  lemma PoppedPass<T>(q: Queue<T>, weightOf: Key -> Weight, policy: Policy, key: Key)
    requires WellFormed(q) && key in q.items && Admits(policy, key)
    requires key in Popped(q, weightOf, policy).items
    ensures key in Popped(q, weightOf, policy).passes
    ensures Popped(q, weightOf, policy).passes[key]
      == q.passes[key] + (if Next(q, policy) == Some(key) then Increment(weightOf(key)) else 0)
  {
    PoppedKeeps(q, weightOf, policy);
    var next := Next(q, policy).value;
    ChargedAdvances(q, policy, weightOf(next));
    ClampedLevels(Charged(q, next, weightOf(next)), policy);
    hide Spread, Clamped, Next, Best;
  }

  // Proportional share.

  ghost predicate FixedWeight<T>(ops: seq<Op<T>>, key: Key, w: int) {
    forall n :: 0 <= n < |ops| && ops[n].Pop? ==> StrideWeight(ops[n].weightOf(key)) == w
  }

  ghost predicate FixedStep<T>(ops: seq<Op<T>>, key: Key, u: int) {
    forall n :: 0 <= n < |ops| && ops[n].Pop? ==> Increment(ops[n].weightOf(key)) == u
  }

  lemma FixedWeightStep<T>(ops: seq<Op<T>>, key: Key, w: int)
    requires FixedWeight(ops, key, w)
    ensures FixedStep(ops, key, if w == 0 then 0 else UNIT / w)
  {
  }

  /** One operation keeps two level keys within one step of each other. */
  lemma GapStep<T>(q: Queue<T>, op: Op<T>, i: Key, j: Key, u: int, v: int)
    requires WellFormed(q) && i != j && 0 <= u && 0 <= v
    requires i in q.items && j in q.items && i in Step(q, op).items && j in Step(q, op).items
    requires op.Pop? ==> Admits(op.policy, i) && Admits(op.policy, j)
    requires op.Pop? ==> Increment(op.weightOf(i)) == u && Increment(op.weightOf(j)) == v
    requires -v <= q.passes[i] - q.passes[j] <= u
    ensures var r := Step(q, op); var gap := q.passes[i] - q.passes[j];
      && r.passes[i] - r.passes[j]
        == gap + (if Serves(q, op, i) then u else 0) - (if Serves(q, op, j) then v else 0)
      && -v <= r.passes[i] - r.passes[j] <= u
  {
    ActivePass(q, op, i);
    ActivePass(q, op, j);
    hide Step;
  }

  /** The passes a key was charged over a run, at `u` a serve. */
  ghost function Earned<T>(q: Queue<T>, ops: seq<Op<T>>, key: Key, u: int): int
    requires WellFormed(q)
    decreases |ops|
  {
    if ops == [] then 0
    else (if Serves(q, ops[0], key) then u else 0) + Earned(Step(q, ops[0]), ops[1..], key, u)
  }

  lemma {:induction false} EarnedCounts<T>(q: Queue<T>, ops: seq<Op<T>>, key: Key, u: int)
    requires WellFormed(q)
    ensures Earned(q, ops, key, u) == u * ServeCount(q, ops, key)
    decreases |ops|
  {
    hide Step, WellFormed, Serves;
    if ops != [] {
      EarnedCounts(Step(q, ops[0]), ops[1..], key, u);
    }
  }

  /** Two active keys: each serve moves its own pass by its own fixed step, so the gap stays within one step. */
  lemma {:induction false} ShareGap<T>(q: Queue<T>, ops: seq<Op<T>>, i: Key, j: Key, u: int, v: int)
    requires WellFormed(q) && i != j && 0 <= u && 0 <= v
    requires Active(q, ops, i) && Active(q, ops, j)
    requires FixedStep(ops, i, u) && FixedStep(ops, j, v)
    requires -v <= q.passes[i] - q.passes[j] <= u
    ensures -v <= q.passes[i] - q.passes[j] + Earned(q, ops, i, u) - Earned(q, ops, j, v) <= u
    decreases |ops|
  {
    if ops != [] {
      GapStep(q, ops[0], i, j, u, v);
      hide Step, WellFormed, Serves;
      ShareGap(Step(q, ops[0]), ops[1..], i, j, u, v);
    }
  }

  /**
   Proportional share: two keys that start level and stay pending and admitted with fixed weights are
   served in proportion to those weights, to within one serve of each, at every point of any run.
   */
  lemma ProportionalShare<T>(q: Queue<T>, ops: seq<Op<T>>, i: Key, j: Key, u: int, v: int)
    requires WellFormed(q) && i != j && 1 <= u <= 5 && 1 <= v <= 5
    requires Active(q, ops, i) && Active(q, ops, j)
    requires FixedWeight(ops, i, u) && FixedWeight(ops, j, v)
    requires q.passes[i] == q.passes[j]
    ensures -u <= ServeCount(q, ops, i) * v - ServeCount(q, ops, j) * u <= v
  {
    FixedWeightStep(ops, i, u);
    FixedWeightStep(ops, j, v);
    ShareGap(q, ops, i, j, UNIT / u, UNIT / v);
    EarnedCounts(q, ops, i, UNIT / u);
    EarnedCounts(q, ops, j, UNIT / v);
    ScaledGap(u, v, ServeCount(q, ops, i), ServeCount(q, ops, j));
  }

  lemma ScaledGap(u: int, v: int, s: int, t: int)
    requires 1 <= u <= 5 && 1 <= v <= 5
    requires -(UNIT / v) <= (UNIT / u) * s - (UNIT / v) * t <= UNIT / u
    ensures -u <= s * v - t * u <= v
  {
    match u {
      case 1 => ScaledGapFor(1, 60, v, s, t);
      case 2 => ScaledGapFor(2, 30, v, s, t);
      case 3 => ScaledGapFor(3, 20, v, s, t);
      case 4 => ScaledGapFor(4, 15, v, s, t);
      case 5 => ScaledGapFor(5, 12, v, s, t);
    }
  }

  lemma ScaledGapFor(u: int, a: int, v: int, s: int, t: int)
    requires (u, a) in {(1, 60), (2, 30), (3, 20), (4, 15), (5, 12)} && 1 <= v <= 5
    requires -(UNIT / v) <= a * s - (UNIT / v) * t <= a
    ensures -u <= s * v - t * u <= v
  {
    assert v == 1 || v == 2 || v == 3 || v == 4 || v == 5;
  }

  // Bounded waiting.

  /** How many more serves of `other` fit before its pass overtakes that of `key`. */
  ghost function Owed(passes: map<Key, int>, other: Key, key: Key): nat
    requires other in passes && key in passes
  {
    if other == key || passes[other] > passes[key] then 0
    else (passes[key] - passes[other]) / 12 + 1
  }

  ghost function Debt(passes: map<Key, int>, order: seq<Key>, key: Key): nat
    requires key in passes && forall k :: k in order ==> k in passes
  {
    if order == [] then 0
    else Owed(passes, order[0], key) + Debt(passes, order[1..], key)
  }

  lemma DebtAppend(passes: map<Key, int>, order: seq<Key>, other: Key, key: Key)
    requires key in passes && other in passes && forall k :: k in order ==> k in passes
    ensures Debt(passes, order + [other], key) == Debt(passes, order, key) + Owed(passes, other, key)
  {
    if order != [] {
      assert (order + [other])[1..] == order[1..] + [other];
      DebtAppend(passes, order[1..], other, key);
    } else {
      assert order + [other] == [other];
    }
  }

  lemma DebtWithout(passes: map<Key, int>, order: seq<Key>, other: Key, key: Key)
    requires key in passes && forall k :: k in order ==> k in passes
    requires other in order
    ensures forall k :: k in Without(order, other) ==> k in order
    ensures Debt(passes, Without(order, other), key) == Debt(passes, order, key) - Owed(passes, other, key)
  {
    if order[0] != other {
      DebtWithout(passes, order[1..], other, key);
      var rest := Without(order[1..], other);
      assert Without(order, other) == [order[0]] + rest;
      assert ([order[0]] + rest)[1..] == rest;
    }
  }

  /** Raising other passes never raises the debt, and overtaking by at least one step lowers it. */
  lemma DebtMonotone(before: map<Key, int>, after: map<Key, int>, order: seq<Key>, key: Key)
    requires key in before && key in after && before[key] == after[key]
    requires forall k :: k in order ==> k in before && k in after && before[k] <= after[k]
    ensures Debt(after, order, key) <= Debt(before, order, key)
    ensures forall k :: k in order && k != key && before[k] <= before[key] && after[k] >= before[k] + 12 ==>
      Debt(after, order, key) + 1 <= Debt(before, order, key)
  {
    if order != [] {
      DebtMonotone(before, after, order[1..], key);
    }
  }

  lemma DebtBound(q: Queue, key: Key, order: seq<Key>)
    requires WellFormed(q) && Spread(q) && key in q.passes
    requires forall k :: k in order ==> k in q.passes
    requires Distinct(order)
    ensures Debt(q.passes, order, key) <= 6 * |order|
    ensures key in order ==> Debt(q.passes, order, key) <= 6 * (|order| - 1)
  {
    if order != [] {
      assert order == [order[0]] + order[1..];
      assert order[0] !in order[1..];
      DebtBound(q, key, order[1..]);
    }
  }

  ghost function QueueDebt<T>(q: Queue<T>, key: Key): nat
    requires WellFormed(q) && key in q.items
  {
    Debt(q.passes, q.order, key)
  }

  /** A pop that serves another key pays off at least one unit of debt. */
  lemma PopPaysDebt<T>(q: Queue<T>, weightOf: Key -> Weight, policy: Policy, key: Key)
    requires WellFormed(q) && key in q.items && Admits(policy, key)
    requires Next(q, policy).value != key
    requires key in Popped(q, weightOf, policy).items
    ensures WellFormed(Popped(q, weightOf, policy))
    ensures QueueDebt(Popped(q, weightOf, policy), key) + 1 <= QueueDebt(q, key)
  {
    PoppedKeeps(q, weightOf, policy);
    var next := Next(q, policy).value;
    var level := Levelled(q, policy, weightOf(next));
    LevelledPays(q, policy, weightOf(next), key);
    hide Levelled, Spread, Taken;
    if |q.items[next]| == 1 {
      DebtPruned(level, next, key);
    }
    TakenIs(level, next);
  }

  lemma LevelledPays<T>(q: Queue<T>, policy: Policy, weight: Weight, key: Key)
    requires WellFormed(q) && key in q.items && Admits(policy, key)
    requires Next(q, policy).value != key
    ensures QueueDebt(Levelled(q, policy, weight), key) + 1 <= QueueDebt(q, key)
  {
    LevelledRaises(q, policy, weight, key);
    var level := Levelled(q, policy, weight);
    hide Levelled;
    DebtMonotone(q.passes, level.passes, q.order, key);
  }

  lemma TakenIs<T>(q: Queue<T>, key: Key)
    requires WellFormed(q) && key in q.items
    ensures |q.items[key]| == 1 ==> Taken(q, key) == Pruned(q, key)
    ensures |q.items[key]| != 1 ==> Taken(q, key).order == q.order && Taken(q, key).passes == q.passes
  {
  }

  lemma LevelledRaises<T>(q: Queue<T>, policy: Policy, weight: Weight, key: Key)
    requires WellFormed(q) && key in q.items && Admits(policy, key)
    requires Next(q, policy).value != key
    ensures var c := Levelled(q, policy, weight); var next := Next(q, policy).value;
      && c.passes.Keys == q.passes.Keys
      && c.passes[key] == q.passes[key]
      && q.passes[next] <= q.passes[key]
      && c.passes[next] >= q.passes[next] + 12
      && forall k :: k in q.passes ==> q.passes[k] <= c.passes[k]
  {
    ChargedAdvances(q, policy, weight);
    ClampedLevels(Charged(q, Next(q, policy).value, weight), policy);
  }

  lemma DebtPruned<T>(q: Queue<T>, gone: Key, key: Key)
    requires WellFormed(q) && key in q.items && gone in q.items && gone != key
    ensures WellFormed(Pruned(q, gone))
    ensures QueueDebt(Pruned(q, gone), key) <= QueueDebt(q, key)
  {
    PrunedKeeps(q, gone);
    var after := Pruned(q, gone);
    DebtWithout(q.passes, q.order, gone, key);
    DebtMonotone(q.passes, after.passes, after.order, key);
  }

  lemma JoinDebt(passes: map<Key, int>, order: seq<Key>, other: Key, pass: int, key: Key)
    requires key in passes && other !in passes && passes[key] <= pass + UNIT
    requires forall k :: k in order ==> k in passes
    ensures Debt(passes[other := pass], order + [other], key) <= Debt(passes, order, key) + 6
  {
    var after := passes[other := pass];
    DebtAppend(after, order, other, key);
    DebtMonotone(passes, after, order, key);
  }

  lemma PushDebt<T>(q: Queue<T>, other: Key, item: T, key: Key)
    requires WellFormed(q) && Spread(q) && key in q.items
    ensures WellFormed(Pushed(q, other, item))
    ensures QueueDebt(Pushed(q, other, item), key)
      <= QueueDebt(q, key) + (if other !in q.items then 6 else 0)
  {
    PushedKeeps(q, other, item);
    if other !in q.items {
      var low :| low in q.passes && q.passes[low] == JoinPass(q);
      JoinDebt(q.passes, q.order, other, JoinPass(q), key);
    }
  }

  /** A join adds at most six; a pop pays one; everything else adds nothing. */
  lemma StepDebt<T>(q: Queue<T>, op: Op<T>, key: Key)
    requires WellFormed(q) && Spread(q) && key in q.items && key in Step(q, op).items
    requires op.Pop? ==> Admits(op.policy, key) && !Serves(q, op, key)
    ensures QueueDebt(Step(q, op), key)
      + (if op.Pop? && Served(q, op.policy).Some? then 1 else 0)
      <= QueueDebt(q, key) + (if op.Push? && op.key !in q.items then 6 else 0)
  {
    hide QueueDebt, Spread, Levelled, Taken, Pushed;
    match op
    case Push(other, item) =>
      PushDebt(q, other, item, key);
    case Pop(weightOf, policy) =>
      PopPaysDebt(q, weightOf, policy, key);
    case Discard(other, item) =>
      if other in q.items && item in q.items[other] && |q.items[other]| == 1 {
        DebtPruned(q, other, key);
      } else {
        SameDebt(q, Discarded(q, other, item), key);
      }
  }

  lemma SameDebt<T>(q: Queue<T>, r: Queue<T>, key: Key)
    requires WellFormed(q) && WellFormed(r) && key in q.items
    requires q.order == r.order && q.passes == r.passes
    ensures key in r.items && QueueDebt(r, key) == QueueDebt(q, key)
  {
  }

  lemma {:induction false} WaitingDebt<T>(q: Queue<T>, ops: seq<Op<T>>, key: Key)
    requires WellFormed(q) && Spread(q) && Active(q, ops, key)
    requires ServeCount(q, ops, key) == 0
    ensures OtherServes(q, ops, key) <= QueueDebt(q, key) + 6 * Joins(q, ops)
    decreases |ops|
  {
    hide Step, Spread, QueueDebt;
    if ops != [] {
      RunSpread(q, ops[..1]);
      assert Run(q, ops[..1]) == Step(q, ops[0]) by {
        assert ops[..1] == [ops[0]] && [ops[0]][1..] == [];
      }
      StepDebt(q, ops[0], key);
      WaitingDebt(Step(q, ops[0]), ops[1..], key);
    }
  }

  /**
   Bounded waiting: while a key waits, pending and admitted, other keys are served at most
   6 * (K - 1 + J) times, K keys being queued at the start and J joining along the way. Weights and
   the policy on the other keys may change at every pop.
   */
  lemma BoundedWaiting<T>(q: Queue<T>, ops: seq<Op<T>>, key: Key)
    requires WellFormed(q) && Spread(q) && Active(q, ops, key)
    requires ServeCount(q, ops, key) == 0
    ensures OtherServes(q, ops, key) <= 6 * (|q.order| - 1 + Joins(q, ops))
  {
    WaitingDebt(q, ops, key);
    DebtBound(q, key, q.order);
  }

  // First in, first out; nothing lost, nothing duplicated.

  ghost function PushedItems<T>(ops: seq<Op<T>>, key: Key): seq<T> {
    if ops == [] then []
    else (if ops[0].Push? && ops[0].key == key then [ops[0].item] else []) + PushedItems(ops[1..], key)
  }

  ghost function ServedItems<T>(q: Queue<T>, ops: seq<Op<T>>, key: Key): seq<T>
    requires WellFormed(q)
    decreases |ops|
  {
    if ops == [] then []
    else
      (if Serves(q, ops[0], key) then [Served(q, ops[0].policy).value.1] else [])
      + ServedItems(Step(q, ops[0]), ops[1..], key)
  }

  ghost function DroppedItems<T>(q: Queue<T>, ops: seq<Op<T>>, key: Key): seq<T>
    requires WellFormed(q)
    decreases |ops|
  {
    if ops == [] then []
    else
      (if ops[0].Discard? && ops[0].key == key && ops[0].item in Waiting(q, key) then [ops[0].item] else [])
      + DroppedItems(Step(q, ops[0]), ops[1..], key)
  }

  /** One operation's effect on one key's queue: append, take the front, strike one item, or nothing. */
  lemma StepWaiting<T>(q: Queue<T>, op: Op<T>, key: Key)
    requires WellFormed(q)
    ensures op.Push? && op.key == key ==> Waiting(Step(q, op), key) == Waiting(q, key) + [op.item]
    ensures Serves(q, op, key) ==>
      Waiting(q, key) == [Served(q, op.policy).value.1] + Waiting(Step(q, op), key)
    ensures op.Discard? && op.key == key && op.item in Waiting(q, key) ==>
      Waiting(Step(q, op), key) == Without(Waiting(q, key), op.item)
    ensures
      (op.Push? && op.key == key) || Serves(q, op, key) ||
      (op.Discard? && op.key == key && op.item in Waiting(q, key)) ||
      Waiting(Step(q, op), key) == Waiting(q, key)
  {
    match op
    case Push(other, item) =>
    case Pop(weightOf, policy) => PopWaiting(q, weightOf, policy, key);
    case Discard(other, item) =>
      if other in q.items && item in q.items[other] && |q.items[other]| == 1 {
        assert Without(q.items[other], item) == [];
      }
  }

  lemma PopWaiting<T>(q: Queue<T>, weightOf: Key -> Weight, policy: Policy, key: Key)
    requires WellFormed(q)
    ensures var next := Next(q, policy); var r := Popped(q, weightOf, policy);
      && (next == Some(key) ==> Waiting(q, key) == [Served(q, policy).value.1] + Waiting(r, key))
      && (next != Some(key) ==> Waiting(r, key) == Waiting(q, key))
  {
    var next := Next(q, policy);
    if next.Some? {
      var level := Levelled(q, policy, weightOf(next.value));
      assert Popped(q, weightOf, policy) == Taken(level, next.value);
      hide Levelled, Next, WellFormed, Taken, Popped;
      TakenWaiting(level, next.value, key);
    }
  }

  lemma TakenWaiting<T>(q: Queue<T>, taken: Key, key: Key)
    requires WellFormed(q) && taken in q.items
    ensures taken == key ==> Waiting(q, key) == [q.items[key][0]] + Waiting(Taken(q, taken), key)
    ensures taken != key ==> Waiting(Taken(q, taken), key) == Waiting(q, key)
  {
    assert q.items[taken] != [];
  }

  /** What came is what went, in order, with the dropped items struck out. */
  ghost predicate Conserved<T>(came: seq<T>, went: seq<T>, dropped: seq<T>) {
    Subsequence(went, came) && multiset(came) == multiset(went) + multiset(dropped)
  }

  lemma BalancedFront<T>(x: T, came: seq<T>, went: seq<T>, dropped: seq<T>)
    requires Conserved(came, went, dropped)
    ensures Conserved([x] + came, [x] + went, dropped)
  {
    assert ([x] + came)[1..] == came && ([x] + went)[1..] == went;
  }

  lemma BalancedStrike<T>(queue: seq<T>, x: T, pushed: seq<T>, went: seq<T>, dropped: seq<T>)
    requires x in queue && Conserved(Without(queue, x) + pushed, went, dropped)
    ensures Conserved(queue + pushed, went, [x] + dropped)
  {
    hide Subsequence, Without;
    WithoutIsSubsequence(queue, x, pushed);
    WithoutCounts(queue, x);
    SubsequenceTrans(went, Without(queue, x) + pushed, queue + pushed);
    StruckCounts(multiset(queue), x, multiset(pushed), multiset(went), multiset(dropped));
    assert multiset(queue + pushed) == multiset(queue) + multiset(pushed);
    assert multiset([x] + dropped) == multiset{x} + multiset(dropped);
  }

  lemma StruckCounts<T>(queue: multiset<T>, x: T, pushed: multiset<T>, went: multiset<T>, dropped: multiset<T>)
    requires x in queue && (queue - multiset{x}) + pushed == went + dropped
    ensures queue + pushed == went + (multiset{x} + dropped)
  {
    var rest := queue - multiset{x};
    assert queue == rest + multiset{x};
    assert queue + pushed == (rest + pushed) + multiset{x};
  }

  /** How one operation on a key's queue, given what it pushed, served and dropped, extends the balance after it. */
  lemma BalancedStep<T>(before: seq<T>, after: seq<T>, push: seq<T>, serve: seq<T>, drop: seq<T>,
                        pushed: seq<T>, served: seq<T>, left: seq<T>, dropped: seq<T>)
    requires Conserved(after + pushed, served + left, dropped)
    requires
      || (serve == drop == [] && after == before + push)
      || (push == drop == [] && |serve| == 1 && before == serve + after)
      || (push == serve == [] && |drop| == 1 && drop[0] in before && after == Without(before, drop[0]))
    ensures Conserved(before + (push + pushed), (serve + served) + left, drop + dropped)
  {
    hide Conserved;
    if serve == drop == [] && after == before + push {
      assert before + (push + pushed) == after + pushed;
      assert serve + served == served && drop + dropped == dropped;
    } else if |serve| == 1 {
      BalancedFront(serve[0], after + pushed, served + left, dropped);
      assert before + (push + pushed) == [serve[0]] + (after + pushed);
      assert (serve + served) + left == [serve[0]] + (served + left);
      assert drop + dropped == dropped;
    } else {
      BalancedStrike(before, drop[0], pushed, served + left, dropped);
      assert push + pushed == pushed && serve + served == served && drop == [drop[0]];
    }
  }

  lemma BalancedNone<T>(queue: seq<T>)
    ensures Conserved(queue + [], [] + queue, [])
  {
    SubsequenceRefl(queue);
    assert queue + [] == queue && [] + queue == queue;
  }

  /**
   FIFO and conservation, per key and over any run: what was served followed by what still waits is
   what waited and what was pushed, in that order, with exactly the discarded items struck out.
   */
  lemma {:induction false} FirstInFirstOut<T>(q: Queue<T>, ops: seq<Op<T>>, key: Key)
    requires WellFormed(q)
    ensures Conserved(
      Waiting(q, key) + PushedItems(ops, key),
      ServedItems(q, ops, key) + Waiting(Run(q, ops), key),
      DroppedItems(q, ops, key))
    decreases |ops|
  {
    hide Step, WellFormed, Waiting, Conserved;
    if ops == [] {
      BalancedNone(Waiting(q, key));
    } else {
      var op, rest := ops[0], ops[1..];
      var r := Step(q, op);
      StepWaiting(q, op, key);
      FirstInFirstOut(r, rest, key);
      BalancedStep(
        Waiting(q, key), Waiting(r, key),
        if op.Push? && op.key == key then [op.item] else [],
        if Serves(q, op, key) then [Served(q, op.policy).value.1] else [],
        if op.Discard? && op.key == key && op.item in Waiting(q, key) then [op.item] else [],
        PushedItems(rest, key), ServedItems(r, rest, key), Waiting(Run(r, rest), key), DroppedItems(r, rest, key));
    }
  }

  /** With nothing discarded, a key's items leave in exactly the order they came. */
  lemma ExactOrder<T>(q: Queue<T>, ops: seq<Op<T>>, key: Key)
    requires WellFormed(q) && DroppedItems(q, ops, key) == []
    ensures ServedItems(q, ops, key) + Waiting(Run(q, ops), key) == Waiting(q, key) + PushedItems(ops, key)
  {
    FirstInFirstOut(q, ops, key);
    var came := Waiting(q, key) + PushedItems(ops, key);
    var went := ServedItems(q, ops, key) + Waiting(Run(q, ops), key);
    assert |multiset(came)| == |came| && |multiset(went)| == |went|;
    SubsequenceOfSameLength(went, came);
  }

  lemma SubsequenceOfSameLength<T>(a: seq<T>, b: seq<T>)
    requires Subsequence(a, b)
    ensures |a| <= |b|
    ensures |a| == |b| ==> a == b
    decreases |b|
  {
    if a != [] {
      if a[0] == b[0] && Subsequence(a[1..], b[1..]) {
        SubsequenceOfSameLength(a[1..], b[1..]);
      } else {
        SubsequenceOfSameLength(a, b[1..]);
      }
    }
  }

  // Unbounded waiting: without counting joins no bound holds.

  function Even(key: Key): Weight { IntWeight(1) }

  /** `key` waits one unit behind the one-item keys `a` and then `b`. */
  ghost predicate Overtaken<T>(q: Queue<T>, key: Key, a: Key, b: Key, x: T)
    ensures Overtaken(q, key, a, b, x) ==> WellFormed(q)
  {
    && WellFormed(q)
    && q.order == [key, a, b]
    && q.items[a] == [x] && q.items[b] == [x]
    && q.passes[key] == UNIT && q.passes[a] == 0 && q.passes[b] == 0
  }

  lemma RunAppend<T>(q: Queue<T>, first: seq<Op<T>>, second: seq<Op<T>>, key: Key)
    requires WellFormed(q)
    ensures Run(q, first + second) == Run(Run(q, first), second)
    ensures ServeCount(q, first + second, key) == ServeCount(q, first, key) + ServeCount(Run(q, first), second, key)
    ensures OtherServes(q, first + second, key) == OtherServes(q, first, key) + OtherServes(Run(q, first), second, key)
    ensures Active(q, first, key) && Active(Run(q, first), second, key) ==> Active(q, first + second, key)
    decreases |first|
  {
    hide Step, WellFormed, Serves;
    if first == [] {
      assert first + second == second;
    } else {
      assert (first + second)[1..] == first[1..] + second;
      RunAppend(Step(q, first[0]), first[1..], second, key);
    }
  }

  lemma PoppedEveryone<T>(q: Queue<T>, key: Key)
    requires WellFormed(q) && Next(q, Everyone) == Some(key) && |q.items[key]| == 1
    ensures Served(q, Everyone) == Some((key, q.items[key][0]))
    ensures Popped(q, Even, Everyone) == Pruned(q.(passes := q.passes[key := q.passes[key] + UNIT]), key)
  {
    assert Increment(Even(key)) == UNIT;
    assert Charged(q, key, Even(key)) == q.(passes := q.passes[key := q.passes[key] + UNIT]);
  }

  lemma OvertakenNext<T>(q: Queue<T>, key: Key, a: Key, b: Key, x: T)
    requires Overtaken(q, key, a, b, x)
    ensures Next(q, Everyone) == Some(a)
  {
    assert q.order[0] == key && q.order[1] == a && q.order[2] == b;
  }

  lemma PopOvertaken<T>(q: Queue<T>, key: Key, a: Key, b: Key, x: T)
    requires Overtaken(q, key, a, b, x)
    ensures Served(q, Everyone) == Some((a, x))
    ensures var r := Popped(q, Even, Everyone);
      && WellFormed(r) && r.order == [key, b] && r.items[b] == [x]
      && r.passes[key] == UNIT && r.passes[b] == 0
  {
    OvertakenNext(q, key, a, b, x);
    PoppedKeeps(q, Even, Everyone);
    assert q.order[0] == key && q.order[1] == a && q.order[2] == b;
    PoppedEveryone(q, a);
    hide Popped, Next, WellFormed;
    assert q.order[1..] == [a, b] && [a, b][1..] == [b];
    assert Without(q.order, a) == [key] + [b];
  }

  lemma PushOvertaken<T>(r: Queue<T>, key: Key, a: Key, b: Key, x: T)
    requires WellFormed(r) && r.order == [key, b] && r.items[b] == [x] && a != key && a != b
    requires r.passes[key] == UNIT && r.passes[b] == 0
    ensures Overtaken(Pushed(r, a, x), key, b, a, x)
  {
    PushedKeeps(r, a, x);
    assert r.order[0] == key && r.order[1] == b;
    assert JoinPass(r) == 0;
    hide Next, JoinPass;
    assert a !in r.order;
    assert [] + [x] == [x];
    assert [key, b] + [a] == [key, b, a];
  }

  lemma OneRejoin<T>(q: Queue<T>, key: Key, a: Key, b: Key, x: T)
    requires Overtaken(q, key, a, b, x)
    ensures var ops := [Pop(Even, Everyone), Push(a, x)];
      && Overtaken(Run(q, ops), key, b, a, x)
      && Active(q, ops, key) && ServeCount(q, ops, key) == 0 && OtherServes(q, ops, key) == 1
  {
    PopOvertaken(q, key, a, b, x);
    assert q.order[0] == key && q.order[1] == a && q.order[2] == b;
    var ops := [Pop(Even, Everyone), Push(a, x)];
    var mid := Popped(q, Even, Everyone);
    assert mid.order[0] == key;
    PushOvertaken(mid, key, a, b, x);
    var end := Pushed(mid, a, x);
    assert end.order[0] == key;
    hide Popped, Pushed, Next;
    TwoSteps(q, mid, end, ops, key);
  }

  lemma TwoSteps<T>(q: Queue<T>, mid: Queue<T>, end: Queue<T>, ops: seq<Op<T>>, key: Key)
    requires WellFormed(q) && WellFormed(mid) && WellFormed(end)
    requires |ops| == 2 && ops[0].Pop? && ops[1].Push?
    requires Step(q, ops[0]) == mid && Step(mid, ops[1]) == end
    requires key in q.items && key in mid.items && key in end.items
    requires Admits(ops[0].policy, key) && Served(q, ops[0].policy).Some? && !Serves(q, ops[0], key)
    ensures Run(q, ops) == end && Active(q, ops, key)
    ensures ServeCount(q, ops, key) == 0 && OtherServes(q, ops, key) == 1
  {
    hide Step, WellFormed, Serves, Served, Run, Active, ServeCount, OtherServes;
    assert ops[1..][1..] == [];
    NoStep(end, key);
    PushStep(mid, ops[1..], key);
    OtherPopStep(q, ops, key);
  }

  lemma NoStep<T>(q: Queue<T>, key: Key)
    requires WellFormed(q) && key in q.items
    ensures Run(q, []) == q && Active(q, [], key) && ServeCount(q, [], key) == 0 && OtherServes(q, [], key) == 0
  {
    hide WellFormed;
  }

  lemma PushStep<T>(q: Queue<T>, ops: seq<Op<T>>, key: Key)
    requires WellFormed(q) && key in q.items && ops != [] && ops[0].Push?
    requires Active(Step(q, ops[0]), ops[1..], key)
    ensures Active(q, ops, key) && Run(q, ops) == Run(Step(q, ops[0]), ops[1..])
    ensures ServeCount(q, ops, key) == ServeCount(Step(q, ops[0]), ops[1..], key)
    ensures OtherServes(q, ops, key) == OtherServes(Step(q, ops[0]), ops[1..], key)
  {
    hide WellFormed, Step, Served;
  }

  lemma OtherPopStep<T>(q: Queue<T>, ops: seq<Op<T>>, key: Key)
    requires WellFormed(q) && key in q.items && ops != [] && ops[0].Pop?
    requires Admits(ops[0].policy, key) && Served(q, ops[0].policy).Some? && !Serves(q, ops[0], key)
    requires Active(Step(q, ops[0]), ops[1..], key)
    ensures Active(q, ops, key) && Run(q, ops) == Run(Step(q, ops[0]), ops[1..])
    ensures ServeCount(q, ops, key) == ServeCount(Step(q, ops[0]), ops[1..], key)
    ensures OtherServes(q, ops, key) == 1 + OtherServes(Step(q, ops[0]), ops[1..], key)
  {
    hide WellFormed, Step, Served, Serves;
  }

  function Rejoining<T>(a: Key, b: Key, x: T, n: nat): seq<Op<T>> {
    if n == 0 then [] else [Pop(Even, Everyone), Push(a, x)] + Rejoining(b, a, x, n - 1)
  }

  /**
   No bound on waiting holds without counting joins: a key that stays pending and admitted, every
   weight being one, can be passed over any number of times by two keys that drain and rejoin.
   */
  lemma {:induction false} StarvationByRejoining<T>(q: Queue<T>, key: Key, a: Key, b: Key, x: T, n: nat)
    requires Overtaken(q, key, a, b, x)
    ensures var ops := Rejoining(a, b, x, n);
      Active(q, ops, key) && ServeCount(q, ops, key) == 0 && OtherServes(q, ops, key) == n
    decreases n
  {
    hide Overtaken, Step, WellFormed, Serves, Active, ServeCount, OtherServes, Run;
    if n == 0 {
      NothingYet(q, key, a, b, x);
    } else {
      OneRejoin(q, key, a, b, x);
      var ops := [Pop(Even, Everyone), Push(a, x)];
      StarvationByRejoining(Run(q, ops), key, b, a, x, n - 1);
      RunAppend(q, ops, Rejoining(b, a, x, n - 1), key);
    }
  }

  lemma NothingYet<T>(q: Queue<T>, key: Key, a: Key, b: Key, x: T)
    requires Overtaken(q, key, a, b, x)
    ensures Active(q, [], key) && ServeCount(q, [], key) == 0 && OtherServes(q, [], key) == 0
  {
    assert q.order[0] == key;
  }

  ghost predicate AllZero<T>(q: Queue<T>)
    ensures AllZero(q) ==> WellFormed(q)
  {
    WellFormed(q) && forall k :: k in q.passes ==> q.passes[k] == 0
  }

  lemma PushAtZero<T>(q: Queue<T>, key: Key, x: T)
    requires AllZero(q)
    ensures AllZero(Pushed(q, key, x))
    ensures var r := Pushed(q, key, x);
      && r.order == (if key in q.order then q.order else q.order + [key])
      && Waiting(r, key) == Waiting(q, key) + [x]
      && forall k :: k != key ==> Waiting(r, k) == Waiting(q, k)
  {
    PushedKeeps(q, key, x);
  }

  lemma ServePiled<T>(q: Queue<T>, key: Key, a: Key, b: Key, x: T)
    requires AllZero(q) && q.order == [key, a, b]
    requires Waiting(q, key) == [x, x] && Waiting(q, a) == [x] && Waiting(q, b) == [x]
    ensures Overtaken(Popped(q, Even, Everyone), key, a, b, x)
  {
    assert q.order[0] == key && q.order[1] == a && q.order[2] == b;
    assert Next(q, Everyone) == Some(key);
    PoppedKeeps(q, Even, Everyone);
    assert Increment(Even(key)) == UNIT;
    assert Levelled(q, Everyone, Even(key)) == Charged(q, key, Even(key));
    hide Next, WellFormed;
  }

  lemma RunLast<T>(q: Queue<T>, ops: seq<Op<T>>, op: Op<T>)
    requires WellFormed(q)
    ensures Run(q, ops + [op]) == Step(Run(q, ops), op)
    decreases |ops|
  {
    hide Step, WellFormed;
    if ops == [] {
      assert [op][1..] == [];
      assert ops + [op] == [op];
    } else {
      RunLast(Step(q, ops[0]), ops[1..], op);
      assert (ops + [op])[1..] == ops[1..] + [op];
    }
  }

  lemma PushRun<T>(ops: seq<Op<T>>, key: Key, x: T) returns (more: seq<Op<T>>)
    requires AllZero(Run(Empty(), ops))
    ensures var q := Run(Empty(), ops); var r := Run(Empty(), more);
      && AllZero(r)
      && r.order == (if key in q.order then q.order else q.order + [key])
      && Waiting(r, key) == Waiting(q, key) + [x]
      && forall k :: k != key ==> Waiting(r, k) == Waiting(q, k)
  {
    more := ops + [Push(key, x)];
    RunLast(Empty<T>(), ops, Push(key, x));
    hide Run, Pushed, Waiting, AllZero;
    PushAtZero(Run(Empty<T>(), ops), key, x);
  }

  /** The state in which that happens is one the queue gets into from empty. */
  lemma OvertakenIsReachable<T>(key: Key, a: Key, b: Key, x: T) returns (ops: seq<Op<T>>)
    requires key != a && key != b && a != b
    ensures Overtaken(Run(Empty(), ops), key, a, b, x)
  {
    hide Run, Step, Waiting, AllZero, Overtaken, WellFormed;
    assert [] + [x] == [x] && [x] + [x] == [x, x];
    assert [] + [key] == [key] && [key] + [a] == [key, a] && [key, a] + [b] == [key, a, b];
    ops := [];
    StartsEmpty<T>(key, a, b);
    ops := PushRun(ops, key, x);
    ops := PushRun(ops, key, x);
    ops := PushRun(ops, a, x);
    ops := PushRun(ops, b, x);
    ServeRun(ops, key, a, b, x);
    ops := ops + [Pop(Even, Everyone)];
  }

  lemma ServeRun<T>(ops: seq<Op<T>>, key: Key, a: Key, b: Key, x: T)
    requires AllZero(Run(Empty(), ops)) && Run(Empty(), ops).order == [key, a, b]
    requires Waiting(Run(Empty(), ops), key) == [x, x]
    requires Waiting(Run(Empty(), ops), a) == [x] && Waiting(Run(Empty(), ops), b) == [x]
    ensures Overtaken(Run(Empty(), ops + [Pop(Even, Everyone)]), key, a, b, x)
  {
    hide Run, Popped, Overtaken;
    ServePiled(Run(Empty<T>(), ops), key, a, b, x);
    RunLast(Empty<T>(), ops, Pop(Even, Everyone));
  }

  lemma StartsEmpty<T>(key: Key, a: Key, b: Key)
    ensures var q := Run(Empty<T>(), []);
      AllZero(q) && q.order == [] && Waiting(q, key) == Waiting(q, a) == Waiting(q, b) == []
  {
  }
}
