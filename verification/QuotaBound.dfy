/**
 Whom the guard's table forgets: nobody as long as no more callers come than it has room for, and otherwise
 as often as one likes, with the whole quota available again each time.
 */
module QuotaBound {
  import opened Guard
  import opened GuardQuota
  import opened Prelude

  // The table as an order of callers, least recently seen first.

  function Callers(table: seq<Slot>): (r: seq<Caller>)
    ensures |r| == |table| && forall k :: 0 <= k < |r| ==> r[k] == table[k].caller
  {
    seq(|table|, k requires 0 <= k < |table| => table[k].caller)
  }

  function Order(s: State): seq<Caller> { Callers(s.table) }

  /** A caller seen moves to the end, and the front is cut down to the bound. */
  function Recent(order: seq<Caller>, caller: Caller, max: nat): seq<Caller> {
    var grown := Without(order, caller) + [caller];
    grown[Surplus(|grown|, max)..]
  }

  lemma ListedOrder(s: State, caller: Caller)
    ensures Listed(s, caller) <==> caller in Order(s)
  {
    if caller in Order(s) {
      var k :| 0 <= k < |s.table| && Order(s)[k] == caller;
      assert s.table[k].caller == caller;
    }
  }

  lemma {:induction false} FindsFirst(table: seq<Slot>, caller: Caller)
    requires Find(table, caller).Some?
    ensures forall k :: 0 <= k < Find(table, caller).value ==> table[k].caller != caller
  {
    if table[0].caller != caller {
      FindsFirst(table[1..], caller);
      forall k | 0 < k < Find(table, caller).value ensures table[k].caller != caller {
        assert table[1..][k - 1] == table[k];
      }
    }
  }

  lemma {:induction false} WithoutFirst(order: seq<Caller>, caller: Caller, i: nat)
    requires i < |order| && order[i] == caller && forall k :: 0 <= k < i ==> order[k] != caller
    ensures Without(order, caller) == DropAt(order, i)
  {
    if i > 0 {
      WithoutFirst(order[1..], caller, i - 1);
      assert DropAt(order, i) == [order[0]] + DropAt(order[1..], i - 1);
    }
  }

  lemma FoundOrder(table: seq<Slot>, caller: Caller)
    ensures Without(Callers(table), caller)
      == var i := Find(table, caller); if i.None? then Callers(table) else Callers(DropAt(table, i.value))
  {
    var i := Find(table, caller);
    hide Find, Without;
    if i.Some? {
      FindsFirst(table, caller);
      WithoutFirst(Callers(table), caller, i.value);
      assert Callers(DropAt(table, i.value)) == DropAt(Callers(table), i.value);
    }
  }

  lemma SeenOrder(s: State, caller: Caller, max: nat)
    requires max >= 1
    ensures Order(Seen(s, caller, max)) == Recent(Order(s), caller, max)
  {
    var g := Grown(s, caller);
    FoundOrder(s.table, caller);
    assert Order(g) == Without(Order(s), caller) + [caller];
    assert Callers(g.table[Surplus(|g.table|, max)..]) == Callers(g.table)[Surplus(|g.table|, max)..];
  }

  /** A call the guard looks a record up for: its method has a quota and its payload is in order. */
  predicate Looks(e: Event, limits: Limits) { e.Enter? && e.caller.called in limits.quotas && e.payload.None? }

  lemma StepOrder(s: State, e: Event, next: State, limits: Limits)
    requires Follows(s, e, next, limits)
    ensures Order(next) == if Looks(e, limits) then Recent(Order(s), e.caller, limits.maxTracked) else Order(s)
  {
    if Looks(e, limits) {
      var quota := limits.quotas[e.caller.called];
      LookedIs(s, e.caller, quota, e.now, limits.maxTracked);
      SeenOrder(s, e.caller, limits.maxTracked);
      assert next.table == Looked(s, e.caller, quota, e.now, limits.maxTracked).table;
    }
    hide Looked, Seen, Recent;
  }

  // With room for everybody, nobody is forgotten.

  lemma {:induction false} DistinctFit(order: seq<Caller>, everyone: set<Caller>)
    requires Distinct(order) && forall x :: x in order ==> x in everyone
    ensures |order| <= |everyone|
  {
    if order != [] {
      assert order[0] !in order[1..];
      DistinctFit(order[1..], everyone - {order[0]});
    }
  }

  lemma RecentKeepsAll(order: seq<Caller>, caller: Caller, everyone: set<Caller>, max: nat)
    requires Distinct(order) && (forall x :: x in order ==> x in everyone) && caller in everyone && |everyone| <= max
    ensures var r := Recent(order, caller, max);
      Distinct(r) && (forall x :: x in r ==> x in everyone) && forall x :: x in order ==> x in r
  {
    WithoutMembers(order, caller);
    var grown := Without(order, caller) + [caller];
    assert caller !in Without(order, caller);
    assert Distinct(grown);
    DistinctFit(grown, everyone);
    assert Recent(order, caller, max) == grown;
  }

  /** Every caller a record was ever looked up for is one of these. */
  ghost predicate Among(events: seq<Event>, limits: Limits, everyone: set<Caller>) {
    forall e :: e in events && Looks(e, limits) ==> e.caller in everyone
  }

  lemma {:induction false} OrderAmong(
    events: seq<Event>, states: seq<State>, limits: Limits, clock: real, everyone: set<Caller>, n: nat)
    requires Run(events, states, limits) && states[0] == Initial(clock) && n < |states|
    requires Among(events, limits, everyone) && |everyone| <= limits.maxTracked
    ensures Distinct(Order(states[n])) && forall x :: x in Order(states[n]) ==> x in everyone
  {
    hide Follows, Recent, Order;
    if n == 0 {
      assert Order(states[0]) == [] by {
        NoOrder(clock);
      }
    } else {
      OrderAmong(events, states, limits, clock, everyone, n - 1);
      assert Follows(states[n - 1], events[n - 1], states[n], limits);
      StepOrder(states[n - 1], events[n - 1], states[n], limits);
      if Looks(events[n - 1], limits) {
        RecentKeepsAll(Order(states[n - 1]), events[n - 1].caller, everyone, limits.maxTracked);
      }
    }
  }

  lemma NoOrder(clock: real)
    ensures Order(Initial(clock)) == []
  {
  }

  /** If no more callers come than the table has room for, it never forgets any of them. */
  lemma NobodyForgotten(
    events: seq<Event>, states: seq<State>, limits: Limits, clock: real, everyone: set<Caller>, caller: Caller)
    requires Run(events, states, limits) && states[0] == Initial(clock)
    requires Among(events, limits, everyone) && |everyone| <= limits.maxTracked
    ensures NotForgotten(states, caller, 0, |events|)
  {
    hide Follows, Recent, Order;
    forall m | 0 <= m < |events| ensures !Forgets(states[m], states[m + 1], caller) {
      OrderAmong(events, states, limits, clock, everyone, m);
      assert Follows(states[m], events[m], states[m + 1], limits);
      StepOrder(states[m], events[m], states[m + 1], limits);
      ListedOrder(states[m], caller);
      ListedOrder(states[m + 1], caller);
      if Looks(events[m], limits) {
        RecentKeepsAll(Order(states[m]), events[m].caller, everyone, limits.maxTracked);
      }
    }
  }

  /** So the quota then holds for every caller, over the whole run. */
  lemma FewCallersWithinQuota(
    events: seq<Event>, states: seq<State>, limits: Limits, clock: real, everyone: set<Caller>, caller: Caller, from: real)
    requires Run(events, states, limits) && states[0] == Initial(clock) && LimitsOk(limits)
    requires Among(events, limits, everyone) && |everyone| <= limits.maxTracked && caller.called in limits.quotas
    ensures var quota := limits.quotas[caller.called];
      CountIn(Admissions(events, states, caller, 0, |events|), from, quota.seconds) <= quota.maxCalls
  {
    NobodyForgotten(events, states, limits, clock, everyone, caller);
    RunLength(events, states, limits);
    hide Run, Among, NotForgotten, Admissions, CountIn;
    CallerWithinQuota(events, states, limits, clock, caller, 0, |events|, from);
  }

  lemma RunLength(events: seq<Event>, states: seq<State>, limits: Limits)
    requires Run(events, states, limits)
    ensures |states| == |events| + 1
  {
  }

  // With more callers than room, the quota starts over as often as one likes.

  function Repeated(time: real, count: nat): (r: seq<real>)
    ensures |r| == count && forall k :: 0 <= k < count ==> r[k] == time
  {
    seq(count, k => time)
  }

  /** A run that ends in `s`, with `count` admissions of `a`, all at `now`, and `lost` times that they were forgotten. */
  ghost predicate Tally(events: seq<Event>, states: seq<State>, limits: Limits, now: real, a: Caller,
                        count: nat, lost: nat, s: State) {
    && Run(events, states, limits) && states[0] == Initial(now) && states[|events|] == s
    && Admissions(events, states, a, 0, |events|) == Repeated(now, count)
    && Forgettings(states, a, 0, |events|) == lost
  }

  ghost predicate Reached(limits: Limits, now: real, a: Caller, count: nat, lost: nat, s: State) {
    exists events, states :: Tally(events, states, limits, now, a, count, lost, s)
  }

  lemma {:induction false} AdmissionsPrefix(
    events: seq<Event>, states: seq<State>, more: seq<Event>, longer: seq<State>, a: Caller, last: nat)
    requires |states| == |events| + 1 && |longer| == |more| + 1 && events <= more && states <= longer && last < |states|
    ensures Admissions(more, longer, a, 0, last) == Admissions(events, states, a, 0, last)
    ensures Forgettings(longer, a, 0, last) == Forgettings(states, a, 0, last)
    decreases last
  {
    hide Charged, Forgets;
    if last > 0 {
      AdmissionsPrefix(events, states, more, longer, a, last - 1);
    }
  }

  lemma TallyStep(events: seq<Event>, states: seq<State>, limits: Limits, now: real, a: Caller,
                  count: nat, lost: nat, s: State, e: Event, next: State, extra: nat)
    requires Tally(events, states, limits, now, a, count, lost, s) && Follows(s, e, next, limits)
    requires Charged(s, e, next, a) == Repeated(now, extra)
    ensures Tally(events + [e], states + [next], limits, now, a,
                  count + extra, lost + (if Forgets(s, next, a) then 1 else 0), next)
  {
    hide Follows, Charged, Forgets;
    var more, longer := events + [e], states + [next];
    AdmissionsPrefix(events, states, more, longer, a, |events|);
    assert Run(more, longer, limits);
    assert Repeated(now, count) + Repeated(now, extra) == Repeated(now, count + extra);
  }

  lemma ReachedStep(limits: Limits, now: real, a: Caller, count: nat, lost: nat, s: State, e: Event, next: State,
                    extra: nat)
    requires Reached(limits, now, a, count, lost, s) && Follows(s, e, next, limits)
    requires Charged(s, e, next, a) == Repeated(now, extra)
    ensures Reached(limits, now, a, count + extra, lost + (if Forgets(s, next, a) then 1 else 0), next)
  {
    hide Tally, Follows, Charged, Forgets;
    var events, states :| Tally(events, states, limits, now, a, count, lost, s);
    TallyStep(events, states, limits, now, a, count, lost, s, e, next, extra);
  }

  lemma ReachedSound(limits: Limits, now: real, a: Caller, count: nat, lost: nat, s: State)
    requires Reached(limits, now, a, count, lost, s) && LimitsOk(limits)
    ensures Sound(s, limits)
  {
    hide Sound, Run;
    var events, states :| Tally(events, states, limits, now, a, count, lost, s);
    RunLength(events, states, limits);
    RunSound(events, states, limits, now, |events|);
  }

  // One call that is entered and, if admitted, left again at once.

  ghost predicate Idle(s: State, now: real) { s.open == map[] && s.clock == now }

  function EnterOf(a: Caller, block: Block, now: real): Event { Enter(block, a, None, now) }

  function Entered(s: State, a: Caller, block: Block, now: real, limits: Limits): State
    requires limits.maxTracked >= 1 && IdsOk(s) && s.open == map[] && s.clock <= now
  {
    Step(s, EnterOf(a, block, now), limits).state
  }

  lemma SoundBasics(s: State, limits: Limits)
    requires Sound(s, limits)
    ensures limits.maxTracked >= 1 && IdsOk(s)
  {
  }

  /** With nothing open, a call is admitted as long as less than the quota was ever charged on the caller's record. */
  lemma UnspentAdmitted(s: State, a: Caller, block: Block, now: real, limits: Limits)
    requires Sound(s, limits) && Idle(s, now) && a.called in limits.quotas
    requires |HistoryOf(s, a)| < limits.quotas[a.called].maxCalls
    ensures block in Entered(s, a, block, now, limits).open
  {
    var quota := limits.quotas[a.called];
    LookedSound(s, a, now, limits);
    var looked := Looked(s, a, quota, now, limits.maxTracked);
    LookedHistory(s, a, quota, now, limits);
    NothingOpen(looked, Current(looked), limits);
    hide Looked, Sound, HistoryOf;
  }

  lemma LastIsCurrent(s: State, a: Caller, quota: Quota, now: real, limits: Limits)
    requires IdsOk(s) && limits.maxTracked >= 1
    ensures var looked := Looked(s, a, quota, now, limits.maxTracked); looked.table[|looked.table| - 1].caller == a
  {
    LookedIs(s, a, quota, now, limits.maxTracked);
    hide Looked, Seen;
  }

  lemma KeptAtMost(s: State, id: nat, limits: Limits)
    requires Sound(s, limits) && id < |s.windows|
    ensures |s.windows[id].calls| <= |s.windows[id].history|
  {
    assert WindowOk(s, id, limits);
  }

  /** The record a call is judged by holds no more calls than were ever charged on it. */
  lemma LookedHistory(s: State, a: Caller, quota: Quota, now: real, limits: Limits)
    requires Sound(s, limits) && s.clock <= now && a.called in limits.quotas && quota == limits.quotas[a.called]
    ensures limits.maxTracked >= 1 && IdsOk(s)
    ensures var looked := Looked(s, a, quota, now, limits.maxTracked);
      |looked.windows[Current(looked)].calls| <= |HistoryOf(s, a)|
  {
    hide Looked, Sound, RecordOf, Listed;
    SoundBasics(s, limits);
    var looked := Looked(s, a, quota, now, limits.maxTracked);
    LookedSound(s, a, now, limits);
    SoundTable(s, limits);
    SoundTable(looked, limits);
    KeptAtMost(looked, Current(looked), limits);
    LastIsCurrent(s, a, quota, now, limits);
    RecordIs(looked, a, |looked.table| - 1);
    if Listed(s, a) {
      LookedRecord(s, a, quota, now, limits.maxTracked, a);
    } else {
      FreshLooked(s, a, quota, now, limits.maxTracked, a);
    }
  }

  lemma NothingOpen(s: State, id: nat, limits: Limits)
    requires Sound(s, limits) && id < |s.windows| && s.open == map[]
    ensures s.windows[id].inFlight == 0
  {
    assert WindowOk(s, id, limits);
    assert OpenOn(s.open, id) == {};
  }

  lemma EnteredTables(s: State, v: Caller, block: Block, now: real, limits: Limits)
    requires Sound(s, limits) && Idle(s, now) && v.called in limits.quotas
    ensures var n := Entered(s, v, block, now, limits);
      && Follows(s, EnterOf(v, block, now), n, limits) && Sound(n, limits) && n.clock == now
      && n.open.Keys <= {block} && Order(n) == Recent(Order(s), v, limits.maxTracked)
  {
    var e, n := EnterOf(v, block, now), Entered(s, v, block, now, limits);
    StepSound(s, e, limits);
    StepOrder(s, e, n, limits);
    LookedSound(s, v, now, limits);
    hide Sound, Looked, Order, Recent;
  }

  lemma ExitTables(n: State, block: Block, now: real, limits: Limits)
    requires Sound(n, limits) && n.clock == now && n.open.Keys == {block}
    ensures n.open[block] < |n.windows|
    ensures var r := Released(n, block);
      && Follows(n, Exit(block), r, limits) && Idle(r, now) && r.table == n.table && Order(r) == Order(n)
  {
    ReleasedSound(n, block, limits);
    assert n.open - {block} == map[];
  }

  lemma OwnEntered(s: State, a: Caller, block: Block, now: real, limits: Limits)
    requires Sound(s, limits) && Idle(s, now) && a.called in limits.quotas
    requires |HistoryOf(s, a)| < limits.quotas[a.called].maxCalls
    ensures var n := Entered(s, a, block, now, limits);
      && Charged(s, EnterOf(a, block, now), n, a) == Repeated(now, 1)
      && Listed(n, a) && HistoryOf(n, a) == HistoryOf(s, a) + [now] && block in n.open
  {
    hide Sound, Follows, Listed, RecordOf, Order, Recent, HistoryOf, Entered;
    SoundBasics(s, limits);
    var e, n := EnterOf(a, block, now), Entered(s, a, block, now, limits);
    EnteredTables(s, a, block, now, limits);
    UnspentAdmitted(s, a, block, now, limits);
    assert Charged(s, e, n, a) == [now] == Repeated(now, 1);
    ChargedListed(s, e, n, a, limits);
    StepHistory(s, e, n, a, limits);
  }

  lemma Exited(n: State, block: Block, now: real, limits: Limits, a: Caller)
    requires Sound(n, limits) && n.clock == now && n.open.Keys == {block} && n.open[block] < |n.windows|
    ensures var r := Released(n, block);
      && Charged(n, Exit(block), r, a) == Repeated(now, 0)
      && (Listed(r, a) <==> Listed(n, a)) && HistoryOf(r, a) == HistoryOf(n, a)
  {
    hide Sound, Follows, Listed, RecordOf, Order, HistoryOf;
    var r := Released(n, block);
    ExitTables(n, block, now, limits);
    TableSame(n, r, a);
    StepHistory(n, Exit(block), r, a, limits);
  }

  /** A caller with quota to spare: one more admission, at the end of a history they now have in the table. */
  lemma OwnVisit(limits: Limits, now: real, a: Caller, count: nat, lost: nat, s: State, block: Block)
    requires LimitsOk(limits) && Reached(limits, now, a, count, lost, s) && Idle(s, now) && a.called in limits.quotas
    requires |HistoryOf(s, a)| < limits.quotas[a.called].maxCalls
    ensures exists r ::
      Reached(limits, now, a, count + 1, lost, r) && Idle(r, now) && Listed(r, a) &&
      HistoryOf(r, a) == HistoryOf(s, a) + [now]
  {
    hide Reached, Follows, Sound, HistoryOf, Listed, Entered, Released, Charged, Order, Recent, LimitsOk;
    ReachedSound(limits, now, a, count, lost, s);
    SoundBasics(s, limits);
    EnteredTables(s, a, block, now, limits);
    OwnEntered(s, a, block, now, limits);
    var n := Entered(s, a, block, now, limits);
    ReachedStep(limits, now, a, count, lost, s, EnterOf(a, block, now), n, 1);
    ExitTables(n, block, now, limits);
    Exited(n, block, now, limits, a);
    ReachedStep(limits, now, a, count + 1, lost, n, Exit(block), Released(n, block), 0);
  }

  lemma OtherEntered(s: State, a: Caller, v: Caller, block: Block, now: real, n: State)
    requires v != a
    ensures Charged(s, EnterOf(v, block, now), n, a) == Repeated(now, 0)
  {
  }

  /** Somebody else's call: it may push the caller out of the table, and admits them to nothing. */
  lemma OtherVisit(limits: Limits, now: real, a: Caller, count: nat, lost: nat, s: State, v: Caller, block: Block)
    requires LimitsOk(limits) && Reached(limits, now, a, count, lost, s) && Idle(s, now)
    requires v.called in limits.quotas && v != a
    ensures exists r ::
      && Reached(limits, now, a, count, lost + (if Forgets(s, r, a) then 1 else 0), r) && Idle(r, now)
      && Order(r) == Recent(Order(s), v, limits.maxTracked)
  {
    hide Reached, Follows, Sound, HistoryOf, Listed, Entered, Released, Charged, Order, Recent, LimitsOk;
    ReachedSound(limits, now, a, count, lost, s);
    SoundBasics(s, limits);
    EnteredTables(s, v, block, now, limits);
    var n := Entered(s, v, block, now, limits);
    OtherEntered(s, a, v, block, now, n);
    ReachedStep(limits, now, a, count, lost, s, EnterOf(v, block, now), n, 0);
    if block in n.open {
      ExitTables(n, block, now, limits);
      Exited(n, block, now, limits, a);
      var after := lost + if Forgets(s, n, a) then 1 else 0;
      ReachedStep(limits, now, a, count, after, n, Exit(block), Released(n, block), 0);
    } else {
      assert n.open == map[];
    }
  }

  // Rounds: the quota spent, then as many others as the table has room for.

  /** The caller, unknown to the table, spends `i` of the quota. */
  lemma {:induction false} Spends(limits: Limits, now: real, a: Caller, count: nat, lost: nat, s: State, block: Block,
                                  i: nat)
    requires LimitsOk(limits) && Reached(limits, now, a, count, lost, s) && Idle(s, now) && a.called in limits.quotas
    requires HistoryOf(s, a) == [] && 1 <= i <= limits.quotas[a.called].maxCalls
    ensures exists r :: Reached(limits, now, a, count + i, lost, r) && Idle(r, now) && Listed(r, a) && |HistoryOf(r, a)| == i
    decreases i
  {
    hide Reached, HistoryOf, Listed, Idle;
    if i == 1 {
      OwnVisit(limits, now, a, count, lost, s, block);
    } else {
      Spends(limits, now, a, count, lost, s, block, i - 1);
      var mid :|
        Reached(limits, now, a, count + (i - 1), lost, mid) && Idle(mid, now) && Listed(mid, a) &&
        |HistoryOf(mid, a)| == i - 1;
      OwnVisit(limits, now, a, count + (i - 1), lost, mid, block);
    }
  }

  /** The most recent callers are these, in this order. */
  ghost predicate EndsWith(order: seq<Caller>, tail: seq<Caller>) {
    |tail| <= |order| && order[|order| - |tail|..] == tail
  }

  lemma RecentEndsWith(order: seq<Caller>, tail: seq<Caller>, v: Caller, max: nat)
    requires EndsWith(order, tail) && v !in tail && |tail| < max
    ensures EndsWith(Recent(order, v, max), tail + [v])
  {
    var front := order[..|order| - |tail|];
    assert order == front + tail;
    WithoutFront(front, tail, v);
    var grown := Without(order, v) + [v];
    assert grown == Without(front, v) + (tail + [v]);
    hide Without;
  }

  lemma {:induction false} WithoutFront(front: seq<Caller>, tail: seq<Caller>, v: Caller)
    requires v !in tail
    ensures Without(front + tail, v) == Without(front, v) + tail
  {
    if front == [] {
      assert front + tail == tail;
      assert [] + tail == tail;
    } else {
      assert (front + tail)[1..] == front[1..] + tail;
      WithoutFront(front[1..], tail, v);
      assert front[0] != v ==> [front[0]] + (Without(front[1..], v) + tail) == ([front[0]] + Without(front[1..], v)) + tail;
    }
  }

  lemma RecentStranger(order: seq<Caller>, v: Caller, max: nat, x: Caller)
    requires x !in order && x != v
    ensures x !in Recent(order, v, max)
  {
    WithoutStranger(order, v, x);
  }

  lemma {:induction false} WithoutStranger(order: seq<Caller>, v: Caller, x: Caller)
    requires x !in order
    ensures x !in Without(order, v)
  {
    if order != [] {
      WithoutStranger(order[1..], v, x);
    }
  }

  /** As many other callers as the table has room for, each of a method with a quota. */
  ghost predicate Crowd(others: seq<Caller>, a: Caller, limits: Limits) {
    && |others| == limits.maxTracked && Distinct(others) && a !in others
    && forall v :: v in others ==> v.called in limits.quotas
  }

  lemma {:induction false} Displaces(limits: Limits, now: real, a: Caller, count: nat, lost: nat, s: State, block: Block,
                                     others: seq<Caller>, j: nat)
    requires LimitsOk(limits) && Reached(limits, now, a, count, lost, s) && Idle(s, now) && Listed(s, a)
    requires Crowd(others, a, limits) && j <= |others|
    ensures exists r ::
      Reached(limits, now, a, count, lost + (if Listed(r, a) then 0 else 1), r) && Idle(r, now) &&
      EndsWith(Order(r), others[..j])
    decreases j
  {
    hide Reached, Listed, Idle, Order, Recent, EndsWith;
    if j == 0 {
      NothingLast(Order(s), others);
    } else {
      Displaces(limits, now, a, count, lost, s, block, others, j - 1);
      var mid :|
        Reached(limits, now, a, count, lost + (if Listed(mid, a) then 0 else 1), mid) && Idle(mid, now) &&
        EndsWith(Order(mid), others[..j - 1]);
      var v, so := others[j - 1], lost + if Listed(mid, a) then 0 else 1;
      OtherVisit(limits, now, a, count, so, mid, v, block);
      var r :|
        Reached(limits, now, a, count, so + (if Forgets(mid, r, a) then 1 else 0), r) && Idle(r, now) &&
        Order(r) == Recent(Order(mid), v, limits.maxTracked);
      assert others[..j] == others[..j - 1] + [v];
      RecentEndsWith(Order(mid), others[..j - 1], v, limits.maxTracked);
      StaysOut(mid, r, a, v, limits.maxTracked);
    }
  }

  lemma NothingLast(order: seq<Caller>, others: seq<Caller>)
    ensures EndsWith(order, others[..0])
  {
  }

  lemma StaysOut(s: State, r: State, a: Caller, v: Caller, max: nat)
    requires Order(r) == Recent(Order(s), v, max) && v != a
    ensures Listed(r, a) ==> Listed(s, a)
  {
    hide Order, Recent, Listed;
    ListedOrder(s, a);
    ListedOrder(r, a);
    if a !in Order(s) {
      RecentStranger(Order(s), v, max, a);
    }
  }

  /** With the table full of the others, the caller is not in it. */
  lemma CrowdedOut(s: State, a: Caller, others: seq<Caller>, limits: Limits)
    requires Sound(s, limits) && Crowd(others, a, limits) && EndsWith(Order(s), others)
    ensures !Listed(s, a)
  {
    SoundTable(s, limits);
    ListedOrder(s, a);
    assert Order(s) == others;
  }

  lemma Round(limits: Limits, now: real, a: Caller, count: nat, lost: nat, s: State, block: Block, others: seq<Caller>)
    requires LimitsOk(limits) && Reached(limits, now, a, count, lost, s) && Idle(s, now) && HistoryOf(s, a) == []
    requires a.called in limits.quotas && Crowd(others, a, limits)
    ensures exists r ::
      Reached(limits, now, a, count + limits.quotas[a.called].maxCalls, lost + 1, r) && Idle(r, now) && HistoryOf(r, a) == []
  {
    hide Reached, Listed, Idle, Order, EndsWith, Crowd;
    var max := limits.quotas[a.called].maxCalls;
    Spends(limits, now, a, count, lost, s, block, max);
    var mid :|
      Reached(limits, now, a, count + max, lost, mid) && Idle(mid, now) && Listed(mid, a) && |HistoryOf(mid, a)| == max;
    CrowdSize(others, a, limits);
    Displaces(limits, now, a, count + max, lost, mid, block, others, |others|);
    var r :|
      Reached(limits, now, a, count + max, lost + (if Listed(r, a) then 0 else 1), r) && Idle(r, now) &&
      EndsWith(Order(r), others[..|others|]);
    assert others[..|others|] == others;
    ReachedSound(limits, now, a, count + max, lost + (if Listed(r, a) then 0 else 1), r);
    CrowdedOut(r, a, others, limits);
  }

  lemma CrowdSize(others: seq<Caller>, a: Caller, limits: Limits)
    requires Crowd(others, a, limits)
    ensures |others| == limits.maxTracked
  {
  }

  lemma {:induction false} Rounds(limits: Limits, now: real, a: Caller, block: Block, others: seq<Caller>, n: nat)
    requires LimitsOk(limits) && a.called in limits.quotas && Crowd(others, a, limits)
    ensures exists r ::
      Reached(limits, now, a, limits.quotas[a.called].maxCalls * n, n, r) && Idle(r, now) && HistoryOf(r, a) == []
    decreases n
  {
    hide Reached, Idle, HistoryOf, Crowd;
    if n == 0 {
      Beginning(limits, now, a);
    } else {
      var max := limits.quotas[a.called].maxCalls;
      Rounds(limits, now, a, block, others, n - 1);
      var s :| Reached(limits, now, a, max * (n - 1), n - 1, s) && Idle(s, now) && HistoryOf(s, a) == [];
      Round(limits, now, a, max * (n - 1), n - 1, s, block, others);
      OneMore(max, n - 1);
    }
  }

  lemma Beginning(limits: Limits, now: real, a: Caller)
    ensures Reached(limits, now, a, 0, 0, Initial(now)) && Idle(Initial(now), now) && HistoryOf(Initial(now), a) == []
  {
    assert Tally([], [Initial(now)], limits, now, a, 0, 0, Initial(now));
  }

  lemma {:induction false} CountRepeated(now: real, count: nat, seconds: real)
    requires seconds > 0.0
    ensures CountIn(Repeated(now, count), now, seconds) == count
  {
    if count > 0 {
      assert Repeated(now, count)[1..] == Repeated(now, count - 1);
      CountRepeated(now, count - 1, seconds);
    }
  }

  /**
   The bound on admissions is met, whatever the limits: given as many other callers as the table has room for,
   there is for every n a run that forgets a caller n times and admits them, all at one instant, n + 1 times the
   quota.
   */
  lemma ForgottenReadmitted(limits: Limits, now: real, a: Caller, block: Block, others: seq<Caller>, n: nat)
    requires LimitsOk(limits) && a.called in limits.quotas && Crowd(others, a, limits)
    ensures exists events, states ::
      && Run(events, states, limits) && states[0] == Initial(now)
      && Forgettings(states, a, 0, |events|) == n
      && CountIn(Admissions(events, states, a, 0, |events|), now, limits.quotas[a.called].seconds)
         == limits.quotas[a.called].maxCalls * (n + 1)
  {
    hide Run, Admissions, Forgettings, CountIn, HistoryOf, Crowd, Repeated, Idle, Listed;
    var max := limits.quotas[a.called].maxCalls;
    Rounds(limits, now, a, block, others, n);
    var s :| Reached(limits, now, a, max * n, n, s) && Idle(s, now) && HistoryOf(s, a) == [];
    Spends(limits, now, a, max * n, n, s, block, max);
    OneMore(max, n);
    var r :| Reached(limits, now, a, max * n + max, n, r) && Idle(r, now) && Listed(r, a) && |HistoryOf(r, a)| == max;
    CountRepeated(now, max * n + max, limits.quotas[a.called].seconds);
    var events, states :| Tally(events, states, limits, now, a, max * n + max, n, r);
  }
}
