/** The guard's quotas stated for callers: what a caller who is not forgotten can be admitted to. */
module GuardQuota {
  import opened Guard
  import opened Prelude

  ghost predicate Listed(s: State, caller: Caller) {
    exists k :: 0 <= k < |s.table| && s.table[k].caller == caller
  }

  /** The record the table holds for a caller. */
  ghost function RecordOf(s: State, caller: Caller): nat
    requires Listed(s, caller)
  {
    var k :| 0 <= k < |s.table| && s.table[k].caller == caller;
    s.table[k].id
  }

  /** The times at which this caller was admitted, in order. */
  function Admissions(events: seq<Event>, states: seq<State>, caller: Caller, first: nat, last: nat): seq<real>
    requires last < |states| && |states| == |events| + 1
    decreases last
  {
    if last <= first then []
    else
      var earlier := Admissions(events, states, caller, first, last - 1);
      earlier + Charged(states[last - 1], events[last - 1], states[last], caller)
  }

  /** An event admits the caller when a block is entered by them and is open afterwards. */
  function Charged(s: State, e: Event, next: State, caller: Caller): seq<real> {
    if e.Enter? && e.caller == caller && e.block in next.open then [e.now] else []
  }

  lemma RecordIs(s: State, caller: Caller, k: nat)
    requires Tabled(s) && k < |s.table| && s.table[k].caller == caller
    ensures Listed(s, caller) && RecordOf(s, caller) == s.table[k].id < |s.windows|
    ensures s.windows[s.table[k].id].caller == caller
  {
    assert Listed(s, caller);
    var j :| 0 <= j < |s.table| && s.table[j].caller == caller && RecordOf(s, caller) == s.table[j].id;
    assert j == k;
  }

  /** A table entry after a call is an old one, or the caller's own. */
  lemma SeenSlots(s: State, caller: Caller, max: nat, k: nat)
    requires Tabled(s) && max >= 1 && k < |Seen(s, caller, max).table|
    ensures var slot := Seen(s, caller, max).table[k];
      slot.caller == caller || exists j :: 0 <= j < |s.table| && s.table[j] == slot
  {
    var g := Grown(s, caller);
    var slot := Seen(s, caller, max).table[k];
    assert slot == g.table[k + Surplus(|g.table|, max)];
    var i := Find(s.table, caller);
    if i.Some? {
      if k + Surplus(|g.table|, max) < |g.table| - 1 {
        assert slot == DropAt(s.table, i.value)[k + Surplus(|g.table|, max)];
      }
    }
  }

  lemma LookedIs(s: State, caller: Caller, quota: Quota, now: real, max: nat)
    requires max >= 1 && IdsOk(s)
    ensures var seen, r := Seen(s, caller, max), Looked(s, caller, quota, now, max);
      && r.table == seen.table && |r.windows| == |seen.windows|
      && forall id :: 0 <= id < |r.windows| ==> r.windows[id].history == seen.windows[id].history
  {
    SeenIds(s, caller, max);
    hide Seen, Expired;
  }

  lemma SeenRecord(s: State, visitor: Caller, max: nat, caller: Caller, m: nat)
    requires TableOk(s, max) && max >= 1 && Listed(s, caller)
    requires m < |Seen(s, visitor, max).table| && Seen(s, visitor, max).table[m].caller == caller
    ensures Seen(s, visitor, max).table[m].id == RecordOf(s, caller) < |s.windows|
  {
    SeenTable(s, visitor, max);
    SeenSlots(s, visitor, max, m);
    var seen := Seen(s, visitor, max);
    var k :| 0 <= k < |s.table| && s.table[k].caller == caller;
    RecordIs(s, caller, k);
    RecordIs(seen, caller, m);
    if visitor == caller {
      RecordIs(seen, caller, |seen.table| - 1);
    } else {
      var j :| 0 <= j < |s.table| && s.table[j] == seen.table[m];
      RecordIs(s, caller, j);
    }
    hide Tabled, Seen, Grown;
  }

  lemma LookedRecord(s: State, visitor: Caller, quota: Quota, now: real, max: nat, caller: Caller)
    requires TableOk(s, max) && max >= 1 && Listed(s, caller) && Listed(Looked(s, visitor, quota, now, max), caller)
    ensures var r := Looked(s, visitor, quota, now, max); var id := RecordOf(s, caller);
      && RecordOf(r, caller) == id && id < |s.windows| <= |r.windows|
      && r.windows[id].history == s.windows[id].history
      && (id == Current(r) <==> visitor == caller)
  {
    hide Looked, Seen, RecordOf;
    var seen, r := Seen(s, visitor, max), Looked(s, visitor, quota, now, max);
    LookedIs(s, visitor, quota, now, max);
    SeenTable(s, visitor, max);
    var m :| 0 <= m < |r.table| && r.table[m].caller == caller;
    SeenRecord(s, visitor, max, caller, m);
    SameTable(seen, r, caller, m);
    RecordIs(seen, caller, m);
    RecordIs(seen, visitor, |seen.table| - 1);
    var id := RecordOf(s, caller);
    assert s.windows[id].history == seen.windows[id].history == r.windows[id].history;
  }

  lemma SameTable(s: State, r: State, caller: Caller, m: nat)
    requires Tabled(s) && s.table == r.table && m < |s.table| && s.table[m].caller == caller
    ensures Listed(r, caller) && RecordOf(r, caller) == s.table[m].id
  {
    assert Listed(r, caller);
    var j :| 0 <= j < |r.table| && r.table[j].caller == caller && RecordOf(r, caller) == r.table[j].id;
    assert j == m;
  }

  /** While a caller stays listed, one step keeps their record and adds to its history just what it admits. */
  lemma StepRecord(s: State, e: Event, next: State, caller: Caller, limits: Limits)
    requires Sound(s, limits) && Follows(s, e, next, limits) && Listed(s, caller) && Listed(next, caller)
    ensures var id := RecordOf(s, caller);
      && RecordOf(next, caller) == id && id < |s.windows| && id < |next.windows|
      && next.windows[id].history == s.windows[id].history + Charged(s, e, next, caller)
  {
    hide Sound, Looked, RecordOf, Listed, WindowOk;
    SoundTable(s, limits);
    ListedRecord(s, caller);
    match e
    case Exit(block) => TableSame(s, next, caller);
    case Enter(block, visitor, payload, now) =>
      if visitor.called in limits.quotas && payload.None? {
        var quota := limits.quotas[visitor.called];
        var looked := Looked(s, visitor, quota, now, limits.maxTracked);
        LookedSound(s, visitor, now, limits);
        SoundTable(looked, limits);
        assert looked.table == next.table;
        TableSame(looked, next, caller);
        LookedRecord(s, visitor, quota, now, limits.maxTracked, caller);
      }
  }

  lemma SoundTable(s: State, limits: Limits)
    requires Sound(s, limits)
    ensures TableOk(s, limits.maxTracked)
  {
  }

  lemma ListedRecord(s: State, caller: Caller)
    requires IdsOk(s) && Listed(s, caller)
    ensures RecordOf(s, caller) < |s.windows|
  {
  }

  /** With the same table, the record of a caller is the same. */
  lemma TableSame(s: State, r: State, caller: Caller)
    requires s.table == r.table
    ensures Listed(s, caller) <==> Listed(r, caller)
    ensures Listed(s, caller) && Tabled(s) ==> RecordOf(s, caller) == RecordOf(r, caller)
  {
    if Listed(s, caller) && Tabled(s) {
      var k :| 0 <= k < |s.table| && s.table[k].caller == caller;
      RecordIs(s, caller, k);
      SameTable(s, r, caller, k);
    }
  }

  lemma {:induction false} CountAppend(a: seq<real>, b: seq<real>, from: real, seconds: real)
    ensures CountIn(a + b, from, seconds) == CountIn(a, from, seconds) + CountIn(b, from, seconds)
  {
    if a == [] {
      assert a + b == b;
    } else {
      CountAppend(a[1..], b, from, seconds);
      assert (a + b)[1..] == a[1..] + b;
    }
  }

  // A caller's history, over being listed for the first time, listed again, and forgotten.

  /** What the record the table holds for a caller was ever charged; nothing for a caller it does not hold. */
  ghost function HistoryOf(s: State, caller: Caller): seq<real> {
    if Listed(s, caller) && RecordOf(s, caller) < |s.windows| then s.windows[RecordOf(s, caller)].history else []
  }

  /** The caller was in the table and is not in it any more. */
  ghost predicate Forgets(s: State, next: State, caller: Caller) {
    Listed(s, caller) && !Listed(next, caller)
  }

  /** Where the table comes to list a caller, the call just made was theirs and their record is a new one. */
  lemma SeenFresh(s: State, visitor: Caller, max: nat, caller: Caller)
    requires TableOk(s, max) && max >= 1 && !Listed(s, caller) && Listed(Seen(s, visitor, max), caller)
    ensures visitor == caller
    ensures var seen := Seen(s, visitor, max);
      RecordOf(seen, caller) == Current(seen) == |s.windows| < |seen.windows| && seen.windows[|s.windows|].history == []
  {
    var seen := Seen(s, visitor, max);
    SeenTable(s, visitor, max);
    var m :| 0 <= m < |seen.table| && seen.table[m].caller == caller;
    SeenSlots(s, visitor, max, m);
    RecordIs(seen, caller, m);
    RecordIs(seen, caller, |seen.table| - 1);
    hide Tabled, RecordOf;
    assert Find(s.table, caller).None?;
  }

  /** A caller admitted is listed afterwards. */
  lemma ChargedListed(s: State, e: Event, next: State, caller: Caller, limits: Limits)
    requires Follows(s, e, next, limits) && Charged(s, e, next, caller) != []
    ensures Listed(next, caller)
  {
    var looked := Looked(s, caller, limits.quotas[caller.called], e.now, limits.maxTracked);
    LookedIs(s, caller, limits.quotas[caller.called], e.now, limits.maxTracked);
    assert next.table == looked.table;
    hide Looked, Seen;
    assert next.table[|next.table| - 1].caller == caller;
  }

  lemma FreshLooked(s: State, visitor: Caller, quota: Quota, now: real, max: nat, caller: Caller)
    requires TableOk(s, max) && max >= 1 && !Listed(s, caller) && Listed(Looked(s, visitor, quota, now, max), caller)
    ensures var r := Looked(s, visitor, quota, now, max);
      visitor == caller && RecordOf(r, caller) == Current(r) && r.windows[Current(r)].history == []
  {
    var seen, r := Seen(s, visitor, max), Looked(s, visitor, quota, now, max);
    LookedIs(s, visitor, quota, now, max);
    TableSame(seen, r, caller);
    SeenTable(s, visitor, max);
    SeenFresh(s, visitor, max, caller);
    hide Looked, Seen, Listed, RecordOf, Tabled;
  }

  /** A step that lists a caller gives them a history that is just what it admits. */
  lemma StepFresh(s: State, e: Event, next: State, caller: Caller, limits: Limits)
    requires Sound(s, limits) && Follows(s, e, next, limits) && !Listed(s, caller) && Listed(next, caller)
    ensures var id := RecordOf(next, caller);
      id < |next.windows| && next.windows[id].history == Charged(s, e, next, caller)
  {
    hide Sound, Looked, RecordOf, Listed, WindowOk, Tabled;
    SoundTable(s, limits);
    match e
    case Exit(block) => TableSame(s, next, caller);
    case Enter(block, visitor, payload, now) =>
      if visitor.called in limits.quotas && payload.None? {
        var quota := limits.quotas[visitor.called];
        var looked := Looked(s, visitor, quota, now, limits.maxTracked);
        LookedSound(s, visitor, now, limits);
        SoundTable(looked, limits);
        assert looked.table == next.table;
        TableSame(looked, next, caller);
        FreshLooked(s, visitor, quota, now, limits.maxTracked, caller);
      }
  }

  /** A step that does not forget a caller adds to their history exactly what it admits. */
  lemma StepHistory(s: State, e: Event, next: State, caller: Caller, limits: Limits)
    requires Sound(s, limits) && Follows(s, e, next, limits) && !Forgets(s, next, caller)
    ensures HistoryOf(next, caller) == HistoryOf(s, caller) + Charged(s, e, next, caller)
    ensures Listed(s, caller) ==> RecordOf(next, caller) == RecordOf(s, caller)
  {
    hide Sound, Follows, Charged, Listed, RecordOf;
    if Listed(s, caller) {
      StepRecord(s, e, next, caller, limits);
    } else if Listed(next, caller) {
      StepFresh(s, e, next, caller, limits);
    } else if Charged(s, e, next, caller) != [] {
      ChargedListed(s, e, next, caller, limits);
    }
  }

  ghost predicate NotForgotten(states: seq<State>, caller: Caller, first: nat, last: nat)
    requires last < |states|
  {
    forall m :: first <= m < last ==> !Forgets(states[m], states[m + 1], caller)
  }

  /** How often the table forgets a caller in between. */
  ghost function Forgettings(states: seq<State>, caller: Caller, first: nat, last: nat): nat
    requires last < |states|
    decreases last
  {
    if last <= first then 0
    else
      Forgettings(states, caller, first, last - 1) + if Forgets(states[last - 1], states[last], caller) then 1 else 0
  }

  /**
   From any state on, listed or not, as long as a caller is not forgotten their history grows by exactly their
   admissions, the one that lists them included; and a record once theirs stays theirs.
   */
  lemma {:induction false} HistoryIsAdmissions(
    events: seq<Event>, states: seq<State>, limits: Limits, clock: real, caller: Caller, first: nat, last: nat)
    requires Run(events, states, limits) && states[0] == Initial(clock) && LimitsOk(limits)
    requires first <= last < |states| && NotForgotten(states, caller, first, last)
    ensures HistoryOf(states[last], caller)
      == HistoryOf(states[first], caller) + Admissions(events, states, caller, first, last)
    ensures Listed(states[first], caller) ==>
      Listed(states[last], caller) && RecordOf(states[last], caller) == RecordOf(states[first], caller)
    decreases last
  {
    hide Follows, Listed, RecordOf, Sound, Charged, HistoryOf;
    if last > first {
      HistoryIsAdmissions(events, states, limits, clock, caller, first, last - 1);
      RunSound(events, states, limits, clock, last - 1);
      assert Follows(states[last - 1], events[last - 1], states[last], limits);
      assert !Forgets(states[last - 1], states[last], caller);
      StepHistory(states[last - 1], events[last - 1], states[last], caller, limits);
    }
  }

  /** What the table holds for a caller is within their quota. */
  lemma HistoryWithinQuota(
    events: seq<Event>, states: seq<State>, limits: Limits, clock: real, caller: Caller, i: nat, from: real)
    requires Run(events, states, limits) && states[0] == Initial(clock) && LimitsOk(limits) && i < |states|
    requires caller.called in limits.quotas
    ensures var quota := limits.quotas[caller.called];
      CountIn(HistoryOf(states[i], caller), from, quota.seconds) <= quota.maxCalls
  {
    hide Run, CountIn, RecordOf, Tabled;
    if Listed(states[i], caller) {
      RunSound(events, states, limits, clock, i);
      SoundTable(states[i], limits);
      var k :| 0 <= k < |states[i].table| && states[i].table[k].caller == caller;
      RecordIs(states[i], caller, k);
      WithinQuota(events, states, limits, clock, i, RecordOf(states[i], caller), from);
    }
    NoneCounted(from, limits.quotas[caller.called].seconds);
  }

  lemma NoneCounted(from: real, seconds: real)
    ensures CountIn([], from, seconds) == 0
  {
  }

  /** Admissions so far are covered by one quota for each time forgotten and by the history now held. */
  lemma {:induction false} AdmissionsCovered(
    events: seq<Event>, states: seq<State>, limits: Limits, clock: real,
    caller: Caller, first: nat, last: nat, from: real)
    requires Run(events, states, limits) && states[0] == Initial(clock) && LimitsOk(limits)
    requires first <= last < |states| && caller.called in limits.quotas
    ensures var quota := limits.quotas[caller.called];
      CountIn(Admissions(events, states, caller, first, last), from, quota.seconds)
      <= quota.maxCalls * Forgettings(states, caller, first, last)
         + CountIn(HistoryOf(states[last], caller), from, quota.seconds)
    decreases last
  {
    hide Follows, Listed, RecordOf, Sound, Charged, HistoryOf, CountIn;
    var quota := limits.quotas[caller.called];
    NoneCounted(from, quota.seconds);
    if last > first {
      var s, e, next := states[last - 1], events[last - 1], states[last];
      AdmissionsCovered(events, states, limits, clock, caller, first, last - 1, from);
      RunSound(events, states, limits, clock, last - 1);
      RunFollows(events, states, limits, last - 1);
      CountAppend(Admissions(events, states, caller, first, last - 1), Charged(s, e, next, caller), from, quota.seconds);
      if Forgets(s, next, caller) {
        if Charged(s, e, next, caller) != [] {
          ChargedListed(s, e, next, caller, limits);
        }
        HistoryWithinQuota(events, states, limits, clock, caller, last - 1, from);
        OneMore(quota.maxCalls, Forgettings(states, caller, first, last - 1));
      } else {
        StepHistory(s, e, next, caller, limits);
        CountAppend(HistoryOf(s, caller), Charged(s, e, next, caller), from, quota.seconds);
      }
    }
  }

  lemma OneMore(max: nat, times: nat)
    ensures max * (times + 1) == max * times + max
  {
  }

  lemma RunFollows(events: seq<Event>, states: seq<State>, limits: Limits, i: nat)
    requires Run(events, states, limits) && i < |events|
    ensures Follows(states[i], events[i], states[i + 1], limits)
  {
  }

  /**
   Between any two points of any run, a caller is admitted in an interval of the window's length at most as
   often as the quota allows, and once more that often for each time the table forgot them in between. A
   caller of a method without a quota is never admitted.
   */
  lemma AdmittedWithinQuota(
    events: seq<Event>, states: seq<State>, limits: Limits, clock: real,
    caller: Caller, first: nat, last: nat, from: real)
    requires Run(events, states, limits) && states[0] == Initial(clock) && LimitsOk(limits)
    requires first <= last < |states|
    ensures caller.called in limits.quotas ==>
      var quota := limits.quotas[caller.called];
      CountIn(Admissions(events, states, caller, first, last), from, quota.seconds)
      <= quota.maxCalls * (1 + Forgettings(states, caller, first, last))
    ensures caller.called !in limits.quotas ==> Admissions(events, states, caller, first, last) == []
  {
    hide Run, Admissions, CountIn, HistoryOf, Forgettings;
    if caller.called in limits.quotas {
      AdmissionsCovered(events, states, limits, clock, caller, first, last, from);
      HistoryWithinQuota(events, states, limits, clock, caller, last, from);
      OneMore(limits.quotas[caller.called].maxCalls, Forgettings(states, caller, first, last));
    } else {
      NoQuotaNoAdmission(events, states, limits, clock, caller, first, last);
    }
  }

  lemma {:induction false} NoQuotaNoAdmission(
    events: seq<Event>, states: seq<State>, limits: Limits, clock: real, caller: Caller, first: nat, last: nat)
    requires Run(events, states, limits) && states[0] == Initial(clock) && LimitsOk(limits)
    requires first <= last < |states| && caller.called !in limits.quotas
    ensures Admissions(events, states, caller, first, last) == []
    decreases last
  {
    hide Follows, Charged;
    if last > first {
      NoQuotaNoAdmission(events, states, limits, clock, caller, first, last - 1);
      RunFollows(events, states, limits, last - 1);
      NoQuotaStep(states[last - 1], events[last - 1], states[last], caller, limits);
    }
  }

  lemma NoQuotaStep(s: State, e: Event, next: State, caller: Caller, limits: Limits)
    requires Follows(s, e, next, limits) && caller.called !in limits.quotas
    ensures Charged(s, e, next, caller) == []
  {
    hide Admitted;
  }

  lemma {:induction false} NeverForgotten(states: seq<State>, caller: Caller, first: nat, last: nat)
    requires first <= last < |states| && NotForgotten(states, caller, first, last)
    ensures Forgettings(states, caller, first, last) == 0
    decreases last
  {
    hide Forgets;
    if last > first {
      NeverForgotten(states, caller, first, last - 1);
      assert !Forgets(states[last - 1], states[last], caller);
    }
  }

  /**
   A caller the table does not forget between `first` and `last`, whether it knew them at first or not, is
   admitted in any interval of the window's length at most as often as the quota allows, whatever others do.
   */
  lemma CallerWithinQuota(
    events: seq<Event>, states: seq<State>, limits: Limits, clock: real,
    caller: Caller, first: nat, last: nat, from: real)
    requires Run(events, states, limits) && states[0] == Initial(clock) && LimitsOk(limits)
    requires first <= last < |states| && NotForgotten(states, caller, first, last)
    ensures caller.called in limits.quotas ==>
      var quota := limits.quotas[caller.called];
      CountIn(Admissions(events, states, caller, first, last), from, quota.seconds) <= quota.maxCalls
    ensures caller.called !in limits.quotas ==> Admissions(events, states, caller, first, last) == []
  {
    hide Run, Admissions, CountIn, NotForgotten, Forgettings;
    NeverForgotten(states, caller, first, last);
    AdmittedWithinQuota(events, states, limits, clock, caller, first, last, from);
  }
}
