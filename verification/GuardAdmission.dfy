/**
 Exactly when the guard admits a call, told by the times a caller was admitted at and the blocks still open on
 their record: the window slides, and nothing else is refused.
 */
module GuardAdmission {
  import opened Guard
  import opened GuardQuota
  import opened Prelude
  import opened QuotaBound

  /** How many of these times lie within the last `seconds` up to `now`, the far end left out. */
  function CountLast(times: seq<real>, now: real, seconds: real): nat {
    if times == [] then 0
    else (if now - seconds < times[0] <= now then 1 else 0) + CountLast(times[1..], now, seconds)
  }

  /** The blocks entered and not left on the record the table holds for this caller. */
  ghost function OpenBlocks(s: State, caller: Caller): set<Block> {
    if Listed(s, caller) then OpenOn(s.open, RecordOf(s, caller)) else {}
  }

  lemma {:induction false} CountSplit(past: seq<real>, recent: seq<real>, now: real, seconds: real)
    requires forall i :: 0 <= i < |past| ==> past[i] <= now - seconds
    requires forall i :: 0 <= i < |recent| ==> now - seconds < recent[i] <= now
    ensures CountLast(past + recent, now, seconds) == |recent|
    decreases |past| + |recent|
  {
    if past != [] {
      assert (past + recent)[1..] == past[1..] + recent;
      CountSplit(past[1..], recent, now, seconds);
    } else if recent != [] {
      assert (past + recent)[1..] == past + recent[1..];
      CountSplit(past, recent[1..], now, seconds);
    }
  }

  lemma KeptSorted(w: Window, quota: Quota, clock: real)
    requires LogOk(w, quota, clock)
    ensures Sorted(w.calls) && Sorted(w.history) && Guard.Kept(w, quota.seconds, clock)
    ensures forall i :: 0 <= i < |w.calls| ==> w.calls[i] <= clock
  {
    var cut := |w.history| - |w.calls|;
    assert forall i :: 0 <= i < |w.calls| ==> w.calls[i] == w.history[cut + i];
  }

  lemma KeptCounts(w: Window, kept: seq<real>, seconds: real, now: real)
    requires Guard.Kept(w.(calls := kept), seconds, now)
    requires forall i :: 0 <= i < |kept| ==> now - seconds < kept[i] <= now
    ensures CountLast(w.history, now, seconds) == |kept|
  {
    var past := w.history[..|w.history| - |kept|];
    assert w.history == past + kept;
    assert forall i :: 0 <= i < |past| ==> past[i] == w.history[i];
    CountSplit(past, kept, now, seconds);
  }

  /** The calls kept on the record a call is judged by are those of the last window's length. */
  lemma KeptAreRecent(w: Window, quota: Quota, clock: real, now: real)
    requires LogOk(w, quota, clock) && clock <= now
    ensures |Expired(w.calls, now - quota.seconds)| == CountLast(w.history, now, quota.seconds)
  {
    hide Expired, Sorted, Guard.Kept, LogOk, CountLast;
    var kept := Expired(w.calls, now - quota.seconds);
    KeptSorted(w, quota, clock);
    ExpiryCuts(w, quota.seconds, clock, now);
    ExpiredIs(w.calls, now - quota.seconds);
    assert forall i :: 0 <= i < |kept| ==> kept[i] in w.calls;
    KeptCounts(w, kept, quota.seconds, now);
  }

  /** The record a call of this caller is judged by, before anything old is dropped from it. */
  lemma JudgedBy(s: State, caller: Caller, now: real, limits: Limits)
    requires Sound(s, limits) && caller.called in limits.quotas && s.clock <= now
    ensures limits.maxTracked >= 1 && IdsOk(s)
    ensures var quota := limits.quotas[caller.called];
      var seen := Seen(s, caller, limits.maxTracked);
      var looked := Looked(s, caller, quota, now, limits.maxTracked);
      && Current(seen) < |seen.windows| && Current(looked) == Current(seen)
      && LogOk(seen.windows[Current(seen)], quota, s.clock)
      && looked.windows[Current(looked)] ==
           seen.windows[Current(seen)].(calls := Expired(seen.windows[Current(seen)].calls, now - quota.seconds))
  {
    SoundBasics(s, limits);
    SoundTable(s, limits);
    SeenTable(s, caller, limits.maxTracked);
    SeenSound(s, caller, limits);
    var seen := Seen(s, caller, limits.maxTracked);
    assert WindowOk(seen, Current(seen), limits);
    hide Seen, Sound, LogOk, Expired;
  }

  /** That record is the one the table holds for the caller, or a new one. */
  lemma JudgedIsTheirs(s: State, caller: Caller, now: real, limits: Limits)
    requires Sound(s, limits) && caller.called in limits.quotas && s.clock <= now
    ensures limits.maxTracked >= 1 && IdsOk(s)
    ensures var looked := Looked(s, caller, limits.quotas[caller.called], now, limits.maxTracked);
      && looked.windows[Current(looked)].history == HistoryOf(s, caller)
      && looked.windows[Current(looked)].inFlight == |OpenBlocks(s, caller)|
  {
    hide Looked, Sound, RecordOf, Listed, Seen;
    SoundBasics(s, limits);
    var quota := limits.quotas[caller.called];
    var looked := Looked(s, caller, quota, now, limits.maxTracked);
    LookedSound(s, caller, now, limits);
    SoundTable(s, limits);
    SoundTable(looked, limits);
    LastIsCurrent(s, caller, quota, now, limits);
    RecordIs(looked, caller, |looked.table| - 1);
    CountedOpen(looked, Current(looked), limits);
    if Listed(s, caller) {
      LookedRecord(s, caller, quota, now, limits.maxTracked, caller);
    } else {
      FreshLooked(s, caller, quota, now, limits.maxTracked, caller);
      FreshIsNew(s, caller, now, limits);
      NobodyOpen(s, limits.maxTracked);
    }
  }

  lemma CountedOpen(s: State, id: nat, limits: Limits)
    requires Sound(s, limits) && id < |s.windows|
    ensures s.windows[id].inFlight == |OpenOn(s.open, id)|
  {
    assert WindowOk(s, id, limits);
  }

  lemma FreshIsNew(s: State, caller: Caller, now: real, limits: Limits)
    requires Sound(s, limits) && !Listed(s, caller) && caller.called in limits.quotas
    ensures limits.maxTracked >= 1 && IdsOk(s)
    ensures Current(Looked(s, caller, limits.quotas[caller.called], now, limits.maxTracked)) == |s.windows|
  {
    SoundBasics(s, limits);
    SoundTable(s, limits);
    SeenTable(s, caller, limits.maxTracked);
    var seen := Seen(s, caller, limits.maxTracked);
    assert Listed(seen, caller) by {
      assert seen.table[|seen.table| - 1].caller == caller;
    }
    SeenFresh(s, caller, limits.maxTracked, caller);
    hide Seen, Sound, Listed, RecordOf;
    LookedIs(s, caller, limits.quotas[caller.called], now, limits.maxTracked);
  }

  /** As many admissions as the quota allows lie within the last window's length. */
  ghost predicate Spent(s: State, caller: Caller, quota: Quota, now: real) {
    CountLast(HistoryOf(s, caller), now, quota.seconds) >= quota.maxCalls
  }

  ghost predicate Crowded(s: State, caller: Caller, quota: Quota) {
    |OpenBlocks(s, caller)| >= quota.maxConcurrent
  }

  /** What the guard has to answer. */
  ghost function Answer(s: State, caller: Caller, payload: Option<Refusal>, now: real, limits: Limits): Option<Refusal> {
    if caller.called !in limits.quotas then Some(MethodUnknown)
    else if payload.Some? then payload
    else
      var quota := limits.quotas[caller.called];
      if Spent(s, caller, quota, now) then Some(RateLimited)
      else if Crowded(s, caller, quota) then Some(ConcurrencyLimited)
      else None
  }

  /**
   In every state that can be reached: a call of a method without a quota is unknown, an unacceptable payload is
   refused for what it is, and otherwise the call is rate-limited if and only if the quota's worth of admissions
   on the caller's record lie within the last window's length, concurrency-limited if and only if not that but as
   many of its blocks are open as allowed, and admitted in every other case.
   */
  lemma AdmitsExactly(s: State, e: Event, limits: Limits)
    requires Sound(s, limits) && e.Enter? && Enabled(s, e)
    ensures limits.maxTracked >= 1 && IdsOk(s)
    ensures Step(s, e, limits).refusal == Answer(s, e.caller, e.payload, e.now, limits)
  {
    hide Looked, Seen, Sound, HistoryOf, OpenBlocks, CountLast, Expired, LogOk, IdsOk;
    SoundBasics(s, limits);
    if Looks(e, limits) {
      JudgedCounts(s, e.caller, e.now, limits);
    }
  }

  /** The kept calls of that record are the admissions of the last window's length, its slots the blocks open. */
  lemma JudgedCounts(s: State, caller: Caller, now: real, limits: Limits)
    requires Sound(s, limits) && caller.called in limits.quotas && s.clock <= now
    ensures limits.maxTracked >= 1 && IdsOk(s)
    ensures var quota := limits.quotas[caller.called]; var looked := Looked(s, caller, quota, now, limits.maxTracked);
      && |looked.windows[Current(looked)].calls| == CountLast(HistoryOf(s, caller), now, quota.seconds)
      && looked.windows[Current(looked)].inFlight == |OpenBlocks(s, caller)|
  {
    hide Looked, Seen, Sound, HistoryOf, OpenBlocks, CountLast, Expired, LogOk, IdsOk;
    JudgedBy(s, caller, now, limits);
    JudgedIsTheirs(s, caller, now, limits);
    var seen := Seen(s, caller, limits.maxTracked);
    KeptAreRecent(seen.windows[Current(seen)], limits.quotas[caller.called], s.clock, now);
  }

  /** What a call leaves behind: admitted, its block is open on the caller's record, charged now; refused, no block is. */
  ghost predicate Leaves(s: State, e: Event, next: State, refused: bool)
    requires e.Enter?
  {
    if refused then next.open == s.open
    else
      && next.open.Keys == s.open.Keys + {e.block} && (forall b :: b in s.open ==> next.open[b] == s.open[b])
      && Listed(next, e.caller) && next.open[e.block] == RecordOf(next, e.caller)
      && HistoryOf(next, e.caller) == HistoryOf(s, e.caller) + [e.now]
  }

  lemma AnsweredStep(s: State, e: Event, limits: Limits)
    requires Sound(s, limits) && e.Enter? && Enabled(s, e)
    ensures limits.maxTracked >= 1 && IdsOk(s)
    ensures Leaves(s, e, Step(s, e, limits).state, Answer(s, e.caller, e.payload, e.now, limits).Some?)
  {
    AdmitsExactly(s, e, limits);
    hide Answer;
    if Step(s, e, limits).refusal.None? {
      AdmittedStep(s, e, limits);
    }
    hide Looked, Seen, HistoryOf, Listed, RecordOf;
  }

  lemma AdmittedTables(s: State, e: Event, limits: Limits)
    requires Sound(s, limits) && e.Enter? && Enabled(s, e) && limits.maxTracked >= 1 && IdsOk(s)
    requires Step(s, e, limits).refusal.None?
    ensures e.caller.called in limits.quotas && s.clock <= e.now
    ensures var looked := Looked(s, e.caller, limits.quotas[e.caller.called], e.now, limits.maxTracked);
      var next := Step(s, e, limits).state;
      next.table == looked.table && next.open == s.open[e.block := Current(looked)]
      && Charged(s, e, next, e.caller) == [e.now] && Follows(s, e, next, limits)
  {
    hide Looked, Sound;
  }

  lemma AdmittedStep(s: State, e: Event, limits: Limits)
    requires Sound(s, limits) && e.Enter? && Enabled(s, e) && limits.maxTracked >= 1 && IdsOk(s)
    requires Step(s, e, limits).refusal.None?
    ensures Leaves(s, e, Step(s, e, limits).state, false)
  {
    hide Looked, Sound, HistoryOf, RecordOf, Listed, Step, Follows, Charged, Tabled;
    AdmittedTables(s, e, limits);
    var quota := limits.quotas[e.caller.called];
    var looked, next := Looked(s, e.caller, quota, e.now, limits.maxTracked), Step(s, e, limits).state;
    LookedSound(s, e.caller, e.now, limits);
    SoundTable(looked, limits);
    LastIsCurrent(s, e.caller, quota, e.now, limits);
    RecordIs(looked, e.caller, |looked.table| - 1);
    TableSame(looked, next, e.caller);
    StepHistory(s, e, next, e.caller, limits);
  }

  /** A call that ends, however it ends, takes its own block off the record it was charged on, and nothing else. */
  lemma ExitGivesBack(s: State, block: Block, limits: Limits, caller: Caller)
    requires Sound(s, limits) && block in s.open
    ensures limits.maxTracked >= 1 && IdsOk(s) && s.open[block] < |s.windows|
    ensures var next := Step(s, Exit(block), limits).state;
      && block !in next.open && (forall b :: b in s.open && b != block ==> b in next.open && next.open[b] == s.open[b])
      && next.open.Keys <= s.open.Keys && next.table == s.table
      && OpenBlocks(next, caller) == OpenBlocks(s, caller) - {block}
      && HistoryOf(next, caller) == HistoryOf(s, caller)
  {
    SoundBasics(s, limits);
    assert Follows(s, Exit(block), Step(s, Exit(block), limits).state, limits);
    hide Sound, RecordOf, LogOk, WindowOk, TableOk;
    var next := Step(s, Exit(block), limits).state;
    TableSame(s, next, caller);
    StepHistory(s, Exit(block), next, caller, limits);
  }

  /** So over every run. */
  lemma RunAdmitsExactly(events: seq<Event>, states: seq<State>, limits: Limits, clock: real, i: nat)
    requires Run(events, states, limits) && states[0] == Initial(clock) && LimitsOk(limits)
    requires i < |events| && events[i].Enter?
    ensures Enabled(states[i], events[i]) && limits.maxTracked >= 1 && IdsOk(states[i])
    ensures var e := events[i];
      Step(states[i], e, limits).refusal == Answer(states[i], e.caller, e.payload, e.now, limits)
    ensures var e := events[i];
      Leaves(states[i], e, states[i + 1], Answer(states[i], e.caller, e.payload, e.now, limits).Some?)
  {
    hide Sound, Step, Answer, Leaves, Enabled;
    RunSound(events, states, limits, clock, i);
    assert Follows(states[i], events[i], states[i + 1], limits);
    AdmitsExactly(states[i], events[i], limits);
    AnsweredStep(states[i], events[i], limits);
  }
}
