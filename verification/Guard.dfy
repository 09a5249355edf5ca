/**
 The control guard of src/omnitensor/guard.py: a sliding-window log and a concurrency count for each method
 and caller, in a bounded table that forgets the caller seen longest ago. A window is a record that may
 outlive its place in the table: a guarded block gives its slot back to the very record it was charged on.
 */
module Guard {
  import opened Prelude

  type Method(==, !new, 0)
  type Owner(==, !new, 0)
  /** One guarded block. */
  type Block(==, !new, 0)

  datatype Caller = Caller(called: Method, owner: Owner)

  datatype Quota = Quota(maxCalls: nat, seconds: real, maxConcurrent: nat)

  /** One record. `history` is every admission it was ever charged, of which `calls` is what is still kept. */
  datatype Window = Window(caller: Caller, calls: seq<real>, inFlight: nat, history: seq<real>)

  /** A table entry: a caller and which record is theirs, from least to most recently seen. */
  datatype Slot = Slot(caller: Caller, id: nat)

  datatype State = State(table: seq<Slot>, windows: seq<Window>, open: map<Block, nat>, clock: real)

  datatype Limits = Limits(quotas: map<Method, Quota>, maxTracked: nat)

  datatype Refusal = MethodUnknown | PayloadRefused | RateLimited | ConcurrencyLimited

  predicate LimitsOk(limits: Limits) {
    limits.maxTracked >= 1 &&
    forall m :: m in limits.quotas ==>
      limits.quotas[m].maxCalls >= 1 && limits.quotas[m].seconds > 0.0 && limits.quotas[m].maxConcurrent >= 1
  }

  function Initial(clock: real): State { State([], [], map[], clock) }

  // The table.

  function Find(table: seq<Slot>, caller: Caller): (i: Option<nat>)
    ensures i.Some? ==> i.value < |table| && table[i.value].caller == caller
    ensures i.None? ==> forall k :: 0 <= k < |table| ==> table[k].caller != caller
  {
    if table == [] then None
    else if table[0].caller == caller then Some(0)
    else
      var i := Find(table[1..], caller);
      if i.None? then None else Some(i.value + 1)
  }

  /** The caller's record found or made, and moved to the end. */
  function Grown(s: State, caller: Caller): (r: State)
    ensures r.table != [] && r.table[|r.table| - 1].caller == caller
  {
    var i := Find(s.table, caller);
    if i.Some? then s.(table := DropAt(s.table, i.value) + [s.table[i.value]])
    else s.(table := s.table + [Slot(caller, |s.windows|)], windows := s.windows + [Window(caller, [], 0, [])])
  }

  /** The caller is seen, and those seen longest ago fall off the front. */
  function Seen(s: State, caller: Caller, max: nat): (r: State)
    requires max >= 1
    ensures r.table != [] && r.table[|r.table| - 1] == Grown(s, caller).table[|Grown(s, caller).table| - 1]
  {
    Trimmed(Grown(s, caller), max)
  }

  function Trimmed(s: State, max: nat): State {
    s.(table := s.table[Surplus(|s.table|, max)..])
  }

  function Current(s: State): nat
    requires s.table != []
  {
    s.table[|s.table| - 1].id
  }

  // One call.

  /** The calls still inside the window: those at or before the horizon are dropped from the front. */
  function Expired(calls: seq<real>, horizon: real): seq<real> {
    if calls == [] || calls[0] > horizon then calls else Expired(calls[1..], horizon)
  }

  function WithWindow(s: State, id: nat, w: Window): State
    requires id < |s.windows|
  {
    s.(windows := s.windows[id := w])
  }

  datatype Verdict = Verdict(state: State, refusal: Option<Refusal>)

  predicate IdsOk(s: State) { forall k :: 0 <= k < |s.table| ==> s.table[k].id < |s.windows| }

  /** The caller's record brought up to date: seen, and its old calls dropped, whatever is answered then. */
  function Looked(s: State, caller: Caller, quota: Quota, now: real, max: nat): (r: State)
    requires max >= 1 && IdsOk(s)
    ensures r.table != [] && Current(r) < |r.windows| && r.open == s.open
  {
    SeenIds(s, caller, max);
    var seen := Seen(s, caller, max).(clock := now);
    var w := seen.windows[Current(seen)];
    WithWindow(seen, Current(seen), w.(calls := Expired(w.calls, now - quota.seconds)))
  }

  function Charge(s: State, id: nat, block: Block): State
    requires id < |s.windows|
  {
    var w := s.windows[id];
    var charged := w.(calls := w.calls + [s.clock], inFlight := w.inFlight + 1, history := w.history + [s.clock]);
    WithWindow(s, id, charged).(open := s.open[block := id])
  }

  /** `admit`: charge one call against the caller's record, or say which limit it meets. */
  function Admitted(s: State, caller: Caller, quota: Quota, block: Block, now: real, max: nat): Verdict
    requires max >= 1 && IdsOk(s)
  {
    var looked := Looked(s, caller, quota, now, max);
    var w := looked.windows[Current(looked)];
    if |w.calls| >= quota.maxCalls then Verdict(looked, Some(RateLimited))
    else if w.inFlight >= quota.maxConcurrent then Verdict(looked, Some(ConcurrencyLimited))
    else Verdict(Charge(looked, Current(looked), block), None)
  }

  lemma SeenIds(s: State, caller: Caller, max: nat)
    requires max >= 1 && IdsOk(s)
    ensures IdsOk(Seen(s, caller, max)) && Current(Seen(s, caller, max)) < |Seen(s, caller, max).windows|
    ensures Seen(s, caller, max).open == s.open
  {
    var g := Grown(s, caller);
    assert IdsOk(g);
    hide Grown;
  }

  /** The slot given back to the record it was charged on, wherever that record is now. */
  function Released(s: State, block: Block): State
    requires block in s.open && s.open[block] < |s.windows|
  {
    var id := s.open[block];
    var w := s.windows[id];
    WithWindow(s, id, w.(inFlight := if w.inFlight > 0 then w.inFlight - 1 else 0)).(open := s.open - {block})
  }

  datatype Event =
    | Enter(block: Block, caller: Caller, payload: Option<Refusal>, now: real)
    | Exit(block: Block)

  predicate Enabled(s: State, e: Event) {
    match e
    case Enter(block, _, _, now) => block !in s.open && s.clock <= now
    case Exit(block) => block in s.open
  }

  function Step(s: State, e: Event, limits: Limits): Verdict
    requires limits.maxTracked >= 1 && IdsOk(s) && Enabled(s, e)
    requires e.Exit? ==> s.open[e.block] < |s.windows|
  {
    match e
    case Exit(block) => Verdict(Released(s, block), None)
    case Enter(block, caller, payload, now) =>
      if caller.called !in limits.quotas then Verdict(s, Some(MethodUnknown))
      else if payload.Some? then Verdict(s, payload)
      else Admitted(s, caller, limits.quotas[caller.called], block, now, limits.maxTracked)
  }

  // The invariant of one record.

  ghost predicate Sorted(times: seq<real>) {
    forall i, j :: 0 <= i < j < |times| ==> times[i] <= times[j]
  }

  /** Any admission and the one `max` places later are a whole window apart. */
  ghost predicate Spaced(times: seq<real>, max: nat, seconds: real) {
    forall i, j :: 0 <= i && i + max == j && j < |times| ==> times[i] + seconds <= times[j]
  }

  /** `calls` is the end of the history, and all that is gone from it is out of the window at `clock`. */
  ghost predicate Kept(w: Window, seconds: real, clock: real) {
    && |w.calls| <= |w.history|
    && w.calls == w.history[|w.history| - |w.calls|..]
    && forall i :: 0 <= i < |w.history| - |w.calls| ==> w.history[i] + seconds <= clock
  }

  ghost predicate LogOk(w: Window, quota: Quota, clock: real) {
    && Sorted(w.history)
    && (forall i :: 0 <= i < |w.history| ==> w.history[i] <= clock)
    && Spaced(w.history, quota.maxCalls, quota.seconds)
    && Kept(w, quota.seconds, clock)
  }

  lemma {:induction false} ExpiredIs(calls: seq<real>, horizon: real)
    requires Sorted(calls)
    ensures var r := Expired(calls, horizon);
      && |r| <= |calls| && r == calls[|calls| - |r|..]
      && (forall i :: 0 <= i < |r| ==> r[i] > horizon)
      && (forall i :: 0 <= i < |calls| - |r| ==> calls[i] <= horizon)
  {
    if calls != [] && calls[0] <= horizon {
      ExpiredIs(calls[1..], horizon);
    }
  }

  /** What expiry leaves is still the end of the history, and what it drops is out of the window. */
  lemma ExpiryCuts(w: Window, seconds: real, clock: real, now: real)
    requires Sorted(w.history) && Kept(w, seconds, clock) && clock <= now
    ensures Kept(w.(calls := Expired(w.calls, now - seconds)), seconds, now)
  {
    var cut := |w.history| - |w.calls|;
    assert Sorted(w.calls);
    ExpiredIs(w.calls, now - seconds);
    var kept := Expired(w.calls, now - seconds);
    assert kept == w.history[|w.history| - |kept|..];
    forall i | 0 <= i < |w.history| - |kept| ensures w.history[i] + seconds <= now {
      if i >= cut {
        assert w.history[i] == w.calls[i - cut];
      }
    }
  }

  lemma ExpiryKeeps(w: Window, quota: Quota, clock: real, now: real)
    requires LogOk(w, quota, clock) && clock <= now
    ensures LogOk(w.(calls := Expired(w.calls, now - quota.seconds)), quota, now)
  {
    ExpiryCuts(w, quota.seconds, clock, now);
    hide Sorted, Spaced, Kept, Expired;
  }

  lemma LaterKeeps(w: Window, quota: Quota, clock: real, now: real)
    requires LogOk(w, quota, clock) && clock <= now
    ensures LogOk(w, quota, now)
  {
    hide Sorted, Spaced;
  }

  /** One more admission while fewer than the quota are kept leaves every window-length within the quota. */
  lemma ChargeKeeps(w: Window, quota: Quota, now: real)
    requires LogOk(w, quota, now) && |w.calls| < quota.maxCalls
    ensures LogOk(w.(calls := w.calls + [now], history := w.history + [now]), quota, now)
  {
    var longer := w.history + [now];
    forall i, j | 0 <= i && i + quota.maxCalls == j && j < |longer| ensures longer[i] + quota.seconds <= longer[j] {
      if j == |w.history| {
        assert i < |w.history| - |w.calls|;
      }
    }
  }

  // The invariant of the whole.

  ghost function OpenOn(open: map<Block, nat>, id: nat): set<Block> {
    set b | b in open && open[b] == id
  }

  /** Callers are in the table once each, with their own record. */
  ghost predicate Tabled(s: State) {
    && IdsOk(s)
    && (forall i, j :: 0 <= i < j < |s.table| ==> s.table[i].caller != s.table[j].caller)
    && (forall i :: 0 <= i < |s.table| && s.table[i].id < |s.windows| ==>
          s.windows[s.table[i].id].caller == s.table[i].caller)
  }

  ghost predicate TableOk(s: State, max: nat) {
    |s.table| <= max && Tabled(s) && forall b :: b in s.open ==> s.open[b] < |s.windows|
  }

  ghost predicate WindowOk(s: State, id: nat, limits: Limits)
    requires id < |s.windows|
  {
    var w := s.windows[id];
    && w.caller.called in limits.quotas
    && var quota := limits.quotas[w.caller.called];
       LogOk(w, quota, s.clock) && w.inFlight == |OpenOn(s.open, id)| <= quota.maxConcurrent
  }

  ghost predicate Sound(s: State, limits: Limits) {
    && LimitsOk(limits)
    && TableOk(s, limits.maxTracked)
    && forall id :: 0 <= id < |s.windows| ==> WindowOk(s, id, limits)
  }

  lemma GrownTable(s: State, caller: Caller)
    requires Tabled(s)
    ensures var r := Grown(s, caller);
      && Tabled(r) && Current(r) < |r.windows| && r.windows[Current(r)].caller == caller
      && s.windows <= r.windows && |r.windows| <= |s.windows| + 1 && r.open == s.open && r.clock == s.clock
      && (|r.windows| > |s.windows| ==> r.windows[|s.windows|] == Window(caller, [], 0, []))
      && (forall k :: 0 <= k < |s.table| && s.table[k].caller == caller ==> Current(r) == s.table[k].id)
  {
    var i := Find(s.table, caller);
    var r := Grown(s, caller);
    if i.Some? {
      assert Current(r) == s.table[i.value].id;
    }
  }

  lemma TrimmedTable(s: State, max: nat)
    requires Tabled(s)
    ensures Tabled(Trimmed(s, max)) && |Trimmed(s, max).table| <= max
  {
  }

  /** The caller just seen is never the one forgotten, and the table stays within its bound. */
  lemma SeenTable(s: State, caller: Caller, max: nat)
    requires TableOk(s, max) && max >= 1
    ensures var r := Seen(s, caller, max);
      && TableOk(r, max) && Current(r) < |r.windows| && r.windows[Current(r)].caller == caller
      && s.windows <= r.windows && |r.windows| <= |s.windows| + 1 && r.open == s.open && r.clock == s.clock
      && (|r.windows| > |s.windows| ==> r.windows[|s.windows|] == Window(caller, [], 0, []))
      && (forall k :: 0 <= k < |s.table| && s.table[k].caller == caller ==> Current(r) == s.table[k].id)
  {
    GrownTable(s, caller);
    TrimmedTable(Grown(s, caller), max);
    hide Grown, Tabled;
  }

  lemma FreshLog(caller: Caller, quota: Quota, clock: real)
    ensures LogOk(Window(caller, [], 0, []), quota, clock)
  {
  }

  lemma SeenSound(s: State, caller: Caller, limits: Limits)
    requires Sound(s, limits) && caller.called in limits.quotas
    ensures Sound(Seen(s, caller, limits.maxTracked), limits)
  {
    var r := Seen(s, caller, limits.maxTracked);
    SeenTable(s, caller, limits.maxTracked);
    hide Seen, TableOk, LogOk;
    forall id | 0 <= id < |r.windows| ensures WindowOk(r, id, limits) {
      if id < |s.windows| {
        assert WindowOk(s, id, limits) && r.windows[id] == s.windows[id];
      } else {
        NobodyOpen(s, limits.maxTracked);
        FreshLog(caller, limits.quotas[caller.called], s.clock);
      }
    }
  }

  lemma NobodyOpen(s: State, max: nat)
    requires TableOk(s, max)
    ensures OpenOn(s.open, |s.windows|) == {}
  {
  }

  lemma ClockSound(s: State, now: real, limits: Limits)
    requires Sound(s, limits) && s.clock <= now
    ensures Sound(s.(clock := now), limits)
  {
    hide LogOk;
    var r := s.(clock := now);
    forall id | 0 <= id < |r.windows| ensures WindowOk(r, id, limits) {
      assert WindowOk(s, id, limits);
      LaterKeeps(s.windows[id], limits.quotas[s.windows[id].caller.called], s.clock, now);
    }
  }

  /** Changing one record and the blocks open on it. */
  lemma RecordSound(s: State, r: State, id: nat, limits: Limits)
    requires Sound(s, limits) && id < |s.windows| && |r.windows| == |s.windows|
    requires r.table == s.table && r.clock == s.clock && r.windows[id].caller == s.windows[id].caller
    requires forall k :: 0 <= k < |s.windows| && k != id ==>
      r.windows[k] == s.windows[k] && OpenOn(r.open, k) == OpenOn(s.open, k)
    requires forall b :: b in r.open ==> r.open[b] < |r.windows|
    requires WindowOk(r, id, limits)
    ensures Sound(r, limits)
  {
    hide LogOk;
    forall k | 0 <= k < |r.windows| ensures WindowOk(r, k, limits) {
      assert WindowOk(s, k, limits);
    }
  }

  lemma OpenedOn(open: map<Block, nat>, block: Block, id: nat)
    requires block !in open
    ensures |OpenOn(open[block := id], id)| == |OpenOn(open, id)| + 1
    ensures forall k :: k != id ==> OpenOn(open[block := id], k) == OpenOn(open, k)
  {
    assert OpenOn(open[block := id], id) == OpenOn(open, id) + {block};
  }

  lemma ClosedOn(open: map<Block, nat>, block: Block)
    requires block in open
    ensures |OpenOn(open - {block}, open[block])| == |OpenOn(open, open[block])| - 1
    ensures forall k :: k != open[block] ==> OpenOn(open - {block}, k) == OpenOn(open, k)
  {
    assert OpenOn(open - {block}, open[block]) == OpenOn(open, open[block]) - {block};
  }

  lemma ReleasedSound(s: State, block: Block, limits: Limits)
    requires Sound(s, limits) && block in s.open
    ensures s.open[block] < |s.windows| && Sound(Released(s, block), limits)
    ensures s.windows[s.open[block]].inFlight > 0
  {
    var id := s.open[block];
    assert WindowOk(s, id, limits);
    ClosedOn(s.open, block);
    assert block in OpenOn(s.open, id);
    hide LogOk;
    SameLog(s.windows[id], limits.quotas[s.windows[id].caller.called], s.clock, s.windows[id].inFlight - 1);
    RecordSound(s, Released(s, block), id, limits);
  }

  lemma SameLog(w: Window, quota: Quota, clock: real, n: nat)
    requires LogOk(w, quota, clock)
    ensures LogOk(w.(inFlight := n), quota, clock)
  {
  }

  lemma ExpiredSound(s: State, id: nat, limits: Limits)
    requires Sound(s, limits) && id < |s.windows| && s.windows[id].caller.called in limits.quotas
    ensures var quota := limits.quotas[s.windows[id].caller.called];
      var w := s.windows[id].(calls := Expired(s.windows[id].calls, s.clock - quota.seconds));
      Sound(WithWindow(s, id, w), limits)
  {
    var quota := limits.quotas[s.windows[id].caller.called];
    var w := s.windows[id].(calls := Expired(s.windows[id].calls, s.clock - quota.seconds));
    assert WindowOk(s, id, limits);
    ExpiryKeeps(s.windows[id], quota, s.clock, s.clock);
    hide LogOk, Expired;
    RecordSound(s, WithWindow(s, id, w), id, limits);
  }

  lemma ChargedSound(s: State, id: nat, block: Block, limits: Limits)
    requires Sound(s, limits) && id < |s.windows| && block !in s.open
    requires s.windows[id].caller.called in limits.quotas
    requires var quota := limits.quotas[s.windows[id].caller.called];
      |s.windows[id].calls| < quota.maxCalls && s.windows[id].inFlight < quota.maxConcurrent
    ensures Sound(Charge(s, id, block), limits)
  {
    var w := s.windows[id];
    var quota := limits.quotas[w.caller.called];
    var longer := w.(calls := w.calls + [s.clock], history := w.history + [s.clock]);
    assert WindowOk(s, id, limits);
    ChargeKeeps(w, quota, s.clock);
    hide LogOk;
    SameLog(longer, quota, s.clock, w.inFlight + 1);
    OpenedOn(s.open, block, id);
    RecordSound(s, Charge(s, id, block), id, limits);
  }

  lemma LookedSound(s: State, caller: Caller, now: real, limits: Limits)
    requires Sound(s, limits) && caller.called in limits.quotas && s.clock <= now
    ensures IdsOk(s)
    ensures var r := Looked(s, caller, limits.quotas[caller.called], now, limits.maxTracked);
      Sound(r, limits) && r.windows[Current(r)].caller == caller && r.clock == now
  {
    SeenTable(s, caller, limits.maxTracked);
    SeenSound(s, caller, limits);
    hide Sound, Seen, Expired, TableOk, Tabled;
    var seen := Seen(s, caller, limits.maxTracked);
    ClockSound(seen, now, limits);
    ExpiredSound(seen.(clock := now), Current(seen), limits);
  }

  lemma AdmittedSound(s: State, caller: Caller, block: Block, now: real, limits: Limits)
    requires Sound(s, limits) && caller.called in limits.quotas && block !in s.open && s.clock <= now
    ensures IdsOk(s)
    ensures Sound(Admitted(s, caller, limits.quotas[caller.called], block, now, limits.maxTracked).state, limits)
  {
    var quota := limits.quotas[caller.called];
    LookedSound(s, caller, now, limits);
    hide Sound, Looked, Charge;
    var looked := Looked(s, caller, quota, now, limits.maxTracked);
    var w := looked.windows[Current(looked)];
    if |w.calls| < quota.maxCalls && w.inFlight < quota.maxConcurrent {
      ChargedSound(looked, Current(looked), block, limits);
    }
  }

  lemma StepSound(s: State, e: Event, limits: Limits)
    requires Sound(s, limits) && Enabled(s, e)
    ensures IdsOk(s) && (e.Exit? ==> s.open[e.block] < |s.windows|)
    ensures Sound(Step(s, e, limits).state, limits)
  {
    match e
    case Exit(block) => ReleasedSound(s, block, limits);
    case Enter(block, caller, payload, now) =>
      if caller.called in limits.quotas && payload.None? {
        AdmittedSound(s, caller, block, now, limits);
      }
    hide Released, Admitted;
  }

  // Whole runs.

  /** One state before each event and one after the last; the clock never runs backwards. */
  ghost predicate Run(events: seq<Event>, states: seq<State>, limits: Limits) {
    && |states| == |events| + 1
    && forall i :: 0 <= i < |events| ==> Follows(states[i], events[i], states[i + 1], limits)
  }

  ghost predicate Follows(s: State, e: Event, next: State, limits: Limits) {
    && limits.maxTracked >= 1 && IdsOk(s) && Enabled(s, e)
    && (e.Exit? ==> s.open[e.block] < |s.windows|)
    && next == Step(s, e, limits).state
  }

  lemma {:induction false} RunSound(events: seq<Event>, states: seq<State>, limits: Limits, clock: real, i: nat)
    requires Run(events, states, limits) && states[0] == Initial(clock) && LimitsOk(limits) && i < |states|
    ensures Sound(states[i], limits)
  {
    hide Sound, Step, LimitsOk, Enabled;
    if i == 0 {
      InitialSound(clock, limits);
    } else {
      RunSound(events, states, limits, clock, i - 1);
      assert Follows(states[i - 1], events[i - 1], states[i], limits);
      StepSound(states[i - 1], events[i - 1], limits);
    }
  }

  lemma InitialSound(clock: real, limits: Limits)
    requires LimitsOk(limits)
    ensures Sound(Initial(clock), limits)
  {
  }

  /** How many of these times lie in the half-open interval from `from` of length `seconds`. */
  function CountIn(times: seq<real>, from: real, seconds: real): nat {
    if times == [] then 0
    else (if from <= times[0] < from + seconds then 1 else 0) + CountIn(times[1..], from, seconds)
  }

  /** All within the interval, from the first one in it on, are next to each other. */
  lemma {:induction false} CountFromFirst(times: seq<real>, from: real, seconds: real, max: nat)
    requires Sorted(times) && Spaced(times, max, seconds) && max >= 1
    ensures CountIn(times, from, seconds) <= max
  {
    if times != [] {
      assert Sorted(times[1..]) && Spaced(times[1..], max, seconds);
      if from <= times[0] < from + seconds {
        if |times| > max {
          assert times[0] + seconds <= times[max];
          CountBefore(times, from, seconds, max);
        } else {
          CountAtMost(times, from, seconds);
        }
      } else {
        CountFromFirst(times[1..], from, seconds, max);
      }
    }
  }

  lemma {:induction false} CountAtMost(times: seq<real>, from: real, seconds: real)
    ensures CountIn(times, from, seconds) <= |times|
  {
    if times != [] {
      CountAtMost(times[1..], from, seconds);
    }
  }

  /** Nothing from place `n` on is in the interval, so at most the `n` before it are. */
  lemma {:induction false} CountBefore(times: seq<real>, from: real, seconds: real, n: nat)
    requires Sorted(times) && n < |times| && from + seconds <= times[n]
    ensures CountIn(times, from, seconds) <= n
    decreases |times|
  {
    if n == 0 {
      if |times| > 1 {
        CountBefore(times[1..], from, seconds, 0);
      }
    } else {
      CountBefore(times[1..], from, seconds, n - 1);
    }
  }

  /**
   With a clock that never runs backwards, no interval of the window's length holds more than the quota of
   admissions charged on one record; and a record's slots in use are exactly its open blocks, never more
   than the quota, also once its caller has been forgotten.
   */
  lemma WithinQuota(
    events: seq<Event>, states: seq<State>, limits: Limits, clock: real, i: nat, id: nat, from: real)
    requires Run(events, states, limits) && states[0] == Initial(clock) && LimitsOk(limits) && i < |states|
    requires id < |states[i].windows|
    ensures var w := states[i].windows[id];
      && w.caller.called in limits.quotas
      && CountIn(w.history, from, limits.quotas[w.caller.called].seconds) <= limits.quotas[w.caller.called].maxCalls
      && w.inFlight == |OpenOn(states[i].open, id)| <= limits.quotas[w.caller.called].maxConcurrent
  {
    RunSound(events, states, limits, clock, i);
    assert WindowOk(states[i], id, limits);
    var w := states[i].windows[id];
    var quota := limits.quotas[w.caller.called];
    CountFromFirst(w.history, from, quota.seconds, quota.maxCalls);
    hide Run, TableOk, Kept, OpenOn;
  }

  /** The guard as it is kept: the ordered table and the records, changed in place. */
  class ControlGuard {
    const limits: Limits
    var table: seq<Slot>
    var windows: seq<Window>
    ghost var open: map<Block, nat>
    ghost var clock: real

    ghost function View(): State
      reads this
    {
      State(table, windows, open, clock)
    }

    constructor (limits: Limits, ghost clock: real)
      ensures this.limits == limits && View() == Initial(clock)
    {
      this.limits, table, windows, open, this.clock := limits, [], [], map[], clock;
    }

    /** The caller's record found or made, and moved to the end of the table. */
    method Touch(caller: Caller)
      modifies `table, `windows
      ensures View() == Grown(old(View()), caller)
    {
      var i := Find(table, caller);
      if i.Some? {
        table := DropAt(table, i.value) + [table[i.value]];
      } else {
        table := table + [Slot(caller, |windows|)];
        windows := windows + [Window(caller, [], 0, [])];
      }
    }

    /** `_window`: the record of a caller just seen; callers seen longest ago are forgotten from the front. */
    method WindowOf(caller: Caller) returns (id: nat)
      requires limits.maxTracked >= 1
      modifies `table, `windows
      ensures View() == Seen(old(View()), caller, limits.maxTracked) && id == Current(View())
    {
      hide Grown;
      Touch(caller);
      ghost var grown, mid := table, View();
      ghost var gone := 0;
      while |table| > limits.maxTracked
        invariant View() == mid.(table := table)
        invariant gone <= Surplus(|grown|, limits.maxTracked) && table == grown[gone..]
        decreases |table|
      {
        table := table[1..];
        gone := gone + 1;
      }
      id := table[|table| - 1].id;
    }

    /** `_expire`: calls at or before the horizon dropped from the front. */
    method Expire(id: nat, now: real, seconds: real)
      requires id < |windows|
      modifies `windows
      ensures |windows| == old(|windows|)
      ensures View() == WithWindow(old(View()), id,
        old(windows[id]).(calls := Expired(old(windows[id].calls), now - seconds)))
    {
      var horizon := now - seconds;
      while windows[id].calls != [] && windows[id].calls[0] <= horizon
        invariant |windows| == old(|windows|)
        invariant windows == old(windows)[id := old(windows[id]).(calls := windows[id].calls)]
        invariant Expired(windows[id].calls, horizon) == Expired(old(windows[id].calls), horizon)
        decreases |windows[id].calls|
      {
        windows := windows[id := windows[id].(calls := windows[id].calls[1..])];
      }
    }

    method Admit(caller: Caller, payload: Option<Refusal>, block: Block, now: real) returns (refusal: Option<Refusal>)
      requires Sound(View(), limits) && Enabled(View(), Enter(block, caller, payload, now)) && IdsOk(View())
      modifies this
      ensures Verdict(View(), refusal) == Step(old(View()), Enter(block, caller, payload, now), limits)
    {
      hide Sound, Seen, Expired, Grown;
      SoundLimits(View(), limits);
      if caller.called !in limits.quotas {
        return Some(MethodUnknown);
      }
      if payload.Some? {
        return payload;
      }
      var quota := limits.quotas[caller.called];
      SeenIds(View(), caller, limits.maxTracked);
      var id := WindowOf(caller);
      clock := now;
      Expire(id, now, quota.seconds);
      if |windows[id].calls| >= quota.maxCalls {
        return Some(RateLimited);
      }
      if windows[id].inFlight >= quota.maxConcurrent {
        return Some(ConcurrencyLimited);
      }
      var w := windows[id];
      windows := windows[id :=
        w.(calls := w.calls + [now], inFlight := w.inFlight + 1, history := w.history + [now])];
      open := open[block := id];
      refusal := None;
    }

    /** `release_admitted`: the slot given back to the very record it was charged on. */
    method Release(block: Block, id: nat)
      requires block in open && open[block] == id && id < |windows|
      modifies `windows, `open
      ensures View() == Released(old(View()), block)
    {
      if windows[id].inFlight > 0 {
        windows := windows[id := windows[id].(inFlight := windows[id].inFlight - 1)];
      }
      open := open - {block};
    }
  }

  lemma SoundLimits(s: State, limits: Limits)
    requires Sound(s, limits)
    ensures limits.maxTracked >= 1
  {
  }
}
