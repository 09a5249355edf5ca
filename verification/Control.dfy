/**
 The control service of src/omnitensor/control.py: compare-and-swap on a revision, persisted before it is
 published, under one lock. A step is what runs between two awaits; anybody may look at the published
 policy between steps, and the process may die and start again at any of them.
 */
module Control {
  import opened Commands
  import opened Policy
  import opened Prelude

  datatype Command = Command(expected: int, operation: Operation)

  /** Who holds the lock: a command, or the adoption of discovered profiles. */
  datatype Owner = ForCommand(command: Command) | ForAdoption

  /** `before` is what was published, on disk and in the settings store when the lock was taken. */
  datatype Phase =
    | Unlocked
    | Configuring(command: Command, before: Contents)
    | Saving(owner: Owner, candidate: PolicyState, before: Contents)
    | Written(owner: Owner, candidate: PolicyState, before: Contents)

  datatype Contents = Contents(memory: PolicyState, disk: PolicyState, settings: map<string, Json>)

  /** One acknowledgement sent: `committed` when the policy and its revision were. */
  datatype Ack = Ack(expected: int, operation: Operation, refusal: Option<Refusal>, committed: bool)

  datatype Service = Service(now: Contents, phase: Phase, acks: seq<Ack>)

  datatype Event =
    | Take(command: Command, world: World)
    | Configured(refusal: Option<Refusal>)
    | Adopt(ids: set<string>, fallback: ProfilePolicy)
    | Saved(succeeds: bool)
    | Publish
    | Restart

  function Initial(loaded: PolicyState): Service {
    Service(Contents(loaded, loaded, map[]), Unlocked, [])
  }

  predicate Enabled(s: Service, e: Event) {
    match e
    case Take(_, _) => s.phase.Unlocked?
    case Configured(_) => s.phase.Configuring?
    case Adopt(_, _) => s.phase.Unlocked?
    case Saved(_) => s.phase.Saving?
    case Publish => s.phase.Written?
    case Restart => true
  }

  function Rejected(s: Service, c: Command, r: Refusal): Service {
    s.(phase := Unlocked, acks := s.acks + [Ack(c.expected, c.operation, Some(r), false)])
  }

  /** The lock taken: the revision checked, the command tried on a copy. */
  function Taken(s: Service, c: Command, w: World): Service {
    var policy := s.now.memory;
    if c.expected != policy.revision then Rejected(s, c, RevisionMismatch)
    else if c.operation.SetConfiguration? then
      if !w.configurable then Rejected(s, c, ConfigurationUnavailable)
      else if !Known(policy, c.operation.id, w) then Rejected(s, c, UnknownProfile)
      else s.(phase := Configuring(c, s.now))
    else
      match Executed(policy, c.operation, w)
      case Err(r) => Rejected(s, c, r)
      case Ok(candidate) =>
        s.(phase := Saving(ForCommand(c), candidate.(revision := policy.revision + 1), s.now))
  }

  /** The settings store answered: refused, or already stored, before any revision is spent. */
  function ConfiguredBy(s: Service, refusal: Option<Refusal>): Service
    requires s.phase.Configuring? && s.phase.command.operation.SetConfiguration?
  {
    var c, policy := s.phase.command, s.now.memory;
    if refusal.Some? then Rejected(s, c, refusal.value)
    else
      s.(now := s.now.(settings := s.now.settings[c.operation.id := c.operation.configuration]),
        phase := Saving(ForCommand(c), policy.(revision := policy.revision + 1), s.phase.before))
  }

  function Adopted(s: Service, ids: set<string>, fallback: ProfilePolicy): Service {
    var policy := s.now.memory;
    var unknown := ids - policy.profiles.Keys;
    if unknown == {} then s
    else
      var profiles := policy.profiles + map id | id in unknown :: fallback;
      s.(phase := Saving(ForAdoption, policy.(profiles := profiles, revision := policy.revision + 1), s.now))
  }

  /** The file written whole, or an error with the file as it was. */
  function SavedTo(s: Service, succeeds: bool): Service
    requires s.phase.Saving?
  {
    var Saving(owner, candidate, before) := s.phase;
    if succeeds then s.(now := s.now.(disk := candidate), phase := Written(owner, candidate, before))
    else
      match owner
      case ForAdoption => s.(phase := Unlocked)
      case ForCommand(c) =>
        if c.operation.SetConfiguration? then
          s.(phase := Unlocked, acks := s.acks + [Ack(c.expected, c.operation, None, false)])
        else Rejected(s, c, NotPersisted)
  }

  function Published(s: Service): Service
    requires s.phase.Written?
  {
    var Written(owner, candidate, _) := s.phase;
    s.(now := s.now.(memory := candidate),
      phase := Unlocked,
      acks := if owner.ForCommand?
        then s.acks + [Ack(owner.command.expected, owner.command.operation, None, true)] else s.acks)
  }

  function Step(s: Service, e: Event): Service
    requires Enabled(s, e) && (e.Configured? ==> s.phase.command.operation.SetConfiguration?)
  {
    match e
    case Take(c, w) => Taken(s, c, w)
    case Configured(refusal) => ConfiguredBy(s, refusal)
    case Adopt(ids, fallback) => Adopted(s, ids, fallback)
    case Saved(succeeds) => SavedTo(s, succeeds)
    case Publish => Published(s)
    case Restart => s.(now := s.now.(memory := s.now.disk), phase := Unlocked)
  }

  // The invariant.

  /** The lock's holder prepares the one next revision; it is on disk before anybody sees it. */
  ghost predicate Prepared(s: Service) {
    var revision := s.now.memory.revision;
    match s.phase
    case Unlocked => s.now.disk == s.now.memory
    case Configuring(c, before) =>
      s.now == before && before.disk == before.memory && c.operation.SetConfiguration? && c.expected == revision
    case Saving(owner, candidate, before) =>
      && s.now.disk == s.now.memory == before.memory == before.disk
      && candidate.revision == revision + 1
      && (owner.ForCommand? ==> owner.command.expected == revision)
      && (owner == ForAdoption || !owner.command.operation.SetConfiguration? ==> s.now == before)
    case Written(owner, candidate, before) =>
      && s.now.disk == candidate && s.now.memory == before.memory
      && candidate.revision == revision + 1
      && (owner.ForCommand? ==> owner.command.expected == revision)
  }

  /** Only a configuration command is applied without being committed, and each commit used its own revision. */
  ghost predicate Acknowledged(s: Service) {
    && (forall i :: 0 <= i < |s.acks| ==> AckOk(s.acks[i], s.now.memory.revision))
    && (forall i, j :: 0 <= i < j < |s.acks| && s.acks[i].committed && s.acks[j].refusal.None? ==>
          s.acks[i].expected < s.acks[j].expected)
  }

  predicate AckOk(a: Ack, revision: int) {
    && (a.committed ==> a.refusal.None? && a.expected < revision)
    && (a.refusal.None? ==> a.expected <= revision && (a.committed || a.operation.SetConfiguration?))
  }

  ghost predicate Sound(s: Service) { Prepared(s) && Acknowledged(s) }

  lemma ExecutedKeepsRevision(s: PolicyState, op: Operation, w: World)
    requires Executed(s, op, w).Ok?
    ensures Executed(s, op, w).value.revision == s.revision
  {
    if op.ApplyProfiles? {
      if BatchError(s, op.changes, w).None? {
        AppliedKeepsRevision(s, op.changes, w);
      }
    }
    hide Chosen, IntegralWeight, WeightOk, Batch, BatchError;
  }

  lemma {:induction false} AppliedKeepsRevision(s: PolicyState, changes: seq<Change>, w: World)
    requires HasPolicies(s, changes) && AllApplied(s, changes, w).Ok?
    ensures AllApplied(s, changes, w).value.revision == s.revision
    decreases |changes|
  {
    if changes != [] {
      ChangeKeepsProfiles(s, changes[0], w);
      AppliedKeepsRevision(ChangeApplied(s, changes[0], w).value, changes[1..], w);
    }
    hide Chosen, IntegralWeight;
  }

  lemma StepPrepared(s: Service, e: Event)
    requires Prepared(s) && Enabled(s, e)
    ensures e.Configured? ==> s.phase.command.operation.SetConfiguration?
    ensures Prepared(Step(s, e))
  {
    hide Executed, Known;
    if e.Take? && Executed(s.now.memory, e.command.operation, e.world).Ok? {
      ExecutedKeepsRevision(s.now.memory, e.command.operation, e.world);
    }
  }

  /** At most one acknowledgement is added, and it fits those before it. */
  lemma StepAcknowledged(s: Service, e: Event)
    requires Prepared(s) && Acknowledged(s) && Enabled(s, e)
    requires e.Configured? ==> s.phase.command.operation.SetConfiguration?
    ensures Acknowledged(Step(s, e))
  {
    var r := Step(s, e);
    assert r.now.memory.revision >= s.now.memory.revision;
    if r.acks != s.acks {
      var a := r.acks[|s.acks|];
      assert r.acks == s.acks + [a];
      assert AckOk(a, r.now.memory.revision);
      assert a.refusal.None? ==> a.expected == s.now.memory.revision;
    }
    hide Step, Prepared, Enabled;
  }

  /** How one step may change what is published: not at all, or to the next revision, already on disk. */
  lemma StepPublishes(s: Service, e: Event)
    requires Prepared(s) && Enabled(s, e)
    requires e.Configured? ==> s.phase.command.operation.SetConfiguration?
    ensures var r := Step(s, e);
      && (r.now.memory == s.now.memory
          || (r.now.memory == s.now.disk && r.now.memory.revision == s.now.memory.revision + 1))
      && (r.now.disk == s.now.disk || r.now.disk.revision == s.now.memory.revision + 1)
  {
    hide Executed, Known;
  }

  /** A step that answers with a rejection leaves everything as it was when that command took the lock. */
  lemma StepRejects(s: Service, e: Event)
    requires Prepared(s) && Enabled(s, e)
    requires e.Configured? ==> s.phase.command.operation.SetConfiguration?
    ensures var r := Step(s, e);
      |r.acks| > |s.acks| && r.acks[|s.acks|].refusal.Some? ==>
        r.now == (if s.phase.Unlocked? then s.now else s.phase.before)
  {
    hide Executed, Known;
  }

  // Whole runs.

  /** One state before each event and one after the last. */
  ghost predicate Run(events: seq<Event>, states: seq<Service>) {
    && |states| == |events| + 1
    && forall i :: 0 <= i < |events| ==> Follows(states[i], events[i], states[i + 1])
  }

  ghost predicate Follows(s: Service, e: Event, next: Service) {
    && Enabled(s, e)
    && (e.Configured? ==> s.phase.command.operation.SetConfiguration?)
    && next == Step(s, e)
  }

  lemma InitialSound(loaded: PolicyState)
    ensures Sound(Initial(loaded))
  {
  }

  lemma StepSound(s: Service, e: Event)
    requires Sound(s) && Enabled(s, e)
    ensures e.Configured? ==> s.phase.command.operation.SetConfiguration?
    ensures Sound(Step(s, e))
  {
    StepPrepared(s, e);
    StepAcknowledged(s, e);
    hide Prepared, Acknowledged, Step;
  }

  lemma {:induction false} RunSound(loaded: PolicyState, events: seq<Event>, states: seq<Service>, i: nat)
    requires Run(events, states) && states[0] == Initial(loaded) && i < |states|
    ensures Sound(states[i])
  {
    hide Sound, Step, Enabled;
    if i == 0 {
      InitialSound(loaded);
    } else {
      RunSound(loaded, events, states, i - 1);
      assert Follows(states[i - 1], events[i - 1], states[i]);
      StepSound(states[i - 1], events[i - 1]);
    }
  }

  /**
   Over every interleaving with arbitrary save failures and restarts: what is published changes only to the
   next revision, and only to what is already on disk; the file is never ahead by more than that one revision.
   */
  lemma PersistedBeforeVisible(loaded: PolicyState, events: seq<Event>, states: seq<Service>, i: nat)
    requires Run(events, states) && states[0] == Initial(loaded) && i < |events|
    ensures var was, next := states[i].now, states[i + 1].now;
      next.memory == was.memory || (next.memory == was.disk && next.memory.revision == was.memory.revision + 1)
    ensures var at := states[i].now;
      at.disk == at.memory || (states[i].phase.Written? && at.disk.revision == at.memory.revision + 1)
  {
    RunSound(loaded, events, states, i);
    assert Follows(states[i], events[i], states[i + 1]);
    StepPublishes(states[i], events[i]);
    hide Step, Acknowledged, Enabled;
  }

  /** The lock was taken at `k` and is held by that command at `i`. */
  ghost predicate HeldSince(states: seq<Service>, k: nat, i: nat) {
    && k < i < |states| && states[k].phase.Unlocked?
    && forall m :: k < m <= i ==> !states[m].phase.Unlocked?
  }

  lemma {:induction false} BeforeIsThen(loaded: PolicyState, events: seq<Event>, states: seq<Service>, k: nat, i: nat)
    requires Run(events, states) && states[0] == Initial(loaded) && HeldSince(states, k, i)
    ensures states[i].phase.before == states[k].now
    decreases i
  {
    assert Follows(states[i - 1], events[i - 1], states[i]);
    hide Run;
    if i - 1 == k {
      LockRemembers(states[k], events[k], states[i]);
    } else {
      BeforeIsThen(loaded, events, states, k, i - 1);
      LockKeeps(states[i - 1], events[i - 1], states[i]);
    }
  }

  lemma LockRemembers(s: Service, e: Event, next: Service)
    requires Follows(s, e, next) && s.phase.Unlocked? && !next.phase.Unlocked?
    ensures next.phase.before == s.now
  {
    hide Executed, Known;
  }

  lemma LockKeeps(s: Service, e: Event, next: Service)
    requires Follows(s, e, next) && !s.phase.Unlocked? && !next.phase.Unlocked?
    ensures next.phase.before == s.phase.before
  {
    hide Executed, Known;
  }

  /**
   A command that took the lock at `k` and is answered with a rejection at `i` leaves the published policy,
   the policy file and the settings exactly as they were at `k`.
   */
  lemma RejectedChangesNothing(loaded: PolicyState, events: seq<Event>, states: seq<Service>, k: nat, i: nat)
    requires Run(events, states) && states[0] == Initial(loaded) && i < |events|
    requires if i == k then states[k].phase.Unlocked? else HeldSince(states, k, i)
    requires |states[i + 1].acks| > |states[i].acks| && states[i + 1].acks[|states[i].acks|].refusal.Some?
    ensures states[i + 1].now == states[k].now
  {
    RunSound(loaded, events, states, i);
    assert Follows(states[i], events[i], states[i + 1]);
    StepRejects(states[i], events[i]);
    if i != k {
      BeforeIsThen(loaded, events, states, k, i);
    }
    hide Run, Step, Enabled, Acknowledged;
  }

  /**
   Of the acknowledgements sent over a whole run, two that say "applied" for the same expected revision
   can only be a configuration command whose policy save failed, and then whatever came after it.
   */
  lemma AppliedOncePerRevision(loaded: PolicyState, events: seq<Event>, states: seq<Service>, i: nat, j: nat)
    requires Run(events, states) && states[0] == Initial(loaded)
    requires var acks := states[|events|].acks;
      i < j < |acks| && acks[i].expected == acks[j].expected && acks[i].refusal.None? && acks[j].refusal.None?
    ensures var first := states[|events|].acks[i]; !first.committed && first.operation.SetConfiguration?
  {
    RunSound(loaded, events, states, |events|);
    var s := states[|events|];
    assert AckOk(s.acks[i], s.now.memory.revision);
    hide Run, Prepared;
  }

  // A whole command with nobody in between.

  /** What a command comes to: `stores` is the settings store's answer, `saves` whether the policy file can be written. */
  function Decided(now: Contents, c: Command, w: World, stores: Option<Refusal>, saves: bool): (Contents, Option<Refusal>) {
    var next := now.memory.revision + 1;
    if c.expected != now.memory.revision then (now, Some(RevisionMismatch))
    else if c.operation.SetConfiguration? then
      if !w.configurable then (now, Some(ConfigurationUnavailable))
      else if !Known(now.memory, c.operation.id, w) then (now, Some(UnknownProfile))
      else if stores.Some? then (now, stores)
      else
        var stored := now.(settings := now.settings[c.operation.id := c.operation.configuration]);
        (Saves(stored, now.memory.(revision := next), saves), None)
    else
      match Executed(now.memory, c.operation, w)
      case Err(r) => (now, Some(r))
      case Ok(candidate) =>
        (Saves(now, candidate.(revision := next), saves), if saves then None else Some(NotPersisted))
  }

  function Saves(now: Contents, candidate: PolicyState, succeeds: bool): Contents {
    if succeeds then now.(memory := candidate, disk := candidate) else now
  }

  ghost predicate Leads(s: Service, events: seq<Event>, out: Service) {
    exists states :: Run(events, states) && states[0] == s && states[|events|] == out
  }

  lemma LeadsOn(s: Service, e: Event, mid: Service, events: seq<Event>, out: Service)
    requires Follows(s, e, mid) && Leads(mid, events, out)
    ensures Leads(s, [e] + events, out)
  {
    hide Follows;
    var states :| Run(events, states) && states[0] == mid && states[|events|] == out;
    var longer := [s] + states;
    forall i | 0 <= i < |events| + 1 ensures Follows(longer[i], ([e] + events)[i], longer[i + 1]) {
      if i > 0 {
        assert Follows(states[i - 1], events[i - 1], states[i]);
      }
    }
    assert Run([e] + events, longer);
  }

  lemma LeadsNowhere(s: Service)
    ensures Leads(s, [], s)
  {
    assert Run([], [s]);
  }

  /** The candidate saved and published, or not saved. */
  lemma SavingLeads(s: Service, saves: bool) returns (events: seq<Event>, out: Service)
    requires s.phase.Saving? && s.phase.owner.ForCommand?
    ensures Leads(s, events, out) && out.phase.Unlocked? && out.now == Saves(s.now, s.phase.candidate, saves)
    ensures var c := s.phase.owner.command;
      var refusal := if saves || c.operation.SetConfiguration? then None else Some(NotPersisted);
      out.acks == s.acks + [Ack(c.expected, c.operation, refusal, saves)]
  {
    var mid := SavedTo(s, saves);
    LeadsNowhere(mid);
    LeadsOn(s, Saved(saves), mid, [], mid);
    events, out := [Saved(saves)] + [], mid;
    if saves {
      out := Published(mid);
      LeadsNowhere(out);
      LeadsOn(mid, Publish, out, [], out);
      LeadsOn(s, Saved(saves), mid, [Publish] + [], out);
      events := [Saved(saves)] + ([Publish] + []);
    }
    hide Leads;
  }

  /** A command that nobody interrupts is a run of the step machine to exactly this, with one acknowledgement. */
  lemma CommandIsARun(s: Service, c: Command, w: World, stores: Option<Refusal>, saves: bool)
    returns (events: seq<Event>, out: Service)
    requires s.phase.Unlocked?
    ensures var (now, refusal) := Decided(s.now, c, w, stores, saves);
      && Leads(s, events, out) && out.phase.Unlocked? && out.now == now
      && out.acks == s.acks + [Ack(c.expected, c.operation, refusal, refusal.None? && saves)]
  {
    hide Executed, Known, Leads;
    var mid := Taken(s, c, w);
    assert Follows(s, Take(c, w), mid);
    if mid.phase.Unlocked? {
      LeadsNowhere(mid);
      LeadsOn(s, Take(c, w), mid, [], mid);
      return [Take(c, w)] + [], mid;
    }
    var rest;
    if mid.phase.Saving? {
      rest, out := SavingLeads(mid, saves);
    } else {
      var stored := ConfiguredBy(mid, stores);
      assert Follows(mid, Configured(stores), stored);
      if stores.Some? {
        LeadsNowhere(stored);
        rest, out := [], stored;
      } else {
        rest, out := SavingLeads(stored, saves);
      }
      LeadsOn(mid, Configured(stores), stored, rest, out);
      rest := [Configured(stores)] + rest;
    }
    LeadsOn(s, Take(c, w), mid, rest, out);
    events := [Take(c, w)] + rest;
  }

  /** The service as it is kept. Each method is one whole command with the lock held and nobody in between. */
  class ControlService {
    var state: PolicyState
    var disk: PolicyState
    var settings: map<string, Json>

    ghost function Now(): Contents
      reads this
    {
      Contents(state, disk, settings)
    }

    constructor (loaded: PolicyState)
      ensures Now() == Contents(loaded, loaded, map[])
    {
      state, disk, settings := loaded, loaded, map[];
    }

    /** Persist the candidate, and only then publish it. */
    method Commit(candidate: PolicyState, saves: bool)
      modifies `state, `disk
      ensures Now() == if saves then Contents(candidate, candidate, settings) else old(Now())
    {
      if saves {
        disk := candidate;
        state := candidate;
      }
    }

    method Apply(c: Command, w: World, stores: Option<Refusal>, saves: bool) returns (refusal: Option<Refusal>)
      requires disk == state
      modifies this
      ensures disk == state
      ensures (Now(), refusal) == Decided(old(Now()), c, w, stores, saves)
      ensures refusal.Some? ==> Now() == old(Now())
      ensures refusal.None? && !saves ==> c.operation.SetConfiguration? && state == old(state)
      ensures refusal.None? && saves ==>
        var done := Executed(old(state), c.operation, w);
        done.Ok? && state == done.value.(revision := old(state).revision + 1)
    {
      hide Executed, Known;
      if c.expected != state.revision {
        return Some(RevisionMismatch);
      }
      if c.operation.SetConfiguration? {
        if !w.configurable {
          return Some(ConfigurationUnavailable);
        }
        if !Known(state, c.operation.id, w) {
          return Some(UnknownProfile);
        }
        if stores.Some? {
          return stores;
        }
        Configures(state, c.operation, w);
        settings := settings[c.operation.id := c.operation.configuration];
        Commit(state.(revision := state.revision + 1), saves);
        return None;
      }
      var v := Executed(state, c.operation, w);
      if v.Err? {
        return Some(v.error);
      }
      Commit(v.value.(revision := state.revision + 1), saves);
      refusal := if saves then None else Some(NotPersisted);
    }

    /** Profiles discovered after the store was loaded are given a policy; those that have one are left alone. */
    method AdoptProfiles(ids: set<string>, fallback: ProfilePolicy, saves: bool) returns (adopted: set<string>)
      requires disk == state
      modifies `state, `disk
      ensures disk == state
      ensures adopted == if saves then ids - old(state).profiles.Keys else {}
      ensures adopted == {} ==> state == old(state)
      ensures adopted != {} ==>
        && state == old(state).(profiles := state.profiles, revision := old(state).revision + 1)
        && state.profiles.Keys == old(state).profiles.Keys + ids
        && (forall id :: id in state.profiles ==>
              state.profiles[id] == if id in adopted then fallback else old(state).profiles[id])
    {
      adopted := ids - state.profiles.Keys;
      if adopted == {} {
        return;
      }
      var profiles := state.profiles + map id | id in adopted :: fallback;
      Commit(state.(profiles := profiles, revision := state.revision + 1), saves);
      if !saves {
        adopted := {};
      }
    }
  }

  lemma Configures(s: PolicyState, op: Operation, w: World)
    requires op.SetConfiguration?
    ensures Executed(s, op, w) == Ok(s)
  {
  }
}
