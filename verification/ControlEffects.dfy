/**
 What the control service comes to publish and to answer, over every interleaving: the policy a command asks for and
 no other, and the refusal its first broken rule calls for.
 */
module ControlEffects {
  import opened CommandEffects
  import opened Commands
  import opened Control
  import opened Policy
  import opened Prelude

  /** The candidate is what the operation makes of `m`, at the next revision. */
  ghost predicate Asked(m: PolicyState, op: Operation, candidate: PolicyState) {
    exists r :: MadeBy(m, op, r) && candidate == r.(revision := m.revision + 1)
  }

  ghost predicate MadeBy(m: PolicyState, op: Operation, r: PolicyState) {
    if op.ApplyProfiles? then Makes(m, op.changes, r) else CommandEffects.Leaves(m, op, r)
  }

  /** The profiles without a policy given the fallback, the others left alone, at the next revision. */
  ghost predicate Adopts(m: PolicyState, ids: set<string>, fallback: ProfilePolicy, candidate: PolicyState) {
    && candidate == m.(profiles := candidate.profiles, revision := m.revision + 1)
    && candidate.profiles.Keys == m.profiles.Keys + ids
    && forall id :: id in candidate.profiles ==>
      candidate.profiles[id] == if id in m.profiles then m.profiles[id] else fallback
  }

  // Taking the lock.

  /** Nothing changes but one acknowledgement of this refusal. */
  ghost predicate AnswersNo(s: Service, next: Service, c: Command, why: Refusal) {
    next == s.(acks := s.acks + [Ack(c.expected, c.operation, Some(why), false)])
  }

  /** The first rule a command breaks when it takes the lock; for a batch, why executing it is refused. */
  ghost predicate RefusedFor(m: PolicyState, c: Command, w: World, why: Refusal) {
    if c.expected != m.revision then why == RevisionMismatch
    else if c.operation.SetConfiguration? then
      if !w.configurable then why == ConfigurationUnavailable
      else !KnownTo(m, c.operation.id, w) && why == UnknownProfile
    else if c.operation.ApplyProfiles? then
      FirstBreaks(m, c.operation.changes, w, why) || StopsAt(m, c.operation.changes, why)
    else Reason(m, c.operation, w) == Some(why)
  }

  lemma Tried(m: PolicyState, op: Operation, w: World)
    requires !op.SetConfiguration?
    ensures var v := Executed(m, op, w);
      if v.Ok? then MadeBy(m, op, v.value)
      else if op.ApplyProfiles? then FirstBreaks(m, op.changes, w, v.error) || StopsAt(m, op.changes, v.error)
      else Reason(m, op, w) == Some(v.error)
  {
    if op.ApplyProfiles? {
      BatchDoes(m, op.changes, w);
    } else {
      SettingExactly(m, op, w);
    }
    hide Executed, Makes, FirstBreaks, StopsAt, Reason, CommandEffects.Leaves;
  }

  /** A command that takes the lock is refused for the rule it breaks, or holds the lock with what it asks for. */
  lemma TakeExactly(s: Service, c: Command, w: World)
    requires s.phase.Unlocked?
    ensures var next := Step(s, Take(c, w));
      || (exists why :: AnswersNo(s, next, c, why) && RefusedFor(s.now.memory, c, w, why))
      || (c.expected == s.now.memory.revision && next.now == s.now && next.acks == s.acks &&
          if c.operation.SetConfiguration? then next.phase == Configuring(c, s.now)
          else next.phase.Saving? && next.phase.owner == ForCommand(c) &&
               Asked(s.now.memory, c.operation, next.phase.candidate))
  {
    var next, m := Step(s, Take(c, w)), s.now.memory;
    hide Executed, CommandEffects.Leaves, Makes, Reason, StopsAt, FirstBreaks;
    if c.expected != m.revision {
      assert AnswersNo(s, next, c, RevisionMismatch);
    } else if c.operation.SetConfiguration? {
      if !w.configurable {
        assert AnswersNo(s, next, c, ConfigurationUnavailable);
      } else if !Known(m, c.operation.id, w) {
        assert AnswersNo(s, next, c, UnknownProfile);
      }
    } else {
      Tried(m, c.operation, w);
      var v := Executed(m, c.operation, w);
      if v.Err? {
        assert AnswersNo(s, next, c, v.error);
      }
    }
  }

  /**
   A failed save gives the lock up with nothing changed: a command is told its policy was not persisted, unless its
   configuration is stored already, and an adoption is told nothing. A refused configuration gives it up likewise.
   */
  lemma FailureAnswers(s: Service, e: Event)
    requires Prepared(s) && Enabled(s, e) && (e == Saved(false) || (e.Configured? && e.refusal.Some?))
    ensures e.Configured? ==> s.phase.command.operation.SetConfiguration?
    ensures Step(s, e).phase.Unlocked? && Step(s, e).now == s.now
    ensures e.Configured? ==> Told(s, Step(s, e), s.phase.command, e.refusal)
    ensures e.Saved? && s.phase.owner == ForAdoption ==> Step(s, e).acks == s.acks
    ensures e.Saved? && s.phase.owner.ForCommand? ==>
      var c := s.phase.owner.command;
      Told(s, Step(s, e), c, if c.operation.SetConfiguration? then None else Some(NotPersisted))
  {
  }

  /** One acknowledgement more, of nothing committed. */
  predicate Told(s: Service, next: Service, c: Command, why: Option<Refusal>) {
    next.acks == s.acks + [Ack(c.expected, c.operation, why, false)]
  }

  // Holding it.

  /** What the holder of the lock, who took it by this event when `was` was published, has in hand. */
  ghost predicate InHand(s: Service, was: PolicyState, e: Event) {
    match e
    case Take(c, _) =>
      (match s.phase
       case Unlocked => false
       case Configuring(holder, _) => holder == c && c.operation.SetConfiguration?
       case Saving(owner, candidate, _) => owner == ForCommand(c) && Asked(was, c.operation, candidate) && Stored(s, c)
       case Written(owner, candidate, _) => owner == ForCommand(c) && Asked(was, c.operation, candidate) && Stored(s, c))
    case Adopt(ids, fallback) =>
      (match s.phase
       case Unlocked => false
       case Configuring(_, _) => false
       case Saving(owner, candidate, _) => owner == ForAdoption && Adopts(was, ids, fallback, candidate)
       case Written(owner, candidate, _) => owner == ForAdoption && Adopts(was, ids, fallback, candidate))
    case _ => false
  }

  /** A configuration the settings store took is in it. */
  ghost predicate Stored(s: Service, c: Command) {
    c.operation.SetConfiguration? ==>
      c.operation.id in s.now.settings && s.now.settings[c.operation.id] == c.operation.configuration
  }

  lemma AdoptTakes(s: Service, ids: set<string>, fallback: ProfilePolicy)
    requires s.phase.Unlocked? && !Adopted(s, ids, fallback).phase.Unlocked?
    ensures InHand(Adopted(s, ids, fallback), s.now.memory, Adopt(ids, fallback))
  {
  }

  lemma TakenInHand(s: Service, e: Event, next: Service)
    requires Follows(s, e, next) && s.phase.Unlocked? && !next.phase.Unlocked?
    ensures InHand(next, s.now.memory, e)
  {
    match e
    case Take(c, w) =>
      TakeExactly(s, c, w);
      hide Step, Asked, RefusedFor;
    case Adopt(ids, fallback) =>
      AdoptTakes(s, ids, fallback);
      hide InHand;
    case _ =>
  }

  lemma ConfigurationAsked(m: PolicyState, c: Command)
    requires c.operation.SetConfiguration?
    ensures Asked(m, c.operation, m.(revision := m.revision + 1))
  {
    assert MadeBy(m, c.operation, m);
  }

  lemma StaysInHand(s: Service, e: Event, next: Service, was: PolicyState, taken: Event)
    requires Prepared(s) && Follows(s, e, next) && InHand(s, was, taken) && !next.phase.Unlocked?
    requires s.now.memory == was
    ensures InHand(next, was, taken) && next.now.memory == was
  {
    if e.Configured? {
      ConfigurationAsked(was, s.phase.command);
    }
    hide Asked, Executed, Known, Adopts;
  }

  lemma {:induction false} HolderInHand(loaded: PolicyState, events: seq<Event>, states: seq<Service>, k: nat, i: nat)
    requires Run(events, states) && states[0] == Initial(loaded) && HeldSince(states, k, i)
    ensures InHand(states[i], states[k].now.memory, events[k]) && states[i].now.memory == states[k].now.memory
    decreases i
  {
    hide InHand, Step, Enabled;
    assert Follows(states[i - 1], events[i - 1], states[i]);
    if i - 1 == k {
      TakenInHand(states[k], events[k], states[i]);
      LockMoves(states[k], events[k], states[i]);
    } else {
      HolderInHand(loaded, events, states, k, i - 1);
      RunSound(loaded, events, states, i - 1);
      StaysInHand(states[i - 1], events[i - 1], states[i], states[k].now.memory, events[k]);
    }
  }

  lemma LockMoves(s: Service, e: Event, next: Service)
    requires Follows(s, e, next) && s.phase.Unlocked? && !next.phase.Unlocked?
    ensures next.now.memory == s.now.memory
  {
    hide Executed, Known;
  }

  lemma {:induction false} SomeHolder(loaded: PolicyState, events: seq<Event>, states: seq<Service>, i: nat)
    requires Run(events, states) && states[0] == Initial(loaded) && i < |states| && !states[i].phase.Unlocked?
    ensures exists k: nat :: HeldSince(states, k, i)
    decreases i
  {
    if states[i - 1].phase.Unlocked? {
      assert HeldSince(states, i - 1, i);
    } else {
      SomeHolder(loaded, events, states, i - 1);
      var k: nat :| HeldSince(states, k, i - 1);
      assert HeldSince(states, k, i);
    }
  }

  /** Published at `i` is what the command that took the lock at `k` asked of the policy published then. */
  ghost predicate PublishesAsked(events: seq<Event>, states: seq<Service>, k: nat, i: nat)
    requires |states| == |events| + 1 && i < |events|
  {
    && k < i && HeldSince(states, k, i)
    && match events[k]
       case Take(c, _) =>
         && Asked(states[k].now.memory, c.operation, states[i + 1].now.memory)
         && states[i + 1].acks == states[i].acks + [Ack(c.expected, c.operation, None, true)]
         && c.expected == states[k].now.memory.revision && Stored(states[i + 1], c)
       case Adopt(ids, fallback) =>
         && Adopts(states[k].now.memory, ids, fallback, states[i + 1].now.memory)
         && states[i + 1].acks == states[i].acks
       case _ => false
  }

  /**
   Over every interleaving of commands, adoptions, failed saves and restarts: whenever a policy is published, it is
   what the command or adoption then holding the lock asked for, made of the policy published when the lock was
   taken, one revision on; and a command so published is acknowledged as applied, for the revision it expected.
   */
  lemma PublishedIsAsked(loaded: PolicyState, events: seq<Event>, states: seq<Service>, i: nat)
    requires Run(events, states) && states[0] == Initial(loaded) && i < |events| && events[i].Publish?
    ensures exists k: nat :: PublishesAsked(events, states, k, i)
  {
    assert Follows(states[i], events[i], states[i + 1]);
    SomeHolder(loaded, events, states, i);
    var k: nat :| HeldSince(states, k, i);
    HolderInHand(loaded, events, states, k, i);
    RunSound(loaded, events, states, i);
    PublishShows(states[i], states[i + 1], states[k].now.memory, events[k]);
    hide Run, HeldSince, InHand, Sound, Asked, Adopts, Stored;
    assert PublishesAsked(events, states, k, i);
  }

  lemma PublishShows(s: Service, next: Service, was: PolicyState, taken: Event)
    requires Follows(s, Publish, next) && InHand(s, was, taken) && s.now.memory == was && Prepared(s)
    ensures match taken
      case Take(c, _) =>
        && Asked(was, c.operation, next.now.memory) && Stored(next, c) && c.expected == was.revision
        && next.acks == s.acks + [Ack(c.expected, c.operation, None, true)]
      case Adopt(ids, fallback) => Adopts(was, ids, fallback, next.now.memory) && next.acks == s.acks
      case _ => false
  {
    hide Asked, Adopts;
  }
}
