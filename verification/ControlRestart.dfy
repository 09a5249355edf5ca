/** What a restart finds: every policy the control service can reach is one the store gives back unchanged. */
module ControlRestart {
  import opened Commands
  import opened Control
  import opened Policy
  import opened Prelude

  predicate ChoiceAsked(id: string, value: Option<string>, choice: Choice) {
    ChooserOk(id) && (value.Some? ==> ChoiceOk(choice, value.value))
  }

  /** What the command schema guarantees of one change. */
  predicate ChangeOk(c: Change) {
    && (c.weight.Some? ==> IntegralWeight(c.weight.value).Some? && WeightOk(IntegralWeight(c.weight.value).value))
    && (c.device.Some? ==> ChoiceAsked(c.id, c.device.value, DeviceChoice))
    && (c.model.Some? ==> ChoiceAsked(c.id, c.model.value, ModelChoice))
  }

  predicate OperationOk(op: Operation) {
    match op
    case SetDevice(id, device) => ChoiceAsked(id, device, DeviceChoice)
    case SetModel(id, model) => ChoiceAsked(id, model, ModelChoice)
    case ApplyProfiles(changes) => forall c :: c in changes ==> ChangeOk(c)
    case _ => true
  }

  predicate EventOk(e: Event) {
    match e
    case Take(c, _) => OperationOk(c.operation)
    case Adopt(ids, fallback) => WeightOk(fallback.weight) && forall id :: id in ids ==> ProfileIdOk(id)
    case _ => true
  }

  lemma ChosenStorable(choices: map<string, string>, id: string, value: Option<string>, choice: Choice)
    requires ChoicesStorable(choices, choice) && ChoiceAsked(id, value, choice) && Chosen(choices, id, value).Ok?
    ensures ChoicesStorable(Chosen(choices, id, value).value, choice)
  {
    hide ChooserOk, ChoiceOk;
    ChosenFits(choices, id, value);
  }

  lemma ChosenFits(choices: map<string, string>, id: string, value: Option<string>)
    requires |choices.Keys| <= MAX_CHOICES && Chosen(choices, id, value).Ok?
    ensures |Chosen(choices, id, value).value.Keys| <= MAX_CHOICES
  {
    var r := Chosen(choices, id, value).value;
    if value.Some? {
      assert r.Keys == choices.Keys + {id};
    } else {
      Fewer(r.Keys, choices.Keys);
    }
  }

  lemma Fewer(a: set<string>, b: set<string>)
    requires a <= b
    ensures |a| <= |b|
  {
    if a != b {
      assert b == a + (b - a);
    }
  }

  lemma ProfileSetStorable(
    profiles: map<string, ProfilePolicy>, defaults: map<string, ProfilePolicy>, id: string, p: ProfilePolicy)
    requires ProfilesStorable(profiles, defaults) && id in profiles && WeightOk(p.weight)
    ensures ProfilesStorable(profiles[id := p], defaults)
  {
    hide ProfileIdOk, WeightOk;
  }

  lemma DeviceSetStorable(
    s: PolicyState, id: string, device: Option<string>, w: World, defaults: map<string, ProfilePolicy>)
    requires Storable(s, defaults) && ChoiceAsked(id, device, DeviceChoice) && DeviceSet(s, id, device, w).Ok?
    ensures Storable(DeviceSet(s, id, device, w).value, defaults)
  {
    ChosenStorable(s.devices, id, device, DeviceChoice);
    hide ProfilesStorable, ChoicesStorable, Chosen;
  }

  lemma ModelSetStorable(
    s: PolicyState, id: string, model: Option<string>, w: World, defaults: map<string, ProfilePolicy>)
    requires Storable(s, defaults) && ChoiceAsked(id, model, ModelChoice) && ModelSet(s, id, model, w).Ok?
    ensures Storable(ModelSet(s, id, model, w).value, defaults)
  {
    ChosenStorable(s.models, id, model, ModelChoice);
    hide ProfilesStorable, ChoicesStorable, Chosen;
  }

  lemma ChangeStorable(s: PolicyState, c: Change, w: World, defaults: map<string, ProfilePolicy>)
    requires Storable(s, defaults) && ChangeOk(c) && (c.enabled.Some? || c.weight.Some? ==> c.id in s.profiles)
    requires ChangeApplied(s, c, w).Ok?
    ensures Storable(ChangeApplied(s, c, w).value, defaults)
  {
    hide ChoicesStorable, ProfilesStorable, DeviceSet, ModelSet, ChoiceAsked, IntegralWeight;
    var s1, s2 := s, s;
    if c.enabled.Some? {
      OldWeightOk(s.profiles, defaults, c.id);
      ProfileSetStorable(s.profiles, defaults, c.id, s.profiles[c.id].(enabled := c.enabled.value));
      s1 := s.(profiles := s.profiles[c.id := s.profiles[c.id].(enabled := c.enabled.value)]);
    }
    s2 := s1;
    if c.weight.Some? {
      var p := s1.profiles[c.id].(weight := IntegralWeight(c.weight.value).value);
      ProfileSetStorable(s1.profiles, defaults, c.id, p);
      s2 := s1.(profiles := s1.profiles[c.id := p]);
    }
    assert Storable(s2, defaults);
    var v: Verdict := if c.device.None? then Ok(s2) else DeviceSet(s2, c.id, c.device.value, w);
    if c.device.Some? {
      DeviceSetStorable(s2, c.id, c.device.value, w, defaults);
    }
    if c.model.Some? {
      ModelSetStorable(v.value, c.id, c.model.value, w, defaults);
    }
  }

  lemma OldWeightOk(profiles: map<string, ProfilePolicy>, defaults: map<string, ProfilePolicy>, id: string)
    requires ProfilesStorable(profiles, defaults) && id in profiles
    ensures WeightOk(profiles[id].weight)
  {
  }

  lemma {:induction false} AppliedStorable(
    s: PolicyState, changes: seq<Change>, w: World, defaults: map<string, ProfilePolicy>)
    requires Storable(s, defaults) && HasPolicies(s, changes) && AllApplied(s, changes, w).Ok?
    requires forall c :: c in changes ==> ChangeOk(c)
    ensures Storable(AllApplied(s, changes, w).value, defaults)
    decreases |changes|
  {
    hide Storable, ChangeOk, ChangeApplied;
    if changes != [] {
      ChangeKeepsProfiles(s, changes[0], w);
      ChangeStorable(s, changes[0], w, defaults);
      AppliedStorable(ChangeApplied(s, changes[0], w).value, changes[1..], w, defaults);
    }
  }

  lemma ExecutedStorable(s: PolicyState, op: Operation, w: World, defaults: map<string, ProfilePolicy>)
    requires Storable(s, defaults) && OperationOk(op) && Executed(s, op, w).Ok?
    ensures Storable(Executed(s, op, w).value, defaults)
  {
    hide ChoicesStorable, ProfilesStorable, DeviceSet, ModelSet, ChoiceAsked, IntegralWeight, WeightOk, ChangeOk, Known;
    match op
    case SetDevice(id, device) => DeviceSetStorable(s, id, device, w, defaults);
    case SetModel(id, model) => ModelSetStorable(s, id, model, w, defaults);
    case SetEnabled(id, enabled) =>
      OldWeightOk(s.profiles, defaults, id);
      ProfileSetStorable(s.profiles, defaults, id, s.profiles[id].(enabled := enabled));
    case SetWeight(id, weight) =>
      ProfileSetStorable(s.profiles, defaults, id, s.profiles[id].(weight := IntegralWeight(weight).value));
    case ApplyProfiles(changes) => AppliedStorable(s, changes, w, defaults);
    case _ =>
  }

  ghost predicate AllStorable(s: Service, defaults: map<string, ProfilePolicy>) {
    && Storable(s.now.memory, defaults)
    && Storable(s.now.disk, defaults)
    && (s.phase.Saving? || s.phase.Written? ==> Storable(s.phase.candidate, defaults))
  }

  lemma NextStorable(s: PolicyState, candidate: PolicyState, defaults: map<string, ProfilePolicy>)
    requires Storable(s, defaults) && Storable(candidate, defaults)
    ensures Storable(candidate.(revision := s.revision + 1), defaults)
  {
    hide ProfilesStorable, ChoicesStorable;
  }

  lemma AdoptedStorable(
    s: PolicyState, ids: set<string>, fallback: ProfilePolicy, defaults: map<string, ProfilePolicy>)
    requires Storable(s, defaults) && WeightOk(fallback.weight) && forall id :: id in ids ==> ProfileIdOk(id)
    ensures var profiles := s.profiles + map id | id in ids - s.profiles.Keys :: fallback;
      Storable(s.(profiles := profiles), defaults)
  {
    hide ProfileIdOk, WeightOk, ChoicesStorable;
  }

  lemma TakenStorable(s: Service, c: Command, w: World, defaults: map<string, ProfilePolicy>)
    requires AllStorable(s, defaults) && OperationOk(c.operation)
    ensures AllStorable(Taken(s, c, w), defaults)
  {
    hide Storable, Executed, Known, OperationOk;
    var policy := s.now.memory;
    var v := Executed(policy, c.operation, w);
    if v.Ok? {
      ExecutedStorable(policy, c.operation, w, defaults);
      NextStorable(policy, v.value, defaults);
    }
  }

  lemma AdoptionStorable(s: Service, ids: set<string>, fallback: ProfilePolicy, defaults: map<string, ProfilePolicy>)
    requires AllStorable(s, defaults) && EventOk(Adopt(ids, fallback))
    ensures AllStorable(Adopted(s, ids, fallback), defaults)
  {
    AdoptedStorable(s.now.memory, ids, fallback, defaults);
    hide Storable;
    var policy := s.now.memory;
    var profiles := policy.profiles + map id | id in ids - policy.profiles.Keys :: fallback;
    NextStorable(policy, policy.(profiles := profiles), defaults);
  }

  lemma RestStorable(s: Service, e: Event, next: Service, defaults: map<string, ProfilePolicy>)
    requires AllStorable(s, defaults) && Follows(s, e, next) && !e.Take? && !e.Adopt?
    ensures AllStorable(next, defaults)
  {
    hide Storable;
    NextStorable(s.now.memory, s.now.memory, defaults);
  }

  lemma StepStorable(s: Service, e: Event, next: Service, defaults: map<string, ProfilePolicy>)
    requires AllStorable(s, defaults) && EventOk(e) && Follows(s, e, next)
    ensures AllStorable(next, defaults)
  {
    hide AllStorable, OperationOk;
    match e
    case Take(c, w) => TakenStorable(s, c, w, defaults);
    case Adopt(ids, fallback) => AdoptionStorable(s, ids, fallback, defaults);
    case _ => RestStorable(s, e, next, defaults);
  }

  lemma {:induction false} ReachableStorable(
    loaded: PolicyState, events: seq<Event>, states: seq<Service>, i: nat, defaults: map<string, ProfilePolicy>)
    requires Run(events, states) && states[0] == Initial(loaded) && Storable(loaded, defaults)
    requires i < |states| && forall e :: e in events ==> EventOk(e)
    ensures AllStorable(states[i], defaults)
  {
    hide Follows, EventOk, Storable;
    if i > 0 {
      ReachableStorable(loaded, events, states, i - 1, defaults);
      assert Follows(states[i - 1], events[i - 1], states[i]);
      assert EventOk(events[i - 1]);
      StepStorable(states[i - 1], events[i - 1], states[i], defaults);
    }
  }

  /**
   Over every run of well-formed commands and adoptions, with save failures and restarts anywhere, a load of
   what is on disk gives back exactly the policy saved there, and neither choice map passes its bound.
   */
  lemma RestartPreservesPolicy(
    loaded: PolicyState, events: seq<Event>, states: seq<Service>, i: nat, defaults: map<string, ProfilePolicy>)
    requires Run(events, states) && states[0] == Initial(loaded) && Storable(loaded, defaults)
    requires i < |states| && forall e :: e in events ==> EventOk(e)
    ensures Loaded(Some(Document(states[i].now.disk)), defaults) == states[i].now.disk
    ensures |states[i].now.memory.devices| <= MAX_CHOICES && |states[i].now.memory.models| <= MAX_CHOICES
  {
    hide Run, EventOk, Storable, Loaded, Document;
    ReachableStorable(loaded, events, states, i, defaults);
    RestartExact(states[i].now.disk, defaults);
    StorableBounds(states[i].now.memory, defaults);
  }

  lemma StorableBounds(s: PolicyState, defaults: map<string, ProfilePolicy>)
    requires Storable(s, defaults)
    ensures |s.devices| <= MAX_CHOICES && |s.models| <= MAX_CHOICES
  {
    assert |s.devices| == |s.devices.Keys| && |s.models| == |s.models.Keys|;
  }
}
