/**
 What a command asks for and gets, told field by field: which policy an accepted command leaves, and why another is
 refused. None of the functions that execute commands is named in what is stated.
 */
module CommandEffects {
  import opened Commands
  import opened Policy
  import opened Prelude

  /** The whole number a JSON number stands for. */
  predicate Means(number: Number, n: int) {
    match number
    case Integer(k) => k == n
    case Float(r) => r == n as real
    case Truth(_) => false
  }

  ghost predicate LegalWeight(number: Number) { exists n :: 1 <= n <= 5 && Means(number, n) }

  ghost predicate KnownTo(s: PolicyState, id: string, w: World) {
    id in s.profiles.Keys + s.devices.Keys + s.models.Keys || w.governs(id)
  }

  /** The choice made for `id`, or the one there was taken back; nobody else's touched. */
  ghost predicate ChoiceMade(was: map<string, string>, now: map<string, string>, id: string, value: Option<string>) {
    && (value.Some? ==> id in now && now[id] == value.value)
    && (value.None? ==> id !in now)
    && forall k :: k != id ==> (k in now <==> k in was) && (k in was ==> now[k] == was[k])
  }

  /** No room for one more choice. */
  predicate Full(choices: map<string, string>, id: string, value: Option<string>) {
    value.Some? && id !in choices && |choices| >= 128
  }

  // One setting.

  /** The policy an accepted setting leaves. */
  ghost predicate Leaves(s: PolicyState, op: Operation, r: PolicyState)
    requires !op.ApplyProfiles?
  {
    match op
    case SetPaused(value) => r.paused == value && r == s.(paused := r.paused)
    case SetConfiguration(_, _) => r == s
    case SetEnabled(id, enabled) =>
      && id in s.profiles && r == s.(profiles := s.profiles[id := ProfilePolicy(enabled, s.profiles[id].weight)])
    case SetWeight(id, weight) =>
      && id in s.profiles && id in r.profiles && Means(weight, r.profiles[id].weight)
      && r == s.(profiles := s.profiles[id := ProfilePolicy(s.profiles[id].enabled, r.profiles[id].weight)])
    case SetDevice(id, device) => ChoiceMade(s.devices, r.devices, id, device) && r == s.(devices := r.devices)
    case SetModel(id, model) => ChoiceMade(s.models, r.models, id, model) && r == s.(models := r.models)
  }

  /** The first rule a setting breaks. */
  ghost function Reason(s: PolicyState, op: Operation, w: World): Option<Refusal>
    requires !op.ApplyProfiles?
  {
    match op
    case SetPaused(_) => None
    case SetConfiguration(_, _) => None
    case SetEnabled(id, _) => if id in s.profiles then None else Some(UnknownProfile)
    case SetWeight(id, weight) =>
      if id !in s.profiles then Some(UnknownProfile) else if LegalWeight(weight) then None else Some(BadWeight)
    case SetDevice(id, device) =>
      if !KnownTo(s, id, w) then Some(UnknownProfile)
      else if device.Some? && device.value !in w.gpus then Some(GpuUnavailable)
      else if Full(s.devices, id, device) then Some(TooManyChoices) else None
    case SetModel(id, model) =>
      if !KnownTo(s, id, w) then Some(UnknownProfile)
      else if model.Some? && model.value !in w.models(id) then Some(ModelUndeclared)
      else if Full(s.models, id, model) then Some(TooManyChoices) else None
  }

  lemma WeightMeans(number: Number)
    ensures IntegralWeight(number).Some? ==> Means(number, IntegralWeight(number).value)
    ensures forall n :: Means(number, n) ==> IntegralWeight(number) == Some(n)
    ensures LegalWeight(number) <==> IntegralWeight(number).Some? && WeightOk(IntegralWeight(number).value)
  {
    if number.Float? {
      forall n | Means(number, n) ensures number.r.Floor == n {
      }
    }
    if IntegralWeight(number).Some? && WeightOk(IntegralWeight(number).value) {
      assert Means(number, IntegralWeight(number).value);
    }
  }

  lemma ChosenMakes(choices: map<string, string>, id: string, value: Option<string>)
    ensures if Full(choices, id, value) then Chosen(choices, id, value) == Err(TooManyChoices)
      else Chosen(choices, id, value).Ok? && ChoiceMade(choices, Chosen(choices, id, value).value, id, value)
  {
  }

  lemma DeviceSetMakes(s: PolicyState, id: string, device: Option<string>, w: World)
    requires DeviceError(device, w).None?
    ensures var v := DeviceSet(s, id, device, w);
      if Full(s.devices, id, device) then v == Err(TooManyChoices)
      else v.Ok? && v.value == s.(devices := v.value.devices) && ChoiceMade(s.devices, v.value.devices, id, device)
  {
    ChosenMakes(s.devices, id, device);
    hide Chosen, Full, ChoiceMade;
  }

  lemma ModelSetMakes(s: PolicyState, id: string, model: Option<string>, w: World)
    requires ModelError(id, model, w).None?
    ensures var v := ModelSet(s, id, model, w);
      if Full(s.models, id, model) then v == Err(TooManyChoices)
      else v.Ok? && v.value == s.(models := v.value.models) && ChoiceMade(s.models, v.value.models, id, model)
  {
    ChosenMakes(s.models, id, model);
    hide Chosen, Full, ChoiceMade;
  }

  lemma DeviceExactly(s: PolicyState, id: string, device: Option<string>, w: World)
    ensures var op := SetDevice(id, device); var v := Executed(s, op, w);
      if v.Ok? then Reason(s, op, w).None? && Leaves(s, op, v.value) else Reason(s, op, w) == Some(v.error)
  {
    if DeviceError(device, w).None? {
      DeviceSetMakes(s, id, device, w);
      hide DeviceSet;
    }
    hide Full, ChoiceMade, Chosen;
  }

  lemma ModelExactly(s: PolicyState, id: string, model: Option<string>, w: World)
    ensures var op := SetModel(id, model); var v := Executed(s, op, w);
      if v.Ok? then Reason(s, op, w).None? && Leaves(s, op, v.value) else Reason(s, op, w) == Some(v.error)
  {
    if ModelError(id, model, w).None? {
      ModelSetMakes(s, id, model, w);
      hide ModelSet;
    }
    hide Full, ChoiceMade, Chosen;
  }

  lemma WeightExactly(s: PolicyState, id: string, weight: Number, w: World)
    ensures var op := SetWeight(id, weight); var v := Executed(s, op, w);
      if v.Ok? then Reason(s, op, w).None? && Leaves(s, op, v.value) else Reason(s, op, w) == Some(v.error)
  {
    WeightMeans(weight);
    hide LegalWeight, IntegralWeight, WeightOk;
  }

  /** A setting is accepted exactly when it breaks no rule and then leaves that policy; else refused for the first. */
  lemma SettingExactly(s: PolicyState, op: Operation, w: World)
    requires !op.ApplyProfiles?
    ensures var v := Executed(s, op, w);
      if v.Ok? then Reason(s, op, w).None? && Leaves(s, op, v.value) else Reason(s, op, w) == Some(v.error)
  {
    match op
    case SetWeight(id, weight) => WeightExactly(s, id, weight, w);
    case SetDevice(id, device) => DeviceExactly(s, id, device, w);
    case SetModel(id, model) => ModelExactly(s, id, model, w);
    case SetEnabled(_, _) =>
    case SetPaused(_) =>
    case SetConfiguration(_, _) =>
  }

  /** A policy that such a setting leaves is the only one it can. */
  lemma SettingOnce(s: PolicyState, op: Operation, a: PolicyState, b: PolicyState)
    requires !op.ApplyProfiles? && Leaves(s, op, a) && Leaves(s, op, b)
    ensures a == b
  {
    match op
    case SetDevice(id, device) => MadeOnce(s.devices, a.devices, b.devices, id, device);
    case SetModel(id, model) => MadeOnce(s.models, a.models, b.models, id, model);
    case SetWeight(id, weight) => WeightMeans(weight);
    case _ =>
    hide ChoiceMade;
  }

  lemma MadeOnce(
    was: map<string, string>, a: map<string, string>, b: map<string, string>, id: string, value: Option<string>)
    requires ChoiceMade(was, a, id, value) && ChoiceMade(was, b, id, value)
    ensures a == b
  {
    forall k ensures k in a <==> k in b {
      if k != id {
      }
    }
    assert a.Keys == b.Keys;
  }

  // A batch.

  /** What one change of a batch leaves: each setting it names made, nothing else touched. */
  ghost predicate ChangeLeaves(s: PolicyState, c: Change, r: PolicyState) {
    && r == PolicyState(s.paused, r.profiles, r.devices, r.models, s.revision)
    && PolicyLeft(s, c, r.profiles)
    && (if c.device.None? then r.devices == s.devices else ChoiceMade(s.devices, r.devices, c.id, c.device.value))
    && (if c.model.None? then r.models == s.models else ChoiceMade(s.models, r.models, c.id, c.model.value))
  }

  /** The first rule a change breaks, of those checked before anything is changed. */
  ghost function ChangeReason(s: PolicyState, c: Change, w: World): Option<Refusal> {
    if !KnownTo(s, c.id, w) then Some(UnknownProfile)
    else if c.enabled.None? && c.weight.None? && c.device.None? && c.model.None? then Some(EmptyChange)
    else if (c.enabled.Some? || c.weight.Some?) && c.id !in s.profiles then Some(PolicyUnavailable)
    else if c.device.Some? && c.device.value.Some? && c.device.value.value !in w.gpus then Some(GpuUnavailable)
    else if c.model.Some? && c.model.value.Some? && c.model.value.value !in w.models(c.id) then Some(ModelUndeclared)
    else None
  }

  /** What can still stop a change that was checked: a weight that is no whole number, or no room for a choice. */
  ghost function Obstacle(s: PolicyState, c: Change): Option<Refusal> {
    if c.weight.Some? && !(exists n :: Means(c.weight.value, n)) then Some(BadWeight)
    else if c.device.Some? && Full(s.devices, c.id, c.device.value) then Some(TooManyChoices)
    else if c.model.Some? && Full(s.models, c.id, c.model.value) then Some(TooManyChoices)
    else None
  }

  lemma CheckedReason(s: PolicyState, c: Change, w: World)
    ensures ChangeError(s, c, w) == ChangeReason(s, c, w)
  {
  }

  /** The policy of a change's profile once its two settings are made. */
  function Retuned(s: PolicyState, c: Change): PolicyState {
    if c.id !in s.profiles || (c.enabled.None? && c.weight.None?) then s
    else
      var p := s.profiles[c.id];
      var weight := if c.weight.Some? && IntegralWeight(c.weight.value).Some? then IntegralWeight(c.weight.value).value
        else p.weight;
      s.(profiles := s.profiles[c.id := ProfilePolicy(if c.enabled.Some? then c.enabled.value else p.enabled, weight)])
  }

  lemma SetTwice(m: map<string, ProfilePolicy>, id: string, p: ProfilePolicy, q: ProfilePolicy)
    ensures m[id := p][id := q] == m[id := q]
    ensures id in m ==> m[id := m[id]] == m
  {
  }

  lemma AppliedIs(s: PolicyState, c: Change, w: World)
    requires c.enabled.Some? || c.weight.Some? ==> c.id in s.profiles
    ensures ChangeApplied(s, c, w) ==
      if c.weight.Some? && IntegralWeight(c.weight.value).None? then Err(BadWeight)
      else
        var v := if c.device.None? then Ok(Retuned(s, c)) else DeviceSet(Retuned(s, c), c.id, c.device.value, w);
        if v.Err? || c.model.None? then v else ModelSet(v.value, c.id, c.model.value, w)
  {
    hide DeviceSet, ModelSet, IntegralWeight;
    if c.enabled.Some? && c.weight.Some? && IntegralWeight(c.weight.value).Some? {
      var p := s.profiles[c.id].(enabled := c.enabled.value);
      SetTwice(s.profiles, c.id, p, p.(weight := IntegralWeight(c.weight.value).value));
    }
  }

  /** The two settings of a profile's policy made, as a batch leaves them. */
  ghost predicate PolicyLeft(s: PolicyState, c: Change, profiles: map<string, ProfilePolicy>) {
    if c.enabled.None? && c.weight.None? then profiles == s.profiles
    else
      && c.id in s.profiles && c.id in profiles
      && profiles == s.profiles[c.id := profiles[c.id]]
      && profiles[c.id].enabled == (if c.enabled.Some? then c.enabled.value else s.profiles[c.id].enabled)
      && (if c.weight.Some? then Means(c.weight.value, profiles[c.id].weight)
          else profiles[c.id].weight == s.profiles[c.id].weight)
  }

  lemma RetunedLeaves(s: PolicyState, c: Change)
    requires c.enabled.Some? || c.weight.Some? ==> c.id in s.profiles
    requires c.weight.Some? ==> IntegralWeight(c.weight.value).Some?
    ensures var r := Retuned(s, c); PolicyLeft(s, c, r.profiles) && r == s.(profiles := r.profiles)
  {
    if c.weight.Some? {
      WeightMeans(c.weight.value);
    }
    hide IntegralWeight, Means;
  }

  lemma NoWhole(number: Number)
    ensures IntegralWeight(number).Some? <==> exists n :: Means(number, n)
  {
    WeightMeans(number);
    if IntegralWeight(number).Some? {
      assert Means(number, IntegralWeight(number).value);
    }
  }

  lemma ChangeExactly(s: PolicyState, c: Change, w: World)
    requires c.enabled.Some? || c.weight.Some? ==> c.id in s.profiles
    requires c.device.Some? ==> DeviceError(c.device.value, w).None?
    requires c.model.Some? ==> ModelError(c.id, c.model.value, w).None?
    ensures var v := ChangeApplied(s, c, w);
      if v.Ok? then Obstacle(s, c).None? && ChangeLeaves(s, c, v.value) else Obstacle(s, c) == Some(v.error)
  {
    hide ChangeApplied, DeviceSet, ModelSet, Full, IntegralWeight, ChoiceMade, DeviceError, ModelError, Means;
    hide PolicyLeft, Retuned;
    AppliedIs(s, c, w);
    if c.weight.Some? {
      NoWhole(c.weight.value);
    }
    if c.weight.None? || IntegralWeight(c.weight.value).Some? {
      RetunedLeaves(s, c);
      var s2 := Retuned(s, c);
      if c.device.Some? {
        DeviceSetMakes(s2, c.id, c.device.value, w);
      }
      var v := if c.device.None? then Ok(s2) else DeviceSet(s2, c.id, c.device.value, w);
      if c.model.Some? && v.Ok? {
        ModelSetMakes(v.value, c.id, c.model.value, w);
      }
    }
  }

  /** The changes made one after the other. */
  ghost predicate Makes(s: PolicyState, changes: seq<Change>, r: PolicyState)
    decreases |changes|
  {
    if changes == [] then r == s
    else exists mid :: ChangeLeaves(s, changes[0], mid) && Makes(mid, changes[1..], r)
  }

  /** The changes made up to one that meets an obstacle. */
  ghost predicate StopsAt(s: PolicyState, changes: seq<Change>, why: Refusal)
    decreases |changes|
  {
    changes != [] &&
    (Obstacle(s, changes[0]) == Some(why) ||
     (Obstacle(s, changes[0]).None? && exists mid :: ChangeLeaves(s, changes[0], mid) && StopsAt(mid, changes[1..], why)))
  }

  ghost predicate Checked(changes: seq<Change>, w: World) {
    forall c :: c in changes ==>
      && (c.device.Some? ==> DeviceError(c.device.value, w).None?)
      && (c.model.Some? ==> ModelError(c.id, c.model.value, w).None?)
  }

  lemma {:induction false} AllExactly(s: PolicyState, changes: seq<Change>, w: World)
    requires HasPolicies(s, changes) && Checked(changes, w)
    ensures var v := AllApplied(s, changes, w); if v.Ok? then Makes(s, changes, v.value) else StopsAt(s, changes, v.error)
    decreases |changes|
  {
    hide ChangeApplied, ChangeLeaves, Obstacle, DeviceError, ModelError;
    if changes != [] {
      ChangeExactly(s, changes[0], w);
      var v := ChangeApplied(s, changes[0], w);
      if v.Ok? {
        ChangeKeepsProfiles(s, changes[0], w);
        AllExactly(v.value, changes[1..], w);
      }
    }
  }

  /** Of the changes, the first that breaks a rule breaks this one. */
  ghost predicate FirstBreaks(s: PolicyState, changes: seq<Change>, w: World, why: Refusal) {
    exists i :: 0 <= i < |changes| && BreaksFirst(s, changes, w, i, why)
  }

  ghost predicate BreaksFirst(s: PolicyState, changes: seq<Change>, w: World, i: nat, why: Refusal)
    requires i < |changes|
  {
    ChangeReason(s, changes[i], w) == Some(why) && forall j :: 0 <= j < i ==> ChangeReason(s, changes[j], w).None?
  }

  lemma {:induction false} FirstReason(s: PolicyState, changes: seq<Change>, w: World)
    requires BatchError(s, changes, w).Some?
    ensures FirstBreaks(s, changes, w, BatchError(s, changes, w).value)
  {
    hide ChangeError, ChangeReason;
    var why := BatchError(s, changes, w).value;
    CheckedReason(s, changes[0], w);
    if ChangeError(s, changes[0], w).None? {
      FirstReason(s, changes[1..], w);
      var i :| 0 <= i < |changes[1..]| && BreaksFirst(s, changes[1..], w, i, why);
      assert forall j :: 0 < j < i + 1 ==> changes[j] == changes[1..][j - 1];
      assert BreaksFirst(s, changes, w, i + 1, why);
    } else {
      assert BreaksFirst(s, changes, w, 0, why);
    }
  }

  lemma CheckedBatch(s: PolicyState, changes: seq<Change>, w: World)
    requires BatchError(s, changes, w).None?
    ensures (forall c :: c in changes ==> ChangeReason(s, c, w).None?) && HasPolicies(s, changes) && Checked(changes, w)
  {
    forall c | c in changes ensures ChangeReason(s, c, w).None? {
      CheckedReason(s, c, w);
    }
    hide BatchError, KnownTo;
  }

  /**
   A batch checks every change against the policy it found before it makes any. It is accepted when none breaks a rule
   and, made one after the other, none meets an obstacle; and refused for the first rule broken, or the obstacle met.
   */
  lemma BatchDoes(s: PolicyState, changes: seq<Change>, w: World)
    ensures var v := Executed(s, ApplyProfiles(changes), w);
      if v.Ok? then (forall c :: c in changes ==> ChangeReason(s, c, w).None?) && Makes(s, changes, v.value)
      else FirstBreaks(s, changes, w, v.error) ||
           ((forall c :: c in changes ==> ChangeReason(s, c, w).None?) && StopsAt(s, changes, v.error))
  {
    hide ChangeReason, AllApplied, Makes, StopsAt;
    if BatchError(s, changes, w).Some? {
      FirstReason(s, changes, w);
    } else {
      CheckedBatch(s, changes, w);
      AllExactly(s, changes, w);
    }
    hide BatchError;
  }
}
