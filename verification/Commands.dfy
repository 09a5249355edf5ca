/** What one control command of src/omnitensor/control.py does to a policy, and when a batch is its settings one by one. */
module Commands {
  import opened Policy
  import opened Prelude

  /** A weight as JSON carries it: Draft 2020-12 counts 2.0 as an integer, and true is not one. */
  datatype Number = Integer(n: int) | Float(r: real) | Truth(b: bool)

  function IntegralWeight(value: Number): Option<int> {
    match value
    case Integer(n) => Some(n)
    case Float(r) => if r == r.Floor as real then Some(r.Floor) else None
    case Truth(_) => None
  }

  datatype Change = Change(
    id: string,
    enabled: Option<bool>,
    weight: Option<Number>,
    device: Option<Option<string>>,
    model: Option<Option<string>>)

  datatype Operation =
    | SetPaused(value: bool)
    | SetEnabled(id: string, enabled: bool)
    | SetWeight(id: string, weight: Number)
    | SetDevice(id: string, device: Option<string>)
    | SetModel(id: string, model: Option<string>)
    | SetConfiguration(id: string, configuration: Json)
    | ApplyProfiles(changes: seq<Change>)

  /** What the running system answers while a command is decided; `configurable` if it holds settings at all. */
  datatype World = World(governs: string -> bool, gpus: set<string>, models: string -> set<string>, configurable: bool)

  datatype Refusal =
    | RevisionMismatch
    | UnknownProfile
    | BadWeight
    | GpuUnavailable
    | ModelUndeclared
    | TooManyChoices
    | EmptyChange
    | PolicyUnavailable
    | ConfigurationUnavailable
    | ConfigurationRefused
    | NotPersisted

  type Verdict = Result<PolicyState, Refusal>

  predicate Known(s: PolicyState, id: string, w: World) {
    id in s.profiles || id in s.devices || id in s.models || w.governs(id)
  }

  function DeviceError(device: Option<string>, w: World): Option<Refusal> {
    if device.Some? && device.value !in w.gpus then Some(GpuUnavailable) else None
  }

  function ModelError(id: string, model: Option<string>, w: World): Option<Refusal> {
    if model.Some? && model.value !in w.models(id) then Some(ModelUndeclared) else None
  }

  /** One choice set or cleared; a new one only while there is room. */
  function Chosen(choices: map<string, string>, id: string, value: Option<string>): Result<map<string, string>, Refusal> {
    if value.None? then Ok(choices - {id})
    else if id !in choices && |choices| >= MAX_CHOICES then Err(TooManyChoices)
    else Ok(choices[id := value.value])
  }

  function DeviceSet(s: PolicyState, id: string, device: Option<string>, w: World): Verdict {
    if DeviceError(device, w).Some? then Err(DeviceError(device, w).value)
    else match Chosen(s.devices, id, device)
      case Ok(devices) => Ok(s.(devices := devices))
      case Err(e) => Err(e)
  }

  function ModelSet(s: PolicyState, id: string, model: Option<string>, w: World): Verdict {
    if ModelError(id, model, w).Some? then Err(ModelError(id, model, w).value)
    else match Chosen(s.models, id, model)
      case Ok(models) => Ok(s.(models := models))
      case Err(e) => Err(e)
  }

  /** `_execute` on a copy of the policy; the revision is not its business. */
  function Executed(s: PolicyState, op: Operation, w: World): Verdict {
    match op
    case SetPaused(value) => Ok(s.(paused := value))
    case SetConfiguration(_, _) => Ok(s)
    case ApplyProfiles(changes) => Batch(s, changes, w)
    case SetDevice(id, device) => if Known(s, id, w) then DeviceSet(s, id, device, w) else Err(UnknownProfile)
    case SetModel(id, model) => if Known(s, id, w) then ModelSet(s, id, model, w) else Err(UnknownProfile)
    case SetEnabled(id, enabled) =>
      if id in s.profiles then Ok(s.(profiles := s.profiles[id := s.profiles[id].(enabled := enabled)]))
      else Err(UnknownProfile)
    case SetWeight(id, weight) =>
      if id !in s.profiles then Err(UnknownProfile)
      else
        var n := IntegralWeight(weight);
        if n.None? || !WeightOk(n.value) then Err(BadWeight)
        else Ok(s.(profiles := s.profiles[id := s.profiles[id].(weight := n.value)]))
  }

  predicate SetsSomething(c: Change) { c.enabled.Some? || c.weight.Some? || c.device.Some? || c.model.Some? }

  function ChangeError(s: PolicyState, c: Change, w: World): Option<Refusal> {
    if !Known(s, c.id, w) then Some(UnknownProfile)
    else if !SetsSomething(c) then Some(EmptyChange)
    else if (c.enabled.Some? || c.weight.Some?) && c.id !in s.profiles then Some(PolicyUnavailable)
    else if c.device.Some? && DeviceError(c.device.value, w).Some? then DeviceError(c.device.value, w)
    else if c.model.Some? then ModelError(c.id, c.model.value, w)
    else None
  }

  function BatchError(s: PolicyState, changes: seq<Change>, w: World): (e: Option<Refusal>)
    ensures e.None? <==> forall c :: c in changes ==> ChangeError(s, c, w).None?
  {
    if changes == [] then None
    else if ChangeError(s, changes[0], w).Some? then ChangeError(s, changes[0], w)
    else BatchError(s, changes[1..], w)
  }

  function ChangeApplied(s: PolicyState, c: Change, w: World): Verdict
    requires c.enabled.Some? || c.weight.Some? ==> c.id in s.profiles
  {
    var s1 := if c.enabled.None? then s
      else s.(profiles := s.profiles[c.id := s.profiles[c.id].(enabled := c.enabled.value)]);
    if c.weight.Some? && IntegralWeight(c.weight.value).None? then Err(BadWeight)
    else
      var s2 := if c.weight.None? then s1
        else s1.(profiles := s1.profiles[c.id := s1.profiles[c.id].(weight := IntegralWeight(c.weight.value).value)]);
      var v := if c.device.None? then Ok(s2) else DeviceSet(s2, c.id, c.device.value, w);
      if v.Err? || c.model.None? then v else ModelSet(v.value, c.id, c.model.value, w)
  }

  predicate HasPolicies(s: PolicyState, changes: seq<Change>) {
    forall c :: c in changes && (c.enabled.Some? || c.weight.Some?) ==> c.id in s.profiles
  }

  function AllApplied(s: PolicyState, changes: seq<Change>, w: World): Verdict
    requires HasPolicies(s, changes)
    decreases |changes|
  {
    if changes == [] then Ok(s)
    else
      var v := ChangeApplied(s, changes[0], w);
      if v.Err? then v
      else
        ChangeKeepsProfiles(s, changes[0], w);
        AllApplied(v.value, changes[1..], w)
  }

  lemma ChangeKeepsProfiles(s: PolicyState, c: Change, w: World)
    requires (c.enabled.Some? || c.weight.Some? ==> c.id in s.profiles) && ChangeApplied(s, c, w).Ok?
    ensures ChangeApplied(s, c, w).value.profiles.Keys == s.profiles.Keys
  {
    hide Chosen;
  }

  /** Every change checked before any is made. */
  function Batch(s: PolicyState, changes: seq<Change>, w: World): Verdict {
    var e := BatchError(s, changes, w);
    if e.Some? then Err(e.value) else AllApplied(s, changes, w)
  }

  // A batch against the same settings sent one at a time.

  function OneIf<T>(o: Option<T>, f: T -> Operation): seq<Operation> {
    if o.Some? then [f(o.value)] else []
  }

  /** The commands that make one change, in the order a batch makes them. */
  function Settings(c: Change): seq<Operation> {
    OneIf(c.enabled, b => SetEnabled(c.id, b)) + OneIf(c.weight, n => SetWeight(c.id, n)) +
    OneIf(c.device, d => SetDevice(c.id, d)) + OneIf(c.model, m => SetModel(c.id, m))
  }

  function AllSettings(changes: seq<Change>): seq<Operation> {
    if changes == [] then [] else Settings(changes[0]) + AllSettings(changes[1..])
  }

  /** Commands executed one after the other, stopping at the first refusal. */
  function Singles(s: PolicyState, ops: seq<Operation>, w: World): Verdict
    decreases |ops|
  {
    if ops == [] then Ok(s)
    else
      var v := Executed(s, ops[0], w);
      if v.Err? then v else Singles(v.value, ops[1..], w)
  }

  lemma {:induction false} SinglesSplit(s: PolicyState, first: seq<Operation>, second: seq<Operation>, w: World)
    ensures Singles(s, first + second, w) ==
      var v := Singles(s, first, w); if v.Err? then v else Singles(v.value, second, w)
    decreases |first|
  {
    hide Executed;
    if first == [] {
      assert first + second == second;
    } else {
      assert (first + second)[1..] == first[1..] + second;
      var v := Executed(s, first[0], w);
      if v.Ok? {
        SinglesSplit(v.value, first[1..], second, w);
      }
    }
  }

  lemma SingleOne(s: PolicyState, op: Operation, w: World)
    ensures Singles(s, [op], w) == Executed(s, op, w)
  {
    hide Executed;
  }

  /** A setting makes no profile known that was not, and adds no policy. */
  ghost predicate NoNewer(s: PolicyState, later: PolicyState, w: World) {
    && later.profiles.Keys == s.profiles.Keys
    && forall id :: Known(later, id, w) ==> Known(s, id, w)
  }

  lemma ExecutedNoNewer(s: PolicyState, op: Operation, w: World)
    requires Executed(s, op, w).Ok? && !op.ApplyProfiles?
    ensures NoNewer(s, Executed(s, op, w).value, w)
  {
    hide WeightOk, IntegralWeight, DeviceError, ModelError;
  }

  lemma {:induction false} SinglesNoNewer(s: PolicyState, ops: seq<Operation>, w: World)
    requires Singles(s, ops, w).Ok? && forall op :: op in ops ==> !op.ApplyProfiles?
    ensures NoNewer(s, Singles(s, ops, w).value, w)
    decreases |ops|
  {
    hide Executed, NoNewer;
    if ops == [] {
      SameNoNewer(s, w);
    } else {
      var mid := Executed(s, ops[0], w).value;
      ExecutedNoNewer(s, ops[0], w);
      SinglesNoNewer(mid, ops[1..], w);
      NoNewerTransitive(s, mid, Singles(s, ops, w).value, w);
    }
  }

  lemma SameNoNewer(s: PolicyState, w: World)
    ensures NoNewer(s, s, w)
  {
  }

  lemma NoNewerTransitive(s: PolicyState, mid: PolicyState, later: PolicyState, w: World)
    requires NoNewer(s, mid, w) && NoNewer(mid, later, w)
    ensures NoNewer(s, later, w)
  {
  }

  lemma NeverBatches(c: Change)
    ensures forall op :: op in Settings(c) ==> !op.ApplyProfiles?
  {
  }

  /** The four settings of a change, one by one. */
  lemma SettingsOneByOne(s: PolicyState, c: Change, w: World)
    ensures Singles(s, Settings(c), w) == FourStages(s, c, w)
  {
    var e, n := OneIf(c.enabled, b => SetEnabled(c.id, b)), OneIf(c.weight, n => SetWeight(c.id, n));
    var d, m := OneIf(c.device, d => SetDevice(c.id, d)), OneIf(c.model, m => SetModel(c.id, m));
    assert Settings(c) == e + (n + (d + m));
    StageOne(s, c.enabled, b => SetEnabled(c.id, b), w);
    SinglesSplit(s, e, n + (d + m), w);
    var v1 := Singles(s, e, w);
    if v1.Ok? {
      StageOne(v1.value, c.weight, n => SetWeight(c.id, n), w);
      SinglesSplit(v1.value, n, d + m, w);
      var v2 := Singles(v1.value, n, w);
      if v2.Ok? {
        StageOne(v2.value, c.device, d => SetDevice(c.id, d), w);
        SinglesSplit(v2.value, d, m, w);
        var v3 := Singles(v2.value, d, w);
        if v3.Ok? {
          StageOne(v3.value, c.model, m => SetModel(c.id, m), w);
        }
      }
    }
    hide Executed, Singles, OneIf;
  }

  function Stage<T>(v: Verdict, o: Option<T>, f: T -> Operation, w: World): Verdict {
    if v.Err? || o.None? then v else Executed(v.value, f(o.value), w)
  }

  function FourStages(s: PolicyState, c: Change, w: World): Verdict {
    var v1 := Stage(Ok(s), c.enabled, b => SetEnabled(c.id, b), w);
    var v2 := Stage(v1, c.weight, n => SetWeight(c.id, n), w);
    var v3 := Stage(v2, c.device, d => SetDevice(c.id, d), w);
    Stage(v3, c.model, m => SetModel(c.id, m), w)
  }

  lemma StageOne<T>(s: PolicyState, o: Option<T>, f: T -> Operation, w: World)
    ensures Singles(s, OneIf(o, f), w) == Stage(Ok(s), o, f, w)
  {
    if o.Some? {
      SingleOne(s, f(o.value), w);
    }
    hide Executed;
  }

  /** A change whose settings are all accepted alone passes the batch's check and comes to the same policy. */
  lemma ChangeIsItsSettings(s: PolicyState, c: Change, w: World)
    requires SetsSomething(c) && Singles(s, Settings(c), w).Ok?
    ensures ChangeError(s, c, w).None?
    ensures ChangeApplied(s, c, w) == Singles(s, Settings(c), w)
  {
    SettingsOneByOne(s, c, w);
    StagesAgree(s, c, w);
  }

  lemma StagesAgree(s: PolicyState, c: Change, w: World)
    requires SetsSomething(c) && FourStages(s, c, w).Ok?
    ensures ChangeError(s, c, w).None? && ChangeApplied(s, c, w) == FourStages(s, c, w)
  {
    hide Chosen, WeightOk;
  }

  lemma AcceptedEarlier(s: PolicyState, later: PolicyState, c: Change, w: World)
    requires NoNewer(s, later, w) && ChangeError(later, c, w).None?
    ensures ChangeError(s, c, w).None?
  {
    hide Known;
  }

  lemma {:induction false} ChangesOneByOne(s: PolicyState, mid: PolicyState, changes: seq<Change>, w: World)
    requires NoNewer(s, mid, w) && Singles(mid, AllSettings(changes), w).Ok?
    requires forall c :: c in changes ==> SetsSomething(c)
    ensures forall c :: c in changes ==> ChangeError(s, c, w).None?
    ensures HasPolicies(mid, changes) && AllApplied(mid, changes, w) == Singles(mid, AllSettings(changes), w)
    decreases |changes|
  {
    hide Settings, NoNewer, Executed, ChangeApplied, SetsSomething;
    if changes != [] {
      var c := changes[0];
      SinglesSplit(mid, Settings(c), AllSettings(changes[1..]), w);
      ChangeIsItsSettings(mid, c, w);
      AcceptedEarlier(s, mid, c, w);
      var next := Singles(mid, Settings(c), w).value;
      NeverBatches(c);
      SinglesNoNewer(mid, Settings(c), w);
      NoNewerTransitive(s, mid, next, w);
      ChangesOneByOne(s, next, changes[1..], w);
      PoliciesFollow(mid, next, changes, w);
    }
  }

  lemma PoliciesFollow(mid: PolicyState, next: PolicyState, changes: seq<Change>, w: World)
    requires changes != [] && NoNewer(mid, next, w) && HasPolicies(next, changes[1..])
    requires ChangeError(mid, changes[0], w).None?
    ensures HasPolicies(mid, changes)
    ensures changes[0].enabled.Some? || changes[0].weight.Some? ==> changes[0].id in mid.profiles
  {
    assert changes == [changes[0]] + changes[1..];
    hide Known;
  }

  /**
   If every setting of a batch would be accepted as its own command, in order, the batch is accepted and
   comes to the same profiles and the same device and model choices.
   */
  lemma BatchRefinesSingles(s: PolicyState, changes: seq<Change>, w: World)
    requires forall c :: c in changes ==> SetsSomething(c)
    requires Singles(s, AllSettings(changes), w).Ok?
    ensures Executed(s, ApplyProfiles(changes), w) == Singles(s, AllSettings(changes), w)
  {
    hide Singles, AllSettings, NoNewer, AllApplied, ChangeError, SetsSomething, HasPolicies;
    SameNoNewer(s, w);
    ChangesOneByOne(s, s, changes, w);
  }

  lemma TwoChanges(s: PolicyState, mid: PolicyState, a: Change, b: Change, w: World)
    requires ChangeError(s, a, w).None? && ChangeError(s, b, w).None? && ChangeApplied(s, a, w) == Ok(mid)
    requires b.enabled.None? && b.weight.None?
    ensures Batch(s, [a, b], w) == ChangeApplied(mid, b, w)
  {
    assert [a, b][1..] == [b] && [b][1..] == [];
    ChangeKeepsProfiles(s, a, w);
    hide ChangeError, ChangeApplied;
    assert AllApplied(mid, [b], w) == ChangeApplied(mid, b, w);
  }

  lemma TwoSingles(s: PolicyState, mid: PolicyState, a: Operation, b: Operation, w: World)
    requires Executed(s, a, w) == Ok(mid)
    ensures Singles(s, [a, b], w) == Executed(mid, b, w)
  {
    assert [a, b][1..] == [b];
    SingleOne(mid, b, w);
    hide Executed;
  }

  /**
   Not the other way: a batch checks who is known before it changes anything, so it can clear the only
   device choice a profile is known by and still choose its model; the second command alone is refused.
   */
  lemma BatchAcceptsMore(id: string, gpu: string, model: string)
    ensures var w := World(_ => false, {}, _ => {model}, false);
      var s := PolicyState(false, map[], map[id := gpu], map[], 0);
      var changes := [Change(id, None, None, Some(None), None), Change(id, None, None, None, Some(Some(model)))];
      && Batch(s, changes, w).Ok?
      && Singles(s, AllSettings(changes), w) == Err(UnknownProfile)
  {
    var w := World(_ => false, {}, _ => {model}, false);
    var s := PolicyState(false, map[], map[id := gpu], map[], 0);
    var clear, choose := Change(id, None, None, Some(None), None), Change(id, None, None, None, Some(Some(model)));
    var mid := s.(devices := map[]);
    assert map[id := gpu] - {id} == map[];
    TwoChanges(s, mid, clear, choose, w);
    assert Settings(clear) == [SetDevice(id, None)] && Settings(choose) == [SetModel(id, Some(model))];
    assert [clear, choose][1..] == [choose] && [choose][1..] == [];
    assert AllSettings([choose]) == [SetModel(id, Some(model))];
    assert AllSettings([clear, choose]) == [SetDevice(id, None), SetModel(id, Some(model))];
    TwoSingles(s, mid, SetDevice(id, None), SetModel(id, Some(model)), w);
  }

  // Exactly when the two agree: what a caller can tell from the changes and from who has a choice now.

  predicate WeightInRange(c: Change) {
    c.weight.Some? ==> IntegralWeight(c.weight.value).Some? && WeightOk(IntegralWeight(c.weight.value).value)
  }

  /** Whose choices are set once `choice`, if there is one, has been set or cleared for `id`. */
  function HoldersAfter(holders: set<string>, id: string, choice: Option<Option<string>>): set<string> {
    if choice.None? then holders else if choice.value.None? then holders - {id} else holders + {id}
  }

  /** Who a command may name, as `Known` tells it. */
  datatype Names = Names(profiles: set<string>, devices: set<string>, models: set<string>)

  function NamesOf(s: PolicyState): Names { Names(s.profiles.Keys, s.devices.Keys, s.models.Keys) }

  predicate Named(names: Names, id: string, w: World) {
    id in names.profiles || id in names.devices || id in names.models || w.governs(id)
  }

  function DeviceNamed(names: Names, c: Change): Names {
    names.(devices := HoldersAfter(names.devices, c.id, c.device))
  }

  function ModelNamed(names: Names, c: Change): Names {
    names.(models := HoldersAfter(names.models, c.id, c.model))
  }

  /** Each device and model choice of the change names a profile still known when its turn comes. */
  predicate ChangeStaysKnown(names: Names, c: Change, w: World) {
    && (c.device.Some? ==> Named(names, c.id, w))
    && (c.model.Some? ==> Named(DeviceNamed(names, c), c.id, w))
  }

  /** No change names a profile that has become unknown through an earlier clearing. */
  predicate StaysKnown(names: Names, changes: seq<Change>, w: World)
    decreases |changes|
  {
    changes == [] ||
    (ChangeStaysKnown(names, changes[0], w) &&
     StaysKnown(ModelNamed(DeviceNamed(names, changes[0]), changes[0]), changes[1..], w))
  }

  lemma ChosenHolders(choices: map<string, string>, id: string, value: Option<string>)
    requires Chosen(choices, id, value).Ok?
    ensures Chosen(choices, id, value).value.Keys == HoldersAfter(choices.Keys, id, Some(value))
  {
  }

  lemma ChangeTracks(s: PolicyState, c: Change, w: World)
    requires (c.enabled.Some? || c.weight.Some? ==> c.id in s.profiles) && ChangeApplied(s, c, w).Ok?
    ensures NamesOf(ChangeApplied(s, c, w).value) == ModelNamed(DeviceNamed(NamesOf(s), c), c)
  {
    if c.device.Some? {
      ChosenHolders(s.devices, c.id, c.device.value);
    }
    if c.model.Some? {
      ChosenHolders(s.models, c.id, c.model.value);
    }
    ChangeKeepsProfiles(s, c, w);
    hide Chosen;
  }

  lemma DeviceSetNames(s: PolicyState, id: string, device: Option<string>, w: World)
    requires DeviceSet(s, id, device, w).Ok?
    ensures var later := DeviceSet(s, id, device, w).value;
      later.profiles == s.profiles && later.models == s.models
      && later.devices.Keys == HoldersAfter(s.devices.Keys, id, Some(device))
  {
    ChosenHolders(s.devices, id, device);
    hide Chosen;
  }

  /** A change that can be made, whose profile stays known, can be made setting by setting. */
  lemma StagesFollow(s: PolicyState, c: Change, w: World)
    requires (c.enabled.Some? || c.weight.Some? ==> c.id in s.profiles) && ChangeApplied(s, c, w).Ok?
    requires WeightInRange(c) && ChangeStaysKnown(NamesOf(s), c, w)
    ensures FourStages(s, c, w) == ChangeApplied(s, c, w)
  {
    hide Chosen, WeightOk, IntegralWeight, DeviceSet, ModelSet;
    var v := Stage(Stage(Ok(s), c.enabled, b => SetEnabled(c.id, b), w), c.weight, n => SetWeight(c.id, n), w);
    assert v.Ok? && v.value.devices == s.devices && v.value.models == s.models;
    assert v.value.profiles.Keys == s.profiles.Keys;
    if c.device.Some? {
      assert Known(v.value, c.id, w);
      assert DeviceSet(v.value, c.id, c.device.value, w).Ok?;
      DeviceSetNames(v.value, c.id, c.device.value, w);
    }
    var v3 := Stage(v, c.device, d => SetDevice(c.id, d), w);
    assert v3.Ok? && NamesOf(v3.value) == DeviceNamed(NamesOf(s), c);
    assert c.model.Some? ==> Known(v3.value, c.id, w);
  }

  lemma StagesNeed(s: PolicyState, c: Change, w: World)
    requires FourStages(s, c, w).Ok?
    ensures WeightInRange(c) && ChangeStaysKnown(NamesOf(s), c, w)
  {
    hide Chosen, WeightOk, IntegralWeight, DeviceSet, ModelSet;
    var v := Stage(Stage(Ok(s), c.enabled, b => SetEnabled(c.id, b), w), c.weight, n => SetWeight(c.id, n), w);
    assert v.Ok? && v.value.devices == s.devices && v.value.models == s.models;
    assert v.value.profiles.Keys == s.profiles.Keys;
    if c.device.Some? {
      assert Known(v.value, c.id, w);
      DeviceSetNames(v.value, c.id, c.device.value, w);
    }
    var v3 := Stage(v, c.device, d => SetDevice(c.id, d), w);
    assert v3.Ok? && NamesOf(v3.value) == DeviceNamed(NamesOf(s), c);
    assert c.model.Some? ==> Known(v3.value, c.id, w);
  }

  lemma {:induction false} AppliedOneByOne(s: PolicyState, changes: seq<Change>, w: World)
    requires HasPolicies(s, changes) && AllApplied(s, changes, w).Ok?
    requires (forall c :: c in changes ==> WeightInRange(c)) && StaysKnown(NamesOf(s), changes, w)
    ensures Singles(s, AllSettings(changes), w) == AllApplied(s, changes, w)
    decreases |changes|
  {
    hide Settings, Executed, ChangeApplied, ChangeStaysKnown, WeightInRange, FourStages;
    if changes != [] {
      var c := changes[0];
      StagesFollow(s, c, w);
      SettingsOneByOne(s, c, w);
      SinglesSplit(s, Settings(c), AllSettings(changes[1..]), w);
      ChangeTracks(s, c, w);
      ChangeKeepsProfiles(s, c, w);
      AppliedOneByOne(ChangeApplied(s, c, w).value, changes[1..], w);
    }
  }

  lemma {:induction false} SinglesStayKnown(s: PolicyState, changes: seq<Change>, w: World)
    requires Singles(s, AllSettings(changes), w).Ok? && forall c :: c in changes ==> SetsSomething(c)
    ensures (forall c :: c in changes ==> WeightInRange(c)) && StaysKnown(NamesOf(s), changes, w)
    decreases |changes|
  {
    hide Settings, Executed, ChangeApplied, ChangeStaysKnown, WeightInRange, SetsSomething, FourStages;
    if changes != [] {
      var c := changes[0];
      SinglesSplit(s, Settings(c), AllSettings(changes[1..]), w);
      SettingsOneByOne(s, c, w);
      StagesNeed(s, c, w);
      ChangeIsItsSettings(s, c, w);
      ChangeTracks(s, c, w);
      SinglesStayKnown(ChangeApplied(s, c, w).value, changes[1..], w);
      assert changes == [c] + changes[1..];
    }
  }

  /** The batch is accepted, and so is each of its weights and names when its own turn comes. */
  predicate AcceptedThroughout(s: PolicyState, changes: seq<Change>, w: World) {
    && Batch(s, changes, w).Ok?
    && (forall c :: c in changes ==> WeightInRange(c))
    && StaysKnown(NamesOf(s), changes, w)
  }

  /**
   A batch and its settings one by one, for any state, changes and world: the settings are all accepted and
   no change is empty if and only if the batch is accepted, its weights are in range, and no change names a
   profile that an earlier clearing has made unknown. Both then come to the same policy.
   */
  lemma BatchExactly(s: PolicyState, changes: seq<Change>, w: World)
    ensures AcceptedThroughout(s, changes, w)
      <==> Singles(s, AllSettings(changes), w).Ok? && forall c :: c in changes ==> SetsSomething(c)
    ensures AcceptedThroughout(s, changes, w) ==> Batch(s, changes, w) == Singles(s, AllSettings(changes), w)
  {
    hide Singles, AllSettings, AllApplied, StaysKnown, WeightInRange;
    if Singles(s, AllSettings(changes), w).Ok? && forall c :: c in changes ==> SetsSomething(c) {
      BatchRefinesSingles(s, changes, w);
      SinglesStayKnown(s, changes, w);
    }
    if AcceptedThroughout(s, changes, w) {
      AppliedOneByOne(s, changes, w);
    }
  }

  lemma {:induction false} NamedAnyway(names: Names, changes: seq<Change>, w: World)
    requires forall c :: c in changes ==> c.id in names.profiles || w.governs(c.id)
    ensures StaysKnown(names, changes, w)
    decreases |changes|
  {
    if changes != [] {
      NamedAnyway(ModelNamed(DeviceNamed(names, changes[0]), changes[0]), changes[1..], w);
    }
  }

  /**
   Where every profile named is known by its policy or governed, whatever its choices, every change sets
   something and every weight is in range, a batch is accepted exactly when its settings are, with one result.
   */
  lemma KnownAnywayAgrees(s: PolicyState, changes: seq<Change>, w: World)
    requires forall c :: c in changes ==>
      (c.id in s.profiles || w.governs(c.id)) && SetsSomething(c) && WeightInRange(c)
    ensures Batch(s, changes, w).Ok? <==> Singles(s, AllSettings(changes), w).Ok?
    ensures Batch(s, changes, w).Ok? ==> Batch(s, changes, w) == Singles(s, AllSettings(changes), w)
  {
    hide Batch, Singles, AllSettings, StaysKnown, SetsSomething;
    NamedAnyway(NamesOf(s), changes, w);
    BatchExactly(s, changes, w);
  }

  /** A change that sets nothing is refused, by name, whatever else the batch holds; one by one it is no command at all. */
  lemma EmptyChangeRefused(s: PolicyState, changes: seq<Change>, c: Change, w: World)
    requires c in changes && !SetsSomething(c)
    ensures Batch(s, changes, w).Err?
    ensures Settings(c) == []
    ensures Known(s, c.id, w) ==> ChangeError(s, c, w) == Some(EmptyChange)
  {
    assert ChangeError(s, c, w).Some?;
    hide AllApplied;
  }
}
