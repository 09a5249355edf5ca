/** The stored policy of src/omnitensor/state.py: what a document on disk means, and what is written back. */
module Policy {
  import opened Prelude

  const MIN_WEIGHT := 1
  const MAX_WEIGHT := 5
  const MAX_CHOICES := 128

  /** A parsed JSON document. */
  datatype Json =
    | Null
    | Bool(b: bool)
    | Whole(n: int)
    | Fraction(r: real)
    | Text(s: string)
    | List(items: seq<Json>)
    | Object(fields: map<string, Json>)

  datatype ProfilePolicy = ProfilePolicy(enabled: bool, weight: int)

  datatype PolicyState = PolicyState(
    paused: bool,
    profiles: map<string, ProfilePolicy>,
    devices: map<string, string>,
    models: map<string, string>,
    revision: int)

  // The identifier patterns.

  predicate LowAlnum(c: char) { 'a' <= c <= 'z' || '0' <= c <= '9' }

  predicate ProfileIdOk(s: string) {
    1 <= |s| <= 80 && LowAlnum(s[0]) && forall i :: 0 <= i < |s| ==> LowAlnum(s[i]) || s[i] in "._-"
  }

  predicate ModelIdOk(s: string) {
    1 <= |s| <= 64 && LowAlnum(s[0]) && forall i :: 0 <= i < |s| ==> LowAlnum(s[i]) || s[i] == '-'
  }

  const GPU_PREFIX := "gpu-renderD"

  predicate GpuIdOk(s: string) {
    |GPU_PREFIX| < |s| <= |GPU_PREFIX| + 6 && GPU_PREFIX <= s &&
    forall i :: |GPU_PREFIX| <= i < |s| ==> '0' <= s[i] <= '9'
  }

  predicate ChooserOk(s: string) { 1 <= |s| <= 80 }

  // The order choices are kept in when there are too many.

  predicate Less(a: string, b: string) {
    b != [] && (a == [] || a[0] < b[0] || (a[0] == b[0] && Less(a[1..], b[1..])))
  }

  lemma {:induction false} LessIrreflexive(a: string)
    ensures !Less(a, a)
  {
    if a != [] {
      LessIrreflexive(a[1..]);
    }
  }

  lemma {:induction false} LessTotal(a: string, b: string)
    ensures a == b || Less(a, b) || Less(b, a)
    ensures !(Less(a, b) && Less(b, a)) && !Less(a, a)
    decreases |a| + |b|
  {
    if a != [] {
      LessIrreflexive(a);
      if b != [] {
        LessTotal(a[1..], b[1..]);
        assert a == [a[0]] + a[1..] && b == [b[0]] + b[1..];
      }
    }
  }

  lemma {:induction false} LessTransitive(a: string, b: string, c: string)
    requires Less(a, b) && Less(b, c)
    ensures Less(a, c)
    decreases |a|
  {
    if a != [] && a[0] == b[0] == c[0] {
      LessTransitive(a[1..], b[1..], c[1..]);
    }
  }

  ghost predicate IsLeast(keys: set<string>, k: string) {
    k in keys && forall o :: o in keys && o != k ==> Less(k, o)
  }

  lemma {:induction false} SomeLeast(keys: set<string>) returns (least: string)
    requires keys != {}
    ensures IsLeast(keys, least)
    decreases |keys|
  {
    var k :| k in keys;
    if keys == {k} {
      return k;
    }
    var rest := SomeLeast(keys - {k});
    LessTotal(k, rest);
    if Less(rest, k) {
      return rest;
    }
    forall o | o in keys && o != k ensures Less(k, o) {
      if o != rest {
        LessTransitive(k, rest, o);
      }
    }
    return k;
  }

  lemma LeastExists(keys: set<string>)
    requires keys != {}
    ensures exists k :: IsLeast(keys, k)
  {
    var k := SomeLeast(keys);
  }

  ghost function Least(keys: set<string>): (k: string)
    requires keys != {}
    ensures IsLeast(keys, k)
  {
    LeastExists(keys);
    var k :| IsLeast(keys, k);
    k
  }

  lemma LeastBelow(keys: set<string>, k: string, o: string)
    requires IsLeast(keys, k) && o in keys && o != k
    ensures Less(k, o)
  {
  }

  /** The first `n` keys in order. */
  ghost function First(keys: set<string>, n: nat): (r: set<string>)
    ensures r <= keys && |r| <= n
    ensures |keys| <= n ==> r == keys
    ensures |keys| >= n ==> |r| == n
    decreases n
  {
    if n == 0 || keys == {} then {}
    else {Least(keys)} + First(keys - {Least(keys)}, n - 1)
  }

  /** Nothing left out comes before anything kept. */
  lemma {:induction false} FirstAreLeast(keys: set<string>, n: nat, kept: string, cut: string)
    requires kept in First(keys, n) && cut in keys && cut !in First(keys, n)
    ensures Less(kept, cut)
    decreases n
  {
    hide Less, Least, IsLeast;
    var k := Least(keys);
    assert First(keys, n) == {k} + First(keys - {k}, n - 1);
    if kept != k {
      FirstAreLeast(keys - {k}, n - 1, kept, cut);
    } else {
      LeastBelow(keys, k, cut);
    }
  }

  // Loading.

  function FieldsOf(j: Option<Json>): map<string, Json> {
    if j.Some? && j.value.Object? then j.value.fields else map[]
  }

  function Apart(a: int, b: int): nat { if a < b then b - a else a - b }

  /** The weight in range nearest to a stored whole number; anything else stored is no weight. */
  function ClampWeight(value: Option<Json>, fallback: int): (w: int)
    ensures value.Some? && value.value.Whole? ==>
      MIN_WEIGHT <= w <= MAX_WEIGHT &&
      forall k :: MIN_WEIGHT <= k <= MAX_WEIGHT ==> Apart(w, value.value.n) <= Apart(k, value.value.n)
    ensures !(value.Some? && value.value.Whole?) ==> w == fallback
  {
    match value
    case Some(Whole(n)) => if n > MAX_WEIGHT then MAX_WEIGHT else if n < MIN_WEIGHT then MIN_WEIGHT else n
    case _ => fallback
  }

  function EnabledOr(value: Option<Json>, fallback: bool): bool {
    match value
    case Some(Bool(b)) => b
    case _ => fallback
  }

  function SanitizedRevision(value: Option<Json>): (n: int)
    ensures n >= 0
    ensures value == Some(Whole(n)) || (n == 0 && forall k :: value == Some(Whole(k)) ==> k < 0)
  {
    match value
    case Some(Whole(n)) => if n >= 0 then n else 0
    case _ => 0
  }

  /** A stored entry read over what stands in for its missing or malformed parts. */
  function PolicyOf(entry: Option<Json>, fallback: ProfilePolicy): ProfilePolicy {
    var fields := FieldsOf(entry);
    ProfilePolicy(
      EnabledOr(Get(fields, "enabled"), fallback.enabled),
      ClampWeight(Get(fields, "weight"), fallback.weight))
  }

  function Get<V>(m: map<string, V>, k: string): Option<V> {
    if k in m then Some(m[k]) else None
  }

  predicate Adoptable(supplied: map<string, Json>, id: string) {
    id in supplied && supplied[id].Object? && ProfileIdOk(id)
  }

  const ADOPTED := ProfilePolicy(true, MIN_WEIGHT)

  function Overlaid(supplied: map<string, Json>, defaults: map<string, ProfilePolicy>): (r: map<string, ProfilePolicy>)
    ensures r.Keys == defaults.Keys
  {
    map id | id in defaults :: PolicyOf(Get(supplied, id), defaults[id])
  }

  /** Defaults overlaid with what is stored, and stored profiles the defaults do not know. */
  function LoadedProfiles(supplied: map<string, Json>, defaults: map<string, ProfilePolicy>): map<string, ProfilePolicy> {
    (map id | id in supplied && id !in defaults && Adoptable(supplied, id) :: PolicyOf(Some(supplied[id]), ADOPTED)) +
    Overlaid(supplied, defaults)
  }

  datatype Choice = DeviceChoice | ModelChoice

  predicate ChoiceOk(choice: Choice, value: string) {
    if choice.DeviceChoice? then GpuIdOk(value) else ModelIdOk(value)
  }

  function Sanitized(supplied: map<string, Json>, choice: Choice): map<string, string> {
    map id | id in supplied && ChooserOk(id) && supplied[id].Text? && ChoiceOk(choice, supplied[id].s) :: supplied[id].s
  }

  /** `m` restricted to `keys`. */
  function Restricted<V>(m: map<string, V>, keys: set<string>): (r: map<string, V>)
    requires keys <= m.Keys
    ensures r.Keys == keys
    ensures forall k :: k in r ==> r[k] == m[k]
  {
    map k | k in keys :: m[k]
  }

  /** Too many choices are cut to the first ones in order. */
  ghost function Limited(m: map<string, string>): map<string, string> {
    Restricted(m, First(m.Keys, MAX_CHOICES))
  }

  lemma LimitedIs(m: map<string, string>)
    ensures Limited(m).Keys <= m.Keys && |Limited(m).Keys| <= MAX_CHOICES
    ensures |m.Keys| <= MAX_CHOICES ==> Limited(m) == m
    ensures forall k :: k in Limited(m) ==> Limited(m)[k] == m[k]
  {
    hide First, Restricted;
  }

  /** The state a document stands for; one that is missing, unreadable or no object is an empty one. */
  ghost function Loaded(raw: Option<Json>, defaults: map<string, ProfilePolicy>): PolicyState {
    var fields := FieldsOf(raw);
    PolicyState(
      Get(fields, "paused") == Some(Bool(true)),
      LoadedProfiles(FieldsOf(Get(fields, "profiles")), defaults),
      Limited(Sanitized(FieldsOf(Get(fields, "deviceChoices")), DeviceChoice)),
      Limited(Sanitized(FieldsOf(Get(fields, "modelChoices")), ModelChoice)),
      SanitizedRevision(Get(fields, "revision")))
  }

  // Saving.

  function ProfileDocument(p: ProfilePolicy): Json {
    Object(map["enabled" := Bool(p.enabled), "weight" := Whole(p.weight)])
  }

  function ProfilesDocument(profiles: map<string, ProfilePolicy>): Json {
    Object(map id | id in profiles :: ProfileDocument(profiles[id]))
  }

  function ChoicesDocument(choices: map<string, string>): Json {
    Object(map id | id in choices :: Text(choices[id]))
  }

  function Document(s: PolicyState): Json {
    Object(map[
      "paused" := Bool(s.paused),
      "profiles" := ProfilesDocument(s.profiles),
      "deviceChoices" := ChoicesDocument(s.devices),
      "modelChoices" := ChoicesDocument(s.models),
      "revision" := Whole(s.revision)])
  }

  // What survives a restart.

  predicate WeightOk(w: int) { MIN_WEIGHT <= w <= MAX_WEIGHT }

  predicate ProfilesStorable(profiles: map<string, ProfilePolicy>, defaults: map<string, ProfilePolicy>) {
    && defaults.Keys <= profiles.Keys
    && (forall id :: id in profiles ==> (id in defaults || ProfileIdOk(id)) && WeightOk(profiles[id].weight))
  }

  predicate ChoicesStorable(choices: map<string, string>, choice: Choice) {
    && |choices.Keys| <= MAX_CHOICES
    && (forall id :: id in choices ==> ChooserOk(id) && ChoiceOk(choice, choices[id]))
  }

  predicate Storable(s: PolicyState, defaults: map<string, ProfilePolicy>) {
    && ProfilesStorable(s.profiles, defaults)
    && ChoicesStorable(s.devices, DeviceChoice)
    && ChoicesStorable(s.models, ModelChoice)
    && s.revision >= 0
  }

  lemma ProfileReads(p: ProfilePolicy, fallback: ProfilePolicy)
    ensures PolicyOf(Some(ProfileDocument(p)), fallback) == p <==> WeightOk(p.weight)
  {
    var fields := ProfileDocument(p).fields;
    assert Get(fields, "enabled") == Some(Bool(p.enabled)) && Get(fields, "weight") == Some(Whole(p.weight));
  }

  lemma ProfileRestarts(
    profiles: map<string, ProfilePolicy>, defaults: map<string, ProfilePolicy>, id: string)
    requires id in profiles
    ensures var loaded := LoadedProfiles(ProfilesDocument(profiles).fields, defaults);
      id in loaded && loaded[id] == profiles[id] <==>
      (id in defaults || ProfileIdOk(id)) && WeightOk(profiles[id].weight)
  {
    hide ProfileIdOk, PolicyOf;
    ProfileReads(profiles[id], ADOPTED);
    if id in defaults {
      ProfileReads(profiles[id], defaults[id]);
    }
  }

  lemma LoadedKeys(profiles: map<string, ProfilePolicy>, defaults: map<string, ProfilePolicy>)
    ensures var loaded := LoadedProfiles(ProfilesDocument(profiles).fields, defaults);
      loaded.Keys <= profiles.Keys + defaults.Keys && defaults.Keys <= loaded.Keys
  {
    hide ProfileIdOk, PolicyOf, ProfileDocument;
  }

  lemma ProfilesComeBack(profiles: map<string, ProfilePolicy>, defaults: map<string, ProfilePolicy>)
    requires ProfilesStorable(profiles, defaults)
    ensures LoadedProfiles(ProfilesDocument(profiles).fields, defaults) == profiles
  {
    LoadedKeys(profiles, defaults);
    hide ProfileIdOk, LoadedProfiles, WeightOk;
    var loaded := LoadedProfiles(ProfilesDocument(profiles).fields, defaults);
    forall id | id in profiles ensures id in loaded && loaded[id] == profiles[id] {
      ProfileRestarts(profiles, defaults, id);
    }
    hide ProfilesStorable;
  }

  lemma OnlyStorableComeBack(profiles: map<string, ProfilePolicy>, defaults: map<string, ProfilePolicy>)
    requires LoadedProfiles(ProfilesDocument(profiles).fields, defaults) == profiles
    ensures ProfilesStorable(profiles, defaults)
  {
    LoadedKeys(profiles, defaults);
    hide ProfileIdOk, LoadedProfiles, ProfilesDocument, WeightOk;
    forall id | id in profiles ensures (id in defaults || ProfileIdOk(id)) && WeightOk(profiles[id].weight) {
      ProfileRestarts(profiles, defaults, id);
    }
  }

  lemma ProfilesRestart(profiles: map<string, ProfilePolicy>, defaults: map<string, ProfilePolicy>)
    ensures ProfilesStorable(profiles, defaults) <==>
      LoadedProfiles(ProfilesDocument(profiles).fields, defaults) == profiles
  {
    hide ProfilesStorable, LoadedProfiles;
    if ProfilesStorable(profiles, defaults) {
      ProfilesComeBack(profiles, defaults);
    }
    if LoadedProfiles(ProfilesDocument(profiles).fields, defaults) == profiles {
      OnlyStorableComeBack(profiles, defaults);
    }
  }

  lemma ChoicesRestart(choices: map<string, string>, choice: Choice)
    ensures ChoicesStorable(choices, choice) <==> Limited(Sanitized(ChoicesDocument(choices).fields, choice)) == choices
  {
    hide ChoiceOk, ChooserOk, Limited;
    var read := Sanitized(ChoicesDocument(choices).fields, choice);
    LimitedIs(read);
    assert read.Keys <= choices.Keys;
    if ChoicesStorable(choices, choice) {
      assert read == choices;
    }
    if Limited(read) == choices {
      assert choices.Keys == read.Keys;
    }
  }

  lemma DocumentReads(s: PolicyState)
    ensures var fields := FieldsOf(Some(Document(s)));
      && Get(fields, "paused") == Some(Bool(s.paused))
      && Get(fields, "profiles") == Some(ProfilesDocument(s.profiles))
      && Get(fields, "deviceChoices") == Some(ChoicesDocument(s.devices))
      && Get(fields, "modelChoices") == Some(ChoicesDocument(s.models))
      && Get(fields, "revision") == Some(Whole(s.revision))
  {
    hide ProfilesDocument, ChoicesDocument;
    var fields := Document(s).fields;
    assert fields["paused"] == Bool(s.paused);
    assert fields["profiles"] == ProfilesDocument(s.profiles);
    assert fields["deviceChoices"] == ChoicesDocument(s.devices);
    assert fields["modelChoices"] == ChoicesDocument(s.models);
    assert fields["revision"] == Whole(s.revision);
  }

  /** Loading what was saved gives the same state exactly for the states whose parts a load would accept. */
  lemma RestartExact(s: PolicyState, defaults: map<string, ProfilePolicy>)
    ensures Loaded(Some(Document(s)), defaults) == s <==> Storable(s, defaults)
  {
    DocumentReads(s);
    ProfilesRestart(s.profiles, defaults);
    ChoicesRestart(s.devices, DeviceChoice);
    ChoicesRestart(s.models, ModelChoice);
    hide ProfilesStorable, ChoicesStorable, LoadedProfiles, Limited, Sanitized, Document, Get;
  }

  // Loading anything at all.

  predicate DefaultsOk(defaults: map<string, ProfilePolicy>) {
    forall id :: id in defaults ==> WeightOk(defaults[id].weight)
  }

  lemma LimitedStorable(supplied: map<string, Json>, choice: Choice)
    ensures ChoicesStorable(Limited(Sanitized(supplied, choice)), choice)
  {
    hide ChooserOk, ChoiceOk, Limited;
    LimitedIs(Sanitized(supplied, choice));
  }

  lemma LoadedStorable(raw: Option<Json>, defaults: map<string, ProfilePolicy>)
    requires DefaultsOk(defaults)
    ensures Storable(Loaded(raw, defaults), defaults)
  {
    var fields := FieldsOf(raw);
    LimitedStorable(FieldsOf(Get(fields, "deviceChoices")), DeviceChoice);
    LimitedStorable(FieldsOf(Get(fields, "modelChoices")), ModelChoice);
    LoadedProfilesStorable(FieldsOf(Get(fields, "profiles")), defaults);
    hide Sanitized, LoadedProfiles, Limited, Get, FieldsOf, ProfilesStorable, ChoicesStorable;
  }

  lemma LoadedProfilesStorable(supplied: map<string, Json>, defaults: map<string, ProfilePolicy>)
    requires DefaultsOk(defaults)
    ensures ProfilesStorable(LoadedProfiles(supplied, defaults), defaults)
  {
    hide ProfileIdOk, Get, EnabledOr, FieldsOf;
  }

  /**
   Load, save and load again gives the first load for every document there is exactly when every default
   weight is a legal one: a default out of range is handed out as it stands, then clamped by the next load.
   */
  lemma SanitizingIsAProjection(defaults: map<string, ProfilePolicy>)
    ensures (forall raw :: Loaded(Some(Document(Loaded(raw, defaults))), defaults) == Loaded(raw, defaults)) <==>
      DefaultsOk(defaults)
  {
    if DefaultsOk(defaults) {
      forall raw ensures Loaded(Some(Document(Loaded(raw, defaults))), defaults) == Loaded(raw, defaults) {
        LoadedStorable(raw, defaults);
        RestartExact(Loaded(raw, defaults), defaults);
      }
    } else {
      var id :| id in defaults && !WeightOk(defaults[id].weight);
      BadDefaultShows(defaults, id);
    }
  }

  lemma BadDefaultShows(defaults: map<string, ProfilePolicy>, id: string)
    requires id in defaults && !WeightOk(defaults[id].weight)
    ensures Loaded(Some(Document(Loaded(None, defaults))), defaults) != Loaded(None, defaults)
  {
    var s := Loaded(None, defaults);
    assert s.profiles[id] == PolicyOf(None, defaults[id]) == defaults[id];
    hide ProfileIdOk, Loaded;
    RestartExact(s, defaults);
  }

  lemma AdoptedAll(known: map<string, ProfilePolicy>, supplied: map<string, Json>,
                   defaults: map<string, ProfilePolicy>, profiles: map<string, ProfilePolicy>)
    requires known == Overlaid(supplied, defaults) && known.Keys <= profiles.Keys
    requires forall id :: id in known ==> profiles[id] == known[id]
    requires forall id :: id in profiles && id !in known ==>
      Adoptable(supplied, id) && profiles[id] == PolicyOf(Some(supplied[id]), ADOPTED)
    requires forall id :: Adoptable(supplied, id) ==> id in profiles
    ensures profiles == LoadedProfiles(supplied, defaults)
  {
    hide ProfileIdOk, PolicyOf, Overlaid;
  }

  /** The file and the catalog's defaults. */
  class PolicyStore {
    const defaults: map<string, ProfilePolicy>
    var disk: Option<Json>

    constructor (defaults: map<string, ProfilePolicy>, disk: Option<Json>)
      ensures this.defaults == defaults && this.disk == disk
    {
      this.defaults, this.disk := defaults, disk;
    }

    method ReadDefaults(supplied: map<string, Json>) returns (profiles: map<string, ProfilePolicy>)
      ensures profiles == Overlaid(supplied, defaults)
    {
      hide PolicyOf, Get;
      profiles := map[];
      var todo := defaults.Keys;
      while todo != {}
        invariant profiles.Keys !! todo && profiles.Keys + todo == defaults.Keys
        invariant forall id :: id in profiles ==> profiles[id] == PolicyOf(Get(supplied, id), defaults[id])
        decreases |todo|
      {
        var id :| id in todo;
        todo := todo - {id};
        profiles := profiles[id := PolicyOf(Get(supplied, id), defaults[id])];
      }
    }

    /** Stored profiles the defaults do not know, kept in place beside them. */
    method AdoptStored(known: map<string, ProfilePolicy>, supplied: map<string, Json>)
      returns (profiles: map<string, ProfilePolicy>)
      requires known == Overlaid(supplied, defaults)
      ensures profiles == LoadedProfiles(supplied, defaults)
    {
      hide ProfileIdOk, PolicyOf, Overlaid;
      profiles := known;
      var todo := supplied.Keys;
      while todo != {}
        invariant todo <= supplied.Keys && known.Keys <= profiles.Keys
        invariant forall id :: id in known ==> profiles[id] == known[id]
        invariant forall id :: id in profiles && id !in known ==>
          Adoptable(supplied, id) && profiles[id] == PolicyOf(Some(supplied[id]), ADOPTED)
        invariant forall id :: Adoptable(supplied, id) && id !in todo ==> id in profiles
        decreases |todo|
      {
        var id :| id in todo;
        todo := todo - {id};
        if id !in profiles && Adoptable(supplied, id) {
          profiles := profiles[id := PolicyOf(Some(supplied[id]), ADOPTED)];
        }
      }
      AdoptedAll(known, supplied, defaults, profiles);
      hide LoadedProfiles, Adoptable;
    }

    /** The first choices in order, up to the bound. */
    method Limit(choices: map<string, string>) returns (kept: map<string, string>)
      ensures kept == Limited(choices)
    {
      hide Less, Least, IsLeast, First, Restricted;
      var taken: set<string> := {};
      var rest, room := choices.Keys, MAX_CHOICES;
      while room > 0 && rest != {}
        invariant 0 <= room && taken <= choices.Keys && rest <= choices.Keys
        invariant First(choices.Keys, MAX_CHOICES) == taken + First(rest, room)
        decreases room
      {
        var k := Leftmost(rest);
        FirstOne(rest, room, k);
        taken := taken + {k};
        rest, room := rest - {k}, room - 1;
      }
      FirstOfNothing(rest, room);
      kept := Restricted(choices, taken);
    }

    method Leftmost(keys: set<string>) returns (k: string)
      requires keys != {}
      ensures k in keys && IsLeast(keys, k)
    {
      hide Less;
      LeastExists(keys);
      k :| k in keys && forall o :: o in keys && o != k ==> Less(k, o);
    }

    method Load() returns (state: PolicyState)
      ensures state == Loaded(disk, defaults)
    {
      hide First, LoadedProfiles, ChooserOk, ChoiceOk;
      var fields := FieldsOf(disk);
      var supplied := FieldsOf(Get(fields, "profiles"));
      var known := ReadDefaults(supplied);
      var profiles := AdoptStored(known, supplied);
      var devices := Limit(Sanitized(FieldsOf(Get(fields, "deviceChoices")), DeviceChoice));
      var models := Limit(Sanitized(FieldsOf(Get(fields, "modelChoices")), ModelChoice));
      state := PolicyState(Get(fields, "paused") == Some(Bool(true)), profiles, devices, models,
        SanitizedRevision(Get(fields, "revision")));
    }

    /** The atomic write: the whole document is replaced, or an error leaves the file as it was. */
    method Save(state: PolicyState, succeeds: bool)
      modifies this
      ensures disk == if succeeds then Some(Document(state)) else old(disk)
      ensures succeeds && Storable(state, defaults) ==> Loaded(disk, defaults) == state
    {
      if succeeds {
        disk := Some(Document(state));
        RestartExact(state, defaults);
      }
    }
  }

  lemma OneLeast(keys: set<string>, k: string)
    requires IsLeast(keys, k)
    ensures keys != {} && Least(keys) == k
  {
    LessTotal(Least(keys), k);
  }

  lemma FirstOne(keys: set<string>, n: nat, k: string)
    requires IsLeast(keys, k) && n > 0
    ensures First(keys, n) == {k} + First(keys - {k}, n - 1)
  {
    OneLeast(keys, k);
  }

  lemma FirstOfNothing(keys: set<string>, n: nat)
    requires n == 0 || keys == {}
    ensures First(keys, n) == {}
  {
  }
}
