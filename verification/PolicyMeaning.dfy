/**
 What a stored policy document means, entry by entry, in the words of the document format and with none of the
 loader's own operations named.
 */
module PolicyMeaning {
  import opened Policy
  import opened Prelude

  /** The value under a key of an object; nothing under a missing key or in anything but an object. */
  function Under(j: Option<Json>, key: string): Option<Json> {
    match j
    case Some(Object(fields)) => if key in fields then Some(fields[key]) else None
    case _ => None
  }

  /** Lower-case letters and digits, with these marks allowed after the first character. */
  predicate Identifier(s: string, marks: string, longest: nat) {
    && 1 <= |s| <= longest
    && (forall i :: 0 <= i < |s| ==> 'a' <= s[i] <= 'z' || '0' <= s[i] <= '9' || (i > 0 && s[i] in marks))
  }

  predicate RenderNode(s: string) {
    12 <= |s| <= 17 && s[..11] == "gpu-renderD" && forall i :: 11 <= i < |s| ==> '0' <= s[i] <= '9'
  }

  lemma IdentifiersAgree(s: string)
    ensures ProfileIdOk(s) <==> Identifier(s, "._-", 80)
    ensures ModelIdOk(s) <==> Identifier(s, "-", 64)
    ensures GpuIdOk(s) <==> RenderNode(s)
  {
    assert |GPU_PREFIX| == 11;
    if |s| >= 11 {
      assert GPU_PREFIX <= s <==> s[..11] == GPU_PREFIX;
    }
  }

  /** The nearest of the five weights. */
  predicate Nearest(w: int, n: int) {
    (1 <= n <= 5 ==> w == n) && (n < 1 ==> w == 1) && (n > 5 ==> w == 5)
  }

  /** What an entry says, with these for what it does not say or says wrongly. */
  ghost predicate Reads(p: ProfilePolicy, entry: Option<Json>, enabled: bool, weight: int) {
    && (forall b :: Under(entry, "enabled") == Some(Bool(b)) ==> p.enabled == b)
    && ((forall b :: Under(entry, "enabled") != Some(Bool(b))) ==> p.enabled == enabled)
    && (forall n :: Under(entry, "weight") == Some(Whole(n)) ==> Nearest(p.weight, n))
    && ((forall n :: Under(entry, "weight") != Some(Whole(n))) ==> p.weight == weight)
  }

  lemma EntryRead(entry: Option<Json>, fallback: ProfilePolicy)
    ensures Reads(PolicyOf(entry, fallback), entry, fallback.enabled, fallback.weight)
  {
    var fields := FieldsOf(entry);
    assert Get(fields, "enabled") == Under(entry, "enabled") && Get(fields, "weight") == Under(entry, "weight");
  }

  /** Profiles loaded: every default, and every stored entry that is an object under a well-formed name. */
  ghost predicate ProfilesLoaded(loaded: map<string, ProfilePolicy>, stored: Option<Json>,
                                 defaults: map<string, ProfilePolicy>) {
    && (forall id :: id in loaded <==> id in defaults || Stored(stored, id))
    && (forall id :: id in defaults ==>
          id in loaded && Reads(loaded[id], Under(stored, id), defaults[id].enabled, defaults[id].weight))
    && (forall id :: id in loaded && id !in defaults ==> Reads(loaded[id], Under(stored, id), true, 1))
  }

  predicate Stored(stored: Option<Json>, id: string) {
    Under(stored, id).Some? && Under(stored, id).value.Object? && Identifier(id, "._-", 80)
  }

  lemma OneDefaultLoaded(stored: Option<Json>, defaults: map<string, ProfilePolicy>, id: string)
    requires id in defaults
    ensures var loaded := LoadedProfiles(FieldsOf(stored), defaults);
      id in loaded && Reads(loaded[id], Under(stored, id), defaults[id].enabled, defaults[id].weight)
  {
    hide PolicyOf, Reads, ProfileIdOk;
    EntryRead(Get(FieldsOf(stored), id), defaults[id]);
  }

  lemma OneStoredLoaded(stored: Option<Json>, defaults: map<string, ProfilePolicy>, id: string)
    requires id !in defaults
    ensures var loaded := LoadedProfiles(FieldsOf(stored), defaults);
      (id in loaded <==> Stored(stored, id)) && (id in loaded ==> Reads(loaded[id], Under(stored, id), true, 1))
  {
    hide PolicyOf, Reads, ProfileIdOk, Identifier;
    IdentifiersAgree(id);
    EntryRead(Get(FieldsOf(stored), id), ADOPTED);
  }

  lemma ProfilesExactly(stored: Option<Json>, defaults: map<string, ProfilePolicy>)
    ensures ProfilesLoaded(LoadedProfiles(FieldsOf(stored), defaults), stored, defaults)
  {
    var loaded := LoadedProfiles(FieldsOf(stored), defaults);
    hide LoadedProfiles, Reads, FieldsOf, Stored;
    forall id ensures id in loaded <==> id in defaults || Stored(stored, id) {
      if id in defaults {
        OneDefaultLoaded(stored, defaults, id);
      } else {
        OneStoredLoaded(stored, defaults, id);
      }
    }
    forall id | id in defaults
      ensures id in loaded && Reads(loaded[id], Under(stored, id), defaults[id].enabled, defaults[id].weight)
    {
      OneDefaultLoaded(stored, defaults, id);
    }
    forall id | id in loaded && id !in defaults ensures Reads(loaded[id], Under(stored, id), true, 1) {
      OneStoredLoaded(stored, defaults, id);
    }
  }

  /** A stored choice: text of the right form under a name of at most eighty characters. */
  ghost predicate ChoiceStored(stored: Option<Json>, devices: bool, id: string) {
    && 1 <= |id| <= 80 && Under(stored, id).Some? && Under(stored, id).value.Text?
    && if devices then RenderNode(Under(stored, id).value.s) else Identifier(Under(stored, id).value.s, "-", 64)
  }

  /** Choices loaded are stored ones, at most 128 of them, and one left out comes after 128 that are not. */
  ghost predicate ChoicesLoaded(loaded: map<string, string>, stored: Option<Json>, devices: bool) {
    && (forall id :: id in loaded ==> ChoiceStored(stored, devices, id) && Under(stored, id) == Some(Text(loaded[id])))
    && |loaded.Keys| <= 128
    && (forall id :: ChoiceStored(stored, devices, id) && id !in loaded ==>
          |loaded.Keys| == 128 && forall kept :: kept in loaded ==> Precedes(kept, id))
  }

  /** Dictionary order: a proper prefix, or smaller at the first place where they differ. */
  ghost predicate Precedes(a: string, b: string) {
    exists n: nat :: n <= |a| && n <= |b| && a[..n] == b[..n] && SmallerAt(a, b, n)
  }

  predicate SmallerAt(a: string, b: string, n: nat)
    requires n <= |a| && n <= |b|
  {
    n < |b| && (n == |a| || a[n] < b[n])
  }

  lemma {:induction false} LessPrecedes(a: string, b: string)
    requires Less(a, b)
    ensures Precedes(a, b)
  {
    if a == [] || a[0] < b[0] {
      assert SmallerAt(a, b, 0) && a[..0] == b[..0];
    } else {
      LessPrecedes(a[1..], b[1..]);
      var n: nat :| n <= |a[1..]| && n <= |b[1..]| && a[1..][..n] == b[1..][..n] && SmallerAt(a[1..], b[1..], n);
      assert a[..n + 1] == [a[0]] + a[1..][..n] && b[..n + 1] == [b[0]] + b[1..][..n];
      assert SmallerAt(a, b, n + 1);
    }
  }

  lemma ChoiceSanitized(stored: Option<Json>, choice: Choice, id: string)
    ensures var read := Sanitized(FieldsOf(stored), choice);
      && (id in read <==> ChoiceStored(stored, choice.DeviceChoice?, id))
      && (id in read ==> Under(stored, id) == Some(Text(read[id])))
  {
    if Under(stored, id).Some? && Under(stored, id).value.Text? {
      IdentifiersAgree(Under(stored, id).value.s);
    }
    hide GpuIdOk, ModelIdOk, RenderNode, Identifier;
  }

  lemma CutComesAfter(m: map<string, string>, kept: string, cut: string)
    requires kept in Limited(m) && cut in m && cut !in Limited(m)
    ensures Precedes(kept, cut) && |Limited(m).Keys| == 128
  {
    FirstAreLeast(m.Keys, MAX_CHOICES, kept, cut);
    LessPrecedes(kept, cut);
    LimitedFull(m);
    hide Less, Precedes, First, Limited;
  }

  lemma LimitedFull(m: map<string, string>)
    ensures |Limited(m).Keys| <= 128
    ensures Limited(m) != m ==> |Limited(m).Keys| == 128
    ensures forall k :: k in Limited(m) ==> k in m && Limited(m)[k] == m[k]
  {
    LimitedIs(m);
    hide First;
  }

  lemma ChoicesExactly(stored: Option<Json>, choice: Choice)
    ensures ChoicesLoaded(Limited(Sanitized(FieldsOf(stored), choice)), stored, choice.DeviceChoice?)
  {
    var read := Sanitized(FieldsOf(stored), choice);
    var loaded := Limited(read);
    LimitedFull(read);
    hide Sanitized, Limited, ChoiceStored, Precedes, FieldsOf, Under;
    forall id | id in loaded
      ensures ChoiceStored(stored, choice.DeviceChoice?, id) && Under(stored, id) == Some(Text(loaded[id]))
    {
      ChoiceSanitized(stored, choice, id);
    }
    forall id | ChoiceStored(stored, choice.DeviceChoice?, id) && id !in loaded
      ensures |loaded.Keys| == 128 && forall kept :: kept in loaded ==> Precedes(kept, id)
    {
      ChoiceSanitized(stored, choice, id);
      forall kept | kept in loaded ensures Precedes(kept, id) {
        CutComesAfter(read, kept, id);
      }
    }
  }

  /** Paused only by a true; the revision a whole number not below zero, or zero. */
  ghost predicate FlagsLoaded(s: PolicyState, raw: Option<Json>) {
    && (s.paused <==> Under(raw, "paused") == Some(Bool(true)))
    && (forall n :: Under(raw, "revision") == Some(Whole(n)) && n >= 0 ==> s.revision == n)
    && ((forall n: nat :: Under(raw, "revision") != Some(Whole(n))) ==> s.revision == 0)
  }

  lemma FlagsExactly(raw: Option<Json>, defaults: map<string, ProfilePolicy>)
    ensures FlagsLoaded(Loaded(raw, defaults), raw)
  {
    var fields := FieldsOf(raw);
    assert Get(fields, "revision") == Under(raw, "revision") && Get(fields, "paused") == Under(raw, "paused");
    hide LoadedProfiles, Limited, Sanitized;
  }

  /** What any document, or none, loads as. */
  lemma LoadedExactly(raw: Option<Json>, defaults: map<string, ProfilePolicy>)
    ensures var s := Loaded(raw, defaults);
      && FlagsLoaded(s, raw)
      && ProfilesLoaded(s.profiles, Under(raw, "profiles"), defaults)
      && ChoicesLoaded(s.devices, Under(raw, "deviceChoices"), true)
      && ChoicesLoaded(s.models, Under(raw, "modelChoices"), false)
  {
    var fields := FieldsOf(raw);
    FlagsExactly(raw, defaults);
    ProfilesExactly(Get(fields, "profiles"), defaults);
    ChoicesExactly(Get(fields, "deviceChoices"), DeviceChoice);
    ChoicesExactly(Get(fields, "modelChoices"), ModelChoice);
    assert Get(fields, "profiles") == Under(raw, "profiles");
    assert Get(fields, "deviceChoices") == Under(raw, "deviceChoices");
    assert Get(fields, "modelChoices") == Under(raw, "modelChoices");
    hide FlagsLoaded, ProfilesLoaded, ChoicesLoaded, LoadedProfiles, Limited, Sanitized, Get, Under;
  }
}
