/**
 The GGUF header reader of src/omnitensor/gguf.py. Each reading rule is a function from a position in
 the buffer to a value and the position after it; the cursor class runs the same rules in place.
 */
module Gguf {
  import opened Octets
  import opened Prelude

  const MAGIC: Bytes := [0x47, 0x47, 0x55, 0x46]
  const MAX_KEY_BYTES := 1024
  const MAX_STRING_BYTES := 65536
  const MAX_ENTRIES := 4096
  const MAX_ARRAY_ITEMS := 65536

  const STRING := 8
  const ARRAY := 9

  datatype GgufError =
    EndsInside | NotGguf | UnsupportedVersion | TooManyEntries | StringTooLong | UnsupportedType

  /** What a value becomes once read: integers keep no width, floats stay bit patterns. */
  datatype Value =
    | Int(n: int)
    | Float(bits: Bytes)
    | Bool(b: bool)
    | Str(bytes: Bytes)
    | List(items: seq<Value>)
    | Skipped(kind: nat, count: nat)

  /** A value and where reading stopped, or the refusal. */
  datatype Read<+T> = Read(value: T, end: nat) | Refused(error: GgufError) {
    predicate IsFailure() { Refused? }
    function PropagateFailure<U>(): Read<U>
      requires Refused?
    {
      Refused(error)
    }
    function Extract(): (T, nat)
      requires Read?
    {
      (value, end)
    }
  }

  // Fixed-width values, little-endian.

  function Signed(bytes: Bytes): int {
    var n := Unsigned(bytes);
    if 2 * n >= Pow256(|bytes|) then n - Pow256(|bytes|) else n
  }

  /** Bytes one value of a fixed-width kind takes; 0 when the kind is not fixed-width. */
  function Width(kind: nat): (w: nat) {
    match kind
    case 0 => 1 case 1 => 1 case 7 => 1
    case 2 => 2 case 3 => 2
    case 4 => 4 case 5 => 4 case 6 => 4
    case 10 => 8 case 11 => 8 case 12 => 8
    case _ => 0
  }

  predicate IsSigned(kind: nat) { kind == 1 || kind == 3 || kind == 5 || kind == 11 }

  predicate IsFloat(kind: nat) { kind == 6 || kind == 12 }

  const BOOL := 7

  function Decode(kind: nat, bytes: Bytes): Value {
    if IsFloat(kind) then Float(bytes)
    else if kind == BOOL then Bool(Unsigned(bytes) != 0)
    else if IsSigned(kind) then Int(Signed(bytes))
    else Int(Unsigned(bytes))
  }

  // The reading rules.

  function TakeAt(data: Bytes, at: nat, count: nat): (r: Read<Bytes>)
    requires at <= |data|
    ensures r.Read? ==> r.end == at + count <= |data| && |r.value| == count
    ensures r.Refused? ==> at + count > |data| && r.error == EndsInside
  {
    if at + count > |data| then Refused(EndsInside) else Read(data[at..at + count], at + count)
  }

  function UnsignedAt(data: Bytes, at: nat, size: nat): (r: Read<nat>)
    requires at <= |data|
    ensures r.Read? ==> r.end == at + size <= |data|
  {
    var (bytes, end) :- TakeAt(data, at, size);
    Read(Unsigned(bytes), end)
  }

  function StringAt(data: Bytes, at: nat, limit: nat): (r: Read<Bytes>)
    requires at <= |data|
    ensures r.Read? ==> at + 8 <= r.end <= |data| && |r.value| <= limit
  {
    var (length, start) :- UnsignedAt(data, at, 8);
    if length > limit then Refused(StringTooLong) else TakeAt(data, start, length)
  }

  function FixedAt(data: Bytes, at: nat, kind: nat): (r: Read<Value>)
    requires at <= |data| && Width(kind) > 0
    ensures r.Read? ==> r.end == at + Width(kind) <= |data|
  {
    var (bytes, end) :- TakeAt(data, at, Width(kind));
    Read(Decode(kind, bytes), end)
  }

  function StringsAt(data: Bytes, at: nat, count: nat): (r: Read<seq<Value>>)
    requires at <= |data|
    ensures r.Read? ==> at + 8 * count <= r.end <= |data| && |r.value| == count
    decreases count
  {
    if count == 0 then Read([], at)
    else
      var (first, next) :- StringAt(data, at, MAX_STRING_BYTES);
      var (rest, end) :- StringsAt(data, next, count - 1);
      Read([Str(first)] + rest, end)
  }

  function FixedsAt(data: Bytes, at: nat, kind: nat, count: nat): (r: Read<seq<Value>>)
    requires at <= |data| && Width(kind) > 0
    ensures r.Read? ==> at <= r.end <= |data| && |r.value| == count
    decreases count
  {
    if count == 0 then Read([], at)
    else
      var (first, next) :- FixedAt(data, at, kind);
      var (rest, end) :- FixedsAt(data, next, kind, count - 1);
      Read([first] + rest, end)
  }

  function ArrayAt(data: Bytes, at: nat): (r: Read<Value>)
    requires at <= |data|
    ensures r.Read? ==> at + 12 <= r.end <= |data|
    decreases |data| - at, 0
  {
    var (kind, afterKind) :- UnsignedAt(data, at, 4);
    var (count, start) :- UnsignedAt(data, afterKind, 8);
    if count > MAX_ARRAY_ITEMS then
      var (_, end) :- SkipAt(data, start, kind, count);
      Read(Skipped(kind, count), end)
    else
      var (items, end) :- ElementsAt(data, start, kind, count);
      Read(List(items), end)
  }

  /** Every element of an array, read one by one. */
  function ElementsAt(data: Bytes, at: nat, kind: nat, count: nat): (r: Read<seq<Value>>)
    requires at <= |data|
    ensures r.Read? ==> at <= r.end <= |data| && |r.value| == count
    decreases |data| - at, 2
  {
    if kind == STRING then StringsAt(data, at, count)
    else if kind == ARRAY then ArraysAt(data, at, count)
    else if Width(kind) == 0 then Refused(UnsupportedType)
    else FixedsAt(data, at, kind, count)
  }

  function ArraysAt(data: Bytes, at: nat, count: nat): (r: Read<seq<Value>>)
    requires at <= |data|
    ensures r.Read? ==> at + 12 * count <= r.end <= |data| && |r.value| == count
    decreases |data| - at, 1
  {
    if count == 0 then Read([], at)
    else
      var (first, next) :- ArrayAt(data, at);
      var (rest, end) :- ArraysAt(data, next, count - 1);
      Read([first] + rest, end)
  }

  /** Stepping over an array without holding it. */
  function SkipAt(data: Bytes, at: nat, kind: nat, count: nat): (r: Read<()>)
    requires at <= |data|
    ensures r.Read? ==> at <= r.end <= |data|
    decreases |data| - at, 2
  {
    if kind == STRING then SkipStringsAt(data, at, count)
    else if kind == ARRAY then SkipArraysAt(data, at, count)
    else if Width(kind) == 0 then Refused(UnsupportedType)
    else
      var (_, end) :- TakeAt(data, at, Width(kind) * count);
      Read((), end)
  }

  function SkipStringsAt(data: Bytes, at: nat, count: nat): (r: Read<()>)
    requires at <= |data|
    ensures r.Read? ==> at + 8 * count <= r.end <= |data|
    decreases count
  {
    if count == 0 then Read((), at)
    else
      var (length, start) :- UnsignedAt(data, at, 8);
      var (_, next) :- TakeAt(data, start, length);
      SkipStringsAt(data, next, count - 1)
  }

  function SkipArraysAt(data: Bytes, at: nat, count: nat): (r: Read<()>)
    requires at <= |data|
    ensures r.Read? ==> at + 12 * count <= r.end <= |data|
    decreases |data| - at, 1
  {
    if count == 0 then Read((), at)
    else
      var (_, next) :- ArrayAt(data, at);
      SkipArraysAt(data, next, count - 1)
  }

  function ValueAt(data: Bytes, at: nat): (r: Read<Value>)
    requires at <= |data|
    ensures r.Read? ==> at + 4 < r.end <= |data|
  {
    var (kind, start) :- UnsignedAt(data, at, 4);
    if kind == STRING then
      var (bytes, end) :- StringAt(data, start, MAX_STRING_BYTES);
      Read(Str(bytes), end)
    else if kind == ARRAY then ArrayAt(data, start)
    else if Width(kind) == 0 then Refused(UnsupportedType)
    else FixedAt(data, start, kind)
  }

  /** `count` key/value pairs added to `known`, a later duplicate replacing an earlier one. */
  function EntriesAt(data: Bytes, at: nat, count: nat, known: map<Bytes, Value>): (r: Read<map<Bytes, Value>>)
    requires at <= |data|
    ensures r.Read? ==> at <= r.end <= |data|
    decreases count
  {
    if count == 0 then Read(known, at)
    else
      var (key, start) :- StringAt(data, at, MAX_KEY_BYTES);
      var (value, next) :- ValueAt(data, start);
      EntriesAt(data, next, count - 1, known[key := value])
  }

  /** One more entry after `count` of them: read where they end, its value standing whatever its key had before. */
  lemma {:induction false} LastEntryWins(data: Bytes, at: nat, count: nat, known: map<Bytes, Value>)
    requires at <= |data|
    ensures EntriesAt(data, at, count + 1, known) ==
      var (entries, end) :- EntriesAt(data, at, count, known);
      var (key, start) :- StringAt(data, end, MAX_KEY_BYTES);
      var (value, next) :- ValueAt(data, start);
      Read(entries[key := value], next)
    decreases count
  {
    hide StringAt, ValueAt;
    var key := StringAt(data, at, MAX_KEY_BYTES);
    if count > 0 && key.Read? {
      var value := ValueAt(data, key.end);
      if value.Read? {
        LastEntryWins(data, value.end, count - 1, known[key.value := value.value]);
      }
    }
  }

  function ParseAt(data: Bytes): (r: Read<map<Bytes, Value>>)
    ensures r.Read? ==> 24 <= r.end <= |data|
  {
    var (magic, afterMagic) :- TakeAt(data, 0, 4);
    if magic != MAGIC then Refused(NotGguf)
    else
      var (version, afterVersion) :- UnsignedAt(data, afterMagic, 4);
      if version != 2 && version != 3 then Refused(UnsupportedVersion)
      else
        var (tensors, afterTensors) :- UnsignedAt(data, afterVersion, 8);
        var (entries, start) :- UnsignedAt(data, afterTensors, 8);
        if entries > MAX_ENTRIES then Refused(TooManyEntries)
        else EntriesAt(data, start, entries, map[])
  }

  // Facts about the rules.

  /** Adding items in front of what a rule reads. */
  function Prepend<T>(items: seq<T>, r: Read<seq<T>>): Read<seq<T>> {
    if r.Refused? then r else Read(items + r.value, r.end)
  }

  /** Outcome of a cursor method: the value and the cursor, or the refusal. */
  ghost predicate Agrees<T>(result: Result<T, GgufError>, at: nat, rule: Read<T>) {
    match result
    case Ok(value) => rule == Read(value, at)
    case Err(error) => rule == Refused(error)
  }

  lemma {:induction false} FixedsEnd(data: Bytes, at: nat, kind: nat, count: nat)
    requires at <= |data| && Width(kind) > 0
    ensures FixedsAt(data, at, kind, count).Read? <==> at + Width(kind) * count <= |data|
    ensures FixedsAt(data, at, kind, count).Read? ==>
      FixedsAt(data, at, kind, count).end == at + Width(kind) * count
    decreases count
  {
    if count > 0 {
      assert Width(kind) * count == Width(kind) + Width(kind) * (count - 1);
      if at + Width(kind) <= |data| {
        FixedsEnd(data, at + Width(kind), kind, count - 1);
      }
    }
  }

  lemma {:induction false} SkipStringsAgrees(data: Bytes, at: nat, count: nat)
    requires at <= |data| && StringsAt(data, at, count).Read?
    ensures SkipStringsAt(data, at, count) == Read((), StringsAt(data, at, count).end)
    decreases count
  {
    if count > 0 {
      SkipStringsAgrees(data, StringAt(data, at, MAX_STRING_BYTES).end, count - 1);
    }
  }

  lemma {:induction false} SkipArraysAgrees(data: Bytes, at: nat, count: nat)
    requires at <= |data|
    ensures SkipArraysAt(data, at, count).Read? <==> ArraysAt(data, at, count).Read?
    ensures ArraysAt(data, at, count).Read? ==>
      SkipArraysAt(data, at, count) == Read((), ArraysAt(data, at, count).end)
    decreases count
  {
    if count > 0 && ArrayAt(data, at).Read? {
      SkipArraysAgrees(data, ArrayAt(data, at).end, count - 1);
    }
  }

  /**
   The fast path is the slow path: over arbitrary bytes, where reading every element succeeds, skipping
   succeeds and ends at the same byte. The other way round holds for every kind but strings, whose
   length limit only reading enforces.
   */
  lemma SkipAgrees(data: Bytes, at: nat, kind: nat, count: nat)
    requires at <= |data|
    ensures ElementsAt(data, at, kind, count).Read? ==>
      SkipAt(data, at, kind, count) == Read((), ElementsAt(data, at, kind, count).end)
    ensures kind != STRING && SkipAt(data, at, kind, count).Read? ==> ElementsAt(data, at, kind, count).Read?
  {
    if kind == STRING {
      if StringsAt(data, at, count).Read? {
        SkipStringsAgrees(data, at, count);
      }
    } else if kind == ARRAY {
      SkipArraysAgrees(data, at, count);
    } else if Width(kind) > 0 {
      FixedsEnd(data, at, kind, count);
    }
  }

  /** A cursor over the header that refuses to read past what it was given. */
  class Reader {
    const data: Bytes
    var at: nat

    ghost predicate Valid()
      reads this
    {
      at <= |data|
    }

    constructor (data: Bytes)
      ensures Valid() && this.data == data && at == 0
    {
      this.data := data;
      at := 0;
    }

    method Take(count: nat) returns (r: Result<Bytes, GgufError>)
      requires Valid()
      modifies this
      ensures Valid() && old(at) <= at
      ensures Agrees(r, at, TakeAt(data, old(at), count))
    {
      if at + count > |data| {
        return Err(EndsInside);
      }
      r := Ok(data[at..at + count]);
      at := at + count;
    }

    method Unpack(size: nat) returns (r: Result<nat, GgufError>)
      requires Valid()
      modifies this
      ensures Valid() && old(at) <= at
      ensures Agrees(r, at, UnsignedAt(data, old(at), size))
      ensures r.Ok? ==> at == old(at) + size
    {
      var bytes := Take(size);
      if bytes.Err? {
        return Err(bytes.error);
      }
      return Ok(Unsigned(bytes.value));
    }

    method UnpackFixed(kind: nat) returns (r: Result<Value, GgufError>)
      requires Valid() && Width(kind) > 0
      modifies this
      ensures Valid() && old(at) <= at
      ensures Agrees(r, at, FixedAt(data, old(at), kind))
    {
      var bytes := Take(Width(kind));
      if bytes.Err? {
        return Err(bytes.error);
      }
      return Ok(Decode(kind, bytes.value));
    }

    method String(limit: nat) returns (r: Result<Bytes, GgufError>)
      requires Valid()
      modifies this
      ensures Valid() && old(at) <= at
      ensures Agrees(r, at, StringAt(data, old(at), limit))
    {
      var length := Unpack(8);
      if length.Err? {
        return Err(length.error);
      }
      if length.value > limit {
        return Err(StringTooLong);
      }
      r := Take(length.value);
    }

    method SkipStrings(count: nat) returns (r: Result<(), GgufError>)
      requires Valid()
      modifies this
      ensures Valid() && old(at) <= at
      ensures Agrees(r, at, SkipStringsAt(data, old(at), count))
    {
      for i := 0 to count
        invariant Valid() && old(at) <= at
        invariant SkipStringsAt(data, old(at), count) == SkipStringsAt(data, at, count - i)
      {
        var length := Unpack(8);
        if length.Err? {
          return Err(length.error);
        }
        var taken := Take(length.value);
        if taken.Err? {
          return Err(taken.error);
        }
      }
      return Ok(());
    }

    method SkipArrays(count: nat) returns (r: Result<(), GgufError>)
      requires Valid()
      modifies this
      ensures Valid() && old(at) <= at
      ensures Agrees(r, at, SkipArraysAt(data, old(at), count))
      decreases |data| - at, 1
    {
      for i := 0 to count
        invariant Valid() && old(at) <= at
        invariant SkipArraysAt(data, old(at), count) == SkipArraysAt(data, at, count - i)
      {
        var skipped := Array();
        if skipped.Err? {
          return Err(skipped.error);
        }
      }
      return Ok(());
    }

    method Skip(kind: nat, count: nat) returns (r: Result<(), GgufError>)
      requires Valid()
      modifies this
      ensures Valid() && old(at) <= at
      ensures Agrees(r, at, SkipAt(data, old(at), kind, count))
      decreases |data| - at, 2
    {
      if kind == STRING {
        r := SkipStrings(count);
      } else if kind == ARRAY {
        r := SkipArrays(count);
      } else if Width(kind) == 0 {
        r := Err(UnsupportedType);
      } else {
        var taken := Take(Width(kind) * count);
        if taken.Err? {
          return Err(taken.error);
        }
        r := Ok(());
      }
    }

    method Strings(count: nat) returns (r: Result<seq<Value>, GgufError>)
      requires Valid()
      modifies this
      ensures Valid() && old(at) <= at
      ensures Agrees(r, at, StringsAt(data, old(at), count))
    {
      PrependNone(StringsAt(data, at, count));
      var items: seq<Value> := [];
      for i := 0 to count
        invariant Valid() && old(at) <= at
        invariant StringsAt(data, old(at), count) == Prepend(items, StringsAt(data, at, count - i))
      {
        var item := String(MAX_STRING_BYTES);
        if item.Err? {
          return Err(item.error);
        }
        PrependMore(items, Str(item.value), StringsAt(data, at, count - i - 1));
        items := items + [Str(item.value)];
      }
      assert items + [] == items;
      return Ok(items);
    }

    method Arrays(count: nat) returns (r: Result<seq<Value>, GgufError>)
      requires Valid()
      modifies this
      ensures Valid() && old(at) <= at
      ensures Agrees(r, at, ArraysAt(data, old(at), count))
      decreases |data| - at, 1
    {
      PrependNone(ArraysAt(data, at, count));
      var items: seq<Value> := [];
      for i := 0 to count
        invariant Valid() && old(at) <= at
        invariant ArraysAt(data, old(at), count) == Prepend(items, ArraysAt(data, at, count - i))
      {
        var item := Array();
        if item.Err? {
          return Err(item.error);
        }
        PrependMore(items, item.value, ArraysAt(data, at, count - i - 1));
        items := items + [item.value];
      }
      assert items + [] == items;
      return Ok(items);
    }

    method Fixeds(kind: nat, count: nat) returns (r: Result<seq<Value>, GgufError>)
      requires Valid() && Width(kind) > 0
      modifies this
      ensures Valid() && old(at) <= at
      ensures Agrees(r, at, FixedsAt(data, old(at), kind, count))
    {
      PrependNone(FixedsAt(data, at, kind, count));
      var items: seq<Value> := [];
      for i := 0 to count
        invariant Valid() && old(at) <= at
        invariant FixedsAt(data, old(at), kind, count) == Prepend(items, FixedsAt(data, at, kind, count - i))
      {
        var item := UnpackFixed(kind);
        if item.Err? {
          return Err(item.error);
        }
        PrependMore(items, item.value, FixedsAt(data, at, kind, count - i - 1));
        items := items + [item.value];
      }
      assert items + [] == items;
      return Ok(items);
    }

    method Array() returns (r: Result<Value, GgufError>)
      requires Valid()
      modifies this
      ensures Valid() && old(at) <= at
      ensures Agrees(r, at, ArrayAt(data, old(at)))
      decreases |data| - at, 0
    {
      var kind := Unpack(4);
      if kind.Err? {
        return Err(kind.error);
      }
      var count := Unpack(8);
      if count.Err? {
        return Err(count.error);
      }
      if count.value > MAX_ARRAY_ITEMS {
        var skipped := Skip(kind.value, count.value);
        if skipped.Err? {
          return Err(skipped.error);
        }
        return Ok(Skipped(kind.value, count.value));
      }
      var items: Result<seq<Value>, GgufError>;
      if kind.value == STRING {
        items := Strings(count.value);
      } else if kind.value == ARRAY {
        items := Arrays(count.value);
      } else if Width(kind.value) == 0 {
        return Err(UnsupportedType);
      } else {
        items := Fixeds(kind.value, count.value);
      }
      if items.Err? {
        return Err(items.error);
      }
      return Ok(List(items.value));
    }

    method Value() returns (r: Result<Value, GgufError>)
      requires Valid()
      modifies this
      ensures Valid() && old(at) <= at
      ensures Agrees(r, at, ValueAt(data, old(at)))
    {
      var kind := Unpack(4);
      if kind.Err? {
        return Err(kind.error);
      }
      if kind.value == STRING {
        var bytes := String(MAX_STRING_BYTES);
        if bytes.Err? {
          return Err(bytes.error);
        }
        return Ok(Str(bytes.value));
      }
      if kind.value == ARRAY {
        r := Array();
        return;
      }
      if Width(kind.value) == 0 {
        return Err(UnsupportedType);
      }
      r := UnpackFixed(kind.value);
    }
  }

  lemma PrependNone<T>(r: Read<seq<T>>)
    ensures Prepend([], r) == r
  {
    if r.Read? {
      assert [] + r.value == r.value;
    }
  }

  lemma PrependMore<T>(items: seq<T>, item: T, rest: Read<seq<T>>)
    ensures Prepend(items + [item], rest) ==
      Prepend(items, if rest.Refused? then rest else Read([item] + rest.value, rest.end))
  {
    if rest.Read? {
      assert items + [item] + rest.value == items + ([item] + rest.value);
    }
  }

  /** The whole header: magic, version, two counts, then the key/value pairs. */
  method Parse(header: Bytes) returns (r: Result<map<Bytes, Value>, GgufError>)
    ensures match ParseAt(header)
      case Read(metadata, _) => r == Ok(metadata)
      case Refused(error) => r == Err(error)
  {
    var reader := new Reader(header);
    var magic := reader.Take(4);
    if magic.Err? {
      return Err(magic.error);
    }
    if magic.value != MAGIC {
      return Err(NotGguf);
    }
    var version := reader.Unpack(4);
    if version.Err? {
      return Err(version.error);
    }
    if version.value != 2 && version.value != 3 {
      return Err(UnsupportedVersion);
    }
    var tensors := reader.Unpack(8);
    if tensors.Err? {
      return Err(tensors.error);
    }
    var entries := reader.Unpack(8);
    if entries.Err? {
      return Err(entries.error);
    }
    if entries.value > MAX_ENTRIES {
      return Err(TooManyEntries);
    }
    r := Entries(reader, entries.value);
  }

  method Entries(reader: Reader, count: nat) returns (r: Result<map<Bytes, Value>, GgufError>)
    requires reader.Valid()
    modifies reader
    ensures reader.Valid() && Agrees(r, reader.at, EntriesAt(reader.data, old(reader.at), count, map[]))
  {
    hide StringAt, ValueAt;
    var metadata: map<Bytes, Value> := map[];
    for i := 0 to count
      invariant reader.Valid()
      invariant EntriesAt(reader.data, old(reader.at), count, map[])
        == EntriesAt(reader.data, reader.at, count - i, metadata)
    {
      var key := reader.String(MAX_KEY_BYTES);
      if key.Err? {
        return Err(key.error);
      }
      var value := reader.Value();
      if value.Err? {
        return Err(value.error);
      }
      metadata := metadata[key.value := value.value];
    }
    return Ok(metadata);
  }
}
