/**
 The GGUF layout written the other way round: an encoder for metadata in the format's own terms, and what
 reading an encoding, or any part of one, gives. Kind numbers, widths and signs are those of the GGUF
 specification (ggml, docs/gguf.md, "File Structure"); nothing the encoder uses is taken from the reader.
 */
module GgufFormat {
  import opened Gguf
  import opened Octets

  // The format's vocabulary.

  datatype Kind =
    | UInt8 | Int8 | UInt16 | Int16 | UInt32 | Int32 | Float32 | Flags | Strings | Arrays | UInt64 | Int64 | Float64

  function CodeOf(kind: Kind): (code: nat)
    ensures code <= 12
  {
    match kind
    case UInt8 => 0
    case Int8 => 1
    case UInt16 => 2
    case Int16 => 3
    case UInt32 => 4
    case Int32 => 5
    case Float32 => 6
    case Flags => 7
    case Strings => 8
    case Arrays => 9
    case UInt64 => 10
    case Int64 => 11
    case Float64 => 12
  }

  /** Bytes one value takes; 0 for strings and arrays, whose length is written beside them. */
  function BytesOf(kind: Kind): nat {
    match kind
    case UInt8 => 1
    case Int8 => 1
    case Flags => 1
    case UInt16 => 2
    case Int16 => 2
    case UInt32 => 4
    case Int32 => 4
    case Float32 => 4
    case UInt64 => 8
    case Int64 => 8
    case Float64 => 8
    case Strings => 0
    case Arrays => 0
  }

  /** The integers a kind can hold; none for a kind that holds no integer. */
  predicate Fits(kind: Kind, n: int) {
    match kind
    case UInt8 => 0 <= n < 0x100
    case Int8 => -0x80 <= n < 0x80
    case UInt16 => 0 <= n < 0x1_0000
    case Int16 => -0x8000 <= n < 0x8000
    case UInt32 => 0 <= n < 0x1_0000_0000
    case Int32 => -0x8000_0000 <= n < 0x8000_0000
    case UInt64 => 0 <= n < 0x1_0000_0000_0000_0000
    case Int64 => -0x8000_0000_0000_0000 <= n < 0x8000_0000_0000_0000
    case _ => false
  }

  /** Two's complement: how many different integers the kind holds. */
  function SpanOf(kind: Kind): nat {
    match kind
    case UInt8 => 0x100
    case Int8 => 0x100
    case UInt16 => 0x1_0000
    case Int16 => 0x1_0000
    case UInt32 => 0x1_0000_0000
    case Int32 => 0x1_0000_0000
    case UInt64 => 0x1_0000_0000_0000_0000
    case Int64 => 0x1_0000_0000_0000_0000
    case _ => 0
  }

  /** A metadata value as a writer states it: every scalar with its kind, every array with its element kind. */
  datatype Typed =
    | Scalar(kind: Kind, n: int)
    | Pattern(kind: Kind, bits: Bytes)
    | Flag(byte: Byte)
    | Text(bytes: Bytes)
    | Array(elem: Kind, items: seq<Typed>)

  function KindOf(t: Typed): Kind {
    match t
    case Scalar(kind, _) => kind
    case Pattern(kind, _) => kind
    case Flag(_) => Flags
    case Text(_) => Strings
    case Array(_, _) => Arrays
  }

  /**
   Values a file within the reader's limits can hold: strings of 64 KiB, but for strings of an array of more than
   65536 items, which are stepped over whatever their length.
   */
  ghost predicate Writable(t: Typed, read: bool)
    decreases t, 0
  {
    match t
    case Scalar(kind, n) => Fits(kind, n)
    case Pattern(kind, bits) => (kind == Float32 && |bits| == 4) || (kind == Float64 && |bits| == 8)
    case Flag(_) => true
    case Text(bytes) => |bytes| < MAX_U64 && (read ==> |bytes| <= 65536)
    case Array(elem, items) => |items| < MAX_U64 && AllWritable(items, elem, |items| <= 65536)
  }

  ghost predicate AllWritable(items: seq<Typed>, elem: Kind, read: bool)
    decreases items, 1
  {
    items == [] ||
    (KindOf(items[0]) == elem && Writable(items[0], read) && AllWritable(items[1..], elem, read))
  }

  // Encoding.

  function Payload(t: Typed): Bytes
    decreases t, 0
  {
    match t
    case Scalar(kind, n) => LittleEndian(Wrapped(kind, n), BytesOf(kind))
    case Pattern(_, bits) => bits
    case Flag(byte) => [byte]
    case Text(bytes) => LittleEndian(|bytes|, 8) + bytes
    case Array(elem, items) => LittleEndian(CodeOf(elem), 4) + (LittleEndian(|items|, 8) + Payloads(items))
  }

  /** Two's complement of a number that fits. */
  function Wrapped(kind: Kind, n: int): nat {
    if n >= 0 then n else if n + SpanOf(kind) < 0 then 0 else n + SpanOf(kind)
  }

  function Payloads(items: seq<Typed>): Bytes
    decreases items, 1
  {
    if items == [] then [] else Payload(items[0]) + Payloads(items[1..])
  }

  datatype Entry = Entry(key: Bytes, value: Typed)

  function EncodeEntry(entry: Entry): Bytes {
    (LittleEndian(|entry.key|, 8) + entry.key) + (LittleEndian(CodeOf(KindOf(entry.value)), 4) + Payload(entry.value))
  }

  function EncodeEntries(entries: seq<Entry>): Bytes {
    if entries == [] then [] else EncodeEntry(entries[0]) + EncodeEntries(entries[1..])
  }

  /** The four bytes "GGUF", the version, two counts, and then `body`. */
  function EncodeFrame(version: nat, tensors: nat, count: nat, body: Bytes): Bytes {
    [0x47, 0x47, 0x55, 0x46] + (LittleEndian(version, 4) + (LittleEndian(tensors, 8) + (LittleEndian(count, 8) + body)))
  }

  function EncodeHeader(version: nat, tensors: nat, entries: seq<Entry>): Bytes {
    EncodeFrame(version, tensors, |entries|, EncodeEntries(entries))
  }

  // What reading an encoding should give.

  function Meaning(t: Typed): Value
    decreases t, 0
  {
    match t
    case Scalar(_, n) => Int(n)
    case Pattern(_, bits) => Float(bits)
    case Flag(byte) => Bool(byte != 0)
    case Text(bytes) => Str(bytes)
    case Array(elem, items) =>
      if |items| > 65536 then Skipped(CodeOf(elem), |items|) else List(Meanings(items))
  }

  function Meanings(items: seq<Typed>): (r: seq<Value>)
    ensures |r| == |items|
    decreases items, 1
  {
    if items == [] then [] else [Meaning(items[0])] + Meanings(items[1..])
  }

  /** The dictionary a list of entries stands for: the last value given for a key. */
  function Dictionary(entries: seq<Entry>, known: map<Bytes, Value>): map<Bytes, Value> {
    if entries == [] then known
    else Dictionary(entries[1..], known[entries[0].key := Meaning(entries[0].value)])
  }

  ghost predicate WritableEntries(entries: seq<Entry>) {
    forall k :: 0 <= k < |entries| ==> |entries[k].key| <= 1024 && Writable(entries[k].value, true)
  }

  // The reader knows the same kinds.

  lemma KindsAgree(kind: Kind)
    ensures Width(CodeOf(kind)) == BytesOf(kind)
    ensures CodeOf(kind) == STRING <==> kind == Strings
    ensures CodeOf(kind) == ARRAY <==> kind == Arrays
    ensures CodeOf(kind) == BOOL <==> kind == Flags
    ensures IsFloat(CodeOf(kind)) <==> kind == Float32 || kind == Float64
    ensures IsSigned(CodeOf(kind)) <==> kind == Int8 || kind == Int16 || kind == Int32 || kind == Int64
  {
  }

  // Numbers.

  lemma ScalarRoundTrip(kind: Kind, n: int)
    requires Fits(kind, n)
    ensures BytesOf(kind) > 0 && Decode(CodeOf(kind), Payload(Scalar(kind, n))) == Int(n)
  {
    Powers();
    KindsAgree(kind);
    assert SpanOf(kind) == Pow256(BytesOf(kind));
    hide Pow256;
    UnsignedRoundTrip(Wrapped(kind, n), BytesOf(kind));
    hide LittleEndian, Unsigned;
  }

  // Placement of an encoding inside a buffer.

  /** `bytes` stands at position `at` of `data`. */
  ghost predicate Placed(data: Bytes, at: nat, bytes: Bytes) {
    at + |bytes| <= |data| && data[at..at + |bytes|] == bytes
  }

  lemma PlacedSplit(data: Bytes, at: nat, a: Bytes, b: Bytes)
    requires Placed(data, at, a + b)
    ensures Placed(data, at, a) && Placed(data, at + |a|, b)
  {
    assert data[at..at + |a|] == data[at..at + |a + b|][..|a|];
    assert data[at + |a|..at + |a| + |b|] == data[at..at + |a + b|][|a|..];
  }

  lemma ReadNumber(data: Bytes, at: nat, n: nat, size: nat)
    requires Placed(data, at, LittleEndian(n, size)) && n < Pow256(size)
    ensures UnsignedAt(data, at, size) == Read(n, at + size)
  {
    UnsignedRoundTrip(n, size);
  }

  lemma TakePlaced(data: Bytes, at: nat, bytes: Bytes)
    requires Placed(data, at, bytes)
    ensures at + |bytes| <= |data| && TakeAt(data, at, |bytes|) == Read(bytes, at + |bytes|)
  {
  }

  lemma ReadString(data: Bytes, at: nat, bytes: Bytes, limit: nat)
    requires Placed(data, at, LittleEndian(|bytes|, 8) + bytes) && |bytes| <= limit < MAX_U64
    ensures StringAt(data, at, limit) == Read(bytes, at + 8 + |bytes|)
  {
    hide LittleEndian, UnsignedAt, Pow256, Placed, TakeAt;
    Powers();
    PlacedSplit(data, at, LittleEndian(|bytes|, 8), bytes);
    TakePlaced(data, at + 8, bytes);
    ReadNumber(data, at, |bytes|, 8);
  }

  lemma ReadFixed(data: Bytes, at: nat, t: Typed)
    requires Writable(t, true) && BytesOf(KindOf(t)) > 0 && Placed(data, at, Payload(t))
    ensures Width(CodeOf(KindOf(t))) == BytesOf(KindOf(t)) == |Payload(t)|
    ensures FixedAt(data, at, CodeOf(KindOf(t))) == Read(Meaning(t), at + |Payload(t)|)
  {
    KindsAgree(KindOf(t));
    match t
    case Scalar(kind, n) => ScalarRoundTrip(kind, n);
    case Pattern(kind, bits) =>
    case Flag(byte) => assert Unsigned([byte]) == byte + 256 * Unsigned([]);
  }

  // Reading back what was written, rule by rule.

  lemma {:induction false} ReadStrings(data: Bytes, at: nat, items: seq<Typed>)
    requires AllWritable(items, Strings, true) && at <= |data| && Placed(data, at, Payloads(items))
    ensures StringsAt(data, at, |items|) == Read(Meanings(items), at + |Payloads(items)|)
    decreases items
  {
    hide StringAt, LittleEndian, Placed;
    if items != [] {
      PlacedSplit(data, at, Payload(items[0]), Payloads(items[1..]));
      PlacedWithin(data, at + |Payload(items[0])|, Payloads(items[1..]));
      ReadString(data, at, items[0].bytes, MAX_STRING_BYTES);
      ReadStrings(data, at + |Payload(items[0])|, items[1..]);
    }
  }

  lemma PlacedWithin(data: Bytes, at: nat, bytes: Bytes)
    requires Placed(data, at, bytes)
    ensures at + |bytes| <= |data|
  {
  }

  lemma {:induction false} SkipStrings(data: Bytes, at: nat, items: seq<Typed>)
    requires AllWritable(items, Strings, false) && at <= |data| && Placed(data, at, Payloads(items))
    ensures SkipStringsAt(data, at, |items|) == Read((), at + |Payloads(items)|)
    decreases items
  {
    hide LittleEndian, Placed, UnsignedAt;
    if items != [] {
      var bytes := items[0].bytes;
      PlacedSplit(data, at, Payload(items[0]), Payloads(items[1..]));
      PlacedWithin(data, at + |Payload(items[0])|, Payloads(items[1..]));
      PlacedSplit(data, at, LittleEndian(|bytes|, 8), bytes);
      Powers();
      ReadNumber(data, at, |bytes|, 8);
      SkipStrings(data, at + |Payload(items[0])|, items[1..]);
    }
  }

  lemma FirstWritable(items: seq<Typed>, kind: Kind, read: bool)
    requires items != [] && AllWritable(items, kind, read) && BytesOf(kind) > 0
    ensures KindOf(items[0]) == kind && Writable(items[0], true) && AllWritable(items[1..], kind, read)
  {
  }

  lemma FirstFixed(data: Bytes, at: nat, kind: nat, count: nat)
    requires count > 0 && at <= |data| && Width(kind) > 0 && FixedAt(data, at, kind).Read?
    ensures FixedsAt(data, at, kind, count) ==
      Prepend([FixedAt(data, at, kind).value], FixedsAt(data, FixedAt(data, at, kind).end, kind, count - 1))
  {
  }

  lemma {:induction false} ReadFixeds(data: Bytes, at: nat, kind: Kind, items: seq<Typed>, read: bool)
    requires BytesOf(kind) > 0 && AllWritable(items, kind, read) && at <= |data| && Placed(data, at, Payloads(items))
    ensures Width(CodeOf(kind)) > 0
    ensures FixedsAt(data, at, CodeOf(kind), |items|) == Read(Meanings(items), at + |Payloads(items)|)
    decreases items
  {
    hide FixedAt, LittleEndian, Placed, Width, Writable, AllWritable, Payload, Meaning, CodeOf, BytesOf;
    KindsAgree(kind);
    if items != [] {
      PlacedSplit(data, at, Payload(items[0]), Payloads(items[1..]));
      PlacedWithin(data, at + |Payload(items[0])|, Payloads(items[1..]));
      FirstWritable(items, kind, read);
      ReadFixed(data, at, items[0]);
      FirstFixed(data, at, CodeOf(kind), |items|);
      ReadFixeds(data, at + |Payload(items[0])|, kind, items[1..], read);
    }
  }

  lemma {:induction false} ReadArrays(data: Bytes, at: nat, items: seq<Typed>, read: bool)
    requires AllWritable(items, Arrays, read) && at <= |data| && Placed(data, at, Payloads(items))
    ensures ArraysAt(data, at, |items|) == Read(Meanings(items), at + |Payloads(items)|)
    decreases items, 1
  {
    hide ArrayAt, LittleEndian, Placed;
    if items != [] {
      PlacedSplit(data, at, Payload(items[0]), Payloads(items[1..]));
      PlacedWithin(data, at + |Payload(items[0])|, Payloads(items[1..]));
      ReadArray(data, at, items[0]);
      ReadArrays(data, at + |Payload(items[0])|, items[1..], read);
    }
  }

  lemma {:induction false} SkipItems(data: Bytes, at: nat, elem: Kind, items: seq<Typed>)
    requires AllWritable(items, elem, false) && at <= |data| && Placed(data, at, Payloads(items))
    ensures SkipAt(data, at, CodeOf(elem), |items|) == Read((), at + |Payloads(items)|)
    decreases items, 2
  {
    KindsAgree(elem);
    if elem == Strings {
      SkipStrings(data, at, items);
    } else if elem == Arrays {
      ReadArrays(data, at, items, false);
      SkipArraysAgrees(data, at, |items|);
    } else {
      ReadFixeds(data, at, elem, items, false);
      FixedsEnd(data, at, CodeOf(elem), |items|);
    }
    hide Width, CodeOf;
  }

  lemma {:induction false} ReadItems(data: Bytes, at: nat, elem: Kind, items: seq<Typed>)
    requires AllWritable(items, elem, true) && at <= |data| && Placed(data, at, Payloads(items))
    ensures ElementsAt(data, at, CodeOf(elem), |items|) == Read(Meanings(items), at + |Payloads(items)|)
    decreases items, 2
  {
    KindsAgree(elem);
    if elem == Strings {
      ReadStrings(data, at, items);
    } else if elem == Arrays {
      ReadArrays(data, at, items, true);
    } else {
      ReadFixeds(data, at, elem, items, true);
    }
    hide Width, CodeOf;
  }

  /** An array at any nesting depth reads back as its meaning and ends where its encoding does. */
  lemma {:induction false} ReadArray(data: Bytes, at: nat, t: Typed)
    requires t.Array? && Writable(t, true) && at <= |data| && Placed(data, at, Payload(t))
    ensures ArrayAt(data, at) == Read(Meaning(t), at + |Payload(t)|)
    decreases t, 0
  {
    Powers();
    var kind, count, items := LittleEndian(CodeOf(t.elem), 4), LittleEndian(|t.items|, 8), Payloads(t.items);
    PlacedSplit(data, at, kind, count + items);
    PlacedSplit(data, at + 4, count, items);
    PlacedWithin(data, at + 12, items);
    ReadNumber(data, at, CodeOf(t.elem), 4);
    ReadNumber(data, at + 4, |t.items|, 8);
    if |t.items| > MAX_ARRAY_ITEMS {
      SkipItems(data, at + 12, t.elem, t.items);
    } else {
      ReadItems(data, at + 12, t.elem, t.items);
    }
    hide LittleEndian, Placed, UnsignedAt, SkipAt, ElementsAt, CodeOf;
  }

  lemma ReadValue(data: Bytes, at: nat, t: Typed)
    requires Writable(t, true) && at <= |data| && Placed(data, at, LittleEndian(CodeOf(KindOf(t)), 4) + Payload(t))
    ensures ValueAt(data, at) == Read(Meaning(t), at + 4 + |Payload(t)|)
  {
    Powers();
    PlacedSplit(data, at, LittleEndian(CodeOf(KindOf(t)), 4), Payload(t));
    PlacedWithin(data, at + 4, Payload(t));
    KindsAgree(KindOf(t));
    HasBytes(t);
    ReadNumber(data, at, CodeOf(KindOf(t)), 4);
    hide LittleEndian, Placed, UnsignedAt, StringAt, FixedAt, ArrayAt, CodeOf, BytesOf, Width;
    match t
    case Text(bytes) => ReadString(data, at + 4, bytes, MAX_STRING_BYTES);
    case Array(_, _) => ReadArray(data, at + 4, t);
    case _ => ReadFixed(data, at + 4, t);
  }

  lemma HasBytes(t: Typed)
    requires Writable(t, true)
    ensures !t.Text? && !t.Array? ==> BytesOf(KindOf(t)) > 0 && KindOf(t) != Strings && KindOf(t) != Arrays
  {
  }

  /** Entries written are read one after the other, and what follows them is read next. */
  lemma {:induction false} ReadSome(data: Bytes, at: nat, entries: seq<Entry>, more: nat, known: map<Bytes, Value>)
    requires WritableEntries(entries) && at <= |data| && Placed(data, at, EncodeEntries(entries))
    ensures at + |EncodeEntries(entries)| <= |data|
    ensures EntriesAt(data, at, |entries| + more, known)
      == EntriesAt(data, at + |EncodeEntries(entries)|, more, Dictionary(entries, known))
    decreases entries
  {
    hide LittleEndian, Placed, StringAt, ValueAt, Payload, Meaning, CodeOf;
    PlacedWithin(data, at, EncodeEntries(entries));
    if entries != [] {
      var e := entries[0];
      var key, value := LittleEndian(|e.key|, 8) + e.key, LittleEndian(CodeOf(KindOf(e.value)), 4) + Payload(e.value);
      PlacedSplit(data, at, key + value, EncodeEntries(entries[1..]));
      PlacedSplit(data, at, key, value);
      PlacedWithin(data, at + |key|, value);
      PlacedWithin(data, at + |key + value|, EncodeEntries(entries[1..]));
      ReadString(data, at, e.key, MAX_KEY_BYTES);
      ReadValue(data, at + |key|, e.value);
      ReadSome(data, at + |key + value|, entries[1..], more, known[e.key := Meaning(e.value)]);
    }
  }

  lemma NoneLeft(data: Bytes, at: nat, known: map<Bytes, Value>)
    requires at <= |data|
    ensures EntriesAt(data, at, 0, known) == Read(known, at)
  {
  }

  lemma ReadEntries(data: Bytes, at: nat, entries: seq<Entry>, known: map<Bytes, Value>)
    requires WritableEntries(entries) && at <= |data| && Placed(data, at, EncodeEntries(entries))
    ensures EntriesAt(data, at, |entries|, known)
      == Read(Dictionary(entries, known), at + |EncodeEntries(entries)|)
  {
    hide WritableEntries, EncodeEntries, Placed, Dictionary, EntriesAt;
    ReadSome(data, at, entries, 0, known);
    NoneLeft(data, at + |EncodeEntries(entries)|, Dictionary(entries, known));
  }

  /** The frame read, and the body next. */
  lemma ReadFrame(version: nat, tensors: nat, count: nat, body: Bytes, tail: Bytes)
    requires version < 0x1_0000_0000 && tensors < MAX_U64 && count < MAX_U64
    ensures var data := EncodeFrame(version, tensors, count, body) + tail;
      && |data| >= 24 && Placed(data, 24, body)
      && ParseAt(data) ==
           if version != 2 && version != 3 then Refused(UnsupportedVersion)
           else if count > 4096 then Refused(TooManyEntries)
           else EntriesAt(data, 24, count, map[])
  {
    Powers();
    var data := EncodeFrame(version, tensors, count, body) + tail;
    var counted := LittleEndian(count, 8) + body;
    var sized := LittleEndian(tensors, 8) + counted;
    var versioned := LittleEndian(version, 4) + sized;
    assert Placed(data, 0, [0x47, 0x47, 0x55, 0x46] + versioned);
    PlacedSplit(data, 0, [0x47, 0x47, 0x55, 0x46], versioned);
    PlacedSplit(data, 4, LittleEndian(version, 4), sized);
    PlacedSplit(data, 8, LittleEndian(tensors, 8), counted);
    PlacedSplit(data, 16, LittleEndian(count, 8), body);
    ReadNumber(data, 4, version, 4);
    ReadNumber(data, 8, tensors, 8);
    ReadNumber(data, 16, count, 8);
    hide LittleEndian, UnsignedAt, EntriesAt;
  }

  /**
   Round trip: whatever follows the metadata, parsing it gives the dictionary that was written, with
   every over-long array, at any depth, replaced by its kind and count, and stops where it ends.
   */
  lemma RoundTrip(version: nat, tensors: nat, entries: seq<Entry>, tail: Bytes)
    requires version == 2 || version == 3
    requires tensors < MAX_U64 && |entries| <= 4096 && WritableEntries(entries)
    ensures var encoded := EncodeHeader(version, tensors, entries);
      ParseAt(encoded + tail) == Read(Dictionary(entries, map[]), |encoded|)
  {
    ReadFrame(version, tensors, |entries|, EncodeEntries(entries), tail);
    hide ParseAt, Placed, WritableEntries, EncodeEntries, Dictionary, EntriesAt;
    var data := EncodeHeader(version, tensors, entries) + tail;
    ReadEntries(data, 24, entries, map[]);
  }

  // What is refused, and why.

  /** After any good entries: a key over 1024 bytes, a string over 64 KiB, or a kind the format does not have. */
  datatype Fault = LongKey(length: nat) | LongText(key: Bytes, length: nat) | NoSuchKind(key: Bytes, code: nat)

  function EncodeFault(fault: Fault): Bytes {
    match fault
    case LongKey(length) => LittleEndian(length, 8)
    case LongText(key, length) => (LittleEndian(|key|, 8) + key) + (LittleEndian(8, 4) + LittleEndian(length, 8))
    case NoSuchKind(key, code) => (LittleEndian(|key|, 8) + key) + LittleEndian(code, 4)
  }

  predicate IsFault(fault: Fault) {
    match fault
    case LongKey(length) => 1024 < length < MAX_U64
    case LongText(key, length) => |key| <= 1024 && 65536 < length < MAX_U64
    case NoSuchKind(key, code) => |key| <= 1024 && 12 < code < 0x1_0000_0000
  }

  lemma LongStringRefused(data: Bytes, at: nat, length: nat, limit: nat)
    requires at <= |data| && Placed(data, at, LittleEndian(length, 8)) && limit < length < MAX_U64
    ensures StringAt(data, at, limit) == Refused(StringTooLong)
  {
    hide LittleEndian, UnsignedAt;
    Powers();
    ReadNumber(data, at, length, 8);
  }

  lemma BadKeyEnds(data: Bytes, at: nat, count: nat, known: map<Bytes, Value>, error: GgufError)
    requires at <= |data| && count > 0 && StringAt(data, at, MAX_KEY_BYTES) == Refused(error)
    ensures EntriesAt(data, at, count, known) == Refused(error)
  {
    hide StringAt, ValueAt;
  }

  lemma BadValueEnds(data: Bytes, at: nat, count: nat, key: Bytes, known: map<Bytes, Value>, error: GgufError)
    requires at <= |data| && count > 0 && |key| <= 1024 && Placed(data, at, LittleEndian(|key|, 8) + key)
    requires at + 8 + |key| <= |data| && ValueAt(data, at + 8 + |key|) == Refused(error)
    ensures EntriesAt(data, at, count, known) == Refused(error)
  {
    hide StringAt, ValueAt, LittleEndian, Placed;
    ReadString(data, at, key, MAX_KEY_BYTES);
  }

  lemma LongTextRefused(data: Bytes, at: nat, length: nat)
    requires at <= |data| && Placed(data, at, LittleEndian(8, 4) + LittleEndian(length, 8)) && 65536 < length < MAX_U64
    ensures ValueAt(data, at) == Refused(StringTooLong)
  {
    hide LittleEndian, UnsignedAt, StringAt, FixedAt, ArrayAt, Pow256;
    Powers();
    PlacedSplit(data, at, LittleEndian(8, 4), LittleEndian(length, 8));
    ReadNumber(data, at, 8, 4);
    LongStringRefused(data, at + 4, length, MAX_STRING_BYTES);
  }

  lemma NoKindRefused(data: Bytes, at: nat, code: nat)
    requires at <= |data| && Placed(data, at, LittleEndian(code, 4)) && 12 < code < 0x1_0000_0000
    ensures ValueAt(data, at) == Refused(UnsupportedType)
  {
    hide LittleEndian, UnsignedAt, StringAt, FixedAt, ArrayAt, Pow256;
    Powers();
    ReadNumber(data, at, code, 4);
  }

  lemma FaultRefused(data: Bytes, at: nat, fault: Fault, count: nat, known: map<Bytes, Value>)
    requires IsFault(fault) && at <= |data| && Placed(data, at, EncodeFault(fault)) && count > 0
    ensures EntriesAt(data, at, count, known) == Refused(if fault.NoSuchKind? then UnsupportedType else StringTooLong)
  {
    hide LittleEndian, UnsignedAt, StringAt, ValueAt, EntriesAt, Placed;
    match fault
    case LongKey(length) =>
      LongStringRefused(data, at, length, MAX_KEY_BYTES);
      BadKeyEnds(data, at, count, known, StringTooLong);
    case LongText(key, length) =>
      var rest := LittleEndian(8, 4) + LittleEndian(length, 8);
      PlacedSplit(data, at, LittleEndian(|key|, 8) + key, rest);
      PlacedWithin(data, at + 8 + |key|, rest);
      LongTextRefused(data, at + 8 + |key|, length);
      BadValueEnds(data, at, count, key, known, StringTooLong);
    case NoSuchKind(key, code) =>
      PlacedSplit(data, at, LittleEndian(|key|, 8) + key, LittleEndian(code, 4));
      PlacedWithin(data, at + 8 + |key|, LittleEndian(code, 4));
      NoKindRefused(data, at + 8 + |key|, code);
      BadValueEnds(data, at, count, key, known, UnsupportedType);
  }

  /** A header whose entries are good up to one of these faults is refused for it. */
  lemma FaultyRefused(version: nat, tensors: nat, count: nat, entries: seq<Entry>, fault: Fault, tail: Bytes)
    requires version == 2 || version == 3
    requires tensors < MAX_U64 && |entries| < count <= 4096 && WritableEntries(entries) && IsFault(fault)
    ensures ParseAt(EncodeFrame(version, tensors, count, EncodeEntries(entries) + EncodeFault(fault)) + tail)
      == Refused(if fault.NoSuchKind? then UnsupportedType else StringTooLong)
  {
    hide ParseAt, Placed, WritableEntries, EncodeEntries, Dictionary, EntriesAt, EncodeFault, EncodeFrame, IsFault;
    var body := EncodeEntries(entries) + EncodeFault(fault);
    var data := EncodeFrame(version, tensors, count, body) + tail;
    ReadFrame(version, tensors, count, body, tail);
    PlacedSplit(data, 24, EncodeEntries(entries), EncodeFault(fault));
    ReadSome(data, 24, entries, count - |entries|, map[]);
    FaultRefused(data, 24 + |EncodeEntries(entries)|, fault, count - |entries|, Dictionary(entries, map[]));
  }

  /** Any other version, and more than 4096 entries, are refused as such, whatever follows; so is any other beginning. */
  lemma FrameRefused(version: nat, tensors: nat, count: nat, body: Bytes, data: Bytes)
    requires version < 0x1_0000_0000 && tensors < MAX_U64 && count < MAX_U64
    ensures version != 2 && version != 3 ==>
      ParseAt(EncodeFrame(version, tensors, count, body)) == Refused(UnsupportedVersion)
    ensures (version == 2 || version == 3) && count > 4096 ==>
      ParseAt(EncodeFrame(version, tensors, count, body)) == Refused(TooManyEntries)
    ensures |data| >= 4 && data[..4] != [0x47, 0x47, 0x55, 0x46] ==> ParseAt(data) == Refused(NotGguf)
  {
    ReadFrame(version, tensors, count, body, []);
    assert EncodeFrame(version, tensors, count, body) + [] == EncodeFrame(version, tensors, count, body);
    hide EncodeFrame, EntriesAt, UnsignedAt;
  }

  // A rule that succeeds on a buffer gives the same answer however the buffer goes on.

  lemma TakeExtends(p: Bytes, data: Bytes, at: nat, count: nat)
    requires p <= data && at <= |p| && TakeAt(p, at, count).Read?
    ensures TakeAt(data, at, count) == TakeAt(p, at, count)
  {
    assert data[at..at + count] == p[at..at + count];
  }

  lemma UnsignedExtends(p: Bytes, data: Bytes, at: nat, size: nat)
    requires p <= data && at <= |p| && UnsignedAt(p, at, size).Read?
    ensures UnsignedAt(data, at, size) == UnsignedAt(p, at, size)
  {
    TakeExtends(p, data, at, size);
  }

  lemma StringExtends(p: Bytes, data: Bytes, at: nat, limit: nat)
    requires p <= data && at <= |p| && StringAt(p, at, limit).Read?
    ensures StringAt(data, at, limit) == StringAt(p, at, limit)
  {
    UnsignedExtends(p, data, at, 8);
    var length := UnsignedAt(p, at, 8);
    TakeExtends(p, data, length.end, length.value);
  }

  lemma FixedExtends(p: Bytes, data: Bytes, at: nat, kind: nat)
    requires p <= data && at <= |p| && Width(kind) > 0 && FixedAt(p, at, kind).Read?
    ensures FixedAt(data, at, kind) == FixedAt(p, at, kind)
  {
    TakeExtends(p, data, at, Width(kind));
  }

  lemma {:induction false} StringsExtend(p: Bytes, data: Bytes, at: nat, count: nat)
    requires p <= data && at <= |p| && StringsAt(p, at, count).Read?
    ensures StringsAt(data, at, count) == StringsAt(p, at, count)
    decreases count
  {
    hide StringAt;
    if count > 0 {
      StringExtends(p, data, at, MAX_STRING_BYTES);
      StringsExtend(p, data, StringAt(p, at, MAX_STRING_BYTES).end, count - 1);
    }
  }

  lemma {:induction false} FixedsExtend(p: Bytes, data: Bytes, at: nat, kind: nat, count: nat)
    requires p <= data && at <= |p| && Width(kind) > 0 && FixedsAt(p, at, kind, count).Read?
    ensures FixedsAt(data, at, kind, count) == FixedsAt(p, at, kind, count)
    decreases count
  {
    hide FixedAt;
    if count > 0 {
      FixedExtends(p, data, at, kind);
      FixedsExtend(p, data, FixedAt(p, at, kind).end, kind, count - 1);
    }
  }

  lemma {:induction false} SkipStringsExtend(p: Bytes, data: Bytes, at: nat, count: nat)
    requires p <= data && at <= |p| && SkipStringsAt(p, at, count).Read?
    ensures SkipStringsAt(data, at, count) == SkipStringsAt(p, at, count)
    decreases count
  {
    if count > 0 {
      UnsignedExtends(p, data, at, 8);
      var length := UnsignedAt(p, at, 8);
      TakeExtends(p, data, length.end, length.value);
      hide UnsignedAt, TakeAt;
      SkipStringsExtend(p, data, TakeAt(p, length.end, length.value).end, count - 1);
    }
  }

  lemma {:induction false} ArraysExtend(p: Bytes, data: Bytes, at: nat, count: nat)
    requires p <= data && at <= |p| && ArraysAt(p, at, count).Read?
    ensures ArraysAt(data, at, count) == ArraysAt(p, at, count)
    decreases |p| - at, 1
  {
    hide ArrayAt;
    if count > 0 {
      ArrayExtends(p, data, at);
      ArraysExtend(p, data, ArrayAt(p, at).end, count - 1);
    }
  }

  lemma {:induction false} ArrayExtends(p: Bytes, data: Bytes, at: nat)
    requires p <= data && at <= |p| && ArrayAt(p, at).Read?
    ensures ArrayAt(data, at) == ArrayAt(p, at)
    decreases |p| - at, 0
  {
    UnsignedExtends(p, data, at, 4);
    UnsignedExtends(p, data, at + 4, 8);
    var kind, count := UnsignedAt(p, at, 4).value, UnsignedAt(p, at + 4, 8).value;
    if count > MAX_ARRAY_ITEMS {
      SkipExtends(p, data, at + 12, kind, count);
    } else {
      ElementsExtend(p, data, at + 12, kind, count);
    }
    hide UnsignedAt, SkipAt, ElementsAt;
  }

  lemma {:induction false} ElementsExtend(p: Bytes, data: Bytes, at: nat, kind: nat, count: nat)
    requires p <= data && at <= |p| && ElementsAt(p, at, kind, count).Read?
    ensures ElementsAt(data, at, kind, count) == ElementsAt(p, at, kind, count)
    decreases |p| - at, 2
  {
    if kind == STRING {
      StringsExtend(p, data, at, count);
    } else if kind == ARRAY {
      ArraysExtend(p, data, at, count);
    } else {
      FixedsExtend(p, data, at, kind, count);
    }
  }

  lemma {:induction false} SkipExtends(p: Bytes, data: Bytes, at: nat, kind: nat, count: nat)
    requires p <= data && at <= |p| && SkipAt(p, at, kind, count).Read?
    ensures SkipAt(data, at, kind, count) == SkipAt(p, at, kind, count)
    decreases |p| - at, 2
  {
    if kind == STRING {
      SkipStringsExtend(p, data, at, count);
    } else if kind == ARRAY {
      SkipArraysAgrees(p, at, count);
      ArraysExtend(p, data, at, count);
      SkipArraysAgrees(data, at, count);
    } else {
      TakeExtends(p, data, at, Width(kind) * count);
    }
  }

  lemma ValueExtends(p: Bytes, data: Bytes, at: nat)
    requires p <= data && at <= |p| && ValueAt(p, at).Read?
    ensures ValueAt(data, at) == ValueAt(p, at)
  {
    UnsignedExtends(p, data, at, 4);
    var kind := UnsignedAt(p, at, 4).value;
    hide UnsignedAt, StringAt, ArrayAt, FixedAt;
    if kind == STRING {
      StringExtends(p, data, at + 4, MAX_STRING_BYTES);
    } else if kind == ARRAY {
      ArrayExtends(p, data, at + 4);
    } else {
      FixedExtends(p, data, at + 4, kind);
    }
  }

  lemma {:induction false} EntriesExtend(p: Bytes, data: Bytes, at: nat, count: nat, known: map<Bytes, Value>)
    requires p <= data && at <= |p| && EntriesAt(p, at, count, known).Read?
    ensures EntriesAt(data, at, count, known) == EntriesAt(p, at, count, known)
    decreases count
  {
    hide StringAt, ValueAt;
    if count > 0 {
      StringExtends(p, data, at, MAX_KEY_BYTES);
      var key := StringAt(p, at, MAX_KEY_BYTES);
      ValueExtends(p, data, key.end);
      var value := ValueAt(p, key.end);
      EntriesExtend(p, data, value.end, count - 1, known[key.value := value.value]);
    }
  }

  /** The answer, and where it ends, depend on no byte past that end. */
  lemma ParseExtends(p: Bytes, data: Bytes)
    requires p <= data && ParseAt(p).Read?
    ensures ParseAt(data) == ParseAt(p)
  {
    TakeExtends(p, data, 0, 4);
    UnsignedExtends(p, data, 4, 4);
    UnsignedExtends(p, data, 8, 8);
    UnsignedExtends(p, data, 16, 8);
    EntriesExtend(p, data, 24, UnsignedAt(p, 16, 8).value, map[]);
    hide TakeAt, UnsignedAt, EntriesAt;
  }

  /** Every strict prefix of a metadata encoding is refused: the header cannot end early unnoticed. */
  lemma PrefixRefused(version: nat, tensors: nat, entries: seq<Entry>, cut: nat)
    requires version == 2 || version == 3
    requires tensors < MAX_U64 && |entries| <= 4096 && WritableEntries(entries)
    requires cut < |EncodeHeader(version, tensors, entries)|
    ensures ParseAt(EncodeHeader(version, tensors, entries)[..cut]).Refused?
  {
    var encoded := EncodeHeader(version, tensors, entries);
    RoundTrip(version, tensors, entries, []);
    assert encoded + [] == encoded;
    hide ParseAt, EncodeHeader;
    if ParseAt(encoded[..cut]).Read? {
      ParseExtends(encoded[..cut], encoded);
    }
  }

  const MAX_HEADER_BYTES := 48 * 1024 * 1024

  /** What reading a file parses: no more than its first 48 MiB. */
  function HeaderOf(file: Bytes): Bytes {
    if |file| <= MAX_HEADER_BYTES then file else file[..MAX_HEADER_BYTES]
  }

  /** A well-formed file is read in full exactly when its metadata ends within those bytes. */
  lemma FileReadable(version: nat, tensors: nat, entries: seq<Entry>, tail: Bytes)
    requires version == 2 || version == 3
    requires tensors < MAX_U64 && |entries| <= 4096 && WritableEntries(entries)
    ensures var encoded := EncodeHeader(version, tensors, entries);
      var parsed := ParseAt(HeaderOf(encoded + tail));
      && (|encoded| <= MAX_HEADER_BYTES ==> parsed == Read(Dictionary(entries, map[]), |encoded|))
      && (|encoded| > MAX_HEADER_BYTES ==> parsed.Refused?)
  {
    var encoded := EncodeHeader(version, tensors, entries);
    var file := encoded + tail;
    hide ParseAt, EncodeHeader;
    if |file| <= MAX_HEADER_BYTES {
      RoundTrip(version, tensors, entries, tail);
    } else if |encoded| <= MAX_HEADER_BYTES {
      var rest := tail[..MAX_HEADER_BYTES - |encoded|];
      assert file[..MAX_HEADER_BYTES] == encoded + rest;
      RoundTrip(version, tensors, entries, rest);
    } else {
      assert file[..MAX_HEADER_BYTES] == encoded[..MAX_HEADER_BYTES];
      PrefixRefused(version, tensors, entries, MAX_HEADER_BYTES);
    }
  }
}
