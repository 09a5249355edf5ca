/**
 Tensors passed by reference, as src/omnitensor/tensorref.py reads them and src/omnitensor/dispatch.py
 admits and loads them: a raw little-endian buffer on disk, described by shape, dtype and digest.
 */
module TensorReferences {
  import opened Octets
  import opened Prelude
  import opened Tensors

  const MAX_RANK := 6
  const MAX_DIMENSION := 65536
  const MAX_TENSOR_BYTES := 64 * 1024 * 1024

  type Digest(==, !new, 0)
  type File(==, !new, 0)

  datatype Dtype = Float32 | Float64 | Int32 | Int64 | UInt8

  /** The element sizes there are. */
  predicate Wide(size: nat) { size == 1 || size == 4 || size == 8 }

  function SizeOf(d: Dtype): (n: nat)
    ensures Wide(n)
  {
    match d
    case Float32 => 4
    case Float64 => 8
    case Int32 => 4
    case Int64 => 8
    case UInt8 => 1
  }

  predicate Floating(d: Dtype) { d.Float32? || d.Float64? }

  datatype Reference = Reference(path: File, shape: seq<nat>, dtype: Dtype, digest: Digest)

  /** What `_parse_shape` lets through. */
  predicate ShapeOk(shape: seq<nat>) {
    1 <= |shape| <= MAX_RANK && forall i :: 0 <= i < |shape| ==> 1 <= shape[i] <= MAX_DIMENSION
  }

  function ExpectedBytes(r: Reference): nat { Product(r.shape) * SizeOf(r.dtype) }

  datatype Refusal =
    | Denied
    | TooLarge
    | Mismatch
    | InvalidNumbers
    | ReferenceInvalid
    | PayloadUnusable
    | PayloadInvalid(fault: Fault)
    | ContractMismatch

  /** A dimension as the payload gives it. */
  datatype Dimension = IntDimension(n: int) | OtherDimension

  predicate DimensionOk(d: Dimension) { d.IntDimension? && 1 <= d.n <= MAX_DIMENSION }

  function ParsedShape(value: seq<Dimension>): (shape: Option<seq<nat>>)
    ensures shape.Some? ==> ShapeOk(shape.value)
  {
    if 1 <= |value| <= MAX_RANK && forall i :: 0 <= i < |value| ==> DimensionOk(value[i]) then
      Some(seq(|value|, i requires 0 <= i < |value| && DimensionOk(value[i]) => value[i].n))
    else None
  }

  /** A shape out of the payload, refused when any part is out of bounds. */
  method ParseShape(value: seq<Dimension>) returns (shape: Option<seq<nat>>)
    ensures shape == ParsedShape(value)
    ensures shape.Some? <==> 1 <= |value| <= MAX_RANK && forall i :: 0 <= i < |value| ==> DimensionOk(value[i])
    ensures shape.Some? ==> ShapeOk(shape.value) && |shape.value| == |value|
    ensures shape.Some? ==> forall i :: 0 <= i < |value| ==> value[i] == IntDimension(shape.value[i])
  {
    if value == [] || |value| > MAX_RANK {
      return None;
    }
    var dimensions: seq<nat> := [];
    for i := 0 to |value|
      invariant |dimensions| == i
      invariant forall k :: 0 <= k < i ==> value[k] == IntDimension(dimensions[k]) && 1 <= dimensions[k] <= MAX_DIMENSION
    {
      if !DimensionOk(value[i]) {
        return None;
      }
      dimensions := dimensions + [value[i].n];
    }
    assert dimensions == ParsedShape(value).value;
    return Some(dimensions);
  }

  // The scan.

  function Joined(chunks: seq<Bytes>): Bytes {
    if chunks == [] then [] else Joined(chunks[..|chunks| - 1]) + chunks[|chunks| - 1]
  }

  /** Every whole element of the buffer is a finite number; a partial one at the end is nobody's element. */
  predicate WholeFinite(bytes: Bytes, size: nat)
    requires Wide(size)
    decreases |bytes|
  {
    |bytes| < size || (FiniteBits(bytes[..size]) && WholeFinite(bytes[size..], size))
  }

  lemma WholeLess(n: nat, size: nat)
    requires Wide(size) && n % size == 0
    ensures if n < size then n == 0 else (n - size) % size == 0
  {
    if n >= size {
      if size == 4 {
        assert n - 4 == 4 * (n / 4 - 1);
      } else if size == 8 {
        assert n - 8 == 8 * (n / 8 - 1);
      }
    }
  }

  /** What is scanned and what is still to come add up to the whole. */
  lemma {:induction false} WholeFiniteSplit(a: Bytes, b: Bytes, size: nat)
    requires Wide(size) && |a| % size == 0
    ensures WholeFinite(a + b, size) <==> WholeFinite(a, size) && WholeFinite(b, size)
    decreases |a|
  {
    WholeLess(|a|, size);
    hide FiniteBits;
    if |a| < size {
      assert a == [] && a + b == b;
    } else {
      var rest := a[size..];
      WholeFiniteSplit(rest, b, size);
      assert (a + b)[..size] == a[..size] && (a + b)[size..] == rest + b;
    }
  }

  lemma ShortFinite(bytes: Bytes, size: nat)
    requires Wide(size) && |bytes| < size
    ensures WholeFinite(bytes, size)
  {
  }

  /** `any(not isfinite(value) ...)` over one run of whole elements. */
  method RefuseNonFinite(bytes: Bytes, size: nat) returns (fine: bool)
    requires Wide(size)
    ensures fine == WholeFinite(bytes, size)
  {
    var at := 0;
    while at + size <= |bytes|
      invariant at <= |bytes|
      invariant WholeFinite(bytes, size) == WholeFinite(bytes[at..], size)
      decreases |bytes| - at
    {
      assert bytes[at..][..size] == bytes[at..at + size] && bytes[at..][size..] == bytes[at + size..];
      if !FiniteBits(bytes[at..at + size]) {
        return false;
      }
      at := at + size;
    }
    fine := true;
  }

  lemma WholeRun(before: nat, n: nat, size: nat)
    requires Wide(size) && before % size == 0
    ensures 0 <= n % size < size && n % size <= n && (n - n % size) % size == 0
    ensures (before + (n - n % size)) % size == 0
  {
    if size == 4 {
      RunOfFour(before, n);
    } else if size == 8 {
      RunOfEight(before, n);
    }
  }

  lemma RunOfFour(before: nat, n: nat)
    requires before % 4 == 0
    ensures n % 4 <= n && (n - n % 4) % 4 == 0 && (before + (n - n % 4)) % 4 == 0
  {
    assert n - n % 4 == 4 * (n / 4) && before == 4 * (before / 4);
  }

  lemma RunOfEight(before: nat, n: nat)
    requires before % 8 == 0
    ensures n % 8 <= n && (n - n % 8) % 8 == 0 && (before + (n - n % 8)) % 8 == 0
  {
    assert n - n % 8 == 8 * (n / 8) && before == 8 * (before / 8);
  }

  /** One chunk scanned: whole elements are checked and the partial one at the end is carried over. */
  method ScanChunk(ghost scanned: Bytes, carry: Bytes, chunk: Bytes, size: nat)
    returns (fine: bool, left: Bytes, ghost done: Bytes)
    requires Wide(size) && |scanned| % size == 0 && WholeFinite(scanned, size)
    ensures done + left == scanned + carry + chunk
    ensures |done| % size == 0 && |left| < size && fine == WholeFinite(done, size)
  {
    var all := carry + chunk;
    var whole := |all| - |all| % size;
    WholeRun(|scanned|, |all|, size);
    fine := RefuseNonFinite(all[..whole], size);
    WholeFiniteSplit(scanned, all[..whole], size);
    done, left := scanned + all[..whole], all[whole..];
    assert all == all[..whole] + all[whole..];
    assert scanned + carry + chunk == scanned + all;
  }

  /** The verdict on a file's bytes, however they were cut into chunks. */
  function ReadVerdict(content: Bytes, d: Dtype, max: nat): Option<Refusal> {
    if |content| <= max && (Floating(d) ==> WholeFinite(content, SizeOf(d))) then None
    else if |content| <= max then Some(InvalidNumbers)
    else Some(TooLarge)
  }

  /**
   The file read chunk by chunk: hashed, size-checked and scanned, with the bytes retained when asked.
   `hashed` is what the digest has been fed.
   */
  method ReadReference(chunks: seq<Bytes>, d: Dtype, max: nat, retain: bool)
    returns (refusal: Option<Refusal>, payload: Bytes, hashed: Bytes)
    ensures refusal.None? <==> ReadVerdict(Joined(chunks), d, max).None?
    ensures refusal.None? ==> hashed == Joined(chunks) && payload == if retain then Joined(chunks) else []
    ensures refusal.Some? ==> refusal.value.TooLarge? || refusal.value.InvalidNumbers?
  {
    var size := SizeOf(d);
    var carry: Bytes := [];
    var total := 0;
    payload, hashed := [], [];
    ghost var scanned: Bytes := [];
    ShortFinite(scanned, size);
    hide WholeFinite, FiniteBits;
    for i := 0 to |chunks|
      invariant hashed == Joined(chunks[..i]) && total == |hashed| <= max
      invariant payload == if retain then hashed else []
      invariant Floating(d) ==> hashed == scanned + carry && |scanned| % size == 0 && WholeFinite(scanned, size)
      invariant Floating(d) ==> |carry| < size
    {
      var chunk := chunks[i];
      assert chunks[..i + 1][..i] == chunks[..i];
      assert Joined(chunks[..i + 1]) == hashed + chunk;
      total := total + |chunk|;
      if total > max {
        LongerThan(chunks, i + 1);
        return Some(TooLarge), [], [];
      }
      hashed := hashed + chunk;
      if retain {
        payload := payload + chunk;
      }
      if Floating(d) {
        ghost var so, carried := scanned, carry;
        var fine;
        fine, carry, scanned := ScanChunk(so, carry, chunk, size);
        assert so + carried + chunk == hashed;
        if !fine {
          BadPrefix(chunks, i + 1, scanned, size);
          return Some(InvalidNumbers), [], [];
        }
      }
    }
    assert chunks[..|chunks|] == chunks;
    refusal := None;
    if Floating(d) {
      ShortFinite(carry, size);
      WholeFiniteSplit(scanned, carry, size);
    }
  }

  lemma {:induction false} JoinedSplit(chunks: seq<Bytes>, i: nat)
    requires i <= |chunks|
    ensures Joined(chunks) == Joined(chunks[..i]) + Joined(chunks[i..])
    decreases |chunks|
  {
    if i == |chunks| {
      assert chunks[..i] == chunks;
    } else {
      var n := |chunks| - 1;
      JoinedSplit(chunks[..n], i);
      assert chunks[..n][..i] == chunks[..i] && chunks[..n][i..] == chunks[i..][..n - i];
    }
  }

  lemma LongerThan(chunks: seq<Bytes>, i: nat)
    requires i <= |chunks|
    ensures |Joined(chunks)| >= |Joined(chunks[..i])|
  {
    JoinedSplit(chunks, i);
  }

  lemma BadPrefix(chunks: seq<Bytes>, i: nat, part: Bytes, size: nat)
    requires i <= |chunks| && Wide(size) && |part| % size == 0
    requires part <= Joined(chunks[..i]) && !WholeFinite(part, size)
    ensures !WholeFinite(Joined(chunks), size)
  {
    JoinedSplit(chunks, i);
    var all := Joined(chunks);
    assert all == part + all[|part|..];
    WholeFiniteSplit(part, all[|part|..], size);
  }

  // Unpacking.

  function Decode(d: Dtype, bytes: Bytes): Value {
    var n := Unsigned(bytes);
    match d
    case Float32 => Float(bytes)
    case Float64 => Float(bytes)
    case UInt8 => Whole(n)
    case Int32 => Whole(if n < 0x8000_0000 then n else n - 0x1_0000_0000)
    case Int64 => Whole(if n < 0x8000_0000_0000_0000 then n else n - 0x1_0000_0000_0000_0000)
  }

  function Unpacked(bytes: Bytes, d: Dtype): seq<Value>
    decreases |bytes|
  {
    var size := SizeOf(d);
    if |bytes| < size then [] else [Decode(d, bytes[..size])] + Unpacked(bytes[size..], d)
  }

  lemma {:induction false} UnpackedCount(bytes: Bytes, d: Dtype, count: nat)
    requires |bytes| == count * SizeOf(d)
    ensures |Unpacked(bytes, d)| == count
    decreases count
  {
    if count > 0 {
      RowFits(count, SizeOf(d));
      UnpackedCount(bytes[SizeOf(d)..], d, count - 1);
    }
  }

  /** The byte scan and the validator's scan of the decoded numbers agree. */
  lemma {:induction false} ScanAgrees(bytes: Bytes, d: Dtype)
    ensures AllFinite(Unpacked(bytes, d)) <==> (Floating(d) ==> WholeFinite(bytes, SizeOf(d)))
    decreases |bytes|
  {
    var size := SizeOf(d);
    if |bytes| >= size {
      ScanAgrees(bytes[size..], d);
      FiniteSplit([Decode(d, bytes[..size])], Unpacked(bytes[size..], d));
      assert [Decode(d, bytes[..size])][0] == Decode(d, bytes[..size]);
    }
  }

  // Verifying and loading one reference.

  /** The files the process can see, which of them policy lets it read, and the digest function. */
  datatype Disk = Disk(content: File -> Option<Bytes>, permits: File -> bool, sha256: Bytes -> Digest)

  /** The rules that hold before a byte is read. */
  function Permitted(r: Reference, disk: Disk): Option<Refusal> {
    if !disk.permits(r.path) then Some(Denied)
    else if ExpectedBytes(r) > MAX_TENSOR_BYTES then Some(TooLarge)
    else match disk.content(r.path)
      case None => Some(Denied)
      case Some(content) => if |content| != ExpectedBytes(r) then Some(Mismatch) else None
  }

  function Verdict(r: Reference, disk: Disk): Option<Refusal> {
    var early := Permitted(r, disk);
    if early.Some? then early
    else
      var content := disk.content(r.path).value;
      var read := ReadVerdict(content, r.dtype, MAX_TENSOR_BYTES);
      if read.Some? then read
      else if disk.sha256(content) != r.digest then Some(Mismatch) else None
  }

  /** The declared tensor of a file's bytes. */
  function Tensorised(content: Bytes, r: Reference): Tensor
    requires ShapeOk(r.shape) && |content| == ExpectedBytes(r)
  {
    UnpackedCount(content, r.dtype, Product(r.shape));
    Reshape(Unpacked(content, r.dtype), r.shape)
  }

  /** Admission's check, which keeps no byte. `chunks` is one way of reading the file. */
  method VerifyReference(r: Reference, disk: Disk, chunks: seq<Bytes>) returns (refusal: Option<Refusal>)
    requires disk.content(r.path).Some? ==> Joined(chunks) == disk.content(r.path).value
    ensures refusal.None? <==> Verdict(r, disk).None?
  {
    refusal := Permitted(r, disk);
    if refusal.Some? {
      return;
    }
    var payload, hashed;
    refusal, payload, hashed := ReadReference(chunks, r.dtype, MAX_TENSOR_BYTES, false);
    if refusal.None? && disk.sha256(hashed) != r.digest {
      refusal := Some(Mismatch);
    }
  }

  /** Dispatch's load. The file may be cut into chunks differently from how admission read it. */
  method LoadReferencedTensor(r: Reference, disk: Disk, chunks: seq<Bytes>) returns (v: Result<Tensor, Refusal>)
    requires ShapeOk(r.shape)
    requires disk.content(r.path).Some? ==> Joined(chunks) == disk.content(r.path).value
    ensures v.Ok? <==> Verdict(r, disk).None?
    ensures v.Ok? ==> HasShape(v.value, r.shape)
    ensures v.Ok? ==> Flat(v.value) == Unpacked(disk.content(r.path).value, r.dtype) && AllFinite(Flat(v.value))
  {
    var refusal := Permitted(r, disk);
    if refusal.Some? {
      return Err(refusal.value);
    }
    var payload, hashed;
    refusal, payload, hashed := ReadReference(chunks, r.dtype, MAX_TENSOR_BYTES, true);
    if refusal.Some? {
      return Err(refusal.value);
    }
    if disk.sha256(hashed) != r.digest {
      return Err(Mismatch);
    }
    if |payload| != ExpectedBytes(r) {
      return Err(Mismatch);
    }
    TensorisedIs(payload, r);
    ScanAgrees(payload, r.dtype);
    v := Ok(Tensorised(payload, r));
  }

  lemma TensorisedIs(content: Bytes, r: Reference)
    requires ShapeOk(r.shape) && |content| == ExpectedBytes(r)
    ensures var t := Tensorised(content, r); HasShape(t, r.shape) && Flat(t) == Unpacked(content, r.dtype)
  {
    UnpackedCount(content, r.dtype, Product(r.shape));
    ReshapeInverts(Unpacked(content, r.dtype), r.shape);
  }
}
