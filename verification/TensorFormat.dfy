/**
 Tensors and tensor files told from outside: a writer of raw little-endian numbers, the place of each entry in
 row-major order, what makes a float finite, and exactly which files verify.
 */
module TensorFormat {
  import opened Octets
  import opened Prelude
  import opened TensorReferences
  import opened Tensors

  // Writing numbers.

  /** Bytes one number takes. */
  function BytesEach(d: Dtype): nat {
    match d
    case Float32 => 4
    case Float64 => 8
    case Int32 => 4
    case Int64 => 8
    case UInt8 => 1
  }

  /** A number the dtype can hold: integers in range, floats as their bit pattern. */
  predicate Holds(d: Dtype, v: Value) {
    match d
    case Float32 => v.Float? && |v.bits| == 4
    case Float64 => v.Float? && |v.bits| == 8
    case Int32 => v.Whole? && -0x8000_0000 <= v.n < 0x8000_0000
    case Int64 => v.Whole? && -0x8000_0000_0000_0000 <= v.n < 0x8000_0000_0000_0000
    case UInt8 => v.Whole? && 0 <= v.n < 256
  }

  /** Two's complement in `size` bytes, least significant first. */
  function Written(n: int, span: nat, size: nat): Bytes
    requires -(span as int) <= n
  {
    LittleEndian(if n < 0 then n + span else n, size)
  }

  function EncodeNumber(d: Dtype, v: Value): Bytes
    requires Holds(d, v)
  {
    match d
    case Float32 => v.bits
    case Float64 => v.bits
    case Int32 => Written(v.n, 0x1_0000_0000, 4)
    case Int64 => Written(v.n, 0x1_0000_0000_0000_0000, 8)
    case UInt8 => [v.n]
  }

  predicate AllHold(d: Dtype, values: seq<Value>) { forall i :: 0 <= i < |values| ==> Holds(d, values[i]) }

  function EncodeAll(d: Dtype, values: seq<Value>): Bytes
    requires AllHold(d, values)
  {
    if values == [] then [] else EncodeNumber(d, values[0]) + EncodeAll(d, values[1..])
  }

  lemma NumberReads(d: Dtype, v: Value)
    requires Holds(d, v)
    ensures |EncodeNumber(d, v)| == BytesEach(d) == SizeOf(d) && Decode(d, EncodeNumber(d, v)) == v
  {
    Powers();
    hide Pow256;
    match d
    case Int32 => UnsignedRoundTrip(if v.n < 0 then v.n + 0x1_0000_0000 else v.n, 4);
    case Int64 => UnsignedRoundTrip(if v.n < 0 then v.n + 0x1_0000_0000_0000_0000 else v.n, 8);
    case UInt8 => assert Unsigned([v.n]) == v.n + 256 * Unsigned([]);
    case Float32 =>
    case Float64 =>
  }

  /** Numbers written one after the other are read back as they were, every dtype, any count. */
  lemma {:induction false} NumbersRead(d: Dtype, values: seq<Value>)
    requires AllHold(d, values)
    ensures |EncodeAll(d, values)| == |values| * BytesEach(d)
    ensures Unpacked(EncodeAll(d, values), d) == values
    decreases |values|
  {
    hide Decode, EncodeNumber, Holds;
    if values != [] {
      NumberReads(d, values[0]);
      NumbersRead(d, values[1..]);
      Onward(|values|, BytesEach(d));
      var one, all := EncodeNumber(d, values[0]), EncodeAll(d, values);
      assert all[..SizeOf(d)] == one && all[SizeOf(d)..] == EncodeAll(d, values[1..]);
    }
  }

  lemma Onward(count: nat, each: nat)
    requires count > 0
    ensures count * each == each + (count - 1) * each
  {
  }

  // Row-major order.

  /** The entry at a position, one index for each dimension. */
  function EntryOf(t: Tensor, at: seq<nat>): Option<Value>
    decreases at
  {
    if at == [] then (if t.Number? then Some(t.value) else None)
    else if !t.Nested? || at[0] >= |t.items| then None
    else EntryOf(t.items[at[0]], at[1..])
  }

  predicate Inside(at: seq<nat>, shape: seq<nat>) { |at| == |shape| && forall i :: 0 <= i < |at| ==> at[i] < shape[i] }

  /** How many entries come before a position: the last index runs fastest. */
  function Offset(at: seq<nat>, shape: seq<nat>): nat
    requires |at| == |shape|
  {
    if at == [] then 0 else at[0] * Product(shape[1..]) + Offset(at[1..], shape[1..])
  }

  lemma {:induction false} RowStarts(items: seq<Tensor>, rest: seq<nat>, i: nat, o: nat)
    requires i < |items| && o < Product(rest) && forall k :: 0 <= k < |items| ==> HasShape(items[k], rest)
    ensures |FlatAll(items)| == |items| * Product(rest) && |Flat(items[i])| == Product(rest)
    ensures i * Product(rest) + o < |FlatAll(items)|
    ensures FlatAll(items)[i * Product(rest) + o] == Flat(items[i])[o]
  {
    hide HasShape, Flat;
    FlatAllSize(items, rest);
    FlatSize(items[0], rest);
    FlatSize(items[i], rest);
    Before(i, o, Product(rest), |items|);
    if i > 0 {
      RowStarts(items[1..], rest, i - 1, o);
      Onward(i, Product(rest));
    }
  }

  lemma Before(i: nat, o: nat, each: nat, count: nat)
    requires i < count && o < each
    ensures i * each + o < count * each
  {
    assert (i + 1) * each <= count * each;
  }

  /** A tensor's flat list is its entries in row-major order. */
  lemma {:induction false} FlatIsRowMajor(t: Tensor, shape: seq<nat>, at: seq<nat>)
    requires HasShape(t, shape) && Inside(at, shape)
    ensures Offset(at, shape) < |Flat(t)| == Product(shape)
    ensures EntryOf(t, at) == Some(Flat(t)[Offset(at, shape)])
    decreases |shape|
  {
    FlatSize(t, shape);
    if shape != [] {
      FlatSize(t.items[at[0]], shape[1..]);
      FlatIsRowMajor(t.items[at[0]], shape[1..], at[1..]);
      RowStarts(t.items, shape[1..], at[0], Offset(at[1..], shape[1..]));
    }
  }

  // Finite floats.

  /** The biased exponent of a 32-bit or 64-bit float, read off the number its bytes spell. */
  function Exponent(bits: Bytes): nat {
    if |bits| == 4 then (Unsigned(bits) / 0x80_0000) % 0x100 else (Unsigned(bits) / 0x10_0000_0000_0000) % 0x800
  }

  lemma {:induction false} SpellSplit(bits: Bytes, n: nat)
    requires n <= |bits|
    ensures Unsigned(bits) == Unsigned(bits[..n]) + Pow256(n) * Unsigned(bits[n..])
    decreases n
  {
    if n == 0 {
      assert bits[0..] == bits;
    } else {
      SpellSplit(bits[1..], n - 1);
      assert bits[..n][1..] == bits[1..][..n - 1] && bits[n..] == bits[1..][n - 1..];
      assert bits[..n][0] == bits[0];
    }
  }

  lemma {:induction false} SpellBound(bits: Bytes)
    ensures Unsigned(bits) < Pow256(|bits|)
  {
    if bits != [] {
      SpellBound(bits[1..]);
    }
  }

  lemma SpellTwo(bits: Bytes)
    requires |bits| == 2
    ensures Unsigned(bits) == bits[0] as int + 256 * bits[1] as int
  {
    assert bits[1..][1..] == [];
    assert Unsigned(bits[1..]) == bits[1] as int + 256 * Unsigned([]);
  }

  /** The top two bytes over the rest. */
  lemma TopTwo(bits: Bytes)
    requires |bits| >= 2
    ensures var n := |bits| - 2;
      Unsigned(bits) == Unsigned(bits[..n]) + Pow256(n) * (bits[n] as int + 256 * bits[n + 1] as int)
      && Unsigned(bits[..n]) < Pow256(n)
  {
    var n := |bits| - 2;
    SpellSplit(bits, n);
    SpellTwo(bits[n..]);
    SpellBound(bits[..n]);
  }

  lemma Quotient(n: nat, d: nat, q: nat, low: nat)
    requires d > 0 && n == d * q + low && low < d
    ensures n / d == q
  {
    SmallMultiple(d, q - n / d);
  }

  lemma SmallMultiple(d: nat, m: int)
    requires -(d as int) < d * m < d
    ensures m == 0
  {
  }

  lemma ExponentOfFour(bits: Bytes)
    requires |bits| == 4
    ensures Exponent(bits) == bits[3] as int % 128 * 2 + bits[2] as int / 128
  {
    Powers();
    TopTwo(bits);
    var b2, b3: int := bits[2] as int, bits[3] as int;
    var low := Unsigned(bits[..2]) + 65536 * (b2 % 128);
    assert Unsigned(bits) == 0x80_0000 * (2 * b3 + b2 / 128) + low;
    Quotient(Unsigned(bits), 0x80_0000, 2 * b3 + b2 / 128, low);
    assert b3 == 128 * (b3 / 128) + b3 % 128;
  }

  lemma ExponentOfEight(bits: Bytes)
    requires |bits| == 8
    ensures Exponent(bits) == bits[7] as int % 128 * 16 + bits[6] as int / 16
  {
    TopTwo(bits);
    assert Pow256(6) == 0x1_0000_0000_0000 by {
      Powers();
      assert Pow256(6) == 256 * Pow256(5) && Pow256(5) == 256 * Pow256(4);
    }
    hide Pow256;
    var b6, b7: int := bits[6] as int, bits[7] as int;
    var low := Unsigned(bits[..6]) + 0x1_0000_0000_0000 * (b6 % 16);
    assert Unsigned(bits) == 0x10_0000_0000_0000 * (16 * b7 + b6 / 16) + low;
    Quotient(Unsigned(bits), 0x10_0000_0000_0000, 16 * b7 + b6 / 16, low);
    assert b7 == 128 * (b7 / 128) + b7 % 128;
  }

  /** A float is finite exactly when its exponent bits are not all ones. */
  lemma FiniteExactly(bits: Bytes)
    ensures |bits| == 4 ==> (FiniteBits(bits) <==> Exponent(bits) != 0xFF)
    ensures |bits| == 8 ==> (FiniteBits(bits) <==> Exponent(bits) != 0x7FF)
  {
    if |bits| == 4 {
      ExponentOfFour(bits);
    } else if |bits| == 8 {
      ExponentOfEight(bits);
    }
    hide Exponent;
  }

  // Which files verify.

  /**
   A file verifies exactly when reading it is allowed, it is there, it is as long as its shape and dtype say and no
   longer than 64 MiB, it has the declared digest, and its numbers, if they are floats, are finite.
   */
  lemma VerifiesExactly(r: Reference, disk: Disk)
    ensures Verdict(r, disk).None? <==>
      && disk.permits(r.path) && disk.content(r.path).Some?
      && var content := disk.content(r.path).value;
      && |content| == Product(r.shape) * BytesEach(r.dtype) <= 0x400_0000
      && disk.sha256(content) == r.digest
      && (r.dtype == Float32 || r.dtype == Float64 ==> AllFinite(Unpacked(content, r.dtype)))
  {
    if disk.content(r.path).Some? && Floating(r.dtype) {
      ScanAgrees(disk.content(r.path).value, r.dtype);
    }
    hide WholeFinite, AllFinite, Unpacked;
  }

  /** So a file a writer made of finite numbers, with its own digest, verifies, and loads as those numbers. */
  lemma WrittenVerifies(r: Reference, disk: Disk, values: seq<Value>)
    requires AllHold(r.dtype, values) && AllFinite(values) && |values| == Product(r.shape)
    requires disk.permits(r.path) && disk.content(r.path) == Some(EncodeAll(r.dtype, values))
    requires disk.sha256(EncodeAll(r.dtype, values)) == r.digest && |values| * BytesEach(r.dtype) <= 0x400_0000
    ensures Verdict(r, disk).None? && Unpacked(disk.content(r.path).value, r.dtype) == values
  {
    NumbersRead(r.dtype, values);
    VerifiesExactly(r, disk);
  }
}
