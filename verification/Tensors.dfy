/**
 Tensors as nested lists: their shape, the validation of src/omnitensor/dispatch.py, the measurement of
 src/omnitensor/tensorcontract.py, and the row-major reshape of src/omnitensor/tensorref.py.
 */
module Tensors {
  import opened Octets
  import opened Prelude

  /** A number: an integer, or a float kept as its little-endian bit pattern. */
  datatype Value = Whole(n: int) | Float(bits: Bytes)

  /** IEEE 754: infinities and NaNs are the patterns whose exponent bits are all ones. */
  predicate FiniteBits(bits: Bytes) {
    if |bits| == 4 then (bits[3] as int % 128) * 2 + bits[2] as int / 128 != 255
    else if |bits| == 8 then (bits[7] as int % 128) * 16 + bits[6] as int / 16 != 2047
    else true
  }

  predicate Finite(v: Value) { v.Whole? || FiniteBits(v.bits) }

  /** Anything a payload may hold where a tensor is expected. */
  datatype Tensor = Number(value: Value) | NotANumber | Nested(items: seq<Tensor>)

  datatype Fault = NotNumbers | NotFinite | OverBudget | Ragged

  function Product(shape: seq<nat>): nat {
    if shape == [] then 1 else shape[0] * Product(shape[1..])
  }

  /** `t` is rectangular with exactly these dimensions; an empty list ends them. */
  ghost predicate HasShape(t: Tensor, shape: seq<nat>)
    decreases shape
  {
    if shape == [] then t.Number?
    else
      && t.Nested? && |t.items| == shape[0] && (t.items == [] ==> |shape| == 1)
      && forall i :: 0 <= i < |t.items| ==> HasShape(t.items[i], shape[1..])
  }

  ghost predicate Positive(shape: seq<nat>) { forall i :: 0 <= i < |shape| ==> shape[i] >= 1 }

  // Flattening and reshaping.

  function Flat(t: Tensor): seq<Value> {
    match t
    case Number(v) => [v]
    case NotANumber => []
    case Nested(items) => FlatAll(items)
  }

  function FlatAll(items: seq<Tensor>): seq<Value> {
    if items == [] then [] else Flat(items[0]) + FlatAll(items[1..])
  }

  /** The flat list cut into rows of `stride`, each reshaped to the rest of the shape. */
  function Reshape(flat: seq<Value>, shape: seq<nat>): Tensor
    requires shape != [] && |flat| == Product(shape) && forall i :: 0 <= i < |shape| ==> shape[i] >= 1
    decreases |shape|, 1, 0
  {
    if |shape| == 1 then Nested(Leaves(flat)) else Nested(Rows(flat, shape[0], shape[1..]))
  }

  function Leaves(flat: seq<Value>): (r: seq<Tensor>)
    ensures |r| == |flat| && forall i :: 0 <= i < |r| ==> r[i] == Number(flat[i])
  {
    seq(|flat|, i requires 0 <= i < |flat| => Number(flat[i]))
  }

  function Rows(flat: seq<Value>, count: nat, rest: seq<nat>): seq<Tensor>
    requires rest != [] && |flat| == count * Product(rest) && forall i :: 0 <= i < |rest| ==> rest[i] >= 1
    decreases |rest|, 2, count
  {
    if count == 0 then []
    else
      var stride := Product(rest);
      RowFits(count, stride);
      [Reshape(flat[..stride], rest)] + Rows(flat[stride..], count - 1, rest)
  }

  lemma RowFits(count: nat, stride: nat)
    requires count > 0
    ensures count * stride == stride + (count - 1) * stride && stride <= count * stride
  {
  }

  lemma {:induction false} LeavesFlat(flat: seq<Value>)
    ensures FlatAll(Leaves(flat)) == flat
  {
    if flat != [] {
      LeavesFlat(flat[1..]);
      assert Leaves(flat)[1..] == Leaves(flat[1..]);
    }
  }

  /** Reshaping gives a tensor of exactly that shape whose elements, in row-major order, are the flat list. */
  lemma {:induction false} ReshapeInverts(flat: seq<Value>, shape: seq<nat>)
    requires shape != [] && |flat| == Product(shape) && Positive(shape)
    ensures HasShape(Reshape(flat, shape), shape) && Flat(Reshape(flat, shape)) == flat
    decreases |shape|, 1, 0
  {
    if |shape| == 1 {
      LeavesFlat(flat);
      assert shape == [shape[0]] && Product(shape[1..]) == 1;
    } else {
      RowsInvert(flat, shape[0], shape[1..]);
    }
  }

  lemma {:induction false} RowsInvert(flat: seq<Value>, count: nat, rest: seq<nat>)
    requires rest != [] && |flat| == count * Product(rest) && Positive(rest)
    ensures var rows := Rows(flat, count, rest);
      && |rows| == count && FlatAll(rows) == flat
      && forall i :: 0 <= i < count ==> HasShape(rows[i], rest)
    decreases |rest|, 2, count
  {
    if count > 0 {
      var stride := Product(rest);
      RowFits(count, stride);
      ReshapeInverts(flat[..stride], rest);
      RowsInvert(flat[stride..], count - 1, rest);
      var first, later := Reshape(flat[..stride], rest), Rows(flat[stride..], count - 1, rest);
      assert Rows(flat, count, rest) == [first] + later;
      assert ([first] + later)[1..] == later;
    }
  }

  lemma {:induction false} FlatSize(t: Tensor, shape: seq<nat>)
    requires HasShape(t, shape)
    ensures |Flat(t)| == Product(shape)
    decreases shape, 0
  {
    if shape != [] {
      FlatAllSize(t.items, shape[1..]);
    }
  }

  lemma {:induction false} FlatAllSize(items: seq<Tensor>, rest: seq<nat>)
    requires forall i :: 0 <= i < |items| ==> HasShape(items[i], rest)
    ensures |FlatAll(items)| == |items| * Product(rest)
    decreases rest, 1, |items|
  {
    if items != [] {
      FlatSize(items[0], rest);
      FlatAllSize(items[1..], rest);
      RowFits(|items|, Product(rest));
    }
  }

  /** Two tensors of one shape with the same elements in row-major order are the same tensor. */
  lemma {:induction false} FlatDetermines(a: Tensor, b: Tensor, shape: seq<nat>)
    requires HasShape(a, shape) && HasShape(b, shape) && Flat(a) == Flat(b)
    ensures a == b
    decreases shape, 0
  {
    if shape != [] {
      FlatAllDetermines(a.items, b.items, shape[1..]);
    }
  }

  lemma {:induction false} FlatAllDetermines(a: seq<Tensor>, b: seq<Tensor>, rest: seq<nat>)
    requires |a| == |b| && FlatAll(a) == FlatAll(b)
    requires forall i :: 0 <= i < |a| ==> HasShape(a[i], rest) && HasShape(b[i], rest)
    ensures a == b
    decreases rest, 1, |a|
  {
    if a != [] {
      FlatSize(a[0], rest);
      FlatSize(b[0], rest);
      var stride := Product(rest);
      assert Flat(a[0]) == FlatAll(a)[..stride] == FlatAll(b)[..stride] == Flat(b[0]);
      assert FlatAll(a[1..]) == FlatAll(a)[stride..] == FlatAll(b)[stride..] == FlatAll(b[1..]);
      FlatDetermines(a[0], b[0], rest);
      FlatAllDetermines(a[1..], b[1..], rest);
      assert a == [a[0]] + a[1..] && b == [b[0]] + b[1..];
    }
  }

  /** Reshaping and flattening are inverse to each other on tensors of the declared shape. */
  lemma ReshapeFlat(t: Tensor, shape: seq<nat>)
    requires shape != [] && Positive(shape) && HasShape(t, shape)
    ensures |Flat(t)| == Product(shape) && Reshape(Flat(t), shape) == t
  {
    FlatSize(t, shape);
    ReshapeInverts(Flat(t), shape);
    FlatDetermines(Reshape(Flat(t), shape), t, shape);
  }

  // Validation.

  /** The shape read off the first elements, right only for a rectangular tensor. */
  function TensorShape(t: Tensor): seq<nat> {
    if !t.Nested? then []
    else [|t.items|] + (if t.items == [] then [] else TensorShape(t.items[0]))
  }

  predicate OneShape(items: seq<Tensor>) {
    forall i, j :: 0 <= i < j < |items| ==> TensorShape(items[i]) == TensorShape(items[j])
  }

  /** The verdict on one tensor and what is left of the budget; the first fault met is the one reported. */
  datatype Judgement = Judgement(fault: Option<Fault>, left: int)

  function Judge(t: Tensor, budget: int): Judgement {
    match t
    case NotANumber => Judgement(Some(NotNumbers), budget)
    case Number(v) =>
      Judgement(if budget < 1 then Some(OverBudget) else if !Finite(v) then Some(NotFinite) else None, budget - 1)
    case Nested(items) =>
      var all := JudgeAll(items, budget);
      if all.fault.None? && !OneShape(items) then Judgement(Some(Ragged), all.left) else all
  }

  function JudgeAll(items: seq<Tensor>, budget: int): Judgement {
    if items == [] then Judgement(None, budget)
    else
      var first := Judge(items[0], budget);
      if first.fault.Some? then first else JudgeAll(items[1..], first.left)
  }

  predicate AllFinite(values: seq<Value>) { forall i :: 0 <= i < |values| ==> Finite(values[i]) }

  ghost predicate RectangularTensor(t: Tensor) { HasShape(t, TensorShape(t)) }

  /** A rectangular tensor of finite numbers within the budget. */
  ghost predicate Acceptable(t: Tensor, budget: int) {
    RectangularTensor(t) && AllFinite(Flat(t)) && |Flat(t)| <= budget
  }

  lemma {:induction false} ShapeUnique(t: Tensor, shape: seq<nat>)
    requires HasShape(t, shape)
    ensures TensorShape(t) == shape
    decreases shape
  {
    if shape != [] {
      assert shape == [shape[0]] + shape[1..];
      if t.items != [] {
        ShapeUnique(t.items[0], shape[1..]);
      }
    }
  }

  /** A list is rectangular exactly when its items are, all of one shape. */
  lemma NestedRectangular(items: seq<Tensor>)
    ensures RectangularTensor(Nested(items)) <==> (forall i :: 0 <= i < |items| ==> RectangularTensor(items[i])) && OneShape(items)
  {
    var t := Nested(items);
    if items != [] {
      assert TensorShape(t)[1..] == TensorShape(items[0]);
      if RectangularTensor(t) {
        forall i | 0 <= i < |items| ensures TensorShape(items[i]) == TensorShape(items[0]) && RectangularTensor(items[i]) {
          ShapeUnique(items[i], TensorShape(items[0]));
        }
      }
    }
  }

  lemma {:induction false} JudgeAccepts(t: Tensor, budget: int)
    requires budget >= 0
    ensures Judge(t, budget).fault.None? <==> Acceptable(t, budget)
    ensures Judge(t, budget).fault.None? ==> Judge(t, budget).left == budget - |Flat(t)|
    decreases t, 0
  {
    match t
    case NotANumber =>
    case Number(v) => assert Flat(t)[0] == v;
    case Nested(items) =>
      JudgeAllAccepts(items, budget);
      NestedRectangular(items);
  }

  lemma {:induction false} JudgeAllAccepts(items: seq<Tensor>, budget: int)
    requires budget >= 0
    ensures var j := JudgeAll(items, budget);
      && (j.fault.None? <==>
            (forall i :: 0 <= i < |items| ==> RectangularTensor(items[i])) && AllFinite(FlatAll(items)) && |FlatAll(items)| <= budget)
      && (j.fault.None? ==> j.left == budget - |FlatAll(items)|)
    decreases items, 1
  {
    hide RectangularTensor;
    if items != [] {
      JudgeAccepts(items[0], budget);
      FiniteSplit(Flat(items[0]), FlatAll(items[1..]));
      assert items == [items[0]] + items[1..];
      if Judge(items[0], budget).fault.None? {
        JudgeAllAccepts(items[1..], Judge(items[0], budget).left);
      }
    }
  }

  lemma FiniteSplit(a: seq<Value>, b: seq<Value>)
    ensures AllFinite(a + b) <==> AllFinite(a) && AllFinite(b)
  {
    if AllFinite(a + b) {
      forall i | 0 <= i < |a| ensures Finite(a[i]) {
        assert (a + b)[i] == a[i];
      }
      forall i | 0 <= i < |b| ensures Finite(b[i]) {
        assert (a + b)[|a| + i] == b[i];
      }
    }
  }

  // Measuring for the model's contract.

  /** The shape of a tensor, or nothing when it is ragged or holds an empty list. */
  function RectangularShape(t: Tensor): Option<seq<nat>> {
    if !t.Nested? then Some([])
    else if t.items == [] then None
    else
      var first := RectangularShape(t.items[0]);
      if first.None? || exists i :: 0 < i < |t.items| && RectangularShape(t.items[i]) != first then None
      else Some([|t.items|] + first.value)
  }

  /** What the contract check knows of an inline tensor; a bare number is not measured at all. */
  function MeasuredShape(t: Tensor): Option<seq<nat>> {
    if t.Nested? then RectangularShape(t) else None
  }

  lemma {:induction false} RectangularMeasures(t: Tensor)
    requires RectangularTensor(t)
    ensures RectangularShape(t) == if Flat(t) == [] then None else Some(TensorShape(t))
    decreases t
  {
    if t.Nested? && t.items != [] {
      NestedRectangular(t.items);
      var first := TensorShape(t.items[0]);
      FlatAllSize(t.items, first);
      FlatSize(t.items[0], first);
      forall i | 0 <= i < |t.items|
        ensures RectangularShape(t.items[i]) == if Flat(t.items[0]) == [] then None else Some(first)
      {
        RectangularMeasures(t.items[i]);
        FlatSize(t.items[i], first);
      }
      SomeFlat(|t.items|, |Flat(t.items[0])|);
    }
  }

  /**
   A tensor the validator accepts is measured by its true shape, unless it is a bare number or holds no number:
   then nothing is known of it.
   */
  lemma MeasuresAccepted(t: Tensor)
    requires RectangularTensor(t)
    ensures MeasuredShape(t) == if t.Number? || Flat(t) == [] then None else Some(TensorShape(t))
  {
    RectangularMeasures(t);
  }

  lemma SomeFlat(count: nat, each: nat)
    requires count > 0
    ensures count * each == 0 <==> each == 0
  {
  }

  /** What one payload may still spend, shared by all its tensors. */
  class ElementBudget {
    var remaining: int

    constructor (maximum: int)
      ensures remaining == maximum
    {
      remaining := maximum;
    }

    method Spend(count: nat) returns (within: bool)
      modifies this
      ensures remaining == old(remaining) - count && within == (remaining >= 0)
    {
      remaining := remaining - count;
      within := remaining >= 0;
    }
  }

  method ValidateInputTensor(t: Tensor, budget: ElementBudget) returns (fault: Option<Fault>)
    modifies budget
    ensures Judgement(fault, budget.remaining) == Judge(t, old(budget.remaining))
    ensures old(budget.remaining) >= 0 ==> (fault.None? <==> Acceptable(t, old(budget.remaining)))
    decreases t, 0
  {
    if old(budget.remaining) >= 0 {
      JudgeAccepts(t, old(budget.remaining));
    }
    hide Acceptable;
    match t
    case NotANumber => fault := Some(NotNumbers);
    case Number(v) =>
      var within := budget.Spend(1);
      fault := if !within then Some(OverBudget) else if !Finite(v) then Some(NotFinite) else None;
    case Nested(items) =>
      fault := ValidateItems(items, budget);
      if fault.None? && !OneShape(items) {
        fault := Some(Ragged);
      }
  }

  method ValidateItems(items: seq<Tensor>, budget: ElementBudget) returns (fault: Option<Fault>)
    modifies budget
    ensures Judgement(fault, budget.remaining) == JudgeAll(items, old(budget.remaining))
    decreases items, 1
  {
    for i := 0 to |items|
      invariant JudgeAll(items, old(budget.remaining)) == JudgeAll(items[i..], budget.remaining)
    {
      assert items[i..][1..] == items[i + 1..];
      fault := ValidateInputTensor(items[i], budget);
      if fault.Some? {
        return;
      }
    }
    fault := None;
  }
}
