/** Vectors, dot products and weighted sums over exact reals. */
module Linear {

  type Vector = seq<real>

  /** Multiplication by name, so that proofs about sums need not look inside products. */
  function Mul(a: real, b: real): real { a * b }

  lemma MulSum(a: real, b: real, c: real)
    ensures Mul(a + b, c) == Mul(a, c) + Mul(b, c)
    ensures Mul(c, a + b) == Mul(c, a) + Mul(c, b)
  {
  }

  lemma MulAssoc(a: real, b: real, c: real)
    ensures Mul(Mul(a, b), c) == Mul(a, Mul(b, c))
  {
  }

  lemma MulSwap(a: real, b: real)
    ensures Mul(a, b) == Mul(b, a)
  {
  }

  lemma PositiveProduct(a: real, b: real)
    requires a > 0.0 && b > 0.0
    ensures Mul(a, b) > 0.0
  {
  }

  lemma NegatedSquare(a: real)
    ensures Mul(a, a) == Mul(-a, -a)
  {
    MulZero(a);
    MulZero(-a);
    hide Mul;
    MulSum(a, -a, a);
    MulSum(a, -a, -a);
  }

  lemma MulZero(a: real)
    ensures Mul(0.0, a) == 0.0 && Mul(a, 0.0) == 0.0
  {
  }

  lemma SquareSign(a: real)
    ensures Mul(a, a) >= 0.0
    ensures Mul(a, a) == 0.0 ==> a == 0.0
  {
    hide Mul;
    if a > 0.0 {
      PositiveProduct(a, a);
    } else if a < 0.0 {
      PositiveProduct(-a, -a);
      NegatedSquare(a);
    } else {
      MulZero(a);
    }
  }

  function Dot(a: Vector, b: Vector): real
    requires |a| == |b|
  {
    if a == [] then 0.0 else Mul(a[0], b[0]) + Dot(a[1..], b[1..])
  }

  function Plus(a: Vector, b: Vector): (r: Vector)
    requires |a| == |b|
    ensures |r| == |a|
  {
    seq(|a|, i requires 0 <= i < |a| => a[i] + b[i])
  }

  function Scaled(k: real, a: Vector): (r: Vector)
    ensures |r| == |a|
  {
    seq(|a|, i requires 0 <= i < |a| => Mul(k, a[i]))
  }

  function Zeros(n: nat): (r: Vector)
    ensures |r| == n
  {
    seq(n, i => 0.0)
  }

  lemma PlusTail(a: Vector, b: Vector)
    requires |a| == |b| > 0
    ensures Plus(a, b)[1..] == Plus(a[1..], b[1..]) && Plus(a, b)[0] == a[0] + b[0]
  {
  }

  lemma ScaledTail(k: real, a: Vector)
    requires |a| > 0
    ensures Scaled(k, a)[1..] == Scaled(k, a[1..]) && Scaled(k, a)[0] == Mul(k, a[0])
  {
    hide Mul;
  }

  lemma {:induction false} DotPlus(a: Vector, b: Vector, c: Vector)
    requires |a| == |b| == |c|
    ensures Dot(Plus(a, b), c) == Dot(a, c) + Dot(b, c)
  {
    hide Mul, Plus;
    if a != [] {
      PlusTail(a, b);
      DotPlus(a[1..], b[1..], c[1..]);
      MulSum(a[0], b[0], c[0]);
    }
  }

  lemma {:induction false} DotScaled(k: real, a: Vector, b: Vector)
    requires |a| == |b|
    ensures Dot(Scaled(k, a), b) == Mul(k, Dot(a, b))
  {
    if a == [] {
    } else {
      hide Mul, Scaled;
      ScaledTail(k, a);
      DotScaled(k, a[1..], b[1..]);
      MulAssoc(k, a[0], b[0]);
      MulSum(Mul(a[0], b[0]), Dot(a[1..], b[1..]), k);
    }
  }

  lemma {:induction false} DotSymmetric(a: Vector, b: Vector)
    requires |a| == |b|
    ensures Dot(a, b) == Dot(b, a)
  {
    hide Mul;
    if a != [] {
      DotSymmetric(a[1..], b[1..]);
      MulSwap(a[0], b[0]);
    }
  }

  lemma {:induction false} DotZeros(a: Vector)
    ensures Dot(Zeros(|a|), a) == 0.0
  {
    if a != [] {
      assert Zeros(|a|)[1..] == Zeros(|a[1..]|);
      DotZeros(a[1..]);
    }
  }

  lemma {:induction false} DotAppend(a: Vector, b: Vector, x: real, y: real)
    requires |a| == |b|
    ensures Dot(a + [x], b + [y]) == Dot(a, b) + Mul(x, y)
  {
    hide Mul;
    if a == [] {
      assert a + [x] == [x] && b + [y] == [y];
      assert [x][1..] == [] && [y][1..] == [];
    } else {
      assert (a + [x])[1..] == a[1..] + [x] && (b + [y])[1..] == b[1..] + [y];
      DotAppend(a[1..], b[1..], x, y);
    }
  }

  /** A vector that is zero except for a one at `i` picks out entry `i`. */
  lemma {:induction false} DotUnit(u: Vector, x: Vector, i: nat)
    requires |u| == |x| && i < |u|
    requires forall k :: 0 <= k < |u| ==> u[k] == (if k == i then 1.0 else 0.0)
    ensures Dot(u, x) == x[i]
  {
    if i == 0 {
      assert u[1..] == Zeros(|x[1..]|);
      DotZeros(x[1..]);
    } else {
      DotUnit(u[1..], x[1..], i - 1);
    }
  }

  lemma {:induction false} DotSquare(a: Vector)
    ensures Dot(a, a) >= 0.0
    ensures Dot(a, a) == 0.0 ==> a == Zeros(|a|)
  {
    hide Mul;
    if a != [] {
      DotSquare(a[1..]);
      SquareSign(a[0]);
      if Dot(a, a) == 0.0 {
        assert a == [a[0]] + a[1..];
      }
    }
  }
}
