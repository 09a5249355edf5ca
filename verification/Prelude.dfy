/** Shared vocabulary: optional values, fallible results and small facts about sequences. */
module Prelude {

  datatype Option<+T> = None | Some(value: T)

  datatype Result<+T, +E> = Ok(value: T) | Err(error: E)

  /** No element occurs at two positions. */
  ghost predicate Distinct<T>(s: seq<T>) {
    forall i, j :: 0 <= i < j < |s| ==> s[i] != s[j]
  }

  /** `s` without the first occurrence of `x`. */
  function Without<T(==)>(s: seq<T>, x: T): (r: seq<T>)
    ensures x !in s ==> r == s
    ensures x in s ==> |r| == |s| - 1
  {
    if s == [] then []
    else if s[0] == x then s[1..]
    else [s[0]] + Without(s[1..], x)
  }

  lemma {:induction false} WithoutFirst<T>(s: seq<T>, x: T, i: nat)
    requires i < |s| && s[i] == x && x !in s[..i]
    ensures Without(s, x) == s[..i] + s[i + 1..]
  {
    if i > 0 {
      assert s[1..][..i - 1] == s[..i][1..] && s[0] in s[..i];
      WithoutFirst(s[1..], x, i - 1);
    }
  }

  lemma WithoutMembers<T>(s: seq<T>, x: T)
    requires Distinct(s)
    ensures Distinct(Without(s, x))
    ensures forall y :: y in Without(s, x) <==> y in s && y != x
  {
    if s != [] {
      var rest := s[1..];
      assert s == [s[0]] + rest;
      assert s[0] !in rest;
      assert Distinct(rest);
      if s[0] != x {
        WithoutMembers(rest, x);
      }
    }
  }

  lemma WithoutCounts<T>(s: seq<T>, x: T)
    ensures multiset(Without(s, x)) == multiset(s) - multiset{x}
  {
    if s != [] {
      assert s == [s[0]] + s[1..];
      if s[0] != x {
        WithoutCounts(s[1..], x);
      }
    }
  }

  /** `a` can be obtained from `b` by striking out elements, keeping the order of the rest. */
  ghost predicate Subsequence<T>(a: seq<T>, b: seq<T>)
    decreases |b|
  {
    a == [] ||
    (b != [] && ((a[0] == b[0] && Subsequence(a[1..], b[1..])) || Subsequence(a, b[1..])))
  }

  lemma SubsequenceRefl<T>(a: seq<T>)
    ensures Subsequence(a, a)
  {
    if a != [] {
      SubsequenceRefl(a[1..]);
    }
  }

  lemma SubsequenceTrans<T>(a: seq<T>, b: seq<T>, c: seq<T>)
    requires Subsequence(a, b) && Subsequence(b, c)
    ensures Subsequence(a, c)
    decreases |c|
  {
    if a != [] {
      if b[0] == c[0] && Subsequence(b[1..], c[1..]) {
        if a[0] == b[0] && Subsequence(a[1..], b[1..]) {
          SubsequenceTrans(a[1..], b[1..], c[1..]);
        } else {
          SubsequenceTrans(a, b[1..], c[1..]);
        }
      } else {
        SubsequenceTrans(a, b, c[1..]);
      }
    }
  }

  lemma WithoutIsSubsequence<T>(s: seq<T>, x: T, tail: seq<T>)
    ensures Subsequence(Without(s, x) + tail, s + tail)
  {
    if s == [] {
      SubsequenceRefl(tail);
      assert Without(s, x) + tail == tail == s + tail;
    } else if s[0] == x {
      SubsequenceRefl(s[1..] + tail);
      assert (s + tail)[1..] == s[1..] + tail;
    } else {
      WithoutIsSubsequence(s[1..], x, tail);
      assert (s + tail)[1..] == s[1..] + tail;
      assert (Without(s, x) + tail)[1..] == Without(s[1..], x) + tail;
    }
  }

  function DropAt<T>(s: seq<T>, i: nat): (r: seq<T>)
    requires i < |s|
    ensures |r| == |s| - 1
    ensures forall k :: 0 <= k < |r| ==> r[k] == s[if k < i then k else k + 1]
  {
    s[..i] + s[i + 1..]
  }

  /** How many of `count` are over the bound. */
  function Surplus(count: nat, max: nat): nat { if count > max then count - max else 0 }
}
