/** Points, the abstract square root, and minimum/maximum over sequences of reals. */
module Geometry {

  /** A world- or screen-space coordinate. */
  datatype Point = Point(x: real, y: real)

  function Min(a: real, b: real): real { if a <= b then a else b }
  function Max(a: real, b: real): real { if a >= b then a else b }

  /** `sqrt` is the non-negative square root on non-negative arguments (numpy's sqrt over reals);
      the root of a positive number is positive. */
  ghost predicate IsSqrt(sqrt: real -> real) {
    forall a :: 0.0 <= a ==> 0.0 <= sqrt(a) && sqrt(a) * sqrt(a) == a && (0.0 < a ==> 0.0 < sqrt(a))
  }

  /** `b - a`. Kept as a named function so that products of coordinate differences are products of
      single terms, which the arithmetic solver handles much better than products of sums. */
  function Delta(a: real, b: real): real { b - a }

  /** Squared Euclidean distance from (x1, y1) to (x2, y2). */
  function SqDist(x1: real, y1: real, x2: real, y2: real): (r: real)
    ensures 0.0 <= r
  {
    SquareSign(Delta(x1, x2));
    SquareSign(Delta(y1, y2));
    Delta(x1, x2) * Delta(x1, x2) + Delta(y1, y2) * Delta(y1, y2)
  }

  lemma SquareSign(d: real)
    ensures 0.0 <= d * d
    ensures d < 0.0 || 0.0 < d ==> 0.0 < d * d
  {
    if d < 0.0 || 0.0 < d {
      assert 0.0 < d * d;
    }
  }

  /** A point is at squared distance zero from itself. */
  lemma SqDistSelf(x: real, y: real)
    ensures SqDist(x, y, x, y) == 0.0
  {
    assert Delta(x, x) == 0.0 && Delta(y, y) == 0.0;
  }

  /** Moving a fraction `t` in [0, 1] of the way from (x1, y1) to (x2, y2) gets no farther from
      (x1, y1) than (x2, y2) is. */
  lemma SqDistScaled(x1: real, y1: real, x2: real, y2: real, t: real, px: real, py: real)
    requires 0.0 <= t <= 1.0 && px == x1 + t * Delta(x1, x2) && py == y1 + t * Delta(y1, y2)
    ensures SqDist(x1, y1, px, py) <= SqDist(x1, y1, x2, y2)
  {
    ScaledSquare(t, Delta(x1, x2), Delta(x1, px));
    ScaledSquare(t, Delta(y1, y2), Delta(y1, py));
  }

  lemma ScaledSquare(t: real, w: real, u: real)
    requires 0.0 <= t <= 1.0 && u == t * w
    ensures u * u <= w * w
  {
    assert u * u == (t * t) * (w * w);
    assert t * t <= t;
  }

  lemma NonNegRootUnique(a: real, b: real)
    requires 0.0 <= a && 0.0 <= b && a * a == b * b
    ensures a == b
  {
    assert (a - b) * (a + b) == a * a - b * b;
    if a + b != 0.0 {
      assert a - b == 0.0;
    }
  }

  lemma SqrtZero(sqrt: real -> real)
    requires IsSqrt(sqrt)
    ensures sqrt(0.0) == 0.0
  {
    NonNegRootUnique(sqrt(0.0), 0.0);
  }

  lemma FactorSign(x: real, y: real)
    requires 0.0 < y && x * y <= 0.0
    ensures x <= 0.0
  {
  }

  /** The root is monotone. */
  lemma SqrtMonotone(sqrt: real -> real, a: real, b: real)
    requires IsSqrt(sqrt) && 0.0 <= a <= b
    ensures sqrt(a) <= sqrt(b)
  {
    var sa, sb := sqrt(a), sqrt(b);
    assert (sa - sb) * (sa + sb) == a - b <= 0.0;
    if sa + sb == 0.0 {
      assert sa == 0.0 && sb == 0.0;
    } else {
      FactorSign(sa - sb, sa + sb);
    }
  }

  /** Smallest element (numpy's `min`). */
  function SeqMin(s: seq<real>): real
    requires |s| > 0
  {
    if |s| == 1 then s[0]
    else
      var r := SeqMin(s[1..]);
      if s[0] <= r then s[0] else r
  }

  /** Largest element (numpy's `max`). */
  function SeqMax(s: seq<real>): real
    requires |s| > 0
  {
    if |s| == 1 then s[0]
    else
      var r := SeqMax(s[1..]);
      if s[0] >= r then s[0] else r
  }

  /** `SeqMin` is at most every element and is one of them. */
  lemma {:induction false} SeqMinIsMinimum(s: seq<real>)
    requires |s| > 0
    ensures forall i :: 0 <= i < |s| ==> SeqMin(s) <= s[i]
    ensures exists i :: 0 <= i < |s| && s[i] == SeqMin(s)
  {
    if |s| > 1 {
      var t := s[1..];
      SeqMinIsMinimum(t);
      assert forall i :: 1 <= i < |s| ==> t[i - 1] == s[i];
      var r := SeqMin(t);
      assert SeqMin(s) == if s[0] <= r then s[0] else r;
      if SeqMin(s) != s[0] {
        var j :| 0 <= j < |t| && t[j] == r;
        assert s[j + 1] == SeqMin(s);
      }
    } else {
      assert s[0] == SeqMin(s);
    }
  }

  /** `SeqMax` is at least every element and is one of them. */
  lemma {:induction false} SeqMaxIsMaximum(s: seq<real>)
    requires |s| > 0
    ensures forall i :: 0 <= i < |s| ==> s[i] <= SeqMax(s)
    ensures exists i :: 0 <= i < |s| && s[i] == SeqMax(s)
  {
    if |s| > 1 {
      var t := s[1..];
      SeqMaxIsMaximum(t);
      assert forall i :: 1 <= i < |s| ==> t[i - 1] == s[i];
      var r := SeqMax(t);
      assert SeqMax(s) == if s[0] >= r then s[0] else r;
      if SeqMax(s) != s[0] {
        var j :| 0 <= j < |t| && t[j] == r;
        assert s[j + 1] == SeqMax(s);
      }
    } else {
      assert s[0] == SeqMax(s);
    }
  }

  function Xs(ps: seq<Point>): (r: seq<real>)
    ensures |r| == |ps| && forall i :: 0 <= i < |ps| ==> r[i] == ps[i].x
  {
    seq(|ps|, i requires 0 <= i < |ps| => ps[i].x)
  }

  function Ys(ps: seq<Point>): (r: seq<real>)
    ensures |r| == |ps| && forall i :: 0 <= i < |ps| ==> r[i] == ps[i].y
  {
    seq(|ps|, i requires 0 <= i < |ps| => ps[i].y)
  }
}
