/** The dense reference polyline of the replay view: index-parameterised linear resampling, cumulative
    arc length, and projection of a car position onto the polyline. */
module ReferenceCurve {
  import opened Wrappers
  import opened Geometry

  /** Number of samples of the dense reference line used for projection. */
  const ReferenceSamples: nat := 4000
  /** Default number of samples of the drawn inner and outer boundaries. */
  const BoundarySamples: nat := 2000

  /** numpy.interp raises on an empty sample list and on sample values of another length. */
  datatype InterpError = EmptySamples | LengthMismatch

  // ---------------------------------------------------------------------------------------------
  // Resampling: np.interp(linspace(0, 1, k), linspace(0, 1, n), fp)
  // ---------------------------------------------------------------------------------------------

  /** Output sample `i` of `k` sits at `i * (n - 1) / (k - 1)` in input-index units; `Knot` is the
      input segment that holds it (the last segment for the right end point). */
  function Knot(n: nat, k: nat, i: nat): (j: nat)
    requires 2 <= n && 2 <= k && i < k
    ensures j <= n - 2
    ensures j * (k - 1) <= i * (n - 1) <= j * (k - 1) + (k - 1)
  {
    KnotBounds(i * (n - 1), k - 1, n - 1, i);
    ClampedQuotient(i * (n - 1), k - 1, n - 1)
  }

  /** `num / den`, pulled back to `m - 1` when it reaches `m`. */
  function ClampedQuotient(num: nat, den: nat, m: nat): nat
    requires 0 < den && 0 < m
  {
    if num / den < m then num / den else m - 1
  }

  lemma KnotBounds(num: nat, den: nat, m: nat, i: nat)
    requires 0 < den && 0 < m && num == i * m && i <= den
    ensures ClampedQuotient(num, den, m) <= m - 1
    ensures ClampedQuotient(num, den, m) * den <= num <= ClampedQuotient(num, den, m) * den + den
  {
    var q := num / den;
    DivBounds(num, den);
    assert num <= m * den by { MulLe(i, den, m); }
    if q > m {
      MulLe(m + 1, q, den);
      assert false;
    }
    if q == m {
      assert m * den <= num;
      assert (m - 1) * den + den == m * den;
    }
  }

  lemma DivBounds(num: nat, den: nat)
    requires 0 < den
    ensures (num / den) * den <= num < (num / den) * den + den
  {
  }

  lemma MulLe(a: nat, b: nat, c: nat)
    requires a <= b
    ensures a * c <= b * c
  {
  }

  /** The position of output sample `i` within its knot segment, in [0, 1]. */
  function KnotFrac(n: nat, k: nat, i: nat): (f: real)
    requires 2 <= n && 2 <= k && i < k
    ensures 0.0 <= f <= 1.0
  {
    var j := Knot(n, k, i);
    FracBounds(i * (n - 1) - j * (k - 1), k - 1);
    (i * (n - 1) - j * (k - 1)) as real / (k - 1) as real
  }

  lemma FracBounds(r: int, den: int)
    requires 0 <= r <= den && 0 < den
    ensures 0.0 <= r as real / den as real <= 1.0
  {
  }

  /** np.interp at output sample `i` of `k`: the first sample for a single input or a single output,
      otherwise the linear interpolation inside the knot segment. */
  function InterpAt(fp: seq<real>, k: nat, i: nat): real
    requires 0 < |fp| && i < k
  {
    if |fp| == 1 || k == 1 then fp[0]
    else
      var j := Knot(|fp|, k, i);
      Lerp(fp[j], fp[j + 1], KnotFrac(|fp|, k, i))
  }

  /** The point a fraction `f` of the way from `a` to `b`. */
  function Lerp(a: real, b: real, f: real): real {
    a + f * (b - a)
  }

  /** Resample `fp` at `k` equally spaced parameters. */
  function Resample(fp: seq<real>, k: nat): (r: seq<real>)
    requires 0 < |fp|
    ensures |r| == k
    ensures forall i :: 0 <= i < k ==> r[i] == InterpAt(fp, k, i)
  {
    seq(k, i requires 0 <= i < k => InterpAt(fp, k, i))
  }

  /** `_interpolate_points`: both coordinates resampled against the same parameterisation of `xs`. */
  function InterpolatePoints(xs: seq<real>, ys: seq<real>, k: nat): (r: Result<seq<Point>, InterpError>)
    ensures r.Ok? <==> 0 < |xs| && |ys| == |xs|
    ensures r == Err(EmptySamples) <==> |xs| == 0
    ensures r.Ok? ==> |r.value| == k && Xs(r.value) == Resample(xs, k) && Ys(r.value) == Resample(ys, k)
  {
    if |xs| == 0 then Err(EmptySamples)
    else if |ys| != |xs| then Err(LengthMismatch)
    else
      var rx, ry := Resample(xs, k), Resample(ys, k);
      var ps := seq(k, i requires 0 <= i < k => Point(rx[i], ry[i]));
      assert Xs(ps) == rx;
      assert Ys(ps) == ry;
      Ok(ps)
  }

  /** Every resampled value is a convex combination of two consecutive input samples. */
  lemma ResampleConvex(fp: seq<real>, k: nat, i: nat)
    requires 2 <= |fp| && 2 <= k && i < k
    ensures var j, f := Knot(|fp|, k, i), KnotFrac(|fp|, k, i);
      && j + 1 < |fp| && 0.0 <= f <= 1.0
      && Resample(fp, k)[i] == Lerp(fp[j], fp[j + 1], f) == (1.0 - f) * fp[j] + f * fp[j + 1]
  {
  }

  /** The first resampled value is the first sample, and the last is the last sample. */
  lemma ResampleEnds(fp: seq<real>, k: nat)
    requires 0 < |fp| && 0 < k
    ensures Resample(fp, k)[0] == fp[0]
    ensures 2 <= k ==> Resample(fp, k)[k - 1] == fp[|fp| - 1]
  {
    if 2 <= |fp| && 2 <= k {
      KnotAtStart(|fp|, k);
      KnotAtEnd(|fp|, k);
    }
  }

  lemma KnotAtStart(n: nat, k: nat)
    requires 2 <= n && 2 <= k
    ensures Knot(n, k, 0) == 0 && KnotFrac(n, k, 0) == 0.0
  {
  }

  lemma KnotAtEnd(n: nat, k: nat)
    requires 2 <= n && 2 <= k
    ensures Knot(n, k, k - 1) == n - 2 && KnotFrac(n, k, k - 1) == 1.0
  {
    ExactQuotient(n - 1, k - 1);
    assert (k - 1) * (n - 1) == (n - 1) * (k - 1);
    assert Knot(n, k, k - 1) == n - 2;
    assert (k - 1) * (n - 1) - (n - 2) * (k - 1) == k - 1;
  }

  /** Every resampled value lies between the smallest and the largest input sample. */
  lemma ResampleWithinRange(fp: seq<real>, k: nat, i: nat)
    requires 0 < |fp| && i < k
    ensures SeqMin(fp) <= Resample(fp, k)[i] <= SeqMax(fp)
  {
    var lo, hi := SeqMin(fp), SeqMax(fp);
    SeqMinIsMinimum(fp);
    SeqMaxIsMaximum(fp);
    if 2 <= |fp| && 2 <= k {
      ResampleConvex(fp, k, i);
      var j, f := Knot(|fp|, k, i), KnotFrac(|fp|, k, i);
      ConvexBetween(fp[j], fp[j + 1], f, lo, hi);
    } else {
      assert Resample(fp, k)[i] == fp[0];
    }
  }

  lemma ConvexBetween(a: real, b: real, f: real, lo: real, hi: real)
    requires 0.0 <= f <= 1.0 && lo <= a <= hi && lo <= b <= hi
    ensures lo <= Lerp(a, b, f) <= hi
  {
    ConvexSplit(a, b, f, lo);
    ConvexSplit(a, b, f, hi);
    NonNegProduct(1.0 - f, a - lo);
    NonNegProduct(f, b - lo);
    NonNegProduct(1.0 - f, hi - a);
    NonNegProduct(f, hi - b);
  }

  /** `Lerp(a, b, f) - c` splits into the two weighted distances from `c`. */
  lemma ConvexSplit(a: real, b: real, f: real, c: real)
    ensures Lerp(a, b, f) - c == (1.0 - f) * (a - c) + f * (b - c)
  {
  }

  lemma NonNegProduct(x: real, y: real)
    requires 0.0 <= x && 0.0 <= y
    ensures 0.0 <= x * y
  {
  }

  /** Resampling to the number of samples already present returns the samples unchanged. */
  lemma ResampleSameCount(fp: seq<real>)
    requires 0 < |fp|
    ensures Resample(fp, |fp|) == fp
  {
    forall i | 0 <= i < |fp|
      ensures Resample(fp, |fp|)[i] == fp[i]
    {
      if 2 <= |fp| {
        if i < |fp| - 1 {
          KnotOnSample(|fp|, i);
        } else {
          KnotAtEnd(|fp|, |fp|);
        }
      }
    }
  }

  /** With as many outputs as inputs, output `i` sits exactly on input sample `i`. */
  lemma KnotOnSample(n: nat, i: nat)
    requires 2 <= n && i < n - 1
    ensures Knot(n, n, i) == i && KnotFrac(n, n, i) == 0.0
  {
    ExactQuotient(i, n - 1);
  }

  lemma ExactQuotient(i: nat, d: nat)
    requires 0 < d
    ensures (i * d) / d == i
  {
    DivBounds(i * d, d);
    var q := (i * d) / d;
    MulMono(q + 1, i, d);
    MulMono(i + 1, q, d);
  }

  lemma MulMono(a: nat, b: nat, c: nat)
    ensures a <= b ==> a * c <= b * c
  {
    if a <= b {
      MulLe(a, b, c);
    }
  }

  // ---------------------------------------------------------------------------------------------
  // Cumulative arc length
  // ---------------------------------------------------------------------------------------------

  /** Length of each polyline segment: the root of the squared distance between consecutive samples
      (`np.diff` yields nothing for fewer than two samples). */
  function SegmentLengths(xs: seq<real>, ys: seq<real>, sqrt: real -> real): (d: seq<real>)
    requires |ys| == |xs|
    ensures |d| == if |xs| == 0 then 0 else |xs| - 1
    ensures forall i :: 0 <= i < |d| ==> d[i] == SegmentLength(xs, ys, i, sqrt)
  {
    var n := if |xs| == 0 then 0 else |xs| - 1;
    seq(n, i requires 0 <= i < n => SegmentLength(xs, ys, i, sqrt))
  }

  /** Length of the segment from sample `i` to sample `i + 1`. */
  function SegmentLength(xs: seq<real>, ys: seq<real>, i: nat, sqrt: real -> real): real
    requires |ys| == |xs| && i + 1 < |xs|
  {
    sqrt(SqDist(xs[i], ys[i], xs[i + 1], ys[i + 1]))
  }

  /** `concatenate(([0.0], cumsum(d)))`: entry `i` is the length of the first `i` segments. */
  function PrefixSums(d: seq<real>): (c: seq<real>)
    ensures |c| == |d| + 1 && c[0] == 0.0
    ensures forall i :: 0 <= i < |d| ==> c[i + 1] == c[i] + d[i]
  {
    if |d| == 0 then [0.0]
    else
      var p := PrefixSums(d[..|d| - 1]);
      p + [p[|d| - 1] + d[|d| - 1]]
  }

  /** Reference total of a sequence, summed from the back. */
  function Sum(d: seq<real>): real {
    if |d| == 0 then 0.0 else Sum(d[..|d| - 1]) + d[|d| - 1]
  }

  /** Entry `i` of the prefix sums is the sum of the first `i` lengths. */
  lemma {:induction false} PrefixSumsAreSums(d: seq<real>, i: nat)
    requires i <= |d|
    ensures PrefixSums(d)[i] == Sum(d[..i])
  {
    if i > 0 {
      PrefixSumsAreSums(d, i - 1);
      assert d[..i][..i - 1] == d[..i - 1];
    }
  }

  /** With non-negative lengths the cumulative distance never decreases. */
  lemma {:induction false} PrefixSumsMonotone(d: seq<real>, i: nat, j: nat)
    requires forall k :: 0 <= k < |d| ==> 0.0 <= d[k]
    requires i <= j <= |d|
    ensures PrefixSums(d)[i] <= PrefixSums(d)[j]
  {
    if i < j {
      PrefixSumsMonotone(d, i, j - 1);
    }
  }

  /** The dense reference polyline with its segment lengths, cumulative distances and total length. */
  datatype RefCurve = RefCurve(xs: seq<real>, ys: seq<real>, segLen: seq<real>, cumdist: seq<real>, total: real)

  /** Construction of the reference polyline from its sample coordinates. */
  function BuildCurve(xs: seq<real>, ys: seq<real>, sqrt: real -> real): (c: RefCurve)
    requires |ys| == |xs|
    ensures c.xs == xs && c.ys == ys
  {
    var seg := SegmentLengths(xs, ys, sqrt);
    var cum := PrefixSums(seg);
    RefCurve(xs, ys, seg, cum, if |cum| > 0 then cum[|cum| - 1] else 0.0)
  }

  /** `c` is the reference polyline built from its own samples. */
  ghost predicate IsCurveOf(c: RefCurve, sqrt: real -> real) {
    |c.ys| == |c.xs| && c == BuildCurve(c.xs, c.ys, sqrt)
  }

  /** The cumulative distance starts at 0, has one entry per sample, grows by each segment length,
      ends at the total length, and never decreases; fewer than two samples give total length 0. */
  lemma CurveShape(c: RefCurve, sqrt: real -> real)
    requires IsCurveOf(c, sqrt) && IsSqrt(sqrt)
    ensures c.cumdist[0] == 0.0
    ensures |c.cumdist| == if |c.xs| == 0 then 1 else |c.xs|
    ensures forall i :: 0 <= i < |c.segLen| ==> 0.0 <= c.segLen[i] && c.cumdist[i + 1] == c.cumdist[i] + c.segLen[i]
    ensures c.total == c.cumdist[|c.cumdist| - 1] == Sum(c.segLen)
    ensures forall i, j :: 0 <= i <= j < |c.cumdist| ==> 0.0 <= c.cumdist[i] <= c.cumdist[j] <= c.total
    ensures |c.xs| < 2 ==> c.total == 0.0
  {
    var d := c.segLen;
    PrefixSumsAreSums(d, |d|);
    assert d[..|d|] == d;
    forall i | 0 <= i < |d|
      ensures 0.0 <= d[i]
    {
      assert d[i] == sqrt(SqDist(c.xs[i], c.ys[i], c.xs[i + 1], c.ys[i + 1]));
    }
    forall i, j | 0 <= i <= j < |c.cumdist|
      ensures 0.0 <= c.cumdist[i] <= c.cumdist[j] <= c.total
    {
      PrefixSumsMonotone(d, 0, i);
      PrefixSumsMonotone(d, i, j);
      PrefixSumsMonotone(d, j, |d|);
    }
  }

  // ---------------------------------------------------------------------------------------------
  // Projection of a position onto the reference polyline
  // ---------------------------------------------------------------------------------------------

  /** First index of a sample at least squared distance from (x, y) among the first `m` samples
      (`np.argmin` returns the first minimum). */
  function NearestUpTo(xs: seq<real>, ys: seq<real>, x: real, y: real, m: nat): (b: nat)
    requires 0 < m <= |xs| && |ys| == |xs|
    ensures b < m
  {
    if m == 1 then 0
    else
      var b := NearestUpTo(xs, ys, x, y, m - 1);
      if SqDist(x, y, xs[m - 1], ys[m - 1]) < SqDist(x, y, xs[b], ys[b]) then m - 1 else b
  }

  /** Index of the first sample nearest to (x, y). */
  function Nearest(xs: seq<real>, ys: seq<real>, x: real, y: real): (b: nat)
    requires 0 < |xs| && |ys| == |xs|
    ensures b < |xs|
  {
    NearestUpTo(xs, ys, x, y, |xs|)
  }

  /** Among the first `m` samples, `NearestUpTo` picks one at least as near as every other and
      strictly nearer than every earlier one. */
  lemma {:induction false} NearestUpToIsFirstNearest(xs: seq<real>, ys: seq<real>, x: real, y: real, m: nat)
    requires 0 < m <= |xs| && |ys| == |xs|
    ensures var b := NearestUpTo(xs, ys, x, y, m);
      && (forall j :: 0 <= j < m ==> SqDist(x, y, xs[b], ys[b]) <= SqDist(x, y, xs[j], ys[j]))
      && (forall j :: 0 <= j < b ==> SqDist(x, y, xs[b], ys[b]) < SqDist(x, y, xs[j], ys[j]))
  {
    if m > 1 {
      NearestUpToIsFirstNearest(xs, ys, x, y, m - 1);
    }
  }

  /** `Nearest` is the first of the samples nearest to (x, y). */
  lemma NearestIsFirstNearest(xs: seq<real>, ys: seq<real>, x: real, y: real)
    requires 0 < |xs| && |ys| == |xs|
    ensures var b := Nearest(xs, ys, x, y);
      && (forall j :: 0 <= j < |xs| ==> SqDist(x, y, xs[b], ys[b]) <= SqDist(x, y, xs[j], ys[j]))
      && (forall j :: 0 <= j < b ==> SqDist(x, y, xs[b], ys[b]) < SqDist(x, y, xs[j], ys[j]))
  {
    NearestUpToIsFirstNearest(xs, ys, x, y, |xs|);
  }

  /** `_project_to_reference`: along-track distance of (x, y). Zero when the polyline has no length;
      otherwise the cumulative distance at the nearest sample, plus, when that sample starts a
      segment of positive length, the distance from it to the clamped orthogonal projection of
      (x, y) onto that segment. */
  function Project(c: RefCurve, x: real, y: real, sqrt: real -> real): real
    requires IsCurveOf(c, sqrt)
  {
    if c.total == 0.0 then 0.0
    else
      CurveLength(c, sqrt);
      var idx := Nearest(c.xs, c.ys, x, y);
      if idx < |c.xs| - 1 then
        var x1, y1, x2, y2 := c.xs[idx], c.ys[idx], c.xs[idx + 1], c.ys[idx + 1];
        var segLen2 := SqDist(x1, y1, x2, y2);
        if segLen2 > 0.0 then c.cumdist[idx] + AlongSegment(x1, y1, x2, y2, x, y, sqrt)
        else c.cumdist[idx]
      else c.cumdist[idx]
  }

  /** Distance from (x1, y1) to the orthogonal projection of (x, y) onto the segment to (x2, y2),
      with the projection parameter clamped to [0, 1]. */
  function AlongSegment(x1: real, y1: real, x2: real, y2: real, x: real, y: real, sqrt: real -> real): real
    requires 0.0 < SqDist(x1, y1, x2, y2)
  {
    var t := (Delta(x1, x) * Delta(x1, x2) + Delta(y1, y) * Delta(y1, y2)) / SqDist(x1, y1, x2, y2);
    var tc := Max(0.0, Min(1.0, t));
    sqrt(SqDist(x1, y1, x1 + tc * Delta(x1, x2), y1 + tc * Delta(y1, y2)))
  }

  /** The clamped projection lies on the segment: its distance from the start is at least 0 and at
      most the segment's length. */
  lemma AlongSegmentBounds(x1: real, y1: real, x2: real, y2: real, x: real, y: real, sqrt: real -> real)
    requires 0.0 < SqDist(x1, y1, x2, y2) && IsSqrt(sqrt)
    ensures 0.0 <= AlongSegment(x1, y1, x2, y2, x, y, sqrt) <= sqrt(SqDist(x1, y1, x2, y2))
  {
    var t := (Delta(x1, x) * Delta(x1, x2) + Delta(y1, y) * Delta(y1, y2)) / SqDist(x1, y1, x2, y2);
    var tc := Max(0.0, Min(1.0, t));
    var px, py := x1 + tc * Delta(x1, x2), y1 + tc * Delta(y1, y2);
    SqDistScaled(x1, y1, x2, y2, tc, px, py);
    SqrtMonotone(sqrt, SqDist(x1, y1, px, py), SqDist(x1, y1, x2, y2));
  }

  /** A position at the segment's start projects onto the start. */
  lemma AlongSegmentAtStart(x1: real, y1: real, x2: real, y2: real, sqrt: real -> real)
    requires 0.0 < SqDist(x1, y1, x2, y2) && IsSqrt(sqrt)
    ensures AlongSegment(x1, y1, x2, y2, x1, y1, sqrt) == 0.0
  {
    assert Delta(x1, x1) == 0.0 && Delta(y1, y1) == 0.0;
    var t := (Delta(x1, x1) * Delta(x1, x2) + Delta(y1, y1) * Delta(y1, y2)) / SqDist(x1, y1, x2, y2);
    assert t == 0.0;
    assert x1 + 0.0 * Delta(x1, x2) == x1 && y1 + 0.0 * Delta(y1, y2) == y1;
    SqDistSelf(x1, y1);
    SqrtZero(sqrt);
  }

  lemma CurveLength(c: RefCurve, sqrt: real -> real)
    requires IsCurveOf(c, sqrt)
    ensures |c.cumdist| == if |c.xs| == 0 then 1 else |c.xs|
    ensures |c.xs| == 0 ==> c.total == 0.0
  {
  }

  /** The projection falls within the segment after the nearest sample: exactly the cumulative
      distance of that sample when it is the last one or starts a zero-length segment, otherwise
      between the cumulative distances of the segment's two ends. */
  lemma ProjectWithinSegment(c: RefCurve, x: real, y: real, sqrt: real -> real)
    requires IsCurveOf(c, sqrt) && IsSqrt(sqrt) && c.total != 0.0
    ensures 0 < |c.xs|
    ensures var idx := Nearest(c.xs, c.ys, x, y);
      && (idx == |c.xs| - 1 || SqDist(c.xs[idx], c.ys[idx], c.xs[idx + 1], c.ys[idx + 1]) == 0.0
          ==> Project(c, x, y, sqrt) == c.cumdist[idx])
      && (idx < |c.xs| - 1 ==> c.cumdist[idx] <= Project(c, x, y, sqrt) <= c.cumdist[idx + 1])
  {
    CurveLength(c, sqrt);
    var idx := Nearest(c.xs, c.ys, x, y);
    if idx < |c.xs| - 1 {
      var x1, y1, x2, y2 := c.xs[idx], c.ys[idx], c.xs[idx + 1], c.ys[idx + 1];
      var segLen2 := SqDist(x1, y1, x2, y2);
      CurveShape(c, sqrt);
      assert c.segLen[idx] == sqrt(segLen2);
      if segLen2 > 0.0 {
        AlongSegmentBounds(x1, y1, x2, y2, x, y, sqrt);
      }
    }
  }

  /** The along-track distance of any position lies between 0 and the total length. */
  lemma ProjectWithinLap(c: RefCurve, x: real, y: real, sqrt: real -> real)
    requires IsCurveOf(c, sqrt) && IsSqrt(sqrt)
    ensures 0.0 <= Project(c, x, y, sqrt) <= c.total
  {
    if c.total != 0.0 {
      CurveShape(c, sqrt);
      ProjectWithinSegment(c, x, y, sqrt);
    }
  }

  /** A position on sample `i`, when no earlier sample is at that same position, projects to the
      cumulative distance of sample `i`. */
  lemma ProjectAtSample(c: RefCurve, i: nat, sqrt: real -> real)
    requires IsCurveOf(c, sqrt) && IsSqrt(sqrt) && c.total != 0.0 && i < |c.xs|
    requires forall j :: 0 <= j < i ==> 0.0 < SqDist(c.xs[i], c.ys[i], c.xs[j], c.ys[j])
    ensures Project(c, c.xs[i], c.ys[i], sqrt) == c.cumdist[i]
  {
    var x, y := c.xs[i], c.ys[i];
    CurveLength(c, sqrt);
    NearestAtSample(c.xs, c.ys, i);
    if i < |c.xs| - 1 && 0.0 < SqDist(x, y, c.xs[i + 1], c.ys[i + 1]) {
      AlongSegmentAtStart(x, y, c.xs[i + 1], c.ys[i + 1], sqrt);
    }
  }

  /** The nearest sample to sample `i` is `i` itself unless an earlier sample is at the same place. */
  lemma NearestAtSample(xs: seq<real>, ys: seq<real>, i: nat)
    requires |ys| == |xs| && i < |xs|
    requires forall j :: 0 <= j < i ==> 0.0 < SqDist(xs[i], ys[i], xs[j], ys[j])
    ensures Nearest(xs, ys, xs[i], ys[i]) == i
  {
    SqDistSelf(xs[i], ys[i]);
    NearestIsFirstNearest(xs, ys, xs[i], ys[i]);
  }
}
