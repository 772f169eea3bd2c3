/** Track outline from one reference lap: tangents, normals, inner/outer boundaries and world bounds. */
module TrackBuilder {
  import opened Wrappers
  import opened Geometry

  /** Full track width used by the replay view (half of it on either side of the reference line). */
  const DefaultTrackWidth: real := 200.0

  datatype Track = Track(
    xRef: seq<real>, yRef: seq<real>,
    xInner: seq<real>, yInner: seq<real>,
    xOuter: seq<real>, yOuter: seq<real>,
    xMin: real, xMax: real, yMin: real, yMax: real)

  /** numpy raises for a gradient over fewer than two samples, and for arrays that cannot broadcast. */
  datatype BuildError = TooFewSamples | LengthMismatch

  /** numpy.gradient with unit spacing. */
  function Gradient(f: seq<real>): (g: seq<real>)
    requires 2 <= |f|
    ensures |g| == |f|
  {
    seq(|f|, i requires 0 <= i < |f| =>
      if i == 0 then f[1] - f[0]
      else if i == |f| - 1 then f[i] - f[i - 1]
      else (f[i + 1] - f[i - 1]) / 2.0)
  }

  /** The tangent's norm, with a zero norm replaced by 1. */
  function SafeNorm(gx: real, gy: real, sqrt: real -> real): real {
    var n := sqrt(gx * gx + gy * gy);
    if n == 0.0 then 1.0 else n
  }

  /** Left-hand normal (-dy, dx) of the normalised tangent. */
  function NormalX(gx: real, gy: real, sqrt: real -> real): real {
    -(gy / SafeNorm(gx, gy, sqrt))
  }

  function NormalY(gx: real, gy: real, sqrt: real -> real): real {
    gx / SafeNorm(gx, gy, sqrt)
  }

  /** Offset every sample of `f` by `d[i] * k`. */
  function Offset(f: seq<real>, d: seq<real>, k: real): (r: seq<real>)
    requires |d| == |f|
    ensures |r| == |f| && forall i :: 0 <= i < |f| ==> r[i] == f[i] + d[i] * k
  {
    seq(|f|, i requires 0 <= i < |f| => f[i] + d[i] * k)
  }

  function NormalsX(xs: seq<real>, ys: seq<real>, sqrt: real -> real): (r: seq<real>)
    requires 2 <= |xs| && |xs| == |ys|
    ensures |r| == |xs|
    ensures forall i :: 0 <= i < |xs| ==> r[i] == NormalX(Gradient(xs)[i], Gradient(ys)[i], sqrt)
  {
    var gx, gy := Gradient(xs), Gradient(ys);
    seq(|xs|, i requires 0 <= i < |xs| => NormalX(gx[i], gy[i], sqrt))
  }

  function NormalsY(xs: seq<real>, ys: seq<real>, sqrt: real -> real): (r: seq<real>)
    requires 2 <= |xs| && |xs| == |ys|
    ensures |r| == |xs|
    ensures forall i :: 0 <= i < |xs| ==> r[i] == NormalY(Gradient(xs)[i], Gradient(ys)[i], sqrt)
  {
    var gx, gy := Gradient(xs), Gradient(ys);
    seq(|xs|, i requires 0 <= i < |xs| => NormalY(gx[i], gy[i], sqrt))
  }

  /** The successful result of build_track_from_example_lap. */
  function Assemble(xs: seq<real>, ys: seq<real>, trackWidth: real, sqrt: real -> real): (t: Track)
    requires 2 <= |xs| && |xs| == |ys|
    ensures t.xRef == xs && t.yRef == ys
    ensures |t.xInner| == |t.yInner| == |t.xOuter| == |t.yOuter| == |xs|
  {
    var h := trackWidth / 2.0;
    var nx, ny := NormalsX(xs, ys, sqrt), NormalsY(xs, ys, sqrt);
    WithBounds(xs, ys, Offset(xs, nx, -h), Offset(ys, ny, -h), Offset(xs, nx, h), Offset(ys, ny, h))
  }

  /** A track from its reference line and boundaries, with the bounds of all three curves. */
  function WithBounds(xs: seq<real>, ys: seq<real>, xInner: seq<real>, yInner: seq<real>,
                      xOuter: seq<real>, yOuter: seq<real>): (t: Track)
    requires 0 < |xs| && |ys| == |xInner| == |yInner| == |xOuter| == |yOuter| == |xs|
    ensures t.xRef == xs && t.yRef == ys && t.xInner == xInner && t.yInner == yInner
    ensures t.xOuter == xOuter && t.yOuter == yOuter
  {
    Track(xs, ys, xInner, yInner, xOuter, yOuter,
      Min3(SeqMin(xs), SeqMin(xInner), SeqMin(xOuter)),
      Max3(SeqMax(xs), SeqMax(xInner), SeqMax(xOuter)),
      Min3(SeqMin(ys), SeqMin(yInner), SeqMin(yOuter)),
      Max3(SeqMax(ys), SeqMax(yInner), SeqMax(yOuter)))
  }

  function Min3(a: real, b: real, c: real): real { Min(Min(a, b), c) }
  function Max3(a: real, b: real, c: real): real { Max(Max(a, b), c) }

  /** build_track_from_example_lap. */
  function BuildTrack(xs: seq<real>, ys: seq<real>, trackWidth: real, sqrt: real -> real)
    : (r: Result<Track, BuildError>)
    ensures r.Ok? <==> 2 <= |xs| && 2 <= |ys| && |xs| == |ys|
    ensures r == Err(TooFewSamples) <==> |xs| < 2 || |ys| < 2
    ensures r.Ok? ==> r.value == Assemble(xs, ys, trackWidth, sqrt)
  {
    if |xs| < 2 || |ys| < 2 then Err(TooFewSamples)
    else if |xs| != |ys| then Err(LengthMismatch)
    else Ok(Assemble(xs, ys, trackWidth, sqrt))
  }

  /** The gradient of equally spaced samples of a line is its slope, at the ends as well as inside. */
  lemma GradientOfLinear(f: seq<real>, a: real, b: real)
    requires 2 <= |f| && forall i :: 0 <= i < |f| ==> f[i] == a + b * i as real
    ensures forall i :: 0 <= i < |f| ==> Gradient(f)[i] == b
  {
    forall i | 0 <= i < |f|
      ensures Gradient(f)[i] == b
    {
      if i == 0 {
        assert f[1] - f[0] == b * 1 as real - b * 0 as real;
      } else if i == |f| - 1 {
        assert f[i] - f[i - 1] == b * (i as real - (i - 1) as real);
      } else {
        assert f[i + 1] - f[i - 1] == b * ((i + 1) as real - (i - 1) as real);
      }
    }
  }

  /** A non-zero tangent has a positive squared norm and a positive norm. */
  lemma NormPositive(sqrt: real -> real, gx: real, gy: real)
    requires IsSqrt(sqrt) && (gx != 0.0 || gy != 0.0)
    ensures 0.0 < gx * gx + gy * gy
    ensures 0.0 < sqrt(gx * gx + gy * gy)
    ensures sqrt(gx * gx + gy * gy) * sqrt(gx * gx + gy * gy) == gx * gx + gy * gy
  {
    if gx == 0.0 {
      assert 0.0 < gy * gy;
    } else {
      assert 0.0 < gx * gx;
      assert 0.0 <= gy * gy;
    }
  }

  lemma QuotientPerpendicular(gx: real, gy: real, n: real)
    requires n != 0.0
    ensures -(gy / n) * gx + (gx / n) * gy == 0.0
  {
  }

  lemma CancelSquare(a: real, n: real)
    requires n != 0.0 && a * (n * n) == 0.0
    ensures a == 0.0
  {
    assert a * n * n == 0.0;
    assert (a * n) * n == 0.0;
    assert a * n == 0.0;
  }

  lemma UnitFromScaled(u: real, v: real, gx: real, gy: real, n: real)
    requires n != 0.0 && u * n == gy && v * n == gx && n * n == gx * gx + gy * gy
    ensures u * u + v * v == 1.0
  {
    assert (u * u + v * v) * (n * n) == (u * n) * (u * n) + (v * n) * (v * n);
    assert (u * u + v * v - 1.0) * (n * n) == 0.0;
    CancelSquare(u * u + v * v - 1.0, n);
  }

  lemma QuotientUnit(gx: real, gy: real, n: real)
    requires n != 0.0 && n * n == gx * gx + gy * gy
    ensures (-(gy / n)) * (-(gy / n)) + (gx / n) * (gx / n) == 1.0
  {
    UnitFromScaled(gy / n, gx / n, gx, gy, n);
  }

  /** The normal is perpendicular to the tangent; it has unit length, or is (0, 0) when the tangent is zero. */
  lemma NormalProperties(gx: real, gy: real, sqrt: real -> real)
    requires IsSqrt(sqrt)
    ensures NormalX(gx, gy, sqrt) * gx + NormalY(gx, gy, sqrt) * gy == 0.0
    ensures (gx != 0.0 || gy != 0.0) ==>
      NormalX(gx, gy, sqrt) * NormalX(gx, gy, sqrt) + NormalY(gx, gy, sqrt) * NormalY(gx, gy, sqrt) == 1.0
    ensures gx == 0.0 && gy == 0.0 ==> NormalX(gx, gy, sqrt) == 0.0 && NormalY(gx, gy, sqrt) == 0.0
  {
    QuotientPerpendicular(gx, gy, SafeNorm(gx, gy, sqrt));
    if gx != 0.0 || gy != 0.0 {
      NormPositive(sqrt, gx, gy);
      QuotientUnit(gx, gy, sqrt(gx * gx + gy * gy));
    } else {
      SqrtZero(sqrt);
    }
  }

  /** Outer and inner boundaries are mirror images about the reference line. */
  lemma BuildTrackMirrored(xs: seq<real>, ys: seq<real>, trackWidth: real, sqrt: real -> real, i: int)
    requires 2 <= |xs| && |xs| == |ys| && 0 <= i < |xs|
    ensures var t := Assemble(xs, ys, trackWidth, sqrt);
      && (t.xInner[i] + t.xOuter[i]) / 2.0 == t.xRef[i]
      && (t.yInner[i] + t.yOuter[i]) / 2.0 == t.yRef[i]
  {
  }

  /** The boundaries are the reference line moved by plus and minus half the track width along the normals. */
  lemma AssembleBoundaries(xs: seq<real>, ys: seq<real>, trackWidth: real, sqrt: real -> real)
    requires 2 <= |xs| && |xs| == |ys|
    ensures var t, h := Assemble(xs, ys, trackWidth, sqrt), trackWidth / 2.0;
      var nx, ny := NormalsX(xs, ys, sqrt), NormalsY(xs, ys, sqrt);
      && t.xOuter == Offset(xs, nx, h) && t.yOuter == Offset(ys, ny, h)
      && t.xInner == Offset(xs, nx, -h) && t.yInner == Offset(ys, ny, -h)
  {
  }

  /** The normal at sample `i` against the gradient tangent at sample `i`. */
  lemma NormalsAt(xs: seq<real>, ys: seq<real>, sqrt: real -> real, i: int)
    requires IsSqrt(sqrt) && 2 <= |xs| && |xs| == |ys| && 0 <= i < |xs|
    ensures var nx, ny := NormalsX(xs, ys, sqrt)[i], NormalsY(xs, ys, sqrt)[i];
      var gx, gy := Gradient(xs)[i], Gradient(ys)[i];
      && nx * gx + ny * gy == 0.0
      && ((gx != 0.0 || gy != 0.0) ==> nx * nx + ny * ny == 1.0)
      && (gx == 0.0 && gy == 0.0 ==> nx == 0.0 && ny == 0.0)
  {
    NormalProperties(Gradient(xs)[i], Gradient(ys)[i], sqrt);
  }

  /** Offsetting a curve by `h` along normals that satisfy `NormalsAt` at sample `i` moves the sample
      perpendicular to the tangent by exactly |h|; where the tangent is zero, both offsets stay on the sample. */
  lemma OffsetsAlongNormals(xs: seq<real>, ys: seq<real>, nx: seq<real>, ny: seq<real>, gx: seq<real>,
                            gy: seq<real>, h: real, i: int)
    requires |ys| == |nx| == |ny| == |gx| == |gy| == |xs| && 0 <= i < |xs|
    requires nx[i] * gx[i] + ny[i] * gy[i] == 0.0
    requires (gx[i] != 0.0 || gy[i] != 0.0) ==> nx[i] * nx[i] + ny[i] * ny[i] == 1.0
    requires gx[i] == 0.0 && gy[i] == 0.0 ==> nx[i] == 0.0 && ny[i] == 0.0
    ensures var ox, oy := Offset(xs, nx, h)[i] - xs[i], Offset(ys, ny, h)[i] - ys[i];
      && ox * gx[i] + oy * gy[i] == 0.0
      && ((gx[i] != 0.0 || gy[i] != 0.0) ==> ox * ox + oy * oy == h * h)
      && (gx[i] == 0.0 && gy[i] == 0.0 ==>
            && Offset(xs, nx, h)[i] == Offset(xs, nx, -h)[i] == xs[i]
            && Offset(ys, ny, h)[i] == Offset(ys, ny, -h)[i] == ys[i])
  {
    OffsetGeometry(Offset(xs, nx, h)[i] - xs[i], Offset(ys, ny, h)[i] - ys[i],
      Offset(xs, nx, -h)[i] - xs[i], Offset(ys, ny, -h)[i] - ys[i], nx[i], ny[i], gx[i], gy[i], h);
  }

  lemma OffsetGeometry(ox: real, oy: real, ix: real, iy: real, nx: real, ny: real, gx: real, gy: real, h: real)
    requires ox == nx * h && oy == ny * h && ix == nx * -h && iy == ny * -h
    requires nx * gx + ny * gy == 0.0
    requires (gx != 0.0 || gy != 0.0) ==> nx * nx + ny * ny == 1.0
    requires gx == 0.0 && gy == 0.0 ==> nx == 0.0 && ny == 0.0
    ensures ox * gx + oy * gy == 0.0
    ensures (gx != 0.0 || gy != 0.0) ==> ox * ox + oy * oy == h * h
    ensures gx == 0.0 && gy == 0.0 ==> ox == 0.0 && oy == 0.0 && ix == 0.0 && iy == 0.0
  {
    assert ox * gx + oy * gy == h * (nx * gx + ny * gy);
    assert ox * ox + oy * oy == h * h * (nx * nx + ny * ny);
  }

  /** Minimum and maximum over three equally long curves bound every sample and are attained. */
  lemma Bounds3(a: seq<real>, b: seq<real>, c: seq<real>)
    requires 0 < |a| && |b| == |a| && |c| == |a|
    ensures var lo, hi := Min3(SeqMin(a), SeqMin(b), SeqMin(c)), Max3(SeqMax(a), SeqMax(b), SeqMax(c));
      && (forall i :: 0 <= i < |a| ==> lo <= a[i] <= hi && lo <= b[i] <= hi && lo <= c[i] <= hi)
      && (exists i :: 0 <= i < |a| && (lo == a[i] || lo == b[i] || lo == c[i]))
      && (exists i :: 0 <= i < |a| && (hi == a[i] || hi == b[i] || hi == c[i]))
  {
    var lo, hi := Min3(SeqMin(a), SeqMin(b), SeqMin(c)), Max3(SeqMax(a), SeqMax(b), SeqMax(c));
    SeqMinIsMinimum(a);
    SeqMinIsMinimum(b);
    SeqMinIsMinimum(c);
    SeqMaxIsMaximum(a);
    SeqMaxIsMaximum(b);
    SeqMaxIsMaximum(c);
    var ia :| 0 <= ia < |a| && a[ia] == SeqMin(a);
    var ib :| 0 <= ib < |b| && b[ib] == SeqMin(b);
    var ic :| 0 <= ic < |c| && c[ic] == SeqMin(c);
    var lw := if lo == a[ia] then ia else if lo == b[ib] then ib else ic;
    assert lo == a[lw] || lo == b[lw] || lo == c[lw];
    var ja :| 0 <= ja < |a| && a[ja] == SeqMax(a);
    var jb :| 0 <= jb < |b| && b[jb] == SeqMax(b);
    var jc :| 0 <= jc < |c| && c[jc] == SeqMax(c);
    var hw := if hi == a[ja] then ja else if hi == b[jb] then jb else jc;
    assert hi == a[hw] || hi == b[hw] || hi == c[hw];
  }

  /** The world bounds enclose every sample of the three curves and each bound is attained. */
  lemma BuildTrackBounds(xs: seq<real>, ys: seq<real>, trackWidth: real, sqrt: real -> real)
    requires 2 <= |xs| && |xs| == |ys|
    ensures var t := Assemble(xs, ys, trackWidth, sqrt);
      && (forall i :: 0 <= i < |xs| ==>
            && t.xMin <= t.xRef[i] <= t.xMax && t.xMin <= t.xInner[i] <= t.xMax
            && t.xMin <= t.xOuter[i] <= t.xMax
            && t.yMin <= t.yRef[i] <= t.yMax && t.yMin <= t.yInner[i] <= t.yMax
            && t.yMin <= t.yOuter[i] <= t.yMax)
      && (exists i :: 0 <= i < |xs| && (t.xMin == t.xRef[i] || t.xMin == t.xInner[i] || t.xMin == t.xOuter[i]))
      && (exists i :: 0 <= i < |xs| && (t.xMax == t.xRef[i] || t.xMax == t.xInner[i] || t.xMax == t.xOuter[i]))
      && (exists i :: 0 <= i < |xs| && (t.yMin == t.yRef[i] || t.yMin == t.yInner[i] || t.yMin == t.yOuter[i]))
      && (exists i :: 0 <= i < |xs| && (t.yMax == t.yRef[i] || t.yMax == t.yInner[i] || t.yMax == t.yOuter[i]))
  {
    var t := Assemble(xs, ys, trackWidth, sqrt);
    Bounds3(t.xRef, t.xInner, t.xOuter);
    Bounds3(t.yRef, t.yInner, t.yOuter);
  }
}
