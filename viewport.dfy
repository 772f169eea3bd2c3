/** Fitting the circuit into the window: rotation about the centre of the track's bounding box,
    a uniform scale into the padded area between the side UI margins, and the world-to-screen
    transform. */
module Viewport {
  import opened Geometry

  /** Fraction of the usable width and height left empty on each side. */
  const Padding: real := 0.05

  /** The circuit rotation: its angle in radians and that angle's cosine and sine. */
  datatype Rotation = Rotation(rad: real, cos: real, sin: real)

  /** An angle of zero has cosine 1 and sine 0. */
  ghost predicate ValidRotation(rot: Rotation) {
    rot.rad == 0.0 ==> rot.cos == 1.0 && rot.sin == 0.0
  }

  /** The track's bounding box in world coordinates. */
  datatype Bounds = Bounds(xMin: real, xMax: real, yMin: real, yMax: real)

  function CentreX(b: Bounds): real { (b.xMin + b.xMax) / 2.0 }
  function CentreY(b: Bounds): real { (b.yMin + b.yMax) / 2.0 }

  /** Rotation of `p` about (cx, cy). */
  function RotateAbout(p: Point, cx: real, cy: real, rot: Rotation): Point {
    var tx, ty := Delta(cx, p.x), Delta(cy, p.y);
    Point(tx * rot.cos - ty * rot.sin + cx, tx * rot.sin + ty * rot.cos + cy)
  }

  /** The centre of rotation stays where it is. */
  lemma RotateFixesCentre(cx: real, cy: real, rot: Rotation)
    ensures RotateAbout(Point(cx, cy), cx, cy, rot) == Point(cx, cy)
  {
    assert Delta(cx, cx) == 0.0 && Delta(cy, cy) == 0.0;
  }

  /** A rotation by angle zero moves nothing. */
  lemma RotateByZero(p: Point, cx: real, cy: real, rot: Rotation)
    requires ValidRotation(rot) && rot.rad == 0.0
    ensures RotateAbout(p, cx, cy, rot) == p
  {
    var tx, ty := Delta(cx, p.x), Delta(cy, p.y);
    assert tx * rot.cos == tx && ty * rot.sin == 0.0 && tx * rot.sin == 0.0 && ty * rot.cos == ty;
  }

  /** Each of `ps` rotated about (cx, cy), in order. */
  function RotatePoints(ps: seq<Point>, cx: real, cy: real, rot: Rotation): (r: seq<Point>)
    ensures |r| == |ps|
    ensures forall i :: 0 <= i < |ps| ==> r[i] == RotateAbout(ps[i], cx, cy, rot)
  {
    if |ps| == 0 then [] else [RotateAbout(ps[0], cx, cy, rot)] + RotatePoints(ps[1..], cx, cy, rot)
  }

  /** `min(vs) if vs else fallback`. */
  function ExtentMin(vs: seq<real>, fallback: real): real {
    if |vs| == 0 then fallback else SeqMin(vs)
  }

  /** `max(vs) if vs else fallback`. */
  function ExtentMax(vs: seq<real>, fallback: real): real {
    if |vs| == 0 then fallback else SeqMax(vs)
  }

  /** The extents of the rotated track; the unrotated bounding box stands in when there are no
      points. */
  function RotatedExtents(rotated: seq<Point>, b: Bounds): (e: Bounds)
    ensures |rotated| == 0 ==> e == b
  {
    var xs, ys := Xs(rotated), Ys(rotated);
    Bounds(ExtentMin(xs, b.xMin), ExtentMax(xs, b.xMax), ExtentMin(ys, b.yMin), ExtentMax(ys, b.yMax))
  }

  /** The rotated extents enclose every rotated point, and each side is touched by one of them. */
  lemma RotatedExtentsEnclose(rotated: seq<Point>, b: Bounds)
    ensures var e := RotatedExtents(rotated, b);
      && (forall i :: 0 <= i < |rotated| ==>
            e.xMin <= rotated[i].x <= e.xMax && e.yMin <= rotated[i].y <= e.yMax)
      && (0 < |rotated| ==>
            && (exists i :: 0 <= i < |rotated| && rotated[i].x == e.xMin)
            && (exists i :: 0 <= i < |rotated| && rotated[i].x == e.xMax)
            && (exists i :: 0 <= i < |rotated| && rotated[i].y == e.yMin)
            && (exists i :: 0 <= i < |rotated| && rotated[i].y == e.yMax))
  {
    if 0 < |rotated| {
      var xs, ys := Xs(rotated), Ys(rotated);
      SeqMinIsMinimum(xs);
      SeqMaxIsMaximum(xs);
      SeqMinIsMinimum(ys);
      SeqMaxIsMaximum(ys);
    }
  }

  /** Width of the extents, at least 1. */
  function WorldWidth(e: Bounds): (w: real)
    ensures 1.0 <= w && e.xMax - e.xMin <= w
  {
    Max(1.0, e.xMax - e.xMin)
  }

  /** Height of the extents, at least 1. */
  function WorldHeight(e: Bounds): (h: real)
    ensures 1.0 <= h && e.yMax - e.yMin <= h
  {
    Max(1.0, e.yMax - e.yMin)
  }

  /** Width of the window between the two side UI margins, at least 1. */
  function InnerWidth(screenW: real, left: real, right: real): (w: real)
    ensures 1.0 <= w
  {
    Max(1.0, screenW - left - right)
  }

  /** The inner width less the padding on both sides. */
  function UsableWidth(screenW: real, left: real, right: real): real {
    InnerWidth(screenW, left, right) * (1.0 - 2.0 * Padding)
  }

  /** The window height less the padding above and below. */
  function UsableHeight(screenH: real): real {
    screenH * (1.0 - 2.0 * Padding)
  }

  /** The uniform scale for extents `e`: the smaller of the two ratios of usable screen extent to
      world extent. */
  function FitScale(e: Bounds, screenW: real, screenH: real, left: real, right: real): real {
    Min(UsableWidth(screenW, left, right) / WorldWidth(e), UsableHeight(screenH) / WorldHeight(e))
  }

  /** Scale and translation of the world-to-screen transform. */
  datatype Fit = Fit(scale: real, tx: real, ty: real)

  /** `update_scaling` as written, given the extents `e` of the rotated track: the scale comes from
      `e`, the translation puts the centre of the unrotated bounding box `b` at the centre of the
      inner area. */
  function FitAsWritten(e: Bounds, b: Bounds, screenW: real, screenH: real, left: real, right: real): Fit {
    Fit(FitScale(e, screenW, screenH, left, right),
        left + InnerWidth(screenW, left, right) / 2.0 - FitScale(e, screenW, screenH, left, right) * CentreX(b),
        screenH / 2.0 - FitScale(e, screenW, screenH, left, right) * CentreY(b))
  }

  /** The fit that also centres the extents `e` it was scaled to. */
  function FitCentred(e: Bounds, screenW: real, screenH: real, left: real, right: real): Fit {
    Fit(FitScale(e, screenW, screenH, left, right),
        left + InnerWidth(screenW, left, right) / 2.0 - FitScale(e, screenW, screenH, left, right) * CentreX(e),
        screenH / 2.0 - FitScale(e, screenW, screenH, left, right) * CentreY(e))
  }

  /** The corrected fit and the fit as written scale alike; they differ only in translation, and
      not at all when the extents `e` share the centre of the unrotated bounding box `b`. */
  lemma FitsDifferOnlyInCentring(e: Bounds, b: Bounds, screenW: real, screenH: real, left: real, right: real)
    ensures var f, w := FitCentred(e, screenW, screenH, left, right), FitAsWritten(e, b, screenW, screenH, left, right);
      && f.scale == w.scale
      && (CentreX(e) == CentreX(b) && CentreY(e) == CentreY(b) ==> f == w)
  {
  }

  /** `world_to_screen`: rotate about the bounding-box centre when the angle is non-zero, then
      scale and translate. */
  function WorldToScreen(b: Bounds, rot: Rotation, f: Fit, x: real, y: real): Point {
    Apply(f, if rot.rad != 0.0 then RotateAbout(Point(x, y), CentreX(b), CentreY(b), rot) else Point(x, y))
  }

  /** Scale `p` by the fit and translate it. */
  function Apply(f: Fit, p: Point): Point {
    Point(f.scale * p.x + f.tx, f.scale * p.y + f.ty)
  }

  /** The scaled extents are no wider than the padded inner width and no taller than the padded
      window height. */
  lemma FitScaleBounds(e: Bounds, screenW: real, screenH: real, left: real, right: real)
    ensures FitScale(e, screenW, screenH, left, right) * WorldWidth(e) <= UsableWidth(screenW, left, right)
    ensures FitScale(e, screenW, screenH, left, right) * WorldHeight(e) <= UsableHeight(screenH)
  {
    MinRatioTimes(UsableWidth(screenW, left, right), WorldWidth(e), UsableHeight(screenH), WorldHeight(e));
  }

  lemma MinRatioTimes(a: real, w: real, c: real, h: real)
    requires 0.0 < w && 0.0 < h
    ensures Min(a / w, c / h) * w <= a && Min(a / w, c / h) * h <= c
  {
    var s := Min(a / w, c / h);
    RatioTimes(s, a, w);
    RatioTimes(s, c, h);
  }

  lemma RatioTimes(s: real, a: real, w: real)
    requires 0.0 < w && s <= a / w
    ensures s * w <= a
  {
    assert s * w <= (a / w) * w;
  }

  /** As written, the centre of the bounding box lands at the centre of the inner area. */
  lemma CentreToScreenCentre(e: Bounds, b: Bounds, rot: Rotation, screenW: real, screenH: real, left: real, right: real)
    ensures WorldToScreen(b, rot, FitAsWritten(e, b, screenW, screenH, left, right), CentreX(b), CentreY(b))
         == Point(left + InnerWidth(screenW, left, right) / 2.0, screenH / 2.0)
  {
    var s := FitScale(e, screenW, screenH, left, right);
    CentreMapsToTranslation(b, rot, FitAsWritten(e, b, screenW, screenH, left, right));
    TranslationCancels(s, CentreX(b), left + InnerWidth(screenW, left, right) / 2.0);
    TranslationCancels(s, CentreY(b), screenH / 2.0);
  }

  /** The corrected fit puts the centre of the extents it was scaled to at the centre of the inner
      area. */
  lemma CentredFitCentresExtents(e: Bounds, screenW: real, screenH: real, left: real, right: real)
    ensures Apply(FitCentred(e, screenW, screenH, left, right), Point(CentreX(e), CentreY(e)))
         == Point(left + InnerWidth(screenW, left, right) / 2.0, screenH / 2.0)
  {
    var s := FitScale(e, screenW, screenH, left, right);
    TranslationCancels(s, CentreX(e), left + InnerWidth(screenW, left, right) / 2.0);
    TranslationCancels(s, CentreY(e), screenH / 2.0);
  }

  lemma CentreMapsToTranslation(b: Bounds, rot: Rotation, f: Fit)
    ensures WorldToScreen(b, rot, f, CentreX(b), CentreY(b)) == Apply(f, Point(CentreX(b), CentreY(b)))
  {
    RotateFixesCentre(CentreX(b), CentreY(b), rot);
  }

  lemma TranslationCancels(s: real, c: real, o: real)
    ensures s * c + (o - s * c) == o
  {
  }

  /** Skipping the rotation for a zero angle changes nothing: the transform is always scale and
      translate after rotation, and with a zero angle exactly `(scale * x + tx, scale * y + ty)`. */
  lemma RotationGuardHarmless(b: Bounds, rot: Rotation, f: Fit, x: real, y: real)
    requires ValidRotation(rot)
    ensures WorldToScreen(b, rot, f, x, y) == Apply(f, RotateAbout(Point(x, y), CentreX(b), CentreY(b), rot))
    ensures rot.rad == 0.0 ==> WorldToScreen(b, rot, f, x, y) == Point(f.scale * x + f.tx, f.scale * y + f.ty)
  {
    if rot.rad == 0.0 {
      RotateByZero(Point(x, y), CentreX(b), CentreY(b), rot);
    }
  }

  /** A fit whose scale is positive when the window has positive height. */
  lemma FitScalePositive(e: Bounds, screenW: real, screenH: real, left: real, right: real)
    requires 0.0 < screenH
    ensures 0.0 < FitScale(e, screenW, screenH, left, right)
  {
    RatioPositive(UsableWidth(screenW, left, right), WorldWidth(e));
    RatioPositive(UsableHeight(screenH), WorldHeight(e));
  }

  lemma RatioPositive(a: real, w: real)
    requires 0.0 < a && 0.0 < w
    ensures 0.0 < a / w
  {
  }

  /** A coordinate `v` between `lo` and `hi`, scaled by `s` and translated so that the middle of
      [lo, hi] lands on `o`, stays within half of `u` from `o`, when the scaled span fits in `u`. */
  lemma ScaledOffsetWithin(s: real, v: real, lo: real, hi: real, w: real, u: real, o: real)
    requires 0.0 <= s && lo <= v <= hi && hi - lo <= w && s * w <= u
    ensures o - u / 2.0 <= s * v + (o - s * ((lo + hi) / 2.0)) <= o + u / 2.0
  {
    var d := Delta((lo + hi) / 2.0, v);
    var h := w / 2.0;
    assert -h <= d <= h;
    OffsetProduct(s, d, h);
    assert s * w == 2.0 * (s * h);
    assert s * v - s * ((lo + hi) / 2.0) == s * d;
  }

  lemma OffsetProduct(s: real, d: real, h: real)
    requires 0.0 <= s && -h <= d <= h
    ensures -(s * h) <= s * d <= s * h
  {
  }

  /** With the centred fit, every point within the extents lands at least the padding away from
      the left and the right UI margin. */
  lemma CentredFitInsideColumns(e: Bounds, screenW: real, screenH: real, left: real, right: real, p: Point)
    requires 0.0 < screenH && e.xMin <= p.x <= e.xMax
    ensures left + Padding * InnerWidth(screenW, left, right) <= Apply(FitCentred(e, screenW, screenH, left, right), p).x
    ensures Apply(FitCentred(e, screenW, screenH, left, right), p).x
         <= left + InnerWidth(screenW, left, right) - Padding * InnerWidth(screenW, left, right)
  {
    var f := FitCentred(e, screenW, screenH, left, right);
    FitScalePositive(e, screenW, screenH, left, right);
    FitScaleBounds(e, screenW, screenH, left, right);
    CentredWithin(f.scale, p.x, e.xMin, e.xMax, WorldWidth(e), UsableWidth(screenW, left, right),
                  InnerWidth(screenW, left, right), left, f.tx, Apply(f, p).x);
  }

  /** A coordinate `v` in [lo, hi] mapped by `q = s * v + t`, where `t` puts the middle of [lo, hi]
      at the middle `l + w / 2` of a span of width `w` and the scaled span fits the usable part of
      it, lands at least the padding inside both ends. */
  lemma CentredWithin(s: real, v: real, lo: real, hi: real, ww: real, u: real, w: real, l: real, t: real, q: real)
    requires 0.0 <= s && lo <= v <= hi && hi - lo <= ww && s * ww <= u && u == w * (1.0 - 2.0 * Padding)
    requires t == l + w / 2.0 - s * ((lo + hi) / 2.0) && q == s * v + t
    ensures l + Padding * w <= q <= l + w - Padding * w
  {
    ScaledOffsetWithin(s, v, lo, hi, ww, u, l + w / 2.0);
    PaddedHalves(w, l);
  }

  /** Half the usable width either side of the middle of the inner area reaches exactly the padding. */
  lemma PaddedHalves(w: real, o: real)
    ensures o + w / 2.0 - w * (1.0 - 2.0 * Padding) / 2.0 == o + Padding * w
    ensures o + w / 2.0 + w * (1.0 - 2.0 * Padding) / 2.0 == o + w - Padding * w
  {
  }

  /** With the centred fit, every point within the extents lands at least the padding away from
      the top and the bottom of the window. */
  lemma CentredFitInsideRows(e: Bounds, screenW: real, screenH: real, left: real, right: real, p: Point)
    requires 0.0 < screenH && e.yMin <= p.y <= e.yMax
    ensures Padding * screenH <= Apply(FitCentred(e, screenW, screenH, left, right), p).y
    ensures Apply(FitCentred(e, screenW, screenH, left, right), p).y <= screenH - Padding * screenH
  {
    var f := FitCentred(e, screenW, screenH, left, right);
    FitScalePositive(e, screenW, screenH, left, right);
    FitScaleBounds(e, screenW, screenH, left, right);
    CentredWithin(f.scale, p.y, e.yMin, e.yMax, WorldHeight(e), UsableHeight(screenH), screenH, 0.0, f.ty, Apply(f, p).y);
  }

  /** `q` is at least the padding away from both side UI margins and from the top and the bottom
      of the window. */
  predicate InsidePaddedArea(q: Point, screenW: real, screenH: real, left: real, right: real) {
    && left + Padding * InnerWidth(screenW, left, right) <= q.x
    && q.x <= left + InnerWidth(screenW, left, right) - Padding * InnerWidth(screenW, left, right)
    && Padding * screenH <= q.y <= screenH - Padding * screenH
  }

  /** With the centred fit, every point within the extents lands inside the padded inner area. */
  lemma CentredFitInsidePaddedArea(e: Bounds, screenW: real, screenH: real, left: real, right: real, p: Point)
    requires 0.0 < screenH && e.xMin <= p.x <= e.xMax && e.yMin <= p.y <= e.yMax
    ensures InsidePaddedArea(Apply(FitCentred(e, screenW, screenH, left, right), p), screenW, screenH, left, right)
  {
    CentredFitInsideColumns(e, screenW, screenH, left, right, p);
    CentredFitInsideRows(e, screenW, screenH, left, right, p);
  }

  /** With the centred fit, every inner and outer boundary point `ps[i]` is drawn inside the padded
      inner area, whatever the rotation. */
  lemma CentredTrackInsidePaddedArea(ps: seq<Point>, b: Bounds, rot: Rotation, screenW: real, screenH: real,
                                     left: real, right: real, i: nat)
    requires ValidRotation(rot) && 0.0 < screenH && i < |ps|
    ensures InsidePaddedArea(
              WorldToScreen(b, rot, FitCentred(RotatedExtents(RotatePoints(ps, CentreX(b), CentreY(b), rot), b),
                                               screenW, screenH, left, right), ps[i].x, ps[i].y),
              screenW, screenH, left, right)
  {
    var rotated := RotatePoints(ps, CentreX(b), CentreY(b), rot);
    var e := RotatedExtents(rotated, b);
    RotatedExtentsEnclose(rotated, b);
    RotationGuardOnPoint(b, rot, FitCentred(e, screenW, screenH, left, right), ps[i]);
    CentredFitInsidePaddedArea(e, screenW, screenH, left, right, rotated[i]);
  }

  lemma RotationGuardOnPoint(b: Bounds, rot: Rotation, f: Fit, p: Point)
    requires ValidRotation(rot)
    ensures WorldToScreen(b, rot, f, p.x, p.y) == Apply(f, RotateAbout(p, CentreX(b), CentreY(b), rot))
  {
    assert Point(p.x, p.y) == p;
    RotationGuardHarmless(b, rot, f, p.x, p.y);
  }

  /** As written, a track rotated by an angle with cosine 3/5 and sine 4/5 is centred on the
      wrong point: in a 1600 by 10000 window with the default 340 and 260 side margins, the
      corner (10, 0) of the triangle (0, 0), (10, 10), (10, 0) is drawn at x = 1627.5, past the
      right margin and off the window. */
  lemma AsWrittenFitLeavesWindow()
    ensures var ps := [Point(0.0, 0.0), Point(10.0, 10.0), Point(10.0, 0.0)];
      var b := Bounds(0.0, 10.0, 0.0, 10.0);
      var rot := Rotation(1.0, 0.6, 0.8);
      var e := RotatedExtents(RotatePoints(ps, CentreX(b), CentreY(b), rot), b);
      var q := WorldToScreen(b, rot, FitAsWritten(e, b, 1600.0, 10000.0, 340.0, 260.0), 10.0, 0.0);
      q.x == 1627.5 && 1600.0 < q.x
  {
    var ps := [Point(0.0, 0.0), Point(10.0, 10.0), Point(10.0, 0.0)];
    var b := Bounds(0.0, 10.0, 0.0, 10.0);
    var rot := Rotation(1.0, 0.6, 0.8);
    ExampleRotated();
    ExampleExtents();
    ExampleScale();
    assert Point(10.0, 0.0) == ps[2];
    var f := FitAsWritten(Bounds(4.0, 12.0, -2.0, 12.0), b, 1600.0, 10000.0, 340.0, 260.0);
    assert f.scale == 112.5 && f.tx == 277.5;
    assert WorldToScreen(b, rot, f, 10.0, 0.0) == Apply(f, Point(12.0, 6.0));
  }

  lemma ExampleRotated()
    ensures RotatePoints([Point(0.0, 0.0), Point(10.0, 10.0), Point(10.0, 0.0)], 5.0, 5.0, Rotation(1.0, 0.6, 0.8))
         == [Point(6.0, -2.0), Point(4.0, 12.0), Point(12.0, 6.0)]
  {
    var r := RotatePoints([Point(0.0, 0.0), Point(10.0, 10.0), Point(10.0, 0.0)], 5.0, 5.0, Rotation(1.0, 0.6, 0.8));
    assert r[0] == Point(6.0, -2.0);
    assert r[1] == Point(4.0, 12.0);
    assert r[2] == Point(12.0, 6.0);
  }

  lemma ExampleExtents()
    ensures RotatedExtents([Point(6.0, -2.0), Point(4.0, 12.0), Point(12.0, 6.0)], Bounds(0.0, 10.0, 0.0, 10.0))
         == Bounds(4.0, 12.0, -2.0, 12.0)
  {
    var rotated := [Point(6.0, -2.0), Point(4.0, 12.0), Point(12.0, 6.0)];
    var xs, ys := Xs(rotated), Ys(rotated);
    assert xs == [6.0, 4.0, 12.0] && ys == [-2.0, 12.0, 6.0];
    assert xs[1..] == [4.0, 12.0] && xs[1..][1..] == [12.0];
    assert ys[1..] == [12.0, 6.0] && ys[1..][1..] == [6.0];
    assert SeqMin([12.0]) == 12.0 && SeqMax([12.0]) == 12.0 && SeqMin([6.0]) == 6.0 && SeqMax([6.0]) == 6.0;
    assert SeqMin([4.0, 12.0]) == 4.0 && SeqMax([4.0, 12.0]) == 12.0;
    assert SeqMin([12.0, 6.0]) == 6.0 && SeqMax([12.0, 6.0]) == 12.0;
    assert SeqMin(xs) == 4.0 && SeqMax(xs) == 12.0;
    assert SeqMin(ys) == -2.0 && SeqMax(ys) == 12.0;
  }

  lemma ExampleScale()
    ensures FitScale(Bounds(4.0, 12.0, -2.0, 12.0), 1600.0, 10000.0, 340.0, 260.0) == 112.5
  {
    assert WorldWidth(Bounds(4.0, 12.0, -2.0, 12.0)) == 8.0;
    assert WorldHeight(Bounds(4.0, 12.0, -2.0, 12.0)) == 14.0;
    assert UsableWidth(1600.0, 340.0, 260.0) == 900.0;
    assert UsableHeight(10000.0) == 9000.0;
  }
}
