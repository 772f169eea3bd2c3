/** The race replay view: the track and reference line built once from an example lap, the fit of
    the track into the window, the playback clock, the clicks on the leaderboard, and what each
    redraw computes from the current frame. */
module Replay {
  import opened Wrappers
  import opened Geometry
  import opened Telemetry
  import opened TrackBuilder
  import opened ReferenceCurve
  import opened TrackStatus
  import opened Ranking
  import opened Viewport
  import opened Playback
  import opened UiComponents

  /** Default widths of the UI columns left and right of the track. */
  const DefaultLeftMargin: real := 340.0
  const DefaultRightMargin: real := 260.0

  /** x of the leaderboard: 12 into the right UI column, but at least 20. */
  function LeaderboardX(windowW: real, rightMargin: real): (x: real)
    ensures 20.0 <= x && windowW - rightMargin + 12.0 <= x
    ensures x == 20.0 || x == windowW - rightMargin + 12.0
  {
    Max(20.0, windowW - rightMargin + 12.0)
  }

  /** The track's bounding box. */
  function TrackBounds(t: Track): Bounds {
    Bounds(t.xMin, t.xMax, t.yMin, t.yMax)
  }

  /** The reference polyline: the example lap resampled to 4000 points, with its arc lengths. */
  function ReferenceCurveOf(t: Track, sqrt: real -> real): (c: RefCurve)
    requires 0 < |t.xRef| && |t.yRef| == |t.xRef|
    ensures IsCurveOf(c, sqrt) && |c.xs| == ReferenceSamples
    ensures c.xs == Resample(t.xRef, ReferenceSamples) && c.ys == Resample(t.yRef, ReferenceSamples)
  {
    var ps := InterpolatePoints(t.xRef, t.yRef, ReferenceSamples).value;
    BuildCurve(Xs(ps), Ys(ps), sqrt)
  }

  /** A boundary resampled to 2000 points. */
  function BoundaryPoints(xs: seq<real>, ys: seq<real>): (ps: seq<Point>)
    requires 0 < |xs| && |ys| == |xs|
    ensures |ps| == BoundarySamples && Xs(ps) == Resample(xs, BoundarySamples) && Ys(ps) == Resample(ys, BoundarySamples)
  {
    InterpolatePoints(xs, ys, BoundarySamples).value
  }

  /** The screen positions of `ps`, in order. */
  function ScreenPoints(ps: seq<Point>, b: Bounds, rot: Rotation, f: Fit): (r: seq<Point>)
    ensures |r| == |ps| && forall i :: 0 <= i < |ps| ==> r[i] == WorldToScreen(b, rot, f, ps[i].x, ps[i].y)
  {
    seq(|ps|, i requires 0 <= i < |ps| => WorldToScreen(b, rot, f, ps[i].x, ps[i].y))
  }

  /** The corrected fit (see Findings in the README): scaled, as `update_scaling` scales, to the
      extents of both boundaries rotated about the bounding-box centre, but centred on those extents
      rather than on the unrotated bounding-box centre, as `Viewport.FitAsWritten` is. */
  function ScalingFit(inner: seq<Point>, outer: seq<Point>, b: Bounds, rot: Rotation,
                      screenW: real, screenH: real, left: real, right: real): Fit {
    FitCentred(RotatedExtents(RotatePoints(inner + outer, CentreX(b), CentreY(b), rot), b), screenW, screenH, left, right)
  }

  /** Every point of `ps` lies inside the padded area. */
  ghost predicate AllInsidePaddedArea(ps: seq<Point>, screenW: real, screenH: real, left: real, right: real) {
    forall i :: 0 <= i < |ps| ==> InsidePaddedArea(ps[i], screenW, screenH, left, right)
  }

  /** The screen positions of the cars of a frame, in iteration order. */
  function CarPositions(ds: seq<DriverEntry>, b: Bounds, rot: Rotation, f: Fit): (r: seq<Point>)
    ensures |r| == |ds| && forall i :: 0 <= i < |ds| ==> r[i] == WorldToScreen(b, rot, f, ds[i].pose.x, ds[i].pose.y)
  {
    seq(|ds|, i requires 0 <= i < |ds| => WorldToScreen(b, rot, f, ds[i].pose.x, ds[i].pose.y))
  }

  class ReplayView {
    const frames: seq<Frame>
    const trackStatuses: seq<StatusInterval>
    /** Frames per second of the telemetry. */
    const fps: real
    const sqrt: real -> real
    const rotation: Rotation
    const leftMargin: real
    const rightMargin: real
    const track: Track
    const curve: RefCurve
    const worldInner: seq<Point>
    const worldOuter: seq<Point>
    const leaderboard: LeaderboardComponent
    /** The view's `selected_driver`, which the leaderboard writes. */
    const selection: DriverSelection

    var width: real
    var height: real
    var frameIndex: real
    var playbackSpeed: real
    var paused: bool
    var worldScale: real
    var tx: real
    var ty: real
    var screenInner: seq<Point>
    var screenOuter: seq<Point>
    var leaderboardRects: seq<Rect>

    /** The playback clock held in the three fields. */
    function ClockState(): Clock
      reads this
    {
      Clock(frameIndex, playbackSpeed, paused)
    }

    /** The current world-to-screen fit. */
    function CurrentFit(): Fit
      reads this
    {
      Fit(worldScale, tx, ty)
    }

    /** `world_to_screen` with the current fit. */
    function ToScreen(x: real, y: real): Point
      reads this
    {
      WorldToScreen(TrackBounds(track), rotation, CurrentFit(), x, y)
    }

    /** What the constructor establishes and nothing later changes. */
    ghost predicate Valid() {
      && 0 < |frames|
      && IsCurveOf(curve, sqrt)
      && ValidRotation(rotation)
      && leaderboard.width == LeaderboardWidth
    }

    /** `__init__`: builds the track from the example lap, the reference polyline and the two
        resampled boundaries, then fits the track into the window with the corrected fit of
        `UpdateScaling` (see Findings in the README). */
    constructor(frames: seq<Frame>, trackStatuses: seq<StatusInterval>, exampleX: seq<real>, exampleY: seq<real>,
                playbackSpeed: real, rotation: Rotation, leftMargin: real, rightMargin: real,
                windowW: real, windowH: real, fps: real, sqrt: real -> real)
      requires 0 < |frames| && 2 <= |exampleX| && |exampleY| == |exampleX| && ValidRotation(rotation)
      ensures Valid()
      ensures BuildTrack(exampleX, exampleY, DefaultTrackWidth, sqrt) == Ok(track)
      ensures track.xRef == exampleX && track.yRef == exampleY && curve == ReferenceCurveOf(track, sqrt)
      ensures worldInner == BoundaryPoints(track.xInner, track.yInner)
      ensures worldOuter == BoundaryPoints(track.xOuter, track.yOuter)
      ensures this.frames == frames && this.trackStatuses == trackStatuses && this.fps == fps && this.sqrt == sqrt
      ensures this.rotation == rotation && this.leftMargin == leftMargin && this.rightMargin == rightMargin
      ensures width == windowW && height == windowH
      ensures ClockState() == InitialClock(playbackSpeed)
      ensures CurrentFit() == ScalingFit(worldInner, worldOuter, TrackBounds(track), rotation, windowW, windowH, leftMargin, rightMargin)
      ensures screenInner == ScreenPoints(worldInner, TrackBounds(track), rotation, CurrentFit())
      ensures screenOuter == ScreenPoints(worldOuter, TrackBounds(track), rotation, CurrentFit())
      ensures leaderboard.x == LeaderboardX(windowW, rightMargin)
      ensures leaderboard.entries == [] && leaderboard.rects == [] && leaderboard.selected == None
      ensures selection.selectedDriver == None && leaderboardRects == []
      ensures fresh(leaderboard) && fresh(selection)
    {
      this.frames := frames;
      this.trackStatuses := trackStatuses;
      this.fps := fps;
      this.sqrt := sqrt;
      this.rotation := rotation;
      this.leftMargin := leftMargin;
      this.rightMargin := rightMargin;
      var t, c, inner, outer := LoadTrack(exampleX, exampleY, sqrt);
      track, curve, worldInner, worldOuter := t, c, inner, outer;
      leaderboard := new LeaderboardComponent(LeaderboardX(windowW, rightMargin), LeaderboardWidth);
      selection := new DriverSelection();
      width := windowW;
      height := windowH;
      frameIndex := 0.0;
      this.playbackSpeed := playbackSpeed;
      paused := false;
      worldScale := 1.0;
      tx := 0.0;
      ty := 0.0;
      screenInner := [];
      screenOuter := [];
      leaderboardRects := [];
      new;
      UpdateScaling(windowW, windowH);
    }

    /** `update_scaling`: rotates both boundaries about the bounding-box centre with append loops,
        fits their extents into the padded area between the UI columns, centring the extents
        themselves (the corrected fit, see Findings in the README), and recomputes the screen
        polylines. Every boundary point then lies inside the padded area. */
    method UpdateScaling(screenW: real, screenH: real)
      requires ValidRotation(rotation)
      modifies this
      ensures CurrentFit() == ScalingFit(worldInner, worldOuter, TrackBounds(track), rotation, screenW, screenH, leftMargin, rightMargin)
      ensures screenInner == ScreenPoints(worldInner, TrackBounds(track), rotation, CurrentFit())
      ensures screenOuter == ScreenPoints(worldOuter, TrackBounds(track), rotation, CurrentFit())
      ensures 0.0 < screenH ==> AllInsidePaddedArea(screenInner, screenW, screenH, leftMargin, rightMargin)
      ensures 0.0 < screenH ==> AllInsidePaddedArea(screenOuter, screenW, screenH, leftMargin, rightMargin)
      ensures width == old(width) && height == old(height) && ClockState() == old(ClockState())
      ensures leaderboardRects == old(leaderboardRects)
    {
      var f, si, so := FitBoundaries(worldInner, worldOuter, TrackBounds(track), rotation, screenW, screenH, leftMargin, rightMargin);
      SetFit(f, si, so);
    }

    /** Stores a fit and the two screen polylines. */
    method SetFit(f: Fit, si: seq<Point>, so: seq<Point>)
      modifies this
      ensures CurrentFit() == f && screenInner == si && screenOuter == so
      ensures width == old(width) && height == old(height) && ClockState() == old(ClockState())
      ensures leaderboardRects == old(leaderboardRects)
    {
      worldScale, tx, ty := f.scale, f.tx, f.ty;
      screenInner, screenOuter := si, so;
    }

    /** `on_resize`: refits the track, with the corrected fit of `UpdateScaling`, and moves the
        leaderboard to the new right UI column. */
    method OnResize(w: real, h: real)
      requires Valid()
      modifies this, leaderboard
      ensures width == w && height == h
      ensures CurrentFit() == ScalingFit(worldInner, worldOuter, TrackBounds(track), rotation, w, h, leftMargin, rightMargin)
      ensures screenInner == ScreenPoints(worldInner, TrackBounds(track), rotation, CurrentFit())
      ensures screenOuter == ScreenPoints(worldOuter, TrackBounds(track), rotation, CurrentFit())
      ensures leaderboard.x == LeaderboardX(w, rightMargin)
      ensures leaderboard.entries == old(leaderboard.entries) && leaderboard.rects == old(leaderboard.rects)
      ensures leaderboard.selected == old(leaderboard.selected) && ClockState() == old(ClockState())
      ensures leaderboardRects == old(leaderboardRects)
    {
      width := w;
      height := h;
      UpdateScaling(w, h);
      leaderboard.x := LeaderboardX(width, rightMargin);
    }

    /** `on_update`: the clock takes one step of `delta` seconds. */
    method OnUpdate(delta: real)
      modifies this
      ensures ClockState() == Step(old(ClockState()), delta, fps, |frames|)
      ensures CurrentFit() == old(CurrentFit()) && screenInner == old(screenInner) && screenOuter == old(screenOuter)
      ensures width == old(width) && height == old(height) && leaderboardRects == old(leaderboardRects)
    {
      if paused {
        return;
      }
      frameIndex := frameIndex + delta * fps * playbackSpeed;
      if frameIndex >= |frames| as real {
        frameIndex := (|frames| - 1) as real;
      }
    }

    /** The effective `on_key_press`. */
    method OnKeyPress(key: Key)
      modifies this
      ensures ClockState() == KeyPress(old(ClockState()), key, |frames|)
      ensures CurrentFit() == old(CurrentFit()) && screenInner == old(screenInner) && screenOuter == old(screenOuter)
      ensures width == old(width) && height == old(height) && leaderboardRects == old(leaderboardRects)
    {
      if key == Space {
        paused := !paused;
      } else if key == Right {
        frameIndex := MinReal(frameIndex + SeekFrames, (|frames| - 1) as real);
      } else if key == Left {
        frameIndex := MaxReal(frameIndex - SeekFrames, 0.0);
      } else if key == Up {
        playbackSpeed := playbackSpeed * 2.0;
      } else if key == Down {
        playbackSpeed := MaxReal(MinSpeed, playbackSpeed / 2.0);
      } else if key == Key1 {
        playbackSpeed := 0.5;
      } else if key == Key2 {
        playbackSpeed := 1.0;
      } else if key == Key3 {
        playbackSpeed := 2.0;
      } else if key == Key4 {
        playbackSpeed := 4.0;
      } else if key == Restart {
        frameIndex := 0.0;
        playbackSpeed := 1.0;
      }
    }

    /** `on_mouse_press`: the leaderboard handles clicks on its rows; any other click clears the
        selected driver. */
    method OnMousePress(x: real, y: real)
      modifies leaderboard, selection
      ensures var hit := FirstHit(old(leaderboard.rects), x, y);
        && leaderboard.selected ==
             (if hit.Some? then Toggle(old(leaderboard.selected), old(leaderboard.rects)[hit.value].code) else old(leaderboard.selected))
        && selection.selectedDriver == (if hit.Some? then leaderboard.selected else None)
      ensures leaderboard.rects == old(leaderboard.rects) && leaderboard.entries == old(leaderboard.entries)
      ensures leaderboard.x == old(leaderboard.x)
    {
      var handled := leaderboard.OnMousePress(selection, x, y);
      if !handled {
        selection.selectedDriver := None;
      }
    }

    /** What `on_draw` computes for the frame on screen: the active track status, its colour and
        banner, the cars' screen positions, the leader's lap and the leaderboard, whose entries
        and rows it rebuilds and whose rows it copies into `leaderboardRects`. */
    method OnDraw() returns (status: string, colour: Rgb, banner: Option<Banner>, cars: seq<Point>,
                             leaderLap: LapField, board: seq<Standing>, labels: seq<string>)
      requires Valid() && 0.0 <= frameIndex
      modifies this, leaderboard
      ensures 0 <= DrawnFrame(frameIndex, |frames|) < |frames|
      ensures var frame := frames[DrawnFrame(frameIndex, |frames|)];
        && status == ActiveStatus(trackStatuses, frame.t)
        && cars == CarPositions(frame.drivers, TrackBounds(track), rotation, CurrentFit())
        && leaderLap == LeaderLap(Standings(frame.drivers, curve, sqrt))
        && board == SortDesc(Standings(frame.drivers, curve, sqrt))
      ensures colour == TrackColour(status) && banner == StatusBanner(status)
      ensures leaderboard.entries == board && RowLayout(leaderboard.rects, Codes(board), leaderboard.x, leaderboard.width, height)
      ensures |labels| == |board| && forall i :: 0 <= i < |board| ==> labels[i] == RowLabel(i, board[i])
      ensures leaderboardRects == leaderboard.rects && leaderboard.selected == old(leaderboard.selected)
      ensures ClockState() == old(ClockState()) && CurrentFit() == old(CurrentFit())
      ensures width == old(width) && height == old(height)
      ensures screenInner == old(screenInner) && screenOuter == old(screenOuter)
      ensures leaderboard.x == old(leaderboard.x)
    {
      var idx := DrawnFrame(frameIndex, |frames|);
      var frame := frames[idx];
      status := ResolveTrackStatus(trackStatuses, frame.t);
      colour := TrackColour(status);
      banner := StatusBanner(status);
      cars := CarPositions(frame.drivers, TrackBounds(track), rotation, CurrentFit());
      var st := ComputeStandings(frame.drivers, curve, sqrt);
      leaderLap := LeaderLap(st);
      board := SortedBoard(st);
      labels := ShowBoard(board);
    }

    /** The leaderboard part of `on_draw`: hands the sorted entries to the leaderboard, lays out
        and labels its rows, and keeps a copy of the row rectangles. */
    method ShowBoard(board: seq<Standing>) returns (labels: seq<string>)
      modifies this, leaderboard
      ensures leaderboard.entries == board && RowLayout(leaderboard.rects, Codes(board), leaderboard.x, leaderboard.width, height)
      ensures |labels| == |board| && forall i :: 0 <= i < |board| ==> labels[i] == RowLabel(i, board[i])
      ensures leaderboardRects == leaderboard.rects && leaderboard.selected == old(leaderboard.selected)
      ensures leaderboard.x == old(leaderboard.x)
      ensures ClockState() == old(ClockState()) && CurrentFit() == old(CurrentFit())
      ensures width == old(width) && height == old(height)
      ensures screenInner == old(screenInner) && screenOuter == old(screenOuter)
    {
      leaderboard.SetEntries(board);
      labels := leaderboard.Draw(height);
      leaderboardRects := leaderboard.rects;
    }
  }

  /** The standings copied into an array and sorted in place by descending progress. */
  method SortedBoard(st: seq<Standing>) returns (board: seq<Standing>)
    ensures board == SortDesc(st)
  {
    var a := new Standing[|st|](k requires 0 <= k < |st| => st[k]);
    assert a[..] == st;
    SortStandings(a);
    board := a[..];
  }

  /** The track, the reference polyline and the two resampled boundaries that `__init__` derives
      from the example lap. */
  method LoadTrack(exampleX: seq<real>, exampleY: seq<real>, sqrt: real -> real)
    returns (track: Track, curve: RefCurve, inner: seq<Point>, outer: seq<Point>)
    requires 2 <= |exampleX| && |exampleY| == |exampleX|
    ensures BuildTrack(exampleX, exampleY, DefaultTrackWidth, sqrt) == Ok(track)
    ensures track.xRef == exampleX && track.yRef == exampleY
    ensures IsCurveOf(curve, sqrt) && curve == ReferenceCurveOf(track, sqrt)
    ensures inner == BoundaryPoints(track.xInner, track.yInner)
    ensures outer == BoundaryPoints(track.xOuter, track.yOuter)
  {
    track := Assemble(exampleX, exampleY, DefaultTrackWidth, sqrt);
    curve := ReferenceCurveOf(track, sqrt);
    inner := BoundaryPoints(track.xInner, track.yInner);
    outer := BoundaryPoints(track.xOuter, track.yOuter);
  }

  /** The loops and the fit of `update_scaling`, with the corrected centring (see Findings in the
      README): the rotated boundaries, the corrected fit to their extents and the two screen
      polylines, all of whose points lie inside the padded area. */
  method FitBoundaries(inner: seq<Point>, outer: seq<Point>, b: Bounds, rot: Rotation,
                       screenW: real, screenH: real, left: real, right: real)
    returns (f: Fit, screenInner: seq<Point>, screenOuter: seq<Point>)
    requires ValidRotation(rot)
    ensures f == ScalingFit(inner, outer, b, rot, screenW, screenH, left, right)
    ensures screenInner == ScreenPoints(inner, b, rot, f) && screenOuter == ScreenPoints(outer, b, rot, f)
    ensures 0.0 < screenH ==> AllInsidePaddedArea(screenInner, screenW, screenH, left, right)
    ensures 0.0 < screenH ==> AllInsidePaddedArea(screenOuter, screenW, screenH, left, right)
  {
    var rotated := RotateBoundaries(inner, outer, CentreX(b), CentreY(b), rot);
    f := FitCentred(RotatedExtents(rotated, b), screenW, screenH, left, right);
    screenInner := ScreenPoints(inner, b, rot, f);
    screenOuter := ScreenPoints(outer, b, rot, f);
    if 0.0 < screenH {
      BoundariesInside(inner, outer, b, rot, screenW, screenH, left, right);
    }
  }

  /** The loops of `update_scaling` that collect the rotated inner points and then the rotated
      outer points. */
  method RotateBoundaries(inner: seq<Point>, outer: seq<Point>, cx: real, cy: real, rot: Rotation)
    returns (rotated: seq<Point>)
    ensures rotated == RotatePoints(inner + outer, cx, cy, rot)
  {
    rotated := [];
    var i := 0;
    while i < |inner|
      invariant 0 <= i <= |inner| && |rotated| == i
      invariant forall k :: 0 <= k < i ==> rotated[k] == RotateAbout(inner[k], cx, cy, rot)
    {
      rotated := rotated + [RotateAbout(inner[i], cx, cy, rot)];
      i := i + 1;
    }
    var j := 0;
    while j < |outer|
      invariant 0 <= j <= |outer| && |rotated| == |inner| + j
      invariant forall k :: 0 <= k < |inner| ==> rotated[k] == RotateAbout(inner[k], cx, cy, rot)
      invariant forall k :: 0 <= k < j ==> rotated[|inner| + k] == RotateAbout(outer[k], cx, cy, rot)
    {
      rotated := rotated + [RotateAbout(outer[j], cx, cy, rot)];
      j := j + 1;
    }
    RotatedInOrder(inner, outer, rotated, cx, cy, rot);
  }

  /** Appending the rotated inner points and then the rotated outer points rotates the
      concatenation. */
  lemma RotatedInOrder(inner: seq<Point>, outer: seq<Point>, rotated: seq<Point>, cx: real, cy: real, rot: Rotation)
    requires |rotated| == |inner| + |outer|
    requires forall k :: 0 <= k < |inner| ==> rotated[k] == RotateAbout(inner[k], cx, cy, rot)
    requires forall k :: 0 <= k < |outer| ==> rotated[|inner| + k] == RotateAbout(outer[k], cx, cy, rot)
    ensures rotated == RotatePoints(inner + outer, cx, cy, rot)
  {
    var all := inner + outer;
    var r := RotatePoints(all, cx, cy, rot);
    forall k | 0 <= k < |all|
      ensures rotated[k] == r[k]
    {
      if k < |inner| {
        assert all[k] == inner[k];
      } else {
        assert all[k] == outer[k - |inner|];
        assert rotated[|inner| + (k - |inner|)] == RotateAbout(outer[k - |inner|], cx, cy, rot);
      }
    }
  }

  /** Under the corrected fit (see Findings in the README), every inner and outer boundary point
      is drawn inside the padded area. */
  lemma BoundariesInside(inner: seq<Point>, outer: seq<Point>, b: Bounds, rot: Rotation,
                         screenW: real, screenH: real, left: real, right: real)
    requires ValidRotation(rot) && 0.0 < screenH
    ensures AllInsidePaddedArea(ScreenPoints(inner, b, rot, ScalingFit(inner, outer, b, rot, screenW, screenH, left, right)),
                                screenW, screenH, left, right)
    ensures AllInsidePaddedArea(ScreenPoints(outer, b, rot, ScalingFit(inner, outer, b, rot, screenW, screenH, left, right)),
                                screenW, screenH, left, right)
  {
    var all := inner + outer;
    forall i | 0 <= i < |inner|
      ensures InsidePaddedArea(ScreenPoints(inner, b, rot, ScalingFit(inner, outer, b, rot, screenW, screenH, left, right))[i],
                               screenW, screenH, left, right)
    {
      CentredTrackInsidePaddedArea(all, b, rot, screenW, screenH, left, right, i);
      assert all[i] == inner[i];
    }
    forall i | 0 <= i < |outer|
      ensures InsidePaddedArea(ScreenPoints(outer, b, rot, ScalingFit(inner, outer, b, rot, screenW, screenH, left, right))[i],
                               screenW, screenH, left, right)
    {
      CentredTrackInsidePaddedArea(all, b, rot, screenW, screenH, left, right, |inner| + i);
      assert all[|inner| + i] == outer[i];
    }
  }
}
