# F1 race replay: playback, track geometry and leaderboard, in Dafny

This project models the core of a Formula 1 race-replay viewer. The viewer loads telemetry
frames once. It then redraws the circuit, the cars and a leaderboard on every tick of an
interactive clock. The model covers:

- **Playback clock** (`Playback`): a fractional frame index advanced by elapsed time times
  frames per second times a speed factor, with pull-back to the last frame. It also covers the
  keyboard commands: pause, seek ten frames, speed up/down, fixed speeds 1 to 4 and restart.
- **Track outline** (`TrackBuilder`): `build_track_from_example_lap` takes numpy gradients of
  the reference lap and unit normals with zero norms replaced by 1. The inner and outer
  boundaries sit half the track width either side, and the world bounds cover all three curves.
- **Reference polyline** (`ReferenceCurve`): index-parameterised linear resampling
  (`np.interp` over `linspace`) to 4000 points, segment lengths and cumulative distance.
  `_project_to_reference` snaps a car to the first nearest sample, then projects onto the next
  segment with the parameter clamped to [0, 1].
- **Race order** (`Ranking`): progress is completed laps times the lap length plus the
  projected distance. The leader is the first driver of greatest progress. The leaderboard is
  a stable descending sort, modelled as an in-place insertion sort on an array and checked
  against a reference insertion sort on sequences.
- **Track status** (`TrackStatus`): the first status interval covering the frame time, or
  GREEN. It also gives the track colour and the HUD banner for that status code.
- **Viewport** (`Viewport`): rotation about the bounding-box centre and the uniform fit into
  the padded area between the side UI columns (`update_scaling`), plus `world_to_screen`.
- **UI components** (`UiComponents`):
  - the compass label of the wind direction and the DRS label;
  - vertical placement of the driver-info box;
  - the race leaderboard and the lap-time leaderboard: row rectangles, first-hit lookup and
    toggled selection;
  - the qualifying-segment selector: its listed segments, close box and segment clicks.
- **Replay view** (`Replay.ReplayView`): a class that ties these together. It holds the
  view's fields (clock, fit, screen polylines, leaderboard rectangles) and has `__init__`,
  `update_scaling`, `on_resize`, `on_update`, the effective `on_key_press`, `on_mouse_press`,
  and what `on_draw` computes.

Several things become parameters rather than fixed values:

- **Square root.** `sqrt` is a function constrained by `Geometry.IsSqrt`: the non-negative
  root of a non-negative number.
- **Rotation.** The cosine and sine of the circuit rotation are given with the angle
  (`Viewport.Rotation`, constrained by `ValidRotation`).
- **Frame rate.** The telemetry frame rate `FPS` is the view's `fps` parameter;
  `src/f1_data` is not part of this model.
- **Numbers.** Coordinates, times and speeds are unbounded reals, not IEEE doubles.

Python's `int()` on a float truncates toward zero (`Playback.Trunc`). Python's `% 360` on
floats is never negative (`UiComponents.Mod360`). A lap value on which `int()` raises counts
as lap 1 (`Telemetry.LapField`, `Ranking.LapCount`).

## Model

| member | source | states |
|---|---|---|
| Geometry.SqDist | src/interfaces/race_replay.py:153-155 | The squared distance `dx*dx + dy*dy` that argmin compares is never negative. |
| Geometry.SeqMinIsMinimum | src/ui_components.py:437-440 | numpy's `min` is at most every element and is one of them. |
| Geometry.SeqMaxIsMaximum | src/ui_components.py:437-440 | numpy's `max` is at least every element and is one of them. |
| Geometry.Xs | src/interfaces/race_replay.py:201 | The x list has one entry per point, each that point's x. |
| Geometry.Ys | src/interfaces/race_replay.py:202 | The y list has one entry per point, each that point's y. |
| TrackBuilder.Gradient | src/ui_components.py:420-421 | `np.gradient` returns one value per sample (needs at least two samples). |
| TrackBuilder.SafeNorm | src/ui_components.py:423-424 | No contract of its own: the gradient tangent's norm, with 0 replaced by 1. `TrackBuilder.NormalProperties` states what it guarantees. |
| TrackBuilder.NormalX | src/ui_components.py:425-429 | No contract of its own: `-dy / norm`. `TrackBuilder.NormalProperties` states what it guarantees. |
| TrackBuilder.NormalY | src/ui_components.py:425-429 | No contract of its own: `dx / norm`. `TrackBuilder.NormalProperties` states what it guarantees. |
| TrackBuilder.GradientOfLinear | src/ui_components.py:420-421 | For equally spaced samples of a line, the gradient equals the slope everywhere, the one-sided end points included. |
| TrackBuilder.NormalsX | src/ui_components.py:423-429 | One normal x per sample: `-dy/norm` of the gradient tangent at that sample. |
| TrackBuilder.NormalsY | src/ui_components.py:423-429 | One normal y per sample: `dx/norm` of the gradient tangent at that sample. |
| TrackBuilder.NormalProperties | src/ui_components.py:423-429 | The normal is perpendicular to the tangent. It has unit length when the tangent is non-zero, and is (0, 0) when the tangent is zero because that norm is replaced by 1. |
| TrackBuilder.NormalsAt | src/ui_components.py:420-429 | The same three facts at sample `i`, for the arrays the builder computes. |
| TrackBuilder.Offset | src/ui_components.py:431-434 | Every sample moved by its normal component times a constant, element by element. |
| TrackBuilder.OffsetsAlongNormals | src/ui_components.py:431-434 | Each boundary sample sits exactly half the track width from the reference sample, perpendicular to the tangent. Where the tangent is zero, both boundaries stay on the reference sample. |
| TrackBuilder.AssembleBoundaries | src/ui_components.py:428-434 | Outer is the reference plus half the width along the normals; inner is the reference minus it. |
| TrackBuilder.BuildTrackMirrored | src/ui_components.py:431-434 | The inner and outer boundaries are mirror images about the reference line: their midpoint is the reference sample. |
| TrackBuilder.Assemble | src/ui_components.py:414-443 | The built track keeps the reference lap as its reference line, and all four boundary arrays have one sample per reference sample. |
| TrackBuilder.WithBounds | src/ui_components.py:436-443 | The track record holds the given reference and boundary curves unchanged. |
| TrackBuilder.Bounds3 | src/ui_components.py:437-440 | The min of three mins and the max of three maxes bound every sample of the three curves, and each is attained. |
| TrackBuilder.BuildTrackBounds | src/ui_components.py:436-440 | The world bounds enclose every reference, inner and outer sample, and each of the four bounds is attained by one of them. |
| TrackBuilder.BuildTrack | src/ui_components.py:414-443 | Building succeeds exactly for at least two samples of equal length, and then yields `Assemble`. With fewer than two samples it fails as `np.gradient` does; with unequal lengths it fails as the broadcast does. |
| ReferenceCurve.Knot | src/interfaces/race_replay.py:141-146 | Output sample `i` of `k`, at `i*(n-1)/(k-1)` in input-index units, lies in input segment `Knot`, which is a valid segment index. |
| ReferenceCurve.KnotFrac | src/interfaces/race_replay.py:141-146 | The position inside that segment is in [0, 1]. |
| ReferenceCurve.Resample | src/interfaces/race_replay.py:141-146 | `np.interp` over `linspace(0,1,k)` gives exactly `k` values, each the interpolated value at its parameter. |
| ReferenceCurve.ResampleConvex | src/interfaces/race_replay.py:141-146 | Every resampled value is the linear interpolation `(1-f)*fp[j] + f*fp[j+1]` of two consecutive input samples, with `f` in [0, 1]. |
| ReferenceCurve.ResampleEnds | src/interfaces/race_replay.py:141-146 | The first output is the first input sample, and the last output is the last input sample. |
| ReferenceCurve.ResampleWithinRange | src/interfaces/race_replay.py:141-146 | Every resampled value lies between the smallest and the largest input sample. |
| ReferenceCurve.ResampleSameCount | src/interfaces/race_replay.py:141-146 | Resampling to the number of samples already present returns the input unchanged. |
| ReferenceCurve.InterpolatePoints | src/interfaces/race_replay.py:141-146 | `_interpolate_points` succeeds exactly for non-empty inputs of equal length. It returns `k` points whose x and y columns are the two coordinates resampled against the same parameterisation; empty input is the `np.interp` error. |
| ReferenceCurve.SegmentLengths | src/interfaces/race_replay.py:69-70 | One length per consecutive pair of samples (none for fewer than two), each the root of the squared distance between them. |
| ReferenceCurve.PrefixSums | src/interfaces/race_replay.py:71 | `concatenate(([0], cumsum(d)))` starts at 0, has one more entry than `d`, and grows by each length in turn. |
| ReferenceCurve.PrefixSumsAreSums | src/interfaces/race_replay.py:71 | Entry `i` of the cumulative distance is the sum of the first `i` segment lengths. |
| ReferenceCurve.PrefixSumsMonotone | src/interfaces/race_replay.py:69-71 | With non-negative lengths, the cumulative distance never decreases. |
| ReferenceCurve.BuildCurve | src/interfaces/race_replay.py:63-72 | The polyline keeps the resampled coordinates as its samples. |
| ReferenceCurve.CurveShape | src/interfaces/race_replay.py:65-72 | The cumulative distance starts at 0 and has one entry per sample. It grows by each non-negative segment length, never decreases, and ends at the total length. The total is the sum of the lengths, and 0 for fewer than two samples. |
| ReferenceCurve.CurveLength | src/interfaces/race_replay.py:68-72 | The cumulative distance has one entry per sample (one for none), and an empty polyline has length 0. |
| ReferenceCurve.NearestUpTo | src/interfaces/race_replay.py:152-156 | The argmin over a prefix is an index of that prefix. |
| ReferenceCurve.NearestUpToIsFirstNearest | src/interfaces/race_replay.py:152-156 | Within the prefix, it is at least as near as every sample and strictly nearer than every earlier sample. |
| ReferenceCurve.Nearest | src/interfaces/race_replay.py:152-156 | `np.argmin(d2)` is an index of the polyline. |
| ReferenceCurve.NearestIsFirstNearest | src/interfaces/race_replay.py:152-156 | `np.argmin` returns the first sample of least squared distance: no sample is nearer, and every earlier one is farther. |
| ReferenceCurve.NearestAtSample | src/interfaces/race_replay.py:152-156 | A position on sample `i` has nearest sample `i`, unless an earlier sample is at the same place. |
| ReferenceCurve.Project | src/interfaces/race_replay.py:148-174 | No contract of its own: `_project_to_reference` as written. `ProjectWithinSegment`, `ProjectWithinLap` and `ProjectAtSample` state its properties. |
| ReferenceCurve.AlongSegment | src/interfaces/race_replay.py:158-171 | No contract of its own: distance from the segment start to the clamped orthogonal projection. `AlongSegmentBounds` and `AlongSegmentAtStart` state its properties. |
| ReferenceCurve.AlongSegmentBounds | src/interfaces/race_replay.py:158-171 | The clamped projection lies on the segment: its distance from the segment start is between 0 and the segment length. |
| ReferenceCurve.AlongSegmentAtStart | src/interfaces/race_replay.py:165-170 | A position at the segment start projects onto the start. |
| ReferenceCurve.ProjectWithinSegment | src/interfaces/race_replay.py:148-174 | For a polyline of non-zero length, the along-track distance is exactly the nearest sample's cumulative distance when that sample is the last or starts a zero-length segment. Otherwise it lies between the cumulative distances of the segment's two ends. |
| ReferenceCurve.ProjectWithinLap | src/interfaces/race_replay.py:148-174 | Every position projects to a distance in [0, total length]; a polyline of zero length projects everything to 0. |
| ReferenceCurve.ProjectAtSample | src/interfaces/race_replay.py:148-174 | A position on sample `i`, with no earlier sample at the same place, projects to that sample's cumulative distance. |
| TrackStatus.ActiveStatus | src/interfaces/race_replay.py:286-290 | The status is that of the first interval in list order covering the time (start inclusive, end exclusive, open end when there is no end time), and GREEN when none covers it. |
| TrackStatus.ResolveTrackStatus | src/interfaces/race_replay.py:286-290 | The loop that breaks at the first covering interval returns `ActiveStatus`. |
| TrackStatus.ActiveStatusIgnoresLater | src/interfaces/race_replay.py:287-290 | Intervals after the first covering one never change the result. |
| TrackStatus.TrackColour | src/interfaces/race_replay.py:293-309 | No contract of its own: the track colour for a status code. `TrackColourNonGrey` states when it differs from grey. |
| TrackStatus.StatusBanner | src/interfaces/race_replay.py:372-391 | No contract of its own: the HUD banner text and colour for a status code. `BannerAgreesWithColour` states when there is one. |
| TrackStatus.TrackColourNonGrey | src/interfaces/race_replay.py:293-309 | The track is drawn in a colour other than the normal grey exactly for codes "2", "4", "5", "6" and "7"; GREEN gives grey. |
| TrackStatus.BannerAgreesWithColour | src/interfaces/race_replay.py:372-391 | A banner is shown exactly for "2", "4", "5" and "6", and each of them also colours the track. "7" is the only code that colours the track without a banner. |
| Ranking.ProgressWithinLap | src/interfaces/race_replay.py:336-339 | Progress is at least the length of the completed laps and at most one lap length more. |
| Ranking.LaterLapNotBehind | src/interfaces/race_replay.py:338-339 | A car on a later lap (counting laps below 1 as lap 1) never has less progress than a car on an earlier lap. |
| Ranking.CompletedLapsAhead | src/interfaces/race_replay.py:339 | One more completed lap adds at least a lap length. |
| Ranking.LapCount | src/interfaces/race_replay.py:330-334 | No contract of its own: `int(lap_raw)`, or 1 when that raises. `Ranking.LaterLapNotBehind` uses it. |
| Ranking.Progress | src/interfaces/race_replay.py:336-339 | No contract of its own: `(max(lap, 1) - 1) * lap_length + projected`. `ProgressWithinLap`, `LaterLapNotBehind` and `CompletedLapsAhead` state its properties. |
| Ranking.Standings | src/interfaces/race_replay.py:327-341 | No contract of its own: the per-driver records the progress loop builds. `Ranking.ComputeStandings` is proved equal to it. |
| Ranking.ComputeStandings | src/interfaces/race_replay.py:327-341 | The loop over the frame's drivers records, in iteration order, each driver's code, pose and progress. |
| Ranking.LeaderUpTo | src/interfaces/race_replay.py:344-345 | Over a prefix: the first index of greatest progress. |
| Ranking.Leader | src/interfaces/race_replay.py:343-349 | `max(driver_progress, key=...)` is the first driver in iteration order of greatest progress: none is ahead of it and all earlier ones are behind. There is no leader exactly when the frame has no drivers. |
| Ranking.LeaderLap | src/interfaces/race_replay.py:344-349 | The lap shown is the leader's own raw lap field, or lap 1 without drivers. |
| Ranking.Insert | src/interfaces/race_replay.py:406 | Inserting one row adds exactly one entry. |
| Ranking.InsertPermutes | src/interfaces/race_replay.py:406 | Insertion adds the row and loses nothing (multiset). |
| Ranking.SortDesc | src/interfaces/race_replay.py:406 | The reference sort keeps the number of rows. |
| Ranking.SortDescPermutes | src/interfaces/race_replay.py:401-406 | The leaderboard holds exactly the rows it was given: the sort is a permutation. |
| Ranking.SortDescKeeps | src/interfaces/race_replay.py:406 | Every input row appears on the leaderboard. |
| Ranking.SortDescTakesFrom | src/interfaces/race_replay.py:406 | Every leaderboard row is an input row. |
| Ranking.InsertSorted | src/interfaces/race_replay.py:406 | Inserting into a non-increasing list keeps it non-increasing. |
| Ranking.SortDescSorted | src/interfaces/race_replay.py:406 | The leaderboard is in non-increasing progress (`reverse=True`). |
| Ranking.InsertStable | src/interfaces/race_replay.py:406 | An inserted row goes after every row of equal progress already present. |
| Ranking.SortDescStable | src/interfaces/race_replay.py:406 | Python's sort is stable: for every progress value, the rows with that value keep their input order. |
| Ranking.SortStandings | src/interfaces/race_replay.py:406 | The in-place insertion sort on the array leaves exactly `SortDesc` of the original contents. |
| Ranking.InsertAt | src/interfaces/race_replay.py:406 | One pass shifts row `i` down past the earlier rows of smaller progress; the prefix becomes the insertion of row `i` and the rest is untouched. |
| Ranking.LeaderTopsBoard | src/interfaces/race_replay.py:343-345 | The top leaderboard row is the leader: the first driver of greatest progress. |
| Viewport.RotateFixesCentre | src/interfaces/race_replay.py:186-192 | Rotation about the centre leaves the centre in place. |
| Viewport.RotateByZero | src/interfaces/race_replay.py:41-43 | With the angle 0 (cos 1, sin 0) rotation moves nothing. |
| Viewport.RotateAbout | src/interfaces/race_replay.py:186-192 | No contract of its own: rotation of a point about (cx, cy). `RotateFixesCentre` and `RotateByZero` state its properties. |
| Viewport.RotatePoints | src/interfaces/race_replay.py:194-199 | One rotated point per input point, in order. |
| Viewport.RotatedExtents | src/interfaces/race_replay.py:203-206 | With no points, the unrotated bounding box stands in. |
| Viewport.RotatedExtentsEnclose | src/interfaces/race_replay.py:201-206 | The extents enclose every rotated point, and each side is touched by one of them. |
| Viewport.WorldWidth | src/interfaces/race_replay.py:208 | The world width is at least 1 and at least the width of the extents. |
| Viewport.WorldHeight | src/interfaces/race_replay.py:209 | The world height is at least 1 and at least the height of the extents. |
| Viewport.InnerWidth | src/interfaces/race_replay.py:213 | The width between the UI columns is at least 1. |
| Viewport.FitScaleBounds | src/interfaces/race_replay.py:213-220 | The scaled world is no wider than the padded inner width and no taller than the padded window height. |
| Viewport.FitScalePositive | src/interfaces/race_replay.py:213-220 | The scale is positive for a window of positive height. |
| Viewport.FitScale | src/interfaces/race_replay.py:213-220 | No contract of its own: the smaller of the two padded ratios. `FitScaleBounds` and `FitScalePositive` state its properties. |
| Viewport.FitAsWritten | src/interfaces/race_replay.py:222-229 | No contract of its own: the fit as written, centring the unrotated bounding-box centre. `CentreToScreenCentre` and `AsWrittenFitLeavesWindow` state its properties. |
| Viewport.FitCentred | src/interfaces/race_replay.py:222-229 | No contract of its own: the corrected fit (see Findings). `CentredFitCentresExtents` and `CentredTrackInsidePaddedArea` state its properties. |
| Viewport.FitsDifferOnlyInCentring | src/interfaces/race_replay.py:213-229 | The corrected fit has the scale of the fit as written; the two differ only in translation, and are equal when the rotated extents share the bounding-box centre. |
| Viewport.CentreToScreenCentre | src/interfaces/race_replay.py:222-229 | As written, the bounding-box centre lands at the centre of the inner area. |
| Viewport.CentredFitCentresExtents | src/interfaces/race_replay.py:222-229 | The corrected fit puts the centre of the rotated extents at the centre of the inner area. |
| Viewport.RotationGuardHarmless | src/interfaces/race_replay.py:244-258 | `world_to_screen` is always scale-and-translate after rotation: skipping the rotation for a zero angle changes nothing. With angle 0 it is exactly `(scale*x + tx, scale*y + ty)`. |
| Viewport.RotationGuardOnPoint | src/interfaces/race_replay.py:244-258 | The same, for a point value. |
| Viewport.WorldToScreen | src/interfaces/race_replay.py:244-258 | No contract of its own: `world_to_screen`. `RotationGuardHarmless` and `RotationGuardOnPoint` state its properties. |
| Viewport.CentredFitInsideColumns | src/interfaces/race_replay.py:211-229 | With the corrected fit, every point within the extents lands at least the padding away from both side UI columns. |
| Viewport.CentredFitInsideRows | src/interfaces/race_replay.py:215-229 | With the corrected fit, every point within the extents lands at least the padding away from the top and bottom of the window. |
| Viewport.CentredFitInsidePaddedArea | src/interfaces/race_replay.py:211-229 | Both together: the point lands inside the padded inner area. |
| Viewport.CentredTrackInsidePaddedArea | src/interfaces/race_replay.py:176-233 | Whatever the rotation, every boundary point is drawn inside the padded area between the UI columns, which is the fit the docstring at 177-180 promises. |
| Viewport.AsWrittenFitLeavesWindow | src/interfaces/race_replay.py:183-229 | As written, centring on the unrotated bounding-box centre draws a rotated triangle's corner at x = 1627.5 in a 1600-wide window. |
| Viewport.ExampleRotated | src/interfaces/race_replay.py:186-199 | The rotated triangle of the counterexample. |
| Viewport.ExampleExtents | src/interfaces/race_replay.py:201-206 | Its rotated extents. |
| Viewport.ExampleScale | src/interfaces/race_replay.py:208-220 | Its scale, 112.5. |
| Playback.StepWhilePaused | src/interfaces/race_replay.py:440-442 | While paused, an update changes nothing. |
| Playback.Step | src/interfaces/race_replay.py:440-445 | No contract of its own: `on_update`'s clock step. `StepWhilePaused`, `StepClamps`, `StepKeepsValid` and `StepNeverShowsEarlierFrame` state its properties. |
| Playback.StepClamps | src/interfaces/race_replay.py:443-445 | An unpaused update keeps speed and pause. It leaves the index below `n`: exactly the advanced index when that is below `n`, else pulled back to `n - 1`. |
| Playback.StepKeepsValid | src/interfaces/race_replay.py:440-445 | With non-negative elapsed time, the index stays in [0, n) and the speed stays positive. |
| Playback.KeyPressKeepsValid | src/interfaces/race_replay.py:485-502 | Every key keeps the index in [0, n) and the speed positive. |
| Playback.KeyPress | src/interfaces/race_replay.py:485-502 | No contract of its own: the clock after a key. `KeyPressKeepsValid`, `SeekBounds`, `SeekRoundTrip`, `SpeedKeys`, `SpaceToggles`, `RestartResets` and `PresetSpeeds` state its properties. |
| Playback.DrawnFrameInRange | src/interfaces/race_replay.py:283 | `min(int(frame_index), n - 1)` is an index of the frame list for a valid clock. |
| Playback.Trunc | src/interfaces/race_replay.py:283 | No contract of its own: Python's `int()` on a float, truncating toward zero. `DrawnFrameInRange` relies on it. |
| Playback.DrawnFrame | src/interfaces/race_replay.py:283 | No contract of its own: `min(int(frame_index), n - 1)`. `DrawnFrameInRange` states its range. |
| Playback.StepNeverShowsEarlierFrame | src/interfaces/race_replay.py:440-445 | Forward playback never draws an earlier frame; the pull-back only happens when the last frame is already drawn. |
| Playback.SeekBounds | src/interfaces/race_replay.py:494-495 | RIGHT moves at most ten frames and not past the last frame; LEFT moves at most ten frames back and not before the first. |
| Playback.SeekRoundTrip | src/interfaces/race_replay.py:494-495 | LEFT undoes RIGHT when the forward seek was not cut short. |
| Playback.SpeedKeys | src/interfaces/race_replay.py:496-497 | DOWN never goes below 0.1, and undoes UP for every speed of at least 0.1. |
| Playback.SpaceToggles | src/interfaces/race_replay.py:493 | SPACE flips only the pause flag; twice is no change. |
| Playback.RestartResets | src/interfaces/race_replay.py:502 | R rewinds to frame 0 at speed 1 and keeps the pause flag. The result equals the initial clock of a view created at speed 1 (race_replay.py:34-35) exactly when the replay is not paused. |
| Playback.PresetSpeeds | src/interfaces/race_replay.py:498-501 | Keys 1 to 4 set speeds 0.5, 1, 2 and 4 and change nothing else. |
| UiComponents.Mod360 | src/ui_components.py:14 | Python's `degrees % 360` lies in [0, 360). |
| UiComponents.CompassIndex | src/ui_components.py:19 | The index is one of the sixteen compass points. |
| UiComponents.WindSector | src/ui_components.py:11-20 | Compass point `k` labels exactly the 22.5-degree sector centred on its bearing, north's sector straddling 0 included. |
| UiComponents.WindLabelIsCompassPoint | src/ui_components.py:11-20 | The label is a compass point exactly when the direction is known, and "N/A" otherwise. |
| UiComponents.WindLabelPeriodic | src/ui_components.py:14-19 | A full turn does not change the label. |
| UiComponents.WindCardinalPoints | src/ui_components.py:11-20 | 0 and 360 degrees give "N", 90 "E", 180 "S", 270 "W". |
| UiComponents.WindLabel | src/ui_components.py:11-20 | No contract of its own: the compass label of a wind direction. `WindSector`, `WindLabelIsCompassPoint`, `WindLabelPeriodic` and `WindCardinalPoints` state its properties. |
| UiComponents.DrsLabelCases | src/ui_components.py:393-402 | "Off" exactly for 0 and 1, "Eligible" for 8, "On" for 10, 12 and 14, "Unknown" for all else. |
| UiComponents.DrsLabel | src/ui_components.py:393-402 | No contract of its own: the DRS label. `DrsLabelCases` gives it for every value. |
| UiComponents.InfoBoxPlacement | src/ui_components.py:372-382 | The box never sits below `min_top + 75`. Unless that floor applies, it is at most the default height, and at most `weather_bottom - 20 - 75` under a weather panel. It is always one of those three candidates. |
| UiComponents.InfoBoxY | src/ui_components.py:372-382 | No contract of its own: the driver-info box's top. `InfoBoxPlacement` states its placement. |
| UiComponents.RowRect | src/ui_components.py:99-108 | Row `i` is 25 high, its top `40 + 30 + 25*i` below the window's top edge, spanning the board's width. |
| UiComponents.FirstHit | src/ui_components.py:138-139 | The first rectangle (bounds inclusive) containing the click; none exactly when no rectangle contains it. |
| UiComponents.FindHit | src/ui_components.py:138-147 | The scan over the rows returns `FirstHit`. |
| UiComponents.Toggle | src/ui_components.py:140-143 | A click deselects exactly when the clicked driver is the selected one, and otherwise selects it. |
| UiComponents.ToggleTwice | src/ui_components.py:140-143 | A second click on the same row undoes the first. |
| UiComponents.ClickInsideRow | src/ui_components.py:98-146 | On the laid-out board, a click within a row's width, at or above its bottom and below its top, hits that row; the edge two rows share belongs to the row above, which the inclusive test meets first. |
| UiComponents.ClickBesideBoard | src/ui_components.py:137-147 | A click left or right of the board hits no row. |
| UiComponents.NatToString | src/ui_components.py:115 | `str` of the position is a non-empty string of decimal digits. |
| UiComponents.DecimalRoundTrip | src/ui_components.py:115 | Reading those digits back gives the position. |
| UiComponents.RowLabelParts | src/ui_components.py:115 | A row label is the digits of `i + 1`, ". " and the code, and ends in "   OUT" exactly when `rel_dist` is 1. |
| UiComponents.RowLabel | src/ui_components.py:115 | No contract of its own: a leaderboard row's text. `RowLabelParts` states its parts. |
| UiComponents.EntryCodes | src/ui_components.py:168 | One code per lap-time entry, "" where missing. |
| UiComponents.LeaderboardComponent.constructor | src/ui_components.py:78-84 | A board at `x` with the given width, no entries, no rows and no selection. |
| UiComponents.LeaderboardComponent.SetEntries | src/ui_components.py:95-97 | The entries are replaced as given; rows, selection and position are unchanged. |
| UiComponents.LeaderboardComponent.Draw | src/ui_components.py:98-116 | Rebuilds one row per entry in entry order, laid out as `RowRect`, and returns each row's label. |
| UiComponents.LeaderboardComponent.OnMousePress | src/ui_components.py:137-147 | The first row containing the click toggles the selection and copies it to the window, and the click is handled. A click outside every row is unhandled and changes nothing. |
| UiComponents.LapTimeLeaderboardComponent.constructor | src/ui_components.py:150-156 | A board at `x` with the given width, no entries, no rows, no selection. |
| UiComponents.LapTimeLeaderboardComponent.SetEntries | src/ui_components.py:158-160 | A missing list counts as empty; rows and selection are unchanged. |
| UiComponents.LapTimeLeaderboardComponent.Draw | src/ui_components.py:162-190 | One row per entry in order under its code ("" when missing); the position shown is the entry's own, else `i + 1`. |
| UiComponents.LapTimeLeaderboardComponent.OnMousePress | src/ui_components.py:192-202 | As for the race leaderboard: first hit toggles and is copied to the window; a miss is unhandled. |
| UiComponents.SegmentsListed | src/ui_components.py:322-329 | Segments are listed as Q1, Q2, Q3 in increasing order, each with its time and exactly when it has one. |
| UiComponents.Segments | src/ui_components.py:322-329 | No contract of its own: the listed qualifying segments. `SegmentsListed` states their order and contents. |
| UiComponents.FindResult | src/ui_components.py:320 | `next(...)`: the first result in list order with the selected code, or none when no result has it. |
| UiComponents.SegmentHit | src/ui_components.py:334-341 | The first listed segment whose rectangle contains the click; none exactly when none does. |
| UiComponents.SegmentsDisjoint | src/ui_components.py:331-341 | Segment rectangles lie 10 apart, so a click is in at most one. |
| UiComponents.ModalFor | src/ui_components.py:296-301 | No contract of its own: the modal's edges from integer window and modal sizes. `QualifyingSegmentSelectorComponent.OnMousePress` uses it. |
| UiComponents.InCloseBox | src/ui_components.py:303-309 | No contract of its own: the close-box test, bounds inclusive. `QualifyingSegmentSelectorComponent.OnMousePress` states what a click there does. |
| UiComponents.InSegment | src/ui_components.py:334-341 | No contract of its own: the test for segment `i`'s rectangle, bounds inclusive. `SegmentHit` and `SegmentsDisjoint` state its properties. |
| UiComponents.QualifyingSegmentSelectorComponent.constructor | src/ui_components.py:205-209 | The modal's size, with no segment selected. |
| UiComponents.QualifyingSegmentSelectorComponent.OnMousePress | src/ui_components.py:291-357 | With no truthy selected driver the click is unhandled; otherwise every click is handled. The close box clears the selection, the leaderboard highlight (when set) and the segment. A segment click records a telemetry load for (driver, "Qk") and hides the modal. Any other click changes nothing. |
| Replay.LeaderboardX | src/interfaces/race_replay.py:49 | The leaderboard sits 12 into the right UI column, but at least at x = 20. |
| Replay.ReferenceCurveOf | src/interfaces/race_replay.py:62-72 | The reference polyline is the example lap resampled to 4000 points, with its own arc lengths. |
| Replay.BoundaryPoints | src/interfaces/race_replay.py:74-76 | Each boundary is resampled to 2000 points. |
| Replay.ScreenPoints | src/interfaces/race_replay.py:231-233 | The screen polyline is `world_to_screen` of each world point, in order. |
| Replay.ScalingFit | src/interfaces/race_replay.py:181-229 | No contract of its own: the corrected fit of the rotated boundaries (see Findings). `Viewport.FitsDifferOnlyInCentring` relates it to the fit as written, and `Replay.BoundariesInside` states that it keeps the track inside the padded area. |
| Replay.CarPositions | src/interfaces/race_replay.py:316-321 | Each car of the frame is drawn at `world_to_screen` of its pose, in iteration order. |
| Replay.RotateBoundaries | src/interfaces/race_replay.py:194-199 | The two append loops yield the rotated inner points followed by the rotated outer points. |
| Replay.RotatedInOrder | src/interfaces/race_replay.py:194-199 | Inner then outer, rotated pointwise, is the rotation of the concatenation. |
| Replay.FitBoundaries | src/interfaces/race_replay.py:181-233 | The rotation loops and the fit of `update_scaling` with the corrected centring (see Findings): the fit is `ScalingFit`, both screen polylines are `ScreenPoints` under it, and every screen point lies inside the padded area. |
| Replay.BoundariesInside | src/interfaces/race_replay.py:176-233 | Under the corrected fit (see Findings), every inner and outer boundary point is drawn inside the padded area. |
| Replay.LoadTrack | src/interfaces/race_replay.py:55-76 | The track is the successful `build_track_from_example_lap` of the example lap, the reference polyline is built from it, and each boundary is resampled. |
| Replay.SortedBoard | src/interfaces/race_replay.py:401-406 | Copying the rows into an array and sorting in place gives `SortDesc`. |
| Replay.ReplayView.constructor | src/interfaces/race_replay.py:22-102 | Stores the inputs and builds track, reference polyline and boundaries from the example lap. The clock starts at frame 0, unpaused, at the given speed; the fit and screen polylines are those of `update_scaling` with the corrected centring (see Findings); the leaderboard is empty at `LeaderboardX`; no driver is selected. |
| Replay.ReplayView.UpdateScaling | src/interfaces/race_replay.py:176-233 | The new fit is the one scaled and centred on the rotated extents, and the screen polylines are recomputed with it. Every boundary point then lies inside the padded area. Clock, size and rows are unchanged. |
| Replay.ReplayView.SetFit | src/interfaces/race_replay.py:220-233 | Stores the fit and the screen polylines; nothing else changes. |
| Replay.ReplayView.OnResize | src/interfaces/race_replay.py:235-242 | Records the new size, refits to it with the corrected fit (see Findings), and moves the leaderboard to the new right column. Entries, leaderboard rows, the view's copy of the rows, selection and clock are unchanged. |
| Replay.ReplayView.OnUpdate | src/interfaces/race_replay.py:440-445 | The clock takes one `Step`; fit, polylines, size and rows are unchanged. |
| Replay.ReplayView.OnKeyPress | src/interfaces/race_replay.py:485-502 | The clock changes by `KeyPress` (ESC leaves it alone); fit, polylines, size and rows are unchanged. |
| Replay.ReplayView.OnMousePress | src/interfaces/race_replay.py:470-475 | A click on a leaderboard row toggles that driver; any other click clears the view's selected driver. The leaderboard's entries, rows and position are unchanged. |
| Replay.ReplayView.OnDraw | src/interfaces/race_replay.py:271-410 | For the drawn frame it returns the active track status, with that status's colour and banner, the cars' screen positions and the leader's lap. It returns the board as the stable descending sort of the standings, which the leaderboard now holds and lays out; its rows are copied into `leaderboard_rects`. Clock, fit, selection and the leaderboard's position are unchanged. |
| Replay.ReplayView.ShowBoard | src/interfaces/race_replay.py:407-410 | The leaderboard takes the sorted entries, lays out and labels its rows, and the view keeps a copy of those rows. |

## Left out

- Drawing is not modelled. That covers the background texture, line strips, circles, text, tyre icons, highlight rectangles and the qualifying modal's `draw`. Only the positions, labels and colours that drawing uses are modelled.
- `LegendComponent`, `WeatherComponent` and the rest of `DriverInfoComponent.draw` are not modelled; only the box placement and the DRS label are. These are pure drawing, and the legend and weather panel have no state the core reads.
- The HUD time string and lap string formatting are not modelled (string formatting only). The lap value they show is modelled as `Ranking.LeaderLap`.
- `MainMenuView`, `CircuitGridButton`, `create_ui`, `on_show_view`, `on_hide_view`, `on_menu_button_click` and the ESC switch to the menu are not modelled. They are view switching and UI-manager calls; ESC is modelled as leaving the clock unchanged. `src/wiki_utils.py` and `src/arcade_replay.py` are not part of this model.
- The first `on_key_press` (race_replay.py:447-468) is not modelled: the second definition at 485-502 replaces it, so it never runs.
- `FPS` comes from `src/f1_data`, which is not part of this model, so it is the `fps` parameter. The square root, cosine and sine are parameters too, and all arithmetic is on exact reals, not IEEE doubles.
- Pose fields read with `.get` defaults (`x`, `y`, `lap`, `dist`) are always present in `Telemetry.CarPose`. A missing `lap` behaves like `LapNumber(1)`. The fallback `driver_progress.get(code, dist)` is never taken because every driver has a progress, so it is not modelled.
- Replay.ReplayView.constructor: requires a non-empty frame list. The source builds the view without frames, but its first `on_draw` then indexes `frames[-1]` and raises.
- Replay.ReplayView.constructor: requires at least two example samples of equal length. Otherwise `build_track_from_example_lap` raises; that error path is modelled by `TrackBuilder.BuildTrack`.
- Replay.ReplayView.OnDraw: requires a non-negative frame index. The clock reaches only such indices from its initial state when the playback speed is positive, the frame rate is positive and every update time is non-negative (`Playback.ValidClock`, `Playback.StepKeepsValid`, `Playback.KeyPressKeepsValid`). The constructor, like `__init__` (race_replay.py:23), accepts any speed: with a negative speed an update moves the index below 0 (race_replay.py:443), and that case is not modelled. Python's negative indexing of `frames`, which a negative index would trigger, is not modelled.
- UiComponents.QualifyingSegmentSelectorComponent.OnMousePress: assumes the window has `load_driver_telemetry` and that starting the load does not raise. The `hasattr` test and the `try`/`except` that prints the error are not modelled; a click on a segment records the request.
- Replay.ReplayView.UpdateScaling: uses the corrected centring (see Findings), not the one as written. The as-written transform is `Viewport.FitAsWritten`.
- Replay.FitBoundaries: computes the corrected fit `Viewport.FitCentred`, which centres the rotated extents. The source's `update_scaling` centres the unrotated bounding-box centre (race_replay.py:228-229), as `Viewport.FitAsWritten` does. On the triangle of Findings the as-written `tx` is 277.5, which the model does not produce. The two fits share their scale (`Viewport.FitsDifferOnlyInCentring`).
- Replay.BoundariesInside: holds for the corrected fit only. Under the fit as written it fails, as `Viewport.AsWrittenFitLeavesWindow` shows.
- Replay.ReplayView.constructor: fits the track with the corrected fit. The source's `__init__` calls the as-written `update_scaling` (race_replay.py:94).
- Replay.ReplayView.OnResize: refits with the corrected fit. The source's `on_resize` calls the as-written `update_scaling` (race_replay.py:238).
- ReferenceCurve.ProjectAtSample: states only that a position on a sample projects to that sample's arc length. A position lying on a segment would be expected to project to its arc length along the polyline. The source breaks that, and the model keeps the source. On the polyline (0,0), (10,0), (20,0), with cumulative distances 0, 10 and 20, the position (6,0) lies 6 along the first segment. Its squared distances to the samples are 36, 16 and 196, so argmin picks sample 1. The parameter on the segment after it is -0.4, which clamps to 0, so the projection is 10, not 6. The source comment at race_replay.py:152 accepts the nearest-sample approximation. A Dafny lemma for this input is not given: the real division inside `AlongSegment` is beyond the verifier's limit.

## Findings

| source | as written | input that shows it | evidently intended | confidence | as-written member | corrected member |
|---|---|---|---|---|---|---|
| src/interfaces/race_replay.py:183-229 | The scale fits the extents of the rotated boundaries (201-220), but the translation centres the unrotated bounding-box centre (183-184, 228-229). The comment at 223 assumes rotation about that centre keeps the extents centred on it, which fails for asymmetric shapes. | Triangle (0,0), (10,10), (10,0), rotation with cos 3/5 and sin 4/5, window 1600 by 10000 with margins 340 and 260. Corner (10,0) is drawn at x = 1627.5, off the window's right edge. | Centre the rotated extents in the inner area, so that every boundary point is drawn inside the padded area between the UI columns | high for the arithmetic, not executed | Viewport.AsWrittenFitLeavesWindow | Viewport.CentredTrackInsidePaddedArea |
