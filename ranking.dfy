/** Race progress of each car (laps completed times the lap length plus the projected distance along
    the reference line), the race leader, and the leaderboard order. */
module Ranking {
  import opened Wrappers
  import opened Geometry
  import opened Telemetry
  import opened ReferenceCurve

  /** `int(lap_raw)`, or 1 when the raw value does not parse. */
  function LapCount(f: LapField): int {
    match f
    case LapNumber(n) => n
    case LapUnparseable(_) => 1
  }

  function MaxInt(a: int, b: int): int { if a >= b then a else b }

  /** Length of the laps completed before the current one: `(max(lap, 1) - 1) * lap_length`. */
  function CompletedLaps(lap: LapField, total: real): real {
    (MaxInt(LapCount(lap), 1) - 1) as real * total
  }

  /** Metres covered since the start: completed laps plus the projected distance into this lap. */
  function Progress(pose: CarPose, c: RefCurve, sqrt: real -> real): real
    requires IsCurveOf(c, sqrt)
  {
    CompletedLaps(pose.lap, c.total) + Project(c, pose.x, pose.y, sqrt)
  }

  /** Progress lies within the car's current lap: at least the length of its completed laps and at
      most one lap length more. */
  lemma ProgressWithinLap(pose: CarPose, c: RefCurve, sqrt: real -> real)
    requires IsCurveOf(c, sqrt) && IsSqrt(sqrt)
    ensures CompletedLaps(pose.lap, c.total) <= Progress(pose, c, sqrt) <= CompletedLaps(pose.lap, c.total) + c.total
  {
    ProjectWithinLap(c, pose.x, pose.y, sqrt);
  }

  /** A car on a later lap is never behind a car on an earlier lap. */
  lemma LaterLapNotBehind(p: CarPose, q: CarPose, c: RefCurve, sqrt: real -> real)
    requires IsCurveOf(c, sqrt) && IsSqrt(sqrt)
    requires MaxInt(LapCount(p.lap), 1) > MaxInt(LapCount(q.lap), 1)
    ensures Progress(q, c, sqrt) <= Progress(p, c, sqrt)
  {
    ProgressWithinLap(p, c, sqrt);
    ProgressWithinLap(q, c, sqrt);
    CompletedLapsAhead(q.lap, p.lap, c.total);
  }

  /** One more completed lap adds at least one lap length. */
  lemma CompletedLapsAhead(behind: LapField, ahead: LapField, t: real)
    requires MaxInt(LapCount(behind), 1) < MaxInt(LapCount(ahead), 1) && 0.0 <= t
    ensures CompletedLaps(behind, t) + t <= CompletedLaps(ahead, t)
  {
    var a, b := (MaxInt(LapCount(behind), 1) - 1) as real, (MaxInt(LapCount(ahead), 1) - 1) as real;
    LapsMono(a + 1.0, b, t);
  }

  lemma LapsMono(a: real, b: real, t: real)
    requires a <= b && 0.0 <= t
    ensures a * t <= b * t
    ensures (a - 1.0) * t + t == a * t
  {
  }

  /** One row of the standings: the driver's code, pose and progress. */
  datatype Standing = Standing(code: string, pose: CarPose, progress: real)

  /** The standings of a frame's drivers, in iteration order. */
  function Standings(ds: seq<DriverEntry>, c: RefCurve, sqrt: real -> real): seq<Standing>
    requires IsCurveOf(c, sqrt)
  {
    seq(|ds|, i requires 0 <= i < |ds| => Standing(ds[i].code, ds[i].pose, Progress(ds[i].pose, c, sqrt)))
  }

  /** The loop over the frame's drivers that records each one's progress, in iteration order. */
  method ComputeStandings(ds: seq<DriverEntry>, c: RefCurve, sqrt: real -> real) returns (st: seq<Standing>)
    requires IsCurveOf(c, sqrt)
    ensures st == Standings(ds, c, sqrt)
    ensures |st| == |ds|
    ensures forall i :: 0 <= i < |ds| ==> st[i] == Standing(ds[i].code, ds[i].pose, Progress(ds[i].pose, c, sqrt))
  {
    st := [];
    var i := 0;
    while i < |ds|
      invariant 0 <= i <= |ds| && |st| == i
      invariant forall k :: 0 <= k < i ==> st[k] == Standing(ds[k].code, ds[k].pose, Progress(ds[k].pose, c, sqrt))
    {
      st := st + [Standing(ds[i].code, ds[i].pose, Progress(ds[i].pose, c, sqrt))];
      i := i + 1;
    }
  }

  // ---------------------------------------------------------------------------------------------
  // Leader
  // ---------------------------------------------------------------------------------------------

  /** First index of greatest progress among the first `m` rows. */
  function LeaderUpTo(st: seq<Standing>, m: nat): (b: nat)
    requires 0 < m <= |st|
    ensures b < m
    ensures forall j :: 0 <= j < m ==> st[j].progress <= st[b].progress
    ensures forall j :: 0 <= j < b ==> st[j].progress < st[b].progress
  {
    if m == 1 then 0
    else
      var b := LeaderUpTo(st, m - 1);
      if st[b].progress < st[m - 1].progress then m - 1 else b
  }

  /** `max(driver_progress, key=...)`: the first driver, in iteration order, of greatest progress;
      none for an empty frame. */
  function Leader(st: seq<Standing>): (r: Option<nat>)
    ensures r.None? <==> |st| == 0
    ensures r.Some? ==> r.value < |st|
    ensures r.Some? ==> forall j :: 0 <= j < |st| ==> st[j].progress <= st[r.value].progress
    ensures r.Some? ==> forall j :: 0 <= j < r.value ==> st[j].progress < st[r.value].progress
  {
    if |st| == 0 then None else Some(LeaderUpTo(st, |st|))
  }

  /** The lap shown in the HUD: the leader's own raw lap field, or 1 without a leader. */
  function LeaderLap(st: seq<Standing>): (f: LapField)
    ensures |st| == 0 ==> f == LapNumber(1)
    ensures |st| > 0 ==> exists i :: 0 <= i < |st| && f == st[i].pose.lap && Leader(st) == Some(i)
  {
    match Leader(st)
    case None => LapNumber(1)
    case Some(i) => st[i].pose.lap
  }

  // ---------------------------------------------------------------------------------------------
  // Leaderboard order: Python's stable sort by progress with reverse=True
  // ---------------------------------------------------------------------------------------------

  /** Non-increasing progress. */
  ghost predicate SortedDesc(s: seq<Standing>) {
    forall i, j :: 0 <= i < j < |s| ==> s[j].progress <= s[i].progress
  }

  /** Insert `x` into a non-increasing row list after every row of progress at least its own. */
  function Insert(t: seq<Standing>, x: Standing): (r: seq<Standing>)
    ensures |r| == |t| + 1
    decreases |t|
  {
    if |t| == 0 then [x]
    else if x.progress <= t[|t| - 1].progress then t + [x]
    else Insert(t[..|t| - 1], x) + [t[|t| - 1]]
  }

  /** Reference stable descending sort: each row in turn inserted into the sorted earlier rows. */
  function SortDesc(s: seq<Standing>): (r: seq<Standing>)
    ensures |r| == |s|
  {
    if |s| == 0 then [] else Insert(SortDesc(s[..|s| - 1]), s[|s| - 1])
  }

  /** Insertion adds `x` and loses nothing. */
  lemma {:induction false} InsertPermutes(t: seq<Standing>, x: Standing)
    ensures multiset(Insert(t, x)) == multiset(t) + multiset{x}
    decreases |t|
  {
    if |t| > 0 && x.progress > t[|t| - 1].progress {
      var u, last := t[..|t| - 1], t[|t| - 1];
      InsertPermutes(u, x);
      assert t == u + [last];
    }
  }

  /** The leaderboard holds exactly the rows it was given: the sort is a permutation. */
  lemma {:induction false} SortDescPermutes(s: seq<Standing>)
    ensures multiset(SortDesc(s)) == multiset(s)
  {
    if |s| > 0 {
      var p, last := s[..|s| - 1], s[|s| - 1];
      assert s == p + [last];
      SortDescPermutes(p);
      InsertPermutes(SortDesc(p), last);
      assert multiset(SortDesc(s)) == multiset(p) + multiset{last};
    }
  }

  /** Row `b` of the input appears on the leaderboard. */
  lemma SortDescKeeps(s: seq<Standing>, b: nat) returns (m: nat)
    requires b < |s|
    ensures m < |SortDesc(s)| && SortDesc(s)[m] == s[b]
  {
    SortDescPermutes(s);
    assert s[b] in multiset(s);
    assert s[b] in SortDesc(s);
    m :| 0 <= m < |SortDesc(s)| && SortDesc(s)[m] == s[b];
  }

  /** Leaderboard row `k` is a row of the input. */
  lemma SortDescTakesFrom(s: seq<Standing>, k: nat) returns (n: nat)
    requires k < |s|
    ensures n < |s| && s[n] == SortDesc(s)[k]
  {
    SortDescPermutes(s);
    assert SortDesc(s)[k] in multiset(SortDesc(s));
    assert SortDesc(s)[k] in s;
    n :| 0 <= n < |s| && s[n] == SortDesc(s)[k];
  }

  /** Inserting `x` keeps the rows in non-increasing progress. */
  lemma {:induction false} InsertSorted(t: seq<Standing>, x: Standing)
    requires SortedDesc(t)
    ensures SortedDesc(Insert(t, x))
    decreases |t|
  {
    if |t| > 0 && x.progress > t[|t| - 1].progress {
      var u, last := t[..|t| - 1], t[|t| - 1];
      InsertSorted(u, x);
      InsertLowerBound(u, x, last.progress);
      assert Insert(t, x) == Insert(u, x) + [last];
    }
  }

  /** A lower bound on the progress of every row and of `x` bounds the insertion. */
  lemma {:induction false} InsertLowerBound(t: seq<Standing>, x: Standing, v: real)
    requires forall k :: 0 <= k < |t| ==> v <= t[k].progress
    requires v <= x.progress
    ensures forall k :: 0 <= k < |Insert(t, x)| ==> v <= Insert(t, x)[k].progress
    decreases |t|
  {
    if |t| > 0 && x.progress > t[|t| - 1].progress {
      InsertLowerBound(t[..|t| - 1], x, v);
    }
  }

  /** The leaderboard comes out in non-increasing progress. */
  lemma {:induction false} SortDescSorted(s: seq<Standing>)
    ensures SortedDesc(SortDesc(s))
  {
    if |s| > 0 {
      SortDescSorted(s[..|s| - 1]);
      InsertSorted(SortDesc(s[..|s| - 1]), s[|s| - 1]);
    }
  }

  /** The rows of progress exactly `v`, in order. */
  function WithProgress(s: seq<Standing>, v: real): seq<Standing> {
    if |s| == 0 then []
    else WithProgress(s[..|s| - 1], v) + (if s[|s| - 1].progress == v then [s[|s| - 1]] else [])
  }

  lemma {:induction false} WithProgressAppend(a: seq<Standing>, b: seq<Standing>, v: real)
    ensures WithProgress(a + b, v) == WithProgress(a, v) + WithProgress(b, v)
    decreases |b|
  {
    if |b| > 0 {
      var b', last := b[..|b| - 1], b[|b| - 1];
      var tail := if last.progress == v then [last] else [];
      assert (a + b)[..|a + b| - 1] == a + b';
      assert (a + b)[|a + b| - 1] == last;
      assert WithProgress(a + b, v) == WithProgress(a + b', v) + tail;
      WithProgressAppend(a, b', v);
      assert WithProgress(b, v) == WithProgress(b', v) + tail;
    } else {
      assert a + b == a;
    }
  }

  lemma {:induction false} WithProgressNone(s: seq<Standing>, v: real)
    requires forall k :: 0 <= k < |s| ==> s[k].progress != v
    ensures WithProgress(s, v) == []
  {
    if |s| > 0 {
      WithProgressNone(s[..|s| - 1], v);
    }
  }

  /** Inserting `x` puts it after every row of equal progress already present. */
  lemma {:induction false} InsertStable(t: seq<Standing>, x: Standing, v: real)
    ensures WithProgress(Insert(t, x), v) == WithProgress(t, v) + WithProgress([x], v)
    decreases |t|
  {
    if |t| == 0 {
      assert Insert(t, x) == [] + [x];
    } else if x.progress <= t[|t| - 1].progress {
      WithProgressAppend(t, [x], v);
    } else {
      var u, last := t[..|t| - 1], t[|t| - 1];
      assert t == u + [last];
      InsertStable(u, x, v);
      WithProgressAppend(Insert(u, x), [last], v);
      WithProgressAppend(u, [last], v);
      if x.progress == v {
        assert WithProgress([last], v) == WithProgress([], v) + [];
        WithProgressAppend(u, [x], v);
      } else {
        assert WithProgress([x], v) == WithProgress([], v) + [];
      }
    }
  }

  /** Stability: for every progress value, the rows with that value keep their original order. */
  lemma {:induction false} SortDescStable(s: seq<Standing>, v: real)
    ensures WithProgress(SortDesc(s), v) == WithProgress(s, v)
  {
    if |s| > 0 {
      var p, last := s[..|s| - 1], s[|s| - 1];
      assert s == p + [last];
      assert SortDesc(s) == Insert(SortDesc(p), last);
      SortDescStable(p, v);
      InsertStable(SortDesc(p), last, v);
      WithProgressAppend(p, [last], v);
    }
  }

  /** In-place sort of the leaderboard rows: an insertion sort over the array. */
  method SortStandings(a: array<Standing>)
    modifies a
    ensures a[..] == SortDesc(old(a[..]))
  {
    ghost var orig := a[..];
    var i := 0;
    while i < a.Length
      invariant 0 <= i <= a.Length
      invariant a[..i] == SortDesc(orig[..i])
      invariant a[i..] == orig[i..]
    {
      assert a[i] == orig[i] && a[i + 1..] == orig[i + 1..];
      InsertAt(a, i);
      assert orig[..i + 1][..i] == orig[..i];
      assert SortDesc(orig[..i + 1]) == Insert(SortDesc(orig[..i]), orig[i]);
      i := i + 1;
    }
    assert a[..] == a[..a.Length] && orig[..a.Length] == orig;
  }

  /** Moves row `i` down past the rows before it of smaller progress, shifting those one place up,
      so that the first `i + 1` rows become the ordered insertion of row `i` into the first `i`. */
  method InsertAt(a: array<Standing>, i: nat)
    requires i < a.Length
    modifies a
    ensures a[..i + 1] == Insert(old(a[..i]), old(a[i]))
    ensures a[i + 1..] == old(a[i + 1..])
  {
    var x := a[i];
    ghost var t := a[..i];
    ghost var rest := a[i + 1..];
    var j := i;
    while j > 0 && a[j - 1].progress < x.progress
      invariant 0 <= j <= i
      invariant forall k :: 0 <= k < j ==> a[k] == t[k]
      invariant forall k :: j < k <= i ==> a[k] == t[k - 1]
      invariant a[i + 1..] == rest
      invariant forall k :: j <= k < i ==> t[k].progress < x.progress
    {
      a[j] := a[j - 1];
      j := j - 1;
    }
    a[j] := x;
    InsertShifted(t, x, j);
    PlacedIsInsertion(a[..i + 1], t, x, j);
  }

  /** Rows `t` with `x` placed at `j` and the rows from `j` on shifted one place up. */
  lemma PlacedIsInsertion(s: seq<Standing>, t: seq<Standing>, x: Standing, j: nat)
    requires j <= |t| && |s| == |t| + 1 && s[j] == x
    requires forall k :: 0 <= k < j ==> s[k] == t[k]
    requires forall k :: j < k <= |t| ==> s[k] == t[k - 1]
    ensures s == t[..j] + [x] + t[j..]
  {
    var r := t[..j] + [x] + t[j..];
    forall k | 0 <= k < |s|
      ensures s[k] == r[k]
    {
      if k < j {
        assert r[k] == t[k];
      } else if k > j {
        assert r[k] == t[k - 1];
      }
    }
  }

  /** Insertion stops after the last row of progress at least `x`'s: everything from `j` on
      is smaller than `x`, and row `j - 1`, if any, is not. */
  lemma {:induction false} InsertShifted(t: seq<Standing>, x: Standing, j: nat)
    requires j <= |t|
    requires forall k :: j <= k < |t| ==> t[k].progress < x.progress
    requires j == 0 || x.progress <= t[j - 1].progress
    ensures Insert(t, x) == t[..j] + [x] + t[j..]
    decreases |t|
  {
    if j < |t| {
      var u := t[..|t| - 1];
      InsertShifted(u, x, j);
      assert u[..j] == t[..j];
      assert t[j..] == u[j..] + [t[|t| - 1]];
    } else {
      assert t[..j] == t;
    }
  }

  /** The first leaderboard row is the leader: the stable sort keeps the first driver of greatest
      progress at the top. */
  lemma LeaderTopsBoard(s: seq<Standing>)
    requires 0 < |s|
    ensures SortDesc(s)[0] == s[Leader(s).value]
  {
    var r := SortDesc(s);
    var b := Leader(s).value;
    var v := s[b].progress;
    SortDescSorted(s);
    SortDescStable(s, v);
    var m := SortDescKeeps(s, b);
    var n := SortDescTakesFrom(s, 0);
    assert r[m].progress <= r[0].progress;
    assert r[0].progress == v;
    WithProgressFirst(r, v, 0);
    WithProgressFirst(s, v, b);
  }

  /** When every row before `i` has progress other than `v` and row `i` has progress `v`,
      row `i` heads the rows of progress `v`. */
  lemma {:induction false} WithProgressFirst(s: seq<Standing>, v: real, i: nat)
    requires i < |s| && s[i].progress == v
    requires forall k :: 0 <= k < i ==> s[k].progress != v
    ensures 0 < |WithProgress(s, v)| && WithProgress(s, v)[0] == s[i]
  {
    assert s == s[..i] + s[i..];
    WithProgressAppend(s[..i], s[i..], v);
    WithProgressNone(s[..i], v);
    assert s[i..] == [s[i]] + s[i + 1..];
    WithProgressAppend([s[i]], s[i + 1..], v);
    assert WithProgress([s[i]], v) == WithProgress([], v) + [s[i]];
  }
}
