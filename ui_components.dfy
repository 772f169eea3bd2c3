/** The replay's UI components: the compass label of the wind direction, the DRS label and the
    placement of the driver-info box, the leaderboards with their clickable rows, and the
    qualifying-segment selector. */
module UiComponents {
  import opened Wrappers
  import opened Telemetry
  import opened Ranking

  // ---------------------------------------------------------------------------------------------
  // Wind direction

  /** The sixteen compass points, clockwise from north, 22.5 degrees apart. */
  const Compass: seq<string> := ["N", "NNE", "NE", "ENE", "E", "ESE", "SE", "SSE",
                                  "S", "SSW", "SW", "WSW", "W", "WNW", "NW", "NNW"]

  /** Python's float `degrees % 360`: the remainder is never negative. */
  function Mod360(d: real): (r: real)
    ensures 0.0 <= r < 360.0
  {
    d - 360.0 * ((d / 360.0).Floor as real)
  }

  /** Index of the compass point nearest to `degrees`: `int(deg % 360 / 22.5 + 0.5) % 16`. */
  function CompassIndex(degrees: real): (k: int)
    ensures 0 <= k < |Compass|
  {
    ((Mod360(degrees) / 22.5 + 0.5).Floor) % 16
  }

  /** `_format_wind_direction`: the compass point of the wind direction, "N/A" when unknown. */
  function WindLabel(degrees: Option<real>): string {
    match degrees
    case None => "N/A"
    case Some(d) => Compass[CompassIndex(d)]
  }

  /** Each compass point labels the 22.5-degree sector centred on its own bearing, including the
      sector of north, which straddles 0. */
  lemma WindSector(d: real, k: int)
    requires 0 <= k < 16 && 22.5 * k as real - 11.25 <= d < 22.5 * k as real + 11.25
    ensures WindLabel(Some(d)) == Compass[k]
  {
    if 0.0 <= d {
      FloorIs(d / 360.0, 0);
      assert Mod360(d) == d;
      assert k as real <= d / 22.5 + 0.5 < k as real + 1.0;
      FloorIs(d / 22.5 + 0.5, k);
      assert CompassIndex(d) == k % 16 == k;
    } else {
      assert k == 0;
      FloorIs(d / 360.0, -1);
      assert Mod360(d) == d + 360.0;
      FloorIs((d + 360.0) / 22.5 + 0.5, 16);
      assert CompassIndex(d) == 16 % 16 == 0;
    }
  }

  lemma FloorIs(r: real, n: int)
    requires n as real <= r < n as real + 1.0
    ensures r.Floor == n
  {
  }

  /** The label is one of the sixteen compass points exactly when the direction is known. */
  lemma WindLabelIsCompassPoint(degrees: Option<real>)
    ensures WindLabel(degrees) in Compass <==> degrees.Some?
    ensures degrees.None? ==> WindLabel(degrees) == "N/A"
  {
    if degrees.Some? {
      assert WindLabel(degrees) == Compass[CompassIndex(degrees.value)];
    }
  }

  /** Full turns do not change the label. */
  lemma WindLabelPeriodic(d: real)
    ensures WindLabel(Some(d + 360.0)) == WindLabel(Some(d))
  {
    assert ((d + 360.0) / 360.0).Floor == (d / 360.0).Floor + 1;
    assert Mod360(d + 360.0) == Mod360(d);
  }

  /** 0 and 360 degrees read "N", 90 "E", 180 "S" and 270 "W". */
  lemma WindCardinalPoints()
    ensures WindLabel(Some(0.0)) == "N" && WindLabel(Some(360.0)) == "N"
    ensures WindLabel(Some(90.0)) == "E" && WindLabel(Some(180.0)) == "S" && WindLabel(Some(270.0)) == "W"
  {
    WindSector(0.0, 0);
    WindLabelPeriodic(0.0);
    WindSector(90.0, 4);
    WindSector(180.0, 8);
    WindSector(270.0, 12);
  }

  // ---------------------------------------------------------------------------------------------
  // DRS label and driver-info box

  /** The DRS state shown in the driver-info box for the car's raw DRS value. */
  function DrsLabel(v: int): string {
    if v == 0 || v == 1 then "Off"
    else if v == 8 then "Eligible"
    else if v == 10 || v == 12 || v == 14 then "On"
    else "Unknown"
  }

  /** Each label belongs to exactly its set of raw values. */
  lemma DrsLabelCases(v: int)
    ensures DrsLabel(v) == "Off" <==> v in {0, 1}
    ensures DrsLabel(v) == "Eligible" <==> v == 8
    ensures DrsLabel(v) == "On" <==> v in {10, 12, 14}
    ensures DrsLabel(v) == "Unknown" <==> v !in {0, 1, 8, 10, 12, 14}
  {
  }

  const InfoBoxHeight: real := 150.0
  /** How far above the middle of the window the box sits by default. */
  const InfoBoxRaise: real := 100.0
  /** Gap kept below the weather panel. */
  const InfoBoxGap: real := 20.0
  /** Default lowest top of the box. */
  const InfoBoxMinTop: real := 220.0

  /** The vertical anchor `info_y` of the driver-info box: raised above the window's middle, moved
      down under the weather panel when there is one, and never below `minTop + 75`. */
  function InfoBoxY(windowH: real, weatherBottom: Option<real>, minTop: real): real {
    var byDefault := windowH / 2.0 + InfoBoxRaise;
    var placed := match weatherBottom
      case None => byDefault
      case Some(wb) => MinOf(byDefault, wb - InfoBoxGap - InfoBoxHeight / 2.0);
    MaxOf(placed, minTop + InfoBoxHeight / 2.0)
  }

  function MinOf(a: real, b: real): real { if a <= b then a else b }
  function MaxOf(a: real, b: real): real { if a >= b then a else b }

  /** The box never drops below `minTop + 75`. Unless that floor applies, it is at the default
      height and, when a weather panel is shown, half a box and the gap below that panel; and it
      is one of those three candidate heights. */
  lemma InfoBoxPlacement(windowH: real, weatherBottom: Option<real>, minTop: real)
    ensures var y := InfoBoxY(windowH, weatherBottom, minTop);
      && minTop + InfoBoxHeight / 2.0 <= y
      && (y == minTop + InfoBoxHeight / 2.0 || y <= windowH / 2.0 + InfoBoxRaise)
      && (weatherBottom.Some? ==>
            y == minTop + InfoBoxHeight / 2.0 || y <= weatherBottom.value - InfoBoxGap - InfoBoxHeight / 2.0)
      && (y == minTop + InfoBoxHeight / 2.0 || y == windowH / 2.0 + InfoBoxRaise ||
          (weatherBottom.Some? && y == weatherBottom.value - InfoBoxGap - InfoBoxHeight / 2.0))
  {
  }

  // ---------------------------------------------------------------------------------------------
  // Leaderboard rows

  /** The object whose `selected_driver` attribute a component updates (the view it is drawn in). */
  class DriverSelection {
    var selectedDriver: Option<string>

    constructor()
      ensures selectedDriver == None
    {
      selectedDriver := None;
    }
  }

  /** A clickable row: the driver code and the rectangle's left, bottom, right and top edges. */
  datatype Rect = Rect(code: string, left: real, bottom: real, right: real, top: real)

  /** Bounds are inclusive on every side. */
  predicate Contains(r: Rect, x: real, y: real) {
    r.left <= x <= r.right && r.bottom <= y <= r.top
  }

  const RowHeight: real := 25.0
  /** The heading sits this far below the window's top edge; the first row 30 further down. */
  const HeadingOffset: real := 40.0
  const FirstRowOffset: real := 30.0

  /** Rectangle of row `i` (0-based) of a leaderboard at `x` with width `width`. */
  function RowRect(code: string, i: nat, x: real, width: real, windowH: real): (r: Rect)
    ensures r.top == windowH - HeadingOffset - FirstRowOffset - RowHeight * i as real
    ensures r.bottom == r.top - RowHeight && r.left == x && r.right == x + width
  {
    var top := windowH - HeadingOffset - FirstRowOffset - RowHeight * i as real;
    Rect(code, x, top - RowHeight, x + width, top)
  }

  /** The index of the first rectangle containing (x, y). */
  function FirstHit(rects: seq<Rect>, x: real, y: real): (h: Option<nat>)
    ensures h.Some? ==> h.value < |rects| && Contains(rects[h.value], x, y)
    ensures h.Some? ==> forall j :: 0 <= j < h.value ==> !Contains(rects[j], x, y)
    ensures h.None? <==> forall j :: 0 <= j < |rects| ==> !Contains(rects[j], x, y)
  {
    if |rects| == 0 then None
    else if Contains(rects[0], x, y) then Some(0)
    else
      var h := FirstHit(rects[1..], x, y);
      assert forall j :: 1 <= j < |rects| ==> rects[1..][j - 1] == rects[j];
      if h.Some? then Some(h.value + 1) else None
  }

  /** Clicking a row selects its driver, or deselects it when it is the one already selected. */
  function Toggle(selected: Option<string>, code: string): (s: Option<string>)
    ensures s == None <==> selected == Some(code)
    ensures s.Some? ==> s.value == code
  {
    if selected == Some(code) then None else Some(code)
  }

  /** A second click on the same row undoes the first, starting from no selection or from that
      row's driver. */
  lemma ToggleTwice(selected: Option<string>, code: string)
    requires selected == None || selected == Some(code)
    ensures Toggle(Toggle(selected, code), code) == selected
  {
  }

  /** The scan of `on_mouse_press` over the rows: the first row containing the click. */
  method FindHit(rects: seq<Rect>, x: real, y: real) returns (hit: Option<nat>)
    ensures hit == FirstHit(rects, x, y)
  {
    var i := 0;
    while i < |rects|
      invariant 0 <= i <= |rects|
      invariant forall j :: 0 <= j < i ==> !Contains(rects[j], x, y)
    {
      if Contains(rects[i], x, y) {
        FirstHitIs(rects, x, y, i);
        return Some(i);
      }
      i := i + 1;
    }
    hit := None;
  }

  /** The first containing rectangle is the one FirstHit reports. */
  lemma FirstHitIs(rects: seq<Rect>, x: real, y: real, i: nat)
    requires i < |rects| && Contains(rects[i], x, y)
    requires forall j :: 0 <= j < i ==> !Contains(rects[j], x, y)
    ensures FirstHit(rects, x, y) == Some(i)
  {
  }

  /** `rects` as `draw` lays them out: one row per code, in order, each 25 high below the last. */
  ghost predicate RowLayout(rects: seq<Rect>, codes: seq<string>, x: real, width: real, windowH: real) {
    |rects| == |codes| && forall i :: 0 <= i < |codes| ==> rects[i] == RowRect(codes[i], i, x, width, windowH)
  }

  /** A click strictly inside row `i`'s height and within its width hits row `i`: the rows above
      end above it and the first hit is `i`. */
  lemma ClickInsideRow(rects: seq<Rect>, codes: seq<string>, x: real, width: real, windowH: real,
                       i: nat, cx: real, cy: real)
    requires RowLayout(rects, codes, x, width, windowH) && i < |codes|
    requires x <= cx <= x + width && rects[i].bottom <= cy < rects[i].top
    ensures FirstHit(rects, cx, cy) == Some(i)
  {
    forall j | 0 <= j < i
      ensures !Contains(rects[j], cx, cy)
    {
      assert rects[j] == RowRect(codes[j], j, x, width, windowH);
      assert rects[i] == RowRect(codes[i], i, x, width, windowH);
      assert RowHeight * j as real + RowHeight <= RowHeight * i as real;
    }
    FirstHitIs(rects, cx, cy, i);
  }

  /** A click left or right of the board hits nothing. */
  lemma ClickBesideBoard(rects: seq<Rect>, codes: seq<string>, x: real, width: real, windowH: real,
                         cx: real, cy: real)
    requires RowLayout(rects, codes, x, width, windowH)
    requires cx < x || x + width < cx
    ensures FirstHit(rects, cx, cy) == None
  {
    forall j | 0 <= j < |rects|
      ensures !Contains(rects[j], cx, cy)
    {
      assert rects[j] == RowRect(codes[j], j, x, width, windowH);
    }
  }

  /** Decimal digits of a natural number, as Python's `str` writes them. */
  function NatToString(n: nat): (s: string)
    ensures 0 < |s|
    ensures forall k :: 0 <= k < |s| ==> '0' <= s[k] <= '9'
    decreases n
  {
    if n < 10 then [DigitChar(n)] else NatToString(n / 10) + [DigitChar(n % 10)]
  }

  function DigitChar(d: nat): (c: char)
    requires d < 10
    ensures '0' <= c <= '9'
  {
    (48 + d) as char
  }

  /** The value of a string of decimal digits. */
  function ParseDecimal(s: string): nat
    requires forall k :: 0 <= k < |s| ==> '0' <= s[k] <= '9'
  {
    if |s| == 0 then 0 else 10 * ParseDecimal(s[..|s| - 1]) + ((s[|s| - 1] as int) - 48)
  }

  /** Reading the digits back gives the number. */
  lemma {:induction false} DecimalRoundTrip(n: nat)
    ensures ParseDecimal(NatToString(n)) == n
  {
    var s := NatToString(n);
    if n >= 10 {
      DecimalRoundTrip(n / 10);
      assert s[..|s| - 1] == NatToString(n / 10);
    }
  }

  /** The suffix of the row label of a car that is out of the race. */
  const OutSuffix: string := "   OUT"

  /** The label of leaderboard row `i`: position, code and, for a car whose `rel_dist` is 1, OUT. */
  function RowLabel(i: nat, e: Standing): string {
    NatToString(i + 1) + ". " + e.code + (if e.pose.relDist == 1.0 then OutSuffix else "")
  }

  /** The label starts with the digits of the position i + 1 followed by ". " and the code, and
      ends in OUT exactly when `rel_dist` is 1. */
  lemma RowLabelParts(i: nat, e: Standing)
    ensures var text := RowLabel(i, e); var p := NatToString(i + 1);
      && |text| == |p| + 2 + |e.code| + (if e.pose.relDist == 1.0 then |OutSuffix| else 0)
      && ParseDecimal(text[..|p|]) == i + 1
      && text[|p|..|p| + 2] == ". " && text[|p| + 2..|p| + 2 + |e.code|] == e.code
      && (e.pose.relDist == 1.0 ==> text[|text| - |OutSuffix|..] == OutSuffix)
  {
    var text := RowLabel(i, e);
    var p := NatToString(i + 1);
    assert text[..|p|] == p;
    DecimalRoundTrip(i + 1);
  }

  /** Widths of the leaderboard built by the replay. */
  const LeaderboardWidth: real := 240.0

  /** The race leaderboard: the sorted entries, the rows drawn for them and the selected driver. */
  class LeaderboardComponent {
    var x: real
    const width: real
    var entries: seq<Standing>
    var rects: seq<Rect>
    var selected: Option<string>

    constructor(x: real, width: real)
      ensures this.x == x && this.width == width
      ensures entries == [] && rects == [] && selected == None
    {
      this.x := x;
      this.width := width;
      entries := [];
      rects := [];
      selected := None;
    }

    /** `set_entries`: takes the list as sorted by the caller. */
    method SetEntries(es: seq<Standing>)
      modifies this
      ensures entries == es && rects == old(rects) && selected == old(selected) && x == old(x)
    {
      entries := es;
    }

    /** `draw`: rebuilds `rects` with one row per entry, in entry order, and returns the row texts. */
    method Draw(windowH: real) returns (labels: seq<string>)
      modifies this
      ensures RowLayout(rects, Codes(entries), x, width, windowH)
      ensures |labels| == |entries| && forall i :: 0 <= i < |entries| ==> labels[i] == RowLabel(i, entries[i])
      ensures entries == old(entries) && selected == old(selected) && x == old(x)
    {
      var rs: seq<Rect> := [];
      labels := [];
      var i := 0;
      while i < |entries|
        invariant 0 <= i <= |entries|
        invariant RowLayout(rs, Codes(entries)[..i], x, width, windowH)
        invariant |labels| == i && forall k :: 0 <= k < i ==> labels[k] == RowLabel(k, entries[k])
      {
        rs := rs + [RowRect(entries[i].code, i, x, width, windowH)];
        labels := labels + [RowLabel(i, entries[i])];
        i := i + 1;
      }
      assert Codes(entries)[..i] == Codes(entries);
      rects := rs;
    }

    /** `on_mouse_press`: the first row containing the click toggles the selection, which is
        copied to the window; a click outside every row is not handled and changes nothing. */
    method OnMousePress(window: DriverSelection, x: real, y: real) returns (handled: bool)
      modifies this, window
      ensures var hit := FirstHit(old(rects), x, y);
        && handled == hit.Some?
        && selected == (if hit.Some? then Toggle(old(selected), old(rects)[hit.value].code) else old(selected))
        && window.selectedDriver == (if hit.Some? then selected else old(window.selectedDriver))
      ensures rects == old(rects) && entries == old(entries) && this.x == old(this.x)
    {
      var hit := FindHit(rects, x, y);
      if hit.Some? {
        selected := Toggle(selected, rects[hit.value].code);
        window.selectedDriver := selected;
        return true;
      }
      return false;
    }
  }

  function Codes(es: seq<Standing>): (cs: seq<string>)
    ensures |cs| == |es| && forall i :: 0 <= i < |es| ==> cs[i] == es[i].code
  {
    seq(|es|, i requires 0 <= i < |es| => es[i].code)
  }

  // ---------------------------------------------------------------------------------------------
  // Lap-time leaderboard

  /** One lap-time entry; each key of the source's dictionary may be missing. */
  datatype LapTimeEntry = LapTimeEntry(pos: Option<int>, code: Option<string>, time: Option<string>)

  /** The code of an entry, "" when missing. */
  function EntryCode(e: LapTimeEntry): string { e.code.GetOr("") }

  function EntryCodes(es: seq<LapTimeEntry>): (cs: seq<string>)
    ensures |cs| == |es| && forall i :: 0 <= i < |es| ==> cs[i] == EntryCode(es[i])
  {
    seq(|es|, i requires 0 <= i < |es| => EntryCode(es[i]))
  }

  /** The position shown in row `i`: the entry's own, else i + 1. */
  function EntryPosition(e: LapTimeEntry, i: nat): int { e.pos.GetOr(i + 1) }

  /** A leaderboard of lap times, clicked like the race leaderboard. */
  class LapTimeLeaderboardComponent {
    var x: real
    const width: real
    var entries: seq<LapTimeEntry>
    var rects: seq<Rect>
    var selected: Option<string>

    constructor(x: real, width: real)
      ensures this.x == x && this.width == width
      ensures entries == [] && rects == [] && selected == None
    {
      this.x := x;
      this.width := width;
      entries := [];
      rects := [];
      selected := None;
    }

    /** `set_entries`: a missing list counts as empty. */
    method SetEntries(es: Option<seq<LapTimeEntry>>)
      modifies this
      ensures entries == es.GetOr([]) && rects == old(rects) && selected == old(selected) && x == old(x)
    {
      entries := es.GetOr([]);
    }

    /** `draw`: one row per entry, in entry order, under the code of the entry ("" when missing),
        and the position shown on each row. */
    method Draw(windowH: real) returns (positions: seq<int>)
      modifies this
      ensures RowLayout(rects, EntryCodes(entries), x, width, windowH)
      ensures |positions| == |entries| && forall i :: 0 <= i < |entries| ==> positions[i] == EntryPosition(entries[i], i)
      ensures entries == old(entries) && selected == old(selected) && x == old(x)
    {
      var rs: seq<Rect> := [];
      positions := [];
      var i := 0;
      while i < |entries|
        invariant 0 <= i <= |entries|
        invariant RowLayout(rs, EntryCodes(entries)[..i], x, width, windowH)
        invariant |positions| == i && forall k :: 0 <= k < i ==> positions[k] == EntryPosition(entries[k], k)
      {
        rs := rs + [RowRect(EntryCode(entries[i]), i, x, width, windowH)];
        positions := positions + [EntryPosition(entries[i], i)];
        i := i + 1;
      }
      assert EntryCodes(entries)[..i] == EntryCodes(entries);
      rects := rs;
    }

    /** `on_mouse_press`, as for the race leaderboard. */
    method OnMousePress(window: DriverSelection, x: real, y: real) returns (handled: bool)
      modifies this, window
      ensures var hit := FirstHit(old(rects), x, y);
        && handled == hit.Some?
        && selected == (if hit.Some? then Toggle(old(selected), old(rects)[hit.value].code) else old(selected))
        && window.selectedDriver == (if hit.Some? then selected else old(window.selectedDriver))
      ensures rects == old(rects) && entries == old(entries) && this.x == old(this.x)
    {
      var hit := FindHit(rects, x, y);
      if hit.Some? {
        selected := Toggle(selected, rects[hit.value].code);
        window.selectedDriver := selected;
        return true;
      }
      return false;
    }
  }

  // ---------------------------------------------------------------------------------------------
  // Qualifying-segment selector

  /** A driver's qualifying result: the code and the Q1, Q2 and Q3 times, where set. */
  datatype QualifyingResult = QualifyingResult(code: string, q1: Option<string>, q2: Option<string>, q3: Option<string>)

  /** One segment the driver took part in: its lap time and its number (1, 2 or 3). */
  datatype Segment = Segment(time: string, number: int)

  /** The segments listed for a result: Q1, Q2, Q3 in that order, each only when it has a time. */
  function Segments(r: QualifyingResult): seq<Segment> {
    (if r.q1.Some? then [Segment(r.q1.value, 1)] else [])
    + (if r.q2.Some? then [Segment(r.q2.value, 2)] else [])
    + (if r.q3.Some? then [Segment(r.q3.value, 3)] else [])
  }

  /** `f"Q{n}"`. */
  function SegmentName(s: Segment): string {
    "Q" + NatToString(if s.number < 0 then 0 else s.number)
  }

  /** The listed segments are numbered 1 to 3 in increasing order, and segment k is listed, with
      its time, exactly when the result has a Qk time. */
  lemma SegmentsListed(r: QualifyingResult)
    ensures var s := Segments(r);
      && (forall i, j :: 0 <= i < j < |s| ==> s[i].number < s[j].number)
      && (forall i :: 0 <= i < |s| ==> 1 <= s[i].number <= 3)
      && (Segment(r.q1.GetOr(""), 1) in s <==> r.q1.Some?)
      && (Segment(r.q2.GetOr(""), 2) in s <==> r.q2.Some?)
      && (Segment(r.q3.GetOr(""), 3) in s <==> r.q3.Some?)
      && |s| == (if r.q1.Some? then 1 else 0) + (if r.q2.Some? then 1 else 0) + (if r.q3.Some? then 1 else 0)
  {
  }

  /** The first result with the given code. */
  function FindResult(results: seq<QualifyingResult>, code: string): (r: Option<QualifyingResult>)
    ensures r.Some? ==> r.value in results && r.value.code == code
    ensures r.Some? ==> exists i :: 0 <= i < |results| && results[i] == r.value
                                   && forall j :: 0 <= j < i ==> results[j].code != code
    ensures r.None? <==> forall i :: 0 <= i < |results| ==> results[i].code != code
  {
    if |results| == 0 then None
    else if results[0].code == code then Some(results[0])
    else
      var r := FindResult(results[1..], code);
      assert forall i :: 1 <= i < |results| ==> results[1..][i - 1] == results[i];
      r
  }

  /** Python truthiness of the selected driver: None and "" are false. */
  predicate Truthy(s: Option<string>) { s.Some? && s.value != "" }

  /** The view hosting the selector: its size, the selected driver, the results, the highlight of
      its lap-time leaderboard and the telemetry loads it was asked to start. */
  class QualifyingWindow {
    var width: int
    var height: int
    var selectedDriver: Option<string>
    var results: seq<QualifyingResult>
    const hasLeaderboard: bool
    var leaderboardSelected: Option<string>
    var telemetryRequests: seq<(string, string)>

    constructor(width: int, height: int, results: seq<QualifyingResult>, hasLeaderboard: bool)
      ensures this.width == width && this.height == height && this.results == results
      ensures this.hasLeaderboard == hasLeaderboard
      ensures selectedDriver == None && leaderboardSelected == None && telemetryRequests == []
    {
      this.width := width;
      this.height := height;
      this.results := results;
      this.hasLeaderboard := hasLeaderboard;
      selectedDriver := None;
      leaderboardSelected := None;
      telemetryRequests := [];
    }
  }

  /** The modal's edges for a window of the given size: centred, with floor division. */
  datatype Modal = Modal(left: int, right: int, top: int, bottom: int)

  function ModalFor(windowW: int, windowH: int, w: int, h: int): Modal {
    var cx := windowW / 2; var cy := windowH / 2;
    Modal(cx - w / 2, cx + w / 2, cy + h / 2, cy - h / 2)
  }

  /** The 20 by 20 close box centred 30 in from the modal's top-right corner. */
  predicate InCloseBox(m: Modal, x: real, y: real) {
    (m.right - 40) as real <= x <= (m.right - 20) as real && (m.top - 40) as real <= y <= (m.top - 20) as real
  }

  const SegmentHeight: int := 50
  const SegmentGap: int := 10

  /** The clickable rectangle of listed segment `i`. */
  predicate InSegment(m: Modal, i: nat, x: real, y: real) {
    var top := m.top - 80 - i * (SegmentHeight + SegmentGap);
    (m.left + 20) as real <= x <= (m.right - 20) as real && (top - SegmentHeight) as real <= y <= top as real
  }

  /** The first listed segment whose rectangle contains the click. */
  function SegmentHit(m: Modal, n: nat, x: real, y: real): (h: Option<nat>)
    ensures h.Some? ==> h.value < n && InSegment(m, h.value, x, y)
    ensures h.Some? ==> forall j :: 0 <= j < h.value ==> !InSegment(m, j, x, y)
    ensures h.None? <==> forall j :: 0 <= j < n ==> !InSegment(m, j, x, y)
  {
    if n == 0 then None
    else
      var h := SegmentHit(m, n - 1, x, y);
      if h.Some? then h else if InSegment(m, n - 1, x, y) then Some(n - 1) else None
  }

  /** The segment rectangles lie 10 apart, so a click is in at most one of them. */
  lemma SegmentsDisjoint(m: Modal, i: nat, j: nat, x: real, y: real)
    requires i != j && InSegment(m, i, x, y)
    ensures !InSegment(m, j, x, y)
  {
  }

  /** The modal listing the selected driver's qualifying segments. */
  class QualifyingSegmentSelectorComponent {
    const width: int
    const height: int
    var selectedSegment: Option<string>

    constructor(width: int, height: int)
      ensures this.width == width && this.height == height && selectedSegment == None
    {
      this.width := width;
      this.height := height;
      selectedSegment := None;
    }

    /** `on_mouse_press`. Not visible without a selected driver: the click is not handled. Once
        visible every click is handled: the close box hides the modal and clears both
        highlights; a segment of the driver's result starts that segment's telemetry load and
        hides the modal; any other click changes nothing. */
    method OnMousePress(window: QualifyingWindow, x: real, y: real) returns (handled: bool)
      modifies this, window
      ensures handled <==> Truthy(old(window.selectedDriver))
      ensures window.width == old(window.width) && window.height == old(window.height)
      ensures window.results == old(window.results)
      ensures var m := ModalFor(old(window.width), old(window.height), width, height);
        var r := if Truthy(old(window.selectedDriver)) then FindResult(old(window.results), old(window.selectedDriver).value) else None;
        var hit := if r.Some? then SegmentHit(m, |Segments(r.value)|, x, y) else None;
        if !Truthy(old(window.selectedDriver)) then
          && window.selectedDriver == old(window.selectedDriver)
          && window.leaderboardSelected == old(window.leaderboardSelected)
          && window.telemetryRequests == old(window.telemetryRequests)
          && selectedSegment == old(selectedSegment)
        else if InCloseBox(m, x, y) then
          && window.selectedDriver == None
          && window.leaderboardSelected ==
               (if window.hasLeaderboard && Truthy(old(window.leaderboardSelected)) then None else old(window.leaderboardSelected))
          && window.telemetryRequests == old(window.telemetryRequests)
          && selectedSegment == None
        else if hit.Some? then
          && window.selectedDriver == None
          && window.leaderboardSelected == (if window.hasLeaderboard then None else old(window.leaderboardSelected))
          && window.telemetryRequests == old(window.telemetryRequests)
               + [(old(window.selectedDriver).value, SegmentName(Segments(r.value)[hit.value]))]
          && selectedSegment == old(selectedSegment)
        else
          && window.selectedDriver == old(window.selectedDriver)
          && window.leaderboardSelected == old(window.leaderboardSelected)
          && window.telemetryRequests == old(window.telemetryRequests)
          && selectedSegment == old(selectedSegment)
    {
      if !Truthy(window.selectedDriver) {
        return false;
      }
      var m := ModalFor(window.width, window.height, width, height);
      if InCloseBox(m, x, y) {
        window.selectedDriver := None;
        if window.hasLeaderboard && Truthy(window.leaderboardSelected) {
          window.leaderboardSelected := None;
        }
        selectedSegment := None;
        return true;
      }
      var code := window.selectedDriver.value;
      var r := FindResult(window.results, code);
      if r.Some? {
        var segs := Segments(r.value);
        var i := 0;
        while i < |segs|
          invariant 0 <= i <= |segs|
          invariant forall j :: 0 <= j < i ==> !InSegment(m, j, x, y)
        {
          if InSegment(m, i, x, y) {
            SegmentHitIs(m, |segs|, x, y, i);
            window.telemetryRequests := window.telemetryRequests + [(code, SegmentName(segs[i]))];
            window.selectedDriver := None;
            if window.hasLeaderboard {
              window.leaderboardSelected := None;
            }
            return true;
          }
          i := i + 1;
        }
      }
      return true;
    }
  }

  lemma SegmentHitIs(m: Modal, n: nat, x: real, y: real, i: nat)
    requires i < n && InSegment(m, i, x, y)
    ensures SegmentHit(m, n, x, y) == Some(i)
  {
  }
}
