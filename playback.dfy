/** The replay's playback clock: a fractional frame index advanced by elapsed time, a speed
    factor and a pause flag, and the keyboard commands that seek, change speed or restart. */
module Playback {

  /** The clock state ReplayView keeps. */
  datatype Clock = Clock(frameIndex: real, speed: real, paused: bool)

  /** The keys the replay reacts to; every other key leaves the clock alone. */
  datatype Key = Space | Right | Left | Up | Down | Key1 | Key2 | Key3 | Key4 | Restart | Escape | OtherKey

  /** Frames skipped by one press of RIGHT or LEFT. */
  const SeekFrames: real := 10.0

  /** The slowest speed DOWN can reach. */
  const MinSpeed: real := 0.1

  /** The clock when the view is created. */
  function InitialClock(speed: real): Clock {
    Clock(0.0, speed, false)
  }

  /** Frames that elapse in `delta` seconds at `fps` frames per second and speed factor `speed`. */
  function Advance(delta: real, fps: real, speed: real): real {
    delta * fps * speed
  }

  /** `on_update`: unless paused, advance the index; an index that reaches or passes `n` is
      pulled back to the last frame, `n - 1`. */
  function Step(c: Clock, delta: real, fps: real, n: int): Clock {
    if c.paused then c
    else
      var fi := c.frameIndex + Advance(delta, fps, c.speed);
      c.(frameIndex := if fi >= n as real then (n - 1) as real else fi)
  }

  /** `on_key_press`: SPACE toggles the pause, RIGHT and LEFT seek ten frames within
      [0, n - 1], UP doubles the speed, DOWN halves it but not below 0.1, keys 1 to 4 choose a
      fixed speed, R restarts at normal speed; ESC only switches views. */
  function KeyPress(c: Clock, key: Key, n: int): Clock {
    match key
    case Space => c.(paused := !c.paused)
    case Right => c.(frameIndex := MinReal(c.frameIndex + SeekFrames, (n - 1) as real))
    case Left => c.(frameIndex := MaxReal(c.frameIndex - SeekFrames, 0.0))
    case Up => c.(speed := c.speed * 2.0)
    case Down => c.(speed := MaxReal(MinSpeed, c.speed / 2.0))
    case Key1 => c.(speed := 0.5)
    case Key2 => c.(speed := 1.0)
    case Key3 => c.(speed := 2.0)
    case Key4 => c.(speed := 4.0)
    case Restart => c.(frameIndex := 0.0, speed := 1.0)
    case Escape => c
    case OtherKey => c
  }

  function MinReal(a: real, b: real): real { if a <= b then a else b }
  function MaxReal(a: real, b: real): real { if a >= b then a else b }

  /** Python's `int()` on a float: truncation toward zero. */
  function Trunc(r: real): int {
    if r >= 0.0 then r.Floor else -((-r).Floor)
  }

  /** The index of the frame that is drawn: `min(int(frame_index), n - 1)`. */
  function DrawnFrame(frameIndex: real, n: int): int {
    var k := Trunc(frameIndex);
    if k <= n - 1 then k else n - 1
  }

  /** The state every view keeps between calls: the index inside [0, n) and a positive speed. */
  ghost predicate ValidClock(c: Clock, n: int) {
    0.0 <= c.frameIndex < n as real && 0.0 < c.speed
  }

  /** While paused, an update changes nothing. */
  lemma StepWhilePaused(c: Clock, delta: real, fps: real, n: int)
    requires c.paused
    ensures Step(c, delta, fps, n) == c
  {
  }

  /** An unpaused update leaves the index below `n`: it is the advanced index when that is below
      `n`, and exactly `n - 1` otherwise; so an index in [n - 1, n) is not pulled back. Speed and
      pause are untouched. */
  lemma StepClamps(c: Clock, delta: real, fps: real, n: int)
    requires !c.paused
    ensures var c' := Step(c, delta, fps, n);
      && c'.speed == c.speed && c'.paused == c.paused
      && c'.frameIndex < n as real
      && (c.frameIndex + Advance(delta, fps, c.speed) < n as real <==>
          c'.frameIndex == c.frameIndex + Advance(delta, fps, c.speed))
      && (n as real <= c.frameIndex + Advance(delta, fps, c.speed) ==> c'.frameIndex == (n - 1) as real)
  {
  }

  lemma AdvanceNonNegative(delta: real, fps: real, speed: real)
    requires 0.0 <= delta && 0.0 < fps && 0.0 < speed
    ensures 0.0 <= Advance(delta, fps, speed)
  {
    assert 0.0 <= delta * fps;
  }

  /** Updates with non-negative elapsed time keep the clock valid. */
  lemma StepKeepsValid(c: Clock, delta: real, fps: real, n: int)
    requires ValidClock(c, n) && 0.0 <= delta && 0.0 < fps
    ensures ValidClock(Step(c, delta, fps, n), n)
  {
    AdvanceNonNegative(delta, fps, c.speed);
  }

  /** Every key keeps the clock valid. */
  lemma KeyPressKeepsValid(c: Clock, key: Key, n: int)
    requires ValidClock(c, n)
    ensures ValidClock(KeyPress(c, key, n), n)
  {
  }

  /** In a valid clock the drawn frame is an index of the frame list. */
  lemma DrawnFrameInRange(c: Clock, n: int)
    requires ValidClock(c, n)
    ensures 0 <= DrawnFrame(c.frameIndex, n) < n
  {
  }

  /** Forward playback never shows an earlier frame: the pull-back to `n - 1` only happens when
      the last frame is already the one drawn. */
  lemma StepNeverShowsEarlierFrame(c: Clock, delta: real, fps: real, n: int)
    requires ValidClock(c, n) && 0.0 <= delta && 0.0 < fps
    ensures DrawnFrame(c.frameIndex, n) <= DrawnFrame(Step(c, delta, fps, n).frameIndex, n)
  {
    AdvanceNonNegative(delta, fps, c.speed);
    var fi := Step(c, delta, fps, n).frameIndex;
    if fi < c.frameIndex {
      assert fi == (n - 1) as real;
      assert DrawnFrame(fi, n) == n - 1;
    } else {
      FloorMonotone(c.frameIndex, fi);
    }
  }

  lemma FloorMonotone(a: real, b: real)
    requires 0.0 <= a <= b
    ensures a.Floor <= b.Floor
  {
  }

  /** RIGHT lands at most on the last frame, LEFT at least on the first. */
  lemma SeekBounds(c: Clock, n: int)
    ensures KeyPress(c, Right, n).frameIndex <= (n - 1) as real
    ensures KeyPress(c, Right, n).frameIndex <= c.frameIndex + SeekFrames
    ensures 0.0 <= KeyPress(c, Left, n).frameIndex
    ensures c.frameIndex - SeekFrames <= KeyPress(c, Left, n).frameIndex
  {
  }

  /** LEFT undoes RIGHT when the forward seek was not cut short by the end of the replay. */
  lemma SeekRoundTrip(c: Clock, n: int)
    requires 0.0 <= c.frameIndex && c.frameIndex + SeekFrames <= (n - 1) as real
    ensures KeyPress(KeyPress(c, Right, n), Left, n) == c
  {
  }

  /** DOWN never goes below 0.1, and undoes UP for every speed of at least 0.1. */
  lemma SpeedKeys(c: Clock, n: int)
    ensures MinSpeed <= KeyPress(c, Down, n).speed
    ensures MinSpeed <= c.speed ==> KeyPress(KeyPress(c, Up, n), Down, n) == c
  {
  }

  /** SPACE changes only the pause flag, and twice it changes nothing. */
  lemma SpaceToggles(c: Clock, n: int)
    ensures KeyPress(c, Space, n).paused == !c.paused
    ensures KeyPress(c, Space, n).frameIndex == c.frameIndex && KeyPress(c, Space, n).speed == c.speed
    ensures KeyPress(KeyPress(c, Space, n), Space, n) == c
  {
  }

  /** R rewinds to the first frame at normal speed and keeps the pause flag; it is the initial
      clock of a view created at speed 1 exactly when the replay is not paused. */
  lemma RestartResets(c: Clock, n: int)
    ensures KeyPress(c, Restart, n) == Clock(0.0, 1.0, c.paused)
    ensures KeyPress(c, Restart, n) == InitialClock(1.0) <==> !c.paused
  {
  }

  /** The speed keys 1 to 4 select 0.5, 1, 2 and 4 and touch nothing else. */
  lemma PresetSpeeds(c: Clock, n: int)
    ensures KeyPress(c, Key1, n) == c.(speed := 0.5) && KeyPress(c, Key2, n) == c.(speed := 1.0)
    ensures KeyPress(c, Key3, n) == c.(speed := 2.0) && KeyPress(c, Key4, n) == c.(speed := 4.0)
  {
  }
}
