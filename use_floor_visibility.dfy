/** The floor-visibility hook: every `updateFrequency` frames it rates how far
    the camera looks down, smooths the rating by linear interpolation and
    raises the floor flag while the smoothed rating exceeds the threshold.

    The camera direction of each frame is an input, and `Math.pow(x, 1.5)` is
    the parameter `pow`, assumed only to satisfy `PowFacts`. */
module UseFloorVisibility {
  import opened Surfaces

  /** The hook's options once defaults are filled in. */
  datatype Options = Options(threshold: real, updateFrequency: int, smoothing: real)

  const DefaultThreshold: real := 0.25
  const DefaultUpdateFrequency: int := 3
  const DefaultSmoothing: real := 0.1

  /** Destructuring with defaults: an option left out takes its default. */
  function ResolveOptions(threshold: Option<real>, updateFrequency: Option<int>, smoothing: Option<real>): (o: Options)
    ensures o.threshold == (if threshold.Some? then threshold.value else 0.25)
    ensures o.updateFrequency == (if updateFrequency.Some? then updateFrequency.value else 3)
    ensures o.smoothing == (if smoothing.Some? then smoothing.value else 0.1)
  {
    Options(
      if threshold.Some? then threshold.value else DefaultThreshold,
      if updateFrequency.Some? then updateFrequency.value else DefaultUpdateFrequency,
      if smoothing.Some? then smoothing.value else DefaultSmoothing)
  }

  const DefaultOptions: Options := Options(DefaultThreshold, DefaultUpdateFrequency, DefaultSmoothing)

  /** The hook's state hooks and refs. */
  datatype FloorState = FloorState(
    frameCount: int,
    smoothed: real,
    isFloorVisible: bool,
    visibilityAmount: real)

  const InitialFloorState: FloorState := FloorState(0, 0.0, false, 0.0)

  /** Whether the frame with this count refreshes. A zero frequency never
      does: the remainder by zero is NaN, which is never equal to 0. For a
      non-zero frequency the remainder is 0 exactly when the count is a
      multiple, whatever the signs. */
  predicate Refreshes(count: int, frequency: int)
  {
    frequency != 0 && count % frequency == 0
  }

  /** The raw rating: how far the camera looks down, through `pow`. */
  function RawVisibility(dir: Vec3, pow: real -> real): real
  {
    pow(Max(0.0, -dir.y))
  }

  lemma RawVisibilityInUnit(dir: Vec3, pow: real -> real)
    requires PowFacts(pow) && IsDirection(dir)
    ensures 0.0 <= RawVisibility(dir, pow) <= 1.0
  {
    assert 0.0 <= Max(0.0, -dir.y) <= 1.0;
  }

  /** The downward amount the hook also returns, unsmoothed and unclamped. */
  function RawLookingDown(dir: Vec3): (d: real)
    ensures d > 0.0 <==> dir.y < 0.0
  {
    -dir.y
  }

  /** One frame. On a refresh the smoothed rating moves the `smoothing`
      fraction of the way towards the raw rating and both the amount and the
      flag follow it; otherwise only the counter advances. */
  function AfterFrame(st: FloorState, opts: Options, dir: Vec3, pow: real -> real): (r: FloorState)
    ensures r.frameCount == st.frameCount + 1
    ensures !Refreshes(r.frameCount, opts.updateFrequency) ==> r == st.(frameCount := st.frameCount + 1)
    ensures Refreshes(r.frameCount, opts.updateFrequency) ==>
      && r.smoothed == Lerp(st.smoothed, RawVisibility(dir, pow), opts.smoothing)
      && r.visibilityAmount == r.smoothed
      && (r.isFloorVisible <==> r.smoothed > opts.threshold)
    ensures Refreshes(r.frameCount, opts.updateFrequency) && 0.0 <= opts.smoothing <= 1.0 ==>
      Min(st.smoothed, RawVisibility(dir, pow)) <= r.smoothed <= Max(st.smoothed, RawVisibility(dir, pow))
  {
    var count := st.frameCount + 1;
    if !Refreshes(count, opts.updateFrequency) then st.(frameCount := count)
    else
      var smoothed := Lerp(st.smoothed, RawVisibility(dir, pow), opts.smoothing);
      FloorState(count, smoothed, smoothed > opts.threshold, smoothed)
  }

  /** One frame per direction. */
  function RunFrames(st: FloorState, opts: Options, dirs: seq<Vec3>, pow: real -> real): FloorState
    decreases |dirs|
  {
    if dirs == [] then st else RunFrames(AfterFrame(st, opts, dirs[0], pow), opts, dirs[1..], pow)
  }

  predicate InUnit(st: FloorState)
  {
    0.0 <= st.smoothed <= 1.0 && 0.0 <= st.visibilityAmount <= 1.0
  }

  /** With a smoothing factor in [0, 1], the smoothed rating and the reported
      amount stay in [0, 1] however the camera moves. */
  lemma {:induction false} SmoothedStaysInUnit(st: FloorState, opts: Options, dirs: seq<Vec3>, pow: real -> real)
    requires PowFacts(pow) && 0.0 <= opts.smoothing <= 1.0
    requires forall i :: 0 <= i < |dirs| ==> IsDirection(dirs[i])
    requires InUnit(st)
    ensures InUnit(RunFrames(st, opts, dirs, pow))
    decreases |dirs|
  {
    if dirs != [] {
      RawVisibilityInUnit(dirs[0], pow);
      SmoothedStaysInUnit(AfterFrame(st, opts, dirs[0], pow), opts, dirs[1..], pow);
    }
  }

  /** A zero update frequency freezes everything but the counter. */
  lemma {:induction false} ZeroFrequencyFreezes(st: FloorState, opts: Options, dirs: seq<Vec3>, pow: real -> real)
    requires opts.updateFrequency == 0
    ensures RunFrames(st, opts, dirs, pow) == st.(frameCount := st.frameCount + |dirs|)
    decreases |dirs|
  {
    if dirs != [] {
      ZeroFrequencyFreezes(AfterFrame(st, opts, dirs[0], pow), opts, dirs[1..], pow);
    }
  }

  /** The smoothed rating after `n` refreshes with the same raw rating. */
  function SmoothRepeatedly(s: real, raw: real, t: real, n: nat): real
    decreases n
  {
    if n == 0 then s else SmoothRepeatedly(Lerp(s, raw, t), raw, t, n - 1)
  }

  /** Under a steady view every refresh multiplies the gap to the raw rating
      by `1 - smoothing`. */
  lemma GapShrinksGeometrically(s: real, raw: real, t: real, n: nat)
    ensures SmoothRepeatedly(s, raw, t, n + 1) - raw == (1.0 - t) * (SmoothRepeatedly(s, raw, t, n) - raw)
  {
    SmoothLastStep(s, raw, t, n);
    LerpGap(SmoothRepeatedly(s, raw, t, n), raw, t);
  }

  /** The last of `n + 1` refreshes smooths the result of the first `n`. */
  lemma {:induction false} SmoothLastStep(s: real, raw: real, t: real, n: nat)
    ensures SmoothRepeatedly(s, raw, t, n + 1) == Lerp(SmoothRepeatedly(s, raw, t, n), raw, t)
    decreases n
  {
    if n > 0 {
      SmoothLastStep(Lerp(s, raw, t), raw, t, n - 1);
    }
  }

  /** One refresh shrinks the gap to the raw rating by `1 - smoothing`. */
  lemma LerpGap(s: real, raw: real, t: real)
    ensures Lerp(s, raw, t) - raw == (1.0 - t) * (s - raw)
  {
  }

  /** A refreshing frame of the hook shrinks the gap between the smoothed
      rating and the current raw rating by `1 - smoothing`. */
  lemma RefreshShrinksGap(st: FloorState, opts: Options, dir: Vec3, pow: real -> real)
    requires Refreshes(st.frameCount + 1, opts.updateFrequency)
    ensures AfterFrame(st, opts, dir, pow).smoothed - RawVisibility(dir, pow)
            == (1.0 - opts.smoothing) * (st.smoothed - RawVisibility(dir, pow))
  {
    LerpGap(st.smoothed, RawVisibility(dir, pow), opts.smoothing);
  }

  /** `x` to the power `n`. */
  function Power(x: real, n: nat): real
    decreases n
  {
    if n == 0 then 1.0 else x * Power(x, n - 1)
  }

  /** After `n` refreshes with the same raw rating the gap is
      `(1 - smoothing)^n` times the first one. */
  lemma {:induction false} GapAfterRefreshes(s: real, raw: real, t: real, n: nat)
    ensures SmoothRepeatedly(s, raw, t, n) - raw == Power(1.0 - t, n) * (s - raw)
    decreases n
  {
    if n > 0 {
      var s1 := Lerp(s, raw, t);
      GapAfterRefreshes(s1, raw, t, n - 1);
      LerpGap(s, raw, t);
      Regroup(Power(1.0 - t, n - 1), 1.0 - t, s - raw);
    }
  }

  lemma Regroup(p: real, q: real, g: real)
    ensures p * (q * g) == (q * p) * g
  {
  }

  /** `n` frames with the camera held in direction `dir`. */
  function Steady(dir: Vec3, n: nat): (r: seq<Vec3>)
    ensures |r| == n && forall i :: 0 <= i < n ==> r[i] == dir
  {
    seq(n, i => dir)
  }

  /** How many of the `n` frames after counter value `count` refresh. */
  function RefreshCount(count: int, frequency: int, n: nat): (k: nat)
    ensures k <= n
    ensures frequency == 1 ==> k == n
    ensures frequency == 0 ==> k == 0
    decreases n
  {
    if n == 0 then 0
    else (if Refreshes(count + 1, frequency) then 1 else 0) + RefreshCount(count + 1, frequency, n - 1)
  }

  /** With the camera held still for `n` frames, the hook's smoothed rating
      is the raw rating smoothed once per refreshing frame. */
  lemma {:induction false} SteadyViewSmoothsRepeatedly(st: FloorState, opts: Options, dir: Vec3, pow: real -> real, n: nat)
    ensures RunFrames(st, opts, Steady(dir, n), pow).smoothed
            == SmoothRepeatedly(st.smoothed, RawVisibility(dir, pow), opts.smoothing,
                                RefreshCount(st.frameCount, opts.updateFrequency, n))
    decreases n
  {
    if n > 0 {
      var raw, t := RawVisibility(dir, pow), opts.smoothing;
      var dirs := Steady(dir, n);
      assert dirs[1..] == Steady(dir, n - 1);
      var st1 := AfterFrame(st, opts, dir, pow);
      assert RunFrames(st, opts, dirs, pow) == RunFrames(st1, opts, Steady(dir, n - 1), pow);
      SteadyViewSmoothsRepeatedly(st1, opts, dir, pow, n - 1);
      var k1 := RefreshCount(st1.frameCount, opts.updateFrequency, n - 1);
      if Refreshes(st.frameCount + 1, opts.updateFrequency) {
        assert RefreshCount(st.frameCount, opts.updateFrequency, n) == k1 + 1;
        assert st1.smoothed == Lerp(st.smoothed, raw, t);
        assert SmoothRepeatedly(st.smoothed, raw, t, k1 + 1) == SmoothRepeatedly(st1.smoothed, raw, t, k1);
      } else {
        assert RefreshCount(st.frameCount, opts.updateFrequency, n) == k1;
        assert st1.smoothed == st.smoothed;
      }
    }
  }

  /** With the default options, a camera that looks straight down from the
      start raises the floor flag on the third refresh (frame 9), not
      before: the smoothed rating goes 0.1, 0.19, 0.271. */
  lemma StraightDownShowsFloorOnThirdRefresh(pow: real -> real)
    requires PowFacts(pow)
    ensures !RunFrames(InitialFloorState, DefaultOptions, Down(8), pow).isFloorVisible
    ensures RunFrames(InitialFloorState, DefaultOptions, Down(9), pow).isFloorVisible
  {
    var init := InitialFloorState;
    var s3 := FloorState(3, 0.1, false, 0.1);
    var s6 := FloorState(6, 0.19, false, 0.19);
    ThreeFramesDown(init, pow, 0.1);
    ThreeFramesDown(s3, pow, 0.19);
    ThreeFramesDown(s6, pow, 0.271);
    DownSplit(3, 3);
    RunFramesSplit(init, Down(3), Down(3), pow);
    assert RunFrames(init, DefaultOptions, Down(6), pow) == s6;
    DownSplit(6, 3);
    RunFramesSplit(init, Down(6), Down(3), pow);
    DownSplit(6, 2);
    RunFramesSplit(init, Down(6), Down(2), pow);
  }

  lemma DownSplit(m: nat, n: nat)
    ensures Down(m) + Down(n) == Down(m + n)
  {
    assert forall i :: 0 <= i < m + n ==> (Down(m) + Down(n))[i] == Down(m + n)[i];
  }

  /** `n` frames looking straight down. */
  function Down(n: nat): (r: seq<Vec3>)
    ensures |r| == n && forall i :: 0 <= i < n ==> r[i] == Vec3(0.0, -1.0, 0.0)
  {
    seq(n, i => Vec3(0.0, -1.0, 0.0))
  }

  /** Three default-option frames looking straight down from a count of 0, 3
      or 6: two frames only count, the third refreshes towards 1. */
  lemma ThreeFramesDown(st: FloorState, pow: real -> real, smoothed: real)
    requires PowFacts(pow)
    requires st.frameCount == 0 || st.frameCount == 3 || st.frameCount == 6
    requires smoothed == 0.9 * st.smoothed + 0.1
    ensures RunFrames(st, DefaultOptions, Down(2), pow) == st.(frameCount := st.frameCount + 2)
    ensures RunFrames(st, DefaultOptions, Down(3), pow) ==
      FloorState(st.frameCount + 3, smoothed, smoothed > 0.25, smoothed)
  {
    var down := Vec3(0.0, -1.0, 0.0);
    var c := st.frameCount;
    assert !Refreshes(c + 1, 3) && !Refreshes(c + 2, 3) && Refreshes(c + 3, 3);
    var st2 := st.(frameCount := c + 2);
    assert AfterFrame(st, DefaultOptions, down, pow) == st.(frameCount := c + 1);
    assert AfterFrame(st.(frameCount := c + 1), DefaultOptions, down, pow) == st2;
    RefreshLookingDown(st2, pow, smoothed);
    assert Down(3)[0] == down && Down(3)[1..] == Down(2);
    assert Down(2)[0] == down && Down(2)[1..] == Down(1);
    assert Down(1)[0] == down && Down(1)[1..] == [];
  }

  /** The refreshing frame of `ThreeFramesDown`. */
  lemma RefreshLookingDown(st: FloorState, pow: real -> real, smoothed: real)
    requires PowFacts(pow)
    requires Refreshes(st.frameCount + 1, 3)
    requires smoothed == 0.9 * st.smoothed + 0.1
    ensures AfterFrame(st, DefaultOptions, Vec3(0.0, -1.0, 0.0), pow) ==
      FloorState(st.frameCount + 1, smoothed, smoothed > 0.25, smoothed)
  {
    assert RawVisibility(Vec3(0.0, -1.0, 0.0), pow) == 1.0;
  }

  lemma {:induction false} RunFramesSplit(st: FloorState, a: seq<Vec3>, b: seq<Vec3>, pow: real -> real)
    ensures RunFrames(st, DefaultOptions, a + b, pow) == RunFrames(RunFrames(st, DefaultOptions, a, pow), DefaultOptions, b, pow)
    decreases |a|
  {
    if a == [] {
      assert a + b == b;
    } else {
      assert (a + b)[0] == a[0];
      assert (a + b)[1..] == a[1..] + b;
      RunFramesSplit(AfterFrame(st, DefaultOptions, a[0], pow), a[1..], b, pow);
    }
  }

  /** The hook instance: its options, state hooks and refs. */
  class FloorVisibilityHook {
    const options: Options
    var frameCount: int
    var smoothedVisibility: real
    var isFloorVisible: bool
    var visibilityAmount: real

    function Model(): FloorState
      reads this
    {
      FloorState(frameCount, smoothedVisibility, isFloorVisible, visibilityAmount)
    }

    constructor (options: Options)
      ensures this.options == options && Model() == InitialFloorState
    {
      this.options := options;
      frameCount := 0;
      smoothedVisibility := 0.0;
      isFloorVisible := false;
      visibilityAmount := 0.0;
    }

    method OnFrame(dir: Vec3, pow: real -> real)
      modifies this
      ensures Model() == AfterFrame(old(Model()), options, dir, pow)
    {
      frameCount := frameCount + 1;
      if !(options.updateFrequency != 0 && frameCount % options.updateFrequency == 0) {
        return;
      }
      var lookingDown := Max(0.0, -dir.y);
      var rawVisibility := pow(lookingDown);
      smoothedVisibility := Lerp(smoothedVisibility, rawVisibility, options.smoothing);
      visibilityAmount := smoothedVisibility;
      var newFloorVisible := smoothedVisibility > options.threshold;
      if newFloorVisible != isFloorVisible {
        isFloorVisible := newFloorVisible;
      }
    }
  }
}
