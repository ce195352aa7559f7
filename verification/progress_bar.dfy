/** GUI::ProgressBar: a normalised progress value that, when an animation time is set, eases
    from the value shown at the last change to the new value. The system clock is a parameter
    (`now`, milliseconds since some epoch, as the engine's unsigned 64-bit time). */
module ProgressBar {
  import opened UIMath
  import opened Outcomes

  /** 2^64: the clock is an unsigned 64-bit millisecond count. */
  const TimeModulus: nat := 0x1_0000_0000_0000_0000

  /** Milliseconds per second, the factor SetAnimatedTimeInSeconds applies. */
  const MillisecondsPerSecond: real := 1000.0

  datatype Bar = Bar(
    progress: real,
    animationTime: real,          // milliseconds; 0 turns animation off
    previousValue: real,
    previousValueTimeStamp: nat,  // milliseconds, below TimeModulus
    previousValueDiff: real)

  /** Both constructors start with everything zero. */
  function NewProgressBar(): Bar
  {
    Bar(0.0, 0.0, 0.0, 0, 0.0)
  }

  /** A new bar is consistent and not animated. */
  lemma NewProgressBarConsistent()
    ensures Consistent(NewProgressBar()) && NewProgressBar().animationTime == 0.0
  {
  }

  /** A new bar shows 0 at every time. */
  lemma NewProgressBarShowsZero(now: nat)
    requires now < TimeModulus
    ensures GetProgress(NewProgressBar(), now) == 0.0
  {
  }

  /** The constructor from parameters: with an "AnimationTime" entry (in seconds) it sets the
      animation time and then re-sets the current progress, reading the clock at `readAt` and
      time-stamping at `stampAt`. */
  function ProgressBarFromParams(animationSeconds: Option<real>, readAt: nat, stampAt: nat): (r: Bar)
    requires readAt < TimeModulus && stampAt < TimeModulus
    ensures Consistent(r) && r.progress == 0.0 && r.previousValueDiff == 0.0
    ensures animationSeconds.Some? ==> r.animationTime == animationSeconds.value * MillisecondsPerSecond
    ensures animationSeconds.None? ==> r.animationTime == 0.0
  {
    match animationSeconds
    case None => NewProgressBar()
    case Some(seconds) =>
      var timed := SetAnimatedTimeInSeconds(NewProgressBar(), seconds);
      TimedBarStartsStill(timed, readAt, stampAt);
      SetProgress(timed, timed.progress, readAt, stampAt)
  }

  /** What SetProgress keeps true: the animation runs from previousValue up to progress. */
  predicate Consistent(bar: Bar)
  {
    && 0.0 <= bar.progress <= 1.0
    && 0.0 <= bar.previousValue
    && 0.0 <= bar.previousValueDiff
    && bar.previousValue + bar.previousValueDiff == bar.progress
    && bar.previousValueTimeStamp < TimeModulus
  }

  /** Milliseconds since the last SetProgress, computed by unsigned 64-bit subtraction, which
      wraps when the clock has wrapped. */
  function Elapsed(bar: Bar, now: nat): (r: real)
    requires now < TimeModulus && bar.previousValueTimeStamp < TimeModulus
    ensures 0.0 <= r < TimeModulus as real
    ensures bar.previousValueTimeStamp <= now ==> r == (now - bar.previousValueTimeStamp) as real
    ensures now < bar.previousValueTimeStamp ==> r == (TimeModulus + now - bar.previousValueTimeStamp) as real
  {
    ((now - bar.previousValueTimeStamp) % TimeModulus) as real
  }

  /** The value shown at time `now`: the stored progress when animation is off, else the
      previous value advanced by the elapsed fraction of the animation time (capped at 1),
      clamped to [0, 1]. */
  function GetProgress(bar: Bar, now: nat): (r: real)
    requires now < TimeModulus && bar.previousValueTimeStamp < TimeModulus
    requires bar.animationTime == 0.0 ==> 0.0 <= bar.progress <= 1.0
    ensures 0.0 <= r <= 1.0
    ensures bar.animationTime == 0.0 ==> r == bar.progress
  {
    if bar.animationTime != 0.0 then
      var timeRatio := Min(Elapsed(bar, now) / bar.animationTime, 1.0);
      Clamp(bar.previousValue + bar.previousValueDiff * timeRatio, 0.0, 1.0)
    else bar.progress
  }

  /** Stores the clamped progress. Moving forward, the animation starts from the value shown
      now; moving backward, it jumps straight to the new value. The source reads the clock
      twice: once inside GetProgress (`readAt`) and once for the new time stamp (`stampAt`). */
  function SetProgress(bar: Bar, p: real, readAt: nat, stampAt: nat): (r: Bar)
    requires readAt < TimeModulus && stampAt < TimeModulus && Consistent(bar)
    ensures Consistent(r)
    ensures r.progress == Clamp(p, 0.0, 1.0)
    ensures r.animationTime == bar.animationTime && r.previousValueTimeStamp == stampAt
    ensures r.previousValue == Min(GetProgress(bar, readAt), r.progress)
  {
    var shown := GetProgress(bar, readAt);
    var progress := Clamp(p, 0.0, 1.0);
    var previous := if progress < shown then progress else shown;
    Bar(progress, bar.animationTime, previous, stampAt, progress - previous)
  }

  /** Stores the animation time in milliseconds. */
  function SetAnimatedTimeInSeconds(bar: Bar, seconds: real): (r: Bar)
    ensures r.animationTime == seconds * MillisecondsPerSecond
    ensures r.(animationTime := bar.animationTime) == bar
    ensures Consistent(bar) ==> Consistent(r)
  {
    bar.(animationTime := seconds * MillisecondsPerSecond)
  }

  /** With a positive animation time, the shown value climbs from the previous value to the
      stored progress and never leaves that range. */
  lemma AnimationBetweenPreviousAndTarget(bar: Bar, now: nat)
    requires now < TimeModulus && Consistent(bar) && bar.animationTime > 0.0
    ensures bar.previousValue <= GetProgress(bar, now) <= bar.progress
  {
    var elapsed := Elapsed(bar, now);
    DivNonNegative(elapsed, bar.animationTime);
    var ratio := Min(elapsed / bar.animationTime, 1.0);
    var value := bar.previousValue + bar.previousValueDiff * ratio;
    StepBetween(bar.previousValue, bar.previousValueDiff, ratio, value);
    ClampInside(value, bar.previousValue, bar.progress);
  }

  /** Once the animation time has elapsed, the shown value is the stored progress. */
  lemma AnimationSettles(bar: Bar, now: nat)
    requires now < TimeModulus && Consistent(bar) && bar.animationTime > 0.0
    requires Elapsed(bar, now) >= bar.animationTime
    ensures GetProgress(bar, now) == bar.progress
  {
    DivAtLeastOne(Elapsed(bar, now), bar.animationTime);
  }

  /** The stored difference is never negative: after any sequence of SetProgress calls the
      animation only ever runs forward. */
  lemma SetProgressNeverAnimatesBackward(bar: Bar, p: real, readAt: nat, stampAt: nat, later: nat)
    requires readAt < TimeModulus && stampAt < TimeModulus && later < TimeModulus && Consistent(bar)
    ensures var r := SetProgress(bar, p, readAt, stampAt);
      r.previousValueDiff >= 0.0
      && (r.animationTime > 0.0 ==> r.previousValue <= GetProgress(r, later) <= r.progress)
  {
    var r := SetProgress(bar, p, readAt, stampAt);
    if r.animationTime > 0.0 {
      AnimationBetweenPreviousAndTarget(r, later);
    }
  }

  /** Setting a value below the one shown at the clock read shows it from then on. */
  lemma BackwardJumps(bar: Bar, p: real, readAt: nat, stampAt: nat, later: nat)
    requires readAt < TimeModulus && stampAt < TimeModulus && later < TimeModulus && Consistent(bar)
    requires Clamp(p, 0.0, 1.0) < GetProgress(bar, readAt)
    ensures var r := SetProgress(bar, p, readAt, stampAt);
      r.previousValue == r.progress && r.previousValueDiff == 0.0 && GetProgress(r, later) == r.progress
  {
    StillBarShowsProgress(SetProgress(bar, p, readAt, stampAt), later);
  }

  /** A new bar given an animation time still shows 0, so re-setting its progress leaves
      nothing to animate. */
  lemma TimedBarStartsStill(timed: Bar, readAt: nat, stampAt: nat)
    requires readAt < TimeModulus && stampAt < TimeModulus
    requires timed == NewProgressBar().(animationTime := timed.animationTime)
    ensures var r := SetProgress(timed, timed.progress, readAt, stampAt);
      r.progress == 0.0 && r.previousValueDiff == 0.0 && r.animationTime == timed.animationTime
  {
    StillBarShowsProgress(timed, readAt);
  }

  /** A bar with nothing left to animate shows its stored progress at every time. */
  lemma StillBarShowsProgress(bar: Bar, now: nat)
    requires now < TimeModulus && Consistent(bar) && bar.previousValueDiff == 0.0
    ensures GetProgress(bar, now) == bar.progress
  {
    if bar.animationTime != 0.0 {
      var ratio := Min(Elapsed(bar, now) / bar.animationTime, 1.0);
      assert bar.previousValueDiff * ratio == 0.0;
    }
  }

  lemma ProductBounds(diff: real, ratio: real)
    requires 0.0 <= diff && ratio <= 1.0
    ensures diff * ratio <= diff
    ensures 0.0 <= ratio ==> 0.0 <= diff * ratio
  {
  }

  /** A step of `diff * ratio` with the ratio in [0, 1] lands between `start` and `start + diff`. */
  lemma StepBetween(start: real, diff: real, ratio: real, value: real)
    requires 0.0 <= diff && 0.0 <= ratio <= 1.0 && value == start + diff * ratio
    ensures start <= value <= start + diff
  {
    ProductBounds(diff, ratio);
  }

  /** Clamping to [0, 1] a value that already lies inside [lo, hi] within [0, 1] changes nothing. */
  lemma ClampInside(value: real, lo: real, hi: real)
    requires 0.0 <= lo <= value <= hi <= 1.0
    ensures lo <= Clamp(value, 0.0, 1.0) == value <= hi
  {
  }

  lemma DivAtLeastOne(e: real, a: real)
    requires a > 0.0 && e >= a
    ensures e / a >= 1.0
  {
    assert (e / a) * a == e;
  }

  lemma DivNonNegative(e: real, a: real)
    requires a > 0.0 && e >= 0.0
    ensures e / a >= 0.0
  {
    assert (e / a) * a == e;
  }
}
