/**
 * The bar animator: for one bar, the animation descriptor the equalizer hands
 * to its renderer, chosen first by the reduced-motion preference, then by the
 * sequencer's phase, then by the current pattern.
 */
module BarAnimation {
  import opened Wrappers
  import opened EqualizerPatterns

  /** A cubic-bezier easing curve, by its two control points. */
  datatype Ease = Ease(x1: real, y1: real, x2: real, y2: real)

  const SettleEase: Ease := Ease(0.4, 0.0, 0.6, 1.0)
  const SmoothEase: Ease := Ease(0.25, 0.1, 0.25, 1.0)
  const SharpEase: Ease := Ease(0.1, 0.1, 0.9, 0.9)

  /** One height, or a sequence of keyframe heights, in percent. */
  datatype Height = Fixed(percent: real) | Keyframes(percents: seq<real>)

  /**
   * The transition options: duration and delay in seconds (a missing delay
   * is an option the descriptor does not set), whether the keyframes repeat
   * forever, and the easing curve if one is set.
   */
  datatype Transition = Transition(duration: real, delay: Option<real>, repeatForever: bool, ease: Option<Ease>)

  datatype Animation = Animation(height: Height, transition: Transition)

  /** Every height clamped to [10, 95]. */
  function ClampAll(hs: seq<real>): (r: seq<real>)
    ensures |r| == |hs|
    ensures forall k :: 0 <= k < |r| ==> r[k] == Clamp(hs[k]) && 10.0 <= r[k] <= 95.0
  {
    seq(|hs|, k requires 0 <= k < |hs| => Clamp(hs[k]))
  }

  /**
   * The timing of a bar in the playing phase, as a table keyed by pattern.
   * Every pattern repeats forever; chaos is the fast one, with the sharp
   * curve; randomSync takes 3.2 to 4.0 seconds depending on the bar.
   */
  function PatternTiming(pattern: Pattern, index: nat, bars: nat): (t: Transition)
    requires index < bars
    ensures t.repeatForever
    ensures 0.15 <= t.duration <= 4.0
    ensures pattern == RandomSync ==> 3.2 <= t.duration <= 4.0
    ensures t.delay.Some? ==> 0.0 <= t.delay.value <= 0.45
    ensures t.delay.Some? <==> pattern in {Chaos, Crescendo, RandomSync}
    ensures t.ease == Some(if pattern == Chaos then SharpEase else SmoothEase)
  {
    match pattern
    case Wave => Transition(4.0, None, true, Some(SmoothEase))
    case Pulse => Transition(2.5, None, true, Some(SmoothEase))
    case Zigzag => Transition(3.0, None, true, Some(SmoothEase))
    case Crescendo => Transition(3.8, Some(Fraction(index, bars) * 0.25), true, Some(SmoothEase))
    case RandomSync =>
      Transition(3.2 + (index % 3) as real * 0.4, Some((index % 4) as real * 0.15), true, Some(SmoothEase))
    case Chaos => Transition(0.15, Some((index % 3) as real * 0.02), true, Some(SharpEase))
  }

  /**
   * The descriptor for bar `index` of `bars`. Reduced motion wins over every
   * phase and gives a static height in [30, 70) with a near-zero duration.
   * Settling sends every bar to 50 within 2 seconds, staggered by
   * 0.08·index/bars seconds, less than 0.08. Transitioning starts from 50 and then plays the clamped
   * targets, one keyframe more than the targets; playing plays the clamped
   * targets with the pattern's timing. Outside reduced motion and settling,
   * every keyframe lies in [10, 95].
   */
  function BarAnimationFor(trig: Trig, reducedMotion: bool, phase: AnimationPhase,
                           pattern: Pattern, index: nat, bars: nat): (a: Animation)
    requires index < bars && ValidTrig(trig)
    ensures reducedMotion ==>
              a.height.Fixed? && 30.0 <= a.height.percent < 70.0 &&
              a.height.percent * (bars as real) == 30.0 * (bars as real) + 40.0 * (index as real) &&
              a.transition == Transition(0.01, None, false, None)
    ensures !reducedMotion && phase == Settling ==>
              a.height == Fixed(50.0) && a.transition.duration == 2.0 &&
              a.transition.delay.Some? && 0.0 <= a.transition.delay.value < 0.08 &&
              a.transition.delay.value * (bars as real) == 0.08 * (index as real) &&
              !a.transition.repeatForever && a.transition.ease == Some(SettleEase)
    ensures !reducedMotion && phase != Settling ==>
              a.height.Keyframes? && a.transition.repeatForever &&
              forall k :: 0 <= k < |a.height.percents| ==> 10.0 <= a.height.percents[k] <= 95.0
    ensures !reducedMotion && phase == Transitioning ==>
              a.height.percents == [50.0] + ClampAll(TargetHeights(trig, pattern, index, bars)) &&
              |a.height.percents| == |TargetHeights(trig, pattern, index, bars)| + 1 &&
              a.transition == Transition(3.5, None, true, Some(SmoothEase))
    ensures !reducedMotion && phase == Playing ==>
              a.height.percents == ClampAll(TargetHeights(trig, pattern, index, bars)) &&
              a.transition == PatternTiming(pattern, index, bars)
  {
    if reducedMotion then
      Animation(Fixed(30.0 + Fraction(index, bars) * 40.0), Transition(0.01, None, false, None))
    else if phase == Settling then
      var neutral := 50.0;
      Animation(Fixed(neutral), Transition(2.0, Some(Fraction(index, bars) * 0.08), false, Some(SettleEase)))
    else if phase == Transitioning then
      var targets := TargetHeights(trig, pattern, index, bars);
      Animation(Keyframes([50.0] + ClampAll(targets)), Transition(3.5, None, true, Some(SmoothEase)))
    else
      var heights := ClampAll(TargetHeights(trig, pattern, index, bars));
      var base := Transition(3.5, None, true, Some(SmoothEase));
      // the per-pattern overrides of the base configuration
      var config :=
        if pattern == Chaos then
          base.(duration := 0.15, delay := Some((index % 3) as real * 0.02), ease := Some(SharpEase))
        else if pattern == Crescendo then
          base.(delay := Some(Fraction(index, bars) * 0.25), duration := 3.8)
        else if pattern == RandomSync then
          base.(delay := Some((index % 4) as real * 0.15), duration := 3.2 + (index % 3) as real * 0.4)
        else if pattern == Wave then base.(duration := 4.0)
        else if pattern == Pulse then base.(duration := 2.5)
        else if pattern == Zigzag then base.(duration := 3.0)
        else base;
      Animation(Keyframes(heights), config)
  }

  /** Four bars into twelve, reduced motion shows a static 40 percent. */
  lemma ReducedMotionFourthBar(trig: Trig, phase: AnimationPhase, pattern: Pattern)
    requires ValidTrig(trig)
    ensures BarAnimationFor(trig, true, phase, pattern, 3, 12) ==
            Animation(Fixed(40.0), Transition(0.01, None, false, None))
  {
  }

  /** The playing-phase durations per pattern. */
  lemma PlayingDurations(trig: Trig, pattern: Pattern, index: nat, bars: nat)
    requires index < bars && ValidTrig(trig)
    ensures var d := BarAnimationFor(trig, false, Playing, pattern, index, bars).transition.duration;
            match pattern
            case Wave => d == 4.0
            case Pulse => d == 2.5
            case Zigzag => d == 3.0
            case Crescendo => d == 3.8
            case RandomSync => d == 3.2 + (index % 3) as real * 0.4
            case Chaos => d == 0.15
  {
  }
}
