/**
 * The equalizer's vocabulary (patterns and phases) and its pattern generator:
 * for a pattern, a bar index and the number of bars, the target heights (in
 * percent of the bar's box) that the bar animates through.
 *
 * Heights are exact reals. The wave and chaos patterns call sine and cosine,
 * which are taken as parameters: any pair of functions bounded by [-1, 1].
 */
module EqualizerPatterns {

  datatype Pattern = Wave | Pulse | Zigzag | Crescendo | RandomSync | Chaos

  /** The sequencer's phase. `Playing` is the phase the component calls 'pattern'. */
  datatype AnimationPhase = Playing | Settling | Transitioning

  /** The patterns of one cycle before chaos, in the order they are shown. */
  const NormalPatterns: seq<Pattern> := [Wave, Pulse, Zigzag, Crescendo, RandomSync]

  /** `Math.PI`, written as the decimal the double prints as. */
  const Pi: real := 3.141592653589793

  /** The sine and cosine the patterns use. */
  datatype Trig = Trig(sin: real -> real, cos: real -> real)

  ghost predicate UnitBounded(f: real -> real)
  {
    forall x :: -1.0 <= f(x) <= 1.0
  }

  ghost predicate ValidTrig(trig: Trig)
  {
    UnitBounded(trig.sin) && UnitBounded(trig.cos)
  }

  /** `Math.min` and `Math.max` on two numbers. */
  function Min(a: real, b: real): real { if a < b then a else b }
  function Max(a: real, b: real): real { if a > b then a else b }

  /** `Math.max(10, Math.min(95, h))`: the height limited to [10, 95]. */
  function Clamp(h: real): (r: real)
    ensures 10.0 <= r <= 95.0
    ensures 10.0 <= h <= 95.0 ==> r == h
    ensures h < 10.0 ==> r == 10.0
    ensures h > 95.0 ==> r == 95.0
  {
    Max(10.0, Min(95.0, h))
  }

  /** `index / totalBars`: where the bar sits across the equalizer. */
  function Fraction(index: nat, bars: nat): (r: real)
    requires index < bars
    ensures 0.0 <= r < 1.0
    ensures r * (bars as real) == index as real
  {
    index as real / bars as real
  }

  /**
   * The largest height a pattern can ask for before the bar animator clamps
   * it: only wave, zigzag and chaos stay at or below 95 on their own.
   */
  function Ceiling(pattern: Pattern): real
  {
    match pattern
    case Wave => 90.0
    case Pulse => 105.0
    case Zigzag => 95.0
    case Crescendo => 110.0
    case RandomSync => 135.0
    case Chaos => 95.0
  }

  /**
   * The pattern generator. Chaos gives five heights, each clamped to
   * [10, 95]; every other pattern gives three, never below 10, and all but
   * wave end where they start.
   */
  function TargetHeights(trig: Trig, pattern: Pattern, index: nat, bars: nat): (r: seq<real>)
    requires index < bars
    requires ValidTrig(trig)
    ensures |r| == if pattern == Chaos then 5 else 3
    ensures forall k :: 0 <= k < |r| ==> 10.0 <= r[k] <= Ceiling(pattern)
    ensures pattern != Wave && pattern != Chaos ==> r[0] == r[2]
  {
    match pattern
    case Wave =>
      var phase := Fraction(index, bars) * Pi * 2.0;
      [50.0 + trig.sin(phase) * 40.0,
       50.0 + trig.sin(phase + Pi) * 40.0,
       50.0 + trig.sin(phase + Pi * 2.0) * 40.0]
    case Pulse =>
      var base := 30.0 + Fraction(index, bars) * 40.0;
      [base, base + 35.0, base]
    case Zigzag =>
      var base := 50.0;
      if index % 2 == 0 then [base, base + 45.0, base]
      else [base + 45.0, base, base + 45.0]
    case Crescendo =>
      var base := 20.0 + Fraction(index, bars) * 60.0;
      [base, base + 30.0, base]
    case RandomSync =>
      var base := 40.0 + Fraction(index, bars) * 30.0;
      var variation := (index % 3) as real * 15.0;
      [base - variation, base + 35.0 + variation, base - variation]
    case Chaos =>
      var base := 30.0 + Fraction(index, bars) * 40.0;
      var i := index as real;
      [Clamp(base + trig.sin(i * 2.3) * 50.0),
       Clamp(base + trig.cos(i * 1.7) * 45.0),
       Clamp(base + trig.sin(i * 3.1) * 55.0),
       Clamp(base + trig.cos(i * 2.9) * 40.0),
       Clamp(base + trig.sin(i * 1.3) * 50.0)]
  }

  /** The first bar of a twelve-bar equalizer pulses through 30, 65, 30. */
  lemma PulseFirstBar(trig: Trig)
    requires ValidTrig(trig)
    ensures TargetHeights(trig, Pulse, 0, 12) == [30.0, 65.0, 30.0]
  {
  }

  /** Zigzag: even bars go 50, 95, 50 and odd bars the opposite way. */
  lemma ZigzagAlternates(trig: Trig, index: nat, bars: nat)
    requires index < bars && ValidTrig(trig)
    ensures index % 2 == 0 ==> TargetHeights(trig, Zigzag, index, bars) == [50.0, 95.0, 50.0]
    ensures index % 2 == 1 ==> TargetHeights(trig, Zigzag, index, bars) == [95.0, 50.0, 95.0]
  {
  }

  /** Crescendo: a baseline rising from 20 towards 80 across the bars, with a +30 pulse. */
  lemma CrescendoRises(trig: Trig, index: nat, bars: nat)
    requires index < bars && ValidTrig(trig)
    ensures var b := 20.0 + 60.0 * (index as real) / (bars as real);
            TargetHeights(trig, Crescendo, index, bars) == [b, b + 30.0, b]
    ensures 20.0 <= TargetHeights(trig, Crescendo, index, bars)[0] < 80.0
  {
    var f := Fraction(index, bars);
    assert 60.0 * (index as real) / (bars as real) == f * 60.0;
  }

  /**
   * The generator does not clamp pulse, crescendo or randomSync: the last
   * of twelve bars asks for more than 95 under pulse.
   */
  lemma PulseOvershootsClampRange(trig: Trig)
    requires ValidTrig(trig)
    ensures TargetHeights(trig, Pulse, 11, 12)[1] > 95.0
  {
  }
}
