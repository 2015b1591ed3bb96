/**
 * The timeline: where each milestone sits along the line, in percent of
 * its width, and when each one fades in.
 */
module Timeline {
  import opened Content

  /**
   * The milestone's horizontal position: its share of the years from start
   * to end, in percent. It is linear in the year: the position times the
   * span of years is the years elapsed times 100.
   */
  function Position(year: int, startYear: int, endYear: int): (r: real)
    requires startYear < endYear
    ensures r * (endYear - startYear) as real == (year - startYear) as real * 100.0
  {
    var totalYears := endYear - startYear;
    ((year - startYear) as real / totalYears as real) * 100.0
  }

  /** The first year sits at the left end and the last at the right end. */
  lemma PositionEnds(startYear: int, endYear: int)
    requires startYear < endYear
    ensures Position(startYear, startYear, endYear) == 0.0
    ensures Position(endYear, startYear, endYear) == 100.0
  {
  }

  /** A year in the span sits on the line. */
  lemma PositionInRange(year: int, startYear: int, endYear: int)
    requires startYear < endYear && startYear <= year <= endYear
    ensures 0.0 <= Position(year, startYear, endYear) <= 100.0
  {
  }

  /** Later years sit further right. */
  lemma PositionIncreasing(y1: int, y2: int, startYear: int, endYear: int)
    requires startYear < endYear && y1 < y2
    ensures Position(y1, startYear, endYear) < Position(y2, startYear, endYear)
  {
  }

  /** The positions of a list of milestone years, in order. */
  function Positions(years: seq<int>, startYear: int, endYear: int): (r: seq<real>)
    requires startYear < endYear
    ensures |r| == |years|
    ensures forall i :: 0 <= i < |years| ==> r[i] == Position(years[i], startYear, endYear)
  {
    seq(|years|, i requires 0 <= i < |years| => Position(years[i], startYear, endYear))
  }

  /** The repository's three milestones, from 2010 to 2026, sit at 0, 31.25 and 100 percent. */
  lemma RepositoryPositions()
    ensures Positions(MilestoneYears, TimelineStart, TimelineEnd) == [0.0, 31.25, 100.0]
  {
    var r := Positions(MilestoneYears, TimelineStart, TimelineEnd);
    assert r[1] == 5.0 / 16.0 * 100.0;
  }

  /** The fade-in delay of the milestone at `index`, in seconds: a tenth of a second per place. */
  function EntranceDelay(index: nat): (d: real)
    ensures d >= 0.0
    ensures d * 10.0 == index as real
  {
    index as real * 0.1
  }

  /** Milestones fade in in list order, a tenth of a second apart. */
  lemma EntranceDelaysIncrease(i: nat, j: nat)
    requires i < j
    ensures EntranceDelay(i) < EntranceDelay(j)
    ensures EntranceDelay(j) - EntranceDelay(i) == (j - i) as real * 0.1
  {
  }
}
