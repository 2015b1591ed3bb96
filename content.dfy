/**
 * The static presentation content that the behaviour depends on: the slide
 * identifiers in document order and the timeline's year range and milestones.
 */
module Content {

  /** The `id` of every slide, in the order the slides are rendered. */
  const SlideIds: seq<string> :=
    ["opening", "artist-identity", "2010-album", "sound-style",
     "2015-album", "quiet-years", "2026-somebody", "closing"]

  const TimelineStart: int := 2010
  const TimelineEnd: int := 2026

  /** The milestone years, in the order they are listed. */
  const MilestoneYears: seq<int> := [2010, 2015, 2026]
}
