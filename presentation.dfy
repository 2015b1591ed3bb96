/**
 * The presentation page: which slide is active as the page scrolls, and how
 * a request to go to a slide scrolls there.
 *
 * The DOM is taken as parameters: the measured sections (`offsetTop`,
 * `offsetHeight`) in document order, the window's `scrollY` and
 * `innerHeight`, and the set of element ids present in the document.
 */
module Presentation {
  import opened Wrappers
  import opened Content

  /** The slide the page starts on. */
  const InitialActiveSlide: nat := 0

  /** A section's box: its `offsetTop` and `offsetHeight`, in pixels. */
  datatype Section = Section(top: real, height: real)

  /** The probe point: half a window below the top of the viewport. */
  function ProbePoint(scrollY: real, innerHeight: real): (p: real)
    ensures 2.0 * (p - scrollY) == innerHeight
  {
    scrollY + innerHeight / 2.0
  }

  /**
   * A section holds the probe point from its top edge up to, not including,
   * its bottom edge; a section of no height holds no point.
   */
  function Holds(s: Section, pos: real): (b: bool)
    ensures b ==> s.top <= pos && 0.0 < s.height
  {
    s.top <= pos < s.top + s.height
  }

  /**
   * The active slide once every section has been checked against `pos`,
   * starting from `active`: the last section in document order that holds
   * the point, or `active` if none does.
   */
  function Selected(sections: seq<Section>, pos: real, active: nat): (r: nat)
    ensures (exists i :: 0 <= i < |sections| && Holds(sections[i], pos)) ==>
              r < |sections| && Holds(sections[r], pos) &&
              forall j :: r < j < |sections| ==> !Holds(sections[j], pos)
    ensures (forall i :: 0 <= i < |sections| ==> !Holds(sections[i], pos)) ==> r == active
    decreases |sections|
  {
    if sections == [] then active
    else
      var n := |sections| - 1;
      if Holds(sections[n], pos) then n
      else
        var r := Selected(sections[..n], pos, active);
        assert forall i :: 0 <= i < n ==> sections[..n][i] == sections[i];
        r
  }

  /**
   * `handleScroll`: with no container the active slide stays; otherwise
   * every section is checked in document order and each one holding the
   * probe point overwrites the active slide.
   */
  method HandleScroll(container: Option<seq<Section>>, scrollY: real, innerHeight: real, activeSlide: nat)
    returns (active: nat)
    ensures container.None? ==> active == activeSlide
    ensures container.Some? ==> active == Selected(container.value, ProbePoint(scrollY, innerHeight), activeSlide)
  {
    active := activeSlide;
    if container.None? {
      return;
    }
    var sections := container.value;
    var scrollPosition := scrollY + innerHeight / 2.0;
    for index := 0 to |sections|
      invariant active == Selected(sections[..index], scrollPosition, activeSlide)
    {
      var top := sections[index].top;
      var bottom := top + sections[index].height;
      if scrollPosition >= top && scrollPosition < bottom {
        active := index;
      }
      assert sections[..index + 1][..index] == sections[..index];
    }
    assert sections[..|sections|] == sections;
  }

  /** An active slide that indexes a section still does after a scroll. */
  lemma SelectedInRange(sections: seq<Section>, pos: real, active: nat)
    requires active < |sections|
    ensures Selected(sections, pos, active) < |sections|
  {
  }

  /** A section that holds the probe point with none after it holding it is the one selected. */
  lemma SelectedIsLastHolder(sections: seq<Section>, pos: real, active: nat, i: nat)
    requires i < |sections| && Holds(sections[i], pos)
    requires forall j :: i < j < |sections| ==> !Holds(sections[j], pos)
    ensures Selected(sections, pos, active) == i
  {
  }

  /**
   * Of two sections stacked one right below the other, a point is held by
   * at most one, and every point of the two is held by one: the boundary
   * belongs to the lower section.
   */
  lemma StackedSectionsSplit(a: Section, b: Section, pos: real)
    requires b.top == a.top + a.height
    ensures !(Holds(a, pos) && Holds(b, pos))
    ensures a.top <= pos < b.top + b.height ==> Holds(a, pos) || Holds(b, pos)
    ensures pos == b.top && 0.0 < b.height ==> Holds(b, pos) && !Holds(a, pos)
  {
  }

  /** The page starts on a slide that exists. */
  lemma InitialSlideExists()
    ensures InitialActiveSlide < |SlideIds|
  {
  }

  datatype ScrollBehavior = Auto | Smooth

  /**
   * Scrolling is instant under reduced motion and smooth otherwise. The same
   * choice is made for a slide change's `scrollIntoView` and for the
   * container's CSS `scroll-behavior`.
   */
  function BehaviorFor(reducedMotion: bool): (b: ScrollBehavior)
    ensures b == Auto <==> reducedMotion
    ensures b == Smooth <==> !reducedMotion
  {
    if reducedMotion then Auto else Smooth
  }

  /** `scrollIntoView` on the element with id `target`, with `block: 'nearest'`. */
  datatype ScrollRequest = ScrollRequest(target: string, behavior: ScrollBehavior)

  /**
   * `handleSlideChange(index)`: scroll to the section of slide `index` if
   * the document has an element with that id, and do nothing otherwise.
   */
  function SlideChange(index: nat, present: set<string>, reducedMotion: bool): (r: Option<ScrollRequest>)
    requires index < |SlideIds|
    ensures r.Some? <==> SlideIds[index] in present
    ensures r.Some? ==> r.value.target == SlideIds[index] &&
                        r.value.behavior == BehaviorFor(reducedMotion)
  {
    var id := SlideIds[index];
    if id in present then Some(ScrollRequest(id, BehaviorFor(reducedMotion))) else None
  }
}
