/**
 * The slide navigation: the arrow-key rule, the fade of the navigation
 * once the page has scrolled, and which button marks the current slide.
 */
module SlideNav {
  import opened Wrappers

  /**
   * The slide a key press asks to go to, if any: ArrowDown the next slide
   * unless on the last, ArrowUp the previous one unless on the first. Any
   * request also prevents the browser's own scrolling for that key.
   */
  function KeyRequest(key: string, active: int, count: int): (r: Option<int>)
    ensures r.Some? <==> (key == "ArrowDown" && active < count - 1) || (key == "ArrowUp" && active > 0)
    ensures key == "ArrowDown" && active < count - 1 ==> r == Some(active + 1)
    ensures key == "ArrowUp" && active > 0 ==> r == Some(active - 1)
  {
    if key == "ArrowDown" && active < count - 1 then Some(active + 1)
    else if key == "ArrowUp" && active > 0 then Some(active - 1)
    else None
  }

  /** From a slide that exists, the keys only ever ask for a slide that exists. */
  lemma KeyRequestInRange(key: string, active: int, count: int)
    requires 0 <= active < count
    ensures var r := KeyRequest(key, active, count);
            r.Some? ==> 0 <= r.value < count && (r.value == active + 1 || r.value == active - 1)
  {
  }

  /** ArrowUp undoes ArrowDown, and ArrowDown undoes ArrowUp. */
  lemma ArrowKeysInverse(active: int, count: int)
    requires 0 <= active < count
    ensures KeyRequest("ArrowDown", active, count).Some? ==>
              KeyRequest("ArrowUp", KeyRequest("ArrowDown", active, count).value, count) == Some(active)
    ensures KeyRequest("ArrowUp", active, count).Some? ==>
              KeyRequest("ArrowDown", KeyRequest("ArrowUp", active, count).value, count) == Some(active)
  {
  }

  /**
   * Whether the navigation is shown in full after the given scroll events:
   * at first it is, and each scroll event sets it to whether `scrollY` is
   * below 100.
   */
  function Visible(scrolls: seq<real>): (v: bool)
    ensures scrolls == [] ==> v
    ensures scrolls != [] ==> (v <==> scrolls[|scrolls| - 1] < 100.0)
  {
    if scrolls == [] then true
    else scrolls[|scrolls| - 1] < 100.0
  }

  /** The navigation's opacity: full when visible, 0.3 otherwise. */
  function Opacity(visible: bool): (o: real)
    ensures visible ==> o == 1.0
    ensures !visible ==> o == 0.3
  {
    if visible then 1.0 else 0.3
  }

  /** Only the last scroll event matters. */
  lemma VisibleForgetsEarlierScrolls(earlier: seq<real>, scrollY: real)
    ensures Visible(earlier + [scrollY]) == Visible([scrollY])
    ensures Opacity(Visible(earlier + [scrollY])) == (if scrollY < 100.0 then 1.0 else 0.3)
  {
  }

  /**
   * What one navigation button shows: `aria-current="page"` (or nothing),
   * and whether it is highlighted in gold with the slide's title beside it.
   */
  datatype Button = Button(ariaCurrent: Option<string>, highlighted: bool)

  /** The buttons, one per slide, for the given active slide. */
  function Buttons(active: int, count: nat): (r: seq<Button>)
    ensures |r| == count
    ensures forall i :: 0 <= i < count ==>
              (r[i].ariaCurrent == (if i == active then Some("page") else None)) &&
              (r[i].highlighted <==> i == active)
  {
    seq(count, i => if i == active then Button(Some("page"), true) else Button(None, false))
  }

  /** The number of buttons marked current. */
  function CurrentCount(bs: seq<Button>): nat
  {
    if bs == [] then 0
    else (if bs[0].ariaCurrent.Some? then 1 else 0) + CurrentCount(bs[1..])
  }

  /** Buttons marked current at position `marked` and nowhere else: one of them if `marked` is in range, none otherwise. */
  lemma {:induction false} CurrentCountIs(bs: seq<Button>, marked: int)
    requires forall i :: 0 <= i < |bs| ==> (bs[i].ariaCurrent.Some? <==> i == marked)
    ensures CurrentCount(bs) == if 0 <= marked < |bs| then 1 else 0
    decreases |bs|
  {
    if bs != [] {
      CurrentCountIs(bs[1..], marked - 1);
    }
  }

  /** Exactly one button, the active slide's, is marked current; none when the active slide is out of range. */
  lemma ExactlyOneCurrent(active: int, count: nat)
    ensures CurrentCount(Buttons(active, count)) == if 0 <= active < count then 1 else 0
  {
    CurrentCountIs(Buttons(active, count), active);
  }
}
