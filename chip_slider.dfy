/**
 * One category bar's slider controller: the scroll region's metrics, the two
 * custom properties `--w` and `--x` on the underline, and the drag session
 * (`dragging`, `startX`, `startRatio`) that the pointer handlers share.
 * Measurements the handlers take from the browser (the underline's bounding
 * rectangle, the pointer's `clientX`, wheel deltas) are parameters.
 */
module ChipSlider {
  import opened Measure
  import opened ChipGeometry

  /** What `parseFloat(--w) || 40` falls back to when `--w` is unset. */
  const FallbackThumbWidth: real := 40.0

  /** How far one arrow key asks the region to scroll. */
  const KeyStep: real := 120.0

  /** The underline's `--w` and `--x` as `getComputedStyle` reads them back. */
  datatype UnderlineStyle = UnderlineStyle(w: Option<real>, x: Option<real>)

  /** A scroll the keyboard handler asks the browser for (smoothly animated there). */
  datatype ScrollRequest = ScrollBy(delta: real) | ScrollTo(left: real)

  /**
   * The style updateThumb writes: `--w` and `--x` in pixels. Reading them back
   * gives the thumb's offset, and its width whenever that is not 0.
   */
  function Render(t: Thumb): (st: UnderlineStyle)
    ensures NumberOr(st.x, 0.0) == t.x
    ensures t.width != 0.0 ==> NumberOr(st.w, FallbackThumbWidth) == t.width
  {
    UnderlineStyle(Some(t.width), Some(t.x))
  }

  /** `usable()`: the track width minus the rendered thumb width, floored at 1. */
  function Usable(trackWidth: real, w: Option<real>): (u: real)
    ensures u >= 1.0
    ensures u >= trackWidth - NumberOr(w, FallbackThumbWidth)
    ensures trackWidth - NumberOr(w, FallbackThumbWidth) >= 1.0 ==> u == trackWidth - NumberOr(w, FallbackThumbWidth)
    ensures trackWidth - NumberOr(w, FallbackThumbWidth) <= 1.0 ==> u == 1.0
    ensures w.None? ==> u == Max(1.0, trackWidth - FallbackThumbWidth)
  {
    Max(1.0, trackWidth - NumberOr(w, FallbackThumbWidth))
  }

  /** `currentX()`: the rendered thumb offset; 0 while `--x` is unset. */
  function CurrentX(x: Option<real>): (cx: real)
    ensures x.Some? ==> cx == x.value
    ensures x.None? ==> cx == 0.0
  {
    NumberOr(x, 0.0)
  }

  /**
   * The ratio a pointer move asks for: the session's start ratio shifted by the
   * pointer's travel as a fraction of the usable width, clamped to [0, 1].
   */
  function DragRatio(startRatio: real, startX: real, clientX: real, usable: real): (r: real)
    requires usable > 0.0
    ensures 0.0 <= r <= 1.0
    ensures 0.0 <= startRatio + (clientX - startX) / usable <= 1.0 ==> r == startRatio + (clientX - startX) / usable
    ensures startRatio + (clientX - startX) / usable >= 1.0 ==> r == 1.0
    ensures startRatio + (clientX - startX) / usable <= 0.0 ==> r == 0.0
  {
    Min(1.0, Max(0.0, startRatio + (clientX - startX) / usable))
  }

  /**
   * The ratio a click on the track asks for: the click point less half the thumb,
   * measured from the track's left edge, clamped to [0, usable] and divided by usable.
   */
  function TrackClickRatio(clientX: real, track: Rect, w: Option<real>): (r: real)
    ensures 0.0 <= r <= 1.0
    ensures var thumbW := NumberOr(w, FallbackThumbWidth);
      var rel := clientX - track.left - thumbW / 2.0;
      (rel <= 0.0 ==> r == 0.0) &&
      (rel >= Usable(track.width, w) ==> r == 1.0) &&
      (0.0 <= rel <= Usable(track.width, w) ==> r == rel / Usable(track.width, w))
  {
    var thumbW := NumberOr(w, FallbackThumbWidth);
    var u := Usable(track.width, w);
    var rel := Min(u, Max(0.0, clientX - track.left - thumbW / 2.0));
    UnitQuotient(rel, u);
    rel / u
  }

  /** Clicking further right never asks for a smaller ratio. */
  lemma TrackClickMonotone(c1: real, c2: real, track: Rect, w: Option<real>)
    requires c1 <= c2
    ensures TrackClickRatio(c1, track, w) <= TrackClickRatio(c2, track, w)
  {
    var thumbW := NumberOr(w, FallbackThumbWidth);
    var u := Usable(track.width, w);
    var rel1 := Min(u, Max(0.0, c1 - track.left - thumbW / 2.0));
    var rel2 := Min(u, Max(0.0, c2 - track.left - thumbW / 2.0));
    DivMonotone(rel1, rel2, u);
  }

  /**
   * The keydown handler: ArrowRight and ArrowLeft ask to scroll by one step,
   * Home asks for the start and End for `scrollWidth`; other keys ask nothing.
   */
  function KeyRequest(key: string, scrollWidth: real): (req: Option<ScrollRequest>)
    ensures key == "ArrowRight" ==> req == Some(ScrollBy(KeyStep))
    ensures key == "ArrowLeft" ==> req == Some(ScrollBy(-KeyStep))
    ensures key == "Home" ==> req == Some(ScrollTo(0.0))
    ensures key == "End" ==> req == Some(ScrollTo(scrollWidth))
    ensures req.None? <==> key !in ["ArrowRight", "ArrowLeft", "Home", "End"]
  {
    if key == "ArrowRight" then Some(ScrollBy(KeyStep))
    else if key == "ArrowLeft" then Some(ScrollBy(-KeyStep))
    else if key == "Home" then Some(ScrollTo(0.0))
    else if key == "End" then Some(ScrollTo(scrollWidth))
    else None
  }

  /**
   * The wheel handler's decision: a gesture whose vertical part is strictly
   * larger than its horizontal part is redirected as a horizontal shift of
   * exactly `deltaY`; any other gesture is left to the browser.
   */
  function WheelShift(deltaX: real, deltaY: real): (d: Option<real>)
    ensures d.Some? <==> Abs(deltaY) > Abs(deltaX)
    ensures d.Some? ==> d.value == deltaY
  {
    if Abs(deltaY) > Abs(deltaX) then Some(deltaY) else None
  }

  /**
   * Reading the thumb back after a ratio was applied recovers the ratio: the
   * start ratio a pointer-down records is the ratio the scroll was set from,
   * whenever the thumb has at least a pixel of travel.
   */
  lemma DragStartRoundTrip(s: ScrollMetrics, r: real, trackWidth: real)
    requires s.scrollWidth > 0.0
    requires 0.0 <= r <= 1.0
    requires trackWidth - ThumbWidth(s, trackWidth) >= 1.0
    ensures var st := Render(UpdateThumb(SetScrollByRatio(s, r), trackWidth));
      CurrentX(st.x) / Usable(trackWidth, st.w) == r
  {
    RatioRoundTrip(s, r, trackWidth);
    var u := trackWidth - ThumbWidth(s, trackWidth);
    assert r * u / u == r;
  }

  /**
   * A track click starts a session that continues smoothly: a pointer move that
   * has not yet travelled asks for the very ratio the click applied.
   */
  lemma ClickThenStillMove(clientX: real, track: Rect, w: Option<real>)
    ensures var r := TrackClickRatio(clientX, track, w);
      DragRatio(r, clientX, clientX, Usable(track.width, w)) == r
  {
  }

  /**
   * Clicking the track moves the thumb toward the click: on the right of the
   * thumb it moves right, on the left of it it moves left, and in both cases its
   * centre does not pass the click point.
   */
  lemma TrackClickMovesTowardClick(s: ScrollMetrics, clientX: real, track: Rect)
    requires s.scrollWidth > 0.0 && 0.0 <= s.scrollLeft <= MaxScroll(s)
    requires Travel(track.width, ThumbWidth(s, track.width)) >= 1.0
    ensures var t := UpdateThumb(s, track.width);
      var t' := UpdateThumb(SetScrollByRatio(s, TrackClickRatio(clientX, track, Render(t).w)), track.width);
      (clientX > track.left + t.x + t.width && t.x < Travel(track.width, t.width) ==>
        t.x < t'.x && track.left + t'.x + t.width / 2.0 <= clientX) &&
      (clientX < track.left + t.x && t.x > 0.0 ==>
        t'.x < t.x && track.left + t'.x + t.width / 2.0 >= clientX)
  {
    var t := UpdateThumb(s, track.width);
    var t' := UpdateThumb(SetScrollByRatio(s, TrackClickRatio(clientX, track, Render(t).w)), track.width);
    TrackClickLandsAt(s, clientX, track);
    ClampedClickMoves(t.x, t'.x, t.width, Travel(track.width, t.width), track.left, clientX);
  }

  /** A track click puts the thumb at the click point less half its width, clamped into its travel. */
  lemma TrackClickLandsAt(s: ScrollMetrics, clientX: real, track: Rect)
    requires s.scrollWidth > 0.0
    requires Travel(track.width, ThumbWidth(s, track.width)) >= 1.0
    ensures var t := UpdateThumb(s, track.width);
      var u := Travel(track.width, t.width);
      var t' := UpdateThumb(SetScrollByRatio(s, TrackClickRatio(clientX, track, Render(t).w)), track.width);
      t'.width == t.width && t'.x == Min(u, Max(0.0, clientX - track.left - t.width / 2.0))
  {
    var t := UpdateThumb(s, track.width);
    var u := Travel(track.width, t.width);
    var r := TrackClickRatio(clientX, track, Render(t).w);
    var c := Min(u, Max(0.0, clientX - track.left - t.width / 2.0));
    assert Usable(track.width, Render(t).w) == u;
    assert NumberOr(Render(t).w, FallbackThumbWidth) == t.width;
    assert r == c / u;
    QuotientTimes(c, u);
    RatioRoundTrip(s, r, track.width);
  }

  /**
   * The pixel step behind a track click: with the thumb at `x` in a travel of `u`,
   * moving it to the click point less half its width, clamped into the travel,
   * moves it toward the click and never carries its centre past the click.
   */
  lemma ClampedClickMoves(x: real, x': real, width: real, u: real, left: real, clientX: real)
    requires 0.0 <= x <= u && width >= 0.0
    requires x' == Min(u, Max(0.0, clientX - left - width / 2.0))
    ensures clientX > left + x + width && x < u ==> x < x' && left + x' + width / 2.0 <= clientX
    ensures clientX < left + x && x > 0.0 ==> x' < x && left + x' + width / 2.0 >= clientX
  {
  }

  /** Dragging past the right end of the travel scrolls to the end of the content. */
  lemma DragToEnd(s: ScrollMetrics, startRatio: real, startX: real, clientX: real, usable: real)
    requires usable > 0.0
    requires startRatio + (clientX - startX) / usable >= 1.0
    ensures SetScrollByRatio(s, DragRatio(startRatio, startX, clientX, usable)).scrollLeft == MaxScroll(s)
  {
  }

  class ChipBar {
    var scroll: ScrollMetrics
    var style: UnderlineStyle
    var dragging: bool
    var startX: real
    var startRatio: real

    /** The region has content width, and the underline carries a rendered thumb. */
    ghost predicate Valid()
      reads this
    {
      scroll.scrollWidth > 0.0 &&
      style.w.Some? && style.w.value >= MinThumbWidth && style.x.Some?
    }

    /** init for one bar: the first `update()`, then a fresh, idle drag session. */
    constructor (s: ScrollMetrics, track: Rect)
      requires s.scrollWidth > 0.0
      ensures Valid()
      ensures scroll == s && style == Render(UpdateThumb(s, track.width))
      ensures !dragging && startX == 0.0 && startRatio == 0.0
    {
      scroll := s;
      style := Render(UpdateThumb(s, track.width));
      dragging := false;
      startX := 0.0;
      startRatio := 0.0;
    }

    /**
     * The scroll listener and the resize observer: the browser reports new
     * metrics and the thumb is recomputed from them. The session is untouched.
     */
    method Refresh(s: ScrollMetrics, track: Rect)
      requires Valid() && s.scrollWidth > 0.0
      modifies this
      ensures Valid()
      ensures scroll == s && style == Render(UpdateThumb(s, track.width))
      ensures dragging == old(dragging) && startX == old(startX) && startRatio == old(startRatio)
    {
      scroll := s;
      style := Render(UpdateThumb(s, track.width));
    }

    /** Pointer-down on the thumb: start a session at the current thumb ratio. */
    method OnDown(clientX: real, track: Rect)
      requires Valid()
      modifies this
      ensures Valid()
      ensures dragging && startX == clientX
      ensures startRatio == CurrentX(style.x) / Usable(track.width, style.w)
      ensures scroll == old(scroll) && style == old(style)
    {
      dragging := true;
      startX := clientX;
      startRatio := CurrentX(style.x) / Usable(track.width, style.w);
    }

    /**
     * Pointer-move: nothing at all outside a session; inside one, the scroll is
     * set from the clamped drag ratio and the thumb recomputed.
     */
    method OnMove(clientX: real, track: Rect)
      requires Valid()
      modifies this
      ensures Valid()
      ensures !old(dragging) ==> scroll == old(scroll) && style == old(style)
      ensures old(dragging) ==>
        scroll == SetScrollByRatio(old(scroll), DragRatio(startRatio, startX, clientX, Usable(track.width, old(style.w)))) &&
        style == Render(UpdateThumb(scroll, track.width))
      ensures dragging == old(dragging) && startX == old(startX) && startRatio == old(startRatio)
    {
      if !dragging {
        return;
      }
      var ratio := DragRatio(startRatio, startX, clientX, Usable(track.width, style.w));
      scroll := SetScrollByRatio(scroll, ratio);
      style := Render(UpdateThumb(scroll, track.width));
    }

    /** Pointer-up or pointer-cancel: the session ends; nothing else changes. */
    method OnUp()
      modifies this
      ensures !dragging
      ensures scroll == old(scroll) && style == old(style)
      ensures startX == old(startX) && startRatio == old(startRatio)
    {
      if !dragging {
        return;
      }
      dragging := false;
    }

    /**
     * Pointer-down on the underline. On the thumb itself it does nothing (the
     * thumb's own handler runs). Elsewhere the thumb's centre jumps to the click
     * point, the scroll follows, and a session starts from there.
     */
    method OnTrackDown(targetIsThumb: bool, clientX: real, track: Rect)
      requires Valid()
      modifies this
      ensures Valid()
      ensures targetIsThumb ==>
        scroll == old(scroll) && style == old(style) &&
        dragging == old(dragging) && startX == old(startX) && startRatio == old(startRatio)
      ensures !targetIsThumb ==>
        var r := TrackClickRatio(clientX, track, old(style.w));
        scroll == SetScrollByRatio(old(scroll), r) &&
        style == Render(UpdateThumb(scroll, track.width)) &&
        dragging && startX == clientX && startRatio == r
    {
      if targetIsThumb {
        return;
      }
      var ratio := TrackClickRatio(clientX, track, style.w);
      scroll := SetScrollByRatio(scroll, ratio);
      style := Render(UpdateThumb(scroll, track.width));
      startX := clientX;
      dragging := true;
      startRatio := ratio;
    }

    /**
     * The wheel handler: a vertical-dominant gesture moves `scrollLeft` by
     * exactly `deltaY` and recomputes the thumb; any other gesture changes nothing.
     */
    method OnWheel(deltaX: real, deltaY: real, track: Rect)
      requires Valid()
      modifies this
      ensures Valid()
      ensures WheelShift(deltaX, deltaY).None? ==> scroll == old(scroll) && style == old(style)
      ensures WheelShift(deltaX, deltaY).Some? ==>
        scroll == old(scroll).(scrollLeft := old(scroll.scrollLeft) + deltaY) &&
        style == Render(UpdateThumb(scroll, track.width))
      ensures dragging == old(dragging) && startX == old(startX) && startRatio == old(startRatio)
    {
      var shift := WheelShift(deltaX, deltaY);
      if shift.Some? {
        scroll := scroll.(scrollLeft := scroll.scrollLeft + shift.value);
        style := Render(UpdateThumb(scroll, track.width));
      }
    }
  }

  /** Two pointer-ups in a row leave the bar as one does. */
  method UpTwice(b: ChipBar)
    modifies b
    ensures !b.dragging
    ensures b.scroll == old(b.scroll) && b.style == old(b.style)
    ensures b.startX == old(b.startX) && b.startRatio == old(b.startRatio)
  {
    b.OnUp();
    b.OnUp();
  }
}
