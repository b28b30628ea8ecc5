/**
 * The pixel arithmetic of the chip slider: how the thumb's width and offset are
 * derived from the scroll region's metrics (updateThumb), and how a ratio in the
 * thumb's range is turned back into a scroll position (setScrollByRatio).
 */
module ChipGeometry {
  import opened Measure

  /** The thumb is never narrower than this many pixels. */
  const MinThumbWidth: real := 40.0

  /** The scroll region's `scrollWidth`, `clientWidth` and `scrollLeft`. */
  datatype ScrollMetrics = ScrollMetrics(scrollWidth: real, clientWidth: real, scrollLeft: real)

  /** The thumb geometry that updateThumb writes to `--w` and `--x`. */
  datatype Thumb = Thumb(width: real, x: real)

  /**
   * The largest scroll offset, floored at 1 so that it can always divide:
   * exactly the overflow when there is at least a pixel of it, 1 otherwise.
   */
  function MaxScroll(s: ScrollMetrics): (m: real)
    ensures m >= 1.0
    ensures m >= s.scrollWidth - s.clientWidth
    ensures s.scrollWidth - s.clientWidth >= 1.0 ==> m == s.scrollWidth - s.clientWidth
    ensures s.scrollWidth - s.clientWidth <= 1.0 ==> m == 1.0
  {
    Max(1.0, s.scrollWidth - s.clientWidth)
  }

  /** The visible share of the track, but never below the floor. */
  function ThumbWidth(s: ScrollMetrics, trackWidth: real): (w: real)
    requires s.scrollWidth > 0.0
    ensures w >= MinThumbWidth
    ensures w >= s.clientWidth / s.scrollWidth * trackWidth
    ensures w == MinThumbWidth || w == s.clientWidth / s.scrollWidth * trackWidth
  {
    Max(MinThumbWidth, s.clientWidth / s.scrollWidth * trackWidth)
  }

  /** Room the thumb can slide in: the track minus the thumb, never negative. */
  function Travel(trackWidth: real, thumbWidth: real): (u: real)
    ensures u >= 0.0
    ensures u >= trackWidth - thumbWidth
    ensures trackWidth >= thumbWidth ==> u == trackWidth - thumbWidth
    ensures trackWidth <= thumbWidth ==> u == 0.0
  {
    Max(0.0, trackWidth - thumbWidth)
  }

  /**
   * updateThumb: the thumb's width and offset for the given metrics and track width.
   * The offset is the scrolled fraction of MaxScroll applied to the thumb's travel,
   * so a scroll position inside [0, MaxScroll] puts the thumb inside the track.
   */
  function UpdateThumb(s: ScrollMetrics, trackWidth: real): (t: Thumb)
    requires s.scrollWidth > 0.0
    ensures t.width == ThumbWidth(s, trackWidth)
    ensures t.width >= MinThumbWidth
    ensures t.width >= s.clientWidth / s.scrollWidth * trackWidth
    ensures 0.0 <= s.scrollLeft <= MaxScroll(s) ==> 0.0 <= t.x <= Travel(trackWidth, t.width)
    ensures s.scrollLeft == 0.0 ==> t.x == 0.0
    ensures s.scrollLeft == MaxScroll(s) ==> t.x == Travel(trackWidth, t.width)
  {
    var w := ThumbWidth(s, trackWidth);
    var m := MaxScroll(s);
    var travel := Travel(trackWidth, w);
    var x := s.scrollLeft / m * travel;
    assert 0.0 <= s.scrollLeft <= m ==> 0.0 <= x <= travel by {
      if 0.0 <= s.scrollLeft <= m {
        ShareWithin(s.scrollLeft, m, travel);
      }
    }
    Thumb(w, x)
  }

  /**
   * setScrollByRatio: the metrics after `scrollLeft` is set from a ratio. The new
   * offset is clamped into [0, MaxScroll]; a ratio inside [0, 1] scales MaxScroll.
   */
  function SetScrollByRatio(s: ScrollMetrics, ratio: real): (s': ScrollMetrics)
    ensures s'.scrollWidth == s.scrollWidth && s'.clientWidth == s.clientWidth
    ensures 0.0 <= s'.scrollLeft <= MaxScroll(s)
    ensures ratio <= 0.0 ==> s'.scrollLeft == 0.0
    ensures ratio >= 1.0 ==> s'.scrollLeft == MaxScroll(s)
    ensures 0.0 <= ratio <= 1.0 ==> s'.scrollLeft == ratio * MaxScroll(s)
  {
    var m := MaxScroll(s);
    var scaled := ratio * m;
    assert (ratio <= 0.0 ==> scaled <= 0.0) && (ratio >= 0.0 ==> scaled >= 0.0) &&
           (ratio <= 1.0 ==> scaled <= m) && (ratio >= 1.0 ==> scaled >= m) by {
      if ratio <= 0.0 { MulMonotone(ratio, 0.0, m); } else { MulMonotone(0.0, ratio, m); }
      if ratio <= 1.0 { MulMonotone(ratio, 1.0, m); } else { MulMonotone(1.0, ratio, m); }
    }
    s.(scrollLeft := Min(m, Max(0.0, scaled)))
  }

  /** A larger ratio never scrolls less far. */
  lemma SetScrollByRatioMonotone(s: ScrollMetrics, r1: real, r2: real)
    requires r1 <= r2
    ensures SetScrollByRatio(s, r1).scrollLeft <= SetScrollByRatio(s, r2).scrollLeft
  {
    // Kept although most solver seeds do without it: some miss the product step
    // in the unclamped middle range.
    if 0.0 <= r1 && r2 <= 1.0 {
      var m := MaxScroll(s);
      MulMonotone(r1, r2, m);
      assert SetScrollByRatio(s, r1).scrollLeft == r1 * m;
      assert SetScrollByRatio(s, r2).scrollLeft == r2 * m;
      assert r1 * m <= r2 * m;
    }
  }

  /** Setting the scroll position leaves the thumb's width alone. */
  lemma SetScrollKeepsWidth(s: ScrollMetrics, ratio: real, trackWidth: real)
    requires s.scrollWidth > 0.0
    ensures UpdateThumb(SetScrollByRatio(s, ratio), trackWidth).width == UpdateThumb(s, trackWidth).width
  {
    var s' := SetScrollByRatio(s, ratio);
    assert ThumbWidth(s', trackWidth) == ThumbWidth(s, trackWidth);
  }

  /**
   * Round trip: setting the scroll position from a ratio r in [0, 1] and then
   * recomputing the thumb puts the thumb at exactly r of its travel.
   */
  lemma RatioRoundTrip(s: ScrollMetrics, r: real, trackWidth: real)
    requires s.scrollWidth > 0.0
    requires 0.0 <= r <= 1.0
    ensures var t := UpdateThumb(SetScrollByRatio(s, r), trackWidth);
      t.width == ThumbWidth(s, trackWidth) &&
      t.x == r * Travel(trackWidth, t.width)
  {
  }

  /**
   * Without overflow (the region shows at least all of its content) the thumb
   * covers the track and sits at 0 whatever `scrollLeft` says; when the region
   * shows exactly its content, the width is the track width or the floor.
   */
  lemma NoOverflowThumb(s: ScrollMetrics, trackWidth: real)
    requires s.scrollWidth > 0.0 && s.clientWidth >= s.scrollWidth
    requires trackWidth >= 0.0
    ensures UpdateThumb(s, trackWidth).width >= trackWidth
    ensures UpdateThumb(s, trackWidth).x == 0.0
    ensures s.clientWidth == s.scrollWidth ==> UpdateThumb(s, trackWidth).width == Max(MinThumbWidth, trackWidth)
  {
    // Not every solver seed finds the width bound unaided: give it visible / total >= 1.
    var q := s.clientWidth / s.scrollWidth;
    DivMonotone(s.scrollWidth, s.clientWidth, s.scrollWidth);
    assert s.scrollWidth / s.scrollWidth == 1.0;
    MulMonotone(1.0, q, trackWidth);
  }
}
