/**
 * The navigation bar's tab controller: a fixed list of tabs of which exactly one
 * carries the `active` class after any activation, a slider indicator sized and
 * placed on the active tab, and the scroll request that keeps a clicked tab in
 * view. A tab's measurements (bounding rectangle, `offsetLeft`, `--scale-x`) are
 * taken from the browser and passed in.
 */
module NavTabs {
  import opened Measure

  /** Pixels of clearance left between a tab brought into view and the strip's edge. */
  const ScrollMargin: real := 20.0

  /** What `parseFloat(--scale-x) || 1` falls back to. */
  const DefaultScale: real := 1.0

  /** What activateTab reads of a tab. */
  datatype TabMetrics = TabMetrics(rect: Rect, offsetLeft: real, scaleX: Option<real>)

  /** The slider's inline `width` and `translateX` offset. */
  datatype Indicator = Indicator(width: real, offset: real)

  /** The slider geometry for a tab: its width scaled by `--scale-x`, at its `offsetLeft`. */
  function IndicatorFor(m: TabMetrics): (ind: Indicator)
    ensures ind.offset == m.offsetLeft
    ensures (m.scaleX.None? || m.scaleX == Some(0.0)) ==> ind.width == m.rect.width
    ensures m.scaleX.Some? && m.scaleX.value != 0.0 ==> ind.width == m.rect.width * m.scaleX.value
  {
    Indicator(m.rect.width * NumberOr(m.scaleX, DefaultScale), m.offsetLeft)
  }

  /** The slider's offset depends on where the tab is, never on its scale factor. */
  lemma IndicatorOffsetIgnoresScale(m: TabMetrics, scale: Option<real>)
    ensures IndicatorFor(m.(scaleX := scale)).offset == IndicatorFor(m).offset
  {
  }

  /** Tab `t` is active and every other tab is not. */
  ghost predicate OnlyActive(active: seq<bool>, t: nat) {
    t < |active| && forall i :: 0 <= i < |active| ==> active[i] == (i == t)
  }

  /** At most one tab can be the only active one. */
  lemma OnlyActiveUnique(active: seq<bool>, t: nat, u: nat)
    requires OnlyActive(active, t) && OnlyActive(active, u)
    ensures t == u
  {
    assert active[t];
  }

  /**
   * scrollIntoViewIfNeeded: the `scrollBy` offset requested for a tab, or `None`
   * when no scroll is requested. A tab sticking out on the left is brought back
   * first; only otherwise is a tab sticking out on the right considered.
   */
  function ScrollDelta(tab: Rect, wrap: Rect): (d: Option<real>)
    ensures d.None? <==> wrap.left <= tab.left && tab.right <= wrap.right
    ensures tab.left < wrap.left ==> d == Some(tab.left - wrap.left - ScrollMargin) && d.value < 0.0
    ensures wrap.left <= tab.left && tab.right > wrap.right ==>
      d == Some(tab.right - wrap.right + ScrollMargin) && d.value > 0.0
  {
    if tab.left < wrap.left then Some(tab.left - wrap.left - ScrollMargin)
    else if tab.right > wrap.right then Some(tab.right - wrap.right + ScrollMargin)
    else None
  }

  /** Where a rectangle is seen after its scroll container scrolled by `delta`. */
  function Scrolled(r: Rect, delta: real): Rect {
    Rect(r.left - delta, r.right - delta, r.width)
  }

  /**
   * After the requested scroll, a tab that stuck out on the left has its left
   * edge the margin inside the strip, and one that stuck out on the right has
   * its right edge the margin inside. It then lies wholly in view exactly when
   * it is at least the margin narrower than the strip.
   */
  lemma ScrollDeltaBringsIntoView(tab: Rect, wrap: Rect)
    requires IsBox(tab) && IsBox(wrap)
    requires ScrollDelta(tab, wrap).Some?
    ensures var after := Scrolled(tab, ScrollDelta(tab, wrap).value);
      (tab.left < wrap.left ==> after.left == wrap.left + ScrollMargin) &&
      (tab.left >= wrap.left ==> after.right == wrap.right - ScrollMargin) &&
      (tab.width + ScrollMargin <= wrap.width <==> wrap.left <= after.left && after.right <= wrap.right)
  {
  }

  class TabStrip {
    const active: array<bool>
    var slider: Indicator

    /** The tabs as the page loads them (any `active` classes the markup has) and the slider. */
    constructor (initial: seq<bool>, slider0: Indicator)
      ensures fresh(active) && active[..] == initial && slider == slider0
    {
      active := new bool[|initial|](i requires 0 <= i < |initial| => initial[i]);
      slider := slider0;
    }

    /**
     * activateTab(tabs[t]): every tab loses `active`, tab t gains it, and the
     * slider takes tab t's geometry. The result depends on t and its
     * measurements only, so activating the same tab again changes nothing.
     */
    method ActivateTab(t: nat, m: TabMetrics)
      requires t < active.Length
      modifies this, active
      ensures OnlyActive(active[..], t)
      ensures slider == IndicatorFor(m)
    {
      var i := 0;
      while i < active.Length
        invariant 0 <= i <= active.Length
        invariant forall k :: 0 <= k < i ==> !active[k]
      {
        active[i] := false;
        i := i + 1;
      }
      active[t] := true;
      slider := IndicatorFor(m);
    }

    /** Start-up: the first tab is activated when there is one; an empty list is left alone. */
    method Start(first: TabMetrics)
      modifies this, active
      ensures active.Length > 0 ==> OnlyActive(active[..], 0) && slider == IndicatorFor(first)
      ensures active.Length == 0 ==> slider == old(slider)
    {
      if active.Length > 0 {
        ActivateTab(0, first);
      }
    }

    /**
     * A tab's click handler: activate it, then ask the strip to scroll it into
     * view. The requested `scrollBy` offset is returned.
     */
    method OnTabClick(t: nat, m: TabMetrics, wrap: Rect) returns (request: Option<real>)
      requires t < active.Length
      modifies this, active
      ensures OnlyActive(active[..], t) && slider == IndicatorFor(m)
      ensures request == ScrollDelta(m.rect, wrap)
    {
      ActivateTab(t, m);
      request := ScrollDelta(m.rect, wrap);
    }
  }

  /** Activating a tab twice leaves the same active set and slider as activating it once. */
  method ActivateTwice(s: TabStrip, t: nat, m: TabMetrics)
    requires t < s.active.Length
    modifies s, s.active
    ensures OnlyActive(s.active[..], t) && s.slider == IndicatorFor(m)
  {
    s.ActivateTab(t, m);
    s.ActivateTab(t, m);
  }
}
