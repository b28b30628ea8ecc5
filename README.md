# Chip slider and tab indicator, modelled in Dafny

Two small browser widgets, reduced to their pixel arithmetic and state.

- **Chip slider** (`chip-slider.js`). A category bar holds a horizontally
  scrollable region and an underline "track" with a "thumb". The thumb's width
  shows the visible share of the content; its offset shows the scroll position.
  The thumb can be dragged, the track clicked, the region driven by arrow/Home/End
  keys, and a vertical wheel gesture scrolls the region sideways.
- **Tab indicator** (`nav-script.js`). Among a fixed list of tabs exactly one is
  active. A slider element is sized (`width × --scale-x`) and placed on it, and a
  clicked tab that sticks out of its strip is scrolled back in with a 20 px margin.

Pixel values are exact `real`s. Browser measurements (`getBoundingClientRect`,
`getComputedStyle`, pointer and wheel coordinates) are parameters. `parseFloat(v) || d`
is `Measure.NumberOr` on an `Option<real>`: `None` (missing or NaN) and `Some(0)`
both give `d`.

Files, one module each:

- `measure.dfy` (`Measure`): `Option`, `Rect` (left, right, width), `Max`/`Min`/`Abs`, `NumberOr`.
- `chip_geometry.dfy` (`ChipGeometry`): updateThumb and setScrollByRatio as functions on `ScrollMetrics`.
- `chip_slider.dfy` (`ChipSlider`): the per-bar controller `ChipBar`. It holds the scroll metrics, the
  underline's `--w`/`--x`, and the drag session (`dragging`, `startX`, `startRatio`). Its methods are the
  pointer and wheel handlers. Also here: the pure key, wheel, drag and track-click computations.
- `chip_underline.dfy` (`ChipUnderline`): `Element` objects with children, and ensureUnderline.
- `chip_text.dfy` (`ChipText`): the chip clean-up (JavaScript `trim` and removing the `fire` class).
- `nav_tabs.dfy` (`NavTabs`): `TabStrip` (an array of `active` flags plus the slider), the indicator
  geometry and the scroll-into-view delta.

What the code does at its edges, as the model states it:

- After a left-overflow scroll the tab's left edge is 20 px inside the strip. The tab is then wholly in view
  exactly when it is at least 20 px narrower than the strip (`NavTabs.ScrollDeltaBringsIntoView`).
- `activateTab` and `scrollIntoViewIfNeeded` use the slider and strip elements without checking for them, so
  the code throws when either is missing. The model assumes both exist.
- The keyboard handler only requests `scrollBy(±120)` or `scrollTo(...)` (`ChipSlider.KeyRequest`). Clamping
  the result to the scrollable range is the browser's.
- A pointer-down reads back exactly the ratio the scroll was set from whenever the thumb has at least one
  pixel of travel (`ChipSlider.DragStartRoundTrip`). With less travel it can differ for a non-zero ratio,
  because `usable()` floors at 1 while updateThumb floors the travel at 0.

## Model

| member | source | states |
|---|---|---|
| `Measure.NumberOr` | chip-slider.js:49 | `parseFloat(v) \|\| d`: a missing/unparseable value and a parsed 0 both give `d`; any other parsed value is used; a non-zero default never yields 0 |
| `ChipGeometry.MaxScroll` | chip-slider.js:27 | max scroll is ≥ 1 (so it can divide), equals the overflow when that is ≥ 1, and is 1 otherwise |
| `ChipGeometry.ThumbWidth` | chip-slider.js:29 | thumb width ≥ 40 and ≥ (visible / total) × track width, and is one of the two |
| `ChipGeometry.Travel` | chip-slider.js:31 | the thumb's travel is ≥ 0 and ≥ track − thumb; it is track − thumb when the thumb fits and 0 otherwise |
| `ChipGeometry.UpdateThumb` | chip-slider.js:22-34 | width ≥ 40 and ≥ the visible share of the track; for scrollLeft in [0, maxScroll] the offset lies in [0, max(0, track − width)]; offset 0 at scrollLeft 0, full travel at maxScroll |
| `ChipGeometry.SetScrollByRatio` | chip-slider.js:36-39 | only scrollLeft changes; it lies in [0, maxScroll]; ratio ≤ 0 gives 0, ratio ≥ 1 gives maxScroll, ratio in [0,1] gives ratio × maxScroll |
| `ChipGeometry.SetScrollByRatioMonotone` | chip-slider.js:38 | a larger ratio never gives a smaller scrollLeft |
| `ChipGeometry.SetScrollKeepsWidth` | chip-slider.js:29 | setting the scroll position does not change the thumb width |
| `ChipGeometry.RatioRoundTrip` | chip-slider.js:27-38 | setScrollByRatio(r) then updateThumb, for r in [0,1], puts the thumb at exactly r × its travel, with unchanged width |
| `ChipGeometry.NoOverflowThumb` | chip-slider.js:27-31 | without overflow the thumb is at least track-wide and its offset is 0 whatever scrollLeft is; with visible = total the width is max(40, track width) |
| `ChipSlider.Render` | chip-slider.js:32-33 | writing `--w` and `--x` and reading them back gives the thumb's offset, and its width whenever that is non-zero |
| `ChipSlider.Usable` | chip-slider.js:46-51 | usable width ≥ 1, equals track − rendered thumb width when that is ≥ 1 and exactly 1 when it is ≤ 1, and falls back to a 40 px thumb when `--w` is unset |
| `ChipSlider.CurrentX` | chip-slider.js:52-54 | the rendered `--x`, or 0 when unset |
| `ChipSlider.DragRatio` | chip-slider.js:64-65 | the move ratio lies in [0,1]; it is the start ratio plus travel / usable when that is in range, and 1 or 0 past either end |
| `ChipSlider.DragToEnd` | chip-slider.js:64-66 | dragging past the right end of the travel scrolls to maxScroll |
| `ChipSlider.TrackClickRatio` | chip-slider.js:81-86 | the click ratio lies in [0,1]; it is 0 left of the start, 1 past the usable width, and (click − left − thumb/2) / usable in between |
| `ChipSlider.TrackClickMonotone` | chip-slider.js:85-86 | a click further right never asks for a smaller ratio |
| `ChipSlider.TrackClickLandsAt` | chip-slider.js:79-88 | with ≥ 1 px of travel, after a track click the thumb keeps its width and sits at the click point less half its width, clamped into its travel |
| `ChipSlider.ClampedClickMoves` | chip-slider.js:83-86 | moving the thumb to the clamped click point moves it toward the click without carrying its centre past it |
| `ChipSlider.TrackClickMovesTowardClick` | chip-slider.js:79-88 | with the scroll in range and ≥ 1 px of travel, a click right of the thumb moves it right and one left of it moves it left, and the thumb's centre never passes the click point |
| `ChipSlider.ClickThenStillMove` | chip-slider.js:79-94 | after a track click, a pointer move that has not travelled asks for the same ratio the click applied (the drag continues without a jump) |
| `ChipSlider.DragStartRoundTrip` | chip-slider.js:55-59 | after the scroll is set from ratio r, a pointer-down records startRatio = r whenever the thumb has ≥ 1 px of travel |
| `ChipSlider.KeyRequest` | chip-slider.js:99-117 | ArrowRight requests scrollBy(+120), ArrowLeft scrollBy(−120), Home scrollTo(0), End scrollTo(scrollWidth); no other key requests anything |
| `ChipSlider.WheelShift` | chip-slider.js:121-122 | a horizontal shift happens exactly when abs(deltaY) > abs(deltaX), and it is exactly deltaY |
| `ChipSlider.ChipBar.constructor` | chip-slider.js:42-44 | the drag session starts idle with startX = startRatio = 0, and the initial `update()` of chip-slider.js lines 143-148 renders the thumb from the metrics |
| `ChipSlider.ChipBar.Refresh` | chip-slider.js:144-147 | a scroll or resize notification re-renders the thumb from the new metrics and leaves the session alone |
| `ChipSlider.ChipBar.OnDown` | chip-slider.js:55-61 | dragging becomes true, startX = clientX, startRatio = currentX / usable; scroll and style unchanged |
| `ChipSlider.ChipBar.OnMove` | chip-slider.js:62-68 | outside a session nothing changes; inside one the scroll is set from the clamped drag ratio and the thumb re-rendered; the session fields stay |
| `ChipSlider.ChipBar.OnUp` | chip-slider.js:69-73 | dragging becomes false and nothing else changes |
| `ChipSlider.UpTwice` | chip-slider.js:69-73 | two pointer-ups leave the bar exactly as one does |
| `ChipSlider.ChipBar.OnTrackDown` | chip-slider.js:79-94 | a press on the thumb itself changes nothing; elsewhere the scroll is set from the click ratio, the thumb re-rendered, and a session starts with startX = clientX and startRatio = that ratio |
| `ChipSlider.ChipBar.OnWheel` | chip-slider.js:118-128 | a vertical-dominant gesture adds exactly deltaY to scrollLeft and re-renders the thumb; any other gesture changes nothing |
| `ChipUnderline.Element.constructor` | chip-slider.js:6-9 | a created element has the given class and no children |
| `ChipUnderline.FirstWithClass` | chip-slider.js:4 | the index of the first child with the class, or the length when there is none |
| `ChipUnderline.EnsureUnderline` | chip-slider.js:3-20 | afterwards the queries find the returned underline and thumb; existing ones are reused with children unchanged; missing ones are created fresh and appended; no other child changes |
| `ChipUnderline.EnsureUnderlineTwice` | chip-slider.js:3-20 | a second call returns the same underline and thumb, and the children after both calls are exactly those one call leaves (the second call creates and appends nothing) |
| `ChipText.FirstKept` | chip-slider.js:138 | the first index at or after the start that is not trimmable, with everything skipped trimmable |
| `ChipText.LastKept` | chip-slider.js:138 | the index just past the last character that is not trimmable, with everything skipped trimmable |
| `ChipText.TrimStart` | chip-slider.js:138 | the result is a suffix of the text, everything cut before it is trimmable, and it does not start with a trimmable character |
| `ChipText.TrimEnd` | chip-slider.js:138 | the result is a prefix of the text, everything cut after it is trimmable, and it does not end with a trimmable character |
| `ChipText.Trim` | chip-slider.js:138 | the result is the text cut at some index, with only trimmable characters removed before and after the cut, and it neither starts nor ends with a character JavaScript `trim` strips |
| `ChipText.TrimIdempotent` | chip-slider.js:138 | trimming twice is trimming once |
| `ChipText.NormalizeChip` | chip-slider.js:136-142 | the chip's text is the trimmed text; it keeps every class except `fire`, which it no longer has |
| `ChipText.NormalizeChipIdempotent` | chip-slider.js:136-142 | the clean-up is idempotent |
| `ChipText.ForEachInPlace` | chip-slider.js:136 | the `forEach` loop: every element is replaced in place by the callback applied to its old value |
| `ChipText.NormalizeChips` | chip-slider.js:136-142 | every chip of the bar is replaced by its cleaned-up form |
| `NavTabs.IndicatorFor` | nav-script.js:15-19 | slider width = tab width × scaleX, with scaleX = 1 when missing, unparseable or 0; slider offset = the tab's offsetLeft |
| `NavTabs.IndicatorOffsetIgnoresScale` | nav-script.js:16-19 | the slider offset does not depend on the scale factor |
| `NavTabs.OnlyActiveUnique` | nav-script.js:13-14 | "only tab t is active" holds for at most one t |
| `NavTabs.TabStrip.constructor` | nav-script.js:8-10 | the strip holds the tabs' initial active flags and the slider as loaded |
| `NavTabs.TabStrip.ActivateTab` | nav-script.js:12-20 | tab t is active and every other tab is inactive; the slider takes the geometry of tab t |
| `NavTabs.ActivateTwice` | nav-script.js:12-20 | activating a tab twice gives the same active set and slider as once |
| `NavTabs.TabStrip.Start` | nav-script.js:32 | with a non-empty list the first tab is the only active one; with an empty list the slider is untouched |
| `NavTabs.ScrollDelta` | nav-script.js:22-30 | no scroll exactly when the tab is within the strip; left overflow (checked first) requests tab.left − strip.left − 20 < 0; otherwise right overflow requests tab.right − strip.right + 20 > 0 |
| `NavTabs.ScrollDeltaBringsIntoView` | nav-script.js:25-29 | after the requested scroll the overflowing edge sits 20 px inside the strip, and the whole tab is in view if and only if it is at least 20 px narrower than the strip |
| `NavTabs.TabStrip.OnTabClick` | nav-script.js:33-39 | a click activates the tab and requests exactly its scroll-into-view delta |

## Left out

- DOM plumbing: `querySelector`/`querySelectorAll` over the document, `addEventListener`, `ResizeObserver`,
  the `DOMContentLoaded`/`readyState` start-up, `preventDefault`, and `scroll.tabIndex = 0`. These are wiring
  with no logic. The pointer and wheel handlers are `ChipBar` methods, the keydown handler is the function
  `ChipSlider.KeyRequest`, and the scroll and resize notifications are `ChipBar.Refresh`.
- Style strings: `'px'` and `translateX(...)` are not formatted. `ChipSlider.Render` stands for writing
  `--w`/`--x`, with reading them back giving the same numbers.
- The bar's `dragging` CSS class is not a separate field. The code adds and removes it together with the
  `dragging` variable.
- IEEE-754 behaviour: arithmetic is exact. `scrollWidth = 0` (a NaN thumb width) is excluded by
  `ChipBar.Valid` and the `requires` of the geometry functions.
- Browser clamping, snapping to device pixels, and smooth animation of `scrollLeft` writes, `scrollBy` and
  `scrollTo`. The model keeps the exact real written, which is what makes `ChipGeometry.RatioRoundTrip` and
  `ChipSlider.DragStartRoundTrip` exact. The keyboard handler is modelled by the request it makes,
  `ChipBar.OnWheel` adds `deltaY` unclamped, and `OnTabClick` returns the requested offset.
- `ChipUnderline.EnsureUnderline`: `querySelector` searches all descendants and matches one class among many.
  The model searches direct children and compares a single class name. It assumes the bar is not its own child.
- `ChipText.NormalizeChip`: the `textContent` write that drops inner markup is modelled as the chip's text
  being its text content.
- `ChipSlider.ChipBar.OnTrackDown`: the event target is a flag (on the thumb or not). The browser's dispatch
  order (the thumb's own pointer-down handler running first) is not modelled.
- Pointer identity: the document-level move and up handlers react to any pointer. Pointers are not told apart.
- `NavTabs`: tabs are indices into the flag array. The tab's rectangle read by `activateTab` and by
  `scrollIntoViewIfNeeded` is taken as the same measurement. A missing slider or strip element (where the code
  throws) is not modelled.
