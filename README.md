# a11y-table scroll geometry and synchronisation, in Dafny

This project models the core of a table widget with custom scrollbars: the
viewport geometry, the stylesheet's layout decisions, the drag stream of a
scrollbar handle, drag-to-scroll, and the per-axis coalescing of handle updates
to one animation frame. Pixels are exact `real`s. DOM reads become parameters.

- `geometry.dfy` (`Geometry`): the `Dimensions` record from `dimensions.js`.
  The same block appears again inside `render` in `index.js` (lines 72-119), and
  `ComputeDimensions` models both copies. Table width is the left-to-right fold
  of the column sizes. Table height is header height plus row height times row
  count. Each track is the viewport extent minus the fixed 20px `scroller.size`.
  Each thumb is `track * (track / content)`.
- `layout.dfy` (`Layout`): `Style.js` as numbers and flags. It holds the two
  "maxed" flags, the container and table heights that reclaim the horizontal
  gutter, the hidden scrollbars, and the pass-through sizes.
- `gesture.dfy` (`Gesture`): `makeDraggable`, `beginDrag` and `endDrag`. The
  `switchLatest` composition becomes a step function over mouse events. Each
  event emits at most one GRAB, DRAG or DROP record. `Latest` is a second
  definition of the session state, read from the back of the event history.
- `drag_scroll.dfy` (`DragScroll`): `handleScrolling`. A drag record maps to a
  clamped scroll distance. A handler toggles the handle's dragging class and
  writes the container's `scrollLeft`. `ScrollContainer` is the class whose two
  fields the handler updates.
- `frame_sync.dfy` (`FrameSync`): `_scrollX`, `_scrollingX`, `_scrollY`,
  `_scrollingY` and the animation-frame queue. `SyncState` and its functions are
  the specification. `ScrollSync` is the class whose methods update the fields.
  Each method gives its new state as its specification function of the old
  state (`RequestUpdate`, `OnScroll`, `Update`, `RunFrame`). The constructor
  and the scroll, request and frame methods also keep the coalescing invariant
  `Valid()`. The two update methods are steps inside `RunNextFrame` and do not
  keep it on their own: an update run while its callback is still queued
  leaves a callback pending with the flag cleared.

The model follows the code as written; in particular:

- Thumbs are not capped at the track length. A table narrower than its track
  gets a thumb longer than the track, and its scrollbar is not hidden.
- The geometry has no tie-break that recomputes one track from the other. Only
  the horizontal gutter is ever reclaimed, and only in the container and table
  heights. The container width is always the horizontal track width.
- A mouseleave ends the session's DRAG records but emits no DROP.
- A mousedown during a session starts a new session with a fresh GRAB.
- Every mouseup on the area emits a DROP, even when no session is running.
- The drag distance is `x - dx * (track / content)`. The pointer position is not
  rescaled by `content / track`, so the handle moves `track / content` times as
  far as the pointer (`HandleLagsPointer`).
- A zero table width or height is not reported as an error. The code would
  divide by it, so the model requires positive extents wherever it divides.

## Model

| member | source | states |
|---|---|---|
| `Geometry.ComputeDimensions` | dimensions.js:42-89 | The viewport box is kept. Table width is the sum of the column sizes. Table height minus header height is row height times row count. The sampled heights pass through unchanged. The gutter is 20. Each track plus the gutter is the viewport extent, and each track is 20 thick. Each thumb's cross size equals its track's. Each thumb length times content length equals track length squared. |
| `Geometry.ReduceIsSum` | dimensions.js:50 | The `reduce` fold from any start value equals that value plus the sum of the column sizes. |
| `Geometry.TotalWidthIsSum` | dimensions.js:50 | Table width is the sum of the sizes, and appending a column widens the table by exactly that column's size. |
| `Geometry.TotalWidthCoversEachColumn` | dimensions.js:50 | With non-negative sizes, the table is at least as wide as any single column. |
| `Geometry.ThumbBetween` | dimensions.js:79-86 | When the content is at least as long as a positive track, the thumb lies in (0, track]. It equals the track exactly when content equals track. |
| `Geometry.ThumbFillsTrackIff` | dimensions.js:79-86 | A thumb equals its track exactly when the track is 0 or equals the content length. |
| `Geometry.ThumbExceedsShortContent` | dimensions.js:79-81 | No cap: content shorter than a positive track gives a thumb longer than the track. |
| `Geometry.HorizontalThumbWithinTrack` | dimensions.js:71-81 | For the horizontal axis: 0 < thumb width <= track width, with equality exactly when the table width equals the track width. |
| `Geometry.VerticalThumbWithinTrack` | dimensions.js:75-86 | The same for the vertical axis, with table height and track height. |
| `Layout.Style` | Style.js:3-111 | `horizontalScrollMaxed` holds exactly when track width equals thumb width, and `verticalScrollMaxed` exactly when track height equals thumb height. Each bar is hidden exactly when its flag holds. Container and table heights agree and are the viewport height or the viewport height minus the gutter. Container width is the horizontal track width. Wrapper, table and fake-header widths are the table width. Track and handle boxes pass through. |
| `Layout.HeightGutterReclaimedIffHidden` | Style.js:23-91 | Container height plus the height of the horizontal bar, when visible, is the viewport height. The gutter is reclaimed exactly when that bar is hidden. |
| `Layout.WidthGutterAlwaysReserved` | Style.js:24 | For computed geometry, container width plus vertical track width is the viewport width, even when the vertical bar is hidden. |
| `Layout.HorizontalHiddenIff` | Style.js:4-6 | For computed geometry, the horizontal bar is hidden exactly when the track width (viewport width - 20) is 0 or equals the sum of the column sizes. The container is then the full viewport height, and otherwise the viewport height minus 20. |
| `Layout.VerticalHiddenIff` | Style.js:8-9 | For computed geometry, the vertical bar is hidden exactly when the track height (viewport height - 20) is 0 or equals header plus rows. |
| `Layout.NarrowTableKeepsBar` | Style.js:4-6 | A table narrower than the horizontal track leaves the horizontal bar shown, with a handle wider than its track. |
| `Gesture.CapturedOffset` | index.js:24-27 | The captured offset is the pointer's position relative to the handle's left and top at mousedown. |
| `Gesture.EventToDragInfo` | index.js:15-21 | No contract of its own: the record carries the action, the event's `clientX`/`clientY` and the given offset. `Emitted`, `GrabThenDrags` and `ActionsMatchEvents` state the records the stream builds with it. |
| `Gesture.Step` | index.js:23-49 | One event through `switchLatest(merge(drag, drop))`. A mouse move never changes the session. Any other event leaves a session active exactly when it is a mousedown. Every record is at the event's position. An event emits nothing exactly when it is a mouseleave or a move with no session. |
| `Gesture.Run` | index.js:42-49 | Emits one entry per event. `Emitted` gives each entry against the reference `Latest`. `DragHasSession`, `GrabThenDrags`, `LeaveSilences` and `UpDropsAndEnds` characterise whole runs. |
| `Gesture.FinalIsLatest` | index.js:42-49 | Folding the stream over the events from the front gives the session that the reference definition reads from the back: the last mousedown, unless a mouseleave or mouseup came after it. |
| `Gesture.Emitted` | index.js:23-49 | A mousedown emits GRAB at its position with no offset. A mouseup emits DROP at its position with no offset. A mouseleave emits nothing. A mousemove emits DRAG with the latest session's offset exactly when a session is active. |
| `Gesture.DragHasSession` | index.js:23-36 | Every emitted DRAG has an earlier mousedown, followed only by mouse moves, whose captured offset is the DRAG's offset. |
| `Gesture.GrabThenDrags` | index.js:23-36 | From any session, a running one included, a mousedown then mouse moves emit a GRAB with no offset. Then one DRAG per move follows, at that move's position, carrying `(clientX - offsetLeft, clientY - offsetTop)` of that mousedown. |
| `Gesture.IdleEmitsNoDrag` | index.js:29-34 | Without a mousedown, an idle stream emits no DRAG and stays idle. |
| `Gesture.LeaveSilences` | index.js:29-34 | A mouseleave emits nothing, and no DRAG follows until the next mousedown. |
| `Gesture.UpDropsAndEnds` | index.js:39-48 | A mouseup emits exactly one record, a DROP at its position. No DRAG follows until the next mousedown. |
| `Gesture.ActionsMatchEvents` | index.js:15-48 | GRAB comes exactly from a mousedown and DROP exactly from a mouseup. A record carries an offset exactly when it is a DRAG. |
| `DragScroll.ScrollDistance` | index.js:284-304 | A record without offset keeps the current `scrollLeft`. With an offset, the result lies in [0, table width - track width] when that range is non-empty. It equals the candidate `x - dx * track / table` when the candidate is inside the range. It is 0 or the (negative) maximum when the range is empty. |
| `DragScroll.ClampIsNearest` | index.js:298-304 | When the range is non-empty, the result is the point of [0, max] nearest to the candidate. |
| `DragScroll.Effect` | index.js:257-271 | The intended `handleDrag`, with no contract of its own. `OnlyDragScrolls` gives its effect per action. `DraggingFollowsButton` gives its mark over a whole run. `ScrollContainer.HandleDrag` is proved equal to it. |
| `DragScroll.AsWrittenEffect` | index.js:278-305 | `handleDrag` as written, with no contract of its own. `AsWrittenNeverMarks` shows it never touches the class. `AsWrittenMissesGrab` gives the counterexample. `AsWrittenScrollAgrees` shows it writes the same scroll as `Effect` for every emitted record. |
| `DragScroll.OnlyDragScrolls` | index.js:257-271 | With the intended handler, only DRAG changes `scrollLeft`. GRAB marks the handle as dragging, DROP unmarks it, and DRAG leaves the mark alone. |
| `DragScroll.AsWrittenNeverMarks` | index.js:278-305 | As written, the handler never changes the dragging class, whatever record arrives. |
| `DragScroll.AsWrittenMissesGrab` | index.js:278-305 | As written, a GRAB leaves an unmarked handle unmarked, where the intended handler marks it. |
| `DragScroll.AsWrittenScrollAgrees` | index.js:278-305 | For records the stream emits, the `scrollLeft` written as written equals the intended one. |
| `DragScroll.DraggingFollowsButton` | index.js:257-271 | Fed the drag stream's output, the intended handler leaves the handle marked exactly when the last mousedown or mouseup was a mousedown. A mouseleave does not unmark it. |
| `DragScroll.ScrollContainer.HandleDrag` | index.js:257-283 | With the intended handler, the new state is `Effect` of the old. GRAB sets the dragging flag and keeps `scrollLeft`. DROP clears it and keeps `scrollLeft`. DRAG keeps the flag and writes the mapped distance. |
| `FrameSync.RequestUpdate` | index.js:331-349 | `request*ScrollUpdate` as a function of the state, with no contract of its own. `ScrollKeepsCoalesced` and `BurstCoalesces` show it keeps at most one callback per axis. `RequestHorizontalScrollUpdate` and `RequestVerticalScrollUpdate` are proved equal to it. |
| `FrameSync.OnScroll` | index.js:317-329 | `on*Scroll`: record the offset, then request, with no contract of its own. `ScrollKeepsCoalesced` gives its effect on both axes. `BurstCoalesces` gives the effect of a sequence of them. |
| `FrameSync.Update` | index.js:351-381 | `update*Scroll`'s callback body, with no contract of its own. `FrameKeepsCoalesced` gives the handle position it writes. `ThumbStaysInTrack` bounds that position. The update methods are proved equal to it. |
| `FrameSync.RunFrame` | index.js:333-344 | The browser runs the oldest queued callback, with no contract of its own. `FrameKeepsCoalesced` shows it keeps the invariant, clears that axis's flag and leaves nothing pending on it. `RunNextFrame` is proved equal to it. |
| `FrameSync.ScrollKeepsCoalesced` | index.js:317-349 | A scroll event keeps the invariant. Afterwards exactly one callback for that axis is pending, its flag is set, the offset is recorded, the handle is unmoved, and the other axis's state and queue count are unchanged. |
| `FrameSync.FrameKeepsCoalesced` | index.js:351-381 | Running the oldest callback keeps the invariant and clears its axis's flag, leaving none pending on that axis. It moves that axis's handle to `track * (recorded offset / content)` and leaves the other handle alone. |
| `FrameSync.BurstCoalesces` | index.js:331-349 | Any burst of scroll events on one axis adds one callback exactly when none was pending and otherwise none. The flag ends set and the recorded offset is the last one. |
| `FrameSync.BurstThenFrame` | index.js:317-365 | From an idle widget, a burst of horizontal scrolls queues one callback. One frame then empties the queue, clears the flag and puts the handle at `track * (last offset / table width)`. |
| `FrameSync.ThumbStaysInTrack` | index.js:359-363 | A native offset in [0, table width - track width] places the handle so that its left edge and right edge lie within the track. |
| `FrameSync.HandleLagsPointer` | index.js:293-296 | Two unclamped DRAGs of one session place the handle `(x2 - x1) * track / table` apart, so the handle moves slower than the pointer. |
| `FrameSync.ScrollSync.constructor` | index.js:57-60 | Offsets start at 0, flags false, nothing pending. |
| `FrameSync.ScrollSync.RequestHorizontalScrollUpdate` | index.js:331-339 | The new state is `RequestUpdate` of the old: a horizontal callback is queued only if `_scrollingX` was false, then `_scrollingX` is set. The coalescing invariant is kept. |
| `FrameSync.ScrollSync.RequestVerticalScrollUpdate` | index.js:341-349 | The vertical counterpart, on `_scrollingY`, keeping the invariant. |
| `FrameSync.ScrollSync.OnHorizontalScroll` | index.js:317-322 | Records `scrollLeft` in `_scrollX` and keeps the invariant. Exactly one horizontal callback is then pending. The vertical state and both handles are unchanged. |
| `FrameSync.ScrollSync.OnVerticalScroll` | index.js:324-329 | The vertical counterpart with `scrollTop`. |
| `FrameSync.ScrollSync.UpdateHorizontalScroll` | index.js:351-365 | The new state is `Update` of the old for the horizontal axis: `_scrollingX` is cleared and the handle's left is `track width * (_scrollX / table width)`. Nothing else changes. |
| `FrameSync.ScrollSync.UpdateVerticalScroll` | index.js:367-381 | The new state is `Update` of the old for the vertical axis: `_scrollingY` is cleared and the handle's top is `track height * (_scrollY / table height)`. Nothing else changes. |
| `FrameSync.ScrollSync.RunNextFrame` | index.js:333-344 | The new state is `RunFrame` of the old: the oldest pending callback is removed and its update runs. The coalescing invariant is kept. |

## Findings

| source | as written | input that shows it | evidently intended | confidence | as-written member | corrected member |
|---|---|---|---|---|---|---|
| index.js:278-305 | `most.tap(handleDrag(...), most.map(dragInfo => distance, ...))` hands `handleDrag` the mapped number, not the drag record. Neither `action` test matches, so the dragging class is never added or removed. Every record, GRAB and DROP included, writes `scrollLeft`. | A GRAB record on an unmarked handle: the handle stays unmarked. | `handleDrag` sees the record. GRAB adds the class, DROP removes it, and only DRAG writes the mapped distance. | high; not executed | `DragScroll.AsWrittenEffect`, `DragScroll.AsWrittenMissesGrab`, `DragScroll.AsWrittenNeverMarks` | `DragScroll.Effect`, `DragScroll.OnlyDragScrolls`, `DragScroll.ScrollContainer.HandleDrag` |

The rest of the model (`ScrollContainer.HandleDrag`, `DraggingFollowsButton`)
uses the corrected handler. For every record the stream emits, the scroll writes
of the two handlers agree (`AsWrittenScrollAgrees`). The finding only affects the
dragging class.

## Left out

- `getRowDimensions` (dimensions.js:3-40, index.js:383-420) measures an
  off-screen probe in the DOM. The header and row heights it returns are
  parameters of `ComputeDimensions`.
- HyperHTML templating and CSS text are not modelled: `Table.js`, `Header.js`,
  `ColGroup.js`, `Body.js`, `FakeHeaders.js`, and the markup and inline
  stylesheet of `render`. The inline stylesheet of `render` always subtracts the
  gutter (index.js:137, 154) and never hides either custom scrollbar. Only the
  rules of `Style.js` are modelled.
- `Sidebar.js` is demo data and markup that import a `./drag` module; that
  module is not part of this model.
- MutationObserver wiring, the Promise and placeholder rendering,
  `most.runEffects` and its scheduler, and `preventDefault` are platform
  plumbing. The model starts from the events they deliver.
- `requestAnimationFrame` is a queue of pending callbacks. The browser runs them
  one at a time, oldest first (`RunNextFrame`). Frame timing is not modelled.
- `most.at(0, DROP)` emits its DROP on a later tick. The model emits it at the
  mouseup itself, so no event can fall between them.
- The drag record's `target` is always the one handle the stream was made for,
  so it is not carried. `classList` is a boolean.
- The browser's own clamping of an assigned `scrollLeft` is not modelled. The
  written value is stored as is.
- Only the horizontal handle is wired to drag-to-scroll in the source. The
  vertical handle has no drag path to model.
- `set data` re-renders, which recomputes the geometry by calling
  `ComputeDimensions` again. A callback queued before that keeps the geometry it
  was queued with, as the closure does.
- A column's `format` function is not modelled.
- `onHorizontalDrag` and the `console.log` calls are debugging stubs.
- The demo column configuration at the end of `index.js` is not modelled.
- Floating-point rounding is not modelled, and neither are the Infinity and NaN
  that a zero table width or height would produce. Pixels are exact reals, and
  every division requires a positive table extent.
