/** Native scroll to handle position, throttled to one animation frame per axis
    (`onHorizontalScroll`, `onVerticalScroll`, `request*ScrollUpdate` and
    `update*Scroll` in index.js). The platform's animation-frame queue is a
    sequence of pending callbacks, each bound to its axis and to the geometry of
    the render that scheduled it. `SyncState` and its functions are the
    specification; `ScrollSync` is the object whose fields the handlers update. */
module FrameSync {
  import opened Geometry
  import opened Gesture
  import opened DragScroll

  datatype Axis = Horizontal | Vertical

  /** `update*Scroll(dimensions)`, waiting in the animation-frame queue. */
  datatype FrameCallback = FrameCallback(axis: Axis, dims: Dimensions)

  /** The instance fields `_scrollX`, `_scrollingX`, `_scrollY`, `_scrollingY`, the
      animation-frame queue, and the handles' `style.left` / `style.top`. */
  datatype SyncState = SyncState(
    scrollX: real,
    scrollingX: bool,
    scrollY: real,
    scrollingY: bool,
    frames: seq<FrameCallback>,
    handleLeft: real,
    handleTop: real)

  /** How many callbacks for `axis` wait in `frames`. */
  function Pending(frames: seq<FrameCallback>, axis: Axis): (n: nat)
  {
    if frames == [] then 0
    else (if frames[0].axis == axis then 1 else 0) + Pending(frames[1..], axis)
  }

  function Scrolling(s: SyncState, axis: Axis): (b: bool)
  {
    if axis == Horizontal then s.scrollingX else s.scrollingY
  }

  function Recorded(s: SyncState, axis: Axis): (r: real)
  {
    if axis == Horizontal then s.scrollX else s.scrollY
  }

  function Handle(s: SyncState, axis: Axis): (h: real)
  {
    if axis == Horizontal then s.handleLeft else s.handleTop
  }

  /** The geometry a callback divides by has positive content extents. */
  predicate Drawable(d: Dimensions)
  {
    d.table.width > 0.0 && d.table.height > 0.0
  }

  /** The coalescing invariant: per axis, at most one callback waits, and one waits
      exactly when that axis's `_scrolling` flag is set. */
  predicate Coalesced(s: SyncState)
  {
    && Pending(s.frames, Horizontal) == (if s.scrollingX then 1 else 0)
    && Pending(s.frames, Vertical) == (if s.scrollingY then 1 else 0)
    && forall k :: 0 <= k < |s.frames| ==> Drawable(s.frames[k].dims)
  }

  /** `track * (position / content)`: where the frame callback puts the handle. */
  function ThumbOffset(track: real, position: real, content: real): (p: real)
    requires content != 0.0
  {
    track * (position / content)
  }

  const Initial: SyncState := SyncState(0.0, false, 0.0, false, [], 0.0, 0.0)

  /** `request*ScrollUpdate`: queue a callback unless one is already pending, then
      raise the flag. */
  function RequestUpdate(s: SyncState, axis: Axis, d: Dimensions): (t: SyncState)
  {
    var frames := if Scrolling(s, axis) then s.frames else s.frames + [FrameCallback(axis, d)];
    if axis == Horizontal then s.(frames := frames, scrollingX := true)
    else s.(frames := frames, scrollingY := true)
  }

  /** `on*Scroll`: record the native offset, then request an update. */
  function OnScroll(s: SyncState, axis: Axis, d: Dimensions, offset: real): (t: SyncState)
  {
    var recorded := if axis == Horizontal then s.(scrollX := offset) else s.(scrollY := offset);
    RequestUpdate(recorded, axis, d)
  }

  /** `update*Scroll(dimensions)`, the callback body: clear the axis's flag and
      move that axis's handle to `track * (recorded offset / content)`. */
  function Update(s: SyncState, axis: Axis, d: Dimensions): (t: SyncState)
    requires Drawable(d)
  {
    if axis == Horizontal then
      s.(scrollingX := false,
         handleLeft := ThumbOffset(d.scrollBar.horizontal.width, s.scrollX, d.table.width))
    else
      s.(scrollingY := false,
         handleTop := ThumbOffset(d.scrollBar.vertical.height, s.scrollY, d.table.height))
  }

  /** The browser takes the oldest pending callback off the queue and runs it. */
  function RunFrame(s: SyncState): (t: SyncState)
    requires s.frames != [] && Drawable(s.frames[0].dims)
  {
    Update(s.(frames := s.frames[1..]), s.frames[0].axis, s.frames[0].dims)
  }

  /** A burst of native scroll events on one axis, none of them followed by a frame. */
  function Burst(s: SyncState, axis: Axis, d: Dimensions, offsets: seq<real>): (t: SyncState)
    decreases offsets
  {
    if offsets == [] then s else Burst(OnScroll(s, axis, d, offsets[0]), axis, d, offsets[1..])
  }

  lemma {:induction false} PendingAppend(frames: seq<FrameCallback>, cb: FrameCallback, axis: Axis)
    ensures Pending(frames + [cb], axis) == Pending(frames, axis) + (if cb.axis == axis then 1 else 0)
  {
    if frames != [] {
      assert (frames + [cb])[1..] == frames[1..] + [cb];
      PendingAppend(frames[1..], cb, axis);
    }
  }

  function Other(axis: Axis): (o: Axis)
  {
    if axis == Horizontal then Vertical else Horizontal
  }

  /** A native scroll event keeps the invariant: afterwards exactly one callback for
      that axis is pending, its flag is set, the offset is recorded, and the other
      axis is untouched. */
  lemma ScrollKeepsCoalesced(s: SyncState, axis: Axis, d: Dimensions, offset: real)
    requires Coalesced(s) && Drawable(d)
    ensures var t := OnScroll(s, axis, d, offset);
      && Coalesced(t)
      && Pending(t.frames, axis) == 1 && Scrolling(t, axis)
      && Recorded(t, axis) == offset
      && Handle(t, axis) == Handle(s, axis)
      && Pending(t.frames, Other(axis)) == Pending(s.frames, Other(axis))
      && Scrolling(t, Other(axis)) == Scrolling(s, Other(axis))
      && Recorded(t, Other(axis)) == Recorded(s, Other(axis))
      && Handle(t, Other(axis)) == Handle(s, Other(axis))
  {
    var cb := FrameCallback(axis, d);
    PendingAppend(s.frames, cb, Horizontal);
    PendingAppend(s.frames, cb, Vertical);
  }

  /** Running a callback keeps the invariant: its axis's flag is cleared, nothing is
      pending for that axis any more, and the handle is placed from the offset
      recorded last, not the one current when the callback was queued. */
  lemma FrameKeepsCoalesced(s: SyncState)
    requires Coalesced(s) && s.frames != []
    ensures var axis := s.frames[0].axis;
      var d := s.frames[0].dims;
      var t := RunFrame(s);
      && Coalesced(t)
      && !Scrolling(t, axis) && Pending(t.frames, axis) == 0
      && Recorded(t, axis) == Recorded(s, axis)
      && (axis == Horizontal ==>
            t.handleLeft == ThumbOffset(d.scrollBar.horizontal.width, s.scrollX, d.table.width)
            && t.handleTop == s.handleTop)
      && (axis == Vertical ==>
            t.handleTop == ThumbOffset(d.scrollBar.vertical.height, s.scrollY, d.table.height)
            && t.handleLeft == s.handleLeft)
  {
    assert Drawable(s.frames[0].dims);
    var t := RunFrame(s);
    assert forall k :: 0 <= k < |t.frames| ==> t.frames[k] == s.frames[k + 1];
  }

  /** Any burst of scroll events on one axis queues at most one callback: the queue
      grows by one callback exactly when none was pending before, the flag is set,
      and the recorded offset is the last one (last write wins). */
  lemma {:induction false} BurstCoalesces(s: SyncState, axis: Axis, d: Dimensions, offsets: seq<real>)
    requires Coalesced(s) && Drawable(d)
    requires offsets != []
    ensures var t := Burst(s, axis, d, offsets);
      && Coalesced(t)
      && t.frames == s.frames + (if Scrolling(s, axis) then [] else [FrameCallback(axis, d)])
      && Scrolling(t, axis)
      && Recorded(t, axis) == offsets[|offsets| - 1]
      && Handle(t, axis) == Handle(s, axis)
    decreases offsets
  {
    var s1 := OnScroll(s, axis, d, offsets[0]);
    ScrollKeepsCoalesced(s, axis, d, offsets[0]);
    if |offsets| > 1 {
      BurstCoalesces(s1, axis, d, offsets[1..]);
      assert offsets[1..][|offsets[1..]| - 1] == offsets[|offsets| - 1];
    }
  }

  /** From an idle widget, a burst of horizontal scroll events followed by one frame
      produces exactly one handle write, from the last offset, and leaves nothing
      pending. */
  lemma BurstThenFrame(s: SyncState, d: Dimensions, offsets: seq<real>)
    requires Coalesced(s) && Drawable(d)
    requires s.frames == [] && offsets != []
    ensures var t := Burst(s, Horizontal, d, offsets);
      && t.frames == [FrameCallback(Horizontal, d)]
      && var u := RunFrame(t);
         && u.frames == [] && !u.scrollingX
         && u.handleLeft == ThumbOffset(d.scrollBar.horizontal.width, offsets[|offsets| - 1], d.table.width)
  {
    BurstCoalesces(s, Horizontal, d, offsets);
  }

  /** For a native offset in [0, content - track] the handle stays inside its track:
      its offset and its far edge lie within [0, track]. */
  lemma ThumbStaysInTrack(d: Dimensions, x: real)
    requires Proportional(d)
    requires 0.0 < d.scrollBar.horizontal.width
    requires 0.0 <= x <= d.table.width - d.scrollBar.horizontal.width
    ensures var left := ThumbOffset(d.scrollBar.horizontal.width, x, d.table.width);
      0.0 <= left && left + d.scroller.horizontal.width <= d.scrollBar.horizontal.width
  {
    var track, content, thumb := d.scrollBar.horizontal.width, d.table.width, d.scroller.horizontal.width;
    var left := ThumbOffset(track, x, content);
    assert left * content == track * x;
    SignOfFactor(x, track);
    SignOfFactor(left, content);
    assert (track - left - thumb) * content == track * (content - x - track);
    SignOfFactor(content - x - track, track);
    SignOfFactor(track - left - thumb, content);
  }

  /** Dragging moves the handle by trackWidth / tableWidth of the pointer's travel:
      two DRAG records of one session whose distances need no clamping place the
      handle `(x2 - x1) * track / content` apart after the frame. */
  lemma HandleLagsPointer(d: Dimensions, o: Offset, x1: real, x2: real, y: real, scrollLeft: real)
    requires d.table.width > 0.0
    requires var i1 := DragInfo(Drag, x1, y, Some(o));
      0.0 <= Candidate(i1, d) <= MaxScroll(d)
    requires var i2 := DragInfo(Drag, x2, y, Some(o));
      0.0 <= Candidate(i2, d) <= MaxScroll(d)
    ensures var track, content := d.scrollBar.horizontal.width, d.table.width;
      var p1 := ThumbOffset(track, ScrollDistance(DragInfo(Drag, x1, y, Some(o)), scrollLeft, d), content);
      var p2 := ThumbOffset(track, ScrollDistance(DragInfo(Drag, x2, y, Some(o)), scrollLeft, d), content);
      p2 - p1 == (x2 - x1) * (track / content)
  {
  }

  /** The table instance's scroll bookkeeping together with the frame queue and the
      handles it positions. */
  class ScrollSync {
    var scrollX: real
    var scrollingX: bool
    var scrollY: real
    var scrollingY: bool
    var frames: seq<FrameCallback>
    var handleLeft: real
    var handleTop: real

    function State(): (s: SyncState)
      reads this
    {
      SyncState(scrollX, scrollingX, scrollY, scrollingY, frames, handleLeft, handleTop)
    }

    ghost predicate Valid()
      reads this
    {
      Coalesced(State())
    }

    constructor ()
      ensures Valid() && State() == Initial
    {
      scrollX, scrollingX := 0.0, false;
      scrollY, scrollingY := 0.0, false;
      frames := [];
      handleLeft, handleTop := 0.0, 0.0;
    }

    method RequestHorizontalScrollUpdate(d: Dimensions)
      requires Valid() && Drawable(d)
      modifies this
      ensures Valid() && State() == RequestUpdate(old(State()), Horizontal, d)
    {
      PendingAppend(frames, FrameCallback(Horizontal, d), Horizontal);
      PendingAppend(frames, FrameCallback(Horizontal, d), Vertical);
      if !scrollingX {
        frames := frames + [FrameCallback(Horizontal, d)];
      }
      scrollingX := true;
    }

    method RequestVerticalScrollUpdate(d: Dimensions)
      requires Valid() && Drawable(d)
      modifies this
      ensures Valid() && State() == RequestUpdate(old(State()), Vertical, d)
    {
      PendingAppend(frames, FrameCallback(Vertical, d), Horizontal);
      PendingAppend(frames, FrameCallback(Vertical, d), Vertical);
      if !scrollingY {
        frames := frames + [FrameCallback(Vertical, d)];
      }
      scrollingY := true;
    }

    /** A native scroll event on the horizontal container, at `scrollLeft`. */
    method OnHorizontalScroll(d: Dimensions, scrollLeft: real)
      requires Valid() && Drawable(d)
      modifies this
      ensures Valid() && State() == OnScroll(old(State()), Horizontal, d, scrollLeft)
      ensures scrollX == scrollLeft && scrollingX
      ensures Pending(frames, Horizontal) == 1
      ensures scrollY == old(scrollY) && scrollingY == old(scrollingY)
      ensures handleLeft == old(handleLeft) && handleTop == old(handleTop)
    {
      ScrollKeepsCoalesced(State(), Horizontal, d, scrollLeft);
      scrollX := scrollLeft;
      RequestHorizontalScrollUpdate(d);
    }

    /** A native scroll event on the vertical container, at `scrollTop`. */
    method OnVerticalScroll(d: Dimensions, scrollTop: real)
      requires Valid() && Drawable(d)
      modifies this
      ensures Valid() && State() == OnScroll(old(State()), Vertical, d, scrollTop)
      ensures scrollY == scrollTop && scrollingY
      ensures Pending(frames, Vertical) == 1
      ensures scrollX == old(scrollX) && scrollingX == old(scrollingX)
      ensures handleLeft == old(handleLeft) && handleTop == old(handleTop)
    {
      ScrollKeepsCoalesced(State(), Vertical, d, scrollTop);
      scrollY := scrollTop;
      RequestVerticalScrollUpdate(d);
    }

    /** The body of the callback `updateHorizontalScroll(dimensions)` returns. */
    method UpdateHorizontalScroll(d: Dimensions)
      requires Drawable(d)
      modifies this
      ensures State() == Update(old(State()), Horizontal, d)
      ensures !scrollingX
      ensures handleLeft == ThumbOffset(d.scrollBar.horizontal.width, scrollX, d.table.width)
    {
      scrollingX := false;
      var currentPos := scrollX;
      var ratio := currentPos / d.table.width;
      handleLeft := d.scrollBar.horizontal.width * ratio;
    }

    /** The body of the callback `updateVerticalScroll(dimensions)` returns. */
    method UpdateVerticalScroll(d: Dimensions)
      requires Drawable(d)
      modifies this
      ensures State() == Update(old(State()), Vertical, d)
      ensures !scrollingY
      ensures handleTop == ThumbOffset(d.scrollBar.vertical.height, scrollY, d.table.height)
    {
      scrollingY := false;
      var currentPos := scrollY;
      var ratio := currentPos / d.table.height;
      handleTop := d.scrollBar.vertical.height * ratio;
    }

    /** The browser takes the oldest pending callback off the queue and runs it. */
    method RunNextFrame()
      requires Valid() && frames != []
      modifies this
      ensures Valid() && State() == RunFrame(old(State()))
    {
      FrameKeepsCoalesced(State());
      var cb := frames[0];
      frames := frames[1..];
      if cb.axis == Horizontal {
        UpdateHorizontalScroll(cb.dims);
      } else {
        UpdateVerticalScroll(cb.dims);
      }
    }
  }
}
