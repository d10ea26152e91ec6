/** Drag-to-scroll for the horizontal handle (`handleScrolling` in index.js):
    every drag record is mapped to a scroll distance (a clamp), and a handler
    toggles the handle's dragging class and writes the container's `scrollLeft`.

    As written, the handler is tapped onto the stream of distances, so it is
    handed the distance and not the drag record; `AsWrittenEffect` models that,
    and `Effect` / `ScrollContainer.HandleDrag` model the evidently intended
    handler that sees the record. */
module DragScroll {
  import opened Geometry
  import opened Gesture

  /** `dimensions.table.width - dimensions.scrollBar.horizontal.width`. */
  function MaxScroll(d: Dimensions): (m: real)
  {
    d.table.width - d.scrollBar.horizontal.width
  }

  /** The unclamped distance `x - dx * (trackWidth / tableWidth)`. */
  function Candidate(info: DragInfo, d: Dimensions): (c: real)
    requires info.offset.Some?
    requires d.table.width > 0.0
  {
    info.x - info.offset.value.dx * (d.scrollBar.horizontal.width / d.table.width)
  }

  function Dist(a: real, b: real): (r: real)
  {
    if a <= b then b - a else a - b
  }

  /** The `most.map` step: a record without offset (GRAB, DROP) keeps the current
      `scrollLeft`; a record with one asks for the candidate distance clamped
      below at 0 and then above at `MaxScroll`. */
  function ScrollDistance(info: DragInfo, scrollLeft: real, d: Dimensions): (r: real)
    requires d.table.width > 0.0
    ensures info.offset.None? ==> r == scrollLeft
    ensures info.offset.Some? && MaxScroll(d) >= 0.0 ==> 0.0 <= r <= MaxScroll(d)
    ensures info.offset.Some? && 0.0 <= Candidate(info, d) <= MaxScroll(d) ==> r == Candidate(info, d)
    ensures info.offset.Some? && MaxScroll(d) < 0.0 ==> r == 0.0 || r == MaxScroll(d)
  {
    if info.offset.None? then scrollLeft
    else
      var distance := Candidate(info, d);
      if distance < 0.0 then 0.0
      else if distance > MaxScroll(d) then MaxScroll(d)
      else distance
  }

  /** When the content is at least as wide as the track, the distance of a record
      with an offset is the point of [0, MaxScroll] nearest to the candidate. */
  lemma ClampIsNearest(info: DragInfo, scrollLeft: real, d: Dimensions)
    requires d.table.width > 0.0 && info.offset.Some?
    requires MaxScroll(d) >= 0.0
    ensures var r := ScrollDistance(info, scrollLeft, d);
      forall y :: 0.0 <= y <= MaxScroll(d) ==>
        Dist(r, Candidate(info, d)) <= Dist(y, Candidate(info, d))
  {
  }

  /** The state `handleDrag` touches: the container's native horizontal scroll
      offset and whether the handle has the dragging class. */
  datatype View = View(scrollLeft: real, dragging: bool)

  /** The handler as evidently intended: GRAB adds the class, DROP removes it,
      neither writes the scroll; any other record writes the mapped distance. */
  function Effect(v: View, info: DragInfo, d: Dimensions): (w: View)
    requires d.table.width > 0.0
  {
    match info.action
    case Grab => View(v.scrollLeft, true)
    case Drop => View(v.scrollLeft, false)
    case Drag => View(ScrollDistance(info, v.scrollLeft, d), v.dragging)
  }

  /** The handler as written: tapped onto the stream of distances, it receives a
      number, whose `action` matches neither GRAB nor DROP, so it always assigns the
      distance to `scrollLeft` and never touches the class. */
  function AsWrittenEffect(v: View, info: DragInfo, d: Dimensions): (w: View)
    requires d.table.width > 0.0
  {
    var distance := ScrollDistance(info, v.scrollLeft, d);
    View(distance, v.dragging)
  }

  /** Only DRAG records write the scroll offset; GRAB marks the handle as dragged,
      DROP unmarks it, and DRAG leaves the mark alone. */
  lemma OnlyDragScrolls(v: View, info: DragInfo, d: Dimensions)
    requires d.table.width > 0.0
    ensures var w := Effect(v, info, d);
      && (w.scrollLeft != v.scrollLeft ==> info.action == Drag)
      && (info.action == Grab ==> w.dragging)
      && (info.action == Drop ==> !w.dragging)
      && (info.action == Drag ==> w.dragging == v.dragging)
  {
  }

  /** As written, the dragging class never changes, whatever record arrives. */
  lemma AsWrittenNeverMarks(v: View, info: DragInfo, d: Dimensions)
    requires d.table.width > 0.0
    ensures AsWrittenEffect(v, info, d).dragging == v.dragging
  {
  }

  /** The input that shows the discrepancy: a GRAB on an unmarked handle leaves it
      unmarked as written, where the intended handler marks it. */
  lemma AsWrittenMissesGrab(d: Dimensions)
    requires d.table.width > 0.0
    ensures var v := View(0.0, false);
      var grab := DragInfo(Grab, 5.0, 5.0, None);
      !AsWrittenEffect(v, grab, d).dragging && Effect(v, grab, d).dragging
  {
  }

  /** For every record the stream can emit (an offset exactly on DRAG), the scroll
      offset written as written equals the intended one: GRAB and DROP write back
      the value just read. Only the dragging class differs. */
  lemma AsWrittenScrollAgrees(v: View, info: DragInfo, d: Dimensions)
    requires d.table.width > 0.0
    requires info.offset.Some? <==> info.action == Drag
    ensures AsWrittenEffect(v, info, d).scrollLeft == Effect(v, info, d).scrollLeft
  {
  }

  /** The handler folded over what the drag stream emitted. */
  function ApplyAll(v: View, out: seq<Option<DragInfo>>, d: Dimensions): (w: View)
    requires d.table.width > 0.0
    decreases out
  {
    if out == [] then v
    else ApplyAll(if out[0].Some? then Effect(v, out[0].value, d) else v, out[1..], d)
  }

  /** Reference: whether the mouse button is down, by mousedowns and mouseups only. */
  function ButtonHeld(held: bool, es: seq<MouseEvent>): (b: bool)
    decreases es
  {
    if es == [] then held
    else ButtonHeld(if es[0].MouseDown? then true else if es[0].MouseUp? then false else held, es[1..])
  }

  /** Through the drag stream, the handle is marked exactly while the button is
      held: a mouseleave ends the session but does not remove the mark. */
  lemma {:induction false} DraggingFollowsButton(v: View, s: Session, es: seq<MouseEvent>, d: Dimensions)
    requires d.table.width > 0.0
    ensures ApplyAll(v, Run(s, es), d).dragging == ButtonHeld(v.dragging, es)
    decreases es
  {
    if es != [] {
      var out := Step(s, es[0]).1;
      var w := if out.Some? then Effect(v, out.value, d) else v;
      assert Run(s, es)[1..] == Run(Step(s, es[0]).0, es[1..]);
      DraggingFollowsButton(w, Step(s, es[0]).0, es[1..], d);
    }
  }

  /** The handle's native scroll container and its dragging class. */
  class ScrollContainer {
    var scrollLeft: real
    var dragging: bool

    constructor (scrollLeft: real)
      ensures this.scrollLeft == scrollLeft && !dragging
    {
      this.scrollLeft := scrollLeft;
      dragging := false;
    }

    function State(): (v: View)
      reads this
    {
      View(scrollLeft, dragging)
    }

    /** One drag record through the map step and the intended handler. */
    method HandleDrag(info: DragInfo, d: Dimensions)
      requires d.table.width > 0.0
      modifies this
      ensures State() == Effect(old(State()), info, d)
      ensures info.action == Grab ==> dragging && scrollLeft == old(scrollLeft)
      ensures info.action == Drop ==> !dragging && scrollLeft == old(scrollLeft)
      ensures info.action == Drag ==>
        dragging == old(dragging) && scrollLeft == ScrollDistance(info, old(scrollLeft), d)
    {
      var distance := ScrollDistance(info, scrollLeft, d);
      if info.action == Grab {
        dragging := true;
        return;
      }
      if info.action == Drop {
        dragging := false;
        return;
      }
      scrollLeft := distance;
    }
  }
}
