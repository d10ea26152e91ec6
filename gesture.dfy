/** The drag stream of a scrollbar handle (`makeDraggable`, `beginDrag`,
    `endDrag`, `eventToDragInfo` in index.js). The reactive composition
    `switchLatest(merge(map(beginDrag, mousedowns), map(endDrag, mouseups)))` is
    modelled as a state machine over the observed mouse events: each event yields
    at most one drag record, and the state is the offset captured by the session
    whose mouse moves are still being listened to, if any. */
module Gesture {

  datatype Option<T> = None | Some(value: T)

  /** `DROP`, `GRAB` and `DRAG`. */
  datatype Action = Drop | Grab | Drag

  /** The pointer's offset inside the handle, captured at mousedown. */
  datatype Offset = Offset(dx: real, dy: real)

  /** The record `eventToDragInfo` builds (the target is always the one handle
      this stream was made for, so it is not carried). */
  datatype DragInfo = DragInfo(action: Action, x: real, y: real, offset: Option<Offset>)

  /** The mouse events the stream listens to: mousedown on the handle (with the
      handle's `offsetLeft`/`offsetTop` at that moment), and mousemove, mouseleave
      and mouseup on the drag area. */
  datatype MouseEvent =
    | MouseDown(clientX: real, clientY: real, offsetLeft: real, offsetTop: real)
    | MouseMove(clientX: real, clientY: real)
    | MouseLeave(clientX: real, clientY: real)
    | MouseUp(clientX: real, clientY: real)

  /** `Idle`: no inner stream is forwarding mouse moves (none started yet, the last
      one was replaced by a mouseup, or its moves were cut off by a mouseleave).
      `Active`: mouse moves are turned into DRAG records with `offset`. */
  datatype Session = Idle | Active(offset: Offset)

  function EventToDragInfo(action: Action, e: MouseEvent, offset: Option<Offset>): (info: DragInfo)
  {
    DragInfo(action, e.clientX, e.clientY, offset)
  }

  /** The `dragOffset` `beginDrag` captures from a mousedown. */
  function CapturedOffset(e: MouseEvent): (o: Offset)
    requires e.MouseDown?
    ensures e.offsetLeft + o.dx == e.clientX && e.offsetTop + o.dy == e.clientY
  {
    Offset(e.clientX - e.offsetLeft, e.clientY - e.offsetTop)
  }

  /** One event through the stream: the new session and what is emitted. A mouse
      move never changes the session; any other event leaves a session exactly
      when it is a mousedown. Every record is at the event's position, and an
      event emits nothing exactly when it is a mouseleave or a move outside a
      session. */
  function Step(s: Session, e: MouseEvent): (r: (Session, Option<DragInfo>))
    ensures e.MouseMove? ==> r.0 == s
    ensures !e.MouseMove? ==> (r.0.Active? <==> e.MouseDown?)
    ensures r.1.Some? ==> r.1.value.x == e.clientX && r.1.value.y == e.clientY
    ensures r.1.None? <==> e.MouseLeave? || (e.MouseMove? && s.Idle?)
  {
    match e
    case MouseDown(_, _, _, _) =>
      // beginDrag: a new inner stream replaces the current one; GRAB comes first
      (Active(CapturedOffset(e)), Some(EventToDragInfo(Grab, e, None)))
    case MouseUp(_, _) =>
      // endDrag: the inner stream is replaced by one that emits a single DROP
      (Idle, Some(EventToDragInfo(Drop, e, None)))
    case MouseLeave(_, _) =>
      // `until(mouseleaves, mousemoves)` ends; nothing is emitted
      (Idle, None)
    case MouseMove(_, _) =>
      if s.Active? then (s, Some(EventToDragInfo(Drag, e, Some(s.offset)))) else (s, None)
  }

  /** The session after a sequence of events, folding `Step` from the front. */
  function Final(s: Session, es: seq<MouseEvent>): (t: Session)
    decreases es
  {
    if es == [] then s else Final(Step(s, es[0]).0, es[1..])
  }

  /** What the stream emits for each event of `es`, in order. */
  function Run(s: Session, es: seq<MouseEvent>): (out: seq<Option<DragInfo>>)
    ensures |out| == |es|
    decreases es
  {
    if es == [] then [] else [Step(s, es[0]).1] + Run(Step(s, es[0]).0, es[1..])
  }

  /** Reference definition, read from the back: a session is active after `es`
      exactly when the last mousedown in `es` has no mouseleave or mouseup after
      it, and its offset is the one that mousedown captured. */
  function Latest(es: seq<MouseEvent>): (t: Session)
  {
    if es == [] then Idle
    else
      var e := es[|es| - 1];
      match e
      case MouseDown(_, _, _, _) => Active(CapturedOffset(e))
      case MouseMove(_, _) => Latest(es[..|es| - 1])
      case MouseLeave(_, _) => Idle
      case MouseUp(_, _) => Idle
  }

  lemma {:induction false} FinalSnoc(s: Session, es: seq<MouseEvent>, e: MouseEvent)
    ensures Final(s, es + [e]) == Step(Final(s, es), e).0
    decreases es
  {
    if es != [] {
      assert (es + [e])[1..] == es[1..] + [e];
      FinalSnoc(Step(s, es[0]).0, es[1..], e);
    }
  }

  /** Folding the stream from the front agrees with the reference definition. */
  lemma {:induction false} FinalIsLatest(es: seq<MouseEvent>)
    ensures Final(Idle, es) == Latest(es)
  {
    if es != [] {
      var init := es[..|es| - 1];
      assert es == init + [es[|es| - 1]];
      FinalSnoc(Idle, init, es[|es| - 1]);
      FinalIsLatest(init);
    }
  }

  lemma {:induction false} RunAt(s: Session, es: seq<MouseEvent>, i: nat)
    requires i < |es|
    ensures Run(s, es)[i] == Step(Final(s, es[..i]), es[i]).1
    decreases es
  {
    if i > 0 {
      assert es[1..][..i - 1] == es[1..i];
      assert es[..i][1..] == es[1..i];
      RunAt(Step(s, es[0]).0, es[1..], i - 1);
    }
  }

  /** The whole output of the stream, event by event: a mousedown emits GRAB
      without offset, a mouseup emits DROP without offset, a mouseleave emits
      nothing, and a mousemove emits DRAG with the offset of the latest mousedown
      exactly when no mouseleave or mouseup came after that mousedown. */
  lemma Emitted(es: seq<MouseEvent>, i: nat)
    requires i < |es|
    ensures var out := Run(Idle, es)[i];
      var e := es[i];
      && (e.MouseDown? ==> out == Some(DragInfo(Grab, e.clientX, e.clientY, None)))
      && (e.MouseUp? ==> out == Some(DragInfo(Drop, e.clientX, e.clientY, None)))
      && (e.MouseLeave? ==> out == None)
      && (e.MouseMove? ==>
            out == match Latest(es[..i])
                   case Active(o) => Some(DragInfo(Drag, e.clientX, e.clientY, Some(o)))
                   case Idle => None)
  {
    RunAt(Idle, es, i);
    FinalIsLatest(es[..i]);
  }

  lemma {:induction false} LatestWitness(es: seq<MouseEvent>) returns (j: nat)
    requires Latest(es).Active?
    ensures j < |es| && es[j].MouseDown?
    ensures Latest(es).offset == CapturedOffset(es[j])
    ensures forall k :: j < k < |es| ==> es[k].MouseMove?
  {
    var init := es[..|es| - 1];
    if es[|es| - 1].MouseDown? {
      j := |es| - 1;
    } else {
      j := LatestWitness(init);
      assert forall k :: j < k < |es| - 1 ==> es[k] == init[k];
    }
  }

  /** Every DRAG the stream emits belongs to a session: some earlier mousedown,
      followed only by mouse moves, captured exactly the offset the DRAG carries. */
  lemma {:induction false} DragHasSession(es: seq<MouseEvent>, i: nat)
    requires i < |es|
    requires Run(Idle, es)[i].Some? && Run(Idle, es)[i].value.action == Drag
    ensures exists j ::
              && 0 <= j < i
              && es[j].MouseDown?
              && Run(Idle, es)[i].value.offset == Some(CapturedOffset(es[j]))
              && (forall k :: j < k < i ==> es[k].MouseMove?)
  {
    Emitted(es, i);
    var j := LatestWitness(es[..i]);
    assert es[j] == es[..i][j];
  }

  predicate Moves(es: seq<MouseEvent>)
  {
    forall k :: 0 <= k < |es| ==> es[k].MouseMove?
  }

  predicate NoMouseDown(es: seq<MouseEvent>)
  {
    forall k :: 0 <= k < |es| ==> !es[k].MouseDown?
  }

  predicate NoDrag(out: seq<Option<DragInfo>>)
  {
    forall k :: 0 <= k < |out| ==> out[k].None? || out[k].value.action != Drag
  }

  /** A mousedown, from any session (a running one included), emits a GRAB with no
      offset first, and every following mouse move emits a DRAG at its own position
      that carries the offset captured at that mousedown. */
  lemma {:induction false} GrabThenDrags(s: Session, down: MouseEvent, moves: seq<MouseEvent>)
    requires down.MouseDown?
    requires Moves(moves)
    ensures var out := Run(s, [down] + moves);
      && out[0] == Some(DragInfo(Grab, down.clientX, down.clientY, None))
      && forall k :: 0 <= k < |moves| ==>
           out[k + 1] == Some(DragInfo(Drag, moves[k].clientX, moves[k].clientY,
                                       Some(Offset(down.clientX - down.offsetLeft,
                                                   down.clientY - down.offsetTop))))
  {
    assert ([down] + moves)[1..] == moves;
    DragsKeepOffset(CapturedOffset(down), moves);
  }

  lemma {:induction false} DragsKeepOffset(o: Offset, moves: seq<MouseEvent>)
    requires Moves(moves)
    ensures var out := Run(Active(o), moves);
      forall k :: 0 <= k < |moves| ==>
        out[k] == Some(DragInfo(Drag, moves[k].clientX, moves[k].clientY, Some(o)))
  {
    if moves != [] {
      DragsKeepOffset(o, moves[1..]);
    }
  }

  /** While no mousedown arrives, an idle stream emits no DRAG. */
  lemma {:induction false} IdleEmitsNoDrag(es: seq<MouseEvent>)
    requires NoMouseDown(es)
    ensures NoDrag(Run(Idle, es))
    ensures Final(Idle, es) == Idle
  {
    if es != [] {
      IdleEmitsNoDrag(es[1..]);
    }
  }

  /** A mouseleave emits nothing and ends the session: no DRAG follows until the
      next mousedown. */
  lemma LeaveSilences(s: Session, leave: MouseEvent, rest: seq<MouseEvent>)
    requires leave.MouseLeave?
    requires NoMouseDown(rest)
    ensures var out := Run(s, [leave] + rest);
      out[0] == None && NoDrag(out)
  {
    assert ([leave] + rest)[1..] == rest;
    IdleEmitsNoDrag(rest);
  }

  /** A mouseup emits exactly one record, a DROP at its position, and replaces the
      session: no DRAG follows until the next mousedown. */
  lemma UpDropsAndEnds(s: Session, up: MouseEvent, rest: seq<MouseEvent>)
    requires up.MouseUp?
    requires NoMouseDown(rest)
    ensures var out := Run(s, [up] + rest);
      out[0] == Some(DragInfo(Drop, up.clientX, up.clientY, None)) && NoDrag(out)
  {
    assert ([up] + rest)[1..] == rest;
    IdleEmitsNoDrag(rest);
  }

  /** Only mousedown yields GRAB and only mouseup yields DROP; a DRAG always carries
      an offset and the other two never do. */
  lemma ActionsMatchEvents(s: Session, e: MouseEvent)
    ensures var out := Step(s, e).1;
      && (out.Some? && out.value.action == Grab <==> e.MouseDown?)
      && (out.Some? && out.value.action == Drop <==> e.MouseUp?)
      && (out.Some? ==> (out.value.offset.Some? <==> out.value.action == Drag))
  {
  }
}
