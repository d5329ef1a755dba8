/**
  The before/after comparison slider: a divider over two stacked images that the user drags with
  the mouse or a finger. Coordinates are real numbers; the container is described by its left edge
  and its width, measured afresh at each event, and its width is positive.
*/
module Slider {

  function Max(a: real, b: real): real { if a >= b then a else b }

  function Min(a: real, b: real): real { if a <= b then a else b }

  /**
    Where a pointer at `clientX` puts the divider, in percent of the container's width:
    `Math.max(0, Math.min(100, (clientX - left) / width * 100))`.
  */
  function PositionFor(clientX: real, left: real, width: real): (p: real)
    requires width > 0.0
    ensures 0.0 <= p <= 100.0
    ensures clientX <= left ==> p == 0.0
    ensures clientX >= left + width ==> p == 100.0
  {
    Max(0.0, Min(100.0, (clientX - left) / width * 100.0))
  }

  /** Inside the container the divider follows the pointer exactly, in percent of the width. */
  lemma PositionInside(clientX: real, left: real, width: real)
    requires width > 0.0 && left <= clientX <= left + width
    ensures PositionFor(clientX, left, width) * width == (clientX - left) * 100.0
  {
    var x := clientX - left;
    assert 0.0 <= x / width * 100.0 <= 100.0 by {
      assert x / width <= 1.0;
    }
  }

  /** Moving the pointer right never moves the divider left. */
  lemma PositionMonotone(x1: real, x2: real, left: real, width: real)
    requires width > 0.0 && x1 <= x2
    ensures PositionFor(x1, left, width) <= PositionFor(x2, left, width)
  {
    assert (x1 - left) / width <= (x2 - left) / width;
  }

  /** A press a quarter of the way across puts the divider at 25. */
  lemma QuarterWay(left: real, width: real)
    requires width > 0.0
    ensures PositionFor(left + width * 0.25, left, width) == 25.0
  {
    assert (left + width * 0.25 - left) / width == 0.25;
  }

  /**
    How far in from the right the "after" image is clipped: `inset(0 {100 - position}% 0 0)`.
    The handle is drawn at `left: {position}%`, so it sits exactly where the clip ends.
  */
  function ClipInset(position: real): (inset: real)
    requires 0.0 <= position <= 100.0
    ensures 0.0 <= inset <= 100.0
    ensures inset + position == 100.0
  {
    100.0 - position
  }

  /** The container's DOM events, each with the horizontal coordinate it carries (for touches, the first touch's). */
  datatype PointerEvent =
    | MouseDown(clientX: real)
    | MouseMove(clientX: real)
    | MouseUp
    | MouseLeave
    | TouchStart(clientX: real)
    | TouchMove(clientX: real)
    | TouchEnd
    | TouchCancel

  /** Which handler an event reaches. */
  datatype Handler = Start | Move | End

  function HandlerOf(e: PointerEvent): Handler {
    match e
    case MouseDown(_) => Start
    case TouchStart(_) => Start
    case MouseMove(_) => Move
    case TouchMove(_) => Move
    case MouseUp => End
    case MouseLeave => End
    case TouchEnd => End
    case TouchCancel => End
  }

  /** Pressing, moving, releasing and leaving, for mouse and touch alike, reach the three handlers. */
  lemma EventRouting(e: PointerEvent)
    ensures HandlerOf(e) == Start <==> e.MouseDown? || e.TouchStart?
    ensures HandlerOf(e) == Move <==> e.MouseMove? || e.TouchMove?
    ensures HandlerOf(e) == End <==> e.MouseUp? || e.MouseLeave? || e.TouchEnd? || e.TouchCancel?
  {
  }

  /**
    A fresh slider: a stray move before any press is ignored, a press a quarter of the way across
    moves the divider there, releasing keeps it, and a move after the release is ignored again.
  */
  method DragScenario(left: real, width: real) returns (afterStrayMove: real, afterPress: real,
                                                       afterRelease: real, afterLateMove: real)
    requires width > 0.0
    ensures afterStrayMove == 50.0
    ensures afterPress == 25.0
    ensures afterRelease == 25.0 && afterLateMove == 25.0
  {
    var slider := new BeforeAfterSlider();
    slider.Dispatch(MouseMove(left + width), left, width);
    afterStrayMove := slider.position;
    QuarterWay(left, width);
    slider.Dispatch(MouseDown(left + width * 0.25), left, width);
    afterPress := slider.position;
    slider.Dispatch(MouseLeave, left, width);
    afterRelease := slider.position;
    slider.Dispatch(TouchMove(left), left, width);
    afterLateMove := slider.position;
  }

  class BeforeAfterSlider {
    /** The divider's position, in percent of the container's width. */
    var position: real
    var isDragging: bool

    ghost predicate Valid()
      reads this
    {
      0.0 <= position <= 100.0
    }

    /** The slider mounts with the divider in the middle and no drag in progress. */
    constructor ()
      ensures Valid()
      ensures position == 50.0 && !isDragging
    {
      position := 50.0;
      isDragging := false;
    }

    /** A press moves the divider to the pointer at once, so a bare click moves it, and starts a drag. */
    method HandleStart(clientX: real, left: real, width: real)
      requires Valid() && width > 0.0
      modifies this
      ensures Valid()
      ensures position == PositionFor(clientX, left, width)
      ensures isDragging
    {
      position := PositionFor(clientX, left, width);
      isDragging := true;
    }

    /** A move follows the pointer during a drag and is ignored otherwise. */
    method HandleMove(clientX: real, left: real, width: real)
      requires Valid() && width > 0.0
      modifies this`position
      ensures Valid()
      ensures position == if old(isDragging) then PositionFor(clientX, left, width) else old(position)
      ensures isDragging == old(isDragging)
    {
      if !isDragging {
        return;
      }
      position := PositionFor(clientX, left, width);
    }

    /** Releasing, cancelling or leaving ends the drag and leaves the divider where it is. */
    method HandleEnd()
      requires Valid()
      modifies this`isDragging
      ensures Valid()
      ensures !isDragging && position == old(position)
    {
      isDragging := false;
    }

    /** One DOM event on the container, with the container's geometry at that moment. */
    method Dispatch(e: PointerEvent, left: real, width: real)
      requires Valid() && width > 0.0
      modifies this
      ensures Valid()
      ensures HandlerOf(e) == Start ==> position == PositionFor(e.clientX, left, width) && isDragging
      ensures HandlerOf(e) == Move ==>
        isDragging == old(isDragging) &&
        position == if old(isDragging) then PositionFor(e.clientX, left, width) else old(position)
      ensures HandlerOf(e) == End ==> !isDragging && position == old(position)
    {
      match e
      case MouseDown(x) => HandleStart(x, left, width);
      case TouchStart(x) => HandleStart(x, left, width);
      case MouseMove(x) => HandleMove(x, left, width);
      case TouchMove(x) => HandleMove(x, left, width);
      case MouseUp => HandleEnd();
      case MouseLeave => HandleEnd();
      case TouchEnd => HandleEnd();
      case TouchCancel => HandleEnd();
    }
  }

}
