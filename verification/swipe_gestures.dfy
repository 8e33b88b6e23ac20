/**
  The swipe gesture hook of an item row: a press records where the pointer started, a horizontal
  move drags the row by the clamped horizontal distance, and a release fires the swipe action
  when the row was dragged far enough, then resets. The two callbacks the hook is given become
  the action a release returns. Pointer coordinates are whole pixels.
*/
module Swipe {
  import opened Common

  datatype Point = Point(x: int, y: int)

  /** Which callback a release fires: `onSwipeLeft` or `onSwipeRight`. */
  datatype Action = SwipeLeft | SwipeRight

  datatype Gesture = Gesture(touchStart: Option<Point>, dragOffset: int, isDragging: bool)

  /** A pointer event: touch or mouse, press, move or release. */
  datatype Event =
    | TouchStart(p: Point) | TouchMove(p: Point) | TouchEnd
    | MouseDown(p: Point) | MouseMove(p: Point) | MouseUp

  /** How far a row may be dragged either way. */
  const MaxDrag: int := 120
  /** The default of `minSwipeDistance`. */
  const DefaultMinSwipeDistance: int := 80

  const Resting := Gesture(None, 0, false)

  function Abs(r: int): (a: int)
    ensures a >= 0 && (a == r || a == -r)
  {
    if r < 0 then -r else r
  }

  predicate InDragRange(offset: int)
  {
    -MaxDrag <= offset <= MaxDrag
  }

  /** `Math.max(-maxDrag, Math.min(maxDrag, deltaX))`. */
  function Clamped(dx: int): (r: int)
    ensures InDragRange(r)
    ensures InDragRange(dx) ==> r == dx
    ensures dx > MaxDrag ==> r == MaxDrag
    ensures dx < -MaxDrag ==> r == -MaxDrag
  {
    var limited := if MaxDrag < dx then MaxDrag else dx;
    if -MaxDrag > limited then -MaxDrag else limited
  }

  /** `handleTouchStart` and `handleMouseDown`. */
  function Started(g: Gesture, p: Point): Gesture
  {
    g.(touchStart := Some(p), isDragging := true)
  }

  /**
    `handleTouchMove` (`needsDragging` false) and `handleMouseMove` (`needsDragging` true): a move
    with a start point, and for the mouse while dragging, that is more horizontal than vertical
    sets the offset to the clamped horizontal distance from the start.
  */
  function Moved(g: Gesture, p: Point, needsDragging: bool): Gesture
  {
    if g.touchStart.None? || (needsDragging && !g.isDragging) then g
    else
      var deltaX := p.x - g.touchStart.value.x;
      var deltaY := p.y - g.touchStart.value.y;
      if Abs(deltaX) > Abs(deltaY) then g.(dragOffset := Clamped(deltaX)) else g
  }

  /** The callback a release fires for an offset: none unless it is beyond `minSwipeDistance`. */
  function ReleaseAction(offset: int, minSwipeDistance: int): Option<Action>
  {
    if Abs(offset) > minSwipeDistance then Some(if offset > 0 then SwipeRight else SwipeLeft) else None
  }

  /** `handleTouchEnd` and `handleMouseUp`: without a start point nothing happens. */
  function Released(g: Gesture, minSwipeDistance: int): (Gesture, Option<Action>)
  {
    if g.touchStart.None? then (g, None)
    else (Resting, ReleaseAction(g.dragOffset, minSwipeDistance))
  }

  function Step(g: Gesture, e: Event, minSwipeDistance: int): (Gesture, Option<Action>)
  {
    match e
    case TouchStart(p) => (Started(g, p), None)
    case MouseDown(p) => (Started(g, p), None)
    case TouchMove(p) => (Moved(g, p, false), None)
    case MouseMove(p) => (Moved(g, p, true), None)
    case TouchEnd => Released(g, minSwipeDistance)
    case MouseUp => Released(g, minSwipeDistance)
  }

  /** The gesture after a sequence of events, with the actions fired in order. */
  function Run(g: Gesture, events: seq<Event>, minSwipeDistance: int): (Gesture, seq<Action>)
    decreases |events|
  {
    if events == [] then (g, [])
    else
      var (g1, fired) := Step(g, events[0], minSwipeDistance);
      var (g2, rest) := Run(g1, events[1..], minSwipeDistance);
      (g2, (if fired.Some? then [fired.value] else []) + rest)
  }

  /** `getActionIcon`. */
  function ActionIcon(offset: int): Option<string>
  {
    if Abs(offset) < 20 then None else Some(if offset > 0 then "+1" else "-1")
  }

  /** `showBackground`. */
  predicate ShowBackground(offset: int)
  {
    Abs(offset) > 10
  }

  // ---------------------------------------------------------------------------
  // Properties
  // ---------------------------------------------------------------------------

  /** A press records the start point and starts dragging, and leaves the offset alone. */
  lemma StartKeepsOffset(g: Gesture, p: Point)
    ensures Started(g, p).touchStart == Some(p) && Started(g, p).isDragging
    ensures Started(g, p).dragOffset == g.dragOffset
  {
  }

  /**
    A move either leaves the gesture unchanged or sets the offset to the clamped horizontal
    distance from the start point; the latter exactly when it has a start point (and, for the
    mouse, is dragging) and is more horizontal than vertical.
  */
  lemma MoveDragsHorizontally(g: Gesture, p: Point, needsDragging: bool)
    ensures var r := Moved(g, p, needsDragging);
      var moves := g.touchStart.Some? && (!needsDragging || g.isDragging)
                   && Abs(p.x - g.touchStart.value.x) > Abs(p.y - g.touchStart.value.y);
      (moves ==> r == g.(dragOffset := Clamped(p.x - g.touchStart.value.x)))
      && (!moves ==> r == g)
      && (InDragRange(g.dragOffset) ==> InDragRange(r.dragOffset))
  {
  }

  /**
    A release with a start point fires exactly one callback exactly when the offset is beyond
    `minSwipeDistance`, to the right for a positive offset and to the left otherwise, and resets
    the gesture; a release without one changes nothing and fires nothing.
  */
  lemma ReleaseFiresBeyondMinimum(g: Gesture, minSwipeDistance: int)
    ensures var (r, fired) := Released(g, minSwipeDistance);
      (g.touchStart.Some? ==> r == Resting && r.touchStart.None? && r.dragOffset == 0 && !r.isDragging)
      && (g.touchStart.None? ==> r == g && fired.None?)
      && (fired.Some? <==> g.touchStart.Some? && Abs(g.dragOffset) > minSwipeDistance)
      && (fired == Some(SwipeRight) <==> g.touchStart.Some? && Abs(g.dragOffset) > minSwipeDistance && g.dragOffset > 0)
      && (fired == Some(SwipeLeft) <==> g.touchStart.Some? && Abs(g.dragOffset) > minSwipeDistance && g.dragOffset <= 0)
  {
  }

  /** Every event keeps the offset within the drag range. */
  lemma StepKeepsDragRange(g: Gesture, e: Event, minSwipeDistance: int)
    requires InDragRange(g.dragOffset)
    ensures InDragRange(Step(g, e, minSwipeDistance).0.dragOffset)
  {
    if e.TouchMove? || e.MouseMove? {
      MoveDragsHorizontally(g, e.p, e.MouseMove?);
    }
  }

  /** Any sequence of events keeps the offset within the drag range. */
  lemma {:induction false} RunKeepsDragRange(g: Gesture, events: seq<Event>, minSwipeDistance: int)
    requires InDragRange(g.dragOffset)
    ensures InDragRange(Run(g, events, minSwipeDistance).0.dragOffset)
    decreases |events|
  {
    if events != [] {
      StepKeepsDragRange(g, events[0], minSwipeDistance);
      RunKeepsDragRange(Step(g, events[0], minSwipeDistance).0, events[1..], minSwipeDistance);
    }
  }

  /**
    Because of the clamp, a `minSwipeDistance` of at least the drag range means no sequence of
    events starting at rest can ever fire a swipe.
  */
  lemma {:induction false} LongMinimumNeverFires(g: Gesture, events: seq<Event>, minSwipeDistance: int)
    requires InDragRange(g.dragOffset) && minSwipeDistance >= MaxDrag
    ensures Run(g, events, minSwipeDistance).1 == []
    decreases |events|
  {
    if events != [] {
      var (g1, fired) := Step(g, events[0], minSwipeDistance);
      assert fired.None?;
      StepKeepsDragRange(g, events[0], minSwipeDistance);
      LongMinimumNeverFires(g1, events[1..], minSwipeDistance);
    }
  }

  /** A drag that reaches the clamp fires a swipe under the default minimum, in the drag's direction. */
  lemma FullDragFiresUnderDefault(start: Point, end: Point)
    requires end.x - start.x > MaxDrag && end.x - start.x > Abs(end.y - start.y)
    ensures Run(Resting, [TouchStart(start), TouchMove(end), TouchEnd], DefaultMinSwipeDistance)
            == (Resting, [SwipeRight])
  {
    var events := [TouchStart(start), TouchMove(end), TouchEnd];
    var g1 := Started(Resting, start);
    var g2 := g1.(dragOffset := MaxDrag);
    assert Moved(g1, end, false) == g2;
    assert Released(g2, DefaultMinSwipeDistance) == (Resting, Some(SwipeRight));
    assert events[1..][1..] == [TouchEnd];
    assert [TouchEnd][1..] == [];
    assert Run(Resting, [], DefaultMinSwipeDistance) == (Resting, []);
    assert [SwipeRight] + [] == [SwipeRight];
    assert Run(g2, [TouchEnd], DefaultMinSwipeDistance) == (Resting, [SwipeRight]);
    assert [] + [SwipeRight] == [SwipeRight];
    assert Run(g1, events[1..], DefaultMinSwipeDistance) == (Resting, [SwipeRight]);
  }

  /** The icon appears only for offsets of at least 20, shows the drag's direction, and never without the background. */
  lemma IconFollowsDirection(offset: int)
    ensures ActionIcon(offset) == Some("+1") <==> offset >= 20
    ensures ActionIcon(offset) == Some("-1") <==> offset <= -20
    ensures ActionIcon(offset).None? <==> -20 < offset < 20
    ensures ActionIcon(offset).Some? ==> ShowBackground(offset)
  {
  }

  /** The background shows exactly for offsets beyond 10 either way, so at rest it is hidden. */
  lemma BackgroundBeyondTen(offset: int)
    ensures ShowBackground(offset) <==> offset > 10 || offset < -10
    ensures !ShowBackground(Resting.dragOffset) && ActionIcon(Resting.dragOffset).None?
  {
  }

  // ---------------------------------------------------------------------------
  // The hook as a class
  // ---------------------------------------------------------------------------

  class SwipeGestures {
    var touchStart: Option<Point>
    var dragOffset: int
    var isDragging: bool
    const minSwipeDistance: int

    function View(): Gesture
      reads this
    {
      Gesture(touchStart, dragOffset, isDragging)
    }

    constructor (minSwipeDistance: int)
      ensures View() == Resting && this.minSwipeDistance == minSwipeDistance
    {
      this.minSwipeDistance := minSwipeDistance;
      touchStart := None;
      dragOffset := 0;
      isDragging := false;
    }

    method HandleTouchStart(p: Point)
      modifies this
      ensures View() == Started(old(View()), p)
    {
      touchStart := Some(p);
      isDragging := true;
    }

    method HandleMouseDown(p: Point)
      modifies this
      ensures View() == Started(old(View()), p)
    {
      touchStart := Some(p);
      isDragging := true;
    }

    method HandleTouchMove(p: Point)
      modifies this
      ensures View() == Moved(old(View()), p, false)
    {
      if touchStart.None? {
        return;
      }
      var deltaX := p.x - touchStart.value.x;
      var deltaY := p.y - touchStart.value.y;
      if Abs(deltaX) > Abs(deltaY) {
        dragOffset := Clamped(deltaX);
      }
    }

    method HandleMouseMove(p: Point)
      modifies this
      ensures View() == Moved(old(View()), p, true)
    {
      if touchStart.None? || !isDragging {
        return;
      }
      var deltaX := p.x - touchStart.value.x;
      var deltaY := p.y - touchStart.value.y;
      if Abs(deltaX) > Abs(deltaY) {
        dragOffset := Clamped(deltaX);
      }
    }

    /** `handleTouchEnd`; `handleMouseUp` does the same. The fired callback is returned. */
    method HandleTouchEnd() returns (fired: Option<Action>)
      modifies this
      ensures (View(), fired) == Released(old(View()), minSwipeDistance)
    {
      fired := None;
      if touchStart.None? {
        return;
      }
      if Abs(dragOffset) > minSwipeDistance {
        if dragOffset > 0 {
          fired := Some(SwipeRight);
        } else {
          fired := Some(SwipeLeft);
        }
      }
      dragOffset := 0;
      isDragging := false;
      touchStart := None;
    }

    method HandleMouseUp() returns (fired: Option<Action>)
      modifies this
      ensures (View(), fired) == Released(old(View()), minSwipeDistance)
    {
      fired := HandleTouchEnd();
    }

    /** `getActionIcon` for the current offset. */
    function GetActionIcon(): (icon: Option<string>)
      reads this
      ensures icon.Some? ==> ShowBackground(dragOffset)
      ensures icon == Some("+1") <==> dragOffset >= 20
      ensures icon == Some("-1") <==> dragOffset <= -20
    {
      IconFollowsDirection(dragOffset);
      ActionIcon(dragOffset)
    }
  }
}
