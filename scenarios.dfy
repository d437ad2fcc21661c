/**
 * Concrete event sequences whose outcomes the verifier derives from the
 * contracts alone: a container 1000 pixels high holding a 300-pixel panel
 * (rest range 700) and a touch slop of 8.
 */
module FloatingDragScenarios {
  import opened KotlinInt
  import opened FloatingDrag

  /**
   * A finger drag that lifts the panel off to offset 500 settles hidden at 700
   * (500 >= 350); one that ends at offset 200 settles shown at 0.
   */
  method DragThenRelease() returns (hiddenTarget: Int32, shownTarget: Int32)
    ensures hiddenTarget == 700 && shownTarget == 0
  {
    var layout := new FloatingDragLayout(1000, Some(300), 8);
    var touch := new FloatingLayoutTouchListener(layout);
    var handled := touch.OnTouch(ActionDown, 900, 0.0);
    handled := touch.OnTouch(ActionMove, 900 - 500, 0.0);
    assert layout.scrollY == 500;
    handled := touch.OnTouch(ActionUp, 400, 0.0);
    hiddenTarget := layout.scroller.finalY;

    layout := new FloatingDragLayout(1000, Some(300), 8);
    touch := new FloatingLayoutTouchListener(layout);
    handled := touch.OnTouch(ActionDown, 900, 0.0);
    handled := touch.OnTouch(ActionMove, 900 - 200, 0.0);
    assert layout.scrollY == 200;
    handled := touch.OnTouch(ActionUp, 700, 0.0);
    shownTarget := layout.scroller.finalY;
  }

  /**
   * A tap: the finger moves less than the slop, the offset stays at 0, and the
   * release still starts a settle, to offset 0.
   */
  method TapStillSettles() returns (offset: Int32, ghost settles: nat, target: Int32)
    ensures offset == 0 && settles == 1 && target == 0
  {
    var layout := new FloatingDragLayout(1000, Some(300), 8);
    var touch := new FloatingLayoutTouchListener(layout);
    var handled := touch.OnTouch(ActionDown, 500, 0.0);
    handled := touch.OnTouch(ActionMove, 503, 0.0);
    handled := touch.OnTouch(ActionMove, 497, 0.0);
    handled := touch.OnTouch(ActionUp, 497, 0.0);
    offset := layout.scrollY;
    settles := layout.settleCount;
    target := layout.scroller.finalY;
  }

  /**
   * Before the child has reported unconsumed motion, a pre-scroll of 5 is left
   * to the child: nothing is reported consumed and the offset stays at 0.
   */
  method PreScrollWaitsForChild() returns (taken: Int32, offset: Int32)
    ensures taken == 0 && offset == 0
  {
    var layout := new FloatingDragLayout(1000, Some(300), 8);
    var accepted := layout.OnStartNestedScroll(ScrollAxisVertical, TypeTouch);
    var consumed := new Int32[2](_ => 0);
    layout.OnNestedPreScroll(0, 5, consumed, TypeTouch);
    taken := consumed[1];
    offset := layout.scrollY;
  }

  /**
   * Once the child reports 12 pixels it could not consume, the next pre-scroll
   * of 5 is taken whole and moves the offset by 5.
   */
  method ChildOverscrollHandsOff() returns (taken: Int32, offset: Int32)
    ensures taken == 5 && offset == 5
  {
    var layout := new FloatingDragLayout(1000, Some(300), 8);
    var accepted := layout.OnStartNestedScroll(ScrollAxisVertical, TypeTouch);
    layout.OnNestedScroll(0, 0, 0, 12, TypeTouch);
    var consumed := new Int32[2](_ => 0);
    layout.OnNestedPreScroll(0, 5, consumed, TypeTouch);
    taken := consumed[1];
    offset := layout.scrollY;
  }

  /**
   * The stop of a touch-driven sequence without a fling starts one settle; the
   * stop of the non-touch (fling) phase does not.
   */
  method TouchStopSettles() returns (ghost touchSettles: nat, ghost flingSettles: nat, target: Int32)
    ensures touchSettles == 1 && flingSettles == 0 && target == 0
  {
    var layout := new FloatingDragLayout(1000, Some(300), 8);
    var accepted := layout.OnStartNestedScroll(ScrollAxisVertical, TypeTouch);
    layout.OnStopNestedScroll(TypeTouch);
    touchSettles := layout.settleCount;
    target := layout.scroller.finalY;

    layout := new FloatingDragLayout(1000, Some(300), 8);
    accepted := layout.OnStartNestedScroll(ScrollAxisVertical, TypeNonTouch);
    layout.OnStopNestedScroll(TypeNonTouch);
    flingSettles := layout.settleCount;
  }

  /**
   * A fling after the child ran out of room settles at the pre-fling and is
   * left to the child; the touch stop that follows does not settle again and
   * clears the flag.
   */
  method FlingSettlesOnce() returns (handled: bool, ghost settles: nat, flingFlag: bool)
    ensures !handled && settles == 1 && !flingFlag
  {
    var layout := new FloatingDragLayout(1000, Some(300), 8);
    var accepted := layout.OnStartNestedScroll(ScrollAxisVertical, TypeTouch);
    layout.OnNestedScroll(0, 0, 0, -40, TypeTouch);
    handled := layout.OnNestedPreFling(0.0, -3000.0);
    layout.OnStopNestedScroll(TypeTouch);
    settles := layout.settleCount;
    flingFlag := layout.targetHasFling;
  }

  /**
   * A second settle replaces the first: released at 500 the panel heads for 700;
   * one frame later, at 600, the finger comes down at row 400, drags the panel
   * to 200 and releases again, and the last frame lands on 0, the second target.
   */
  method SecondSettleWins() returns (offset: Int32)
    ensures offset == 0
  {
    var layout := new FloatingDragLayout(1000, Some(300), 8);
    var touch := new FloatingLayoutTouchListener(layout);
    var handled := touch.OnTouch(ActionDown, 900, 0.0);
    handled := touch.OnTouch(ActionMove, 400, 0.0);
    handled := touch.OnTouch(ActionUp, 400, 0.0);
    var redraw := layout.ComputeScroll(false, 600);
    handled := touch.OnTouch(ActionDown, 400, 0.0);
    handled := touch.OnTouch(ActionMove, 800, 0.0);
    handled := touch.OnTouch(ActionUp, 800, 0.0);
    redraw := layout.ComputeScroll(true, 0);
    offset := layout.scrollY;
  }

  /**
   * Without a panel the hidden edge is the container height. Such a layout has
   * no touch listener, so the offset comes from a nested scroll: after the child
   * reports unconsumed motion, a pre-scroll of 600 is taken, and the touch stop
   * settles from 600 of 1000 to 1000.
   */
  method MissingPanelSettlesAtHeight() returns (offset: Int32, target: Int32)
    ensures offset == 600 && target == 1000
  {
    var layout := new FloatingDragLayout(1000, None, 8);
    var accepted := layout.OnStartNestedScroll(ScrollAxisVertical, TypeTouch);
    layout.OnNestedScroll(0, 0, 0, 12, TypeTouch);
    var consumed := new Int32[2](_ => 0);
    layout.OnNestedPreScroll(0, 600, consumed, TypeTouch);
    offset := layout.scrollY;
    layout.OnStopNestedScroll(TypeTouch);
    target := layout.scroller.finalY;
  }

  /** A horizontal-only nested scroll, or a non-touch one, is declined. */
  method OnlyVerticalTouchScrollsAccepted() returns (horizontal: bool, nonTouch: bool, vertical: bool)
    ensures !horizontal && !nonTouch && vertical
  {
    var layout := new FloatingDragLayout(1000, Some(300), 8);
    horizontal := layout.OnStartNestedScroll(ScrollAxisHorizontal, TypeTouch);
    nonTouch := layout.OnStartNestedScroll(ScrollAxisVertical, TypeNonTouch);
    vertical := layout.OnStartNestedScroll(ScrollAxisHorizontal | ScrollAxisVertical, TypeTouch);
  }

  /**
   * A cancelled drag: the panel was dragged to 500, and ACTION_CANCEL leaves it
   * there with no settle started, since only DOWN, MOVE and UP are handled.
   */
  method CancelLeavesPanelUnsettled() returns (offset: Int32, ghost settles: nat, idle: bool)
    ensures offset == 500 && settles == 0 && idle
  {
    var layout := new FloatingDragLayout(1000, Some(300), 8);
    var touch := new FloatingLayoutTouchListener(layout);
    var handled := touch.OnTouch(ActionDown, 900, 0.0);
    handled := touch.OnTouch(ActionMove, 400, 0.0);
    handled := touch.OnTouch(ActionCancel, 400, 0.0);
    offset := layout.scrollY;
    settles := layout.settleCount;
    idle := layout.scroller.finished;
  }
}
