/**
 * The drag and settle state machine of `FloatingDragLayout`: a container whose
 * vertical scroll offset (`scrollY`) slides a floating panel between shown
 * (offset 0) and hidden (offset `height - panelHeight`). The offset is driven by
 * nested-scroll callbacks from a scrollable descendant and by direct touch on the
 * panel; when a gesture ends the layout starts a settle toward the nearer edge.
 *
 * Android plumbing (inflation, measure, layout, logging, the velocity tracker and
 * the Scroller's easing) is outside the model; the Scroller is the record
 * `Scroller` below and the frame it interpolates is an input of `ComputeScroll`.
 */
module FloatingDrag {
  import opened KotlinInt

  datatype Option<T> = None | Some(value: T)

  /** `ViewCompat.TYPE_TOUCH` and `ViewCompat.TYPE_NON_TOUCH`. */
  const TypeTouch: Int32 := 0
  const TypeNonTouch: Int32 := 1

  /** `ViewCompat.SCROLL_AXIS_HORIZONTAL` and `ViewCompat.SCROLL_AXIS_VERTICAL`. */
  const ScrollAxisHorizontal: bv32 := 1
  const ScrollAxisVertical: bv32 := 2

  /** `MotionEvent.ACTION_DOWN`, `ACTION_UP`, `ACTION_MOVE`, `ACTION_CANCEL`. */
  const ActionDown: Int32 := 0
  const ActionUp: Int32 := 1
  const ActionMove: Int32 := 2
  const ActionCancel: Int32 := 3

  /**
   * The vertical state of an `android.widget.Scroller`: where the current scroll
   * started, the delta it was given, where it ends, and whether it is over.
   */
  datatype Scroller = Scroller(startY: Int32, deltaY: Int32, finalY: Int32, finished: bool)

  /** A fresh `Scroller`: nothing in flight. */
  const IdleScroller: Scroller := Scroller(0, 0, 0, true)

  /**
   * `Scroller.startScroll(0, startY, 0, dy)`: a scroll in flight from `startY`
   * whose end point is `startY + dy` in `Int` arithmetic, so that the distance
   * from start to end is `dy` again.
   */
  function StartScroll(startY: Int32, dy: Int32): (s: Scroller)
    ensures s.startY == startY && s.deltaY == dy && !s.finished
    ensures Sub(s.finalY, startY) == dy
  {
    Scroller(startY, dy, Add(startY, dy), false)
  }

  /** Height of the floating panel, or 0 when the layout has none. */
  function FloatingLayoutHeight(floatingLayout: Option<Int32>): (h: Int32)
    ensures floatingLayout == None ==> h == 0
    ensures floatingLayout.Some? ==> h == floatingLayout.value
  {
    match floatingLayout
    case None => 0
    case Some(panelHeight) => panelHeight
  }

  /**
   * The resting offset `onDragEnd` aims at from `scrollY`, where `rest` is
   * `height - panelHeight`: hidden at or past the (truncated) midpoint, shown before it.
   */
  function SettleTarget(scrollY: Int32, rest: Int32): (t: Int32)
    ensures t == 0 || t == rest
  {
    if scrollY >= Half(rest) then rest else 0
  }

  function Dist(a: int, b: int): nat {
    if a <= b then b - a else a - b
  }

  /**
   * For a non-negative rest range the settle goes to one of the two edges, by the
   * midpoint rule, and to the nearer one up to a pixel: with an even range it is
   * always a nearest edge; with an odd range the offset just below the middle
   * goes to the far edge, one pixel farther away.
   */
  lemma SettleTargetIsNearerEdge(scrollY: Int32, rest: Int32)
    requires rest >= 0
    ensures var t := SettleTarget(scrollY, rest);
      && (t == 0 || t == rest)
      && (scrollY < rest / 2 ==> t == 0)
      && (scrollY >= rest / 2 ==> t == rest)
      && Dist(scrollY, t) <= Dist(scrollY, rest - t) + 1
      && (rest % 2 == 0 ==> Dist(scrollY, t) <= Dist(scrollY, rest - t))
  {
    HalfOfNonNegative(rest);
  }

  /** The one-pixel case: with a rest range of 7, offset 3 settles at 7 although 0 is nearer. */
  lemma OddRestRangeFavoursHiding()
    ensures SettleTarget(3, 7) == 7 && Dist(3, 7) > Dist(3, 0)
  {
  }

  /**
   * Settling is idempotent: a gesture that ends where the previous settle
   * landed settles there again, for every non-negative rest range but 1.
   */
  lemma SettleTargetIsIdempotent(scrollY: Int32, rest: Int32)
    requires rest >= 0 && rest != 1
    ensures SettleTarget(SettleTarget(scrollY, rest), rest) == SettleTarget(scrollY, rest)
  {
    HalfOfNonNegative(rest);
  }

  /**
   * With a rest range of 1 the truncated midpoint is 0, so the shown edge itself
   * counts as past the midpoint: a panel that settled shown is hidden by the next
   * release that does not move it.
   */
  lemma RestRangeOneIsNotIdempotent()
    ensures SettleTarget(-5, 1) == 0 && SettleTarget(0, 1) == 1
  {
  }

  /**
   * Without a panel the rest range is the whole height, so the hidden edge is
   * `height` itself and a settle still goes to 0 or to `height`.
   */
  lemma MissingPanelHidesAtHeight(height: Int32, scrollY: Int32)
    ensures Sub(height, FloatingLayoutHeight(None)) == height
    ensures var t := SettleTarget(scrollY, Sub(height, FloatingLayoutHeight(None)));
      t == 0 || t == height
  {
  }

  /**
   * One ACTION_MOVE sample at finger row `y` against the previous accepted row
   * `lastMoveY`: returns the new `(scrollY, lastMoveY)`. A move shorter than the
   * touch slop changes nothing; a longer one adopts `y` and scrolls by the
   * negated finger delta, so the sum of offset and finger row is kept.
   */
  function MoveStep(scrollY: Int32, lastMoveY: Int32, y: Int32, touchSlop: Int32): (r: (Int32, Int32))
    ensures Abs(Sub(y, lastMoveY)) < touchSlop ==> r == (scrollY, lastMoveY)
    ensures Abs(Sub(y, lastMoveY)) >= touchSlop ==> r.1 == y
    ensures Add(r.0, r.1) == Add(scrollY, lastMoveY)
  {
    var dy := Sub(y, lastMoveY);
    if Abs(dy) >= touchSlop then
      MoveKeepsFingerSum(scrollY, lastMoveY, y);
      (Sub(scrollY, dy), y)
    else
      (scrollY, lastMoveY)
  }

  /** Scrolling by `-(y - lastMoveY)` and moving the finger to `y` keeps `scrollY + lastMoveY`. */
  lemma MoveKeepsFingerSum(scrollY: Int32, lastMoveY: Int32, y: Int32)
    ensures Add(Sub(scrollY, Sub(y, lastMoveY)), y) == Add(scrollY, lastMoveY)
  {
  }

  /** Away from overflow, an accepted move changes the offset by exactly `-(y - lastMoveY)`. */
  lemma AcceptedMoveScrollsByNegatedDelta(scrollY: Int32, lastMoveY: Int32, y: Int32, touchSlop: Int32)
    requires Abs(Sub(y, lastMoveY)) >= touchSlop
    requires MinValue <= y - lastMoveY <= MaxValue
    requires MinValue <= scrollY - (y - lastMoveY) <= MaxValue
    ensures MoveStep(scrollY, lastMoveY, y, touchSlop) == (scrollY - (y - lastMoveY), y)
  {
  }

  /**
   * A run of ACTION_MOVE samples `ys`, fed one at a time from `(scrollY, lastMoveY)`.
   * The reference row afterwards is the starting row or one of the samples.
   */
  function Moves(scrollY: Int32, lastMoveY: Int32, ys: seq<Int32>, touchSlop: Int32): (r: (Int32, Int32))
    ensures r.1 == lastMoveY || r.1 in ys
    decreases |ys|
  {
    if |ys| == 0 then (scrollY, lastMoveY)
    else
      var next := MoveStep(scrollY, lastMoveY, ys[0], touchSlop);
      Moves(next.0, next.1, ys[1..], touchSlop)
  }

  /**
   * Over any run of moves the offset tracks the finger: `scrollY + lastMoveY` is
   * the same afterwards, so the offset is the starting offset plus the distance
   * from the last accepted row back to where the run began.
   */
  lemma {:induction false} MovesTrackFinger(scrollY: Int32, lastMoveY: Int32, ys: seq<Int32>, touchSlop: Int32)
    ensures var r := Moves(scrollY, lastMoveY, ys, touchSlop);
      Add(r.0, r.1) == Add(scrollY, lastMoveY)
    decreases |ys|
  {
    if |ys| > 0 {
      var next := MoveStep(scrollY, lastMoveY, ys[0], touchSlop);
      MovesTrackFinger(next.0, next.1, ys[1..], touchSlop);
    }
  }

  /**
   * Jitter: if every sample stays within the slop of the last accepted row, no
   * sample is accepted, the offset never moves and the reference row is kept,
   * so slow motion is measured against the old row until it adds up to the slop.
   */
  lemma {:induction false} JitterBelowSlopIsIgnored(scrollY: Int32, lastMoveY: Int32, ys: seq<Int32>, touchSlop: Int32)
    requires forall i :: 0 <= i < |ys| ==> Abs(Sub(ys[i], lastMoveY)) < touchSlop
    ensures Moves(scrollY, lastMoveY, ys, touchSlop) == (scrollY, lastMoveY)
    decreases |ys|
  {
    if |ys| > 0 {
      assert Abs(Sub(ys[0], lastMoveY)) < touchSlop;
      assert forall i :: 0 <= i < |ys[1..]| ==> ys[1..][i] == ys[i + 1];
      JitterBelowSlopIsIgnored(scrollY, lastMoveY, ys[1..], touchSlop);
    }
  }

  /**
   * The layout. `height` and `floatingLayout` (the panel's height, if there is a
   * panel) are fixed by layout, which is not modelled; `touchSlop` comes from the
   * device configuration.
   */
  class FloatingDragLayout {
    const height: Int32
    const floatingLayout: Option<Int32>
    const touchSlop: Int32

    /** The inherited `View.scrollY`. */
    var scrollY: Int32
    var scroller: Scroller
    var targetDyUnconsumed: Int32
    var targetHasFling: bool
    /** How many settles `onDragEnd` has started. */
    ghost var settleCount: nat

    /** `height - getFloatingLayoutHeight()`: the offset at which the panel is hidden. */
    function RestOffset(): (r: Int32)
      ensures floatingLayout == None ==> r == height
    {
      Sub(height, FloatingLayoutHeight(floatingLayout))
    }

    /** The rest offset and the panel height add back up to the container height, overflow or not. */
    lemma RestOffsetPlusPanelIsHeight()
      ensures Add(RestOffset(), FloatingLayoutHeight(floatingLayout)) == height
    {
    }

    predicate IsRestingEdge(y: Int32) {
      y == 0 || y == RestOffset()
    }

    /** The Scroller's end point is its start plus its delta, and a settle in flight aims at an edge. */
    ghost predicate Valid()
      reads this`scroller
    {
      && scroller.finalY == Add(scroller.startY, scroller.deltaY)
      && (!scroller.finished ==> IsRestingEdge(scroller.finalY))
    }

    /** The Scroller state `onDragEnd` leaves when it runs at offset `fromY`: a settle to the target edge. */
    function SettleFrom(fromY: Int32): (s: Scroller)
      ensures s.startY == fromY && !s.finished
      ensures s.finalY == SettleTarget(fromY, RestOffset())
      ensures s.deltaY == Sub(s.finalY, fromY)
    {
      var target := SettleTarget(fromY, RestOffset());
      SubThenAdd(fromY, target);
      StartScroll(fromY, Sub(target, fromY))
    }

    constructor(height: Int32, floatingLayout: Option<Int32>, touchSlop: Int32)
      ensures this.height == height && this.floatingLayout == floatingLayout && this.touchSlop == touchSlop
      ensures scrollY == 0 && scroller == IdleScroller
      ensures targetDyUnconsumed == 0 && !targetHasFling && settleCount == 0
      ensures Valid()
    {
      this.height := height;
      this.floatingLayout := floatingLayout;
      this.touchSlop := touchSlop;
      scrollY := 0;
      scroller := IdleScroller;
      targetDyUnconsumed := 0;
      targetHasFling := false;
      settleCount := 0;
    }

    /**
     * A new nested-scroll sequence: forgets any unconsumed delta and accepts it
     * exactly when the vertical axis is requested by a touch-driven scroll.
     */
    method OnStartNestedScroll(axes: bv32, scrollType: Int32) returns (accepted: bool)
      requires Valid()
      modifies this`targetDyUnconsumed
      ensures Valid()
      ensures targetDyUnconsumed == 0
      ensures accepted <==> axes & ScrollAxisVertical != 0 && scrollType == TypeTouch
    {
      targetDyUnconsumed := 0;
      accepted := axes & ScrollAxisVertical != 0 && scrollType == TypeTouch;
    }

    /**
     * Before the child scrolls by `dy`: once the child has reported unconsumed
     * scroll in a touch sequence, the layout takes the whole `dy` (reporting it in
     * `consumed[1]`) and scrolls itself; otherwise it leaves both alone.
     * The guard is Kotlin's `abs(targetDyUnconsumed) > 0`, which MIN_VALUE fails.
     */
    method OnNestedPreScroll(dx: Int32, dy: Int32, consumed: array<Int32>, scrollType: Int32)
      requires Valid()
      requires consumed.Length >= 2
      modifies this`scrollY, consumed
      ensures Valid()
      ensures var steals := scrollType == TypeTouch && targetDyUnconsumed != 0 && targetDyUnconsumed != MinValue;
        && consumed[..] == (if steals then old(consumed[..])[1 := dy] else old(consumed[..]))
        && scrollY == (if steals then Add(old(scrollY), dy) else old(scrollY))
    {
      AbsPositive(targetDyUnconsumed);
      if scrollType == TypeTouch && Abs(targetDyUnconsumed) > 0 {
        consumed[1] := dy;
        scrollY := Add(scrollY, dy);
      }
    }

    /** After the child scrolled: remember what it could not consume, whatever the scroll type. */
    method OnNestedScroll(dxConsumed: Int32, dyConsumed: Int32, dxUnconsumed: Int32, dyUnconsumed: Int32, scrollType: Int32)
      requires Valid()
      modifies this`targetDyUnconsumed
      ensures Valid()
      ensures targetDyUnconsumed == dyUnconsumed
    {
      targetDyUnconsumed := dyUnconsumed;
    }

    /**
     * The sequence stops: a touch-driven stop without a fling settles the panel
     * (with velocity 0); in every case the fling flag ends up cleared.
     */
    method OnStopNestedScroll(scrollType: Int32)
      requires Valid()
      modifies this`targetHasFling, this`scroller, this`settleCount
      ensures Valid()
      ensures !targetHasFling
      ensures var settles := scrollType == TypeTouch && !old(targetHasFling);
        && scroller == (if settles then SettleFrom(scrollY) else old(scroller))
        && settleCount == old(settleCount) + (if settles then 1 else 0)
    {
      if scrollType == TypeTouch && !targetHasFling {
        OnDragEnd(0.0);
      }
      if targetHasFling {
        targetHasFling := false;
      }
    }

    /**
     * The child is about to fling: flag it, settle now if the child had run out
     * of room (its stop will then not settle), and never consume the fling.
     */
    method OnNestedPreFling(velocityX: real, velocityY: real) returns (handled: bool)
      requires Valid()
      modifies this`targetHasFling, this`scroller, this`settleCount
      ensures Valid()
      ensures !handled && targetHasFling
      ensures var settles := targetDyUnconsumed != 0 && targetDyUnconsumed != MinValue;
        && scroller == (if settles then SettleFrom(scrollY) else old(scroller))
        && settleCount == old(settleCount) + (if settles then 1 else 0)
    {
      AbsPositive(targetDyUnconsumed);
      targetHasFling := true;
      if Abs(targetDyUnconsumed) > 0 {
        OnDragEnd(velocityY);
      }
      handled := false;
    }

    /**
     * End of a gesture: stop any settle in flight and start a new one from the
     * current offset to the edge `SettleTarget` picks. The release velocity
     * plays no part; the previous settle leaves no trace.
     */
    method OnDragEnd(velocityY: real)
      requires Valid()
      modifies this`scroller, this`settleCount
      ensures Valid()
      ensures scroller == SettleFrom(scrollY)
      ensures settleCount == old(settleCount) + 1
    {
      if !scroller.finished {
        scroller := scroller.(finished := true);
      }
      var floatingLayoutHeight := FloatingLayoutHeight(floatingLayout);
      if scrollY >= Half(Sub(height, floatingLayoutHeight)) {
        scroller := StartScroll(scrollY, Sub(Sub(height, floatingLayoutHeight), scrollY));
      } else {
        NegIsSubFromZero(scrollY);
        scroller := StartScroll(scrollY, Neg(scrollY));
      }
      settleCount := settleCount + 1;
    }

    /**
     * One animation frame. `timeUp` says whether the Scroller's duration has
     * elapsed and `frameY` is the offset its interpolator gives for this frame.
     * A settle in flight moves the offset to `frameY`, or, once time is up, to its
     * final edge and finishes; `redraw` is the request for another frame.
     */
    method ComputeScroll(timeUp: bool, frameY: Int32) returns (redraw: bool)
      requires Valid()
      modifies this`scrollY, this`scroller
      ensures Valid()
      ensures redraw == !old(scroller.finished)
      ensures old(scroller.finished) ==> scrollY == old(scrollY) && scroller == old(scroller)
      ensures !old(scroller.finished) && !timeUp ==> scrollY == frameY && scroller == old(scroller)
      ensures !old(scroller.finished) && timeUp ==>
        scrollY == old(scroller.finalY) && IsRestingEdge(scrollY) && scroller == old(scroller).(finished := true)
    {
      redraw := false;
      if !scroller.finished {
        if timeUp {
          scroller := scroller.(finished := true);
          scrollY := scroller.finalY;
        } else {
          scrollY := frameY;
        }
        redraw := true;
      }
    }
  }

  /** The touch listener set on the panel; an inner class, so it drives its layout. */
  class FloatingLayoutTouchListener {
    const layout: FloatingDragLayout
    var touchDownY: Int32
    var lastMoveY: Int32

    constructor(layout: FloatingDragLayout)
      ensures this.layout == layout && touchDownY == 0 && lastMoveY == 0
    {
      this.layout := layout;
      touchDownY := 0;
      lastMoveY := 0;
    }

    /**
     * One touch event at the rounded screen row `y`; `velocityY` is what the
     * velocity tracker reports on release. DOWN records the row, MOVE scrolls by
     * `MoveStep`, UP always settles; every other action changes nothing. The
     * event is always reported as handled.
     */
    method OnTouch(action: Int32, y: Int32, velocityY: real) returns (handled: bool)
      requires layout.Valid()
      modifies this`touchDownY, this`lastMoveY, layout`scrollY, layout`scroller, layout`settleCount
      ensures layout.Valid()
      ensures handled
      ensures action == ActionDown ==>
        && touchDownY == y && lastMoveY == y
        && layout.scrollY == old(layout.scrollY) && layout.scroller == old(layout.scroller)
        && layout.settleCount == old(layout.settleCount)
      ensures action == ActionMove ==>
        && touchDownY == old(touchDownY)
        && (layout.scrollY, lastMoveY) == MoveStep(old(layout.scrollY), old(lastMoveY), y, layout.touchSlop)
        && layout.scroller == old(layout.scroller) && layout.settleCount == old(layout.settleCount)
      ensures action == ActionUp ==>
        && touchDownY == old(touchDownY) && lastMoveY == old(lastMoveY)
        && layout.scrollY == old(layout.scrollY)
        && layout.scroller == layout.SettleFrom(layout.scrollY)
        && layout.settleCount == old(layout.settleCount) + 1
      ensures action != ActionDown && action != ActionMove && action != ActionUp ==>
        && touchDownY == old(touchDownY) && lastMoveY == old(lastMoveY)
        && layout.scrollY == old(layout.scrollY) && layout.scroller == old(layout.scroller)
        && layout.settleCount == old(layout.settleCount)
    {
      if action == ActionDown {
        touchDownY := y;
        lastMoveY := y;
      } else if action == ActionMove {
        var dy := Sub(y, lastMoveY);
        if Abs(dy) >= layout.touchSlop {
          lastMoveY := y;
          layout.scrollY := Sub(layout.scrollY, dy);
        }
      } else if action == ActionUp {
        layout.OnDragEnd(velocityY);
      }
      handled := true;
    }
  }
}
