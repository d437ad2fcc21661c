# FloatingDragLayout — drag, nested-scroll and settle model

`FloatingDragLayout` is an Android container. It slides a floating panel
vertically through its own scroll offset, `scrollY`. Offset 0 shows the panel.
Offset `height - panelHeight` (the *rest offset*) hides it.

The offset is moved in two ways:
- by a scrollable descendant through the nested-scroll callbacks;
- by a finger on the panel, through the inner `FloatingLayoutTouchListener`.

When a gesture ends, `onDragEnd` starts a `Scroller` settle toward one of the
two edges.

This project models that state machine in Dafny:

- `kotlin_int.dfy` (module `KotlinInt`) models Kotlin `Int`:
  - 32-bit wrap-around for `+`, `-` and unary `-`;
  - `kotlin.math.abs`, where `abs(Int.MIN_VALUE)` is `MIN_VALUE`;
  - `/ 2`, which truncates toward zero.
- `floating_drag_layout.dfy` (module `FloatingDrag`) holds:
  - the class `FloatingDragLayout`, with fields `scrollY`, `scroller`, `targetDyUnconsumed` and `targetHasFling`;
  - one method for each callback, plus `OnDragEnd` and `ComputeScroll`;
  - the class `FloatingLayoutTouchListener`, with `touchDownY` and `lastMoveY` and the method `OnTouch`;
  - the pure rules the methods are proved against: `SettleTarget`, `FloatingLayoutHeight`, `MoveStep` and `Moves`.
- `scenarios.dfy` (module `FloatingDragScenarios`) plays concrete event sequences.
  It uses a container 1000 px high, a 300 px panel and a touch slop of 8.

The `android.widget.Scroller` is the value record `Scroller(startY, deltaY, finalY, finished)`.
- `startScroll` sets `finalY = startY + deltaY` in `Int` arithmetic.
- `forceFinished(true)` sets `finished`.
- The class invariant `Valid()` says two things:
  - the record is consistent: `finalY = startY + deltaY`;
  - a settle in flight always aims at a resting edge (0 or the rest offset).

A ghost counter `settleCount` counts the settles `onDragEnd` starts. Contracts
can then say "exactly one settle" or "no settle".

## Model

| member | source | states |
|---|---|---|
| KotlinInt.Wrap | lib/src/main/java/com/zzx/FloatingDragLayout.kt:119-122 | A sum or difference of two `Int`s wraps to the `Int` with the same low 32 bits: unchanged when it fits, otherwise shifted by exactly 2^32 |
| KotlinInt.SubThenAdd | lib/src/main/java/com/zzx/FloatingDragLayout.kt:120-122 | `startY + (target - startY)` is `target` even when the subtraction overflows, so `startScroll`'s end point is the chosen target |
| KotlinInt.NegIsSubFromZero | lib/src/main/java/com/zzx/FloatingDragLayout.kt:122 | `-scrollY` equals `0 - scrollY` on `Int`, and `-MIN_VALUE` is `MIN_VALUE` |
| KotlinInt.AbsPositive | lib/src/main/java/com/zzx/FloatingDragLayout.kt:88 | `abs(t) > 0` holds exactly when `t` is neither 0 nor `MIN_VALUE` (also the guard at line 141) |
| KotlinInt.HalfOfNonNegative | lib/src/main/java/com/zzx/FloatingDragLayout.kt:119 | For a non-negative rest range, the truncated `/ 2` is the floor of half: `2h <= rest <= 2h + 1` |
| FloatingDrag.StartScroll | lib/src/main/java/com/zzx/FloatingDragLayout.kt:120-122 | `startScroll(0, startY, 0, dy)` leaves a scroll in flight from `startY` with delta `dy` whose end point lies exactly `dy` past the start in `Int` arithmetic |
| FloatingDrag.FloatingLayoutHeight | lib/src/main/java/com/zzx/FloatingDragLayout.kt:147-153 | The panel height used by the layout is 0 when there is no panel and the panel's own height otherwise |
| FloatingDrag.SettleTarget | lib/src/main/java/com/zzx/FloatingDragLayout.kt:119-123 | The settle target is always one of the two edges, 0 or the rest offset; its midpoint rule and nearness are stated by `SettleTargetIsNearerEdge` |
| FloatingDrag.SettleTargetIsNearerEdge | lib/src/main/java/com/zzx/FloatingDragLayout.kt:118-123 | For `rest >= 0` the target is 0 or `rest`; it is `rest` exactly when `scrollY >= rest/2`; it is never more than one pixel farther than the other edge, and it is a nearest edge when `rest` is even |
| FloatingDrag.OddRestRangeFavoursHiding | lib/src/main/java/com/zzx/FloatingDragLayout.kt:119 | With rest 7, offset 3 settles at 7 although 0 is nearer: the truncated midpoint favours hiding by a pixel |
| FloatingDrag.SettleTargetIsIdempotent | lib/src/main/java/com/zzx/FloatingDragLayout.kt:118-123 | For a rest range other than 1, settling again from where a settle landed lands on the same edge |
| FloatingDrag.RestRangeOneIsNotIdempotent | lib/src/main/java/com/zzx/FloatingDragLayout.kt:119 | With rest 1 the truncated midpoint is 0, so a panel settled at 0 is sent to 1 by the next settle |
| FloatingDrag.MissingPanelHidesAtHeight | lib/src/main/java/com/zzx/FloatingDragLayout.kt:147-153 | With no panel the height used is 0, so the hidden edge is `height` itself and every settle goes to 0 or `height` |
| FloatingDrag.MoveStep | lib/src/main/java/com/zzx/FloatingDragLayout.kt:179-186 | A MOVE below the slop changes neither offset nor `lastMoveY`; one at or above the slop adopts `y`; either way `scrollY + lastMoveY` is unchanged |
| FloatingDrag.Moves | lib/src/main/java/com/zzx/FloatingDragLayout.kt:179-186 | After a run of MOVE samples the reference row is the starting row or one of the samples; `MovesTrackFinger` and `JitterBelowSlopIsIgnored` state how the offset follows |
| FloatingDrag.MoveKeepsFingerSum | lib/src/main/java/com/zzx/FloatingDragLayout.kt:181-184 | Scrolling by `-(y - lastMoveY)` and moving `lastMoveY` to `y` keeps `scrollY + lastMoveY` in `Int` arithmetic |
| FloatingDrag.AcceptedMoveScrollsByNegatedDelta | lib/src/main/java/com/zzx/FloatingDragLayout.kt:181-184 | Without overflow, an accepted move changes the offset by exactly `-(y - lastMoveY)` |
| FloatingDrag.MovesTrackFinger | lib/src/main/java/com/zzx/FloatingDragLayout.kt:179-186 | Over any run of MOVE samples `scrollY + lastMoveY` is conserved, so the panel follows the last accepted finger row |
| FloatingDrag.JitterBelowSlopIsIgnored | lib/src/main/java/com/zzx/FloatingDragLayout.kt:181-185 | If every sample is within the slop of `lastMoveY`, the offset and the reference row never change: sub-slop motion is measured against the old row |
| FloatingDrag.FloatingDragLayout.RestOffset | lib/src/main/java/com/zzx/FloatingDragLayout.kt:118-120 | The hidden offset `height - getFloatingLayoutHeight()` is `height` itself when there is no panel |
| FloatingDrag.FloatingDragLayout.RestOffsetPlusPanelIsHeight | lib/src/main/java/com/zzx/FloatingDragLayout.kt:118-120 | The hidden offset plus the panel height is the container height again, even when the subtraction wraps |
| FloatingDrag.FloatingDragLayout.SettleFrom | lib/src/main/java/com/zzx/FloatingDragLayout.kt:114-123 | The settle started at offset `fromY` starts there, is in flight, ends at `SettleTarget(fromY, rest)` and has delta `target - fromY` |
| FloatingDrag.FloatingDragLayout.constructor | lib/src/main/java/com/zzx/FloatingDragLayout.kt:22-31 | A new layout has offset 0, an idle Scroller, no unconsumed delta and no fling, and satisfies the invariant |
| FloatingDrag.FloatingDragLayout.OnStartNestedScroll | lib/src/main/java/com/zzx/FloatingDragLayout.kt:104-108 | Resets `targetDyUnconsumed` to 0 and changes nothing else; accepts iff the vertical axis bit is set and the type is touch |
| FloatingDrag.FloatingDragLayout.OnNestedPreScroll | lib/src/main/java/com/zzx/FloatingDragLayout.kt:86-92 | Iff the type is touch and `abs(targetDyUnconsumed) > 0`, writes `dy` into `consumed[1]` (other slots kept) and adds `dy` to the offset; otherwise the array and offset are unchanged; `targetDyUnconsumed` is never written |
| FloatingDrag.FloatingDragLayout.OnNestedScroll | lib/src/main/java/com/zzx/FloatingDragLayout.kt:127-136 | Sets `targetDyUnconsumed := dyUnconsumed` for any scroll type; the offset, fling flag and settle are untouched |
| FloatingDrag.FloatingDragLayout.OnStopNestedScroll | lib/src/main/java/com/zzx/FloatingDragLayout.kt:94-102 | Starts exactly one settle from the current offset iff the type is touch and no fling was flagged, none otherwise; the fling flag is false on exit |
| FloatingDrag.FloatingDragLayout.OnNestedPreFling | lib/src/main/java/com/zzx/FloatingDragLayout.kt:138-145 | Always flags the fling and returns false; starts exactly one settle iff `abs(targetDyUnconsumed) > 0`, none otherwise |
| FloatingDrag.FloatingDragLayout.OnDragEnd | lib/src/main/java/com/zzx/FloatingDragLayout.kt:114-125 | Whatever settle was in flight, the Scroller afterwards holds exactly the new settle `SettleFrom(scrollY)`; the velocity does not appear; one settle is counted |
| FloatingDrag.FloatingDragLayout.ComputeScroll | lib/src/main/java/com/zzx/FloatingDragLayout.kt:155-160 | Idle: nothing changes, no redraw. In flight: the offset moves to the interpolated frame, or, when time is up, to the settle's final edge (0 or the rest offset) and the Scroller finishes; a redraw is requested |
| FloatingDrag.FloatingLayoutTouchListener.constructor | lib/src/main/java/com/zzx/FloatingDragLayout.kt:162-165 | A new listener drives the given layout and starts with `touchDownY = lastMoveY = 0` |
| FloatingDrag.FloatingLayoutTouchListener.OnTouch | lib/src/main/java/com/zzx/FloatingDragLayout.kt:172-196 | DOWN sets `touchDownY = lastMoveY = y` and leaves the layout alone; MOVE is exactly `MoveStep`; UP keeps the offset and starts exactly one settle; any other action changes nothing; always returns true |
| FloatingDragScenarios.DragThenRelease | lib/src/main/java/com/zzx/FloatingDragLayout.kt:172-196 | A drag to offset 500 of rest 700 settles hidden at 700; a drag to 200 settles shown at 0 |
| FloatingDragScenarios.TapStillSettles | lib/src/main/java/com/zzx/FloatingDragLayout.kt:179-193 | A tap whose moves stay within the slop leaves the offset at 0 and still starts one settle, to 0 |
| FloatingDragScenarios.PreScrollWaitsForChild | lib/src/main/java/com/zzx/FloatingDragLayout.kt:86-92 | Before the child reports unconsumed motion, a pre-scroll is left to the child: nothing consumed, offset 0 |
| FloatingDragScenarios.ChildOverscrollHandsOff | lib/src/main/java/com/zzx/FloatingDragLayout.kt:86-136 | After the child reports 12 unconsumed, the next pre-scroll of 5 is taken whole and moves the offset by 5 |
| FloatingDragScenarios.TouchStopSettles | lib/src/main/java/com/zzx/FloatingDragLayout.kt:94-102 | A touch stop without a fling starts one settle, to 0; a non-touch stop starts none |
| FloatingDragScenarios.FlingSettlesOnce | lib/src/main/java/com/zzx/FloatingDragLayout.kt:94-145 | A pre-fling after the child ran out of room settles once and declines the fling; the stop that follows does not settle again and clears the flag |
| FloatingDragScenarios.SecondSettleWins | lib/src/main/java/com/zzx/FloatingDragLayout.kt:114-160 | A release heading for 700 is replaced, one frame later, by a new drag to 200 whose release heads for 0; the last frame lands on 0 |
| FloatingDragScenarios.MissingPanelSettlesAtHeight | lib/src/main/java/com/zzx/FloatingDragLayout.kt:86-153 | A layout without a panel, driven by nested scroll (it has no touch listener), takes a pre-scroll of 600 and its touch stop settles at 1000, the full height |
| FloatingDragScenarios.OnlyVerticalTouchScrollsAccepted | lib/src/main/java/com/zzx/FloatingDragLayout.kt:104-108 | A horizontal-only or a non-touch nested scroll is declined; a touch scroll with the vertical bit among others is accepted |
| FloatingDragScenarios.CancelLeavesPanelUnsettled | lib/src/main/java/com/zzx/FloatingDragLayout.kt:172-196 | ACTION_CANCEL after a drag to 500 leaves the offset at 500 and starts no settle |

Notes on the code's behaviour:

- `onTouch` handles only DOWN, MOVE and UP, so `ACTION_CANCEL` (or any other action) starts no settle and leaves the panel wherever the drag left it.
- The guards `abs(targetDyUnconsumed) > 0` at lines 88 and 141 are false for `Int.MIN_VALUE` as well as for 0, because `abs(Int.MIN_VALUE)` is `Int.MIN_VALUE`.
- The midpoint `(height - panelHeight) / 2` truncates. With an odd rest range, the offset just below the true middle settles at the farther edge, one pixel away. With a rest range of 1, a panel resting at 0 is sent to 1 by the next settle.

## Left out

- Attribute parsing and panel inflation in `init` (lines 33-44): Android resources. The panel's presence and height are constructor parameters, and the touch slop is one too.
- `onMeasure` (46-52) and `onLayout` (54-67): layout plumbing. `height` and the panel height are fixed for the object's life, so re-layout during a gesture is not modelled.
- `onAttachedToWindow`/`onDetachedFromWindow` (69-84): re-parenting and listener registration. The listener is built directly on its layout.
- `onNestedScrollAccepted` (110-112): a pure delegate to `NestedScrollingParentHelper`.
- `Log.e` calls and `invalidate()`: logging and redraw requests with no state.
- The `Scroller`'s timing and easing: `ComputeScroll` takes the elapsed-time verdict and the interpolated offset as inputs.
- `VelocityTracker` (167, 173, 188-189, 192): float velocity is a `real` parameter that no contract depends on, as the source ignores it.
- The unused local `dy` at line 190.
- `(rawY + 0.5f).toInt()` (176-183): float rounding. `y` is given as an already-rounded `Int`.
- The `View` arguments (`target`, `child`, `v`, `event`) and `dx`/`velocityX`: unused by the logic. The listener takes the event's action and row.
- `OnNestedPreScroll` requires `consumed` to have at least two slots. The framework always passes a two-element array, so the index-out-of-range exception that line 89 would throw on a shorter one is not modelled.
- `scrollBy`/`scrollTo` are direct writes of `scrollY`. Any `onScrollChanged` side effects of the framework are not part of this model.
