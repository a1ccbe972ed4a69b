/**
 * ElasticDragDismissFrameLayout: a frame that follows the vertical nested
 * scrolls of its content and asks to be dismissed once the content has been
 * dragged far enough. The drag bookkeeping (the accumulated drag and the
 * direction flags) is modelled exactly, with the accumulated drag as an
 * integer; the translation and scale computed from it are floating point
 * and are not. Calls into the platform and to the registered callbacks are
 * appended to an event log.
 */
module ElasticDragDismiss {
  import opened Wrappers

  /** View.SCROLL_AXIS_VERTICAL. */
  const SCROLL_AXIS_VERTICAL: bv32 := 2

  /** Float.MAX_VALUE, which is an integer: (2^24 - 1) * 2^104. */
  const FLOAT_MAX_VALUE: int := 0xff_ffff * 0x1_0000_0000_0000_0000_0000_0000_00

  /** The smallest-width breakpoint of the navigation-bar rule, in dp. */
  const NAV_BAR_MOVE_MAX_WIDTH_DP: int := 600

  function Abs(x: int): int { if x < 0 then -x else x }

  // ---------------------------------------------------------------------------
  // Static helpers

  /**
   * onStartNestedScroll: the frame takes part in a nested scroll exactly
   * when the vertical axis is among the scroll's axes.
   */
  function OnStartNestedScroll(nestedScrollAxes: bv32): (accepted: bool)
    ensures accepted <==> (nestedScrollAxes >> 1) & 1 == 1
  {
    nestedScrollAxes & SCROLL_AXIS_VERTICAL != 0
  }

  /**
   * modifyAlpha: the color's red, green and blue bytes with the low byte of
   * alpha as the new alpha byte. Colors and alpha are Java ints, seen here
   * as their 32-bit patterns.
   */
  function ModifyAlpha(color: bv32, alpha: bv32): (r: bv32)
    ensures r & 0x00ff_ffff == color & 0x00ff_ffff
  {
    var rgb := color & 0x00ff_ffff;
    var alphaByte := alpha << 24;
    assert alphaByte & 0x00ff_ffff == 0;
    rgb | alphaByte
  }

  /** Color.alpha: the top byte of a packed color. */
  function ColorAlpha(color: bv32): (a: int)
    ensures 0 <= a <= 255
  {
    (color >> 24) as int
  }

  /** The new color's top byte is the low byte of alpha. */
  lemma ModifyAlphaTopByte(color: bv32, alpha: bv32)
    ensures ModifyAlpha(color, alpha) >> 24 == alpha & 0xff
  {
  }

  /** For an alpha in [0, 255] the new color's alpha is exactly that value. */
  lemma ModifyAlphaSetsAlpha(color: bv32, alpha: bv32)
    requires alpha as int <= 255
    ensures ColorAlpha(ModifyAlpha(color, alpha)) == alpha as int
  {
    ModifyAlphaTopByte(color, alpha);
    assert alpha & 0xff == alpha;
  }

  /** Setting the same alpha twice is setting it once. */
  lemma ModifyAlphaIdempotent(color: bv32, alpha: bv32)
    ensures ModifyAlpha(ModifyAlpha(color, alpha), alpha) == ModifyAlpha(color, alpha)
  {
  }

  /**
   * isNavBarOnBottom: the navigation bar is at the bottom of a square
   * screen, of any screen at least 600dp wide in its smallest width, and of
   * any screen in portrait.
   */
  function IsNavBarOnBottom(widthPixels: int, heightPixels: int, smallestScreenWidthDp: int): (onBottom: bool)
    ensures onBottom <==> widthPixels == heightPixels || smallestScreenWidthDp >= NAV_BAR_MOVE_MAX_WIDTH_DP
                          || widthPixels < heightPixels
  {
    var canMove := widthPixels != heightPixels && smallestScreenWidthDp < NAV_BAR_MOVE_MAX_WIDTH_DP;
    !canMove || widthPixels < heightPixels
  }

  // ---------------------------------------------------------------------------
  // The drag state

  datatype DragState = DragState(totalDrag: int, draggingDown: bool, draggingUp: bool)

  const AtRest: DragState := DragState(0, false, false)

  /**
   * The direction flags agree with the accumulated drag: at most one is set,
   * dragging down means a negative drag, dragging up a positive one, and no
   * flag means no drag.
   */
  predicate Consistent(st: DragState) {
    && !(st.draggingDown && st.draggingUp)
    && (st.draggingDown ==> st.totalDrag < 0)
    && (st.draggingUp ==> st.totalDrag > 0)
    && (!st.draggingDown && !st.draggingUp ==> st.totalDrag == 0)
  }

  /** A drag starts its direction from rest; afterwards the direction stays. */
  function StartDirection(st: DragState, scroll: int): DragState {
    if scroll < 0 && !st.draggingUp && !st.draggingDown then st.(draggingDown := true)
    else if scroll > 0 && !st.draggingDown && !st.draggingUp then st.(draggingUp := true)
    else st
  }

  /** The drag went back past its starting point. */
  predicate Reversed(st: DragState) {
    (st.draggingDown && st.totalDrag >= 0) || (st.draggingUp && st.totalDrag <= 0)
  }

  /** The drag state after dragScale(scroll). */
  function Drag(st: DragState, scroll: int): DragState {
    if scroll == 0 then st
    else
      var moved := StartDirection(st.(totalDrag := st.totalDrag + scroll), scroll);
      if Reversed(moved) then AtRest else moved
  }

  datatype Event =
    | PivotAtBottom
    | PivotAtTop
    | TransformsReset
    | DragDispatched(rawOffsetPixels: int)
    | DismissDispatched
    | SettleAnimationStarted

  /** The calls dragScale(scroll) makes: a pivot when a direction starts, a reset, the drag callback. */
  function DragEvents(st: DragState, scroll: int, shouldScale: bool): seq<Event> {
    if scroll == 0 then []
    else
      var moved := StartDirection(st.(totalDrag := st.totalDrag + scroll), scroll);
      var pivot :=
        if !shouldScale then []
        else if moved.draggingDown && !st.draggingDown then [PivotAtBottom]
        else if moved.draggingUp && !st.draggingUp then [PivotAtTop]
        else [];
      pivot + (if Reversed(moved) then [TransformsReset] else []) + [DragDispatched(Drag(st, scroll).totalDrag)]
  }

  /** Every drag keeps the flags consistent with the accumulated drag. */
  lemma DragPreservesConsistent(st: DragState, scroll: int)
    requires Consistent(st)
    ensures Consistent(Drag(st, scroll))
  {
  }

  /**
   * From rest, a drag records its amount and its direction; a drag that
   * does not cross back over the starting point adds its amount to the
   * total and keeps the direction; one that does returns to rest.
   */
  lemma DragMeaning(st: DragState, scroll: int)
    requires Consistent(st) && scroll != 0
    ensures st == AtRest ==> Drag(st, scroll) == DragState(scroll, scroll < 0, scroll > 0)
    ensures st.draggingDown ==>
              Drag(st, scroll) == if st.totalDrag + scroll >= 0 then AtRest else st.(totalDrag := st.totalDrag + scroll)
    ensures st.draggingUp ==>
              Drag(st, scroll) == if st.totalDrag + scroll <= 0 then AtRest else st.(totalDrag := st.totalDrag + scroll)
  {
  }

  /** Two drags in one direction from rest accumulate: the frame never flips direction without passing rest. */
  lemma DragSameDirection(scroll1: int, scroll2: int)
    requires (scroll1 < 0 && scroll2 < 0) || (scroll1 > 0 && scroll2 > 0)
    ensures Drag(Drag(AtRest, scroll1), scroll2) == DragState(scroll1 + scroll2, scroll1 < 0, scroll1 > 0)
  {
  }

  // ---------------------------------------------------------------------------
  // The frame

  class ElasticDragDismissFrameLayout {
    var dragDismissDistance: int
    var shouldScale: bool
    var totalDrag: int
    var draggingDown: bool
    var draggingUp: bool
    var events: seq<Event>

    function State(): DragState
      reads this
    {
      DragState(totalDrag, draggingDown, draggingUp)
    }

    ghost predicate Valid()
      reads this
    {
      Consistent(State())
    }

    /**
     * The constructor with the styled attributes already read: a dismiss
     * distance in pixels if one is given, and a dismiss scale if one is
     * given, which turns scaling on when it is not 1.
     */
    constructor (distanceAttr: Option<int>, scaleAttr: Option<real>)
      ensures Valid() && State() == AtRest && events == []
      ensures dragDismissDistance == distanceAttr.GetOr(FLOAT_MAX_VALUE)
      ensures shouldScale <==> scaleAttr.Some? && scaleAttr.value != 1.0
    {
      dragDismissDistance := distanceAttr.GetOr(FLOAT_MAX_VALUE);
      shouldScale := scaleAttr.Some? && scaleAttr.value != 1.0;
      totalDrag := 0;
      draggingDown := false;
      draggingUp := false;
      events := [];
    }

    method DragScale(scroll: int)
      requires Valid()
      modifies this`totalDrag, this`draggingDown, this`draggingUp, this`events
      ensures Valid()
      ensures State() == Drag(old(State()), scroll)
      ensures events == old(events) + DragEvents(old(State()), scroll, shouldScale)
    {
      if scroll == 0 {
        return;
      }
      ghost var st0 := State();
      ghost var ev0 := events;
      totalDrag := totalDrag + scroll;
      ghost var pivot: seq<Event> := [];
      if scroll < 0 && !draggingUp && !draggingDown {
        draggingDown := true;
        if shouldScale {
          events := events + [PivotAtBottom];
          pivot := [PivotAtBottom];
        }
      } else if scroll > 0 && !draggingDown && !draggingUp {
        draggingUp := true;
        if shouldScale {
          events := events + [PivotAtTop];
          pivot := [PivotAtTop];
        }
      }
      ghost var moved := State();
      assert moved == StartDirection(st0.(totalDrag := st0.totalDrag + scroll), scroll);
      ghost var reset: seq<Event> := [];
      if (draggingDown && totalDrag >= 0) || (draggingUp && totalDrag <= 0) {
        totalDrag := 0;
        draggingDown := false;
        draggingUp := false;
        events := events + [TransformsReset];
        reset := [TransformsReset];
      }
      events := events + [DragDispatched(totalDrag)];
      assert events == ev0 + pivot + reset + [DragDispatched(totalDrag)];
      DragPreservesConsistent(st0, scroll);
    }

    /**
     * onNestedPreScroll: while a drag is under way, a scroll back towards
     * the starting point is taken by the frame and reported as consumed;
     * any other scroll is left to the content.
     */
    method OnNestedPreScroll(dx: int, dy: int, consumed: array<int>)
      requires Valid() && consumed.Length >= 2
      modifies this`totalDrag, this`draggingDown, this`draggingUp, this`events, consumed
      ensures Valid()
      ensures var takes := (old(draggingDown) && dy > 0) || (old(draggingUp) && dy < 0);
              && (takes ==>
                    && consumed[..] == old(consumed[..])[1 := dy]
                    && State() == Drag(old(State()), dy)
                    && events == old(events) + DragEvents(old(State()), dy, shouldScale))
              && (!takes ==> consumed[..] == old(consumed[..]) && State() == old(State()) && events == old(events))
    {
      if (draggingDown && dy > 0) || (draggingUp && dy < 0) {
        DragScale(dy);
        consumed[1] := dy;
      }
    }

    /** onNestedScroll: the scroll the content could not use drags the frame. */
    method OnNestedScroll(dxConsumed: int, dyConsumed: int, dxUnconsumed: int, dyUnconsumed: int)
      requires Valid()
      modifies this`totalDrag, this`draggingDown, this`draggingUp, this`events
      ensures Valid()
      ensures State() == Drag(old(State()), dyUnconsumed)
      ensures events == old(events) + DragEvents(old(State()), dyUnconsumed, shouldScale)
    {
      DragScale(dyUnconsumed);
    }

    /**
     * onStopNestedScroll: a drag at least as long as the dismiss distance
     * dispatches the dismiss callback and keeps the drag state; a shorter
     * one settles back and returns to rest.
     */
    method OnStopNestedScroll()
      requires Valid()
      modifies this`totalDrag, this`draggingDown, this`draggingUp, this`events
      ensures Valid()
      ensures Abs(old(totalDrag)) >= dragDismissDistance ==>
                State() == old(State()) && events == old(events) + [DismissDispatched]
      ensures Abs(old(totalDrag)) < dragDismissDistance ==>
                State() == AtRest && events == old(events) + [SettleAnimationStarted, DragDispatched(0)]
    {
      if Abs(totalDrag) >= dragDismissDistance {
        events := events + [DismissDispatched];
      } else {
        events := events + [SettleAnimationStarted];
        totalDrag := 0;
        draggingDown := false;
        draggingUp := false;
        events := events + [DragDispatched(0)];
      }
    }
  }
}
