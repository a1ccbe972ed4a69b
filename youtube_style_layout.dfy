/**
 * YoutubeStyleLayout: a two-child layout whose second child (the sliding
 * view) is dragged vertically over the first (the main view). Modelled are
 * the measure pass, the integer layout arithmetic, the vertical clamp of the
 * drag, the hit test and the capture rule. Views are objects whose measured
 * sizes and screen locations come from outside, as the platform supplies
 * them.
 */
module YoutubeStyleLayout {
  import opened Wrappers
  import opened MeasureSpecs

  const CHILD_COUNT_MESSAGE: string := "Layout must have exactly 2 children!"

  /**
   * The measure spec a child gets on one axis: wrap-content is measured
   * "at most" the available size, match-parent exactly the available size,
   * and an explicit dimension exactly that dimension.
   */
  function ChildSpec(dimension: int, available: int): (spec: MeasureSpec)
    ensures spec.mode == AT_MOST <==> dimension == WRAP_CONTENT
    ensures spec.mode == EXACTLY <==> dimension != WRAP_CONTENT
    ensures dimension == WRAP_CONTENT || dimension == MATCH_PARENT ==> spec.size == available
    ensures dimension != WRAP_CONTENT && dimension != MATCH_PARENT ==> spec.size == dimension
  {
    if dimension == WRAP_CONTENT then MeasureSpec(AT_MOST, available)
    else if dimension == MATCH_PARENT then MeasureSpec(EXACTLY, available)
    else MeasureSpec(EXACTLY, dimension)
  }

  /** Math.min(Math.max(top, topBound), bottomBound). */
  function ClampVertical(top: int, topBound: int, bottomBound: int): (r: int)
    ensures r <= bottomBound
    ensures topBound <= bottomBound ==> topBound <= r <= bottomBound
    ensures topBound <= top <= bottomBound ==> r == top
    ensures top < topBound <= bottomBound ==> r == topBound
    ensures top > bottomBound ==> r == bottomBound
  {
    Min(Max(top, topBound), bottomBound)
  }

  /** Clamping a clamped position changes nothing. */
  lemma ClampVerticalIdempotent(top: int, topBound: int, bottomBound: int)
    ensures ClampVertical(ClampVertical(top, topBound, bottomBound), topBound, bottomBound)
            == ClampVertical(top, topBound, bottomBound)
  {
  }

  /** View.LayoutParams: a dimension or MATCH_PARENT / WRAP_CONTENT per axis. */
  datatype LayoutParams = LayoutParams(width: int, height: int)

  /** The parts of a child view the layout reads and writes. */
  class View {
    const layoutParams: LayoutParams
    /** What the view measures itself to, given the specs below. */
    var measuredHeight: int
    var paddingBottom: int
    /** The specs of the last measure() call, if any. */
    var widthSpec: Option<MeasureSpec>
    var heightSpec: Option<MeasureSpec>
    var left: int
    var top: int
    var right: int
    var bottom: int
    /** getLocationOnScreen. */
    var screenX: int
    var screenY: int

    constructor (lp: LayoutParams, measured: int, padBottom: int)
      ensures layoutParams == lp && measuredHeight == measured && paddingBottom == padBottom
      ensures widthSpec.None? && heightSpec.None?
      ensures left == 0 && top == 0 && right == 0 && bottom == 0 && screenX == 0 && screenY == 0
    {
      layoutParams := lp;
      measuredHeight := measured;
      paddingBottom := padBottom;
      widthSpec := None;
      heightSpec := None;
      left, top, right, bottom := 0, 0, 0, 0;
      screenX, screenY := 0, 0;
    }

    function Width(): int
      reads this
    {
      right - left
    }

    function Height(): int
      reads this
    {
      bottom - top
    }
  }

  class YoutubeStyleLayout {
    var children: seq<View>
    var mainView: View?
    var slidingView: View?
    var paddingLeft: int
    var paddingTop: int
    var paddingRight: int
    var paddingBottom: int
    /** The layout's own laid-out height and screen location. */
    var height: int
    var screenX: int
    var screenY: int
    var measuredWidth: int
    var measuredHeight: int
    var dragRange: int
    /** The sliding view's top as the drag helper last placed it. */
    var slideTop: int
    var layoutRequests: nat

    constructor (kids: seq<View>, padLeft: int, padTop: int, padRight: int, padBottom: int)
      ensures children == kids && mainView == null && slidingView == null
      ensures paddingLeft == padLeft && paddingTop == padTop && paddingRight == padRight && paddingBottom == padBottom
      ensures height == 0 && screenX == 0 && screenY == 0 && measuredWidth == 0 && measuredHeight == 0
      ensures dragRange == 0 && slideTop == 0 && layoutRequests == 0
    {
      children := kids;
      mainView := null;
      slidingView := null;
      paddingLeft, paddingTop, paddingRight, paddingBottom := padLeft, padTop, padRight, padBottom;
      height := 0;
      screenX, screenY := 0, 0;
      measuredWidth, measuredHeight := 0, 0;
      dragRange := 0;
      slideTop := 0;
      layoutRequests := 0;
    }

    /**
     * onMeasure: fails unless there are exactly two children; otherwise the
     * first child becomes the main view and the second the sliding view,
     * each is measured with the specs its layout parameters ask for within
     * the size inside the padding, and the layout takes the sizes it was
     * offered.
     */
    method OnMeasure(widthMeasureSpec: MeasureSpec, heightMeasureSpec: MeasureSpec) returns (r: Result<(), string>)
      modifies this`mainView, this`slidingView, this`measuredWidth, this`measuredHeight
      modifies children`widthSpec, children`heightSpec
      ensures |children| != 2 <==> r.Failure?
      ensures r.Failure? ==> r.error == CHILD_COUNT_MESSAGE
      ensures r.Failure? ==>
                && unchanged(this`mainView, this`slidingView, this`measuredWidth, this`measuredHeight)
                && unchanged(children`widthSpec, children`heightSpec)
      ensures r.Success? ==>
                && mainView == children[0] && slidingView == children[1]
                && measuredWidth == widthMeasureSpec.size && measuredHeight == heightMeasureSpec.size
                && forall i :: 0 <= i < |children| ==>
                     && children[i].widthSpec == Some(ChildSpec(children[i].layoutParams.width, widthMeasureSpec.size - paddingLeft - paddingRight))
                     && children[i].heightSpec == Some(ChildSpec(children[i].layoutParams.height, heightMeasureSpec.size - paddingTop - paddingBottom))
    {
      var widthSize := widthMeasureSpec.size;
      var heightSize := heightMeasureSpec.size;
      var childCount := |children|;
      if childCount != 2 {
        return Failure(CHILD_COUNT_MESSAGE);
      }
      mainView := children[0];
      slidingView := children[1];
      var h := heightSize - paddingTop - paddingBottom;
      var w := widthSize - paddingLeft - paddingRight;
      var i := 0;
      while i < childCount
        invariant 0 <= i <= childCount
        invariant mainView == children[0] && slidingView == children[1]
        invariant forall j :: 0 <= j < i ==>
                    && children[j].widthSpec == Some(ChildSpec(children[j].layoutParams.width, w))
                    && children[j].heightSpec == Some(ChildSpec(children[j].layoutParams.height, h))
        invariant measuredWidth == old(measuredWidth) && measuredHeight == old(measuredHeight)
      {
        var child := children[i];
        child.widthSpec := Some(ChildSpec(child.layoutParams.width, w));
        child.heightSpec := Some(ChildSpec(child.layoutParams.height, h));
        i := i + 1;
      }
      measuredWidth := widthSize;
      measuredHeight := heightSize;
      return Success(());
    }

    /**
     * onLayout: the drag range is the layout's height less the sliding
     * view's; the sliding view spans the width at its drag position, and the
     * main view starts below the visible part of the sliding view and ends
     * at its measured height or the layout's bottom, whichever comes first.
     */
    method OnLayout(changed: bool, l: int, t: int, r: int, b: int)
      requires mainView != null && slidingView != null && mainView != slidingView
      modifies this`dragRange, mainView, slidingView
      ensures dragRange == height - old(slidingView.Height())
      ensures slidingView.left == 0 && slidingView.top == slideTop && slidingView.right == r
      ensures slidingView.bottom == slideTop + slidingView.measuredHeight
      ensures mainView.left == 0 && mainView.right == r
      ensures mainView.top == Max(0, slidingView.measuredHeight - slideTop)
      ensures mainView.bottom == Min(b, mainView.top + mainView.measuredHeight)
      ensures mainView.measuredHeight == old(mainView.measuredHeight)
      ensures slidingView.measuredHeight == old(slidingView.measuredHeight)
      ensures unchanged(mainView`widthSpec, mainView`heightSpec, mainView`screenX, mainView`screenY, mainView`paddingBottom)
      ensures unchanged(slidingView`widthSpec, slidingView`heightSpec, slidingView`screenX, slidingView`screenY, slidingView`paddingBottom)
    {
      dragRange := height - slidingView.Height();
      slidingView.left, slidingView.top, slidingView.right, slidingView.bottom :=
        0, slideTop, r, slideTop + slidingView.measuredHeight;
      var top := slidingView.measuredHeight - slideTop;
      if top < 0 {
        top := 0;
      }
      var bottom := if b < top + mainView.measuredHeight then b else top + mainView.measuredHeight;
      mainView.left, mainView.top, mainView.right, mainView.bottom := 0, top, r, bottom;
    }

    /**
     * The drag helper's vertical clamp: between the top padding and the
     * position at which the sliding view's bottom padding meets the bottom.
     */
    function ClampViewPositionVertical(child: View, top: int, dy: int): (r: int)
      requires slidingView != null
      reads this, slidingView
      ensures r <= height - slidingView.Height() - slidingView.paddingBottom
      ensures paddingTop <= height - slidingView.Height() - slidingView.paddingBottom ==> paddingTop <= r
      ensures r == ClampVertical(top, paddingTop, height - slidingView.Height() - slidingView.paddingBottom)
    {
      var topBound := paddingTop;
      var bottomBound := height - slidingView.Height() - slidingView.paddingBottom;
      Min(Max(top, topBound), bottomBound)
    }

    /**
     * isViewHit: the point (x, y) of this layout, taken to the screen, lies
     * in the view's on-screen box, left and top edges included, right and
     * bottom edges excluded.
     */
    predicate IsViewHit(view: View, x: int, y: int): (hit: bool)
      reads this, view
      ensures hit ==> view.Width() > 0 && view.Height() > 0
      ensures hit <==> var dx := view.screenX - screenX; var dy := view.screenY - screenY;
                       dx <= x < dx + view.Width() && dy <= y < dy + view.Height()
    {
      var sx := screenX + x;
      var sy := screenY + y;
      sx >= view.screenX && sx < view.screenX + view.Width() && sy >= view.screenY && sy < view.screenY + view.Height()
    }

    /** The drag helper may capture only the sliding view. */
    predicate TryCaptureView(child: View, pointerId: int): (captured: bool)
      reads this
      ensures captured ==> slidingView != null
      ensures captured <==> slidingView != null && child == slidingView
    {
      child == slidingView
    }

    /** onViewPositionChanged: remembers the sliding view's top and asks for a new layout. */
    method OnViewPositionChanged(changedView: View, left: int, top: int, dx: int, dy: int)
      modifies this`slideTop, this`layoutRequests
      ensures slideTop == top && layoutRequests == old(layoutRequests) + 1
    {
      slideTop := top;
      layoutRequests := layoutRequests + 1;
    }
  }

  /**
   * When a child sits untransformed at its layout box, the hit test is
   * containment in that box with the point in the layout's coordinates.
   */
  lemma IsViewHitInLayoutBox(layout: YoutubeStyleLayout, view: View, x: int, y: int)
    requires view.screenX == layout.screenX + view.left && view.screenY == layout.screenY + view.top
    ensures layout.IsViewHit(view, x, y) <==> view.left <= x < view.right && view.top <= y < view.bottom
  {
  }

  /** A view with no width or no height is never hit. */
  lemma EmptyViewIsNeverHit(layout: YoutubeStyleLayout, view: View, x: int, y: int)
    requires view.Width() <= 0 || view.Height() <= 0
    ensures !layout.IsViewHit(view, x, y)
  {
  }

  /** Exactly the sliding view can be captured, whatever the pointer. */
  lemma CaptureOnlySlidingView(layout: YoutubeStyleLayout, child: View, pointerId: int)
    ensures layout.TryCaptureView(child, pointerId) <==> layout.slidingView != null && child == layout.slidingView
  {
  }
}
