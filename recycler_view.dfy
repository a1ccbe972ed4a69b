/**
 * The parts of RecyclerView that carry logic of their own: the measure-size
 * rule of LayoutManager.chooseSize, the class-name resolution used when the
 * layout manager is named in XML, the frozen-layout and computing-layout
 * guards, and the attachment of a LayoutManager to its RecyclerView.
 * Calls into the platform (requestLayout, onTouchEvent with a cancel event,
 * stopScroll, Log.w) are appended to an event log.
 */
module RecyclerView {
  import opened Wrappers
  import opened MeasureSpecs

  /** The package RecyclerView.java is declared in. */
  const RECYCLER_VIEW_PACKAGE: string := "com.twentyhours.androidstudy.recyclerview"

  const DEFAULT_LAYOUT_MESSAGE: string :=
    "Cannot call this method while RecyclerView is computing a layout or scrolling"

  const FROZEN_MESSAGE: string := "Do not setLayoutFrozen in layout or scroll"

  // ---------------------------------------------------------------------------
  // LayoutManager.chooseSize

  /**
   * The size a layout manager reports for one axis: the spec's size under
   * EXACTLY, the larger of desired and min but capped by the spec's size
   * under AT_MOST, and the larger of desired and min under any other mode.
   */
  function ChooseSize(spec: MeasureSpec, desired: int, min: int): (r: int)
    ensures spec.mode == EXACTLY ==> r == spec.size
    ensures spec.mode == AT_MOST ==>
              && r <= spec.size
              && (desired <= spec.size && min <= spec.size ==> r >= desired && r >= min)
              && (r == spec.size || r == desired || r == min)
    ensures spec.mode != EXACTLY && spec.mode != AT_MOST ==>
              r >= desired && r >= min && (r == desired || r == min)
  {
    if spec.mode == EXACTLY then spec.size
    else if spec.mode == AT_MOST then Min(spec.size, Max(desired, min))
    else Max(desired, min)
  }

  /** Under AT_MOST the size is the unconstrained choice whenever that fits, and the bound otherwise. */
  lemma ChooseSizeAtMostFits(size: int, desired: int, min: int)
    ensures var r := ChooseSize(MeasureSpec(AT_MOST, size), desired, min);
            var free := ChooseSize(MeasureSpec(UNSPECIFIED, size), desired, min);
            (free <= size ==> r == free) && (free > size ==> r == size)
  {
  }

  // ---------------------------------------------------------------------------
  // Class names from XML

  predicate IsWhitespace(c: char) {
    c <= ' '
  }

  /** The suffix of s after its leading characters at or below U+0020. */
  function TrimStart(s: string): (r: string)
    ensures |r| <= |s| && r == s[|s| - |r|..]
    ensures forall k :: 0 <= k < |s| - |r| ==> IsWhitespace(s[k])
    ensures r != [] ==> !IsWhitespace(r[0])
  {
    if s != [] && IsWhitespace(s[0]) then
      var rest := s[1..];
      var r := TrimStart(rest);
      assert r == s[|s| - |r|..] by {
        assert rest[|rest| - |r|..] == s[|s| - |r|..];
      }
      assert forall k :: 1 <= k < |s| - |r| ==> s[k] == rest[k - 1];
      r
    else s
  }

  /** The prefix of s before its trailing characters at or below U+0020. */
  function TrimEnd(s: string): (r: string)
    ensures |r| <= |s| && r == s[..|r|]
    ensures forall k :: |r| <= k < |s| ==> IsWhitespace(s[k])
    ensures r != [] ==> !IsWhitespace(r[|r| - 1])
  {
    if s != [] && IsWhitespace(s[|s| - 1]) then
      var rest := s[..|s| - 1];
      var r := TrimEnd(rest);
      assert r == s[..|r|] by {
        assert rest[..|r|] == s[..|r|];
      }
      assert forall k :: |r| <= k < |s| - 1 ==> s[k] == rest[k];
      r
    else s
  }

  /**
   * String.trim: s without its leading and trailing characters at or below
   * U+0020. What remains is a slice of s that starts and ends with a
   * character above U+0020, or nothing.
   */
  function Trim(s: string): (r: string)
    ensures exists i, j :: 0 <= i <= j <= |s| && r == s[i..j]
                           && (forall k :: 0 <= k < i ==> IsWhitespace(s[k]))
                           && (forall k :: j <= k < |s| ==> IsWhitespace(s[k]))
    ensures r != [] ==> !IsWhitespace(r[0]) && !IsWhitespace(r[|r| - 1])
  {
    var front := TrimStart(s);
    var r := TrimEnd(front);
    TrimOfParts(s, front, r);
    r
  }

  /** Cutting blanks from the front of s and then from the back of what is left trims s. */
  lemma TrimOfParts(s: string, front: string, r: string)
    requires |front| <= |s| && front == s[|s| - |front|..]
    requires forall k :: 0 <= k < |s| - |front| ==> IsWhitespace(s[k])
    requires front != [] ==> !IsWhitespace(front[0])
    requires |r| <= |front| && r == front[..|r|]
    requires forall k :: |r| <= k < |front| ==> IsWhitespace(front[k])
    requires r != [] ==> !IsWhitespace(r[|r| - 1])
    ensures exists i, j :: 0 <= i <= j <= |s| && r == s[i..j]
                           && (forall k :: 0 <= k < i ==> IsWhitespace(s[k]))
                           && (forall k :: j <= k < |s| ==> IsWhitespace(s[k]))
    ensures r != [] ==> !IsWhitespace(r[0]) && !IsWhitespace(r[|r| - 1])
  {
    var i := |s| - |front|;
    var j := i + |r|;
    assert r == s[i..j];
    forall k | j <= k < |s| ensures IsWhitespace(s[k]) {
      assert s[k] == front[k - i];
    }
    if r != [] {
      assert r[0] == front[0];
    }
  }

  /** A string made only of characters at or below U+0020 trims to nothing. */
  lemma {:induction false} TrimBlank(s: string)
    requires forall k :: 0 <= k < |s| ==> IsWhitespace(s[k])
    ensures Trim(s) == []
  {
    TrimStartBlank(s);
  }

  lemma {:induction false} TrimStartBlank(s: string)
    requires forall k :: 0 <= k < |s| ==> IsWhitespace(s[k])
    ensures TrimStart(s) == []
  {
    if s != [] {
      TrimStartBlank(s[1..]);
    }
  }

  /**
   * getFullClassName: a name starting with '.' is relative to the
   * application's package, a name with a '.' elsewhere is fully qualified
   * already, and a bare name lives in RecyclerView's own package.
   */
  function FullClassName(packageName: string, className: string): (r: string)
    requires |className| > 0
    ensures className[0] == '.' ==> r == packageName + className
    ensures className[0] != '.' && '.' in className ==> r == className
    ensures '.' !in className ==> r == RECYCLER_VIEW_PACKAGE + "." + className
    ensures |r| >= |className| && r[|r| - |className|..] == className
  {
    if className[0] == '.' then packageName + className
    else if '.' in className then className
    else RECYCLER_VIEW_PACKAGE + "." + className
  }

  /** The resolved name always holds a '.', so it is never taken as a bare name again. */
  lemma FullClassNameIsQualified(packageName: string, className: string)
    requires |className| > 0
    ensures '.' in FullClassName(packageName, className)
  {
    var r := FullClassName(packageName, className);
    if className[0] == '.' {
      assert r[|packageName|] == '.';
    } else if '.' !in className {
      assert r[|RECYCLER_VIEW_PACKAGE|] == '.';
    }
  }

  /** Resolving a resolved name again gives it back. */
  lemma FullClassNameIdempotent(packageName: string, className: string)
    requires |className| > 0 && className[0] != '.'
    ensures FullClassName(packageName, FullClassName(packageName, className)) == FullClassName(packageName, className)
  {
    FullClassNameIsQualified(packageName, className);
    var r := FullClassName(packageName, className);
    if '.' !in className {
      assert r[0] == RECYCLER_VIEW_PACKAGE[0];
    }
  }

  /**
   * The name createLayoutManager goes on to load, or None when it does
   * nothing: no name, or a name that is empty once trimmed.
   */
  function LayoutManagerClassName(packageName: string, className: Option<string>): (r: Option<string>)
    ensures className.None? ==> r.None?
    ensures className.Some? ==> (r.None? <==> forall k :: 0 <= k < |className.value| ==> IsWhitespace(className.value[k]))
    ensures r.Some? ==> |Trim(className.value)| > 0 && r.value == FullClassName(packageName, Trim(className.value))
  {
    match className
    case None => None
    case Some(name) =>
      var trimmed := Trim(name);
      if |trimmed| != 0 then
        Some(FullClassName(packageName, trimmed))
      else
        assert forall k :: 0 <= k < |name| ==> IsWhitespace(name[k]) by {
          TrimStartWhenEmpty(name);
        }
        None
  }

  /** Trim gives nothing only when every character is at or below U+0020. */
  lemma TrimStartWhenEmpty(s: string)
    requires Trim(s) == []
    ensures forall k :: 0 <= k < |s| ==> IsWhitespace(s[k])
  {
    var front := TrimStart(s);
    assert TrimEnd(front) == [];
  }

  // ---------------------------------------------------------------------------
  // The view

  /**
   * ChildHelper has no behaviour here; only its identity is handed around.
   * RecyclerView never creates one: initChildrenHelper's body is commented
   * out, so the field keeps Java's default of null.
   */
  class ChildHelper {
    constructor () {}
  }

  datatype Event =
    | LayoutRequested
    | CancelTouchDispatched
    | ScrollStopped
    | ScrollCallbackWarning

  class RecyclerView {
    var childHelper: ChildHelper?
    var layoutFrozen: bool
    var layoutRequestEaten: bool
    var hasLayout: bool
    var hasAdapter: bool
    var ignoreMotionEventTillDown: bool
    var dispatchScrollCounter: int
    var layoutOrScrollCounter: int
    var width: int
    var height: int
    var events: seq<Event>

    constructor (w: int, h: int)
      ensures !layoutFrozen && !layoutRequestEaten && !hasLayout && !hasAdapter && !ignoreMotionEventTillDown
      ensures dispatchScrollCounter == 0 && layoutOrScrollCounter == 0
      ensures width == w && height == h && events == [] && childHelper == null
    {
      childHelper := null;
      layoutFrozen := false;
      layoutRequestEaten := false;
      hasLayout := false;
      hasAdapter := false;
      ignoreMotionEventTillDown := false;
      dispatchScrollCounter := 0;
      layoutOrScrollCounter := 0;
      width := w;
      height := h;
      events := [];
    }

    /** A layout or a scroll is in progress. */
    predicate IsComputingLayout(): (computing: bool)
      reads this
      ensures computing ==> layoutOrScrollCounter >= 1
      ensures !computing ==> layoutOrScrollCounter <= 0
    {
      layoutOrScrollCounter > 0
    }

    /**
     * assertNotInLayoutOrScroll: fails with the given message, or a default
     * one, exactly while a layout or a scroll is being computed; inside a
     * scroll callback it only logs a warning.
     */
    method AssertNotInLayoutOrScroll(message: Option<string>) returns (r: Result<(), string>)
      modifies this`events
      ensures r.Failure? <==> layoutOrScrollCounter > 0
      ensures r.Failure? ==> r.error == message.GetOr(DEFAULT_LAYOUT_MESSAGE) && events == old(events)
      ensures r.Success? ==>
                events == old(events) + (if dispatchScrollCounter > 0 then [ScrollCallbackWarning] else [])
    {
      if IsComputingLayout() {
        if message.None? {
          return Failure(DEFAULT_LAYOUT_MESSAGE);
        }
        return Failure(message.value);
      }
      if dispatchScrollCounter > 0 {
        events := events + [ScrollCallbackWarning];
      }
      return Success(());
    }

    /**
     * setLayoutFrozen: nothing happens when the flag already has the
     * requested value or a layout is being computed. Unfreezing clears both
     * the frozen flag and the eaten-request flag, and replays an eaten
     * layout request when a layout manager and an adapter are set.
     * Freezing cancels the current touch, sets the frozen flag and the
     * ignore-motion flag, and stops scrolling.
     */
    method SetLayoutFrozen(frozen: bool) returns (r: Result<(), string>)
      modifies this`layoutFrozen, this`layoutRequestEaten, this`ignoreMotionEventTillDown, this`events
      ensures frozen == old(layoutFrozen) ==>
                r.Success? && unchanged(this`layoutFrozen, this`layoutRequestEaten, this`ignoreMotionEventTillDown, this`events)
      ensures frozen != old(layoutFrozen) && layoutOrScrollCounter > 0 ==>
                r == Failure(FROZEN_MESSAGE)
                && unchanged(this`layoutFrozen, this`layoutRequestEaten, this`ignoreMotionEventTillDown, this`events)
      ensures frozen != old(layoutFrozen) && layoutOrScrollCounter <= 0 ==>
                && r.Success?
                && layoutFrozen == frozen
                && var warned := old(events) + (if dispatchScrollCounter > 0 then [ScrollCallbackWarning] else []);
                   if frozen then
                     && ignoreMotionEventTillDown && layoutRequestEaten == old(layoutRequestEaten)
                     && events == warned + [CancelTouchDispatched, ScrollStopped]
                   else
                     && !layoutRequestEaten && ignoreMotionEventTillDown == old(ignoreMotionEventTillDown)
                     && events == warned + (if old(layoutRequestEaten) && hasLayout && hasAdapter then [LayoutRequested] else [])
    {
      if frozen == layoutFrozen {
        return Success(());
      }
      var check := AssertNotInLayoutOrScroll(Some(FROZEN_MESSAGE));
      if check.Failure? {
        return Failure(check.error);
      }
      if !frozen {
        layoutFrozen := false;
        if layoutRequestEaten && hasLayout && hasAdapter {
          events := events + [LayoutRequested];
        }
        layoutRequestEaten := false;
      } else {
        events := events + [CancelTouchDispatched];
        layoutFrozen := true;
        ignoreMotionEventTillDown := true;
        events := events + [ScrollStopped];
      }
      return Success(());
    }
  }

  /** The measurement mode a layout manager keeps for each axis. */
  class LayoutManager {
    var recyclerView: RecyclerView?
    var childHelper: ChildHelper?
    var widthMode: int
    var heightMode: int
    var width: int
    var height: int

    constructor ()
      ensures recyclerView == null && childHelper == null
      ensures widthMode == 0 && heightMode == 0 && width == 0 && height == 0
    {
      recyclerView := null;
      childHelper := null;
      widthMode := 0;
      heightMode := 0;
      width := 0;
      height := 0;
    }

    /**
     * setRecyclerView: attaching copies the view's child helper and size,
     * detaching clears them; both leave the two axes in EXACTLY mode.
     */
    method SetRecyclerView(rv: RecyclerView?)
      modifies this
      ensures recyclerView == rv
      ensures rv == null ==> childHelper == null && width == 0 && height == 0
      ensures rv != null ==> childHelper == rv.childHelper && width == rv.width && height == rv.height
      ensures widthMode == EXACTLY && heightMode == EXACTLY
    {
      if rv == null {
        recyclerView := null;
        childHelper := null;
        width := 0;
        height := 0;
      } else {
        recyclerView := rv;
        childHelper := rv.childHelper;
        width := rv.width;
        height := rv.height;
      }
      widthMode := EXACTLY;
      heightMode := EXACTLY;
    }
  }
}
