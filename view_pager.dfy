/**
 * The page-record bookkeeping of ViewPager: the list of ItemInfo records for
 * the pages that currently exist, the current item, and the scroll state.
 * Calls out of this bookkeeping (listeners, the adapter's update callbacks,
 * populate, scrollToItem, requestLayout) are appended to an event log in
 * the order the Java code makes them.
 */
module ViewPager {
  import opened Wrappers
  import opened StableSort

  const SCROLL_STATE_IDLE: int := 0
  const SCROLL_STATE_DRAGGING: int := 1
  const SCROLL_STATE_SETTLING: int := 2

  const DEFAULT_OFFSCREEN_PAGES: int := 1

  /** PagerAdapter.getItemPosition results that are not new positions. */
  const POSITION_UNCHANGED: int := -1
  const POSITION_NONE: int := -2

  const INT_MIN: int := -0x8000_0000
  const INT_MAX: int := 0x7fff_ffff

  /**
   * ItemInfo. `obj` is the adapter's page object, compared by identity;
   * `widthFactor` and `offset` are carried along and never computed here.
   */
  datatype ItemInfo = ItemInfo(obj: int, position: int, scrolling: bool, widthFactor: real, offset: real)

  /** The adapter calls the bookkeeping makes, as functions of their arguments. */
  datatype PagerAdapter = PagerAdapter(
    count: int,
    itemPosition: int -> int,
    instantiateItem: int -> int,
    pageWidth: int -> real)

  datatype Event =
    | PageSelected(position: int)
    | ScrollStateChanged(state: int)
    | LayoutRequested
    | Populate(item: int)
    | ScrollToItem(item: int, smoothScroll: bool, velocity: int, dispatchSelected: bool)
    | StartUpdate
    | DestroyItem(position: int, obj: int)
    | FinishUpdate
    | EndScrollPosted

  /** The part of the pager that setCurrentItemInternal reads and writes. */
  datatype PagerState = PagerState(items: seq<ItemInfo>, curItem: int, events: seq<Event>)

  function Min(a: int, b: int): int { if a <= b then a else b }
  function Max(a: int, b: int): int { if a >= b then a else b }
  function Abs(x: int): int { if x < 0 then -x else x }

  /** The comparator by position, as a sort key. */
  function PositionKey(ii: ItemInfo): Key {
    Key(ii.position, 0)
  }

  // ---------------------------------------------------------------------------
  // Record-list helpers

  /** Every record with its scrolling flag set to `flag`. */
  function MarkScrolling(s: seq<ItemInfo>, flag: bool): (r: seq<ItemInfo>)
    ensures |r| == |s|
    ensures forall i :: 0 <= i < |r| ==> r[i].scrolling == flag && r[i].(scrolling := s[i].scrolling) == s[i]
  {
    seq(|s|, i requires 0 <= i < |s| => s[i].(scrolling := flag))
  }

  /** ArrayList.add(index, x) when index is in range, ArrayList.add(x) otherwise. */
  function InsertAt(s: seq<ItemInfo>, index: int, x: ItemInfo): (r: seq<ItemInfo>)
    ensures |r| == |s| + 1
    ensures var slot := if 0 <= index < |s| then index else |s|;
            && r[slot] == x
            && r[..slot] + r[slot + 1..] == s
  {
    if index < 0 || index >= |s| then s + [x] else s[..index] + [x] + s[index..]
  }

  // ---------------------------------------------------------------------------
  // setCurrentItemInternal

  /** The requested item forced into [0, count - 1]. */
  function Clamp(item: int, count: int): (r: int)
    ensures count > 0 ==> 0 <= r < count
    ensures 0 <= item < count ==> r == item
  {
    if item < 0 then 0 else if item >= count then count - 1 else item
  }

  predicate SetCurrentIsNoOp(st: PagerState, adapter: Option<PagerAdapter>, item: int, always: bool) {
    || adapter.None? || adapter.value.count <= 0
    || (!always && st.curItem == item && |st.items| != 0)
  }

  /** More than `limit` pages away from the current item. */
  predicate IsJump(target: int, curItem: int, limit: int) {
    target > curItem + limit || target < curItem - limit
  }

  /**
   * setCurrentItemInternal on the pager state. Outside the first layout the
   * call hands over to populate, whose first step makes the target the
   * current item, and then to scrollToItem; the rest of both is not modelled
   * and appears only as events.
   */
  function SetCurrentItemSpec(st: PagerState, adapter: Option<PagerAdapter>, firstLayout: bool, limit: int,
                              item: int, smoothScroll: bool, always: bool, velocity: int): PagerState
  {
    if SetCurrentIsNoOp(st, adapter, item, always) then st
    else
      var target := Clamp(item, adapter.value.count);
      var items := if IsJump(target, st.curItem, limit) then MarkScrolling(st.items, true) else st.items;
      var dispatchSelected := st.curItem != target;
      if firstLayout then
        PagerState(items, target, st.events + (if dispatchSelected then [PageSelected(target)] else []) + [LayoutRequested])
      else
        PagerState(items, target, st.events + [Populate(target), ScrollToItem(target, smoothScroll, velocity, dispatchSelected)])
  }

  // ---------------------------------------------------------------------------
  // dataSetChanged, record by record

  /** What the change loop leaves of one record: None when the adapter reports it gone. */
  function Updated(a: PagerAdapter, ii: ItemInfo): Option<ItemInfo> {
    var newPos := a.itemPosition(ii.obj);
    if newPos == POSITION_UNCHANGED then Some(ii)
    else if newPos == POSITION_NONE then None
    else Some(ii.(position := newPos))
  }

  /** The adapter reports the record gone or at a different position. */
  predicate Changed(a: PagerAdapter, ii: ItemInfo) {
    var newPos := a.itemPosition(ii.obj);
    newPos != POSITION_UNCHANGED && (newPos == POSITION_NONE || ii.position != newPos)
  }

  function KeptPart(a: PagerAdapter, ii: ItemInfo): seq<ItemInfo> {
    match Updated(a, ii) case Some(r) => [r] case None => []
  }

  /** The records the change loop keeps of the first n records, in list order. */
  function KeptUpTo(a: PagerAdapter, s: seq<ItemInfo>, n: int): (r: seq<ItemInfo>)
    requires 0 <= n <= |s|
    ensures |r| <= n
  {
    if n == 0 then [] else KeptUpTo(a, s, n - 1) + KeptPart(a, s[n - 1])
  }

  function Kept(a: PagerAdapter, s: seq<ItemInfo>): seq<ItemInfo> {
    KeptUpTo(a, s, |s|)
  }

  function DestroyPart(a: PagerAdapter, ii: ItemInfo): seq<Event> {
    if a.itemPosition(ii.obj) == POSITION_NONE then [DestroyItem(ii.position, ii.obj)] else []
  }

  /** The destroyItem calls for the removed records among the first n, in list order. */
  function DestroyUpTo(a: PagerAdapter, s: seq<ItemInfo>, n: int): seq<Event>
    requires 0 <= n <= |s|
  {
    if n == 0 then [] else DestroyUpTo(a, s, n - 1) + DestroyPart(a, s[n - 1])
  }

  /** The adapter events of the change loop: startUpdate before the first removal, finishUpdate at the end. */
  function UpdateEvents(a: PagerAdapter, s: seq<ItemInfo>): seq<Event> {
    var d := DestroyUpTo(a, s, |s|);
    if d == [] then [] else [StartUpdate] + d + [FinishUpdate]
  }

  function StepCurrent(a: PagerAdapter, curItem: int, newCurr: int, ii: ItemInfo): int {
    var newPos := a.itemPosition(ii.obj);
    if newPos == POSITION_UNCHANGED then newCurr
    else if newPos == POSITION_NONE then
      (if curItem == ii.position then Max(0, Min(curItem, a.count - 1)) else newCurr)
    else if ii.position != newPos && ii.position == curItem then newPos
    else newCurr
  }

  /** newCurrItem after the loop has seen the first n records. */
  function NewCurrentUpTo(a: PagerAdapter, curItem: int, s: seq<ItemInfo>, n: int): int
    requires 0 <= n <= |s|
  {
    if n == 0 then curItem else StepCurrent(a, curItem, NewCurrentUpTo(a, curItem, s, n - 1), s[n - 1])
  }

  function NewCurrent(a: PagerAdapter, curItem: int, s: seq<ItemInfo>): int {
    NewCurrentUpTo(a, curItem, s, |s|)
  }

  predicate AnyChanged(a: PagerAdapter, s: seq<ItemInfo>, n: int)
    requires 0 <= n <= |s|
  {
    exists j :: 0 <= j < n && Changed(a, s[j])
  }

  /** needPopulate at the end of the change loop. */
  predicate NeedPopulate(a: PagerAdapter, limit: int, s: seq<ItemInfo>, n: int)
    requires 0 <= n <= |s|
  {
    (|s| < limit * 2 + 1 && |s| < a.count) || AnyChanged(a, s, n)
  }

  /** The pager state after the change loop and the sort, before any populate. */
  function SortedAfterChanges(st: PagerState, a: PagerAdapter): PagerState {
    PagerState(Sort(Kept(a, st.items), PositionKey), st.curItem, st.events + UpdateEvents(a, st.items))
  }

  /**
   * dataSetChanged on the pager state: the change loop, the sort by
   * position and, when the loop asks for it, setCurrentItemInternal on the
   * new current item followed by a layout request.
   */
  function DataSetChangedSpec(st: PagerState, a: PagerAdapter, firstLayout: bool, limit: int): PagerState {
    var mid := SortedAfterChanges(st, a);
    if NeedPopulate(a, limit, st.items, |st.items|) then
      var next := SetCurrentItemSpec(mid, Some(a), firstLayout, limit, NewCurrent(a, st.curItem, st.items), false, true, 0);
      next.(events := next.events + [LayoutRequested])
    else
      mid
  }

  // ---------------------------------------------------------------------------
  // determineTargetPage

  /** Java's (int) cast of a float: truncation toward zero, saturating at the int range. */
  function TruncateToInt(x: real): (r: int)
    ensures INT_MIN <= r <= INT_MAX
    ensures 0.0 <= x <= INT_MAX as real ==> r as real <= x < r as real + 1.0
    ensures INT_MIN as real <= x <= 0.0 ==> r as real - 1.0 < x <= r as real
    ensures x > INT_MAX as real ==> r == INT_MAX
    ensures x < INT_MIN as real ==> r == INT_MIN
  {
    var t := if x >= 0.0 then x.Floor else -((-x).Floor);
    Max(INT_MIN, Min(t, INT_MAX))
  }

  /** Math.abs on an int: the int minimum has no positive counterpart and stays negative. */
  function AbsInt(x: int): (r: int)
    ensures x != INT_MIN ==> r >= 0 && (r == x || r == -x)
    ensures x == INT_MIN ==> r == INT_MIN
  {
    if x == INT_MIN then INT_MIN else Abs(x)
  }

  predicate IsFling(deltaX: int, velocity: int, flingDistance: int, minimumVelocity: int) {
    AbsInt(deltaX) > flingDistance && AbsInt(velocity) > minimumVelocity
  }

  // ---------------------------------------------------------------------------
  // The pager

  class ViewPager {
    var adapter: Option<PagerAdapter>
    var items: seq<ItemInfo>
    var curItem: int
    var expectedAdapterCount: int
    var firstLayout: bool
    var offscreenPageLimit: int
    var scrollState: int
    var flingDistance: int
    var minimumVelocity: int
    var populatePending: bool
    var events: seq<Event>

    function State(): PagerState
      reads this
    {
      PagerState(items, curItem, events)
    }

    /** initViewPager with the density-dependent thresholds already converted to pixels. */
    constructor (flingDistancePx: int, minimumVelocityPx: int)
      ensures adapter.None? && items == [] && curItem == 0 && expectedAdapterCount == 0
      ensures firstLayout && offscreenPageLimit == DEFAULT_OFFSCREEN_PAGES
      ensures scrollState == SCROLL_STATE_IDLE && !populatePending && events == []
      ensures flingDistance == flingDistancePx && minimumVelocity == minimumVelocityPx
    {
      adapter := None;
      items := [];
      curItem := 0;
      expectedAdapterCount := 0;
      firstLayout := true;
      offscreenPageLimit := DEFAULT_OFFSCREEN_PAGES;
      scrollState := SCROLL_STATE_IDLE;
      flingDistance := flingDistancePx;
      minimumVelocity := minimumVelocityPx;
      populatePending := false;
      events := [];
    }

    method SetCurrentItemInternal(item: int, smoothScroll: bool, always: bool, velocity: int)
      modifies this`items, this`curItem, this`events
      ensures State() == SetCurrentItemSpec(old(State()), adapter, firstLayout, offscreenPageLimit,
                                            item, smoothScroll, always, velocity)
    {
      if adapter.None? || adapter.value.count <= 0 {
        return;
      }
      if !always && curItem == item && |items| != 0 {
        return;
      }
      var target := item;
      if target < 0 {
        target := 0;
      } else if target >= adapter.value.count {
        target := adapter.value.count - 1;
      }
      assert target == Clamp(item, adapter.value.count);
      ghost var st0 := State();
      assert !SetCurrentIsNoOp(st0, adapter, item, always);
      ghost var marked := if IsJump(target, curItem, offscreenPageLimit) then MarkScrolling(items, true) else items;
      var pageLimit := offscreenPageLimit;
      if target > curItem + pageLimit || target < curItem - pageLimit {
        SetScrollingFlags();
      }
      assert items == marked;
      var dispatchSelected := curItem != target;
      if firstLayout {
        curItem := target;
        ghost var before := events;
        if dispatchSelected {
          events := events + [PageSelected(target)];
        }
        events := events + [LayoutRequested];
        assert events == before + (if dispatchSelected then [PageSelected(target)] else []) + [LayoutRequested];
        assert State() == PagerState(marked, target, st0.events + (if dispatchSelected then [PageSelected(target)] else []) + [LayoutRequested]);
      } else {
        ghost var before := events;
        events := events + [Populate(target)];
        curItem := target;
        events := events + [ScrollToItem(target, smoothScroll, velocity, dispatchSelected)];
        assert events == before + [Populate(target), ScrollToItem(target, smoothScroll, velocity, dispatchSelected)];
        assert State() == PagerState(marked, target, st0.events + [Populate(target), ScrollToItem(target, smoothScroll, velocity, dispatchSelected)]);
      }
    }

    /** The loop of setCurrentItemInternal that marks every record as scrolling before a jump. */
    method SetScrollingFlags()
      modifies this`items
      ensures items == MarkScrolling(old(items), true)
    {
      var i := 0;
      ghost var orig := items;
      while i < |items|
        invariant 0 <= i <= |items| == |orig|
        invariant forall j :: 0 <= j < i ==> items[j] == orig[j].(scrolling := true)
        invariant forall j :: i <= j < |items| ==> items[j] == orig[j]
      {
        items := items[i := items[i].(scrolling := true)];
        i := i + 1;
      }
      assert items == MarkScrolling(orig, true);
    }

    method SetScrollState(newState: int)
      modifies this`scrollState, this`events
      ensures old(scrollState) == newState ==> scrollState == old(scrollState) && events == old(events)
      ensures old(scrollState) != newState ==>
                scrollState == newState && events == old(events) + [ScrollStateChanged(newState)]
    {
      if scrollState == newState {
        return;
      }
      scrollState := newState;
      events := events + [ScrollStateChanged(newState)];
    }

    /** completeScroll after the scroller has been stopped: clears every scrolling flag. */
    method CompleteScroll(postEvents: bool)
      modifies this`items, this`populatePending, this`scrollState, this`events
      ensures !populatePending
      ensures items == MarkScrolling(old(items), false)
      ensures var needPopulate := old(scrollState) == SCROLL_STATE_SETTLING
                                  || exists j :: 0 <= j < |old(items)| && old(items)[j].scrolling;
              && (!needPopulate ==> scrollState == old(scrollState) && events == old(events))
              && (needPopulate && postEvents ==> scrollState == old(scrollState) && events == old(events) + [EndScrollPosted])
              && (needPopulate && !postEvents ==>
                    scrollState == SCROLL_STATE_IDLE
                    && events == old(events)
                                 + (if old(scrollState) != SCROLL_STATE_IDLE then [ScrollStateChanged(SCROLL_STATE_IDLE)] else [])
                                 + [Populate(curItem)])
    {
      var needPopulate := scrollState == SCROLL_STATE_SETTLING;
      populatePending := false;
      var wasScrolling := ClearScrollingFlags();
      needPopulate := needPopulate || wasScrolling;
      if needPopulate {
        if postEvents {
          events := events + [EndScrollPosted];
        } else {
          SetScrollState(SCROLL_STATE_IDLE);
          events := events + [Populate(curItem)];
        }
      }
    }

    /** The loop of completeScroll: clears every scrolling flag and reports whether one was set. */
    method ClearScrollingFlags() returns (anyScrolling: bool)
      modifies this`items
      ensures items == MarkScrolling(old(items), false)
      ensures anyScrolling == exists j :: 0 <= j < |old(items)| && old(items)[j].scrolling
    {
      anyScrolling := false;
      ghost var orig := items;
      var i := 0;
      while i < |items|
        invariant 0 <= i <= |items| == |orig|
        invariant forall j :: 0 <= j < i ==> items[j] == orig[j].(scrolling := false)
        invariant forall j :: i <= j < |items| ==> items[j] == orig[j]
        invariant anyScrolling == exists j :: 0 <= j < i && orig[j].scrolling
      {
        var ii := items[i];
        if ii.scrolling {
          anyScrolling := true;
          items := items[i := ii.(scrolling := false)];
        }
        i := i + 1;
      }
      assert items == MarkScrolling(orig, false);
    }

    method DataSetChanged()
      requires adapter.Some?
      modifies this`items, this`curItem, this`events, this`expectedAdapterCount
      ensures expectedAdapterCount == adapter.value.count
      ensures State() == DataSetChangedSpec(old(State()), adapter.value, firstLayout, offscreenPageLimit)
    {
      ghost var st0 := State();
      var adapterCount := adapter.value.count;
      expectedAdapterCount := adapterCount;
      var needPopulate, newCurrItem := UpdateItemPositions();
      items := Sort(items, PositionKey);
      assert State() == SortedAfterChanges(st0, adapter.value);
      if needPopulate {
        SetCurrentItemInternal(newCurrItem, false, true, 0);
        ghost var next := State();
        events := events + [LayoutRequested];
        assert State() == next.(events := next.events + [LayoutRequested]);
      }
    }

    /**
     * The loop of dataSetChanged: asks the adapter for each record's new
     * position, removes the records it reports gone and moves the others.
     * The list and the event log are updated on local copies that are
     * written back at the end; nothing observes them in between.
     */
    method UpdateItemPositions() returns (needPopulate: bool, newCurrItem: int)
      requires adapter.Some?
      modifies this`items, this`events
      ensures var a := adapter.value;
              && items == Kept(a, old(items))
              && events == old(events) + UpdateEvents(a, old(items))
              && needPopulate == NeedPopulate(a, offscreenPageLimit, old(items), |old(items)|)
              && newCurrItem == NewCurrent(a, curItem, old(items))
    {
      var list, log;
      list, log, needPopulate, newCurrItem := ScanItems(adapter.value, offscreenPageLimit, curItem, items, events);
      items := list;
      events := log;
    }

    method InfoForPosition(position: int) returns (r: Option<ItemInfo>)
      ensures r.None? <==> forall j :: 0 <= j < |items| ==> items[j].position != position
      ensures r.Some? ==> exists j :: 0 <= j < |items| && items[j] == r.value && r.value.position == position
                                      && forall m :: 0 <= m < j ==> items[m].position != position
    {
      var i := 0;
      while i < |items|
        invariant 0 <= i <= |items|
        invariant forall m :: 0 <= m < i ==> items[m].position != position
      {
        var ii := items[i];
        if ii.position == position {
          return Some(ii);
        }
        i := i + 1;
      }
      return None;
    }

    method AddNewItem(position: int, index: int) returns (ii: ItemInfo)
      requires adapter.Some?
      modifies this`items
      ensures ii == ItemInfo(adapter.value.instantiateItem(position), position, false, adapter.value.pageWidth(position), 0.0)
      ensures items == InsertAt(old(items), index, ii)
    {
      ii := ItemInfo(adapter.value.instantiateItem(position), position, false, adapter.value.pageWidth(position), 0.0);
      if index < 0 || index >= |items| {
        items := items + [ii];
      } else {
        items := items[..index] + [ii] + items[index..];
      }
    }

    /** The truncator determineTargetPage adds to the offset: 0.4 from the current item on, 0.6 before it. */
    function Truncator(currentPage: int): real
      reads this
    {
      if currentPage >= curItem then 0.4 else 0.6
    }

    /**
     * The page a drag ends on before it is kept within the records: on a
     * fling the current page or the next one by the velocity's sign,
     * otherwise the current page moved by the int cast of the offset plus
     * the truncator.
     */
    function UnclampedTargetPage(currentPage: int, pageOffset: real, velocity: int, deltaX: int): (pick: int)
      reads this
      ensures IsFling(deltaX, velocity, flingDistance, minimumVelocity) ==>
                pick == if velocity > 0 then currentPage else currentPage + 1
      ensures var x := pageOffset + Truncator(currentPage);
              && (!IsFling(deltaX, velocity, flingDistance, minimumVelocity) && 0.0 <= x <= INT_MAX as real ==>
                    (pick - currentPage) as real <= x < (pick - currentPage) as real + 1.0)
              && (!IsFling(deltaX, velocity, flingDistance, minimumVelocity) && INT_MIN as real <= x <= 0.0 ==>
                    (pick - currentPage) as real - 1.0 < x <= (pick - currentPage) as real)
              && (!IsFling(deltaX, velocity, flingDistance, minimumVelocity) && x > INT_MAX as real ==>
                    pick == currentPage + INT_MAX)
              && (!IsFling(deltaX, velocity, flingDistance, minimumVelocity) && x < INT_MIN as real ==>
                    pick == currentPage + INT_MIN)
    {
      if IsFling(deltaX, velocity, flingDistance, minimumVelocity) then
        (if velocity > 0 then currentPage else currentPage + 1)
      else
        currentPage + TruncateToInt(pageOffset + Truncator(currentPage))
    }

    /**
     * The page a drag ends on: the unclamped pick, kept within the positions
     * of the first and last records when there are any.
     */
    function DetermineTargetPage(currentPage: int, pageOffset: real, velocity: int, deltaX: int): (target: int)
      reads this
      ensures var pick := UnclampedTargetPage(currentPage, pageOffset, velocity, deltaX);
              && (|items| == 0 ==> target == pick)
              && (|items| > 0 ==>
                    var first, last := items[0].position, items[|items| - 1].position;
                    && (first <= pick <= last ==> target == pick)
                    && (pick < first ==> target == first)
                    && (pick > last && first <= last ==> target == last)
                    && (first > last ==> target == first)
                    && (first <= last ==> first <= target <= last))
    {
      var targetPage := UnclampedTargetPage(currentPage, pageOffset, velocity, deltaX);
      if |items| > 0 then
        Max(items[0].position, Min(targetPage, items[|items| - 1].position))
      else
        targetPage
    }
  }

  /**
   * Without a fling and with an offset in [0, 1), the drag moves on to the
   * next page exactly when the offset reaches 0.6 from the current item on,
   * or 0.4 before it.
   */
  lemma UnclampedTargetPageRounds(pager: ViewPager, currentPage: int, pageOffset: real, velocity: int, deltaX: int)
    requires !IsFling(deltaX, velocity, pager.flingDistance, pager.minimumVelocity)
    requires 0.0 <= pageOffset < 1.0
    ensures var pick := pager.UnclampedTargetPage(currentPage, pageOffset, velocity, deltaX);
            var threshold := if currentPage >= pager.curItem then 0.6 else 0.4;
            && (pick == currentPage + 1 <==> pageOffset >= threshold)
            && (pick == currentPage <==> pageOffset < threshold)
  {
    var x := pageOffset + pager.Truncator(currentPage);
    assert 0.0 <= x < 2.0;
  }

  // ---------------------------------------------------------------------------
  // Properties

  /**
   * The loop of dataSetChanged on the record list and the event log: asks
   * the adapter for each record's new position, removes the records it
   * reports gone and moves the others.
   */
  method ScanItems(a: PagerAdapter, limit: int, current: int, items: seq<ItemInfo>, events: seq<Event>)
    returns (list: seq<ItemInfo>, log: seq<Event>, needPopulate: bool, newCurrItem: int)
    ensures list == Kept(a, items)
    ensures log == events + UpdateEvents(a, items)
    ensures needPopulate == NeedPopulate(a, limit, items, |items|)
    ensures newCurrItem == NewCurrent(a, current, items)
  {
    list := items;
    log := events;
    needPopulate := |list| < limit * 2 + 1 && |list| < a.count;
    newCurrItem := current;
    ghost var k := 0;
    var isUpdating := false;
    var i := 0;
    ScanStart(a, limit, current, items, events, needPopulate);
    while i < |list|
      invariant ScanInv(a, limit, current, events, items, k, list, i, log, isUpdating, needPopulate, newCurrItem)
      decreases |list| - i
    {
      list, i, log, isUpdating, needPopulate, newCurrItem :=
        ScanRecord(a, limit, current, events, items, k, list, i, log, isUpdating, needPopulate, newCurrItem);
      k := k + 1;
      i := i + 1;
    }
    ScanDone(a, limit, current, events, items, k, list, i, log, isUpdating, needPopulate, newCurrItem);
    if isUpdating {
      log := log + [FinishUpdate];
    }
  }

  /**
   * One pass of the dataSetChanged loop body on the record at index i. A
   * removed record leaves the index one back, as the Java loop's i-- does.
   */
  method ScanRecord(a: PagerAdapter, limit: int, current: int, ghost ev0: seq<Event>, ghost orig: seq<ItemInfo>, ghost k: int,
                    list: seq<ItemInfo>, i: int, log: seq<Event>, isUpdating: bool, needPopulate: bool, newCurrItem: int)
    returns (list1: seq<ItemInfo>, i1: int, log1: seq<Event>, isUpdating1: bool, needPopulate1: bool, newCurrItem1: int)
    requires ScanInv(a, limit, current, ev0, orig, k, list, i, log, isUpdating, needPopulate, newCurrItem)
    requires i < |list|
    ensures ScanInv(a, limit, current, ev0, orig, k + 1, list1, i1 + 1, log1, isUpdating1, needPopulate1, newCurrItem1)
    ensures |list1| - i1 < |list| - i + 1
  {
    ScanNext(a, limit, current, ev0, orig, k, list, i, log, isUpdating, needPopulate, newCurrItem);
    list1, i1, log1, isUpdating1, needPopulate1, newCurrItem1 := list, i, log, isUpdating, needPopulate, newCurrItem;
    var ii := list[i];
    var newPos := a.itemPosition(ii.obj);
    if newPos == POSITION_UNCHANGED {
      ScanKeep(a, limit, current, ev0, orig, k, list, i, log, isUpdating, needPopulate, newCurrItem);
      return;
    }
    if newPos == POSITION_NONE {
      list1 := list1[..i] + list1[i + 1..];
      i1 := i1 - 1;
      if !isUpdating1 {
        log1 := log1 + [StartUpdate];
        isUpdating1 := true;
      }
      log1 := log1 + [DestroyItem(ii.position, ii.obj)];
      needPopulate1 := true;
      if current == ii.position {
        newCurrItem1 := Max(0, Min(current, a.count - 1));
        needPopulate1 := true;
      }
      ScanRemove(a, limit, current, ev0, orig, k, list, i, log, isUpdating, needPopulate, newCurrItem,
                 list1, log1, newCurrItem1);
      return;
    }
    if ii.position != newPos {
      if ii.position == current {
        newCurrItem1 := newPos;
      }
      list1 := list1[i := ii.(position := newPos)];
      needPopulate1 := true;
      ScanMove(a, limit, current, ev0, orig, k, list, i, log, isUpdating, needPopulate, newCurrItem,
               list1, newCurrItem1);
    } else {
      ScanKeep(a, limit, current, ev0, orig, k, list, i, log, isUpdating, needPopulate, newCurrItem);
    }
  }

  /** The invariant of the change loop after it has seen the first k records. */
  ghost predicate ScanInv(a: PagerAdapter, limit: int, current: int, ev0: seq<Event>, orig: seq<ItemInfo>, k: int,
                          list: seq<ItemInfo>, i: int, log: seq<Event>, isUpdating: bool, need: bool, newCurr: int)
  {
    && 0 <= k <= |orig|
    && list == KeptUpTo(a, orig, k) + orig[k..]
    && i == |KeptUpTo(a, orig, k)|
    && need == NeedPopulate(a, limit, orig, k)
    && newCurr == NewCurrentUpTo(a, current, orig, k)
    && isUpdating == (DestroyUpTo(a, orig, k) != [])
    && log == ev0 + (if isUpdating then [StartUpdate] else []) + DestroyUpTo(a, orig, k)
  }

  lemma ScanStart(a: PagerAdapter, limit: int, current: int, orig: seq<ItemInfo>, log: seq<Event>, need: bool)
    requires need == (|orig| < limit * 2 + 1 && |orig| < a.count)
    ensures ScanInv(a, limit, current, log, orig, 0, orig, 0, log, false, need, current)
  {
    assert orig[0..] == orig;
  }

  lemma ScanNext(a: PagerAdapter, limit: int, current: int, ev0: seq<Event>, orig: seq<ItemInfo>, k: int,
                 list: seq<ItemInfo>, i: int, log: seq<Event>, isUpdating: bool, need: bool, newCurr: int)
    requires ScanInv(a, limit, current, ev0, orig, k, list, i, log, isUpdating, need, newCurr)
    requires i < |list|
    ensures k < |orig| && 0 <= i && list[i] == orig[k]
  {
    Splice(KeptUpTo(a, orig, k), orig[k..], orig[k]);
  }

  lemma ScanDone(a: PagerAdapter, limit: int, current: int, ev0: seq<Event>, orig: seq<ItemInfo>, k: int,
                 list: seq<ItemInfo>, i: int, log: seq<Event>, isUpdating: bool, need: bool, newCurr: int)
    requires ScanInv(a, limit, current, ev0, orig, k, list, i, log, isUpdating, need, newCurr)
    requires i >= |list|
    ensures list == Kept(a, orig)
    ensures need == NeedPopulate(a, limit, orig, |orig|)
    ensures newCurr == NewCurrent(a, current, orig)
    ensures log + (if isUpdating then [FinishUpdate] else []) == ev0 + UpdateEvents(a, orig)
  {
    assert k == |orig|;
    var destroyed := DestroyUpTo(a, orig, |orig|);
    if isUpdating {
      assert log + [FinishUpdate] == ev0 + ([StartUpdate] + destroyed + [FinishUpdate]);
    } else {
      assert destroyed == [] && log + [] == ev0 + [];
    }
  }

  /** A record the adapter reports unchanged, or at the position it already has. */
  lemma ScanKeep(a: PagerAdapter, limit: int, current: int, ev0: seq<Event>, orig: seq<ItemInfo>, k: int,
                 list: seq<ItemInfo>, i: int, log: seq<Event>, isUpdating: bool, need: bool, newCurr: int)
    requires ScanInv(a, limit, current, ev0, orig, k, list, i, log, isUpdating, need, newCurr)
    requires k < |orig|
    requires var newPos := a.itemPosition(orig[k].obj);
             newPos == POSITION_UNCHANGED || (newPos != POSITION_NONE && newPos == orig[k].position)
    ensures ScanInv(a, limit, current, ev0, orig, k + 1, list, i + 1, log, isUpdating, need, newCurr)
  {
    var kept := KeptUpTo(a, orig, k);
    var ii := orig[k];
    Splice(kept, orig[k..], ii);
    assert orig[k..][1..] == orig[k + 1..];
    assert KeptPart(a, ii) == [ii] && DestroyPart(a, ii) == [];
    assert KeptUpTo(a, orig, k + 1) == kept + [ii];
    assert list == KeptUpTo(a, orig, k + 1) + orig[k + 1..];
    assert !Changed(a, ii);
    AnyChangedStep(a, orig, k);
  }

  /** A record the adapter reports gone. */
  lemma ScanRemove(a: PagerAdapter, limit: int, current: int, ev0: seq<Event>, orig: seq<ItemInfo>, k: int,
                   list: seq<ItemInfo>, i: int, log: seq<Event>, isUpdating: bool, need: bool, newCurr: int,
                   list1: seq<ItemInfo>, log1: seq<Event>, newCurr1: int)
    requires 0 <= k < |orig|
    requires ScanInv(a, limit, current, ev0, orig, k, list, i, log, isUpdating, need, newCurr) && a.itemPosition(orig[k].obj) == POSITION_NONE
    requires i < |list| && list1 == list[..i] + list[i + 1..]
    requires log1 == log + (if isUpdating then [] else [StartUpdate]) + [DestroyItem(orig[k].position, orig[k].obj)]
    requires newCurr1 == if current == orig[k].position then Max(0, Min(current, a.count - 1)) else newCurr
    ensures ScanInv(a, limit, current, ev0, orig, k + 1, list1, i, log1, true, true, newCurr1)
  {
    var kept := KeptUpTo(a, orig, k);
    var ii := orig[k];
    Splice(kept, orig[k..], ii);
    assert orig[k..][1..] == orig[k + 1..];
    assert KeptPart(a, ii) == [] && DestroyPart(a, ii) == [DestroyItem(ii.position, ii.obj)];
    assert KeptUpTo(a, orig, k + 1) == kept;
    assert list1 == KeptUpTo(a, orig, k + 1) + orig[k + 1..];
    assert newCurr1 == NewCurrentUpTo(a, current, orig, k + 1);
    ScanRemoveLog(a, orig, k, ev0, log, isUpdating, log1);
    assert Changed(a, ii);
    AnyChangedStep(a, orig, k);
  }

  /** The event log after a removal: startUpdate once, then one destroyItem per removed record. */
  lemma ScanRemoveLog(a: PagerAdapter, orig: seq<ItemInfo>, k: int, ev0: seq<Event>, log: seq<Event>, isUpdating: bool,
                      log1: seq<Event>)
    requires 0 <= k < |orig| && a.itemPosition(orig[k].obj) == POSITION_NONE
    requires isUpdating == (DestroyUpTo(a, orig, k) != [])
    requires log == ev0 + (if isUpdating then [StartUpdate] else []) + DestroyUpTo(a, orig, k)
    requires log1 == log + (if isUpdating then [] else [StartUpdate]) + [DestroyItem(orig[k].position, orig[k].obj)]
    ensures DestroyUpTo(a, orig, k + 1) != []
    ensures log1 == ev0 + [StartUpdate] + DestroyUpTo(a, orig, k + 1)
  {
    var ii := orig[k];
    var d := DestroyUpTo(a, orig, k);
    var e := DestroyItem(ii.position, ii.obj);
    assert DestroyUpTo(a, orig, k + 1) == d + [e];
    if isUpdating {
      assert log1 == (ev0 + [StartUpdate] + d) + [e];
    } else {
      assert d == [] && log1 == ev0 + [StartUpdate] + [e];
    }
  }

  /** A record the adapter reports at a new position. */
  lemma ScanMove(a: PagerAdapter, limit: int, current: int, ev0: seq<Event>, orig: seq<ItemInfo>, k: int,
                 list: seq<ItemInfo>, i: int, log: seq<Event>, isUpdating: bool, need: bool, newCurr: int,
                 list1: seq<ItemInfo>, newCurr1: int)
    requires 0 <= k < |orig|
    requires ScanInv(a, limit, current, ev0, orig, k, list, i, log, isUpdating, need, newCurr)
    requires var newPos := a.itemPosition(orig[k].obj);
             newPos != POSITION_UNCHANGED && newPos != POSITION_NONE && newPos != orig[k].position
    requires i < |list| && list1 == list[i := orig[k].(position := a.itemPosition(orig[k].obj))]
    requires newCurr1 == if orig[k].position == current then a.itemPosition(orig[k].obj) else newCurr
    ensures ScanInv(a, limit, current, ev0, orig, k + 1, list1, i + 1, log, isUpdating, true, newCurr1)
  {
    var kept := KeptUpTo(a, orig, k);
    var ii := orig[k];
    var moved := ii.(position := a.itemPosition(ii.obj));
    Splice(kept, orig[k..], moved);
    assert orig[k..][1..] == orig[k + 1..];
    assert KeptPart(a, ii) == [moved] && DestroyPart(a, ii) == [];
    assert KeptUpTo(a, orig, k + 1) == kept + [moved];
    assert list1 == KeptUpTo(a, orig, k + 1) + orig[k + 1..];
    assert Changed(a, ii);
    AnyChangedStep(a, orig, k);
  }

  lemma Splice(front: seq<ItemInfo>, rest: seq<ItemInfo>, y: ItemInfo)
    requires rest != []
    ensures (front + rest)[|front|] == rest[0]
    ensures (front + rest)[..|front|] + (front + rest)[|front| + 1..] == front + rest[1..]
    ensures (front + rest)[|front| := y] == front + [y] + rest[1..]
  {
    assert (front + rest)[..|front|] == front;
    assert (front + rest)[|front| + 1..] == rest[1..];
    assert rest == [rest[0]] + rest[1..];
  }

  lemma AnyChangedStep(a: PagerAdapter, s: seq<ItemInfo>, k: int)
    requires 0 <= k < |s|
    ensures AnyChanged(a, s, k + 1) <==> AnyChanged(a, s, k) || Changed(a, s[k])
  {
  }

  /** setCurrentItemInternal leaves the pager untouched exactly in its two early-return cases. */
  lemma SetCurrentNoOpExactly(st: PagerState, adapter: Option<PagerAdapter>, firstLayout: bool, limit: int,
                              item: int, smoothScroll: bool, always: bool, velocity: int)
    ensures SetCurrentItemSpec(st, adapter, firstLayout, limit, item, smoothScroll, always, velocity) == st
            <==> SetCurrentIsNoOp(st, adapter, item, always)
  {
    var r := SetCurrentItemSpec(st, adapter, firstLayout, limit, item, smoothScroll, always, velocity);
    if !SetCurrentIsNoOp(st, adapter, item, always) {
      assert |r.events| > |st.events|;
    }
  }

  /**
   * Otherwise, in the first layout, the current item becomes the request
   * clamped into [0, count - 1], and a page-selected event is sent exactly
   * when that moves the current item.
   */
  lemma SetCurrentFirstLayout(st: PagerState, adapter: Option<PagerAdapter>, limit: int,
                              item: int, smoothScroll: bool, always: bool, velocity: int)
    requires !SetCurrentIsNoOp(st, adapter, item, always)
    ensures var r := SetCurrentItemSpec(st, adapter, true, limit, item, smoothScroll, always, velocity);
            && 0 <= r.curItem < adapter.value.count
            && (0 <= item < adapter.value.count ==> r.curItem == item)
            && (item < 0 ==> r.curItem == 0)
            && (item >= adapter.value.count ==> r.curItem == adapter.value.count - 1)
            && r.events[..|st.events|] == st.events
            && (PageSelected(r.curItem) in r.events[|st.events|..] <==> r.curItem != st.curItem)
  {
    var r := SetCurrentItemSpec(st, adapter, true, limit, item, smoothScroll, always, velocity);
    var target := Clamp(item, adapter.value.count);
    if target != st.curItem {
      assert r.events[|st.events|..] == [PageSelected(target), LayoutRequested];
    } else {
      assert r.events[|st.events|..] == [LayoutRequested];
    }
  }

  /**
   * A jump of more than the offscreen limit marks every record as scrolling
   * and changes nothing else in the records; a shorter move leaves them alone.
   */
  lemma SetCurrentMarksOnJump(st: PagerState, adapter: Option<PagerAdapter>, firstLayout: bool, limit: int,
                              item: int, smoothScroll: bool, always: bool, velocity: int)
    requires !SetCurrentIsNoOp(st, adapter, item, always)
    ensures var r := SetCurrentItemSpec(st, adapter, firstLayout, limit, item, smoothScroll, always, velocity);
            var target := Clamp(item, adapter.value.count);
            && |r.items| == |st.items|
            && (forall i :: 0 <= i < |r.items| ==> r.items[i].(scrolling := st.items[i].scrolling) == st.items[i])
            && (IsJump(target, st.curItem, limit) ==> forall i :: 0 <= i < |r.items| ==> r.items[i].scrolling)
            && (!IsJump(target, st.curItem, limit) ==> r.items == st.items)
  {
  }

  /**
   * Outside the first layout populate makes the clamped item current, and
   * the populate and scroll requests follow in that order.
   */
  lemma SetCurrentAfterFirstLayout(st: PagerState, adapter: Option<PagerAdapter>, limit: int,
                                   item: int, smoothScroll: bool, always: bool, velocity: int)
    requires !SetCurrentIsNoOp(st, adapter, item, always)
    ensures var r := SetCurrentItemSpec(st, adapter, false, limit, item, smoothScroll, always, velocity);
            var target := Clamp(item, adapter.value.count);
            && 0 <= r.curItem < adapter.value.count
            && r.curItem == target
            && r.events == st.events + [Populate(target), ScrollToItem(target, smoothScroll, velocity, target != st.curItem)]
  {
  }

  /**
   * The kept records are exactly the surviving records with their new
   * positions: none the adapter reports gone, each unchanged one as it was,
   * each moved one with only its position replaced.
   */
  lemma {:induction false} KeptMembers(a: PagerAdapter, s: seq<ItemInfo>, r: ItemInfo)
    ensures r in Kept(a, s) <==> exists i :: 0 <= i < |s| && Updated(a, s[i]) == Some(r)
  {
    KeptUpToMembers(a, s, |s|, r);
  }

  lemma {:induction false} KeptUpToMembers(a: PagerAdapter, s: seq<ItemInfo>, n: int, r: ItemInfo)
    requires 0 <= n <= |s|
    ensures r in KeptUpTo(a, s, n) <==> exists i :: 0 <= i < n && Updated(a, s[i]) == Some(r)
  {
    if n > 0 {
      KeptUpToMembers(a, s, n - 1, r);
      assert r in KeptPart(a, s[n - 1]) <==> Updated(a, s[n - 1]) == Some(r);
      if exists i :: 0 <= i < n && Updated(a, s[i]) == Some(r) {
        var i :| 0 <= i < n && Updated(a, s[i]) == Some(r);
        if i < n - 1 {
          assert r in KeptUpTo(a, s, n - 1);
        }
      }
    }
  }

  lemma UpdatedMeaning(a: PagerAdapter, ii: ItemInfo)
    ensures Updated(a, ii).None? <==> a.itemPosition(ii.obj) == POSITION_NONE
    ensures Updated(a, ii).Some? ==>
              && Updated(a, ii).value.(position := ii.position) == ii
              && Updated(a, ii).value.position
                 == (if a.itemPosition(ii.obj) == POSITION_UNCHANGED then ii.position else a.itemPosition(ii.obj))
  {
  }

  /** After dataSetChanged the records are sorted by position, stably, and are a permutation of the kept ones. */
  lemma DataSetChangedOrder(a: PagerAdapter, s: seq<ItemInfo>, k: Key)
    ensures SortedBy(Sort(Kept(a, s), PositionKey), PositionKey)
    ensures multiset(Sort(Kept(a, s), PositionKey)) == multiset(Kept(a, s))
    ensures Filter(Sort(Kept(a, s), PositionKey), PositionKey, k) == Filter(Kept(a, s), PositionKey, k)
  {
    SortSorted(Kept(a, s), PositionKey);
    SortStable(Kept(a, s), PositionKey, k);
  }

  /** Records of other pages never move newCurrItem. */
  lemma {:induction false} NewCurrentIgnoresOtherPages(a: PagerAdapter, curItem: int, s: seq<ItemInfo>, n: int)
    requires 0 <= n <= |s|
    requires forall i :: 0 <= i < n ==> s[i].position != curItem
    ensures NewCurrentUpTo(a, curItem, s, n) == curItem
  {
    if n > 0 {
      NewCurrentIgnoresOtherPages(a, curItem, s, n - 1);
    }
  }

  /**
   * With one record for the current page, newCurrItem follows it: its new
   * position if it moved, the current item clamped into the new count if it
   * was removed, and the current item otherwise.
   */
  lemma {:induction false} NewCurrentFollowsCurrentPage(a: PagerAdapter, curItem: int, s: seq<ItemInfo>, j: int)
    requires 0 <= j < |s| && s[j].position == curItem
    requires forall i :: 0 <= i < |s| && i != j ==> s[i].position != curItem
    ensures var newPos := a.itemPosition(s[j].obj);
            NewCurrent(a, curItem, s)
            == if newPos == POSITION_NONE then Max(0, Min(curItem, a.count - 1))
               else if newPos == POSITION_UNCHANGED then curItem
               else newPos
  {
    NewCurrentAfterCurrentPage(a, curItem, s, j, |s|);
  }

  lemma {:induction false} NewCurrentAfterCurrentPage(a: PagerAdapter, curItem: int, s: seq<ItemInfo>, j: int, n: int)
    requires 0 <= j < n <= |s| && s[j].position == curItem
    requires forall i :: 0 <= i < |s| && i != j ==> s[i].position != curItem
    ensures var newPos := a.itemPosition(s[j].obj);
            NewCurrentUpTo(a, curItem, s, n)
            == if newPos == POSITION_NONE then Max(0, Min(curItem, a.count - 1))
               else if newPos == POSITION_UNCHANGED then curItem
               else newPos
  {
    if n == j + 1 {
      NewCurrentIgnoresOtherPages(a, curItem, s, j);
    } else {
      NewCurrentAfterCurrentPage(a, curItem, s, j, n - 1);
    }
  }

  /**
   * When dataSetChanged repopulates, the stored current item is newCurrItem
   * kept within the adapter's pages, whichever layout phase the pager is in;
   * otherwise the current item is untouched.
   */
  lemma DataSetChangedCurrentItem(st: PagerState, a: PagerAdapter, firstLayout: bool, limit: int)
    requires a.count > 0
    ensures var r := DataSetChangedSpec(st, a, firstLayout, limit);
            && (NeedPopulate(a, limit, st.items, |st.items|) ==>
                  && r.curItem == Clamp(NewCurrent(a, st.curItem, st.items), a.count)
                  && 0 <= r.curItem < a.count)
            && (!NeedPopulate(a, limit, st.items, |st.items|) ==> r.curItem == st.curItem)
  {
  }
}
