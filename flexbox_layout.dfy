/**
 * FlexboxLayout as far as its code goes: the container keeps a permutation of
 * its children ordered by each child's `order` layout parameter (the
 * "order-modified document order" of section 5.4 of CSS Flexible Box Layout
 * Module Level 1), a cache of order values used to decide whether that
 * permutation must be rebuilt, and the divider drawables with the flags that
 * depend on them. The measure pass does nothing else and the layout pass is
 * empty.
 */
module FlexboxLayout {
  import opened Wrappers
  import opened StableSort

  const FLEX_DIRECTION_ROW: int := 0
  const FLEX_WRAP_NOWRAP: int := 0
  const JUSTIFY_CONTENT_FLEX_START: int := 0
  const ALIGN_ITEMS_STRETCH: int := 4
  const ALIGN_CONTENT_STRETCH: int := 5

  const SHOW_DIVIDER_NONE: int := 0
  const SHOW_DIVIDER_BEGINNING: int := 1
  const SHOW_DIVIDER_MIDDLE: int := 2
  const SHOW_DIVIDER_END: int := 4

  /** The `order` a child gets when its layout parameters do not set one. */
  const ORDER_DEFAULT: int := 1

  /** The part of FlexboxLayout.LayoutParams that this container reads. */
  datatype LayoutParams = LayoutParams(order: int)

  /** Fresh layout parameters, from any of the constructors: `order` is ORDER_DEFAULT. */
  function NewLayoutParams(): (lp: LayoutParams)
    ensures lp.order == ORDER_DEFAULT
  {
    LayoutParams(ORDER_DEFAULT)
  }

  /** A host drawable; `id` stands for object identity, which Java compares with ==. */
  datatype Drawable = Drawable(id: int, intrinsicWidth: int, intrinsicHeight: int)

  /** One (order, child index) pair built before sorting. */
  datatype Order = Order(index: int, order: int)

  function OrderKey(o: Order): Key {
    Key(o.order, o.index)
  }

  /**
   * Order.compareTo: by `order` first and by child index second. The Java code
   * subtracts 32-bit ints; here the difference is taken without overflow.
   */
  function CompareTo(a: Order, b: Order): (r: int)
    ensures r == 0 <==> a == b
    ensures r < 0 <==> Less(OrderKey(a), OrderKey(b))
    ensures r > 0 <==> Less(OrderKey(b), OrderKey(a))
  {
    if a.order != b.order then a.order - b.order else a.index - b.index
  }

  // ---------------------------------------------------------------------------
  // Specification functions

  function OrdersOf(lps: seq<LayoutParams>): (orders: seq<Order>)
    ensures |orders| == |lps|
  {
    seq(|lps|, i requires 0 <= i < |lps| => Order(i, lps[i].order))
  }

  function IndicesOf(orders: seq<Order>): (indices: seq<int>)
    ensures |indices| == |orders|
  {
    seq(|orders|, i requires 0 <= i < |orders| => orders[i].index)
  }

  /** The cache as the Java code fills it: entry i holds the order at sorted position i. */
  function CacheOf(orders: seq<Order>): (cache: seq<int>)
    ensures |cache| == |orders|
  {
    seq(|orders|, i requires 0 <= i < |orders| => orders[i].order)
  }

  function SortedOrders(lps: seq<LayoutParams>): seq<Order> {
    Sort(OrdersOf(lps), OrderKey)
  }

  /** The permutation the measure pass stores for children with these layout parameters. */
  function ReorderedIndices(lps: seq<LayoutParams>): seq<int> {
    IndicesOf(SortedOrders(lps))
  }

  /** The cache contents left behind by building that permutation. */
  function OrderCacheFor(lps: seq<LayoutParams>): seq<int> {
    CacheOf(SortedOrders(lps))
  }

  /**
   * SparseIntArray.get on the cache. The cache only ever holds the keys
   * 0 .. size-1, so it is a sequence; a missing key reads as 0.
   */
  function CacheGet(cache: seq<int>, i: int): int {
    if 0 <= i < |cache| then cache[i] else 0
  }

  /** What isOrderChangedFromLastMeasurement reports; a null child is skipped. */
  predicate OrderChanged(children: seq<Option<LayoutParams>>, cache: seq<int>) {
    |cache| != |children|
    || exists i :: 0 <= i < |children| && children[i].Some? && children[i].value.order != CacheGet(cache, i)
  }

  predicate NoNullChild(children: seq<Option<LayoutParams>>) {
    forall i :: 0 <= i < |children| ==> children[i].Some?
  }

  function LayoutParamsOf(children: seq<Option<LayoutParams>>): (lps: seq<LayoutParams>)
    requires NoNullChild(children)
    ensures |lps| == |children|
  {
    seq(|children|, i requires 0 <= i < |children| => children[i].value)
  }

  ghost predicate IsPermutation(r: seq<int>, n: int) {
    && |r| == n
    && (forall i :: 0 <= i < |r| ==> 0 <= r[i] < n)
    && (forall i, j :: 0 <= i < j < |r| ==> r[i] != r[j])
    && (forall k :: 0 <= k < n ==> k in r)
  }

  /**
   * The constructor's resolution of showDivider, showDividerVertical and
   * showDividerHorizontal, both fields starting at NONE; the result is
   * (vertical mode, horizontal mode).
   */
  function ResolveDividerModes(shared: int, vertical: int, horizontal: int): (r: (int, int))
    ensures r.0 == (if vertical != SHOW_DIVIDER_NONE then vertical else shared)
    ensures r.1 == (if horizontal != SHOW_DIVIDER_NONE then horizontal else shared)
  {
    var (v1, h1) := if shared != SHOW_DIVIDER_NONE then (shared, shared)
                    else (SHOW_DIVIDER_NONE, SHOW_DIVIDER_NONE);
    var v2 := if vertical != SHOW_DIVIDER_NONE then vertical else v1;
    var h2 := if horizontal != SHOW_DIVIDER_NONE then horizontal else h1;
    (v2, h2)
  }

  /** The styled attributes the constructor reads; None is an attribute that is not set. */
  datatype FlexboxAttributes = FlexboxAttributes(
    flexDirection: Option<int>,
    flexWrap: Option<int>,
    justifyContent: Option<int>,
    alignItems: Option<int>,
    alignContent: Option<int>,
    dividerDrawable: Option<Drawable>,
    dividerDrawableHorizontal: Option<Drawable>,
    dividerDrawableVertical: Option<Drawable>,
    showDivider: Option<int>,
    showDividerVertical: Option<int>,
    showDividerHorizontal: Option<int>)

  function Thickness(d: Option<Drawable>, horizontal: bool): int {
    match d
    case None => 0
    case Some(dr) => if horizontal then dr.intrinsicHeight else dr.intrinsicWidth
  }

  // ---------------------------------------------------------------------------
  // The container

  class FlexboxLayout {
    /** The host's children, each given by its layout parameters; None is a null child. */
    var children: seq<Option<LayoutParams>>

    var flexDirection: int
    var flexWrap: int
    var justifyContent: int
    var alignItems: int
    var alignContent: int

    var dividerDrawableHorizontal: Option<Drawable>
    var dividerDrawableVertical: Option<Drawable>
    var showDividerHorizontal: int
    var showDividerVertical: int
    var dividerHorizontalHeight: int
    var dividerVerticalWidth: int

    var reorderedIndices: array?<int>
    var orderCache: seq<int>

    /** View.setWillNotDraw: true when onDraw need not be called. */
    var willNotDraw: bool
    /** Number of requestLayout calls made so far. */
    var layoutRequests: nat

    /** The divider thicknesses and the draw flag agree with the current drawables. */
    predicate DividerState()
      reads this
    {
      && dividerHorizontalHeight == Thickness(dividerDrawableHorizontal, true)
      && dividerVerticalWidth == Thickness(dividerDrawableVertical, false)
      && willNotDraw == (dividerDrawableHorizontal.None? && dividerDrawableVertical.None?)
    }

    constructor (attrs: FlexboxAttributes, initialChildren: seq<Option<LayoutParams>>)
      ensures children == initialChildren
      ensures flexDirection == attrs.flexDirection.GetOr(FLEX_DIRECTION_ROW)
      ensures flexWrap == attrs.flexWrap.GetOr(FLEX_WRAP_NOWRAP)
      ensures justifyContent == attrs.justifyContent.GetOr(JUSTIFY_CONTENT_FLEX_START)
      ensures alignItems == attrs.alignItems.GetOr(ALIGN_ITEMS_STRETCH)
      ensures alignContent == attrs.alignContent.GetOr(ALIGN_CONTENT_STRETCH)
      ensures dividerDrawableHorizontal
           == (if attrs.dividerDrawableHorizontal.Some? then attrs.dividerDrawableHorizontal else attrs.dividerDrawable)
      ensures dividerDrawableVertical
           == (if attrs.dividerDrawableVertical.Some? then attrs.dividerDrawableVertical else attrs.dividerDrawable)
      ensures DividerState()
      ensures (showDividerVertical, showDividerHorizontal)
           == ResolveDividerModes(attrs.showDivider.GetOr(SHOW_DIVIDER_NONE),
                                  attrs.showDividerVertical.GetOr(SHOW_DIVIDER_NONE),
                                  attrs.showDividerHorizontal.GetOr(SHOW_DIVIDER_NONE))
      ensures reorderedIndices == null && orderCache == []
    {
      children := initialChildren;
      flexDirection := attrs.flexDirection.GetOr(FLEX_DIRECTION_ROW);
      flexWrap := attrs.flexWrap.GetOr(FLEX_WRAP_NOWRAP);
      justifyContent := attrs.justifyContent.GetOr(JUSTIFY_CONTENT_FLEX_START);
      alignItems := attrs.alignItems.GetOr(ALIGN_ITEMS_STRETCH);
      alignContent := attrs.alignContent.GetOr(ALIGN_CONTENT_STRETCH);
      dividerDrawableHorizontal := None;
      dividerDrawableVertical := None;
      showDividerHorizontal := SHOW_DIVIDER_NONE;
      showDividerVertical := SHOW_DIVIDER_NONE;
      dividerHorizontalHeight := 0;
      dividerVerticalWidth := 0;
      reorderedIndices := null;
      orderCache := [];
      // a ViewGroup starts with WILL_NOT_DRAW set
      willNotDraw := true;
      layoutRequests := 0;
      new;
      assert DividerState();
      ApplyDividerDrawables(attrs.dividerDrawable, attrs.dividerDrawableHorizontal, attrs.dividerDrawableVertical);
      ApplyShowDividers(attrs.showDivider.GetOr(SHOW_DIVIDER_NONE),
                        attrs.showDividerVertical.GetOr(SHOW_DIVIDER_NONE),
                        attrs.showDividerHorizontal.GetOr(SHOW_DIVIDER_NONE));
    }

    /** The constructor's divider modes: the shared mode on both axes, then the per-axis ones. */
    method ApplyShowDividers(dividerMode: int, dividerModeVertical: int, dividerModeHorizontal: int)
      requires showDividerVertical == SHOW_DIVIDER_NONE && showDividerHorizontal == SHOW_DIVIDER_NONE
      modifies this`showDividerVertical, this`showDividerHorizontal
      ensures (showDividerVertical, showDividerHorizontal)
           == ResolveDividerModes(dividerMode, dividerModeVertical, dividerModeHorizontal)
    {
      if dividerMode != SHOW_DIVIDER_NONE {
        showDividerVertical := dividerMode;
        showDividerHorizontal := dividerMode;
      }
      if dividerModeVertical != SHOW_DIVIDER_NONE {
        showDividerVertical := dividerModeVertical;
      }
      if dividerModeHorizontal != SHOW_DIVIDER_NONE {
        showDividerHorizontal := dividerModeHorizontal;
      }
    }

    /** The constructor's divider drawables: the shared one on both axes, then the per-axis ones. */
    method ApplyDividerDrawables(drawable: Option<Drawable>, drawableHorizontal: Option<Drawable>,
                                 drawableVertical: Option<Drawable>)
      requires DividerState()
      modifies this`dividerDrawableHorizontal, this`dividerHorizontalHeight,
               this`dividerDrawableVertical, this`dividerVerticalWidth, this`willNotDraw, this`layoutRequests
      ensures DividerState()
      ensures dividerDrawableHorizontal
           == if drawableHorizontal.Some? then drawableHorizontal
              else if drawable.Some? then drawable else old(dividerDrawableHorizontal)
      ensures dividerDrawableVertical
           == if drawableVertical.Some? then drawableVertical
              else if drawable.Some? then drawable else old(dividerDrawableVertical)
    {
      if drawable.Some? {
        SetDividerDrawableHorizontal(drawable);
        SetDividerDrawableVertical(drawable);
      }
      if drawableHorizontal.Some? {
        SetDividerDrawableHorizontal(drawableHorizontal);
      }
      if drawableVertical.Some? {
        SetDividerDrawableVertical(drawableVertical);
      }
    }

    /**
     * The measure pass: rebuild the permutation only when the change check
     * says so. The cache is refilled by sorted position, while the check
     * reads entry i as child i's order (see StalePermutationAsWritten).
     */
    method OnMeasure()
      requires OrderChanged(children, orderCache) ==> NoNullChild(children)
      modifies this`reorderedIndices, this`orderCache
      ensures old(OrderChanged(children, orderCache)) ==>
                && reorderedIndices != null && fresh(reorderedIndices)
                && reorderedIndices[..] == ReorderedIndices(LayoutParamsOf(children))
                && orderCache == OrderCacheFor(LayoutParamsOf(children))
      ensures !old(OrderChanged(children, orderCache)) ==>
                reorderedIndices == old(reorderedIndices) && orderCache == old(orderCache)
    {
      var changed := IsOrderChangedFromLastMeasurement();
      if changed {
        reorderedIndices := CreateReorderedIndices();
      }
    }

    method IsOrderChangedFromLastMeasurement() returns (changed: bool)
      ensures changed == OrderChanged(children, orderCache)
    {
      var childCount := |children|;
      if |orderCache| != childCount {
        return true;
      }
      var i := 0;
      while i < childCount
        invariant 0 <= i <= childCount
        invariant forall k :: 0 <= k < i && children[k].Some? ==> children[k].value.order == CacheGet(orderCache, k)
      {
        var view := children[i];
        if view.Some? && view.value.order != CacheGet(orderCache, i) {
          return true;
        }
        i := i + 1;
      }
      return false;
    }

    method CreateReorderedIndices() returns (indices: array<int>)
      requires NoNullChild(children)
      modifies this`orderCache
      ensures fresh(indices)
      ensures indices[..] == ReorderedIndices(LayoutParamsOf(children))
      ensures orderCache == OrderCacheFor(LayoutParamsOf(children))
    {
      var childCount := |children|;
      var orders := CreateOrders(childCount);
      indices := SortOrdersIntoReorderedIndices(childCount, orders);
    }

    /**
     * Sorts the pairs into the permutation and refills the cache, appending
     * each pair's order under its sorted position: entry i of the cache is
     * the order of the child the permutation puts at position i.
     */
    method SortOrdersIntoReorderedIndices(childCount: nat, orders: seq<Order>) returns (indices: array<int>)
      requires NoNullChild(children) && childCount == |children|
      requires orders == OrdersOf(LayoutParamsOf(children))
      modifies this`orderCache
      ensures fresh(indices)
      ensures indices[..] == ReorderedIndices(LayoutParamsOf(children))
      ensures orderCache == OrderCacheFor(LayoutParamsOf(children))
      ensures IsPermutation(indices[..], childCount)
      ensures forall i :: 0 <= i < childCount ==>
                0 <= indices[i] < childCount && orderCache[i] == LayoutParamsOf(children)[indices[i]].order
    {
      ghost var lps := LayoutParamsOf(children);
      var sorted := Sort(orders, OrderKey);
      assert sorted == SortedOrders(lps);
      orderCache := [];
      indices := new int[childCount];
      var i := 0;
      while i < |sorted|
        invariant 0 <= i <= |sorted| == childCount == indices.Length
        invariant indices[..i] == IndicesOf(sorted)[..i]
        invariant orderCache == CacheOf(sorted)[..i]
      {
        indices[i] := sorted[i].index;
        orderCache := orderCache + [sorted[i].order];
        i := i + 1;
      }
      assert indices[..] == indices[..i];
      assert orderCache == CacheOf(sorted);
      ReorderedIndicesIsPermutation(lps);
      forall k | 0 <= k < childCount
        ensures 0 <= indices[k] < childCount && orderCache[k] == lps[indices[k]].order
      {
        OrderCacheMatchesIndices(lps, k);
      }
    }

    method CreateOrders(childCount: nat) returns (orders: seq<Order>)
      requires childCount == |children| && NoNullChild(children)
      ensures orders == OrdersOf(LayoutParamsOf(children))
    {
      orders := [];
      var i := 0;
      while i < childCount
        invariant 0 <= i <= childCount
        invariant orders == OrdersOf(LayoutParamsOf(children))[..i]
      {
        var params := children[i].value;
        orders := orders + [Order(i, params.order)];
        i := i + 1;
      }
    }

    method SetDividerDrawableHorizontal(divider: Option<Drawable>)
      modifies this`dividerDrawableHorizontal, this`dividerHorizontalHeight, this`willNotDraw, this`layoutRequests
      ensures divider == old(dividerDrawableHorizontal) ==>
                dividerHorizontalHeight == old(dividerHorizontalHeight)
                && willNotDraw == old(willNotDraw) && layoutRequests == old(layoutRequests)
      ensures dividerDrawableHorizontal == divider
      ensures old(DividerState()) ==> DividerState()
      ensures divider != old(dividerDrawableHorizontal) ==>
                && dividerHorizontalHeight == Thickness(divider, true)
                && willNotDraw == (divider.None? && dividerDrawableVertical.None?)
                && layoutRequests == old(layoutRequests) + 1
    {
      if divider == dividerDrawableHorizontal {
        return;
      }
      dividerDrawableHorizontal := divider;
      if divider.Some? {
        dividerHorizontalHeight := divider.value.intrinsicHeight;
      } else {
        dividerHorizontalHeight := 0;
      }
      SetWillNotDrawFlag();
      layoutRequests := layoutRequests + 1;
    }

    method SetDividerDrawableVertical(divider: Option<Drawable>)
      modifies this`dividerDrawableVertical, this`dividerVerticalWidth, this`willNotDraw, this`layoutRequests
      ensures divider == old(dividerDrawableVertical) ==>
                dividerVerticalWidth == old(dividerVerticalWidth)
                && willNotDraw == old(willNotDraw) && layoutRequests == old(layoutRequests)
      ensures dividerDrawableVertical == divider
      ensures old(DividerState()) ==> DividerState()
      ensures divider != old(dividerDrawableVertical) ==>
                && dividerVerticalWidth == Thickness(divider, false)
                && willNotDraw == (dividerDrawableHorizontal.None? && divider.None?)
                && layoutRequests == old(layoutRequests) + 1
    {
      if divider == dividerDrawableVertical {
        return;
      }
      dividerDrawableVertical := divider;
      if divider.Some? {
        dividerVerticalWidth := divider.value.intrinsicWidth;
      } else {
        dividerVerticalWidth := 0;
      }
      SetWillNotDrawFlag();
      layoutRequests := layoutRequests + 1;
    }

    method SetWillNotDrawFlag()
      modifies this`willNotDraw
      ensures willNotDraw == (dividerDrawableHorizontal.None? && dividerDrawableVertical.None?)
    {
      if dividerDrawableHorizontal.None? && dividerDrawableVertical.None? {
        willNotDraw := true;
      } else {
        willNotDraw := false;
      }
    }
  }

  // ---------------------------------------------------------------------------
  // Properties of the permutation and the cache

  lemma OrdersOfDistinct(lps: seq<LayoutParams>)
    ensures Distinct(OrdersOf(lps))
  {
    var o := OrdersOf(lps);
    forall i, j | 0 <= i < j < |o| ensures o[i] != o[j] {
      assert o[i].index == i && o[j].index == j;
    }
  }

  /** Every sorted entry is the pair built for the child it names. */
  lemma SortedEntryIsChild(lps: seq<LayoutParams>, i: int)
    requires 0 <= i < |lps|
    ensures 0 <= SortedOrders(lps)[i].index < |lps|
    ensures SortedOrders(lps)[i] == OrdersOf(lps)[SortedOrders(lps)[i].index]
  {
    var s := SortedOrders(lps);
    SortMembers(OrdersOf(lps), OrderKey, s[i]);
    var m :| 0 <= m < |lps| && OrdersOf(lps)[m] == s[i];
    assert s[i].index == m;
  }

  /** createReorderedIndices yields a permutation of 0 .. childCount-1. */
  lemma {:induction false} ReorderedIndicesIsPermutation(lps: seq<LayoutParams>)
    ensures IsPermutation(ReorderedIndices(lps), |lps|)
  {
    var o, s, r := OrdersOf(lps), SortedOrders(lps), ReorderedIndices(lps);
    forall i | 0 <= i < |r| ensures 0 <= r[i] < |lps| {
      SortedEntryIsChild(lps, i);
    }
    OrdersOfDistinct(lps);
    SortDistinct(o, OrderKey);
    forall i, j | 0 <= i < j < |r| ensures r[i] != r[j] {
      SortedEntryIsChild(lps, i);
      SortedEntryIsChild(lps, j);
    }
    forall k | 0 <= k < |lps| ensures k in r {
      SortMembers(o, OrderKey, o[k]);
      var i :| 0 <= i < |s| && s[i] == o[k];
      assert r[i] == k;
    }
  }

  /**
   * In the permutation `order` never decreases, and children with equal
   * `order` keep ascending child index.
   */
  lemma {:induction false} ReorderedIndicesSorted(lps: seq<LayoutParams>, i: int, j: int)
    requires 0 <= i < j < |lps|
    ensures 0 <= ReorderedIndices(lps)[i] < |lps| && 0 <= ReorderedIndices(lps)[j] < |lps|
    ensures lps[ReorderedIndices(lps)[i]].order <= lps[ReorderedIndices(lps)[j]].order
    ensures lps[ReorderedIndices(lps)[i]].order == lps[ReorderedIndices(lps)[j]].order ==>
              ReorderedIndices(lps)[i] < ReorderedIndices(lps)[j]
  {
    var s := SortedOrders(lps);
    SortSorted(OrdersOf(lps), OrderKey);
    assert LessEq(OrderKey(s[i]), OrderKey(s[j]));
    SortedEntryIsChild(lps, i);
    SortedEntryIsChild(lps, j);
    ReorderedIndicesIsPermutation(lps);
  }

  /** After sorting, the cache has one entry per child; entry i is the order of the child at position i. */
  lemma {:induction false} OrderCacheMatchesIndices(lps: seq<LayoutParams>, i: int)
    requires 0 <= i < |lps|
    ensures |OrderCacheFor(lps)| == |ReorderedIndices(lps)| == |lps|
    ensures 0 <= ReorderedIndices(lps)[i] < |lps|
    ensures OrderCacheFor(lps)[i] == lps[ReorderedIndices(lps)[i]].order
  {
    SortedEntryIsChild(lps, i);
  }

  /**
   * Because the cache is keyed by sorted position, the check can report
   * "unchanged" only when the children's orders are already ascending.
   */
  lemma {:induction false} UnchangedOnlyWhenSorted(prev: seq<LayoutParams>, children: seq<Option<LayoutParams>>, i: int, j: int)
    requires NoNullChild(children)
    requires !OrderChanged(children, OrderCacheFor(prev))
    requires 0 <= i < j < |children|
    ensures children[i].value.order <= children[j].value.order
  {
    var s := SortedOrders(prev);
    SortSorted(OrdersOf(prev), OrderKey);
    assert LessEq(OrderKey(s[i]), OrderKey(s[j]));
    assert children[i].value.order == CacheGet(OrderCacheFor(prev), i);
    assert children[j].value.order == CacheGet(OrderCacheFor(prev), j);
  }

  // ---------------------------------------------------------------------------
  // The stale permutation, and the cache keyed by child index

  /**
   * Orders [2, 1] are measured, then the two children swap orders to [1, 2].
   * The check compares against the cache [1, 2] and reports no change, so the
   * stored permutation stays [1, 0] although [0, 1] is now the right one.
   */
  lemma SortTwo(x: Order, y: Order)
    ensures !Less(OrderKey(y), OrderKey(x)) ==> Sort([x, y], OrderKey) == [x, y]
    ensures Less(OrderKey(y), OrderKey(x)) ==> Sort([x, y], OrderKey) == [y, x]
  {
    assert [x, y][1..] == [y];
    assert [y][1..] == [];
    assert Sort([y], OrderKey) == [y];
    assert [y, x][1..] == [x];
  }

  lemma StaleBefore()
    ensures SortedOrders([LayoutParams(2), LayoutParams(1)]) == [Order(1, 1), Order(0, 2)]
  {
    assert OrdersOf([LayoutParams(2), LayoutParams(1)]) == [Order(0, 2), Order(1, 1)];
    SortTwo(Order(0, 2), Order(1, 1));
  }

  lemma StaleAfter()
    ensures LayoutParamsOf([Some(LayoutParams(1)), Some(LayoutParams(2))]) == [LayoutParams(1), LayoutParams(2)]
    ensures SortedOrders([LayoutParams(1), LayoutParams(2)]) == [Order(0, 1), Order(1, 2)]
  {
    assert OrdersOf([LayoutParams(1), LayoutParams(2)]) == [Order(0, 1), Order(1, 2)];
    SortTwo(Order(0, 1), Order(1, 2));
  }

  /**
   * Orders [2, 1] are measured, then the two children swap orders to [1, 2].
   * The check compares against the cache [1, 2] and reports no change, so the
   * stored permutation stays [1, 0] although [0, 1] is now the right one.
   */
  lemma StalePermutationAsWritten()
    ensures var prev := [LayoutParams(2), LayoutParams(1)];
            var now := [Some(LayoutParams(1)), Some(LayoutParams(2))];
            && ReorderedIndices(prev) == [1, 0]
            && OrderCacheFor(prev) == [1, 2]
            && !OrderChanged(now, OrderCacheFor(prev))
            && ReorderedIndices(LayoutParamsOf(now)) == [0, 1]
  {
    StaleBefore();
    StaleAfter();
    var now := [Some(LayoutParams(1)), Some(LayoutParams(2))];
    assert OrderCacheFor([LayoutParams(2), LayoutParams(1)]) == [1, 2];
    assert ReorderedIndices([LayoutParams(1), LayoutParams(2)]) == [0, 1];
  }

  /** The cache keyed by child index: entry k holds child k's order. */
  function CorrectedOrderCacheFor(lps: seq<LayoutParams>): (cache: seq<int>)
    ensures |cache| == |lps|
    ensures forall i :: 0 <= i < |lps| ==>
              0 <= SortedOrders(lps)[i].index < |lps|
              && cache[SortedOrders(lps)[i].index] == SortedOrders(lps)[i].order
  {
    var cache := seq(|lps|, k requires 0 <= k < |lps| => lps[k].order);
    assert forall i :: 0 <= i < |lps| ==>
              0 <= SortedOrders(lps)[i].index < |lps|
              && cache[SortedOrders(lps)[i].index] == SortedOrders(lps)[i].order by {
      forall i | 0 <= i < |lps|
        ensures 0 <= SortedOrders(lps)[i].index < |lps|
                && cache[SortedOrders(lps)[i].index] == SortedOrders(lps)[i].order
      {
        SortedEntryIsChild(lps, i);
      }
    }
    cache
  }

  /**
   * With the index-keyed cache the check reports "unchanged" exactly when no
   * child's order differs from the last measurement, and then the stored
   * permutation is the one a fresh sort would produce.
   */
  lemma {:induction false} CorrectedCacheIsSound(prev: seq<LayoutParams>, children: seq<Option<LayoutParams>>)
    requires NoNullChild(children)
    ensures !OrderChanged(children, CorrectedOrderCacheFor(prev)) <==> LayoutParamsOf(children) == prev
    ensures !OrderChanged(children, CorrectedOrderCacheFor(prev)) ==>
              ReorderedIndices(LayoutParamsOf(children)) == ReorderedIndices(prev)
  {
    var cache := CorrectedOrderCacheFor(prev);
    var lps := LayoutParamsOf(children);
    if !OrderChanged(children, cache) {
      assert |lps| == |prev|;
      forall i | 0 <= i < |lps| ensures lps[i] == prev[i] {
        assert children[i].value.order == CacheGet(cache, i);
      }
    }
    if lps == prev {
      forall i | 0 <= i < |children| ensures children[i].value.order == CacheGet(cache, i) {
        assert children[i].value == lps[i];
      }
    }
  }
}
