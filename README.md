# Android UI study widgets in Dafny

This project models the logic-bearing parts of seven custom Android views
from the `com.twentyhours.androidstudy` study app, and proves properties of
them:

- **FlexboxLayout** (`FlexboxLayout` module, `flexbox_layout.dfy`).
  - The container keeps a permutation of its children ordered by each child's
    `order` layout parameter. This is the "order-modified document order" of
    section 5.4 of CSS Flexible Box Layout Module Level 1.
  - It also keeps an order cache that decides whether to rebuild that
    permutation, the two divider drawables, the flag that says whether it
    draws, and the divider-mode resolution done in the constructor.
  - The permutation is built by a stable sort (`StableSort` module,
    `stable_sort.dfy`). That module is a generic insertion sort by a
    lexicographic key, proved sorted, a permutation, and stable.
  - A child's `order` defaults to `ORDER_DEFAULT`, which is 1
    (`NewLayoutParams`).
- **FlexLine** (`FlexLine` module). A flex line is an immutable value with a
  sentinel bounding box and two item counters.
- **ViewPager** (`ViewPager` module).
  - The bookkeeping of the pager's page records: the in-place record list,
    the current item, the expected adapter count, the scroll state and the
    scrolling flags.
  - The adapter is a value holding its count and two functions: the new
    position of a page object, and the page an instantiation returns.
  - Calls into code that is not modelled are appended to an event log: the
    adapter's update callbacks, listener dispatch, `populate`,
    `scrollToItem` and `requestLayout`.
- **RecyclerView** (`RecyclerView` module).
  - The `LayoutManager.chooseSize` rule.
  - The class-name resolution used when a layout manager is named in XML,
    including `String.trim`.
  - The frozen-layout and computing-layout guards, with their exceptions as
    `Result` failures.
  - The attachment of a `LayoutManager` to its view.
- **ElasticDragDismissFrameLayout** (`ElasticDragDismiss` module).
  - Colour alpha replacement on 32-bit patterns, the vertical-axis test, and
    the navigation-bar rule.
  - The drag state machine: the accumulated drag and the two direction
    flags.
  - The nested-scroll entry points, including the write into the `consumed`
    array.
  - The callbacks to the registered listeners appear as events.
- **YoutubeStyleLayout** (`YoutubeStyleLayout` module).
  - Child measure-spec selection and the two-children check.
  - The integer `onLayout` arithmetic.
  - The drag helper's vertical clamp, its capture rule and its position
    update.
  - The hit test.
- **AspectRatioImageView** (`AspectRatioImageView` module).
  - Which dimension `onMeasure` derives and the specs it hands on.
  - The float ratio and the float product and quotient, taken exactly: a
    rational value, a signed zero, an infinity or NaN, by the rules of
    IEEE 754.

Shared pieces:
- `Wrappers` (`wrappers.dfy`) holds `Option` and `Result`.
- `MeasureSpecs` (`measure_spec.dfy`) holds a measure spec as a `(mode, size)`
  pair with the platform's mode constants, and the layout-parameter
  constants `MATCH_PARENT` and `WRAP_CONTENT`.

Platform inputs are parameters or fields set from outside:
- the children's measured sizes;
- their screen locations (`getLocationOnScreen`);
- the styled attributes, already read;
- the density-dependent thresholds, already in pixels.

Two facts about the code shape the model:
- `isOrderChangedFromLastMeasurement` (FlexboxLayout.java:217) reads cache
  entry `i` as child `i`'s order. `sortOrdersIntoReorderedIndices`
  (FlexboxLayout.java:241) fills entry `i` with the order at *sorted*
  position `i`. The container is modelled as written (`OrderCacheFor`). The
  consequence is recorded under "## Findings", with the cache keyed by child
  index (`CorrectedOrderCacheFor`) as the corrected variant.
- `FlexboxLayout.onMeasure` only rebuilds the permutation and `onLayout` is
  empty. There is no line partitioning, grow/shrink or stretch to model.

## Model

Source paths are relative to the repository root.

| member | source | states |
|---|---|---|
| FlexboxLayout.CompareTo | app/src/main/java/com/twentyhours/androidstudy/flexboxlayout/FlexboxLayout.java:331-336 | zero exactly for equal pairs; negative exactly when the first pair is smaller by (order, index), positive exactly when it is larger |
| FlexboxLayout.NewLayoutParams | app/src/main/java/com/twentyhours/androidstudy/flexboxlayout/FlexboxLayout.java:305-307 | fresh layout parameters have `order` ORDER_DEFAULT, which is 1 |
| FlexboxLayout.ResolveDividerModes | app/src/main/java/com/twentyhours/androidstudy/flexboxlayout/FlexboxLayout.java:174-188 | each axis takes its own mode when that is not NONE and the shared mode otherwise |
| FlexboxLayout.FlexboxLayout.constructor | app/src/main/java/com/twentyhours/androidstudy/flexboxlayout/FlexboxLayout.java:148-190 | attributes default to ROW, NOWRAP, FLEX_START, STRETCH, STRETCH; per-axis drawables override the shared one; divider thicknesses and the draw flag agree with the drawables; modes as ResolveDividerModes; no permutation and an empty cache |
| FlexboxLayout.FlexboxLayout.ApplyDividerDrawables | app/src/main/java/com/twentyhours/androidstudy/flexboxlayout/FlexboxLayout.java:159-173 | each axis ends with its own drawable if given, else the shared one if given, else what it had; the divider-state invariant is kept |
| FlexboxLayout.FlexboxLayout.ApplyShowDividers | app/src/main/java/com/twentyhours/androidstudy/flexboxlayout/FlexboxLayout.java:174-188 | from NONE on both axes, each axis ends with its own mode if set, else the shared mode if set, else NONE |
| FlexboxLayout.FlexboxLayout.OnMeasure | app/src/main/java/com/twentyhours/androidstudy/flexboxlayout/FlexboxLayout.java:193-198 | when the change check holds, a fresh permutation equal to the sorted child indices and the cache as line 241 fills it (OrderCacheFor); otherwise both are left as they were |
| FlexboxLayout.FlexboxLayout.IsOrderChangedFromLastMeasurement | app/src/main/java/com/twentyhours/androidstudy/flexboxlayout/FlexboxLayout.java:203-222 | true exactly when the cache size differs from the child count or some non-null child's order differs from cache entry i |
| FlexboxLayout.FlexboxLayout.CreateReorderedIndices | app/src/main/java/com/twentyhours/androidstudy/flexboxlayout/FlexboxLayout.java:224-228 | a fresh array holding the child indices in stable order-sorted order, and the cache refilled by sorted position (OrderCacheFor) |
| FlexboxLayout.FlexboxLayout.SortOrdersIntoReorderedIndices | app/src/main/java/com/twentyhours/androidstudy/flexboxlayout/FlexboxLayout.java:230-245 | array entry i is the child index of the pair at sorted position i, and the array is a permutation of 0 .. childCount-1; cache entry i is the order of the child the permutation puts at position i |
| FlexboxLayout.FlexboxLayout.CreateOrders | app/src/main/java/com/twentyhours/androidstudy/flexboxlayout/FlexboxLayout.java:247-259 | one (index, order) pair per child, in child order |
| FlexboxLayout.FlexboxLayout.SetDividerDrawableHorizontal | app/src/main/java/com/twentyhours/androidstudy/flexboxlayout/FlexboxLayout.java:266-278 | the same drawable changes nothing; another one sets the height to its intrinsic height (0 for none), recomputes the draw flag and requests one layout |
| FlexboxLayout.FlexboxLayout.SetDividerDrawableVertical | app/src/main/java/com/twentyhours/androidstudy/flexboxlayout/FlexboxLayout.java:280-292 | the same drawable changes nothing; another one sets the width to its intrinsic width (0 for none), recomputes the draw flag and requests one layout |
| FlexboxLayout.FlexboxLayout.SetWillNotDrawFlag | app/src/main/java/com/twentyhours/androidstudy/flexboxlayout/FlexboxLayout.java:294-302 | the container skips drawing exactly when neither divider drawable is set |
| FlexboxLayout.OrdersOfDistinct | app/src/main/java/com/twentyhours/androidstudy/flexboxlayout/FlexboxLayout.java:247-259 | no two children give equal pairs, so the comparison never ties |
| FlexboxLayout.SortedEntryIsChild | app/src/main/java/com/twentyhours/androidstudy/flexboxlayout/FlexboxLayout.java:231-241 | every sorted pair is the pair built for the child it names |
| FlexboxLayout.ReorderedIndicesIsPermutation | app/src/main/java/com/twentyhours/androidstudy/flexboxlayout/FlexboxLayout.java:224-259 | the reordered indices are a permutation of 0 .. childCount-1 |
| FlexboxLayout.ReorderedIndicesSorted | app/src/main/java/com/twentyhours/androidstudy/flexboxlayout/FlexboxLayout.java:231-244 | along the permutation, order never decreases, and equal orders keep ascending child index |
| FlexboxLayout.OrderCacheMatchesIndices | app/src/main/java/com/twentyhours/androidstudy/flexboxlayout/FlexboxLayout.java:235-243 | after sorting, the cache has childCount entries, and entry i is the order of the child at permutation entry i |
| FlexboxLayout.UnchangedOnlyWhenSorted | app/src/main/java/com/twentyhours/androidstudy/flexboxlayout/FlexboxLayout.java:217 | the check reports "unchanged" only for children whose orders are already ascending |
| FlexboxLayout.StalePermutationAsWritten | app/src/main/java/com/twentyhours/androidstudy/flexboxlayout/FlexboxLayout.java:241 | orders [2, 1] leave cache [1, 2] and permutation [1, 0]; orders [1, 2] then pass the check although the right permutation is [0, 1] |
| FlexboxLayout.CorrectedOrderCacheFor | app/src/main/java/com/twentyhours/androidstudy/flexboxlayout/FlexboxLayout.java:241 | the corrected cache: one entry per child, and the entry for each sorted pair's child is that pair's order |
| FlexboxLayout.CorrectedCacheIsSound | app/src/main/java/com/twentyhours/androidstudy/flexboxlayout/FlexboxLayout.java:203-222 | with the corrected cache the check says "unchanged" exactly when the children's parameters equal the last measured ones, and then the stored permutation is what a fresh sort gives |
| StableSort.Sort | app/src/main/java/com/twentyhours/androidstudy/flexboxlayout/FlexboxLayout.java:231 | the sorted sequence has the input's length and multiset of elements |
| StableSort.SortSorted | app/src/main/java/com/twentyhours/androidstudy/viewpager/ViewPager.java:699 | the result is ordered by key |
| StableSort.SortStable | app/src/main/java/com/twentyhours/androidstudy/viewpager/ViewPager.java:699 | elements with equal keys keep their relative order |
| StableSort.SortDistinct | app/src/main/java/com/twentyhours/androidstudy/flexboxlayout/FlexboxLayout.java:231 | sorting distinct elements gives distinct elements |
| StableSort.SortMembers | app/src/main/java/com/twentyhours/androidstudy/flexboxlayout/FlexboxLayout.java:231 | an element is in the result exactly when it is in the input |
| FlexLine.FlexLine.ItemCountNotGone | app/src/main/java/com/twentyhours/androidstudy/flexboxlayout/FlexLine.java:94-96 | visible and gone items add up to the item count; with consistent counters it lies in [0, itemCount] |
| FlexLine.NewFlexLine | app/src/main/java/com/twentyhours/androidstudy/flexboxlayout/FlexLine.java:15-36 | a fresh line has left and top at the largest int, right and bottom at the smallest, and zero sizes and counters |
| FlexLine.NewLineBoxIsEmpty | app/src/main/java/com/twentyhours/androidstudy/flexboxlayout/FlexLine.java:15-24 | a fresh line's box contains no point with 32-bit coordinates |
| FlexLine.NewLineHasNoItems | app/src/main/java/com/twentyhours/androidstudy/flexboxlayout/FlexLine.java:33-36 | a fresh line holds no visible item |
| FlexLine.NewLineIncludeIsChildBox | app/src/main/java/com/twentyhours/androidstudy/flexboxlayout/FlexLine.java:15-24 | the sentinels are neutral: combining a fresh line with a child's 32-bit box gives exactly that box |
| ViewPager.MarkScrolling | app/src/main/java/com/twentyhours/androidstudy/viewpager/ViewPager.java:321-323 | every record gets the given scrolling flag, and nothing else in any record changes |
| ViewPager.InsertAt | app/src/main/java/com/twentyhours/androidstudy/viewpager/ViewPager.java:1017-1021 | one record more; the new one sits at index when that is in range and at the end otherwise; removing it gives back the old list |
| ViewPager.Clamp | app/src/main/java/com/twentyhours/androidstudy/viewpager/ViewPager.java:311-315 | with a positive count the item lies in [0, count-1], and an item already in range is kept |
| ViewPager.ViewPager.constructor | app/src/main/java/com/twentyhours/androidstudy/viewpager/ViewPager.java:159-176 | no adapter, no records, item 0, first layout pending, offscreen limit 1, idle, the given fling thresholds |
| ViewPager.ViewPager.SetCurrentItemInternal | app/src/main/java/com/twentyhours/androidstudy/viewpager/ViewPager.java:303-339 | the pager's records, current item and events become SetCurrentItemSpec of the old ones: unchanged in the no-op cases, otherwise the clamped item is current in either layout phase (see the SetCurrent lemmas below) |
| ViewPager.ViewPager.SetScrollingFlags | app/src/main/java/com/twentyhours/androidstudy/viewpager/ViewPager.java:316-324 | every record is marked scrolling and each record is otherwise as it was |
| ViewPager.SetCurrentNoOpExactly | app/src/main/java/com/twentyhours/androidstudy/viewpager/ViewPager.java:304-309 | the call leaves the pager unchanged exactly when there is no adapter, the count is not positive, or the item is already current with records present and `always` unset |
| ViewPager.SetCurrentFirstLayout | app/src/main/java/com/twentyhours/androidstudy/viewpager/ViewPager.java:311-334 | in the first layout the current item becomes the request clamped into [0, count-1], old events are kept, and a page-selected event is sent exactly when the item moves |
| ViewPager.SetCurrentMarksOnJump | app/src/main/java/com/twentyhours/androidstudy/viewpager/ViewPager.java:316-324 | a jump beyond the offscreen limit marks every record as scrolling and changes nothing else in them; a shorter move leaves the records alone |
| ViewPager.SetCurrentAfterFirstLayout | app/src/main/java/com/twentyhours/androidstudy/viewpager/ViewPager.java:335-338 | after the first layout the clamped item becomes current, as populate's first step (line 723) makes it, and populate and scrollToItem are called in that order |
| ViewPager.ViewPager.SetScrollState | app/src/main/java/com/twentyhours/androidstudy/viewpager/ViewPager.java:615-626 | the same state changes nothing; another one is stored and announced once |
| ViewPager.ViewPager.CompleteScroll | app/src/main/java/com/twentyhours/androidstudy/viewpager/ViewPager.java:505-538 | every scrolling flag is cleared and populate is no longer pending; when settling or some record was scrolling, the end-of-scroll action is posted or run (idle state, then populate) |
| ViewPager.ViewPager.ClearScrollingFlags | app/src/main/java/com/twentyhours/androidstudy/viewpager/ViewPager.java:523-529 | every scrolling flag cleared, reporting whether any was set |
| ViewPager.ViewPager.DataSetChanged | app/src/main/java/com/twentyhours/androidstudy/viewpager/ViewPager.java:646-713 | the expected count becomes the adapter's; the pager's state becomes DataSetChangedSpec of the old one: records updated, sorted by position, then setCurrentItemInternal on newCurrItem and a layout request if needed (see DataSetChangedCurrentItem) |
| ViewPager.ViewPager.UpdateItemPositions | app/src/main/java/com/twentyhours/androidstudy/viewpager/ViewPager.java:656-697 | the records become the kept records, the events gain the update callbacks, and the populate flag and new current item are as the scan defines them |
| ViewPager.ScanItems | app/src/main/java/com/twentyhours/androidstudy/viewpager/ViewPager.java:649-697 | the loop over the records, with removal and `i--`, computes the kept records, the adapter callbacks (start once, a destroy per removal, finish), whether population is needed and the new current item |
| ViewPager.KeptMembers | app/src/main/java/com/twentyhours/androidstudy/viewpager/ViewPager.java:661-692 | a record survives exactly when it is the update of some old record the adapter did not report gone |
| ViewPager.UpdatedMeaning | app/src/main/java/com/twentyhours/androidstudy/viewpager/ViewPager.java:661-692 | a record is dropped exactly for POSITION_NONE; otherwise only its position may change: kept for POSITION_UNCHANGED, the new position otherwise |
| ViewPager.DataSetChangedOrder | app/src/main/java/com/twentyhours/androidstudy/viewpager/ViewPager.java:699 | the final records are sorted by position, a permutation of the kept ones, and records of equal position keep their order |
| ViewPager.NewCurrentIgnoresOtherPages | app/src/main/java/com/twentyhours/androidstudy/viewpager/ViewPager.java:676-688 | records of other pages never move the new current item |
| ViewPager.NewCurrentFollowsCurrentPage | app/src/main/java/com/twentyhours/androidstudy/viewpager/ViewPager.java:676-688 | the new current item is the current page's new position if it moved, max(0, min(current, count-1)) if it was removed, and the current item otherwise |
| ViewPager.DataSetChangedCurrentItem | app/src/main/java/com/twentyhours/androidstudy/viewpager/ViewPager.java:708-711 | when dataSetChanged repopulates, the new current item is newCurrItem clamped into [0, count-1] in either layout phase; otherwise the current item is untouched |
| ViewPager.ViewPager.InfoForPosition | app/src/main/java/com/twentyhours/androidstudy/viewpager/ViewPager.java:1002-1010 | none exactly when no record has the position; otherwise the first record with it |
| ViewPager.ViewPager.AddNewItem | app/src/main/java/com/twentyhours/androidstudy/viewpager/ViewPager.java:1012-1023 | a new record with the position, the adapter's object and page width, not scrolling, inserted as InsertAt says |
| ViewPager.TruncateToInt | app/src/main/java/com/twentyhours/androidstudy/viewpager/ViewPager.java:1541 | the int cast rounds toward zero within the int range and saturates at INT_MAX and INT_MIN beyond it |
| ViewPager.AbsInt | app/src/main/java/com/twentyhours/androidstudy/viewpager/ViewPager.java:1537 | Math.abs on an int: the magnitude, except that the int minimum stays negative |
| ViewPager.ViewPager.UnclampedTargetPage | app/src/main/java/com/twentyhours/androidstudy/viewpager/ViewPager.java:1536-1542 | a fling picks the current page when the velocity is positive and the next one otherwise; without one the pick is the current page moved by the offset plus the truncator, truncated toward zero and saturated |
| ViewPager.UnclampedTargetPageRounds | app/src/main/java/com/twentyhours/androidstudy/viewpager/ViewPager.java:1540-1541 | without a fling and with an offset in [0, 1), the pick is the next page exactly when the offset reaches 0.6 from the current item on, or 0.4 before it |
| ViewPager.ViewPager.DetermineTargetPage | app/src/main/java/com/twentyhours/androidstudy/viewpager/ViewPager.java:1535-1553 | with no records the unclamped pick; with records the pick when it lies between the first and last positions, the first position below it, the last above it (the first when the positions are inverted) |
| RecyclerView.ChooseSize | app/src/main/java/com/twentyhours/androidstudy/recyclerview/RecyclerView.java:722-734 | EXACTLY gives the spec's size; AT_MOST never exceeds it and reaches desired and min when both fit; any other mode gives the larger of desired and min |
| RecyclerView.ChooseSizeAtMostFits | app/src/main/java/com/twentyhours/androidstudy/recyclerview/RecyclerView.java:728-732 | AT_MOST is the unconstrained choice whenever that fits, and the bound otherwise |
| RecyclerView.TrimStart | app/src/main/java/com/twentyhours/androidstudy/recyclerview/RecyclerView.java:125 | a suffix of the string; everything cut is at or below U+0020 and what is left starts above it |
| RecyclerView.TrimEnd | app/src/main/java/com/twentyhours/androidstudy/recyclerview/RecyclerView.java:125 | a prefix of the string; everything cut is at or below U+0020 and what is left ends above it |
| RecyclerView.Trim | app/src/main/java/com/twentyhours/androidstudy/recyclerview/RecyclerView.java:125 | a slice of the string with only characters at or below U+0020 outside it, and first and last characters above U+0020 |
| RecyclerView.TrimBlank | app/src/main/java/com/twentyhours/androidstudy/recyclerview/RecyclerView.java:125-126 | a string of characters at or below U+0020 trims to nothing |
| RecyclerView.FullClassName | app/src/main/java/com/twentyhours/androidstudy/recyclerview/RecyclerView.java:175-183 | a leading '.' gets the application package in front; another name with a '.' is kept; a bare name gets "com.twentyhours.androidstudy.recyclerview." in front; the name always ends the result |
| RecyclerView.FullClassNameIsQualified | app/src/main/java/com/twentyhours/androidstudy/recyclerview/RecyclerView.java:175-183 | every resolved name contains a '.' |
| RecyclerView.FullClassNameIdempotent | app/src/main/java/com/twentyhours/androidstudy/recyclerview/RecyclerView.java:179-182 | resolving a resolved name again gives it back |
| RecyclerView.LayoutManagerClassName | app/src/main/java/com/twentyhours/androidstudy/recyclerview/RecyclerView.java:122-127 | nothing is loaded for a null name or one made only of characters at or below U+0020; otherwise the full class name of the trimmed, non-empty name |
| RecyclerView.RecyclerView.constructor | app/src/main/java/com/twentyhours/androidstudy/recyclerview/RecyclerView.java:50-58 | not frozen, no eaten request, no layout or adapter, both counters 0, and no child helper, since initChildrenHelper (lines 323-324) does nothing |
| RecyclerView.RecyclerView.IsComputingLayout | app/src/main/java/com/twentyhours/androidstudy/recyclerview/RecyclerView.java:271-273 | a layout or scroll is being computed exactly when the counter is positive |
| RecyclerView.RecyclerView.AssertNotInLayoutOrScroll | app/src/main/java/com/twentyhours/androidstudy/recyclerview/RecyclerView.java:254-273 | fails exactly while a layout or scroll is computed, with the given message or the default; otherwise succeeds and warns once inside a scroll callback |
| RecyclerView.RecyclerView.SetLayoutFrozen | app/src/main/java/com/twentyhours/androidstudy/recyclerview/RecyclerView.java:233-252 | no change for the current value; during a layout it fails with the frozen message and changes nothing; unfreezing clears both flags and replays an eaten request when layout and adapter are set; freezing cancels the touch, sets both flags and stops scrolling |
| RecyclerView.LayoutManager.constructor | app/src/main/java/com/twentyhours/androidstudy/recyclerview/RecyclerView.java:740-754 | not attached, zero size and modes |
| RecyclerView.LayoutManager.SetRecyclerView | app/src/main/java/com/twentyhours/androidstudy/recyclerview/RecyclerView.java:740-754 | attaching copies the view's child helper and size, detaching clears them; both leave the two axes in EXACTLY mode |
| ElasticDragDismiss.OnStartNestedScroll | app/src/main/java/com/twentyhours/androidstudy/elasticdismiss/ElasticDragDismissFrameLayout.java:153-155 | accepted exactly when bit 1 of the axes (the vertical axis) is set |
| ElasticDragDismiss.ModifyAlpha | app/src/main/java/com/twentyhours/androidstudy/elasticdismiss/ElasticDragDismissFrameLayout.java:351-356 | the low 24 bits of the colour are kept |
| ElasticDragDismiss.ModifyAlphaTopByte | app/src/main/java/com/twentyhours/androidstudy/elasticdismiss/ElasticDragDismissFrameLayout.java:355 | the top byte of the result is the low byte of alpha |
| ElasticDragDismiss.ModifyAlphaSetsAlpha | app/src/main/java/com/twentyhours/androidstudy/elasticdismiss/ElasticDragDismissFrameLayout.java:351-356 | for an alpha in [0, 255] the result's alpha is exactly that alpha |
| ElasticDragDismiss.ModifyAlphaIdempotent | app/src/main/java/com/twentyhours/androidstudy/elasticdismiss/ElasticDragDismissFrameLayout.java:351-356 | setting the same alpha twice is setting it once |
| ElasticDragDismiss.IsNavBarOnBottom | app/src/main/java/com/twentyhours/androidstudy/elasticdismiss/ElasticDragDismissFrameLayout.java:339-346 | at the bottom exactly for a square screen, a smallest width of at least 600dp, or portrait |
| ElasticDragDismiss.DragPreservesConsistent | app/src/main/java/com/twentyhours/androidstudy/elasticdismiss/ElasticDragDismissFrameLayout.java:212-265 | every drag keeps the flags consistent with the drag: at most one set, down means negative, up means positive, neither means zero |
| ElasticDragDismiss.DragMeaning | app/src/main/java/com/twentyhours/androidstudy/elasticdismiss/ElasticDragDismissFrameLayout.java:215-262 | from rest a drag records its amount and direction; later drags add up while the direction holds, and a drag back past the start returns to rest |
| ElasticDragDismiss.DragSameDirection | app/src/main/java/com/twentyhours/androidstudy/elasticdismiss/ElasticDragDismissFrameLayout.java:221-227 | two drags the same way from rest accumulate in that direction |
| ElasticDragDismiss.ElasticDragDismissFrameLayout.constructor | app/src/main/java/com/twentyhours/androidstudy/elasticdismiss/ElasticDragDismissFrameLayout.java:76-100 | at rest; the distance attribute or Float.MAX_VALUE; scaling on exactly when a scale other than 1 is given |
| ElasticDragDismiss.ElasticDragDismissFrameLayout.DragScale | app/src/main/java/com/twentyhours/androidstudy/elasticdismiss/ElasticDragDismissFrameLayout.java:212-265 | keeps the invariant; the drag state becomes Drag of the old one; the pivot, reset and drag callbacks are logged |
| ElasticDragDismiss.ElasticDragDismissFrameLayout.OnNestedPreScroll | app/src/main/java/com/twentyhours/androidstudy/elasticdismiss/ElasticDragDismissFrameLayout.java:166-173 | while dragging down with dy > 0 or up with dy < 0, drags by dy and sets consumed[1] to dy; otherwise changes nothing, consumed included |
| ElasticDragDismiss.ElasticDragDismissFrameLayout.OnNestedScroll | app/src/main/java/com/twentyhours/androidstudy/elasticdismiss/ElasticDragDismissFrameLayout.java:183-186 | the unconsumed vertical scroll drags the frame |
| ElasticDragDismiss.ElasticDragDismissFrameLayout.OnStopNestedScroll | app/src/main/java/com/twentyhours/androidstudy/elasticdismiss/ElasticDragDismissFrameLayout.java:192-209 | a drag of at least the dismiss distance dispatches dismiss and keeps the drag state; a shorter one settles back to rest and reports a zero drag |
| YoutubeStyleLayout.ChildSpec | app/src/main/java/com/twentyhours/androidstudy/youtubestylelayout/YoutubeStyleLayout.java:65-81 | AT_MOST exactly for wrap-content, EXACTLY otherwise; the available size for wrap- and match-parent, the given dimension otherwise |
| YoutubeStyleLayout.YoutubeStyleLayout.OnMeasure | app/src/main/java/com/twentyhours/androidstudy/youtubestylelayout/YoutubeStyleLayout.java:43-86 | fails with the children message exactly unless there are two children, changing nothing; otherwise the first child is the main view, the second the sliding view, every child is measured with ChildSpec inside the padding, and the layout takes the offered sizes |
| YoutubeStyleLayout.YoutubeStyleLayout.OnLayout | app/src/main/java/com/twentyhours/androidstudy/youtubestylelayout/YoutubeStyleLayout.java:89-107 | the drag range is the height less the sliding view's; the sliding view at (0, top, r, top + measured height); the main view from max(0, sliding measured height - top) to the earlier of b and its measured height below that |
| YoutubeStyleLayout.ClampVertical | app/src/main/java/com/twentyhours/androidstudy/youtubestylelayout/YoutubeStyleLayout.java:224 | never past the bottom bound; within the bounds when they are ordered; an in-range top is kept and an out-of-range one goes to the nearer bound |
| YoutubeStyleLayout.ClampVerticalIdempotent | app/src/main/java/com/twentyhours/androidstudy/youtubestylelayout/YoutubeStyleLayout.java:224 | clamping a clamped position changes nothing |
| YoutubeStyleLayout.YoutubeStyleLayout.ClampViewPositionVertical | app/src/main/java/com/twentyhours/androidstudy/youtubestylelayout/YoutubeStyleLayout.java:220-225 | between the top padding and the height less the sliding view's height and bottom padding |
| YoutubeStyleLayout.YoutubeStyleLayout.IsViewHit | app/src/main/java/com/twentyhours/androidstudy/youtubestylelayout/YoutubeStyleLayout.java:190-199 | a hit exactly when the point, moved by the offset between the view's and the layout's screen positions, lies in the view's half-open box; only a view with positive width and height can be hit |
| YoutubeStyleLayout.IsViewHitInLayoutBox | app/src/main/java/com/twentyhours/androidstudy/youtubestylelayout/YoutubeStyleLayout.java:190-199 | for an untransformed child the hit test is half-open containment in its layout box |
| YoutubeStyleLayout.EmptyViewIsNeverHit | app/src/main/java/com/twentyhours/androidstudy/youtubestylelayout/YoutubeStyleLayout.java:195-198 | a view without width or height is never hit |
| YoutubeStyleLayout.YoutubeStyleLayout.TryCaptureView | app/src/main/java/com/twentyhours/androidstudy/youtubestylelayout/YoutubeStyleLayout.java:215-217 | a child is captured exactly when a sliding view is set and the child is that view, whatever the pointer |
| YoutubeStyleLayout.CaptureOnlySlidingView | app/src/main/java/com/twentyhours/androidstudy/youtubestylelayout/YoutubeStyleLayout.java:215-217 | a child is captured exactly when it is the sliding view |
| YoutubeStyleLayout.YoutubeStyleLayout.OnViewPositionChanged | app/src/main/java/com/twentyhours/androidstudy/youtubestylelayout/YoutubeStyleLayout.java:228-241 | the sliding view's top is remembered and one layout is requested |
| AspectRatioImageView.Divide | app/src/main/java/com/twentyhours/androidstudy/youtubestylelayout/AspectRatioImageView.java:23 | float division: NaN exactly for a NaN operand, infinity over infinity or zero over zero; the sign is the exclusive or of the operands' signs; infinite exactly for an infinite dividend or a zero divisor; otherwise the exact quotient; a zero over an infinity |
| AspectRatioImageView.Multiply | app/src/main/java/com/twentyhours/androidstudy/youtubestylelayout/AspectRatioImageView.java:46 | float multiplication: NaN exactly for a NaN operand or infinity times zero; the sign is the exclusive or of the signs; infinite exactly when an operand is; otherwise the exact product |
| AspectRatioImageView.Times | app/src/main/java/com/twentyhours/androidstudy/youtubestylelayout/AspectRatioImageView.java:46 | an int size times a float: the exact product for a finite float; an infinity keeps or flips its sign by the size's, NaN for size 0; NaN stays NaN |
| AspectRatioImageView.Over | app/src/main/java/com/twentyhours/androidstudy/youtubestylelayout/AspectRatioImageView.java:52 | an int size over a float: the exact quotient for a non-zero finite float; over a zero an infinity signed by the exclusive or of the signs, NaN for size 0; over an infinity a signed zero |
| AspectRatioImageView.MultiplyCommutes | app/src/main/java/com/twentyhours/androidstudy/youtubestylelayout/AspectRatioImageView.java:46 | float multiplication does not depend on the operands' order |
| AspectRatioImageView.DivideByOne | app/src/main/java/com/twentyhours/androidstudy/youtubestylelayout/AspectRatioImageView.java:23 | dividing by one gives back the dividend, signed zeros and infinities included |
| AspectRatioImageView.ToInt | app/src/main/java/com/twentyhours/androidstudy/youtubestylelayout/AspectRatioImageView.java:46-52 | the int cast: toward zero within the int range, INT_MAX and INT_MIN beyond it and for the infinities, 0 for either zero and for NaN |
| AspectRatioImageView.Decide | app/src/main/java/com/twentyhours/androidstudy/youtubestylelayout/AspectRatioImageView.java:36-43 | with an exact height the width is derived exactly when the width is not exact or is 0; with only an exact width the height is derived; with neither, pass through |
| AspectRatioImageView.AspectRatioImageView.constructor | app/src/main/java/com/twentyhours/androidstudy/youtubestylelayout/AspectRatioImageView.java:17-25 | missing ratio terms are 1, so with none given the ratio is exactly 1 |
| AspectRatioImageView.AspectRatioImageView.OnMeasure | app/src/main/java/com/twentyhours/androidstudy/youtubestylelayout/AspectRatioImageView.java:27-56 | the given dimension's spec passes through; the derived one is EXACTLY the other size times (width) or over (height) the ratio, cast to int |
| AspectRatioImageView.SquareByDefault | app/src/main/java/com/twentyhours/androidstudy/youtubestylelayout/AspectRatioImageView.java:21-23 | with a square ratio, such as the default, the derived dimension equals the given one |
| AspectRatioImageView.DerivedSizeIsTruncatedRatio | app/src/main/java/com/twentyhours/androidstudy/youtubestylelayout/AspectRatioImageView.java:44-54 | with positive ratio terms the derived size lies within one pixel below the exact product or quotient |
| AspectRatioImageView.NegativeZeroRatio | app/src/main/java/com/twentyhours/androidstudy/youtubestylelayout/AspectRatioImageView.java:23-53 | a zero width term over a negative height term gives the ratio -0.0, so a derived height from a positive width is the int minimum and a derived width is 0 |

## Left out

- FlexboxLayout.CompareTo: the Java comparison subtracts 32-bit ints and can overflow for extreme `order` values. The model compares mathematically, which is what the subtraction means whenever it does not overflow.
- FlexboxLayout.FlexboxLayout.OnMeasure: a null child is skipped by the change check (lines 212-214) but dereferenced by `createOrders` (lines 251-252), which throws a NullPointerException. The model requires every child to be non-null whenever the permutation is rebuilt, so that exception is not modelled; the same holds for CreateReorderedIndices, SortOrdersIntoReorderedIndices and CreateOrders.
- The rest of the flexbox: the empty `onLayout`, the measure pass of the superclass, and drawing. Line partitioning, grow/shrink and stretch are not in the code.
- FlexLine getters: they are the field selectors of the `FlexLine` value, so no separate member states them.
- ViewPager: `populate` is modelled only by its first step, which makes its argument the current item; the rest of it, `scrollToItem`, the adapter's `startUpdate`/`destroyItem`/`finishUpdate`, listener dispatch and `requestLayout` are calls into code that is not modelled. Each appears as an event in the log.
- ViewPager: the reset of each child's `widthFactor` before repopulating is not modelled. Child layout parameters are not part of the model.
- ViewPager.ViewPager.CompleteScroll: the scroller abort and the `scrollTo`/`pageScrolled` calls while settling are float and platform work. They are left out, so `CompleteScroll` starts after the scroller has been stopped.
- ViewPager: `ItemInfo` records are values in a sequence. Java's aliasing of a record returned by `infoForPosition` or `addNewItem` with the list entry is not captured.
- ViewPager: `widthFactor` and `offset` are opaque reals, and the (int) casts of the density-scaled thresholds are inputs to the constructor. The comparator subtracts positions, which assumes they do not overflow.
- ViewPager.ViewPager.UnclampedTargetPage: `pageOffset + 0.4f` is a float sum; the model adds exactly and takes 0.4 and 0.6 as exact reals, so float rounding at the threshold is not modelled. `currentPage` plus the cast is an exact sum; a 32-bit wrap-around there is not modelled.
- ViewPager: touch, drag, fling velocity tracking, edge effects, smooth scrolling, page offsets, window insets and the drawing order are not modelled.
- ViewPager.ViewPager.UpdateItemPositions: `dataSetChanged` edits the live list and calls the adapter as it goes. The model runs the same loop on local copies and writes them back afterwards; nothing can observe the difference in a single-threaded pass.
- ViewPager.ViewPager.DataSetChanged: the adapter is non-null by the method's own documented precondition (it is called only by the attached observer), so the model requires it.
- RecyclerView: the reflection that loads and constructs the layout manager after its name is resolved is not modelled.
- RecyclerView: `onTouchEvent` with the cancel event, `stopScroll`, `requestLayout` and `Log.w` are events.
- RecyclerView: the commented-out bodies and scroll-range stubs have no behaviour to model. AdapterHelper, ChildHelper and OpReorderer are stubs. ChildHelper appears only through its identity, and RecyclerView never creates one because initChildrenHelper's body is commented out, so its child helper stays null and a layout manager attached to it copies null.
- RecyclerView.FullClassName: the caller guarantees a non-empty name through the trim check, so that is required. The application's package name is a parameter.
- MeasureSpecs: a spec is a `(mode, size)` pair. The 2-bit mode / 30-bit size packing of `makeMeasureSpec`, with its truncation of sizes, is left out.
- ElasticDragDismiss: the translation, scale and log10 drag fraction of `dragScale`, the `animate()` chain, and the float arguments of the drag callbacks are not modelled. Only the raw drag in pixels is logged.
- ElasticDragDismiss: `onSizeChanged`, which derives the dismiss distance from `dragDismissFraction`, is not modelled. The elasticity attribute, the callback list's add and remove, and the system-chrome fader are not modelled either.
- ElasticDragDismiss.ElasticDragDismissFrameLayout.DragScale: `totalDrag` is a Java float. The model keeps it as an exact int, which is exact while the accumulated drag stays below 2^24.
- ElasticDragDismiss: the dismiss distance is an int threshold because `Float.MAX_VALUE` and pixel sizes are integers. `Math.abs` of the int minimum cannot arise with an int-valued drag.
- ElasticDragDismiss.ElasticDragDismissFrameLayout.OnNestedPreScroll: the platform always passes a two-element `consumed` array, so that is required.
- YoutubeStyleLayout: the ViewDragHelper touch handling, `computeScroll`, `smoothSlideTo` and `onViewReleased` are not modelled.
- YoutubeStyleLayout.YoutubeStyleLayout.OnViewPositionChanged: the float drag offset, the sliding view's pivot and scale, and the main view's alpha are not modelled.
- YoutubeStyleLayout: `getLocationOnScreen` is a platform call. Screen locations are fields set from outside, and so are the children's measured sizes after `measure`.
- YoutubeStyleLayout.YoutubeStyleLayout.OnLayout: it runs after a successful measure pass, which sets two distinct child views, so that is required.
- AspectRatioImageView: the float product and quotient are computed exactly over the rationals, with signed zeros, infinities and NaN as in IEEE 754, and the int sizes and ratio terms convert to floats exactly. Float rounding of the ratio and of the product is not modelled. `super.onMeasure` receives the specs the model returns.

## Findings

| source | as written | input that shows it | evidently intended | confidence | as-written member | corrected member |
|---|---|---|---|---|---|---|
| app/src/main/java/com/twentyhours/androidstudy/flexboxlayout/FlexboxLayout.java:241 | the order cache is filled by sorted position (`append(i, order.order)`), but the check at line 217 compares child i's order against entry i | measure children with orders [2, 1] (cache [1, 2], permutation [1, 0]), then swap them to [1, 2]: the check reports no change and the stale permutation [1, 0] stays | key the cache by child index (`order.index`), so "unchanged" means every child has the order it had at the last rebuild | not executed | FlexboxLayout.StalePermutationAsWritten | FlexboxLayout.CorrectedCacheIsSound |
