/**
 * One line of a flex container: a bounding box in the parent's coordinates,
 * the line's main and cross sizes and its item counters. A fresh line has an
 * "inverted" box (left/top at the largest int, right/bottom at the smallest)
 * so that the first child's edges, combined by min/max, become the box.
 */
module FlexLine {
  import opened MeasureSpecs

  const INT_MAX: int := 0x7fff_ffff
  const INT_MIN: int := -0x8000_0000

  predicate IsInt32(x: int) {
    INT_MIN <= x <= INT_MAX
  }

  /** The getters of FlexLine are the field selectors of this value. */
  datatype FlexLine = FlexLine(
    left: int, top: int, right: int, bottom: int,
    mainSize: int, crossSize: int,
    itemCount: int, goneItemCount: int)
  {
    /** The number of items in the line whose visibility is not GONE. */
    function ItemCountNotGone(): (n: int)
      ensures n + goneItemCount == itemCount
      ensures 0 <= goneItemCount <= itemCount ==> 0 <= n <= itemCount
    {
      itemCount - goneItemCount
    }

    /**
     * The box contains the point (x, y), edges included. FlexLine itself has
     * only fields and getters; this predicate and Include below are not its
     * operations and only illustrate why the sentinels were chosen.
     */
    predicate BoxContains(x: int, y: int) {
      left <= x <= right && top <= y <= bottom
    }

    /** The box grown by min/max to cover a child's edges: the combination the sentinels are chosen for. */
    function Include(l: int, t: int, r: int, b: int): FlexLine {
      this.(left := Min(left, l), top := Min(top, t), right := Max(right, r), bottom := Max(bottom, b))
    }
  }

  /** The line FlexLine's constructor and field initialisers produce. */
  function NewFlexLine(): (line: FlexLine)
    ensures line.left == INT_MAX && line.top == INT_MAX
    ensures line.right == INT_MIN && line.bottom == INT_MIN
    ensures line.mainSize == 0 && line.crossSize == 0
    ensures line.itemCount == 0 && line.goneItemCount == 0
  {
    FlexLine(INT_MAX, INT_MAX, INT_MIN, INT_MIN, 0, 0, 0, 0)
  }

  /** A fresh line's box contains no point with 32-bit coordinates. */
  lemma NewLineBoxIsEmpty(x: int, y: int)
    ensures IsInt32(x) && IsInt32(y) ==> !NewFlexLine().BoxContains(x, y)
  {
  }

  /** A fresh line holds no item, gone or not. */
  lemma NewLineHasNoItems()
    ensures NewFlexLine().ItemCountNotGone() == 0
  {
  }

  /**
   * The sentinels are neutral for min/max: including the first child's
   * 32-bit edges in a fresh line yields exactly that child's box.
   */
  lemma NewLineIncludeIsChildBox(l: int, t: int, r: int, b: int)
    requires IsInt32(l) && IsInt32(t) && IsInt32(r) && IsInt32(b)
    ensures var box := NewFlexLine().Include(l, t, r, b);
            box.left == l && box.top == t && box.right == r && box.bottom == b
    ensures NewFlexLine().Include(l, t, r, b).ItemCountNotGone() == 0
  {
  }
}
