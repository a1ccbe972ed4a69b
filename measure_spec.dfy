/**
 * Android's View.MeasureSpec, modelled as a (mode, size) pair instead of the
 * platform's packed 32-bit encoding. The modes keep their platform values
 * (0 << 30, 1 << 30 and 2 << 30 as a signed 32-bit int) so that an unknown mode
 * is still representable.
 */
module MeasureSpecs {

  const UNSPECIFIED: int := 0
  const EXACTLY: int := 0x4000_0000
  const AT_MOST: int := -0x8000_0000

  datatype MeasureSpec = MeasureSpec(mode: int, size: int)

  /** ViewGroup.LayoutParams.MATCH_PARENT and WRAP_CONTENT. */
  const MATCH_PARENT: int := -1
  const WRAP_CONTENT: int := -2

  function Min(a: int, b: int): int { if a <= b then a else b }
  function Max(a: int, b: int): int { if a >= b then a else b }
}
