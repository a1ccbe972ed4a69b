/**
 * AspectRatioImageView: an image view that derives one dimension from the
 * other through a fixed width:height ratio. Modelled are the choice of the
 * derived dimension and the specs handed to the image view's own measure.
 * The float arithmetic is taken exactly, over the rationals extended with
 * the signed zeros, the infinities and NaN of IEEE 754; float rounding is
 * not modelled.
 */
module AspectRatioImageView {
  import opened Wrappers
  import opened MeasureSpecs

  /** The ratio term a missing attribute stands for. */
  const DEFAULT_RATIO: int := 1

  const INT_MAX: int := 0x7fff_ffff
  const INT_MIN: int := -0x8000_0000

  /**
   * A float value, exact when finite. Finite(0.0) is +0.0; -0.0 is
   * NegativeZero, which the sign rules of IEEE 754 can produce.
   */
  datatype FloatValue = Finite(v: real) | NegativeZero | PositiveInfinity | NegativeInfinity | NaN

  /** The float an int converts to. */
  function FromInt(n: int): FloatValue {
    Finite(n as real)
  }

  /** The sign bit: set for -0.0, -infinity and the negative finite values. */
  predicate IsNegative(f: FloatValue) {
    f.NegativeZero? || f.NegativeInfinity? || (f.Finite? && f.v < 0.0)
  }

  predicate IsZero(f: FloatValue) {
    f.NegativeZero? || f == Finite(0.0)
  }

  predicate IsInfinite(f: FloatValue) {
    f.PositiveInfinity? || f.NegativeInfinity?
  }

  /** The real value of a finite float or of either zero. */
  function Value(f: FloatValue): real
    requires f.Finite? || f.NegativeZero?
  {
    if f.Finite? then f.v else 0.0
  }

  function SignedZero(negative: bool): FloatValue {
    if negative then NegativeZero else Finite(0.0)
  }

  function SignedInfinity(negative: bool): FloatValue {
    if negative then NegativeInfinity else PositiveInfinity
  }

  /** Float multiplication, exactly: the sign of a product is the exclusive or of the operands' signs. */
  function Multiply(x: FloatValue, y: FloatValue): (r: FloatValue)
    ensures r.NaN? <==> x.NaN? || y.NaN? || (IsInfinite(x) && IsZero(y)) || (IsZero(x) && IsInfinite(y))
    ensures !r.NaN? ==> IsNegative(r) == (IsNegative(x) != IsNegative(y))
    ensures !r.NaN? ==> (IsInfinite(r) <==> IsInfinite(x) || IsInfinite(y))
    ensures !r.NaN? && !IsInfinite(r) ==> Value(r) == Value(x) * Value(y)
  {
    var negative := IsNegative(x) != IsNegative(y);
    if x.NaN? || y.NaN? then NaN
    else if IsInfinite(x) || IsInfinite(y) then
      (if IsZero(x) || IsZero(y) then NaN else SignedInfinity(negative))
    else
      var p := Value(x) * Value(y);
      if p == 0.0 then SignedZero(negative) else Finite(p)
  }

  /** Float division, exactly: a non-zero over a zero is an infinity, a finite value over an infinity a zero. */
  function Divide(x: FloatValue, y: FloatValue): (r: FloatValue)
    ensures r.NaN? <==> x.NaN? || y.NaN? || (IsInfinite(x) && IsInfinite(y)) || (IsZero(x) && IsZero(y))
    ensures !r.NaN? ==> IsNegative(r) == (IsNegative(x) != IsNegative(y))
    ensures !r.NaN? ==> (IsInfinite(r) <==> IsInfinite(x) || IsZero(y))
    ensures !r.NaN? && !IsInfinite(r) ==> !IsZero(y) && !IsInfinite(y) ==> Value(r) == Value(x) / Value(y)
    ensures !r.NaN? && IsInfinite(y) ==> IsZero(r)
  {
    var negative := IsNegative(x) != IsNegative(y);
    if x.NaN? || y.NaN? then NaN
    else if IsInfinite(x) then
      (if IsInfinite(y) then NaN else SignedInfinity(negative))
    else if IsInfinite(y) then SignedZero(negative)
    else if IsZero(y) then
      (if IsZero(x) then NaN else SignedInfinity(negative))
    else
      var q := Value(x) / Value(y);
      if q == 0.0 then SignedZero(negative) else Finite(q)
  }

  /** size * f for an int size. */
  function Times(size: int, f: FloatValue): (r: FloatValue)
    ensures f.Finite? || f.NegativeZero? ==> !r.NaN? && !IsInfinite(r) && Value(r) == size as real * Value(f)
    ensures IsInfinite(f) ==> (r.NaN? <==> size == 0)
    ensures IsInfinite(f) && size != 0 ==> r == SignedInfinity((size < 0) != f.NegativeInfinity?)
    ensures f.NaN? ==> r.NaN?
    ensures !r.NaN? ==> IsNegative(r) == ((size < 0) != IsNegative(f))
  {
    Multiply(FromInt(size), f)
  }

  /** size / f for an int size. */
  function Over(size: int, f: FloatValue): (r: FloatValue)
    ensures f.Finite? && f.v != 0.0 ==> !r.NaN? && !IsInfinite(r) && Value(r) == size as real / f.v
    ensures IsZero(f) ==> (r.NaN? <==> size == 0)
    ensures IsZero(f) && size != 0 ==> r == SignedInfinity((size < 0) != f.NegativeZero?)
    ensures IsInfinite(f) ==> IsZero(r) && IsNegative(r) == ((size < 0) != f.NegativeInfinity?)
    ensures f.NaN? ==> r.NaN?
  {
    Divide(FromInt(size), f)
  }

  /** Multiplication does not depend on the order of its operands. */
  lemma MultiplyCommutes(x: FloatValue, y: FloatValue)
    ensures Multiply(x, y) == Multiply(y, x)
  {
  }

  /** Dividing by one gives the dividend back. */
  lemma DivideByOne(x: FloatValue)
    ensures Divide(x, Finite(1.0)) == x
  {
  }

  /** Java's (int) cast of a float: truncation toward zero, saturating, NaN to 0. */
  function ToInt(f: FloatValue): (r: int)
    ensures INT_MIN <= r <= INT_MAX
    ensures f.Finite? && 0.0 <= f.v <= INT_MAX as real ==> r as real <= f.v < r as real + 1.0
    ensures f.Finite? && INT_MIN as real <= f.v <= 0.0 ==> r as real - 1.0 < f.v <= r as real
    ensures f.Finite? && f.v > INT_MAX as real ==> r == INT_MAX
    ensures f.Finite? && f.v < INT_MIN as real ==> r == INT_MIN
    ensures f.NegativeZero? ==> r == 0
    ensures f.PositiveInfinity? ==> r == INT_MAX
    ensures f.NegativeInfinity? ==> r == INT_MIN
    ensures f.NaN? ==> r == 0
  {
    match f
    case Finite(x) =>
      var t := if x >= 0.0 then x.Floor else -((-x).Floor);
      if t < INT_MIN then INT_MIN else if t > INT_MAX then INT_MAX else t
    case NegativeZero => 0
    case PositiveInfinity => INT_MAX
    case NegativeInfinity => INT_MIN
    case NaN => 0
  }

  /** Which of the two dimensions onMeasure derives, if either. */
  datatype Decision = WidthDynamic | HeightDynamic | PassThrough

  /**
   * With an exact height the width is derived unless an exact, non-zero
   * width is given too; with an exact width only, the height is derived;
   * with neither, both specs pass through.
   */
  function Decide(widthSpec: MeasureSpec, heightSpec: MeasureSpec): (d: Decision)
    ensures heightSpec.mode == EXACTLY ==>
              (d == WidthDynamic <==> widthSpec.mode != EXACTLY || widthSpec.size == 0) && d != PassThrough
    ensures heightSpec.mode != EXACTLY && widthSpec.mode == EXACTLY ==> d == HeightDynamic
    ensures d == PassThrough <==> heightSpec.mode != EXACTLY && widthSpec.mode != EXACTLY
  {
    if heightSpec.mode == EXACTLY then
      if widthSpec.mode != EXACTLY || widthSpec.size == 0 then WidthDynamic else HeightDynamic
    else if widthSpec.mode == EXACTLY then HeightDynamic
    else PassThrough
  }

  class AspectRatioImageView {
    const widthRatio: int
    const heightRatio: int

    /** The constructor with the styled attributes already read; a missing ratio term is 1. */
    constructor (widthRatioAttr: Option<int>, heightRatioAttr: Option<int>)
      ensures widthRatio == widthRatioAttr.GetOr(DEFAULT_RATIO) && heightRatio == heightRatioAttr.GetOr(DEFAULT_RATIO)
      ensures widthRatioAttr.None? && heightRatioAttr.None? ==> AspectRatio() == Finite(1.0)
    {
      widthRatio := widthRatioAttr.GetOr(DEFAULT_RATIO);
      heightRatio := heightRatioAttr.GetOr(DEFAULT_RATIO);
    }

    function AspectRatio(): FloatValue
      reads this
    {
      Divide(FromInt(widthRatio), FromInt(heightRatio))
    }

    /**
     * onMeasure: the specs handed on to the image view's own measure. The
     * given dimension's spec passes through untouched and the derived one
     * becomes exact, at the other side times or over the ratio.
     */
    function OnMeasure(widthSpec: MeasureSpec, heightSpec: MeasureSpec): (specs: (MeasureSpec, MeasureSpec))
      reads this
      ensures Decide(widthSpec, heightSpec) == PassThrough ==> specs == (widthSpec, heightSpec)
      ensures Decide(widthSpec, heightSpec) == WidthDynamic ==>
                && specs.1 == heightSpec && specs.0.mode == EXACTLY
                && specs.0.size == ToInt(Times(heightSpec.size, AspectRatio()))
      ensures Decide(widthSpec, heightSpec) == HeightDynamic ==>
                && specs.0 == widthSpec && specs.1.mode == EXACTLY
                && specs.1.size == ToInt(Over(widthSpec.size, AspectRatio()))
    {
      match Decide(widthSpec, heightSpec)
      case PassThrough => (widthSpec, heightSpec)
      case WidthDynamic => (MeasureSpec(EXACTLY, ToInt(Times(heightSpec.size, AspectRatio()))), heightSpec)
      case HeightDynamic => (widthSpec, MeasureSpec(EXACTLY, ToInt(Over(widthSpec.size, AspectRatio()))))
    }
  }

  /** A square ratio, such as the default 1:1, makes the derived dimension equal to the given one. */
  lemma SquareByDefault(view: AspectRatioImageView, widthSpec: MeasureSpec, heightSpec: MeasureSpec)
    requires view.widthRatio == view.heightRatio != 0
    requires 0 <= widthSpec.size <= INT_MAX && 0 <= heightSpec.size <= INT_MAX
    ensures var specs := view.OnMeasure(widthSpec, heightSpec);
            Decide(widthSpec, heightSpec) != PassThrough ==> specs.0.size == specs.1.size
  {
    var w := view.widthRatio as real;
    assert w != 0.0 && w / w == 1.0;
    assert view.AspectRatio() == Finite(1.0);
  }

  /**
   * With positive ratio terms the derived width lies within one pixel below
   * the exact product, and the derived height within one pixel below the
   * exact quotient.
   */
  lemma DerivedSizeIsTruncatedRatio(view: AspectRatioImageView, widthSpec: MeasureSpec, heightSpec: MeasureSpec)
    requires view.widthRatio > 0 && view.heightRatio > 0
    requires 0 <= widthSpec.size && 0 <= heightSpec.size
    ensures var specs := view.OnMeasure(widthSpec, heightSpec);
            var ratio := view.widthRatio as real / view.heightRatio as real;
            && (Decide(widthSpec, heightSpec) == WidthDynamic && heightSpec.size as real * ratio <= INT_MAX as real ==>
                  specs.0.size as real <= heightSpec.size as real * ratio < specs.0.size as real + 1.0)
            && (Decide(widthSpec, heightSpec) == HeightDynamic && widthSpec.size as real / ratio <= INT_MAX as real ==>
                  specs.1.size as real <= widthSpec.size as real / ratio < specs.1.size as real + 1.0)
  {
    var ratio := view.widthRatio as real / view.heightRatio as real;
    assert ratio > 0.0;
    assert view.AspectRatio() == Finite(ratio);
    if Decide(widthSpec, heightSpec) == WidthDynamic {
      var p := Times(heightSpec.size, Finite(ratio));
      assert !IsNegative(p) && !p.NaN? && !IsInfinite(p);
      assert p == Finite(heightSpec.size as real * ratio);
    } else if Decide(widthSpec, heightSpec) == HeightDynamic {
      var q := Over(widthSpec.size, Finite(ratio));
      assert !IsNegative(q) && !q.NaN? && !IsInfinite(q);
      assert q == Finite(widthSpec.size as real / ratio);
    }
  }

  /**
   * A zero width term over a negative height term makes the ratio -0.0, so
   * a derived height is a positive width over -0.0: -infinity, which the
   * int cast turns into the int minimum. A derived width is then 0.
   */
  lemma NegativeZeroRatio(view: AspectRatioImageView, widthSpec: MeasureSpec, heightSpec: MeasureSpec)
    requires view.widthRatio == 0 && view.heightRatio < 0
    ensures view.AspectRatio() == NegativeZero
    ensures Decide(widthSpec, heightSpec) == HeightDynamic && widthSpec.size > 0 ==>
              view.OnMeasure(widthSpec, heightSpec).1.size == INT_MIN
    ensures Decide(widthSpec, heightSpec) == WidthDynamic ==>
              view.OnMeasure(widthSpec, heightSpec).0.size == 0
  {
  }
}
