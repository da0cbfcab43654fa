/**
 * The numeric-operator algebra of the animation library: curves are total
 * functions on exact reals, and the combinators build new curves from old
 * ones by reflecting them or blending two of them under a third.
 *
 * `Linear` and `OvershootIn`/`OvershootOut` are the polynomial members of the
 * curve catalogue; the trigonometric ones (ease, elastic, bounce, ...) are not
 * part of this module and reach the scheduler as parameters.
 */
module Curves {

  /** A numeric operator: normalised progress in, progress out. */
  type Curve = real -> real

  /** The identity curve, the library's default easing. */
  function Linear(x: real): real { x }

  /** The default shape parameter of the overshooting curves. */
  const OvershootShape: real := 1.70158

  /** A cubic that dips below 0 before rising to 1. */
  function OvershootIn(x: real, s: real := OvershootShape): real {
    x * x * ((s + 1.0) * x - s)
  }

  /** The "Out" counterpart of `OvershootIn`, obtained by point reflection. */
  function OvershootOut(x: real): real {
    Flip(x => OvershootIn(x))(x)
  }

  /** Reflects the output across the horizontal midline: x |-> 1 - f(x). */
  function FlipX(f: Curve): Curve {
    x => 1.0 - f(x)
  }

  /** Reflects the input across the vertical midline: x |-> f(1 - x). */
  function FlipY(f: Curve): Curve {
    x => f(1.0 - x)
  }

  /** Point reflection through (0.5, 0.5): the output flip of the input flip. */
  function Flip(f: Curve): Curve {
    x => FlipX(FlipY(f))(x)
  }

  /**
   * Blends `f1` into `f2`, weighting `f2` by `blend(x)` and `f1` by the
   * complementary weight `1 - blend(x)`.
   */
  function MergeCurves(f1: Curve, f2: Curve, blend: Curve): Curve {
    x => f1(x) * FlipX(blend)(x) + f2(x) * blend(x)
  }

  /**
   * Blends the straight line through the origin with slope `k` into `curve`.
   * The library computes `k` as the tangent of an angle; here the slope is
   * given directly.
   */
  function MergeCurveToLine(k: real, curve: Curve, blend: Curve): Curve {
    MergeCurves(n => k * n, curve, blend)
  }

  // ---------------------------------------------------------------------------
  // Laws of the combinators

  /** Flipping the output twice gives the curve back. */
  lemma FlipXInvolutive(f: Curve, x: real)
    ensures FlipX(FlipX(f))(x) == f(x)
  {
  }

  /** Flipping the input twice gives the curve back. */
  lemma FlipYInvolutive(f: Curve, x: real)
    ensures FlipY(FlipY(f))(x) == f(x)
  {
  }

  /** `Flip` is the point reflection through (0.5, 0.5), and the two flips commute. */
  lemma FlipAt(f: Curve, x: real)
    ensures Flip(f)(x) == 1.0 - f(1.0 - x)
    ensures Flip(f)(x) == FlipY(FlipX(f))(x)
  {
    assert FlipY(f)(x) == f(1.0 - x);
    assert FlipX(FlipY(f))(x) == 1.0 - FlipY(f)(x);
    assert FlipX(f)(1.0 - x) == 1.0 - f(1.0 - x);
  }

  /** `Flip` is an involution. */
  lemma FlipInvolutive(f: Curve, x: real)
    ensures Flip(Flip(f))(x) == f(x)
  {
    FlipAt(Flip(f), x);
    FlipAt(f, 1.0 - x);
    assert 1.0 - (1.0 - x) == x;
  }

  /** The blend is the linear interpolation from `f1(x)` to `f2(x)` at parameter `blend(x)`. */
  lemma MergeIsInterpolation(f1: Curve, f2: Curve, blend: Curve, x: real)
    ensures MergeCurves(f1, f2, blend)(x) == f1(x) + (f2(x) - f1(x)) * blend(x)
    ensures blend(x) == 0.0 ==> MergeCurves(f1, f2, blend)(x) == f1(x)
    ensures blend(x) == 1.0 ==> MergeCurves(f1, f2, blend)(x) == f2(x)
  {
    var b := blend(x);
    calc {
      MergeCurves(f1, f2, blend)(x);
      f1(x) * (1.0 - b) + f2(x) * b;
      f1(x) + (f2(x) - f1(x)) * b;
    }
  }

  /** Merging a curve with itself gives the curve back, whatever the blend. */
  lemma MergeWithItself(f: Curve, blend: Curve, x: real)
    ensures MergeCurves(f, f, blend)(x) == f(x)
  {
    MergeIsInterpolation(f, f, blend, x);
  }

  /**
   * Where the blend weight lies in [0, 1] the merged value lies between the
   * two curves' values: the merge is a convex combination.
   */
  lemma {:induction false} MergeIsBetween(f1: Curve, f2: Curve, blend: Curve, x: real)
    requires 0.0 <= blend(x) <= 1.0
    ensures f1(x) <= f2(x) ==> f1(x) <= MergeCurves(f1, f2, blend)(x) <= f2(x)
    ensures f2(x) <= f1(x) ==> f2(x) <= MergeCurves(f1, f2, blend)(x) <= f1(x)
  {
    MergeIsInterpolation(f1, f2, blend, x);
    var d, b := f2(x) - f1(x), blend(x);
    assert MergeCurves(f1, f2, blend)(x) == f1(x) + d * b;
    if d >= 0.0 {
      assert 0.0 <= d * b <= d by { MulBounds(d, b); }
    } else {
      assert d <= d * b <= 0.0 by { MulBounds(-d, b); }
    }
  }

  /** For 0 <= b <= 1 and d >= 0, the product d * b lies in [0, d]. */
  lemma MulBounds(d: real, b: real)
    requires d >= 0.0 && 0.0 <= b <= 1.0
    ensures 0.0 <= d * b <= d
  {
    assert d * (1.0 - b) >= 0.0;
  }

  /**
   * The line blend at `x` in closed form; at the origin it starts at 0
   * whenever the blend weight is 0 there, and where the weight is 1 it has
   * become `curve`.
   */
  lemma MergeCurveToLineAt(k: real, curve: Curve, blend: Curve, x: real)
    ensures MergeCurveToLine(k, curve, blend)(x) == k * x * (1.0 - blend(x)) + curve(x) * blend(x)
    ensures blend(0.0) == 0.0 ==> MergeCurveToLine(k, curve, blend)(0.0) == 0.0
    ensures blend(x) == 1.0 ==> MergeCurveToLine(k, curve, blend)(x) == curve(x)
  {
    MergeIsInterpolation(n => k * n, curve, blend, x);
  }

  /**
   * On any stretch where the blend weight stays 0, the line blend is exactly
   * the line of slope `k`: a replacement curve leaves with the slope it was
   * given.
   */
  lemma MergeCurveToLineFollowsLine(k: real, curve: Curve, blend: Curve, x: real)
    requires blend(x) == 0.0
    ensures MergeCurveToLine(k, curve, blend)(x) == k * x
  {
    MergeCurveToLineAt(k, curve, blend, x);
  }

  // ---------------------------------------------------------------------------
  // Sample curves

  /** `Linear` runs from 0 to 1 and is its own point reflection. */
  lemma LinearEndpoints(x: real)
    ensures Linear(0.0) == 0.0 && Linear(1.0) == 1.0
    ensures Flip(Linear)(x) == Linear(x)
  {
    FlipAt(Linear, x);
  }

  /** Both overshooting curves run from 0 to 1, whatever the shape parameter. */
  lemma OvershootEndpoints(s: real)
    ensures OvershootIn(0.0, s) == 0.0 && OvershootIn(1.0, s) == 1.0
    ensures OvershootOut(0.0) == 0.0 && OvershootOut(1.0) == 1.0
  {
    FlipAt(x => OvershootIn(x), 0.0);
    FlipAt(x => OvershootIn(x), 1.0);
  }
}
