/**
 * `src/ui/Legend.tsx`: the choropleth legend samples `steps` evenly spaced
 * values of the range and shows each with its ramp colour and its value
 * rounded to a whole number.
 */
module Legend {
  import opened Types
  import opened Layers

  /** The number of samples when the caller passes none, as `App` does. */
  const DefaultSteps: nat := 5

  /** Sample `index` of `steps`: `min` alone for one step, else evenly spaced from `min` to `max`. */
  function LegendValue(min: real, max: real, steps: nat, index: nat): real
    requires index < steps
  {
    if steps == 1 then min else min + ((max - min) * (index as real)) / ((steps - 1) as real)
  }

  /** The `values` array of `Legend`. */
  function LegendValues(min: real, max: real, steps: nat): (values: seq<real>)
    ensures |values| == steps
  {
    seq(steps, i requires 0 <= i < steps => LegendValue(min, max, steps, i))
  }

  /** One step shows the range's lower end alone. */
  lemma LegendSingleStep(min: real, max: real)
    ensures LegendValues(min, max, 1) == [min]
  {
  }

  /** With two or more steps the samples start at `min` and end at `max`. */
  lemma LegendEndpoints(min: real, max: real, steps: nat)
    requires steps >= 2
    ensures LegendValues(min, max, steps)[0] == min
    ensures LegendValues(min, max, steps)[steps - 1] == max
  {
    var n := (steps - 1) as real;
    assert (steps - 1) as real == n;
    CancelQuotient(max - min, n);
    assert LegendValue(min, max, steps, steps - 1) == min + ((max - min) * n) / n;
  }

  lemma ScaledQuotientMonotone(d: real, a: real, b: real, n: real)
    requires d >= 0.0 && a <= b && n > 0.0
    ensures (d * a) / n <= (d * b) / n
  {
    NonNegativeProduct(d, b - a);
    assert d * b - d * a == d * (b - a);
    QuotientMonotone(d * a, d * b, n);
  }

  lemma CancelQuotient(d: real, n: real)
    requires n > 0.0
    ensures (d * n) / n == d
  {
  }

  /** Moving from share `i` to share `i + 1` of `d` split into `n` parts adds exactly `d / n`. */
  lemma NextShare(base: real, d: real, n: real, i: nat)
    requires n > 0.0
    ensures (base + (d * ((i + 1) as real)) / n) - (base + (d * (i as real)) / n) == d / n
  {
    var x := i as real;
    assert (i + 1) as real == x + 1.0;
    assert d * (x + 1.0) == d * x + d;
    assert (d * x + d) / n == (d * x) / n + d / n;
  }

  /** Neighbouring samples of two or more differ by one share of the range. */
  lemma ValueStep(min: real, max: real, steps: nat, k: nat)
    requires 1 < steps && k + 1 < steps
    ensures LegendValue(min, max, steps, k + 1) - LegendValue(min, max, steps, k) == (max - min) / ((steps - 1) as real)
  {
    NextShare(min, max - min, (steps - 1) as real, k);
  }

  /**
   * The samples are evenly spaced: with two or more steps, neighbours lie
   * one `(max - min) / (steps - 1)` apart.
   */
  lemma LegendEvenlySpaced(min: real, max: real, steps: nat, k: nat)
    requires 1 < steps && k + 1 < steps
    ensures var values := LegendValues(min, max, steps);
      values[k + 1] - values[k] == (max - min) / ((steps - 1) as real)
  {
    var values := LegendValues(min, max, steps);
    assert values[k] == LegendValue(min, max, steps, k);
    assert values[k + 1] == LegendValue(min, max, steps, k + 1);
    ValueStep(min, max, steps, k);
  }

  /** Shares `a / n` and `b / n` of a non-negative `d`, for `a <= b <= n`, are ordered and within `[0, d]`. */
  lemma ShareBetween(d: real, a: nat, b: nat, n: nat)
    requires d >= 0.0 && a <= b <= n && n > 0
    ensures 0.0 <= (d * (a as real)) / (n as real) <= (d * (b as real)) / (n as real) <= d
  {
    var x, y, z := a as real, b as real, n as real;
    var low, mid, high := (d * x) / z, (d * y) / z, (d * z) / z;
    ScaledQuotientMonotone(d, 0.0, x, z);
    assert 0.0 <= low by {
      assert (d * 0.0) / z == 0.0;
    }
    ScaledQuotientMonotone(d, x, y, z);
    assert low <= mid;
    ScaledQuotientMonotone(d, y, z, z);
    assert mid <= high;
    CancelQuotient(d, z);
    assert high == d;
  }

  /**
   * Sample values climb from `min` to `max` on a non-empty range, stated on
   * single samples so that `LegendOrdered` can state it on the array.
   */
  lemma LegendValueOrdered(min: real, max: real, steps: nat, i: nat, j: nat)
    requires min <= max && i <= j < steps
    ensures min <= LegendValue(min, max, steps, i) <= LegendValue(min, max, steps, j) <= max
  {
    if steps > 1 {
      var d, n := max - min, steps - 1;
      ShareBetween(d, i, j, n);
      assert LegendValue(min, max, steps, i) == min + (d * (i as real)) / (n as real);
      assert LegendValue(min, max, steps, j) == min + (d * (j as real)) / (n as real);
    }
  }

  /** On a non-empty range the samples climb from `min` to `max` and stay inside it. */
  lemma LegendOrdered(min: real, max: real, steps: nat, i: nat, j: nat)
    requires min <= max && i <= j < steps
    ensures var values := LegendValues(min, max, steps);
      min <= values[i] <= values[j] <= max
  {
    var values := LegendValues(min, max, steps);
    assert values[i] == LegendValue(min, max, steps, i);
    assert values[j] == LegendValue(min, max, steps, j);
    LegendValueOrdered(min, max, steps, i, j);
  }

  /** A legend entry: the swatch colour, its CSS alpha and the caption under it. */
  datatype Swatch = Swatch(color: Rgba, alpha: real, caption: int)

  /** The entry for one value: its ramp colour, alpha `a / 255` and `Math.round(value)`. */
  function SwatchOf(value: real, min: real, max: real): (s: Swatch)
    ensures s.color == ChoroplethColor(value, min, max)
    ensures s.alpha == 200.0 / 255.0
    ensures value - 1.0 / 2.0 < s.caption as real <= value + 1.0 / 2.0
  {
    var color := ChoroplethColor(value, min, max);
    Swatch(color, color.a as real / 255.0, Round(value))
  }

  /** The rendered list of entries, one per sampled value, in order. */
  function Swatches(min: real, max: real, steps: nat): (swatches: seq<Swatch>)
    ensures |swatches| == steps
  {
    var values := LegendValues(min, max, steps);
    seq(steps, i requires 0 <= i < steps => SwatchOf(values[i], min, max))
  }

  /** On an increasing range the first swatch is the ramp's start and the last its end. */
  lemma LegendRampEnds(min: real, max: real, steps: nat)
    requires min < max && steps >= 2
    ensures Swatches(min, max, steps)[0].color == WithAlpha(RampStart, 200)
    ensures Swatches(min, max, steps)[steps - 1].color == WithAlpha(RampEnd, 200)
  {
    LegendEndpoints(min, max, steps);
    ChoroplethAtOrBelowMin(min, min, max);
    ChoroplethAtOrAboveMax(max, min, max);
  }

  /** On an increasing range, later swatches are never lighter in any channel. */
  lemma SwatchesDarken(min: real, max: real, steps: nat, i: nat, j: nat)
    requires min < max && i <= j < steps
    ensures var swatches := Swatches(min, max, steps);
      && swatches[j].color.r <= swatches[i].color.r
      && swatches[j].color.g <= swatches[i].color.g
      && swatches[j].color.b <= swatches[i].color.b
  {
    var values := LegendValues(min, max, steps);
    LegendOrdered(min, max, steps, i, j);
    ChoroplethMonotone(values[i], values[j], min, max);
  }

  /**
   * The legend `App` renders, with the default five steps: on an increasing
   * range it runs from the ramp's start to its end, and the middle swatch
   * is captioned with the range's midpoint, rounded.
   */
  function DefaultLegend(min: real, max: real): (swatches: seq<Swatch>)
    ensures |swatches| == DefaultSteps
    ensures min < max ==> swatches[0].color == WithAlpha(RampStart, 200)
    ensures min < max ==> swatches[DefaultSteps - 1].color == WithAlpha(RampEnd, 200)
    ensures swatches[2].caption == Round((min + max) / 2.0)
  {
    var swatches := Swatches(min, max, DefaultSteps);
    assert min < max ==> (swatches[0].color == WithAlpha(RampStart, 200)
      && swatches[DefaultSteps - 1].color == WithAlpha(RampEnd, 200)) by {
      if min < max {
        LegendRampEnds(min, max, DefaultSteps);
      }
    }
    assert LegendValues(min, max, DefaultSteps)[2] == (min + max) / 2.0 by {
      assert LegendValues(min, max, DefaultSteps)[2] == min + ((max - min) * 2.0) / 4.0;
    }
    swatches
  }
}
