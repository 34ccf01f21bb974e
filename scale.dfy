/**
 * The exact parts of the free conversion functions at the end of the script:
 * the clamp `normalizeToLog` applies to its normalised input, the clamp
 * `absToLogNormalize` applies to its lower bound, and the linear `absToNorm`.
 * The base-2 logarithms and powers around them are floating point and are
 * not part of this model.
 */
module Scale {
  import opened Wrappers

  function Min(a: real, b: real): real { if a <= b then a else b }
  function Max(a: real, b: real): real { if a >= b then a else b }

  /** `Math.min(1, Math.max(0, normVal))`: the normalised position forced into [0, 1]. */
  function Clamp01(normVal: real): (r: real)
    ensures 0.0 <= r <= 1.0
    ensures 0.0 <= normVal <= 1.0 ==> r == normVal
    ensures normVal < 0.0 ==> r == 0.0
    ensures normVal > 1.0 ==> r == 1.0
  {
    Min(1.0, Max(0.0, normVal))
  }

  /** The clamp is monotone, so it keeps the order of pointer positions. */
  lemma Clamp01Monotone(x: real, y: real)
    requires x <= y
    ensures Clamp01(x) <= Clamp01(y)
  {
  }

  /**
   * `Math.min(maxValue, Math.max(minValue, 1))`: the lower bound of the
   * logarithmic scale, kept at or above 1 so that the logarithm is defined.
   */
  function LogMin(minValue: real, maxValue: real): (r: real)
    ensures maxValue >= 1.0 ==> 1.0 <= r <= maxValue
    ensures 1.0 <= minValue <= maxValue ==> r == minValue
    ensures minValue < 1.0 <= maxValue ==> r == 1.0
    ensures maxValue < 1.0 ==> r == maxValue
    ensures maxValue < minValue ==> r == maxValue
  {
    Min(maxValue, Max(minValue, 1.0))
  }

  /**
   * `absToNorm(val, max, min)`: `(val - min) / (max - min)`. When `max == min`
   * JavaScript yields a non-finite number (Infinity or NaN), modelled as None.
   */
  function AbsToNorm(val: real, max: real, min: real): (r: Option<real>)
    ensures r.Some? <==> max != min
    ensures r.Some? ==> min + r.value * (max - min) == val
    ensures max != min && val == min ==> r == Some(0.0)
    ensures max != min && val == max ==> r == Some(1.0)
  {
    if max == min then None
    else
      DivisionFacts(val - min, max - min);
      Some((val - min) / (max - min))
  }

  lemma DivisionFacts(a: real, d: real)
    requires d != 0.0
    ensures (a / d) * d == a
    ensures a == 0.0 ==> a / d == 0.0
    ensures a == d ==> a / d == 1.0
  {
  }

  /** For an increasing range, `absToNorm` keeps the order of its inputs. */
  lemma AbsToNormMonotone(x: real, y: real, max: real, min: real)
    requires min < max && x <= y
    ensures AbsToNorm(x, max, min).value <= AbsToNorm(y, max, min).value
  {
    var d := max - min;
    assert (x - min) / d <= (y - min) / d by {
      assert (y - min) / d - (x - min) / d == (y - x) / d;
    }
  }

  /** Points of [min, max] land in [0, 1]. */
  lemma AbsToNormInUnit(x: real, max: real, min: real)
    requires min < max && min <= x <= max
    ensures 0.0 <= AbsToNorm(x, max, min).value <= 1.0
  {
    AbsToNormMonotone(min, x, max, min);
    AbsToNormMonotone(x, max, max, min);
  }
}
