/**
 * `DoubleRange`: two range sliders selecting a sub-range of the frequency
 * scale, kept at least `minClosureNorm` apart. Each boundary is held both as a
 * normalised slider position (`startNorm`, `endNorm`) and as an absolute
 * frequency (`startAbs`, `endAbs`).
 *
 * `#logConvert` is `normalizeToLog`: the clamp to [0, 1], then the
 * floating-point curve `toFrequency`. `#absConvert` is `absToLogNormalize`,
 * given as `toPosition`: its lower-bound clamp is exact (`Scale.LogMin`), its
 * logarithms are floating point. Both curves are given to the constructor;
 * the only fact assumed of them is `ConvertersInverse`.
 */
module Range {
  import opened Wrappers
  import Js
  import Scale

  /**
   * The start slider's value that `#startInput` commits: the proposed value
   * when it stays `minClosure` below the end slider, otherwise `minClosure`
   * below the end frequency converted back to a position.
   */
  function ClosedStart(proposed: real, endSlider: real, endPosition: real, minClosure: real): (r: real)
    ensures proposed + minClosure <= endSlider ==> r == proposed
    ensures endPosition == endSlider ==> r == Scale.Min(proposed, endSlider - minClosure)
    ensures endPosition == endSlider ==> r + minClosure <= endSlider && r <= proposed
  {
    if proposed + minClosure <= endSlider then proposed else endPosition - minClosure
  }

  /** The mirror image for `#endInput`. */
  function ClosedEnd(proposed: real, startSlider: real, startPosition: real, minClosure: real): (r: real)
    ensures startSlider <= proposed - minClosure ==> r == proposed
    ensures startPosition == startSlider ==> r == Scale.Max(proposed, startSlider + minClosure)
    ensures startPosition == startSlider ==> startSlider + minClosure <= r && proposed <= r
  {
    if startSlider <= proposed - minClosure then proposed else startPosition + minClosure
  }

  /** Committing is idempotent: a committed start is accepted as it is. */
  lemma ClosedStartIdempotent(proposed: real, endSlider: real, minClosure: real)
    ensures var r := ClosedStart(proposed, endSlider, endSlider, minClosure);
      ClosedStart(r, endSlider, endSlider, minClosure) == r
  {
  }

  class DoubleRange {
    const minClosureNorm: real
    const min: real
    const max: real
    /** The curve of `normalizeToLog(·, max, min)` after its clamp. */
    const toFrequency: real -> real
    /** `absToLogNormalize(·, max, min)`. */
    const toPosition: real -> real

    var startNorm: real
    var endNorm: real
    var startAbs: real
    var endAbs: real
    /** The value of the start slider, `rangeMin.value`. */
    var startSlider: real
    /** The value of the end slider, `rangeMax.value`. */
    var endSlider: real

    /** `#logConvert`: a position outside [0, 1] converts as the nearer end. */
    function LogConvert(v: real): (r: real)
      ensures 0.0 <= v <= 1.0 ==> r == toFrequency(v)
      ensures v < 0.0 ==> r == toFrequency(0.0)
      ensures 1.0 < v ==> r == toFrequency(1.0)
    {
      toFrequency(Scale.Clamp01(v))
    }

    /** `#absConvert`: under the assumption, it gives back the position a frequency came from. */
    function AbsConvert(a: real): (r: real)
      ensures ConvertersInverse() ==> forall x :: 0.0 <= x <= 1.0 && a == toFrequency(x) ==> r == x
    {
      toPosition(a)
    }

    /**
     * The assumption about the floating-point curves: converting a position
     * of [0, 1] to a frequency and back gives the position again.
     */
    ghost predicate ConvertersInverse() {
      forall x :: 0.0 <= x <= 1.0 ==> toPosition(toFrequency(x)) == x
    }

    /** Under the assumption, `#absConvert` undoes `#logConvert` up to its clamp. */
    lemma ConvertRoundTrip(x: real)
      requires ConvertersInverse()
      ensures AbsConvert(LogConvert(x)) == Scale.Clamp01(x)
    {
    }

    /**
     * The object invariant: both sliders lie in [0, 1] at least
     * `minClosureNorm` apart, the normalised fields equal the sliders and the
     * absolute fields are their conversions.
     */
    ghost predicate Valid()
      reads this
    {
      && ConvertersInverse()
      && 0.0 <= minClosureNorm
      && 0.0 <= startSlider <= 1.0 && 0.0 <= endSlider <= 1.0
      && startSlider + minClosureNorm <= endSlider
      && startNorm == startSlider && endNorm == endSlider
      && startAbs == LogConvert(startSlider) && endAbs == LogConvert(endSlider)
    }

    /**
     * The constructor, with the options as present or absent values. Without
     * `initStart` the start position is 0 but `startAbs` is `max`, not `min`.
     */
    constructor (min: real, max: real, initStart: Option<real>, initEnd: Option<real>,
                 minClosure: Option<real>, toFrequency: real -> real, toPosition: real -> real)
      ensures this.min == min && this.max == max
      ensures this.toFrequency == toFrequency && this.toPosition == toPosition
      ensures minClosureNorm == Js.Or(minClosure, 0.0)
      ensures Js.Truthy(initStart) ==> startNorm == toPosition(initStart.value)
      ensures !Js.Truthy(initStart) ==> startNorm == 0.0
      ensures Js.Truthy(initEnd) ==> endNorm == toPosition(initEnd.value)
      ensures !Js.Truthy(initEnd) ==> endNorm == 1.0
      ensures startSlider == startNorm && endSlider == endNorm
      ensures startAbs == Js.Or(initStart, max) && endAbs == Js.Or(initEnd, max)
      ensures !Js.Truthy(initStart) && toFrequency(0.0) != max ==> !Valid()
      ensures && Js.Truthy(initStart) && Js.Truthy(initEnd)
              && toFrequency(toPosition(initStart.value)) == initStart.value
              && toFrequency(toPosition(initEnd.value)) == initEnd.value
              && 0.0 <= toPosition(initStart.value) && toPosition(initEnd.value) <= 1.0
              && toPosition(initStart.value) + Js.Or(minClosure, 0.0) <= toPosition(initEnd.value)
              && 0.0 <= Js.Or(minClosure, 0.0)
              && ConvertersInverse()
              ==> Valid()
    {
      this.minClosureNorm := Js.Or(minClosure, 0.0);
      this.min := min;
      this.max := max;
      this.toFrequency := toFrequency;
      this.toPosition := toPosition;
      startNorm := if Js.Truthy(initStart) then toPosition(initStart.value) else 0.0;
      endNorm := if Js.Truthy(initEnd) then toPosition(initEnd.value) else 1.0;
      startSlider := startNorm;
      endSlider := endNorm;
      startAbs := Js.Or(initStart, max);
      endAbs := Js.Or(initEnd, max);
    }

    /**
     * `#startInput`, after the user has moved the start slider to `v` (the
     * browser keeps a range input's value inside [0, 1]).
     */
    method StartInput(v: real)
      requires 0.0 <= v <= 1.0
      modifies this
      ensures startSlider == ClosedStart(v, old(endSlider), AbsConvert(old(endAbs)), minClosureNorm)
      ensures startNorm == startSlider && startAbs == LogConvert(startSlider)
      ensures endSlider == old(endSlider) && endNorm == old(endNorm) && endAbs == old(endAbs)
      ensures old(Valid()) ==> Valid() && startNorm == Scale.Min(v, endNorm - minClosureNorm)
    {
      startSlider := v;
      if startSlider + minClosureNorm <= endSlider {
        startAbs := LogConvert(startSlider);
      } else {
        startSlider := AbsConvert(endAbs) - minClosureNorm;
        startAbs := LogConvert(startSlider);
      }
      startNorm := startSlider;
      if old(Valid()) {
        ConvertRoundTrip(endSlider);
      }
    }

    /** `#endInput`, after the user has moved the end slider to `v`. */
    method EndInput(v: real)
      requires 0.0 <= v <= 1.0
      modifies this
      ensures endSlider == ClosedEnd(v, old(startSlider), AbsConvert(old(startAbs)), minClosureNorm)
      ensures endNorm == endSlider && endAbs == LogConvert(endSlider)
      ensures startSlider == old(startSlider) && startNorm == old(startNorm) && startAbs == old(startAbs)
      ensures old(Valid()) ==> Valid() && endNorm == Scale.Max(v, startNorm + minClosureNorm)
    {
      endSlider := v;
      if startSlider <= endSlider - minClosureNorm {
        endAbs := LogConvert(endSlider);
      } else {
        endSlider := AbsConvert(startAbs) + minClosureNorm;
        endAbs := LogConvert(endSlider);
      }
      endNorm := endSlider;
      if old(Valid()) {
        ConvertRoundTrip(startSlider);
      }
    }
  }
}
