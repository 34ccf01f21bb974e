/**
 * The few JavaScript semantics the script relies on, written out over exact
 * integers and reals: truthiness of an optional number (`x || d`, `x ? a : b`),
 * the truncating remainder operator `%`, and `Math.round`.
 */
module Js {
  import opened Wrappers

  /** A number option is truthy when it is present and not zero (NaN is not modelled). */
  predicate Truthy(o: Option<real>) {
    o.Some? && o.value != 0.0
  }

  /**
   * `o || fallback` for an optional number. It agrees with the present-or-default
   * reading `GetOr` except on a present 0, which JavaScript treats as absent.
   */
  function Or(o: Option<real>, fallback: real): (r: real)
    ensures o != Some(0.0) ==> r == o.GetOr(fallback)
    ensures o == Some(0.0) ==> r == fallback
  {
    if Truthy(o) then o.value else fallback
  }

  /**
   * JavaScript's `a % d` for a positive divisor: the remainder takes the sign
   * of the dividend (truncating division), unlike Dafny's Euclidean `%`.
   */
  function Rem(a: int, d: int): (r: int)
    requires d > 0
    ensures a >= 0 ==> r == a % d
    ensures a < 0 ==> -d < r <= 0
    ensures a < 0 ==> (r == 0 <==> a % d == 0)
    ensures a < 0 && r != 0 ==> r == a % d - d
  {
    if a >= 0 then a % d else NegativeRem(a, d); -((-a) % d)
  }

  /** Euclidean division is unique: any quotient/remainder pair is Dafny's. */
  lemma EuclidUnique(a: int, d: int, k: int, m: int)
    requires d > 0 && 0 <= m < d && a == d * k + m
    ensures a % d == m
  {
    var q, s := a / d, a % d;
    assert d * (q - k) == m - s;
    if q - k >= 1 {
      assert false;
    } else if q - k <= -1 {
      assert false;
    }
  }

  /** The truncating remainder of a negative number, against the Euclidean one. */
  lemma NegativeRem(a: int, d: int)
    requires d > 0 && a < 0
    ensures -((-a) % d) == 0 <==> a % d == 0
    ensures -((-a) % d) != 0 ==> -((-a) % d) == a % d - d
  {
    var b := -a;
    var q, s := b / d, b % d;
    if s == 0 {
      EuclidUnique(a, d, -q, 0);
    } else {
      EuclidUnique(a, d, -q - 1, d - s);
    }
  }

  /** `Math.round(x)`: the nearest integer, halves rounded towards plus infinity. */
  function Round(x: real): (r: int)
    ensures x - 0.5 < r as real <= x + 0.5
  {
    (x + 0.5).Floor
  }

  /** `Math.round` determines its result uniquely. */
  lemma RoundIsUnique(x: real, n: int)
    requires x - 0.5 < n as real <= x + 0.5
    ensures Round(x) == n
  {
  }
}
