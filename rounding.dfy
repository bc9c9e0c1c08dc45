/**
 * The numeric conventions shared by the page and the upload route: JavaScript's
 * `Math.round`, the `Math.round(x * 100) / 100` idiom that both use to publish
 * two decimals, and the one non-finite value the model needs, the NaN that
 * `0 / 0` yields. Arithmetic is over Dafny's exact `real`; IEEE-754 rounding
 * error is not modelled.
 */
module Rounding {

  /** A JavaScript number as far as the model needs one: a real, or NaN. */
  datatype Number = Finite(value: real) | NaN

  /**
   * `Math.round(y)`: the integer nearest to `y`, a half rounded up (towards
   * positive infinity, so `Math.round(-2.5) == -2`).
   */
  function JsRound(y: real): (r: int)
    ensures r as real - 0.5 <= y < r as real + 0.5
  {
    (y + 0.5).Floor
  }

  /** `Math.round(x * 100) / 100`: `x` published with two decimals. */
  function Round2(x: real): (r: real)
    ensures x - 0.005 < r <= x + 0.005
    ensures (r * 100.0).Floor as real == r * 100.0
  {
    JsRound(x * 100.0) as real / 100.0
  }

  /** `Math.round(n * 100) / 100` on a number that may be NaN; NaN stays NaN. */
  function Round2Number(n: Number): (r: Number)
    ensures r.NaN? <==> n.NaN?
    ensures n.Finite? ==> r.value == Round2(n.value)
  {
    match n
    case Finite(x) => Finite(Round2(x))
    case NaN => NaN
  }

  /** `Math.round` is the only integer within a half of its argument (ties up). */
  lemma JsRoundUnique(y: real, n: int)
    requires n as real - 0.5 <= y < n as real + 0.5
    ensures JsRound(y) == n
  {
  }

  /** Rounding to two decimals is monotone. */
  lemma Round2Monotone(x: real, y: real)
    requires x <= y
    ensures Round2(x) <= Round2(y)
  {
    var a, b := JsRound(x * 100.0), JsRound(y * 100.0);
    assert x * 100.0 <= y * 100.0;
    assert a <= b;
  }

  /** A value that already has two decimals is published unchanged. */
  lemma Round2Idempotent(x: real)
    ensures Round2(Round2(x)) == Round2(x)
  {
    var r := Round2(x);
    var n := (r * 100.0).Floor;
    assert n as real == r * 100.0;
    JsRoundUnique(r * 100.0, n);
    assert Round2(r) == n as real / 100.0;
  }

  /** Rounding never changes a value's sign from non-negative to negative. */
  lemma Round2NonNegative(x: real)
    requires x >= 0.0
    ensures Round2(x) >= 0.0
  {
    Round2Monotone(0.0, x);
    assert JsRound(0.0) == 0;
  }

  /** A worked case: a raw mean of 12.3456 is published as 12.35. */
  lemma Round2Example()
    ensures Round2(12.3456) == 12.35
  {
    JsRoundUnique(1234.56, 1235);
  }
}
