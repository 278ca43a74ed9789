/** Two-decimal rounding and the error/result types shared by the model. */
module Rounding {

  /** Errors the calculator can raise. */
  datatype WbError =
    | UnknownCallsign(callsign: string)  // the constructor's ValueError
    | DivisionByZero                     // a total weight of zero in CoG

  datatype Option<T> = None | Some(value: T)

  datatype Result<T> = Ok(value: T) | Err(error: WbError)

  /** A value that is a whole number of hundredths. */
  ghost predicate IsHundredths(x: real) {
    (x * 100.0).Floor as real == x * 100.0
  }

  /**
   * `round(x, 2)`: the nearest multiple of 0.01, a half going upward.
   * The result never moves more than half a hundredth from x.
   */
  function Round2(x: real): (r: real)
    ensures x - 0.005 < r <= x + 0.005
    ensures IsHundredths(r)
  {
    var k := (x * 100.0 + 0.5).Floor;
    assert (k as real / 100.0) * 100.0 == k as real;
    k as real / 100.0
  }

  /** Rounding never reverses the order of two values. */
  lemma Round2Monotone(x: real, y: real)
    requires x <= y
    ensures Round2(x) <= Round2(y)
  {
    var a, b := (x * 100.0 + 0.5).Floor, (y * 100.0 + 0.5).Floor;
    assert a as real <= x * 100.0 + 0.5 <= y * 100.0 + 0.5 < b as real + 1.0;
    assert a <= b;
  }

  /** A value that already has two decimals is left as it is. */
  lemma Round2Exact(x: real)
    requires IsHundredths(x)
    ensures Round2(x) == x
  {
    var n := (x * 100.0).Floor;
    assert x * 100.0 + 0.5 == n as real + 0.5;
    assert (x * 100.0 + 0.5).Floor == n;
  }

  /** Round2(x) is n hundredths for the one integer n within half a unit of 100x, a half going up. */
  lemma Round2Is(x: real, n: int)
    requires n as real - 0.5 <= x * 100.0 < n as real + 0.5
    ensures Round2(x) == n as real / 100.0
  {
    assert (x * 100.0 + 0.5).Floor == n;
  }

  /** Rounding twice is rounding once. */
  lemma Round2Idempotent(x: real)
    ensures Round2(Round2(x)) == Round2(x)
  {
    Round2Exact(Round2(x));
  }
}
