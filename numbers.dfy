/** The JavaScript number operation the core relies on, over the reals. */
module Numbers {

  /**
   * `v | 0`: conversion to an integer by truncation toward zero.
   * ToInt32's wrap-around beyond 2^31 is not modelled.
   */
  function IntPart(v: real): (r: int)
    ensures 0.0 <= v ==> r as real <= v < r as real + 1.0
    ensures v < 0.0 ==> r as real - 1.0 < v <= r as real
  {
    if v >= 0.0 then v.Floor else -((-v).Floor)
  }

  /** Truncation leaves a whole number unchanged. */
  lemma IntPartOfInteger(n: int)
    ensures IntPart(n as real) == n
  {
  }

  /** For v > -1 the result is nonnegative. */
  lemma IntPartAboveMinusOne(v: real)
    requires -1.0 < v
    ensures 0 <= IntPart(v)
  {
  }
}
