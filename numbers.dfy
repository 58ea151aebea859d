/** Integer exponentiation: the `**` operator on integral numbers. */
module Numbers {

  /** `base ** exponent` for a non-negative integral exponent (`0 ** 0` is 1, as in JavaScript). */
  function Power(base: int, exponent: nat): (r: int)
    ensures exponent == 0 ==> r == 1
    ensures base > 0 ==> r > 0
    decreases exponent
  {
    if exponent == 0 then 1 else base * Power(base, exponent - 1)
  }

}
