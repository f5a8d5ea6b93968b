/** Integer arithmetic as C++ performs it on `int` operands. */
module CArith {

  /** The largest value of a 32-bit signed `int` (`GLint`). */
  const IntMax: int := 0x7fff_ffff

  /** C++ integer division: the quotient is truncated toward zero. */
  function Div(a: int, b: int): (q: int)
    requires b != 0
    ensures a >= 0 && b > 0 ==> q == a / b
    ensures a >= 0 && b > 0 ==> 0 <= q * b <= a < q * b + b
    ensures a < 0 && b > 0 ==> q == -((-a) / b)
  {
    if (a >= 0) == (b > 0) then
      (if a >= 0 then a else -a) / (if b > 0 then b else -b)
    else
      -((if a >= 0 then a else -a) / (if b > 0 then b else -b))
  }
}
