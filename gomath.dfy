/**
 * `divide` and `modulo` of the Go runtime (src/go_runtime/math.go). Each
 * returns a value and may print one line; Go's `/` and `%` truncate toward zero.
 */
module GoMath {
  import opened Arith

  /** A result and the lines printed on the way. */
  datatype Printed = Printed(value: int, out: seq<string>)

  const DIVISION_BY_ZERO: string := "Runtime Error: Division by zero\n"
  const MODULO_BY_ZERO: string := "Runtime Error: Modulo by zero\n"

  /** `divide`: 0 and a message for a zero divisor, else the quotient rounded toward zero. */
  function Divide(a: int, b: int): (r: Printed)
    ensures b == 0 ==> r == Printed(0, [DIVISION_BY_ZERO])
    ensures b != 0 ==> r.out == [] && Abs(r.value) == Abs(a) / Abs(b)
    ensures b != 0 ==> r.value == 0 || ((r.value < 0) <==> ((a < 0) != (b < 0)))
  {
    if b == 0 then Printed(0, [DIVISION_BY_ZERO]) else Printed(TruncDiv(a, b), [])
  }

  /** `modulo`: 0 and a message for a zero divisor, else the remainder of the truncated division. */
  function Modulo(a: int, b: int): (r: Printed)
    ensures b == 0 ==> r == Printed(0, [MODULO_BY_ZERO])
    ensures b != 0 ==> r.out == [] && Abs(r.value) < Abs(b)
    ensures b != 0 ==> r.value == 0 || ((r.value < 0) <==> (a < 0))
  {
    if b == 0 then Printed(0, [MODULO_BY_ZERO])
    else
      ModBound(a, b);
      Printed(TruncMod(a, b), [])
  }

  /** For a non-zero divisor, quotient and remainder put the dividend back together. */
  lemma QuotientRemainder(a: int, b: int)
    requires b != 0
    ensures Divide(a, b).value * b + Modulo(a, b).value == a
  {
    DivModIdentity(a, b);
  }

  /** Both round toward zero, where Dafny's own operators round down: -7 / 2 is -3, remainder -1. */
  lemma TruncationExample()
    ensures Divide(-7, 2).value == -3 && Modulo(-7, 2).value == -1
    ensures -7 / 2 == -4 && -7 % 2 == 1
  {
  }
}
