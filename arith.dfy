/**
 * Integer division as C and Go define it: the quotient is truncated toward
 * zero and the remainder takes the sign of the dividend. Dafny's own `/` and `%`
 * are Euclidean, so they are only used here on non-negative operands.
 */
module Arith {

  function Abs(a: int): nat { if a < 0 then -a else a }

  /** Euclidean division facts for a non-negative dividend and positive divisor. */
  lemma NatDivMod(x: int, y: int)
    requires x >= 0 && y > 0
    ensures x / y >= 0 && 0 <= x % y < y && (x / y) * y + x % y == x
  {
  }

  /** `a / b` in C and Go, for b != 0. */
  function TruncDiv(a: int, b: int): (q: int)
    requires b != 0
    ensures Abs(q) == Abs(a) / Abs(b)
    ensures q == 0 || ((q < 0) <==> ((a < 0) != (b < 0)))
  {
    var x: int, y: int := Abs(a), Abs(b);
    NatDivMod(x, y);
    var m: int := x / y;
    if (a < 0) == (b < 0) then m else -m
  }

  /** `a % b` in C and Go, for b != 0. */
  function TruncMod(a: int, b: int): (r: int)
    requires b != 0
    ensures Abs(r) == Abs(a) % Abs(b)
    ensures r == 0 || ((r < 0) <==> (a < 0))
  {
    var x: int, y: int := Abs(a), Abs(b);
    NatDivMod(x, y);
    var m: int := x % y;
    if a < 0 then -m else m
  }

  /** Quotient and remainder put the dividend back together. */
  lemma DivModIdentity(a: int, b: int)
    requires b != 0
    ensures TruncDiv(a, b) * b + TruncMod(a, b) == a
  {
    var x: int, y: int := Abs(a), Abs(b);
    NatDivMod(x, y);
    var m, n := x / y, x % y;
    if a < 0 && b < 0 {
      assert TruncDiv(a, b) == m && TruncMod(a, b) == -n && b == -y && a == -x;
      assert TruncDiv(a, b) * b == -(m * y);
    } else if a < 0 {
      assert TruncDiv(a, b) == -m && TruncMod(a, b) == -n && b == y && a == -x;
      assert TruncDiv(a, b) * b == -(m * y);
    } else if b < 0 {
      assert TruncDiv(a, b) == -m && TruncMod(a, b) == n && b == -y && a == x;
      assert TruncDiv(a, b) * b == m * y;
    } else {
      assert TruncDiv(a, b) == m && TruncMod(a, b) == n && b == y && a == x;
    }
  }

  /** The remainder is smaller in magnitude than the divisor. */
  lemma ModBound(a: int, b: int)
    requires b != 0
    ensures Abs(TruncMod(a, b)) < Abs(b)
  {
    NatDivMod(Abs(a), Abs(b));
  }
}
