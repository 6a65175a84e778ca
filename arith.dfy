/**
 * The C int conversion, and facts about integer multiplication and
 * division that the solver does not find on its own.
 */
module Arithmetic {

  /** unsigned int is 32 bits wide; int holds [-2^31, 2^31). */
  const UIntModulus: int := 0x1_0000_0000
  const IntLimit: int := 0x8000_0000

  /**
   * A C int receiving a wider integer: its low 32 bits read as two's
   * complement. A value already in the int range is kept.
   */
  function ToInt(u: int): (r: int)
    ensures -IntLimit <= r < IntLimit
    ensures -IntLimit <= u < IntLimit ==> r == u
    ensures (r - u) % UIntModulus == 0
  {
    var w := u % UIntModulus;
    if w < IntLimit then w else w - UIntModulus
  }

  lemma DivBelow(a: nat, b: nat)
    requires b > 0
    ensures 0 <= a / b <= a
    ensures (a / b) * b <= a < (a / b) * b + b
  {
    var q, m := a / b, a % b;
    assert a == q * b + m && 0 <= m < b;
    assert (q + 1) * b == q * b + b;
    PositiveFactor(q + 1, b);
    assert q * b == q * (b - 1) + q;
    NonNegativeProduct(q, b - 1);
  }

  lemma NonNegativeProduct(a: nat, b: nat)
    ensures a * b >= 0
  {
  }

  lemma PositiveFactor(a: int, b: int)
    requires b > 0 && a * b > 0
    ensures a > 0
  {
  }

  lemma NonNegativeFactor(a: int, b: int)
    requires b > 0 && a * b >= 0
    ensures a >= 0
  {
  }

  /** The quotient of a by w is q whenever a lies in [w*q, w*q + w). */
  lemma DivUnique(a: int, w: int, q: int)
    requires w > 0 && w * q <= a < w * q + w
    ensures a / w == q
  {
    var d := a / w;
    assert a == w * d + a % w;
    assert w * (d - q) == w * d - w * q;
    assert w * (q - d) == w * q - w * d;
    PositiveFactor(d - q + 1, w);
    PositiveFactor(q - d + 1, w);
  }
}
