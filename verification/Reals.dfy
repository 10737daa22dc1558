/** Products of reals, one fact at a time. */
module Reals {
  lemma PositiveProduct(a: real, b: real, c: real)
    requires a > 0.0 && b > 0.0 && c == a * b
    ensures c > 0.0
  {
  }

  lemma PositiveFactor(a: real, b: real, c: real)
    requires b > 0.0 && a * b == c && c > 0.0
    ensures a > 0.0
  {
  }

  lemma Fraction(x: real, y: real)
    requires 0.0 < x < y
    ensures 0.0 < x / y < 1.0 && x / y * y == x
  {
    var part := x / y;
    assert part * y == x;
    PositiveFactor(part, y, x);
    assert (1.0 - part) * y == y - x;
    PositiveFactor(1.0 - part, y, y - x);
  }

  lemma Scaled(part: real, x: real) returns (y: real)
    requires 0.0 < part < 1.0 && x >= 0.0
    ensures y == part * x && 0.0 <= y <= x && (x > 0.0 ==> y < x)
  {
    y := part * x;
    if x > 0.0 {
      PositiveProduct(part, x, y);
      PositiveProduct(1.0 - part, x, x - y);
    }
  }

  lemma SquareSign(e: real, square: real)
    requires square == e * e
    ensures square >= 0.0
    ensures e == 0.0 ==> square == 0.0
    ensures e != 0.0 ==> square > 0.0
  {
    if e > 0.0 {
      PositiveProduct(e, e, square);
    } else if e < 0.0 {
      assert square == (-e) * (-e);
      PositiveProduct(-e, -e, square);
    }
  }

  lemma NotNegativeProduct(a: real, b: real)
    requires a >= 0.0 && b >= 0.0
    ensures a * b >= 0.0
  {
  }
}
