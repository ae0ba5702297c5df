/** Sign and cancellation facts about products and quotients of reals. */
module Reals {

  lemma ProductSign(x: real, y: real)
    ensures x >= 0.0 && y >= 0.0 ==> x * y >= 0.0
    ensures x > 0.0 && y > 0.0 ==> x * y > 0.0
    ensures x > 0.0 && y < 0.0 ==> x * y < 0.0
    ensures x < 0.0 && y < 0.0 ==> x * y > 0.0
    ensures x == 0.0 || y == 0.0 ==> x * y == 0.0
  {
  }

  lemma SquareSign(x: real)
    ensures x * x >= 0.0
    ensures x * x == 0.0 <==> x == 0.0
  {
    if x != 0.0 {
      assert x * x / x == x;
    }
  }

  lemma Quotient(x: real, y: real)
    requires y > 0.0
    ensures y * (x / y) == x
    ensures x >= 0.0 <==> x / y >= 0.0
    ensures x <= y <==> x / y <= 1.0
  {
  }
}
