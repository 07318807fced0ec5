/** Facts about products of reals. Products are wrapped in functions so
    that the solver's rewriting of squares compared with zero does not
    discard them. */
module Reals {

  /** a * a, kept behind a function so that facts about squares survive
      the solver's own rewriting of products. */
  function Sq(a: real): real { a * a }

  function Mul(a: real, b: real): real { a * b }

  lemma MulPositive(a: real, b: real)
    requires a > 0.0 && b > 0.0
    ensures Mul(a, b) > 0.0
  {
  }

  lemma SquarePositive(a: real)
    requires a != 0.0
    ensures Sq(a) > 0.0
  {
    if a > 0.0 {
      MulPositive(a, a);
    } else {
      MulPositive(-a, -a);
      assert Mul(-a, -a) == Sq(a);
    }
  }

  lemma SquareNonNeg(a: real)
    ensures Sq(a) >= 0.0
  {
    if a != 0.0 {
      SquarePositive(a);
    }
  }

  /** Two non-negative reals with the same square are equal. */
  lemma SquareInjective(a: real, b: real)
    requires 0.0 <= a && 0.0 <= b && a * a == b * b
    ensures a == b
  {
    if a < b {
      SquareStrictlyMonotone(a, b);
    } else if b < a {
      SquareStrictlyMonotone(b, a);
    }
  }

  lemma SquareStrictlyMonotone(a: real, b: real)
    requires 0.0 <= a < b
    ensures a * a < b * b
  {
    var aa, ab, bb := a * a, a * b, b * b;
    assert aa <= ab;
    assert ab < bb;
  }
}
