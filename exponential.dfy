/** The real exponential, as far as the segment's algebra needs it. Math.exp is
    not defined here: the model is parameterised by a function `exp` that obeys
    the laws below, which the real exponential does. */
module Exponential {

  /** exp(0) = 1, exp is positive, exp(x + y) = exp(x) * exp(y), and for x >= 0
      exp(x) is at least its Taylor polynomial 1 + x + x^2/2. The laws are
      instantiated only at the points the lemmas below name. */
  ghost predicate IsExp(exp: real -> real) {
    && exp(0.0) == 1.0
    && (forall x {:trigger PositiveAt(exp, x)} :: PositiveAt(exp, x))
    && (forall x, y {:trigger AdditiveAt(exp, x, y)} :: AdditiveAt(exp, x, y))
    && (forall x {:trigger TaylorAt(exp, x)} :: TaylorAt(exp, x))
  }

  ghost predicate TaylorAt(exp: real -> real, x: real) {
    x >= 0.0 ==> exp(x) >= 1.0 + x + x * x / 2.0
  }

  ghost predicate PositiveAt(exp: real -> real, x: real) {
    exp(x) > 0.0
  }

  ghost predicate AdditiveAt(exp: real -> real, x: real, y: real) {
    exp(x + y) == exp(x) * exp(y)
  }

  lemma ExpAdd(exp: real -> real, x: real, y: real)
    requires IsExp(exp)
    ensures exp(x + y) == exp(x) * exp(y)
  {
    assert AdditiveAt(exp, x, y);
  }

  /** The addition law at a point z written as x + y. */
  lemma ExpSplit(exp: real -> real, x: real, y: real, z: real)
    requires IsExp(exp) && z == x + y
    ensures exp(z) == exp(x) * exp(y)
  {
    ExpAdd(exp, x, y);
  }

  lemma ExpPositive(exp: real -> real, x: real)
    requires IsExp(exp)
    ensures exp(x) > 0.0
  {
    assert PositiveAt(exp, x);
  }

  lemma ExpTaylor(exp: real -> real, x: real)
    requires IsExp(exp) && x >= 0.0
    ensures exp(x) >= 1.0 + x + x * x / 2.0
  {
    assert TaylorAt(exp, x);
  }

  /** exp(-x) is the reciprocal of exp(x). */
  lemma ExpNeg(exp: real -> real, x: real)
    requires IsExp(exp)
    ensures exp(x) * exp(-x) == 1.0
    ensures exp(x) > 0.0 && exp(-x) > 0.0
  {
    ExpAdd(exp, x, -x);
    assert x + -x == 0.0;
    ExpPositive(exp, x);
    ExpPositive(exp, -x);
  }

}
