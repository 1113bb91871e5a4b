/** Failure-compatible wrappers shared by the whole model, and the error kinds
    the engine aborts with. */
module Outcomes {

  /** The kinds of structural failure the engine detects. */
  datatype Error =
    | ShapeMismatch  // element counts or contracted extents differ
    | DatasetTooSmall  // fewer samples than one mini-batch

  datatype Option<T> = None | Some(value: T)

  datatype Result<T> = Ok(value: T) | Err(error: Error) {
    predicate IsFailure() { Err? }

    function PropagateFailure<U>(): Result<U>
      requires Err?
    {
      Err(error)
    }

    function Extract(): T
      requires Ok?
    {
      value
    }
  }
}

/** Small facts of integer arithmetic the solver does not find on its own. */
module Arith {
  lemma MulPositive(a: int, b: int)
    requires a > 0 && b > 0
    ensures a * b > 0
  {
  }

  /** Cancelling a positive factor: the reason a reshape that differs only by a
      `channels` factor is accepted exactly when `channels == 1`. */
  lemma MulCancel(a: int, b: int, x: int)
    requires x > 0
    ensures a * x == b * x <==> a == b
  {
  }

  /** Euclidean division is determined by any quotient/remainder pair. */
  lemma DivModUnique(n: int, m: int, q: int, r: int)
    requires m > 0 && 0 <= r < m && n == q * m + r
    ensures n / m == q && n % m == r
  {
    assert (q - n / m) * m == n % m - r;
    SmallMultipleIsZero(q - n / m, m);
  }

  lemma SmallMultipleIsZero(k: int, m: int)
    requires m > 0 && -m < k * m < m
    ensures k == 0
  {
    if k >= 1 {
      MulAtLeast(k, m);
    } else if k <= -1 {
      MulAtLeast(-k, m);
    }
  }

  lemma MulAtLeast(k: int, m: int)
    requires k >= 1 && m > 0
    ensures k * m >= m
  {
  }

  /** Adding a multiple of the modulus does not change a remainder. */
  lemma ModAddMultiple(x: int, y: int, m: int)
    requires m > 0
    ensures (x * m + y) % m == y % m
  {
    DivModUnique(x * m + y, m, x + y / m, y % m);
  }

  /** Remainders of a product depend only on the factors' remainders. */
  lemma ModMul(a: int, b: int, m: int)
    requires m > 0
    ensures (a % m) * (b % m) % m == a * b % m
  {
    var qa, ra, qb, rb := a / m, a % m, b / m, b % m;
    var x := ExpandProduct(a, b, qa, ra, qb, rb, m);
    ModAddMultiple(x, ra * rb, m);
  }

  lemma ExpandProduct(a: int, b: int, qa: int, ra: int, qb: int, rb: int, m: int) returns (x: int)
    requires a == qa * m + ra && b == qb * m + rb
    ensures a * b == x * m + ra * rb
  {
    x := qa * qb * m + qa * rb + ra * qb;
  }
}
