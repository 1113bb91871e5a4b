/** src/eigenFuns.h: the older functor set for two-dimensional float tensors —
    a stateless comparing reducer seeded with a given value, `min`/`max`
    built on it, the `{1, 0}` transpose, and a 0-to-1 normaliser. */
module SrcEigenFuns {
  import opened Outcomes
  import opened Shapes
  import opened Matrices
  import EigenFuns

  /** `scalar_comapre_op(condition, v0)`: nothing in it changes after
      construction. */
  datatype CompareOp = CompareOp(condition: (real, real) -> real, v0: real)
  {
    /** `reduce(t, accum)`: overwrites `*accum` with `condition(t, *accum)`. */
    method Reduce(t: real, accum: array<real>)
      requires accum.Length == 1
      modifies accum
      ensures accum[0] == condition(t, old(accum[0]))
    {
      accum[0] := condition(t, accum[0]);
    }

    /** `initialize()`: the seed value. */
    function Initialize(): real { v0 }

    /** `finalize(accum)`. */
    function Finalize(accum: real): real { accum }
  }

  function Smaller(x: real, y: real): real { if x < y then x else y }
  function Larger(x: real, y: real): real { if x > y then x else y }

  /** `min(t)`: the reduction over both axes with the `x < y ? x : y`
      comparer seeded with `t(0, 0)`, which the source reads without a
      check, so the tensor must not be empty. The result is an element no
      larger than any other. */
  method Min(t: Matrix) returns (m: real)
    requires t.Valid() && t.rows > 0 && t.cols > 0
    ensures m in t.data && forall x | x in t.data :: m <= x
  {
    assert t.At(0, 0) == t.data[0];
    var comparer := CompareOp(Smaller, t.At(0, 0));
    var accum := new real[1];
    accum[0] := comparer.Initialize();
    for n := 0 to |t.data|
      invariant accum[0] in t.data && accum[0] <= t.data[0]
      invariant forall x | x in t.data[..n] :: accum[0] <= x
    {
      assert t.data[..n + 1] == t.data[..n] + [t.data[n]];
      comparer.Reduce(t.data[n], accum);
    }
    assert t.data[..|t.data|] == t.data;
    m := comparer.Finalize(accum[0]);
  }

  /** `max(t)`, with the `x > y ? x : y` comparer: an element no smaller than
      any other. */
  method Max(t: Matrix) returns (m: real)
    requires t.Valid() && t.rows > 0 && t.cols > 0
    ensures m in t.data && forall x | x in t.data :: x <= m
  {
    assert t.At(0, 0) == t.data[0];
    var comparer := CompareOp(Larger, t.At(0, 0));
    var accum := new real[1];
    accum[0] := comparer.Initialize();
    for n := 0 to |t.data|
      invariant accum[0] in t.data && t.data[0] <= accum[0]
      invariant forall x | x in t.data[..n] :: x <= accum[0]
    {
      assert t.data[..n + 1] == t.data[..n] + [t.data[n]];
      comparer.Reduce(t.data[n], accum);
    }
    assert t.data[..|t.data|] == t.data;
    m := comparer.Finalize(accum[0]);
  }

  /** `shuffle_transpose`. */
  const ShuffleTranspose: seq<int> := [1, 0]

  /** `transposed(t)`: the shuffle by `{1, 0}`. Output position `(r, c)`
      holds input position `(c, r)`. */
  function Transposed(a: Matrix): (m: Matrix)
    ensures m.Valid() && [m.rows, m.cols] == Shuffle([a.rows, a.cols], ShuffleTranspose)
    ensures forall r, c | 0 <= r < m.rows && 0 <= c < m.cols :: m.At(r, c) == a.At(c, r)
  {
    Transpose(a)
  }

  /** `{1, 0}` is a permutation of two axes, and transposing twice gives the
      original matrix back. */
  lemma TransposedTwice(a: Matrix)
    requires a.Valid()
    ensures IsPermutation(ShuffleTranspose, 2)
    ensures Transposed(Transposed(a)) == a
  {
    var t := Transposed(Transposed(a));
    Extensionality(t, a);
  }

  /** `max_normalize_op(t)`: the extremes of the tensor it was built from. */
  datatype MaxNormalizeOp = MaxNormalizeOp(hi: real, lo: real)

  method MakeMaxNormalize(t: Matrix) returns (op: MaxNormalizeOp)
    requires t.Valid() && t.rows > 0 && t.cols > 0
    ensures op.lo in t.data && op.hi in t.data
    ensures forall x | x in t.data :: op.lo <= x <= op.hi
  {
    var hi := Max(t);
    var lo := Min(t);
    op := MaxNormalizeOp(hi, lo);
  }

  /** `operator()(a)`: `(a - min) / (max - min)`; `None` stands for the
      floating-point non-number produced when `max == min`. */
  function Apply(op: MaxNormalizeOp, a: real): Option<real> {
    if op.hi == op.lo then None else Some((a - op.lo) / (op.hi - op.lo))
  }

  /** When the extremes differ the minimum maps to 0, the maximum to 1, and
      everything between them into `[0, 1]`; when they coincide there is no
      number. */
  lemma ApplyRange(op: MaxNormalizeOp, a: real)
    requires op.lo <= op.hi
    ensures op.hi == op.lo ==> Apply(op, a).None?
    ensures op.lo < op.hi ==> Apply(op, op.lo) == Some(0.0) && Apply(op, op.hi) == Some(1.0)
    ensures op.lo < op.hi && op.lo <= a <= op.hi ==> 0.0 <= Apply(op, a).value <= 1.0
  {
    if op.lo < op.hi {
      var d := op.hi - op.lo;
      var lo := op.lo;
      assert Apply(op, lo).value == (lo - op.lo) / d;
      EigenFuns.ZeroOver(d);
      assert Apply(op, op.hi).value == d / d == 1.0;
      if op.lo <= a <= op.hi {
        EigenFuns.UnitFraction(a - op.lo, d);
      }
    }
  }
}
