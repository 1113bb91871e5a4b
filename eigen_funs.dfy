/** The Eigen helper functors of include/eigenFuns.h: the matrix/vector
    broadcast sum, the first-element min/max reducer, the transpose
    permutation, min/max normalisation and gathering along one dimension. */
module EigenFuns {
  import opened Outcomes
  import opened Shapes
  import opened Matrices

  // ---------------------------------------------------------------------------
  // VecsumOp: add a vector to every row or to every column of a matrix
  // ---------------------------------------------------------------------------

  datatype VecsumOp = VecsumOp(mat: Matrix, vec: seq<real>, rows: nat, cols: nat, rowwise: bool)
  {
    /** What the constructor asserts: the vector runs along the columns when
        `rowwise`, and along the rows otherwise. */
    predicate Valid() {
      && mat.Valid() && rows == mat.rows && cols == mat.cols
      && (if rowwise then |vec| == cols else |vec| == rows)
    }
  }

  /** `VecsumOp(mat, vec, rowwise)`. */
  function MakeVecsum(mat: Matrix, vec: seq<real>, rowwise: bool): (op: VecsumOp)
    requires mat.Valid()
    requires if rowwise then |vec| == mat.cols else |vec| == mat.rows
    ensures op.Valid() && op.mat == mat && op.vec == vec && op.rowwise == rowwise
  {
    VecsumOp(mat, vec, mat.rows, mat.cols, rowwise)
  }

  /** `operator()(idx)`: the linear index is split column-major into a row
      and a column. */
  function VecsumAt(op: VecsumOp, idx: int): real
    requires op.Valid() && 0 <= idx < op.rows * op.cols
  {
    Matrices.ColumnMajorPosition(op.rows, op.cols, idx);
    var row, col := idx % op.rows, idx / op.rows;
    op.mat.At(row, col) + (if op.rowwise then op.vec[col] else op.vec[row])
  }

  /** At the linear index of grid position `(row, col)` the functor yields
      `mat(row, col) + vec(col)` when `rowwise`, and `mat(row, col) + vec(row)`
      otherwise. */
  lemma VecsumAtPosition(op: VecsumOp, row: int, col: int)
    requires op.Valid() && 0 <= row < op.rows && 0 <= col < op.cols
    ensures 0 <= row + col * op.rows < op.rows * op.cols
    ensures VecsumAt(op, row + col * op.rows)
            == op.mat.At(row, col) + (if op.rowwise then op.vec[col] else op.vec[row])
  {
    ColumnMajorOffset(op.rows, op.cols, row, col);
  }

  /** `vecSum(mat, vec, rowwise)`: `mat.nullaryExpr(VecsumOp(...))`, the
      functor evaluated at every linear index. */
  function VecSum(mat: Matrix, vec: seq<real>, rowwise: bool): (m: Matrix)
    requires mat.Valid()
    requires if rowwise then |vec| == mat.cols else |vec| == mat.rows
    ensures m.Valid() && m.SameShape(mat)
    ensures forall r, c | 0 <= r < mat.rows && 0 <= c < mat.cols ::
      m.At(r, c) == mat.At(r, c) + (if rowwise then vec[c] else vec[r])
  {
    var op := MakeVecsum(mat, vec, rowwise);
    var m := Matrix(mat.rows, mat.cols, seq(mat.rows * mat.cols, idx requires 0 <= idx < mat.rows * mat.cols => VecsumAt(op, idx)));
    assert forall r, c | 0 <= r < mat.rows && 0 <= c < mat.cols ::
      m.At(r, c) == mat.At(r, c) + (if rowwise then vec[c] else vec[r]) by {
      forall r, c | 0 <= r < mat.rows && 0 <= c < mat.cols
        ensures m.At(r, c) == mat.At(r, c) + (if rowwise then vec[c] else vec[r])
      {
        VecsumAtPosition(op, r, c);
      }
    }
    m
  }

  /** The `colwise() + bias` broadcast of the sequential networks is
      `vecSum(mat, bias, false)` on the bias column: both add `bias(r)` to
      every entry of row `r`. */
  lemma ColwiseAddIsVecSum(a: Matrix, v: Matrix)
    requires a.Valid()
    ensures AddColumn(a, v) == VecSum(a, seq(a.rows, r => v.At(r, 0)), false)
  {
    Extensionality(AddColumn(a, v), VecSum(a, seq(a.rows, r => v.At(r, 0)), false));
  }

  // ---------------------------------------------------------------------------
  // scalar_comparer_op and min / max
  // ---------------------------------------------------------------------------

  /** A reducer that keeps the first value it sees and then combines each
      further value with the accumulator through `condition`. */
  class ComparerOp {
    const condition: (real, real) -> real
    var isFirst: bool

    constructor (condition: (real, real) -> real)
      ensures this.condition == condition && isFirst
    {
      this.condition := condition;
      isFirst := true;
    }

    /** `reduce(t, accum)`: the new accumulator. */
    method Reduce(t: real, accum: real) returns (next: real)
      modifies this
      ensures !isFirst
      ensures old(isFirst) ==> next == t
      ensures !old(isFirst) ==> next == condition(t, accum)
    {
      if isFirst {
        next := t;
        isFirst := false;
      } else {
        next := condition(t, accum);
      }
    }

    /** `initialize()`. */
    function Initialize(): real { 0.0 }

    /** `finalize(accum)`. */
    function Finalize(accum: real): real { accum }
  }

  function Smaller(x: real, y: real): real { if x < y then x else y }
  function Larger(x: real, y: real): real { if x > y then x else y }

  /** `min(t)`: the full reduction of `t` (its elements in any order) with the
      `x < y ? x : y` comparer. An element of `t` no larger than any other;
      0, the reducer's initial value, for an empty tensor. */
  method Min(t: seq<real>) returns (m: real)
    ensures |t| == 0 ==> m == 0.0
    ensures |t| > 0 ==> m in t && forall x | x in t :: m <= x
  {
    var comparer := new ComparerOp(Smaller);
    var accum := comparer.Initialize();
    for n := 0 to |t|
      invariant comparer.condition == Smaller
      invariant comparer.isFirst <==> n == 0
      invariant n == 0 ==> accum == 0.0
      invariant n > 0 ==> accum in t[..n] && forall x | x in t[..n] :: accum <= x
    {
      assert t[..n + 1] == t[..n] + [t[n]];
      accum := comparer.Reduce(t[n], accum);
    }
    assert t[..|t|] == t;
    m := comparer.Finalize(accum);
  }

  /** `max(t)`, with the `x > y ? x : y` comparer. */
  method Max(t: seq<real>) returns (m: real)
    ensures |t| == 0 ==> m == 0.0
    ensures |t| > 0 ==> m in t && forall x | x in t :: x <= m
  {
    var comparer := new ComparerOp(Larger);
    var accum := comparer.Initialize();
    for n := 0 to |t|
      invariant comparer.condition == Larger
      invariant comparer.isFirst <==> n == 0
      invariant n == 0 ==> accum == 0.0
      invariant n > 0 ==> accum in t[..n] && forall x | x in t[..n] :: x <= accum
    {
      assert t[..n + 1] == t[..n] + [t[n]];
      accum := comparer.Reduce(t[n], accum);
    }
    assert t[..|t|] == t;
    m := comparer.Finalize(accum);
  }

  // ---------------------------------------------------------------------------
  // transposed
  // ---------------------------------------------------------------------------

  /** `[1, 0, 2, ..., n-1]`: swaps the first two axes and keeps the rest. */
  function TransposePermutation(n: nat): (p: seq<int>)
    requires n >= 2
    ensures IsPermutation(p, n)
    ensures p[0] == 1 && p[1] == 0 && forall i | 2 <= i < n :: p[i] == i
  {
    [1, 0] + seq(n - 2, i => i + 2)
  }

  /** The transposed shape swaps the first two extents, and transposing twice
      gives back the original shape. */
  lemma TransposeInvolution(s: Shape)
    requires |s| >= 2
    ensures Shuffle(s, TransposePermutation(|s|)) == [s[1], s[0]] + s[2..]
    ensures Shuffle(Shuffle(s, TransposePermutation(|s|)), TransposePermutation(|s|)) == s
  {
    var p := TransposePermutation(|s|);
    var t := Shuffle(s, p);
    assert t == [s[1], s[0]] + s[2..];
    assert Shuffle(t, p) == s;
  }

  // ---------------------------------------------------------------------------
  // max_normalize_op
  // ---------------------------------------------------------------------------

  /** The extremes of the tensor it was built from, and the scale factor. */
  datatype Normalizer = Normalizer(hi: real, lo: real, mult: int)

  /** `max_normalize_op(t, mult)`. */
  method MakeNormalizer(t: seq<real>, mult: int) returns (op: Normalizer)
    ensures op.mult == mult
    ensures |t| > 0 ==> op.lo in t && op.hi in t
    ensures forall x | x in t :: op.lo <= x <= op.hi
  {
    var hi := Max(t);
    var lo := Min(t);
    op := Normalizer(hi, lo, mult);
  }

  /** `operator()(a)`: `mult * (a - min) / (max - min)`; `None` stands for the
      floating-point non-number produced when `max == min`. */
  function Normalize(op: Normalizer, a: real): Option<real> {
    if op.hi == op.lo then None else Some(op.mult as real * (a - op.lo) / (op.hi - op.lo))
  }

  /** The minimum maps to 0 and the maximum to `mult`. */
  lemma NormalizeEndpoints(op: Normalizer)
    requires op.lo < op.hi
    ensures Normalize(op, op.lo) == Some(0.0)
    ensures Normalize(op, op.hi) == Some(op.mult as real)
  {
    var d, m := op.hi - op.lo, op.mult as real;
    var lo := op.lo;
    assert Normalize(op, lo).value == m * (lo - op.lo) / d;
    assert m * (lo - op.lo) == 0.0;
    ZeroOver(d);
    assert Normalize(op, op.hi).value == m * d / d == m;
  }

  /** Everything between the minimum and the maximum lands between 0 and a
      non-negative `mult`. */
  lemma NormalizeBetween(op: Normalizer, a: real)
    requires op.lo < op.hi && op.mult >= 0 && op.lo <= a <= op.hi
    ensures 0.0 <= Normalize(op, a).value <= op.mult as real
  {
    var d, m, x := op.hi - op.lo, op.mult as real, a - op.lo;
    var t := x / d;
    UnitFraction(x, d);
    MulOverDiv(m, x, d);
    ScaleUnit(m, t);
    assert Normalize(op, a).value == m * x / d;
  }

  /** `x / d` lies in `[0, 1]` for `0 <= x <= d`. */
  lemma UnitFraction(x: real, d: real)
    requires 0.0 <= x <= d && d > 0.0
    ensures 0.0 <= x / d <= 1.0
  {
    DivMonotone(0.0, x, d);
    DivMonotone(x, d, d);
    ZeroOver(d);
  }

  lemma MulOverDiv(m: real, x: real, d: real)
    requires d > 0.0
    ensures m * x / d == m * (x / d)
  {
  }

  lemma ScaleUnit(m: real, t: real)
    requires m >= 0.0 && 0.0 <= t <= 1.0
    ensures 0.0 <= m * t <= m
  {
    assert m - m * t == m * (1.0 - t);
  }

  lemma ZeroOver(d: real)
    requires d > 0.0
    ensures 0.0 / d == 0.0
  {
    assert (0.0 / d) * d == 0.0;
  }

  lemma DivMonotone(x: real, y: real, d: real)
    requires d > 0.0 && x <= y
    ensures x / d <= y / d
  {
    assert (y - x) / d >= 0.0;
    assert y / d - x / d == (y - x) / d;
  }

  // ---------------------------------------------------------------------------
  // sliced
  // ---------------------------------------------------------------------------

  /** A tensor as a shape and an element function over multi-indices. */
  datatype Tensor = Tensor(shape: seq<int>, at: seq<int> -> real)

  predicate InBounds(x: seq<int>, shape: seq<int>) {
    |x| == |shape| && forall d | 0 <= d < |x| :: 0 <= x[d] < shape[d]
  }

  /** `t.chip(i, dim) = src.chip(j, dim)`: the slab at position `i` along
      `dim` becomes the slab of `src` at position `j`; the rest of `t` is
      unchanged. */
  function AssignChip(t: Tensor, i: int, dim: nat, src: Tensor, j: int): (r: Tensor)
    ensures r.shape == t.shape
    ensures forall x | |x| > dim :: r.at(x) == if x[dim] == i then src.at(x[dim := j]) else t.at(x)
  {
    Tensor(t.shape, x => if |x| > dim && x[dim] == i then src.at(x[dim := j]) else t.at(x))
  }

  /** The lvalue overload of `sliced(arg, indices, dim)`. It checks nothing;
      Eigen's `chip` needs every index inside the dimension. The output starts
      from uninitialised storage, given here as `uninitialised`. Its shape is
      the input's with dimension `dim` resized to `|indices|`, and chip `i` of
      the output is chip `indices[i]` of the input. */
  method Sliced(arg: Tensor, indices: seq<int>, dim: nat, uninitialised: seq<int> -> real) returns (out: Tensor)
    requires dim < |arg.shape|
    requires forall i | 0 <= i < |indices| :: 0 <= indices[i] < arg.shape[dim]
    ensures out.shape == arg.shape[dim := |indices|]
    ensures forall x | InBounds(x, out.shape) :: out.at(x) == arg.at(x[dim := indices[x[dim]]])
  {
    var outSize := [];
    for d := 0 to |arg.shape|
      invariant outSize == arg.shape[..d]
    {
      outSize := outSize + [arg.shape[d]];
    }
    assert arg.shape[..|arg.shape|] == arg.shape;
    outSize := outSize[dim := |indices|];
    out := Tensor(outSize, uninitialised);
    for i := 0 to |indices|
      invariant out.shape == outSize
      invariant forall x | InBounds(x, outSize) && x[dim] < i :: out.at(x) == arg.at(x[dim := indices[x[dim]]])
    {
      out := AssignChip(out, i, dim, arg, indices[i]);
    }
  }

  /** What the rvalue overload asserts before slicing, as written: strictly
      fewer indices than the dimension's extent, and the largest index
      inside it. */
  predicate SlicedChecks(arg: Tensor, indices: seq<int>, dim: nat)
    requires dim < |arg.shape| && |indices| > 0
  {
    |indices| < arg.shape[dim] && MaxElement(indices) < arg.shape[dim]
  }

  /** The same asserts with the count bound the lvalue overload implies: no
      more indices than the extent, so a reordering of every position along
      `dim` passes. */
  predicate SlicedChecksIntended(arg: Tensor, indices: seq<int>, dim: nat)
    requires dim < |arg.shape| && |indices| > 0
  {
    |indices| <= arg.shape[dim] && MaxElement(indices) < arg.shape[dim]
  }

  /** For non-negative indices, the intended checks pass exactly when there
      are at most as many indices as the extent and every one is inside it. */
  lemma SlicedChecksIntendedExact(arg: Tensor, indices: seq<int>, dim: nat)
    requires dim < |arg.shape| && |indices| > 0
    requires forall i | 0 <= i < |indices| :: 0 <= indices[i]
    ensures SlicedChecksIntended(arg, indices, dim) <==>
      |indices| <= arg.shape[dim] && forall i | 0 <= i < |indices| :: indices[i] < arg.shape[dim]
  {
    var m := MaxElement(indices);
    if forall i | 0 <= i < |indices| :: indices[i] < arg.shape[dim] {
      var j :| 0 <= j < |indices| && indices[j] == m;
    } else {
      var j :| 0 <= j < |indices| && indices[j] >= arg.shape[dim];
      assert indices[j] in indices;
    }
  }

  /** `*std::max_element(indices)`. */
  function MaxElement(s: seq<int>): (m: int)
    requires |s| > 0
    ensures m in s && forall x | x in s :: x <= m
  {
    if |s| == 1 then s[0]
    else
      var m := MaxElement(s[1..]);
      assert forall x | x in s[1..] :: x in s;
      assert forall x | x in s :: x == s[0] || x in s[1..];
      if s[0] > m then s[0] else m
  }

  /** The rvalue overload of `sliced`, with the intended count check. */
  method SlicedChecked(arg: Tensor, indices: seq<int>, dim: nat, uninitialised: seq<int> -> real) returns (out: Tensor)
    requires dim < |arg.shape| && |indices| > 0
    requires SlicedChecksIntended(arg, indices, dim)
    requires forall i | 0 <= i < |indices| :: 0 <= indices[i]
    ensures out.shape == arg.shape[dim := |indices|]
    ensures forall x | InBounds(x, out.shape) :: out.at(x) == arg.at(x[dim := indices[x[dim]]])
  {
    forall i | 0 <= i < |indices| ensures indices[i] < arg.shape[dim] {
      assert indices[i] in indices;
    }
    out := Sliced(arg, indices, dim, uninitialised);
  }

  /** The strict size check refuses every selection of all positions along
      `dim`, even in their original order, which the intended check admits. */
  lemma SlicedChecksRefuseFullSelection(arg: Tensor, dim: nat)
    requires dim < |arg.shape| && arg.shape[dim] > 0
    ensures !SlicedChecks(arg, seq(arg.shape[dim], i => i), dim)
    ensures SlicedChecksIntended(arg, seq(arg.shape[dim], i => i), dim)
  {
    SlicedChecksIntendedExact(arg, seq(arg.shape[dim], i => i), dim);
  }
}
