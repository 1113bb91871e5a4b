/** Column-major dense matrices, the layout of Eigen's default tensors: element
    `(r, c)` of a `rows x cols` matrix is stored at `r + c*rows`. */
module Matrices {
  import opened Arith

  datatype Matrix = Matrix(rows: nat, cols: nat, data: seq<real>)
  {
    predicate Valid() { |data| == rows * cols }

    /** Element `(r, c)`; positions outside the matrix read as 0. */
    function At(r: int, c: int): real {
      if 0 <= r < rows && 0 <= c < cols && r + c * rows < |data| then data[r + c * rows] else 0.0
    }

    predicate SameShape(other: Matrix) { rows == other.rows && cols == other.cols }
  }

  /** Grid position `(r, c)` has a column-major offset inside the matrix, from
      which `%` and `/` by the row count recover `r` and `c`. */
  lemma ColumnMajorOffset(rows: nat, cols: nat, r: int, c: int)
    requires 0 <= r < rows && 0 <= c < cols
    ensures 0 <= r + c * rows < rows * cols
    ensures (r + c * rows) % rows == r && (r + c * rows) / rows == c
  {
    MulAtLeast(c + 1, rows);
    assert r + c * rows < (c + 1) * rows;
    assert (c + 1) * rows <= cols * rows by {
      if c + 1 < cols {
        MulAtLeast(cols - (c + 1), rows);
      }
    }
    DivModUnique(r + c * rows, rows, c, r);
  }

  /** Every offset below `rows*cols` is the column-major offset of the grid
      position `(offset % rows, offset / rows)`. */
  lemma ColumnMajorPosition(rows: nat, cols: nat, offset: int)
    requires 0 <= offset < rows * cols
    ensures 0 <= offset % rows < rows && 0 <= offset / rows < cols
    ensures offset == offset % rows + (offset / rows) * rows
  {
    var q := offset / rows;
    if q >= cols {
      MulAtLeast(q - cols + 1, rows);
    }
  }

  /** The matrix whose element `(r, c)` is `f(r, c)`. */
  function Build(rows: nat, cols: nat, f: (int, int) -> real): (m: Matrix)
    ensures m.Valid() && m.rows == rows && m.cols == cols
    ensures forall r, c | 0 <= r < rows && 0 <= c < cols :: m.At(r, c) == f(r, c)
  {
    var data := seq(rows * cols, i requires 0 <= i < rows * cols => f(i % rows, i / rows));
    var m := Matrix(rows, cols, data);
    assert forall r, c | 0 <= r < rows && 0 <= c < cols :: m.At(r, c) == f(r, c) by {
      forall r, c | 0 <= r < rows && 0 <= c < cols ensures m.At(r, c) == f(r, c) {
        ColumnMajorOffset(rows, cols, r, c);
      }
    }
    m
  }

  /** Valid matrices are equal when their shapes and elements are. */
  lemma Extensionality(a: Matrix, b: Matrix)
    requires a.Valid() && b.Valid() && a.SameShape(b)
    requires forall r, c | 0 <= r < a.rows && 0 <= c < a.cols :: a.At(r, c) == b.At(r, c)
    ensures a == b
  {
    forall i | 0 <= i < |a.data| ensures a.data[i] == b.data[i] {
      ColumnMajorPosition(a.rows, a.cols, i);
      assert a.At(i % a.rows, i / a.rows) == b.At(i % a.rows, i / a.rows);
    }
  }

  function Constant(rows: nat, cols: nat, v: real): (m: Matrix)
    ensures m.Valid() && m.rows == rows && m.cols == cols
    ensures forall r, c | 0 <= r < rows && 0 <= c < cols :: m.At(r, c) == v
  {
    Build(rows, cols, (r, c) => v)
  }

  /** `op` applied to the elements of `a` and `b` at the same position. */
  function Zip(a: Matrix, b: Matrix, op: (real, real) -> real): (m: Matrix)
    ensures m.Valid() && m.SameShape(a)
    ensures forall r, c | 0 <= r < a.rows && 0 <= c < a.cols :: m.At(r, c) == op(a.At(r, c), b.At(r, c))
  {
    Build(a.rows, a.cols, (r, c) => op(a.At(r, c), b.At(r, c)))
  }

  /** `a - b`, element by element. */
  function Sub(a: Matrix, b: Matrix): (m: Matrix)
    ensures m.Valid() && m.SameShape(a)
    ensures forall r, c | 0 <= r < a.rows && 0 <= c < a.cols :: m.At(r, c) == a.At(r, c) - b.At(r, c)
  {
    Build(a.rows, a.cols, (r, c) => a.At(r, c) - b.At(r, c))
  }

  /** A difference of equally shaped matrices is the zero matrix exactly
      when the two are equal. */
  lemma SubZeroIffEqual(a: Matrix, b: Matrix)
    requires a.Valid() && b.Valid() && a.SameShape(b)
    ensures Sub(a, b) == Constant(a.rows, a.cols, 0.0) <==> a == b
  {
    var zero := Constant(a.rows, a.cols, 0.0);
    if a == b {
      Extensionality(Sub(a, b), zero);
    }
    if Sub(a, b) == zero {
      forall r, c | 0 <= r < a.rows && 0 <= c < a.cols ensures a.At(r, c) == b.At(r, c) {
        assert Sub(a, b).At(r, c) == zero.At(r, c);
      }
      Extensionality(a, b);
    }
  }

  /** `k * a`, element by element. */
  function Scale(k: real, a: Matrix): (m: Matrix)
    ensures m.Valid() && m.SameShape(a)
    ensures forall r, c | 0 <= r < a.rows && 0 <= c < a.cols :: m.At(r, c) == k * a.At(r, c)
  {
    Build(a.rows, a.cols, (r, c) => k * a.At(r, c))
  }

  /** `a * b`, element by element (Eigen's coefficient-wise product):
      `Zip` with the product of reals. */
  function Mul(a: Matrix, b: Matrix): (m: Matrix)
    ensures m.Valid() && m.SameShape(a)
  {
    Zip(a, b, (x, y) => x * y)
  }

  /** `sum_{j < n} a(r, j) * b(j, c)`. */
  function Dot(a: Matrix, b: Matrix, r: int, c: int, n: nat): real {
    if n == 0 then 0.0 else Dot(a, b, r, c, n - 1) + a.At(r, n - 1) * b.At(n - 1, c)
  }

  /** The matrix product, a contraction of `a`'s columns with `b`'s rows. */
  function MatMul(a: Matrix, b: Matrix): (m: Matrix)
    ensures m.Valid() && m.rows == a.rows && m.cols == b.cols
    ensures forall r, c | 0 <= r < a.rows && 0 <= c < b.cols :: m.At(r, c) == Dot(a, b, r, c, a.cols)
  {
    Build(a.rows, b.cols, (r, c) => Dot(a, b, r, c, a.cols))
  }

  /** Swaps the two axes. */
  function Transpose(a: Matrix): (m: Matrix)
    ensures m.Valid() && m.rows == a.cols && m.cols == a.rows
    ensures forall r, c | 0 <= r < a.cols && 0 <= c < a.rows :: m.At(r, c) == a.At(c, r)
  {
    Build(a.cols, a.rows, (r, c) => a.At(c, r))
  }

  /** `sum_{j < n} a(r, j)`. */
  function RowTotal(a: Matrix, r: int, n: nat): real {
    if n == 0 then 0.0 else RowTotal(a, r, n - 1) + a.At(r, n - 1)
  }

  /** The reduction over axis 1: a `rows x 1` column of row sums. */
  function RowSum(a: Matrix): (m: Matrix)
    ensures m.Valid() && m.rows == a.rows && m.cols == 1
    ensures forall r | 0 <= r < a.rows :: m.At(r, 0) == RowTotal(a, r, a.cols)
  {
    Build(a.rows, 1, (r, c) => RowTotal(a, r, a.cols))
  }

  /** Adds column `v(., 0)` to every column of `a`: the per-row bias
      broadcast. */
  function AddColumn(a: Matrix, v: Matrix): (m: Matrix)
    ensures m.Valid() && m.SameShape(a)
    ensures forall r, c | 0 <= r < a.rows && 0 <= c < a.cols :: m.At(r, c) == a.At(r, c) + v.At(r, 0)
  {
    Build(a.rows, a.cols, (r, c) => a.At(r, c) + v.At(r, 0))
  }

  /** `a(all, idx)`: the columns of `a` listed in `idx`, in that order. */
  function Columns(a: Matrix, idx: seq<int>): (m: Matrix)
    ensures m.Valid() && m.rows == a.rows && m.cols == |idx|
    ensures forall r, c | 0 <= r < a.rows && 0 <= c < |idx| :: m.At(r, c) == a.At(r, idx[c])
  {
    Build(a.rows, |idx|, (r, c) => if 0 <= c < |idx| then a.At(r, idx[c]) else 0.0)
  }

  /** Index of the first largest entry of column `c` among rows `0 .. n-1`
      (Eigen's `argmax` keeps the first maximum). */
  function ArgMaxColumn(a: Matrix, c: int, n: nat): (k: nat)
    requires n > 0
    ensures k < n
    ensures forall r | 0 <= r < n :: a.At(r, c) <= a.At(k, c)
    ensures forall r | 0 <= r < k :: a.At(r, c) < a.At(k, c)
  {
    if n == 1 then 0
    else
      var k := ArgMaxColumn(a, c, n - 1);
      if a.At(n - 1, c) > a.At(k, c) then n - 1 else k
  }
}
