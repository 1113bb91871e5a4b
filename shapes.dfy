/** Shape algebra of Eigen tensor expressions as the engine uses them: element
    counts, axis permutations, reshapes (which Eigen refuses when the element
    counts differ), single-pair contractions and image-patch extraction. Only
    shapes are modelled here, never element values. */
module Shapes {
  import opened Outcomes
  import opened Arith

  /** Eigen's `Index` is signed, so an extent such as `rows - kr + 1` can be
      negative; shapes are therefore sequences of `int`. */
  type Shape = seq<int>

  /** Number of elements described by a shape (Eigen's `array_prod`). */
  function Product(s: Shape): int {
    if |s| == 0 then 1 else s[0] * Product(s[1..])
  }

  predicate Positive(s: Shape) {
    forall i :: 0 <= i < |s| ==> s[i] > 0
  }

  lemma {:induction false} ProductPositive(s: Shape)
    requires Positive(s)
    ensures Product(s) > 0
  {
    if |s| > 0 {
      assert Positive(s[1..]) by {
        forall i | 0 <= i < |s[1..]| ensures s[1..][i] > 0 {
          assert s[1..][i] == s[i + 1];
        }
      }
      ProductPositive(s[1..]);
      MulPositive(s[0], Product(s[1..]));
    }
  }

  /** Counting the axes from the back: the product of a prefix grows by the
      next extent. */
  lemma {:induction false} ProductSnoc(s: Shape, x: int)
    ensures Product(s + [x]) == Product(s) * x
  {
    if |s| == 0 {
      assert s + [x] == [x];
      assert [x][1..] == [];
    } else {
      assert (s + [x])[1..] == s[1..] + [x];
      ProductSnoc(s[1..], x);
      assert Product(s + [x]) == s[0] * (Product(s[1..]) * x);
    }
  }

  lemma ProductOf4(a: int, b: int, c: int, d: int)
    ensures Product([a, b, c, d]) == a * b * c * d
  {
    assert [a, b, c, d][1..] == [b, c, d];
    ProductOf3(b, c, d);
  }

  lemma ProductOf3(a: int, b: int, c: int)
    ensures Product([a, b, c]) == a * b * c
  {
    assert [a, b, c][1..] == [b, c];
    ProductOf2(b, c);
  }

  lemma ProductOf5(a: int, b: int, c: int, d: int, e: int)
    ensures Product([a, b, c, d, e]) == a * b * c * d * e
  {
    assert [a, b, c, d, e][1..] == [b, c, d, e];
    ProductOf4(b, c, d, e);
  }

  lemma ProductOf6(a: int, b: int, c: int, d: int, e: int, f: int)
    ensures Product([a, b, c, d, e, f]) == a * b * c * d * e * f
  {
    assert [a, b, c, d, e, f][1..] == [b, c, d, e, f];
    ProductOf5(b, c, d, e, f);
  }

  lemma ProductOf2(a: int, b: int)
    ensures Product([a, b]) == a * b
  {
    assert [a, b][1..] == [b];
    assert [b][1..] == [];
    assert Product([b]) == b * Product([]);
  }

  /** A reshape between two shapes whose element counts share a positive
      factor `x` succeeds exactly when the remaining factors agree. */
  lemma ReshapeByFactor(from: Shape, to: Shape, a: int, b: int, x: int)
    requires x > 0 && Product(from) == a * x && Product(to) == b * x
    ensures Reshape(from, to).Ok? <==> a == b
  {
    MulCancel(a, b, x);
  }

  /** `p` permutes the axes `0 .. n-1`. */
  predicate IsPermutation(p: seq<int>, n: nat) {
    && |p| == n
    && (forall i :: 0 <= i < n ==> 0 <= p[i] < n)
    && (forall i, j :: 0 <= i < j < n ==> p[i] != p[j])
  }

  /** Eigen's `shuffle`: output axis `i` is input axis `p[i]`. */
  function Shuffle(s: Shape, p: seq<int>): (r: Shape)
    requires IsPermutation(p, |s|)
  {
    seq(|s|, i requires 0 <= i < |s| => s[p[i]])
  }

  /** Eigen's `reshape`: refused unless the element counts agree. */
  function Reshape(from: Shape, to: Shape): Result<Shape> {
    if Product(from) == Product(to) then Ok(to) else Err(ShapeMismatch)
  }

  /** Eigen's `contract` on one index pair `(i, j)`: the contracted extents must
      agree; the result keeps the free axes of `a`, then those of `b`. */
  function Contract(a: Shape, b: Shape, i: nat, j: nat): Result<Shape>
    requires i < |a| && j < |b|
  {
    if a[i] == b[j] then Ok(a[..i] + a[i + 1..] + b[..j] + b[j + 1..])
    else Err(ShapeMismatch)
  }

  /** Matrix product `[m, k] x [k, n]`: contracting axis 1 with axis 0. */
  lemma ContractMatMul(m: int, k: int, n: int)
    ensures Contract([m, k], [k, n], 1, 0) == Ok([m, n])
  {
    assert [m, k][..1] + [m, k][2..] + [k, n][..0] + [k, n][1..] == [m, n];
  }

  /** Transposed product `[k, m]^T x [k, n]`: contracting axis 0 with axis 0. */
  lemma ContractTransposedMatMul(k: int, m: int, n: int)
    ensures Contract([k, m], [k, n], 0, 0) == Ok([m, n])
  {
    assert [k, m][..0] + [k, m][1..] + [k, n][..0] + [k, n][1..] == [m, n];
  }

  /** Number of patch positions along one axis for stride 1, no dilation and
      padding `pad` on both sides. */
  function PatchPositions(extent: int, patch: int, pad: int): int {
    extent + 2 * pad - patch + 1
  }

  /** Shape of Eigen's column-major `extract_image_patches(pr, pc, 1, 1, 1, 1,
      1, 1, padr, padr, padc, padc)`: `[d, r, c, rest...]` becomes
      `[d, pr, pc, patches, rest...]`. */
  function ImagePatches(s: Shape, pr: int, pc: int, padr: int, padc: int): Shape
    requires |s| >= 3
  {
    [s[0], pr, pc, PatchPositions(s[1], pr, padr) * PatchPositions(s[2], pc, padc)] + s[3..]
  }
}
