/** The max-pooling kernel of include/max_poling.h. The input is read as a flat
    column-major buffer; every input cell raises the pooled windows that cover
    it, keeping a running maximum and the flat index it came from. The pooled
    output and the argmax map are written in place. The output's leading axis
    of extent 1 is dropped: a cell `(0, h, w, k, i)` is `[h, w, k, i]` here. */
module MaxPooling {
  import opened Arith

  /** `NumTraits<float>::lowest()`, the value every output cell starts from. */
  const Lowest: real := -340282346638528859811704183484516925440.0

  /** The extents and the pooling parameters. `outr` and `outc` are read off the
      output tensor. */
  datatype Pool = Pool(ir: nat, ic: nat, depth: nat, batch: nat, kr: int, kc: int, stride: int, outr: nat, outc: nat)
  {
    predicate Valid() { stride > 0 }

    /** Number of input elements. */
    function Size(): int { ir * ic * depth * batch }

    /** Column-major offset of input cell `(r, c, k, i)`. */
    function Flat(r: int, c: int, k: int, i: int): int {
      r + c * ir + k * ic * ir + i * ic * ir * depth
    }

    /** First and one-past-last output row whose window contains input row `r`
        (C++ integer division; both operands are non-negative here). */
    function HStart(r: int): int requires Valid() { if r - kr < 0 then 0 else (r - kr) / stride + 1 }
    function HEnd(r: int): int requires Valid() { Min(outr, r / stride + 1) }
    function WStart(c: int): int requires Valid() { if c - kc < 0 then 0 else (c - kc) / stride + 1 }
    function WEnd(c: int): int requires Valid() { Min(outc, c / stride + 1) }

    /** The window of output cell `(h, w)`: rows `h*stride .. h*stride+kr-1`
        and columns `w*stride .. w*stride+kc-1`. */
    predicate Covers(r: int, c: int, h: int, w: int) {
      && 0 <= h < outr && h * stride <= r < h * stride + kr
      && 0 <= w < outc && w * stride <= c < w * stride + kc
    }

    predicate InPlane(r: int, c: int) { 0 <= r < ir && 0 <= c < ic }
  }

  function Min(a: int, b: int): int { if a < b then a else b }

  /** The running maximum of one output cell and the flat index it came from. */
  datatype Best = Best(value: real, arg: int)

  /** What visiting input cell `(r, c)` of plane `(k, i)` does to output cell
      `(h, w)`: raise it when the cell lies in its window and holds a strictly
      larger value. */
  function Visit(g: Pool, input: seq<real>, b: Best, r: int, c: int, k: nat, i: nat, h: int, w: int): Best
    requires |input| == g.Size() && g.InPlane(r, c) && k < g.depth && i < g.batch
  {
    FlatInRange(g, r, c, k, i);
    var f := g.Flat(r, c, k, i);
    if g.Covers(r, c, h, w) && input[f] > b.value then Best(input[f], f) else b
  }

  /** The state of output cell `(h, w)` of plane `(k, i)` once the scan, rows
      outer and columns inner, has visited every cell before `(r, c)`. */
  function ScanTo(g: Pool, input: seq<real>, init: Best, k: nat, i: nat, h: int, w: int, r: nat, c: nat): Best
    requires |input| == g.Size() && k < g.depth && i < g.batch
    requires (r < g.ir && c <= g.ic) || (r == g.ir && c == 0)
    decreases r, c
  {
    if c == 0 then
      if r == 0 then init else ScanTo(g, input, init, k, i, h, w, r - 1, g.ic)
    else
      Visit(g, input, ScanTo(g, input, init, k, i, h, w, r, c - 1), r, c - 1, k, i, h, w)
  }

  /** The final state of output cell `(h, w, k, i)`. */
  function Pooled(g: Pool, input: seq<real>, init: Best, k: nat, i: nat, h: int, w: int): Best
    requires |input| == g.Size() && k < g.depth && i < g.batch
  {
    ScanTo(g, input, init, k, i, h, w, g.ir, 0)
  }

  /** Scan position of `(r, c)` is before the position `(r', c')`. */
  predicate Before(r: int, c: int, r': int, c': int) {
    r < r' || (r == r' && c < c')
  }

  // ---------------------------------------------------------------------------
  // Index arithmetic
  // ---------------------------------------------------------------------------

  /** Output row `h` is in `[hstart, hend)` exactly when it is an output row
      whose window contains input row `r`; likewise for columns. */
  lemma WindowRange(g: Pool, r: int, c: int, h: int, w: int)
    requires g.Valid() && r >= 0 && c >= 0
    ensures g.HStart(r) <= h < g.HEnd(r) <==> 0 <= h < g.outr && h * g.stride <= r < h * g.stride + g.kr
    ensures g.WStart(c) <= w < g.WEnd(c) <==> 0 <= w < g.outc && w * g.stride <= c < w * g.stride + g.kc
  {
    AxisRange(r, g.kr, g.stride, g.outr, h);
    AxisRange(c, g.kc, g.stride, g.outc, w);
  }

  lemma AxisRange(r: int, k: int, s: int, n: int, h: int)
    requires s > 0 && r >= 0
    ensures (if r - k < 0 then 0 else (r - k) / s + 1) <= h < Min(n, r / s + 1)
            <==> 0 <= h < n && h * s <= r < h * s + k
  {
    FloorBelow(r, s, h);
    if r - k >= 0 {
      FloorBelow(r - k, s, h);
    } else if h >= 0 {
      MulNonNegative(h, s);
    }
  }

  /** `x / s < h` exactly when `x < h*s`, for non-negative `x`. */
  lemma FloorBelow(x: int, s: int, h: int)
    requires s > 0 && x >= 0
    ensures x / s < h <==> x < h * s
    ensures h <= x / s <==> h * s <= x
  {
    var q := x / s;
    assert q * s <= x < (q + 1) * s;
    if h <= q {
      MulMonotone(h, q, s);
    } else {
      MulMonotone(q + 1, h, s);
    }
  }

  lemma MulMonotone(a: int, b: int, s: int)
    requires a <= b && s > 0
    ensures a * s <= b * s
  {
  }

  lemma MulNonNegative(a: int, b: int)
    requires a >= 0 && b >= 0
    ensures a * b >= 0
  {
  }

  /** `x + m*y` with `x < m` and `y < n` is a valid offset below `m*n`. */
  lemma MixedRadix(x: int, m: int, y: int, n: int)
    requires 0 <= x < m && 0 <= y < n
    ensures 0 <= x + m * y < m * n
  {
    MulNonNegative(m, y);
    MulMonotone(y, n - 1, m);
    assert m * y <= m * (n - 1);
  }

  /** The flat index of an input cell of the plane lies in the input. */
  lemma FlatInRange(g: Pool, r: int, c: int, k: int, i: int)
    requires g.InPlane(r, c) && 0 <= k < g.depth && 0 <= i < g.batch
    ensures 0 <= g.Flat(r, c, k, i) < g.Size()
  {
    FlatNested(g, r, c, k, i);
    var db := g.depth * g.batch;
    var cdb := g.ic * db;
    var x := k + g.depth * i;
    var y := c + g.ic * x;
    MixedRadix(k, g.depth, i, g.batch);
    MixedRadix(c, g.ic, x, db);
    MixedRadix(r, g.ir, y, cdb);
    SizeNested(g);
  }

  lemma SizeNested(g: Pool)
    ensures g.Size() == g.ir * (g.ic * (g.depth * g.batch))
  {
  }

  lemma FlatNested(g: Pool, r: int, c: int, k: int, i: int)
    ensures g.Flat(r, c, k, i) == r + g.ir * (c + g.ic * (k + g.depth * i))
  {
  }

  /** Distinct input cells have distinct flat indices. */
  lemma FlatInjective(g: Pool, r: int, c: int, k: int, i: int, r': int, c': int, k': int, i': int)
    requires g.InPlane(r, c) && 0 <= k < g.depth && 0 <= i < g.batch
    requires g.InPlane(r', c') && 0 <= k' < g.depth && 0 <= i' < g.batch
    ensures g.Flat(r, c, k, i) == g.Flat(r', c', k', i') <==> r == r' && c == c' && k == k' && i == i'
  {
    if g.Flat(r, c, k, i) == g.Flat(r', c', k', i') {
      FlatNested(g, r, c, k, i);
      FlatNested(g, r', c', k', i');
      var rest, rest' := c + g.ic * (k + g.depth * i), c' + g.ic * (k' + g.depth * i');
      MixedRadix(k, g.depth, i, g.batch);
      MixedRadix(k', g.depth, i', g.batch);
      MixedRadix(c, g.ic, k + g.depth * i, g.depth * g.batch);
      MixedRadix(c', g.ic, k' + g.depth * i', g.depth * g.batch);
      DigitsUnique(r, rest, r', rest', g.ir);
      DigitsUnique(c, k + g.depth * i, c', k' + g.depth * i', g.ic);
      DigitsUnique(k, i, k', i', g.depth);
    }
  }

  /** A mixed-radix digit pair is determined by its value. */
  lemma DigitsUnique(x: int, y: int, x': int, y': int, b: int)
    requires 0 <= x < b && 0 <= x' < b && x + b * y == x' + b * y'
    ensures x == x' && y == y'
  {
    DivModUnique(x + b * y, b, y, x);
    DivModUnique(x' + b * y', b, y', x');
  }

  // ---------------------------------------------------------------------------
  // What the scan computes
  // ---------------------------------------------------------------------------

  /** The scan never lowers an output cell below its start value. */
  lemma {:induction false} ScanAtLeastStart(g: Pool, input: seq<real>, init: Best, k: nat, i: nat, h: int, w: int, r: nat, c: nat)
    requires |input| == g.Size() && k < g.depth && i < g.batch
    requires (r < g.ir && c <= g.ic) || (r == g.ir && c == 0)
    ensures ScanTo(g, input, init, k, i, h, w, r, c).value >= init.value
    decreases r, c
  {
    if c == 0 {
      if r > 0 {
        ScanAtLeastStart(g, input, init, k, i, h, w, r - 1, g.ic);
      }
    } else {
      ScanAtLeastStart(g, input, init, k, i, h, w, r, c - 1);
    }
  }

  /** After the scan, an output cell is at least every input value of its
      window visited so far (a signed comparison, not one by magnitude). */
  lemma {:induction false} ScanAtLeastWindow(g: Pool, input: seq<real>, init: Best, k: nat, i: nat, h: int, w: int, r: nat, c: nat, r': int, c': int)
    requires |input| == g.Size() && k < g.depth && i < g.batch
    requires (r < g.ir && c <= g.ic) || (r == g.ir && c == 0)
    requires g.InPlane(r', c') && Before(r', c', r, c) && g.Covers(r', c', h, w)
    ensures FlatIndexIn(g, input, r', c', k, i)
    ensures ScanTo(g, input, init, k, i, h, w, r, c).value >= input[g.Flat(r', c', k, i)]
    decreases r, c
  {
    FlatInRange(g, r', c', k, i);
    if c == 0 {
      ScanAtLeastWindow(g, input, init, k, i, h, w, r - 1, g.ic, r', c');
    } else if r' == r && c' == c - 1 {
    } else {
      ScanAtLeastWindow(g, input, init, k, i, h, w, r, c - 1, r', c');
    }
  }

  /** An output cell either keeps its start state or was raised by an input
      cell `(r', c')` of its window, whose value it holds and whose flat index
      the argmax records. */
  lemma {:induction false} ScanRaisedBy(g: Pool, input: seq<real>, init: Best, k: nat, i: nat, h: int, w: int, r: nat, c: nat)
    returns (r': int, c': int)
    requires |input| == g.Size() && k < g.depth && i < g.batch
    requires (r < g.ir && c <= g.ic) || (r == g.ir && c == 0)
    ensures var b := ScanTo(g, input, init, k, i, h, w, r, c);
      b == init || (b.value > init.value && Raised(g, input, b, k, i, h, w, r', c', r, c))
    decreases r, c
  {
    r', c' := 0, 0;
    if c == 0 {
      if r > 0 {
        r', c' := ScanRaisedBy(g, input, init, k, i, h, w, r - 1, g.ic);
      }
    } else {
      r', c' := ScanRaisedBy(g, input, init, k, i, h, w, r, c - 1);
      ScanAtLeastStart(g, input, init, k, i, h, w, r, c - 1);
      var prev := ScanTo(g, input, init, k, i, h, w, r, c - 1);
      FlatInRange(g, r, c - 1, k, i);
      var b := ScanTo(g, input, init, k, i, h, w, r, c);
      assert b == Visit(g, input, prev, r, c - 1, k, i, h, w);
      if b != prev {
        r', c' := r, c - 1;
      }
    }
  }

  /** `b` was raised by window cell `(r', c')`, visited before `(r, c)`. */
  predicate Raised(g: Pool, input: seq<real>, b: Best, k: nat, i: nat, h: int, w: int, r': int, c': int, r: int, c: int)
    requires |input| == g.Size() && k < g.depth && i < g.batch
  {
    && g.InPlane(r', c') && Before(r', c', r, c) && g.Covers(r', c', h, w)
    && FlatIndexIn(g, input, r', c', k, i)
    && b.arg == g.Flat(r', c', k, i) && b.value == input[g.Flat(r', c', k, i)]
  }

  predicate FlatIndexIn(g: Pool, input: seq<real>, r: int, c: int, k: int, i: int) {
    0 <= g.Flat(r, c, k, i) < |input|
  }

  /** Ties keep the earliest cell: when the scan has raised an output cell
      above its start value and records window cell `(r', c')`, every window
      cell `(r'', c'')` visited before `(r', c')` holds a strictly smaller
      value. */
  lemma {:induction false} ScanKeepsEarliest(g: Pool, input: seq<real>, init: Best, k: nat, i: nat, h: int, w: int, r: nat, c: nat, r': int, c': int, r'': int, c'': int)
    requires |input| == g.Size() && k < g.depth && i < g.batch
    requires (r < g.ir && c <= g.ic) || (r == g.ir && c == 0)
    requires g.InPlane(r', c') && ScanTo(g, input, init, k, i, h, w, r, c).arg == g.Flat(r', c', k, i)
    requires ScanTo(g, input, init, k, i, h, w, r, c).value > init.value
    requires g.InPlane(r'', c'') && Before(r'', c'', r', c') && g.Covers(r'', c'', h, w)
    ensures FlatIndexIn(g, input, r'', c'', k, i)
    ensures input[g.Flat(r'', c'', k, i)] < ScanTo(g, input, init, k, i, h, w, r, c).value
    decreases r, c
  {
    FlatInRange(g, r'', c'', k, i);
    if c == 0 {
      ScanKeepsEarliest(g, input, init, k, i, h, w, r - 1, g.ic, r', c', r'', c'');
    } else {
      var prev := ScanTo(g, input, init, k, i, h, w, r, c - 1);
      FlatInRange(g, r, c - 1, k, i);
      if ScanTo(g, input, init, k, i, h, w, r, c) == prev {
        ScanKeepsEarliest(g, input, init, k, i, h, w, r, c - 1, r', c', r'', c'');
      } else {
        // raised by (r, c-1), which is therefore (r', c')
        FlatInjective(g, r, c - 1, k, i, r', c', k, i);
        ScanAtLeastWindow(g, input, init, k, i, h, w, r, c - 1, r'', c'');
      }
    }
  }

  /** The pooled value of output cell `(h, w, k, i)` is the maximum of its
      start value and its window: it is at least every window input, and it
      is either the start state or the value of a window input whose flat
      index the argmax holds. */
  lemma PooledIsWindowMaximum(g: Pool, input: seq<real>, init: Best, k: nat, i: nat, h: int, w: int)
    requires |input| == g.Size() && k < g.depth && i < g.batch
    ensures var b := Pooled(g, input, init, k, i, h, w);
      && b.value >= init.value
      && (forall r, c | g.InPlane(r, c) && g.Covers(r, c, h, w) ::
            FlatIndexIn(g, input, r, c, k, i) && b.value >= input[g.Flat(r, c, k, i)])
      && (b == init || exists r, c :: Raised(g, input, b, k, i, h, w, r, c, g.ir, 0))
  {
    ScanAtLeastStart(g, input, init, k, i, h, w, g.ir, 0);
    forall r, c | g.InPlane(r, c) && g.Covers(r, c, h, w)
      ensures FlatIndexIn(g, input, r, c, k, i) && Pooled(g, input, init, k, i, h, w).value >= input[g.Flat(r, c, k, i)]
    {
      ScanAtLeastWindow(g, input, init, k, i, h, w, g.ir, 0, r, c);
    }
    var r, c := ScanRaisedBy(g, input, init, k, i, h, w, g.ir, 0);
  }

  /** Planes never mix: two inputs that agree on plane `(k, i)` pool to the
      same result in that plane. */
  lemma {:induction false} ScanReadsOnlyItsPlane(g: Pool, input: seq<real>, input': seq<real>, init: Best, k: nat, i: nat, h: int, w: int, r: nat, c: nat)
    requires |input| == g.Size() && |input'| == g.Size() && k < g.depth && i < g.batch
    requires (r < g.ir && c <= g.ic) || (r == g.ir && c == 0)
    requires forall r', c' | g.InPlane(r', c') :: FlatIndexIn(g, input, r', c', k, i) && input[g.Flat(r', c', k, i)] == input'[g.Flat(r', c', k, i)]
    ensures ScanTo(g, input, init, k, i, h, w, r, c) == ScanTo(g, input', init, k, i, h, w, r, c)
    decreases r, c
  {
    if c == 0 {
      if r > 0 {
        ScanReadsOnlyItsPlane(g, input, input', init, k, i, h, w, r - 1, g.ic);
      }
    } else {
      ScanReadsOnlyItsPlane(g, input, input', init, k, i, h, w, r, c - 1);
      assert FlatIndexIn(g, input, r, c - 1, k, i);
    }
  }

  // ---------------------------------------------------------------------------
  // The kernel
  // ---------------------------------------------------------------------------

  function Cell(output: array4<real>, argmax: array4<int>, h: int, w: int, k: int, i: int): Best
    requires 0 <= h < output.Length0 && 0 <= w < output.Length1 && 0 <= k < output.Length2 && 0 <= i < output.Length3
    requires argmax.Length0 == output.Length0 && argmax.Length1 == output.Length1
    requires argmax.Length2 == output.Length2 && argmax.Length3 == output.Length3
    reads output, argmax
  {
    Best(output[h, w, k, i], argmax[h, w, k, i])
  }

  predicate SameExtents(output: array4<real>, argmax: array4<int>) {
    && argmax.Length0 == output.Length0 && argmax.Length1 == output.Length1
    && argmax.Length2 == output.Length2 && argmax.Length3 == output.Length3
  }

  /** `output.setConstant(v)`. */
  method SetConstant(output: array4<real>, v: real)
    modifies output
    ensures forall h, w, k, i | 0 <= h < output.Length0 && 0 <= w < output.Length1 && 0 <= k < output.Length2 && 0 <= i < output.Length3 ::
      output[h, w, k, i] == v
  {
    for h := 0 to output.Length0
      invariant forall h', w, k, i | 0 <= h' < h && 0 <= w < output.Length1 && 0 <= k < output.Length2 && 0 <= i < output.Length3 ::
        output[h', w, k, i] == v
    {
      for w := 0 to output.Length1
        invariant forall h', w', k, i | 0 <= h' < output.Length0 && 0 <= w' < output.Length1 && 0 <= k < output.Length2 && 0 <= i < output.Length3 && (h' < h || (h' == h && w' < w)) ::
          output[h', w', k, i] == v
      {
        for k := 0 to output.Length2
          invariant forall h', w', k', i | 0 <= h' < output.Length0 && 0 <= w' < output.Length1 && 0 <= k' < output.Length2 && 0 <= i < output.Length3 && (h' < h || (h' == h && (w' < w || (w' == w && k' < k)))) ::
            output[h', w', k', i] == v
        {
          for i := 0 to output.Length3
            invariant forall h', w', k', i' | 0 <= h' < output.Length0 && 0 <= w' < output.Length1 && 0 <= k' < output.Length2 && 0 <= i' < output.Length3 && (h' < h || (h' == h && (w' < w || (w' == w && (k' < k || (k' == k && i' < i)))))) ::
              output[h', w', k', i'] == v
          {
            output[h, w, k, i] := v;
          }
        }
      }
    }
  }

  /** The window loops for input cell `(r, c)` of plane `(k, i)`. */
  method VisitInput(g: Pool, input: array<real>, r: nat, c: nat, k: nat, i: nat, output: array4<real>, argmax: array4<int>)
    requires g.Valid() && input.Length == g.Size() && g.InPlane(r, c) && k < g.depth && i < g.batch
    requires output.Length0 == g.outr && output.Length1 == g.outc && output.Length2 == g.depth && output.Length3 == g.batch
    requires SameExtents(output, argmax)
    modifies output, argmax
    ensures forall h, w, k', i' | 0 <= h < g.outr && 0 <= w < g.outc && 0 <= k' < g.depth && 0 <= i' < g.batch ::
      Cell(output, argmax, h, w, k', i')
        == if k' == k && i' == i then Visit(g, input[..], old(Cell(output, argmax, h, w, k', i')), r, c, k, i, h, w)
           else old(Cell(output, argmax, h, w, k', i'))
  {
    var hstart, hend := g.HStart(r), g.HEnd(r);
    var wstart, wend := g.WStart(c), g.WEnd(c);
    FlatInRange(g, r, c, k, i);
    var idxFlat := r + c * g.ir + k * g.ic * g.ir + i * g.ic * g.ir * g.depth;
    forall h, w ensures g.HStart(r) <= h < g.HEnd(r) && g.WStart(c) <= w < g.WEnd(c) <==> g.Covers(r, c, h, w) {
      WindowRange(g, r, c, h, w);
    }
    var h := hstart;
    while h < hend
      invariant 0 <= hstart <= h
      invariant forall h', w, k', i' | 0 <= h' < g.outr && 0 <= w < g.outc && 0 <= k' < g.depth && 0 <= i' < g.batch ::
        Cell(output, argmax, h', w, k', i')
          == if k' == k && i' == i && h' < h then Visit(g, input[..], old(Cell(output, argmax, h', w, k', i')), r, c, k, i, h', w)
             else old(Cell(output, argmax, h', w, k', i'))
    {
      var w := wstart;
      while w < wend
        invariant 0 <= h < g.outr && 0 <= wstart <= w
        invariant forall h', w', k', i' | 0 <= h' < g.outr && 0 <= w' < g.outc && 0 <= k' < g.depth && 0 <= i' < g.batch ::
          Cell(output, argmax, h', w', k', i')
            == if k' == k && i' == i && (h' < h || (h' == h && w' < w)) then Visit(g, input[..], old(Cell(output, argmax, h', w', k', i')), r, c, k, i, h', w')
               else old(Cell(output, argmax, h', w', k', i'))
      {
        if input[idxFlat] > output[h, w, k, i] {
          output[h, w, k, i] := input[idxFlat];
          argmax[h, w, k, i] := idxFlat;
        }
        w := w + 1;
      }
      h := h + 1;
    }
  }

  /** `max_pooling(input, ir, ic, depth, batch, kr, kc, stride, output,
      argmax_out)`: every output cell ends as the scan of its window; the
      input is only read. */
  method MaxPool(g: Pool, input: array<real>, output: array4<real>, argmax: array4<int>)
    requires g.Valid() && input.Length == g.Size()
    requires output.Length0 == g.outr && output.Length1 == g.outc && output.Length2 == g.depth && output.Length3 == g.batch
    requires SameExtents(output, argmax)
    modifies output, argmax
    ensures forall h, w, k, i | 0 <= h < g.outr && 0 <= w < g.outc && 0 <= k < g.depth && 0 <= i < g.batch ::
      Cell(output, argmax, h, w, k, i) == Pooled(g, input[..], Best(Lowest, old(argmax[h, w, k, i])), k, i, h, w)
  {
    SetConstant(output, Lowest);
    for i := 0 to g.batch
      invariant forall h, w, k', i' | 0 <= h < g.outr && 0 <= w < g.outc && 0 <= k' < g.depth && 0 <= i' < g.batch ::
        Cell(output, argmax, h, w, k', i')
          == if i' < i then Pooled(g, input[..], Best(Lowest, old(argmax[h, w, k', i'])), k', i', h, w)
             else Best(Lowest, old(argmax[h, w, k', i']))
    {
      for k := 0 to g.depth
        invariant forall h, w, k', i' | 0 <= h < g.outr && 0 <= w < g.outc && 0 <= k' < g.depth && 0 <= i' < g.batch ::
          Cell(output, argmax, h, w, k', i')
            == if i' < i || (i' == i && k' < k) then Pooled(g, input[..], Best(Lowest, old(argmax[h, w, k', i'])), k', i', h, w)
               else Best(Lowest, old(argmax[h, w, k', i']))
      {
        for r := 0 to g.ir
          invariant forall h, w, k', i' | 0 <= h < g.outr && 0 <= w < g.outc && 0 <= k' < g.depth && 0 <= i' < g.batch ::
            Cell(output, argmax, h, w, k', i')
              == if i' < i || (i' == i && k' < k) then Pooled(g, input[..], Best(Lowest, old(argmax[h, w, k', i'])), k', i', h, w)
                 else if i' == i && k' == k then ScanTo(g, input[..], Best(Lowest, old(argmax[h, w, k', i'])), k', i', h, w, r, 0)
                 else Best(Lowest, old(argmax[h, w, k', i']))
        {
          for c := 0 to g.ic
            invariant forall h, w, k', i' | 0 <= h < g.outr && 0 <= w < g.outc && 0 <= k' < g.depth && 0 <= i' < g.batch ::
              Cell(output, argmax, h, w, k', i')
                == if i' < i || (i' == i && k' < k) then Pooled(g, input[..], Best(Lowest, old(argmax[h, w, k', i'])), k', i', h, w)
                   else if i' == i && k' == k then ScanTo(g, input[..], Best(Lowest, old(argmax[h, w, k', i'])), k', i', h, w, r, c)
                   else Best(Lowest, old(argmax[h, w, k', i']))
          {
            VisitInput(g, input, r, c, k, i, output, argmax);
          }
        }
      }
    }
  }
}
