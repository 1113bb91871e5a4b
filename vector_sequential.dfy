/** sequential.h: the first `Sequential<Scalar>`, a fully connected network
    that works on one sample at a time. Every layer shares one activation
    object, every weight and bias starts at 0.5, and `updateBatch` runs
    `backProp` on each sample of a batch before taking one step along the
    gradient buffers, which every `backProp` overwrites instead of adding
    to.

    A vector is a one-column `Matrix`. The member vectors of pointers
    become sequence fields that the methods reassign. */
module VectorSequential {
  import opened Matrices
  import opened Backprop
  import MatrixSequential

  /** `cost_grad(y)` multiplied element-wise by the activation derivative:
      the back layer's error `(output - target) * derivative`. */
  function OutputError(a: Matrix, y: Matrix, pz: Matrix): (e: Matrix)
    ensures e.Valid() && e.SameShape(a)
  {
    Mul(Sub(a, y), pz)
  }

  /** At the target the back layer's error is zero, whatever the
      derivative. */
  lemma OutputErrorAtTarget(a: Matrix, pz: Matrix)
    requires a.Valid()
    ensures OutputError(a, a, pz) == Constant(a.rows, a.cols, 0.0)
  {
    var zero := Constant(a.rows, a.cols, 0.0);
    Extensionality(Sub(a, a), zero);
    Extensionality(Mul(zero, pz), zero);
  }

  /** The error indices `n` calls of `backProp` write, in order, for a
      network of `layers` weight layers. */
  ghost function Rounds(layers: nat, n: nat): (w: seq<nat>)
    ensures |w| == n * layers
  {
    if n == 0 then [] else Rounds(layers, n - 1) + MatrixSequential.Writes(layers, layers)
  }

  /** The activation buffers `acts` and weighted-input buffers `ins` hold
      the forward pass of `x` under `p`. */
  ghost predicate Fed(p: Pass, x: Matrix, acts: seq<Matrix>, ins: seq<Matrix>)
    requires p.Valid()
  {
    && |acts| == |p.weights| + 1 && |ins| == |p.weights|
    && (forall i {:trigger acts[i]} | 0 <= i < |acts| :: acts[i] == Activation(p, x, i))
    && (forall i {:trigger ins[i]} | 0 <= i < |ins| :: ins[i] == WInput(p, x, i))
  }

  /** The buffers hold the forward pass of `x` under `p` and the backward
      pass against `y`: each layer's error, the error itself as the bias
      gradient and the weight gradient. */
  ghost predicate Passed(p: Pass, x: Matrix, y: Matrix, acts: seq<Matrix>, ins: seq<Matrix>,
                         dl: seq<Matrix>, nb: seq<Matrix>, nw: seq<Matrix>)
    requires p.Valid()
  {
    && Fed(p, x, acts, ins)
    && |dl| == |nb| == |nw| == |p.weights|
    && (forall j {:trigger dl[j]} | 0 <= j < |dl| :: dl[j] == Delta(p, x, y, OutputError, j))
    && (forall j {:trigger nb[j]} | 0 <= j < |nb| :: nb[j] == dl[j])
    && (forall j {:trigger nw[j]} | 0 <= j < |nw| :: nw[j] == NablaW(p, x, y, OutputError, j))
  }

  /** The slots from `from` on hold what the backward half writes there:
      the layer's error, the same error as its bias gradient, and its
      weight gradient. */
  ghost predicate Filled(p: Pass, y: Matrix, acts: seq<Matrix>, ins: seq<Matrix>,
                         dl: seq<Matrix>, nb: seq<Matrix>, nw: seq<Matrix>, from: nat)
    requires p.Valid() && |acts| == |p.weights| + 1 && |ins| == |p.weights|
  {
    && |dl| == |nb| == |nw| == |p.weights|
    && forall j {:trigger dl[j]} | from <= j < |p.weights| ::
         && dl[j] == MatrixSequential.BufferDelta(p, y, OutputError, acts, ins, j)
         && nb[j] == dl[j]
         && nw[j] == MatMul(dl[j], Transpose(acts[j]))
  }

  /** The backward half of `backProp`, given the buffers the forward pass
      left and `cost_grad(y)` as `grad`: the back layer's error, then for `i = 3 .. num_layers` the
      error of layer `num_layers - i` from the one after it, each followed
      by its bias gradient (the error itself) and its weight gradient.
      `writes` lists the error slots in the order they are assigned. */
  method BackwardPass(p: Pass, y: Matrix, grad: Matrix, acts: seq<Matrix>, ins: seq<Matrix>,
                      delta: seq<Matrix>, nablaB: seq<Matrix>, nablaW: seq<Matrix>)
    returns (dl: seq<Matrix>, nb: seq<Matrix>, nw: seq<Matrix>, ghost writes: seq<nat>)
    requires p.Valid() && |p.weights| > 0
    requires |acts| == |p.weights| + 1 && |ins| == |delta| == |nablaB| == |nablaW| == |p.weights|
    requires grad == Sub(acts[|p.weights|], y)
    ensures Filled(p, y, acts, ins, dl, nb, nw, 0)
    ensures writes == MatrixSequential.Writes(|p.weights|, |p.weights|)
  {
    var last := |p.weights| - 1;
    dl := delta[last := Mul(grad, p.funs[last].prime(ins[last]))];
    nb := nablaB[last := dl[last]];
    nw := nablaW[last := MatMul(dl[last], Transpose(acts[last]))];
    writes := [last];
    for i := 3 to |p.weights| + 2
      invariant Filled(p, y, acts, ins, dl, nb, nw, |p.weights| + 2 - i)
      invariant writes == MatrixSequential.Writes(|p.weights|, i - 2)
    {
      dl, nb, nw, writes := BackwardStep(p, y, acts, ins, dl, nb, nw, writes, i);
    }
  }

  /** One pass of the backward loop, at `i`. */
  method BackwardStep(p: Pass, y: Matrix, acts: seq<Matrix>, ins: seq<Matrix>,
                      dl: seq<Matrix>, nb: seq<Matrix>, nw: seq<Matrix>, ghost writes: seq<nat>, i: nat)
    returns (dl': seq<Matrix>, nb': seq<Matrix>, nw': seq<Matrix>, ghost writes': seq<nat>)
    requires p.Valid() && 3 <= i <= |p.weights| + 1
    requires |acts| == |p.weights| + 1 && |ins| == |p.weights|
    requires Filled(p, y, acts, ins, dl, nb, nw, |p.weights| + 2 - i)
    requires writes == MatrixSequential.Writes(|p.weights|, i - 2)
    ensures Filled(p, y, acts, ins, dl', nb', nw', |p.weights| + 1 - i)
    ensures writes' == MatrixSequential.Writes(|p.weights|, i - 1)
  {
    var j := |p.weights| + 1 - i;
    dl' := dl[j := Mul(MatMul(Transpose(p.weights[j + 1]), dl[j + 1]), p.funs[j].prime(ins[j]))];
    nb' := nb[j := dl'[j]];
    nw' := nw[j := MatMul(dl'[j], Transpose(acts[j]))];
    writes' := writes + [j];
  }

  /** With the forward pass of `x` in the buffers, the filled slots are the
      errors and gradients `Delta` and `NablaW` define. */
  lemma BackwardResult(p: Pass, x: Matrix, y: Matrix, acts: seq<Matrix>, ins: seq<Matrix>,
                       dl: seq<Matrix>, nb: seq<Matrix>, nw: seq<Matrix>)
    requires p.Valid() && 0 < |p.weights|
    requires Fed(p, x, acts, ins)
    requires Filled(p, y, acts, ins, dl, nb, nw, 0)
    ensures Passed(p, x, y, acts, ins, dl, nb, nw)
  {
    forall j | 0 <= j < |dl| ensures dl[j] == Delta(p, x, y, OutputError, j) && nw[j] == NablaW(p, x, y, OutputError, j) {
      MatrixSequential.BufferDeltaIsDelta(p, x, y, OutputError, acts, ins, j);
      assert acts[j] == Activation(p, x, j);
    }
  }

  /** Layer `j` as the constructor leaves it: `arch[j+1] x arch[j]`
      weights and an `arch[j+1]` bias with every entry 0.5, and gradient,
      error and weighted-input buffers of the matching shapes. */
  ghost predicate BuiltLayer(arch: seq<nat>, w: Matrix, b: Matrix, nb: Matrix, nw: Matrix, dl: Matrix, z: Matrix, j: nat)
    requires j + 1 < |arch|
  {
    && w == Constant(arch[j + 1], arch[j], 0.5) && b == Constant(arch[j + 1], 1, 0.5)
    && nb.rows == arch[j + 1] && nb.cols == 1
    && nw.rows == arch[j + 1] && nw.cols == arch[j]
    && dl.rows == arch[j + 1] && dl.cols == 1
    && z.rows == arch[j + 1] && z.cols == 1
  }

  /** The layer loop of the constructor: an `arch[0]` activation, then per
      later layer an activation, a weighted input, weights, bias and the
      gradient and error buffers. Eigen leaves the buffers uninitialised;
      here they hold zeros, and only their shapes are promised. */
  method InitialLayers(arch: seq<nat>)
    returns (acts: seq<Matrix>, ins: seq<Matrix>, ws: seq<Matrix>, bs: seq<Matrix>,
             nbs: seq<Matrix>, nws: seq<Matrix>, dls: seq<Matrix>)
    requires |arch| > 0
    ensures |acts| == |arch| && |ins| == |ws| == |bs| == |nbs| == |nws| == |dls| == |arch| - 1
    ensures forall i {:trigger acts[i]} | 0 <= i < |arch| :: acts[i].rows == arch[i] && acts[i].cols == 1
    ensures forall j {:trigger ws[j]} | 0 <= j < |arch| - 1 :: BuiltLayer(arch, ws[j], bs[j], nbs[j], nws[j], dls[j], ins[j], j)
  {
    acts, ins, ws, bs, nbs, nws, dls := [Constant(arch[0], 1, 0.0)], [], [], [], [], [], [];
    for i := 1 to |arch|
      invariant |acts| == i && |ins| == |ws| == |bs| == |nbs| == |nws| == |dls| == i - 1
      invariant forall k {:trigger acts[k]} | 0 <= k < i :: acts[k].rows == arch[k] && acts[k].cols == 1
      invariant forall j {:trigger ws[j]} | 0 <= j < i - 1 :: BuiltLayer(arch, ws[j], bs[j], nbs[j], nws[j], dls[j], ins[j], j)
    {
      var column := Constant(arch[i], 1, 0.0);
      var w, b := Constant(arch[i], arch[i - 1], 0.5), Constant(arch[i], 1, 0.5);
      var nw := Constant(arch[i], arch[i - 1], 0.0);
      assert BuiltLayer(arch, w, b, column, nw, column, column, i - 1);
      acts, ins := acts + [column], ins + [column];
      ws, bs := ws + [w], bs + [b];
      nbs, nws, dls := nbs + [column], nws + [nw], dls + [column];
    }
  }

  class Sequential {
    const numLayers: nat
    /** The layer sizes the network was built from. */
    ghost const arch: seq<nat>
    const activationFun: ActivationFun
    /** The shared activation object repeated once per layer, the form the
      `Backprop` functions take. */
    const funs: seq<ActivationFun>

    var weights: seq<Matrix>
    var activations: seq<Matrix>
    var wInputs: seq<Matrix>
    var biases: seq<Matrix>
    var nablaB: seq<Matrix>
    var nablaW: seq<Matrix>
    var delta: seq<Matrix>
    /** The indices of `delta` in the order `backProp` assigns them. */
    ghost var deltaWrites: seq<nat>

    /** One activation buffer per layer and one of every other buffer per
      layer after the input; weights `arch[i+1] x arch[i]` and bias columns
      of `arch[i+1]` entries. */
    ghost predicate Valid()
      reads this
    {
      && numLayers == |arch| > 0
      && |activations| == numLayers
      && |weights| == |biases| == |wInputs| == |nablaB| == |nablaW| == |delta| == |funs| == numLayers - 1
      && (forall i | 0 <= i < |funs| :: funs[i] == activationFun)
      && (forall i | 0 <= i < numLayers - 1 :: weights[i].rows == arch[i + 1] && weights[i].cols == arch[i])
      && (forall i | 0 <= i < numLayers - 1 :: biases[i].rows == arch[i + 1] && biases[i].cols == 1)
    }

    /** The network as the `Backprop` functions see it. */
    function Params(): Pass
      reads this
    {
      Pass(weights, biases, funs)
    }

    /** The constructor: `arch.size()` layers, weights and biases set to
      0.5, every other buffer of the matching shape. `arch.front()` is read
      unguarded. */
    constructor(archIn: seq<nat>, a: ActivationFun)
      requires |archIn| > 0
      ensures Valid() && numLayers == |archIn| && arch == archIn && activationFun == a
      ensures forall i {:trigger activations[i]} | 0 <= i < numLayers ::
        activations[i].rows == arch[i] && activations[i].cols == 1
      ensures forall j {:trigger weights[j]} | 0 <= j < numLayers - 1 ::
        BuiltLayer(arch, weights[j], biases[j], nablaB[j], nablaW[j], delta[j], wInputs[j], j)
      ensures deltaWrites == []
    {
      var acts, ins, ws, bs, nbs, nws, dls := InitialLayers(archIn);
      forall j | 0 <= j < |archIn| - 1 ensures bs[j].rows == archIn[j + 1] && bs[j].cols == 1 {
        assert BuiltLayer(archIn, ws[j], bs[j], nbs[j], nws[j], dls[j], ins[j], j);
      }
      numLayers, arch, activationFun, funs := |archIn|, archIn, a, seq(|archIn| - 1, _ => a);
      weights, activations, wInputs, biases := ws, acts, ins, bs;
      nablaB, nablaW, delta, deltaWrites := nbs, nws, dls, [];
    }

    /** `feedFwd(input)`: activation 0 is the input; weighted input `i` is
      `weights[i] * activations[i] + biases[i]` and activation `i+1` the
      shared activation of it. Layers 0 and 1 are written unguarded, so
      there are at least two layers. */
    method FeedFwd(x: Matrix)
      requires Valid() && numLayers > 1 && x.rows == arch[0] && x.cols == 1
      modifies this
      ensures Valid() && weights == old(weights) && biases == old(biases)
      ensures nablaB == old(nablaB) && nablaW == old(nablaW) && delta == old(delta) && deltaWrites == old(deltaWrites)
      ensures Fed(Params(), x, activations, wInputs)
    {
      ghost var p := Params();
      var acts, ins := activations[0 := x], wInputs;
      ins := ins[0 := AddColumn(MatMul(weights[0], x), biases[0])];
      acts := acts[1 := activationFun.activation(ins[0])];
      for i := 1 to |biases|
        invariant |acts| == numLayers && |ins| == numLayers - 1
        invariant forall k {:trigger acts[k]} | 0 <= k <= i :: acts[k] == Activation(p, x, k)
        invariant forall k {:trigger ins[k]} | 0 <= k < i :: ins[k] == WInput(p, x, k)
      {
        var z := AddColumn(MatMul(weights[i], acts[i]), biases[i]);
        assert z == WInput(p, x, i);
        ins := ins[i := z];
        acts := acts[i + 1 := activationFun.activation(z)];
      }
      activations, wInputs := acts, ins;
    }

    /** `backProp(x, y)`: a forward pass, then the back layer's error from
      `cost_grad(y)`, then for `i = 3 .. num_layers` the error of layer
      `num_layers - i` from the one after it; each error is copied into
      its bias gradient and multiplied by the transposed activation into
      its weight gradient. */
    method BackProp(x: Matrix, y: Matrix)
      requires Valid() && numLayers > 1 && x.rows == arch[0] && x.cols == 1 && y.cols == 1
      modifies this
      ensures Valid() && weights == old(weights) && biases == old(biases)
      ensures Passed(Params(), x, y, activations, wInputs, delta, nablaB, nablaW)
      ensures deltaWrites == old(deltaWrites) + MatrixSequential.Writes(numLayers - 1, numLayers - 1)
    {
      FeedFwd(x);
      ghost var p := Params();
      var grad := CostGrad(y);
      var dl, nb, nw, writes := BackwardPass(Params(), y, grad, activations, wInputs, delta, nablaB, nablaW);
      BackwardResult(p, x, y, activations, wInputs, dl, nb, nw);
      delta, nablaB, nablaW := dl, nb, nw;
      deltaWrites := deltaWrites + writes;
    }

    /** The update loop of `updateBatch`: `weights[i] -= rate*nabla_w[i]`
      and `biases[i] -= rate*nabla_b[i]` for every layer. */
    method ApplyGradients(rate: real)
      requires Valid()
      modifies this
      ensures Valid() && |weights| == |old(weights)|
      ensures forall j | 0 <= j < numLayers - 1 ::
        weights[j] == PlainStep(old(weights[j]), nablaW[j], rate) && biases[j] == PlainStep(old(biases[j]), nablaB[j], rate)
      ensures activations == old(activations) && wInputs == old(wInputs) && delta == old(delta)
      ensures nablaB == old(nablaB) && nablaW == old(nablaW) && deltaWrites == old(deltaWrites)
    {
      var ws, bs := weights, biases;
      for i := 0 to numLayers - 1
        invariant |ws| == |bs| == numLayers - 1
        invariant forall k | 0 <= k < i ::
          ws[k] == PlainStep(weights[k], nablaW[k], rate) && bs[k] == PlainStep(biases[k], nablaB[k], rate)
        invariant forall k | i <= k < numLayers - 1 :: ws[k] == weights[k] && bs[k] == biases[k]
      {
        ws := ws[i := PlainStep(ws[i], nablaW[i], rate)];
        bs := bs[i := PlainStep(bs[i], nablaB[i], rate)];
      }
      weights, biases := ws, bs;
    }

    /** `updateBatch(x, y, lr)`: `backProp` on every sample in turn, then
      one step of size `lr / batch_size` along the gradient buffers. Each
      `backProp` overwrites the buffers, so the step follows the gradient
      of the last sample alone, scaled down by the batch size. */
    method UpdateBatch(xs: seq<Matrix>, ys: seq<Matrix>, lr: real)
      requires Valid() && numLayers > 1 && 0 < |xs| <= |ys|
      requires forall i | 0 <= i < |xs| :: xs[i].rows == arch[0] && xs[i].cols == 1 && ys[i].cols == 1
      modifies this
      ensures Valid()
      ensures Passed(old(Params()), xs[|xs| - 1], ys[|xs| - 1], activations, wInputs, delta, nablaB, nablaW)
      ensures forall j | 0 <= j < numLayers - 1 ::
        && weights[j] == PlainStep(old(weights[j]), NablaW(old(Params()), xs[|xs| - 1], ys[|xs| - 1], OutputError, j),
                                   MatrixSequential.StepSize(lr, |xs|))
        && biases[j] == PlainStep(old(biases[j]), Delta(old(Params()), xs[|xs| - 1], ys[|xs| - 1], OutputError, j),
                                  MatrixSequential.StepSize(lr, |xs|))
      ensures deltaWrites == old(deltaWrites) + Rounds(numLayers - 1, |xs|)
    {
      BackPropAll(xs, ys);
      ApplyGradients(MatrixSequential.StepSize(lr, |xs|));
    }

    /** The sample loop of `updateBatch`: `backProp` on each sample in
      turn, which leaves the buffers of the last one. */
    method BackPropAll(xs: seq<Matrix>, ys: seq<Matrix>)
      requires Valid() && numLayers > 1 && 0 < |xs| <= |ys|
      requires forall i | 0 <= i < |xs| :: xs[i].rows == arch[0] && xs[i].cols == 1 && ys[i].cols == 1
      modifies this
      ensures Valid() && weights == old(weights) && biases == old(biases)
      ensures Passed(Params(), xs[|xs| - 1], ys[|xs| - 1], activations, wInputs, delta, nablaB, nablaW)
      ensures deltaWrites == old(deltaWrites) + Rounds(numLayers - 1, |xs|)
    {
      for i := 0 to |xs|
        invariant Valid() && weights == old(weights) && biases == old(biases)
        invariant i > 0 ==> Passed(Params(), xs[i - 1], ys[i - 1], activations, wInputs, delta, nablaB, nablaW)
        invariant deltaWrites == old(deltaWrites) + Rounds(numLayers - 1, i)
      {
        BackProp(xs[i], ys[i]);
      }
    }

    /** `cost_grad(y)`: the output activation minus the target. */
    function CostGrad(y: Matrix): (g: Matrix)
      requires |activations| > 0
      reads this
      ensures g.Valid() && g.SameShape(activations[|activations| - 1])
      ensures forall r, c | 0 <= r < g.rows && 0 <= c < g.cols ::
        g.At(r, c) == activations[|activations| - 1].At(r, c) - y.At(r, c)
    {
      Sub(activations[|activations| - 1], y)
    }

    /** `cost_grad(y)` times the derivative is the back layer's error
      `OutputError`, so `OutputErrorAtTarget` covers it. */
    lemma CostGradTimesDerivative(y: Matrix, pz: Matrix)
      requires |activations| > 0
      ensures Mul(CostGrad(y), pz) == OutputError(activations[|activations| - 1], y, pz)
    {
    }

    /** `cost_grad(y)` is the zero vector exactly when the output activation
      equals the target. */
    lemma CostGradZeroAtTarget(y: Matrix)
      requires |activations| > 0 && activations[|activations| - 1].Valid() && y.Valid()
      requires y.SameShape(activations[|activations| - 1])
      ensures CostGrad(y) == Constant(y.rows, y.cols, 0.0) <==> activations[|activations| - 1] == y
    {
      SubZeroIffEqual(activations[|activations| - 1], y);
    }

    /** `getLayer(i)`: a copy of activation `i`. */
    method GetLayer(i: int) returns (v: Matrix)
      requires 0 <= i < |activations|
      ensures v == activations[i]
    {
      v := activations[i];
    }
  }
}
