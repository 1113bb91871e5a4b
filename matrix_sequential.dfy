/** src/sequential.h: `Sequential<Scalar>`, a fully connected network that
    keeps one matrix per layer for a whole batch of samples (one sample per
    column) and trains by full-batch gradient descent or by mini-batch
    stochastic gradient descent with weight decay.

    The member vectors become sequence fields that the methods reassign.
    Every pass is proved to leave in its buffers exactly what the `Backprop`
    functions compute from the current parameters, and every training loop
    to leave the parameters that the matching `Backprop` iteration
    produces. */
module MatrixSequential {
  import opened Outcomes
  import opened Matrices
  import opened Backprop
  import Batching

  /** A `CostFun` object; training only uses its gradient
      `grad(output, target, derivative)`. */
  datatype CostFun = CostFun(grad: (Matrix, Matrix, Matrix) -> Matrix)

  /** The indices of the first `m` error matrices `backProp` writes when the
      network has `layers` weight layers: the last layer first, then one
      layer further back each time. */
  function Writes(layers: nat, m: nat): (w: seq<nat>)
    requires m <= layers
    ensures |w| == m
  {
    if m == 0 then [] else Writes(layers, m - 1) + [layers - m]
  }

  /** `backProp` writes every error matrix exactly once, from the back layer
      to the front one. */
  lemma {:induction false} WritesOrder(layers: nat, m: nat)
    requires m <= layers
    ensures forall i | 0 <= i < m :: Writes(layers, m)[i] == layers - 1 - i
    ensures forall i, j | 0 <= i < j < m :: Writes(layers, m)[i] > Writes(layers, m)[j]
    ensures m == layers ==> forall v | 0 <= v < layers :: v in Writes(layers, m)
  {
    if m > 0 {
      WritesOrder(layers, m - 1);
    }
    if m == layers {
      forall v | 0 <= v < layers ensures v in Writes(layers, m) {
        assert Writes(layers, m)[layers - 1 - v] == v;
      }
    }
  }

  /** The first `b` indices of every shuffled order: the single batch each
      epoch of the sampling `SGD` trains on. */
  function Heads(orders: seq<seq<int>>, b: nat): (batches: seq<seq<int>>)
    requires forall k | 0 <= k < |orders| :: b <= |orders[k]|
    ensures |batches| == |orders|
    ensures forall k | 0 <= k < |orders| :: batches[k] == orders[k][..b] && |batches[k]| == b
    decreases |orders|
  {
    if |orders| == 0 then [] else Heads(orders[..|orders| - 1], b) + [orders[|orders| - 1][..b]]
  }

  /** The number of epochs a loop `for (k = 0; k < epochs; k++)` runs. */
  function EpochCount(epochs: int): (n: nat)
    ensures epochs >= 0 ==> n == epochs
    ensures epochs < 0 ==> n == 0
  {
    if epochs < 0 then 0 else epochs
  }

  /** The factor `1 - lr*eta/n` the weights are multiplied by in each
      update: weight decay for `n` samples. */
  function DecayFactor(lr: real, eta: real, n: nat): real
    requires n > 0
  {
    1.0 - lr * eta / n as real
  }

  /** The step size `lr/n` for a gradient summed over `n` samples. */
  function StepSize(lr: real, n: nat): real
    requires n > 0
  {
    lr / n as real
  }

  /** The sample indices `static_cast<int>(y(0, i))` of the first `n`
      columns of the target row. */
  function TargetLabels(y: Matrix, n: nat): (labels: seq<int>)
    ensures |labels| == n && forall i | 0 <= i < n :: labels[i] == Batching.Trunc(y.At(0, i))
  {
    seq(n, i => Batching.Trunc(y.At(0, i)))
  }

  /** The error of layer `j` computed from the buffers `acts` and `ins`
      the forward pass left: the recursion of `Delta`, with `acts[i]` for
      activation `i` and `ins[i]` for weighted input `i`. */
  function BufferDelta(p: Pass, y: Matrix, out: (Matrix, Matrix, Matrix) -> Matrix,
                       acts: seq<Matrix>, ins: seq<Matrix>, j: nat): Matrix
    requires p.Valid() && j < |p.weights| && |acts| == |p.weights| + 1 && |ins| == |p.weights|
    decreases |p.weights| - j
  {
    var last := |p.weights| - 1;
    if j == last then out(acts[last + 1], y, p.funs[last].prime(ins[last]))
    else Mul(MatMul(Transpose(p.weights[j + 1]), BufferDelta(p, y, out, acts, ins, j + 1)), p.funs[j].prime(ins[j]))
  }

  /** When `acts` and `ins` are the forward pass of `x`, the buffer errors
      are the errors `Delta` defines. */
  lemma {:induction false} BufferDeltaIsDelta(p: Pass, x: Matrix, y: Matrix, out: (Matrix, Matrix, Matrix) -> Matrix,
                                              acts: seq<Matrix>, ins: seq<Matrix>, j: nat)
    requires p.Valid() && j < |p.weights|
    requires |acts| == |p.weights| + 1 && |ins| == |p.weights|
    requires forall i {:trigger acts[i]} | 0 <= i < |acts| :: acts[i] == Activation(p, x, i)
    requires forall i {:trigger ins[i]} | 0 <= i < |ins| :: ins[i] == WInput(p, x, i)
    ensures BufferDelta(p, y, out, acts, ins, j) == Delta(p, x, y, out, j)
    decreases |p.weights| - j
  {
    if j < |p.weights| - 1 {
      BufferDeltaIsDelta(p, x, y, out, acts, ins, j + 1);
      assert ins[j] == WInput(p, x, j);
    } else {
      assert acts[j + 1] == Activation(p, x, j + 1) && ins[j] == WInput(p, x, j);
    }
  }

  /** The slots from `from` on hold what the backward half writes there:
      the layer's error, its row sums and its weight gradient. */
  ghost predicate Filled(p: Pass, y: Matrix, out: (Matrix, Matrix, Matrix) -> Matrix, acts: seq<Matrix>, ins: seq<Matrix>,
                         dl: seq<Matrix>, nb: seq<Matrix>, nw: seq<Matrix>, from: nat)
    requires p.Valid() && |acts| == |p.weights| + 1 && |ins| == |p.weights|
  {
    && |dl| == |nb| == |nw| == |p.weights|
    && forall j {:trigger dl[j]} | from <= j < |p.weights| ::
         && dl[j] == BufferDelta(p, y, out, acts, ins, j)
         && nb[j] == RowSum(dl[j])
         && nw[j] == MatMul(dl[j], Transpose(acts[j]))
  }

  /** The backward half of `backProp`, given the activations `acts` and
      weighted inputs `ins` the forward pass left: the back layer's error
      from the cost gradient `out` against `y`, then for
      `i = 3 .. num_layers` the error of layer `num_layers - i` from the
      error after it, each followed by its bias gradient (the row sums) and
      its weight gradient, written into the same slots of `delta`,
      `nabla_b` and `nabla_w`. `writes` lists the error slots in the order
      they are assigned. */
  method BackwardPass(p: Pass, y: Matrix, out: (Matrix, Matrix, Matrix) -> Matrix,
                      acts: seq<Matrix>, ins: seq<Matrix>, delta: seq<Matrix>, nablaB: seq<Matrix>, nablaW: seq<Matrix>)
    returns (dl: seq<Matrix>, nb: seq<Matrix>, nw: seq<Matrix>, ghost writes: seq<nat>)
    requires p.Valid() && |p.weights| > 0
    requires |acts| == |p.weights| + 1 && |ins| == |delta| == |nablaB| == |nablaW| == |p.weights|
    ensures Filled(p, y, out, acts, ins, dl, nb, nw, 0)
    ensures writes == Writes(|p.weights|, |p.weights|)
  {
    dl, nb, nw, writes := BackwardStart(p, y, out, acts, ins, delta, nablaB, nablaW);
    for i := 3 to |p.weights| + 2
      invariant Filled(p, y, out, acts, ins, dl, nb, nw, |p.weights| + 2 - i)
      invariant writes == Writes(|p.weights|, i - 2)
    {
      dl, nb, nw, writes := BackwardStep(p, y, out, acts, ins, dl, nb, nw, writes, i);
    }
  }

  /** The start of the backward half: the back layer's error from the cost
      gradient, then its bias and weight gradients. */
  method BackwardStart(p: Pass, y: Matrix, out: (Matrix, Matrix, Matrix) -> Matrix,
                       acts: seq<Matrix>, ins: seq<Matrix>, delta: seq<Matrix>, nablaB: seq<Matrix>, nablaW: seq<Matrix>)
    returns (dl: seq<Matrix>, nb: seq<Matrix>, nw: seq<Matrix>, ghost writes: seq<nat>)
    requires p.Valid() && |p.weights| > 0
    requires |acts| == |p.weights| + 1 && |ins| == |delta| == |nablaB| == |nablaW| == |p.weights|
    ensures Filled(p, y, out, acts, ins, dl, nb, nw, |p.weights| - 1)
    ensures writes == Writes(|p.weights|, 1)
  {
    var last := |p.weights| - 1;
    dl := delta[|delta| - 1 := out(acts[|acts| - 1], y, p.funs[|p.funs| - 1].prime(ins[|ins| - 1]))];
    writes := [last];
    nb := nablaB[last := RowSum(dl[last])];
    nw := nablaW[last := MatMul(dl[last], Transpose(acts[last]))];
  }

  /** One pass of the backward loop, at `i`: the error of layer
      `num_layers - i` from the one after it, then its bias and weight
      gradients. */
  method BackwardStep(p: Pass, y: Matrix, out: (Matrix, Matrix, Matrix) -> Matrix, acts: seq<Matrix>, ins: seq<Matrix>,
                      dl: seq<Matrix>, nb: seq<Matrix>, nw: seq<Matrix>, ghost writes: seq<nat>, i: nat)
    returns (dl': seq<Matrix>, nb': seq<Matrix>, nw': seq<Matrix>, ghost writes': seq<nat>)
    requires p.Valid() && 3 <= i <= |p.weights| + 1
    requires |acts| == |p.weights| + 1 && |ins| == |p.weights|
    requires Filled(p, y, out, acts, ins, dl, nb, nw, |p.weights| + 2 - i)
    requires writes == Writes(|p.weights|, i - 2)
    ensures Filled(p, y, out, acts, ins, dl', nb', nw', |p.weights| + 1 - i)
    ensures writes' == Writes(|p.weights|, i - 1)
  {
    var j := |p.weights| + 1 - i;
    dl' := dl[j := Mul(MatMul(Transpose(p.weights[j + 1]), dl[j + 1]), p.funs[j].prime(ins[j]))];
    nb' := nb[j := RowSum(dl'[j])];
    nw' := nw[j := MatMul(dl'[j], Transpose(acts[j]))];
    writes' := writes + [j];
  }

  /** With the activations and weighted inputs of the forward pass of `x`
      in the buffers, the filled slots are the errors and weight gradients
      `Delta` and `NablaW` define. */
  lemma BackwardResult(p: Pass, x: Matrix, y: Matrix, out: (Matrix, Matrix, Matrix) -> Matrix,
                       acts: seq<Matrix>, ins: seq<Matrix>, dl: seq<Matrix>, nb: seq<Matrix>, nw: seq<Matrix>)
    requires p.Valid() && 0 < |p.weights|
    requires |acts| == |p.weights| + 1 && |ins| == |p.weights|
    requires forall i {:trigger acts[i]} | 0 <= i < |acts| :: acts[i] == Activation(p, x, i)
    requires forall i {:trigger ins[i]} | 0 <= i < |ins| :: ins[i] == WInput(p, x, i)
    requires Filled(p, y, out, acts, ins, dl, nb, nw, 0)
    ensures forall j {:trigger dl[j]} | 0 <= j < |dl| :: dl[j] == Delta(p, x, y, out, j)
    ensures forall j {:trigger nb[j]} | 0 <= j < |nb| :: nb[j] == RowSum(dl[j])
    ensures forall j {:trigger nw[j]} | 0 <= j < |nw| :: nw[j] == NablaW(p, x, y, out, j)
  {
    forall j | 0 <= j < |dl| ensures dl[j] == Delta(p, x, y, out, j) && nw[j] == NablaW(p, x, y, out, j) {
      BufferDeltaIsDelta(p, x, y, out, acts, ins, j);
      assert acts[j] == Activation(p, x, j);
    }
  }

  /** Layer `j` as the constructor sets it up: an `arch[j+1] x arch[j]`
      weight matrix and an `arch[j+1] x 1` bias column of the draws for
      layer `j`, and two gradient slots of the same shapes. Eigen leaves
      the slots uninitialised, so only their shapes are promised. */
  ghost predicate DrawnLayer(arch: seq<nat>, sampleW: (nat, int, int) -> real, sampleB: (nat, int) -> real,
                             w: Matrix, b: Matrix, nb: Matrix, nw: Matrix, j: nat)
    requires j + 1 < |arch|
  {
    && w.rows == arch[j + 1] && w.cols == arch[j]
    && (forall r, k | 0 <= r < arch[j + 1] && 0 <= k < arch[j] :: w.At(r, k) == sampleW(j, r, k))
    && b.rows == arch[j + 1] && b.cols == 1
    && (forall r | 0 <= r < arch[j + 1] :: b.At(r, 0) == sampleB(j, r))
    && nb.rows == arch[j + 1] && nb.cols == 1 && nw.rows == arch[j + 1] && nw.cols == arch[j]
  }

  /** The layer loop of the constructor: every layer after the input set up
      as `DrawnLayer` says. */
  method InitialLayers(arch: seq<nat>, sampleW: (nat, int, int) -> real, sampleB: (nat, int) -> real)
    returns (ws: seq<Matrix>, bs: seq<Matrix>, nbs: seq<Matrix>, nws: seq<Matrix>)
    requires |arch| > 0
    ensures |ws| == |bs| == |nbs| == |nws| == |arch| - 1
    ensures forall j {:trigger ws[j]} | 0 <= j < |arch| - 1 :: DrawnLayer(arch, sampleW, sampleB, ws[j], bs[j], nbs[j], nws[j], j)
  {
    ws, bs, nbs, nws := [], [], [], [];
    for i := 1 to |arch|
      invariant |ws| == |bs| == |nbs| == |nws| == i - 1
      invariant forall j {:trigger ws[j]} | 0 <= j < i - 1 :: DrawnLayer(arch, sampleW, sampleB, ws[j], bs[j], nbs[j], nws[j], j)
    {
      var layer: nat := i - 1;
      var w := Build(arch[i], arch[i - 1], (r, k) => sampleW(layer, r, k));
      var b := Build(arch[i], 1, (r, k) => sampleB(layer, r));
      var nb, nw := Constant(arch[i], 1, 0.0), Constant(arch[i], arch[i - 1], 0.0);
      assert DrawnLayer(arch, sampleW, sampleB, w, b, nb, nw, layer);
      ws, bs, nbs, nws := ws + [w], bs + [b], nbs + [nb], nws + [nw];
    }
  }

  class Sequential {
    const numLayers: nat
    const arch: seq<nat>
    const costFun: CostFun

    var weights: seq<Matrix>
    var biases: seq<Matrix>
    var activations: seq<Matrix>
    var wInputs: seq<Matrix>
    var nablaB: seq<Matrix>
    var nablaW: seq<Matrix>
    var delta: seq<Matrix>
    var activationFun: seq<ActivationFun>
    /** The indices of `delta` in the order `backProp` assigns them. */
    ghost var deltaWrites: seq<nat>

    /** One weight matrix `arch[i+1] x arch[i]`, one bias column and one
      gradient slot of each kind per layer after the input. */
    predicate Valid()
      reads this
    {
      && numLayers == |arch| > 0
      && |weights| == |biases| == |nablaB| == |nablaW| == |activationFun| == numLayers - 1
      && (forall i | 0 <= i < numLayers - 1 :: weights[i].rows == arch[i + 1] && weights[i].cols == arch[i])
      && (forall i | 0 <= i < numLayers - 1 :: biases[i].rows == arch[i + 1] && biases[i].cols == 1)
    }

    /** The network as the `Backprop` functions see it. */
    function Params(): Pass
      reads this
    {
      Pass(weights, biases, activationFun)
    }

    /** The parameters, the activation objects and the gradient slots are
      those of `old`. */
    twostate predicate ParamsKept()
      reads this
    {
      weights == old(weights) && biases == old(biases) && activationFun == old(activationFun)
    }

    /** The activations are the forward pass of `x` under the current
      parameters. */
    ghost predicate Forwarded(x: Matrix)
      requires Valid()
      reads this
    {
      |activations| >= numLayers
      && forall i {:trigger activations[i]} | 0 <= i < numLayers :: activations[i] == Activation(Params(), x, i)
    }

    lemma ValidLayered()
      requires Valid()
      ensures Params().Valid() && Layered(Params(), arch)
    {
    }

    /** The constructor: for each layer after the input, a weight matrix and
      a bias column filled by the normal sampler (`sampleW(i, r, c)` and
      `sampleB(i, r)` are the draws for layer `i`), two gradient slots of
      the same shapes, and the shared activation object `a`; with
      `use_softmax` the back layer's activation is replaced by `softmax`.
      `arch.front()` is read unguarded, and with `use_softmax` so is
      `activationFun.back()`. */
    constructor(archIn: seq<nat>, a: ActivationFun, c: CostFun, useSoftmax: bool, softmax: ActivationFun,
                sampleW: (nat, int, int) -> real, sampleB: (nat, int) -> real)
      requires |archIn| > 0 && (useSoftmax ==> |archIn| > 1)
      ensures Valid() && numLayers == |archIn| && arch == archIn && costFun == c
      ensures forall i {:trigger weights[i]} | 0 <= i < numLayers - 1 ::
        DrawnLayer(arch, sampleW, sampleB, weights[i], biases[i], nablaB[i], nablaW[i], i)
      ensures forall i | 0 <= i < numLayers - 1 ::
        activationFun[i] == (if useSoftmax && i == numLayers - 2 then softmax else a)
      ensures activations == [] && wInputs == [] && delta == [] && deltaWrites == []
    {
      var ws, bs, nbs, nws := InitialLayers(archIn, sampleW, sampleB);
      forall i | 0 <= i < |archIn| - 1 ensures bs[i].rows == archIn[i + 1] && bs[i].cols == 1 {
        assert DrawnLayer(archIn, sampleW, sampleB, ws[i], bs[i], nbs[i], nws[i], i);
      }
      var funs := seq(|archIn| - 1, _ => a);
      if useSoftmax {
        funs := funs[|funs| - 1 := softmax];
      }
      numLayers, arch, costFun := |archIn|, archIn, c;
      weights, biases, nablaB, nablaW, activationFun := ws, bs, nbs, nws, funs;
      activations, wInputs, delta, deltaWrites := [], [], [], [];
    }

    /** `initGD(n_samples)`: appends one `arch[0] x n` activation buffer,
      then for every later layer an error, an activation and a weighted
      input buffer `arch[i] x n`. The buffers are appended, not replaced;
      Eigen leaves them uninitialised, so only their shapes are promised. */
    method InitGD(samples: nat)
      requires Valid()
      modifies this
      ensures Valid() && ParamsKept()
      ensures nablaB == old(nablaB) && nablaW == old(nablaW) && deltaWrites == old(deltaWrites)
      ensures |activations| == |old(activations)| + numLayers && activations[..|old(activations)|] == old(activations)
      ensures forall i | |old(activations)| <= i < |activations| ::
        activations[i].rows == arch[i - |old(activations)|] && activations[i].cols == samples
      ensures |wInputs| == |old(wInputs)| + numLayers - 1 && wInputs[..|old(wInputs)|] == old(wInputs)
      ensures |delta| == |old(delta)| + numLayers - 1 && delta[..|old(delta)|] == old(delta)
      ensures forall i | |old(wInputs)| <= i < |wInputs| ::
        wInputs[i].rows == arch[i - |old(wInputs)| + 1] && wInputs[i].cols == samples
      ensures forall i | |old(delta)| <= i < |delta| ::
        delta[i].rows == arch[i - |old(delta)| + 1] && delta[i].cols == samples
    {
      var acts, ins, dl := [Constant(arch[0], samples, 0.0)], [], [];
      for i := 1 to numLayers
        invariant |acts| == i && |ins| == |dl| == i - 1
        invariant forall k | 0 <= k < i :: acts[k] == Constant(arch[k], samples, 0.0)
        invariant forall k | 0 <= k < i - 1 ::
          ins[k] == Constant(arch[k + 1], samples, 0.0) && dl[k] == Constant(arch[k + 1], samples, 0.0)
      {
        dl := dl + [Constant(arch[i], samples, 0.0)];
        acts := acts + [Constant(arch[i], samples, 0.0)];
        ins := ins + [Constant(arch[i], samples, 0.0)];
      }
      activations, wInputs, delta := activations + acts, wInputs + ins, delta + dl;
    }

    /** `feedFwd(input)`: activation 0 is the input; weighted input `i` is
      `weights[i] * activations[i]` with the bias added to every column,
      and activation `i+1` is layer `i`'s activation of it. Layers 0 and 1
      are written unguarded, so there are at least two layers. */
    method FeedFwd(x: Matrix)
      requires Valid() && numLayers > 1 && x.rows == arch[0]
      requires |activations| >= numLayers && |wInputs| >= numLayers - 1
      modifies this
      ensures Valid() && ParamsKept()
      ensures nablaB == old(nablaB) && nablaW == old(nablaW) && delta == old(delta) && deltaWrites == old(deltaWrites)
      ensures |activations| == |old(activations)| && |wInputs| == |old(wInputs)|
      ensures forall i {:trigger activations[i]} | 0 <= i < numLayers :: activations[i] == Activation(Params(), x, i)
      ensures forall i {:trigger wInputs[i]} | 0 <= i < numLayers - 1 :: wInputs[i] == WInput(Params(), x, i)
      ensures forall i | numLayers <= i < |activations| :: activations[i] == old(activations[i])
      ensures forall i | numLayers - 1 <= i < |wInputs| :: wInputs[i] == old(wInputs[i])
    {
      ghost var p := Params();
      var acts, ins := activations[0 := x], wInputs;
      ins := ins[0 := AddColumn(MatMul(weights[0], x), biases[0])];
      acts := acts[1 := activationFun[0].activation(ins[0])];
      for i := 1 to numLayers - 1
        invariant |acts| == |activations| && |ins| == |wInputs|
        invariant forall k {:trigger acts[k]} | 0 <= k <= i :: acts[k] == Activation(p, x, k)
        invariant forall k {:trigger ins[k]} | 0 <= k < i :: ins[k] == WInput(p, x, k)
        invariant forall k | numLayers <= k < |acts| :: acts[k] == activations[k]
        invariant forall k | numLayers - 1 <= k < |ins| :: ins[k] == wInputs[k]
      {
        var z := AddColumn(MatMul(weights[i], acts[i]), biases[i]);
        assert z == WInput(p, x, i);
        ins := ins[i := z];
        acts := acts[i + 1 := activationFun[i].activation(z)];
      }
      activations, wInputs := acts, ins;
      assert Params() == p;
    }

    /** `backProp(x, y)`: a forward pass, then the back layer's error from
      the cost gradient, then for `i = 3 .. num_layers` the error of layer
      `num_layers - i` from the one after it; each error is followed by its
      bias gradient (the row sums) and its weight gradient. The buffers are
      those of a single `initGD`. */
    method BackProp(x: Matrix, y: Matrix)
      requires Valid() && numLayers > 1 && x.rows == arch[0]
      requires |activations| == numLayers && |wInputs| == |delta| == numLayers - 1
      modifies this
      ensures Valid() && ParamsKept()
      ensures |activations| == numLayers && |wInputs| == |delta| == numLayers - 1
      ensures forall i {:trigger activations[i]} | 0 <= i < numLayers :: activations[i] == Activation(Params(), x, i)
      ensures forall i {:trigger wInputs[i]} | 0 <= i < numLayers - 1 :: wInputs[i] == WInput(Params(), x, i)
      ensures forall j {:trigger delta[j]} | 0 <= j < numLayers - 1 :: delta[j] == Delta(Params(), x, y, costFun.grad, j)
      ensures forall j {:trigger nablaB[j]} | 0 <= j < numLayers - 1 :: nablaB[j] == RowSum(delta[j])
      ensures forall j {:trigger nablaW[j]} | 0 <= j < numLayers - 1 :: nablaW[j] == NablaW(Params(), x, y, costFun.grad, j)
      ensures deltaWrites == old(deltaWrites) + Writes(numLayers - 1, numLayers - 1)
    {
      FeedFwd(x);
      var p := Params();
      var dl, nb, nw, writes := BackwardPass(p, y, costFun.grad, activations, wInputs, delta, nablaB, nablaW);
      BackwardResult(p, x, y, costFun.grad, activations, wInputs, dl, nb, nw);
      delta, nablaB, nablaW := dl, nb, nw;
      deltaWrites := deltaWrites + writes;
    }

    /** The update loop shared by the training methods: for every layer
      `weights[i] = weights[i]*keep - rate*nabla_w[i]` and
      `biases[i] -= rate*nabla_b[i]`. */
    method UpdateParams(keep: real, rate: real)
      requires Valid()
      modifies this
      ensures Valid() && activationFun == old(activationFun)
      ensures |weights| == |old(weights)| && |biases| == |old(biases)|
      ensures forall i | 0 <= i < numLayers - 1 ::
        weights[i] == DecayStep(old(weights[i]), nablaW[i], keep, rate)
        && biases[i] == PlainStep(old(biases[i]), nablaB[i], rate)
      ensures activations == old(activations) && wInputs == old(wInputs) && delta == old(delta)
      ensures nablaB == old(nablaB) && nablaW == old(nablaW) && deltaWrites == old(deltaWrites)
    {
      var ws, bs := weights, biases;
      for i := 0 to numLayers - 1
        invariant |ws| == |bs| == numLayers - 1
        invariant forall k | 0 <= k < i ::
          ws[k] == DecayStep(weights[k], nablaW[k], keep, rate) && bs[k] == PlainStep(biases[k], nablaB[k], rate)
        invariant forall k | i <= k < numLayers - 1 :: ws[k] == weights[k] && bs[k] == biases[k]
      {
        ws := ws[i := DecayStep(ws[i], nablaW[i], keep, rate)];
        bs := bs[i := PlainStep(bs[i], nablaB[i], rate)];
      }
      weights, biases := ws, bs;
    }

    /** One training step on the batch `(x, y)`: `backProp` followed by the
      update loop. The new parameters are one `GradientStep` from the old
      ones. */
    method TrainStep(x: Matrix, y: Matrix, keep: real, rate: real)
      requires Valid() && numLayers > 1 && x.rows == arch[0]
      requires |activations| == numLayers && |wInputs| == |delta| == numLayers - 1
      modifies this
      ensures Valid() && |activations| == numLayers && |wInputs| == |delta| == numLayers - 1
      ensures Params() == GradientStep(old(Params()), x, y, costFun.grad, keep, rate)
    {
      ghost var p := Params();
      BackProp(x, y);
      UpdateParams(keep, rate);
      GradientStepFrom(p, x, y, costFun.grad, keep, rate, weights, biases);
    }

    /** Epoch `k + 1` of full-batch descent from `p0`: one training step on
      the parameters after `k` epochs. */
    method DescendStep(x: Matrix, y: Matrix, keep: real, rate: real, ghost p0: Pass, ghost k: nat)
      requires Valid() && numLayers > 1 && x.rows == arch[0]
      requires |activations| == numLayers && |wInputs| == |delta| == numLayers - 1
      requires p0.Valid() && Params() == Descend(p0, x, y, costFun.grad, k, keep, rate)
      modifies this
      ensures Valid() && |activations| == numLayers && |wInputs| == |delta| == numLayers - 1
      ensures Params() == Descend(p0, x, y, costFun.grad, k + 1, keep, rate)
    {
      TrainStep(x, y, keep, rate);
    }

    /** Batch `m` of a run from `p0`: one training step on the columns
      `subIndices = batches[m]` selects, applied to the parameters after the
      first `m` batches. */
    method BatchStep(x: Matrix, y: Matrix, subIndices: seq<int>, keep: real, rate: real,
                     ghost p0: Pass, ghost batches: seq<seq<int>>, ghost m: nat)
      requires Valid() && numLayers > 1 && x.rows == arch[0]
      requires |activations| == numLayers && |wInputs| == |delta| == numLayers - 1
      requires m < |batches| && subIndices == batches[m]
      requires p0.Valid() && Params() == BatchSteps(p0, x, y, costFun.grad, batches, m, keep, rate)
      modifies this
      ensures Valid() && |activations| == numLayers && |wInputs| == |delta| == numLayers - 1
      ensures Params() == BatchSteps(p0, x, y, costFun.grad, batches, m + 1, keep, rate)
    {
      TrainStep(Columns(x, subIndices), Columns(y, subIndices), keep, rate);
    }

    /** One epoch of the second `GD`: the training step, then the forward
      pass over `valX`. */
    method ValidatedStep(x: Matrix, y: Matrix, keep: real, rate: real, valX: Matrix, ghost p0: Pass, ghost k: nat)
      requires Valid() && numLayers > 1 && x.rows == arch[0] && valX.rows == arch[0]
      requires |activations| == numLayers && |wInputs| == |delta| == numLayers - 1
      requires p0.Valid() && Params() == Descend(p0, x, y, costFun.grad, k, keep, rate)
      modifies this
      ensures Valid() && |activations| == numLayers && |wInputs| == |delta| == numLayers - 1
      ensures Params() == Descend(p0, x, y, costFun.grad, k + 1, keep, rate)
      ensures Forwarded(valX)
    {
      DescendStep(x, y, keep, rate, p0, k);
      FeedFwd(valX);
    }

    /** One epoch of the sampling `SGD`: the training step on the batch
      `subIndices = batches[m]`, then the forward pass over its columns. */
    method SampleStep(x: Matrix, y: Matrix, subIndices: seq<int>, keep: real, rate: real,
                      ghost p0: Pass, ghost batches: seq<seq<int>>, ghost m: nat)
      requires Valid() && numLayers > 1 && x.rows == arch[0]
      requires |activations| == numLayers && |wInputs| == |delta| == numLayers - 1
      requires m < |batches| && subIndices == batches[m]
      requires p0.Valid() && Params() == BatchSteps(p0, x, y, costFun.grad, batches, m, keep, rate)
      modifies this
      ensures Valid() && |activations| == numLayers && |wInputs| == |delta| == numLayers - 1
      ensures Params() == BatchSteps(p0, x, y, costFun.grad, batches, m + 1, keep, rate)
    {
      BatchStep(x, y, subIndices, keep, rate, p0, batches, m);
      FeedFwd(Columns(x, subIndices));
    }

    /** The first `GD(x, y, epochs, lr, eta)`: `initGD` for all columns of
      `x`, then per epoch one `backProp` over the whole set and one update
      with `keep = 1 - lr*eta/n` and `rate = lr/n`. Training starts on a
      network whose buffers `initGD` has not yet appended. The step sizes
      divide by the sample count inside the epoch loop, so an empty set is
      harmless only when no epoch runs. */
    method GD(x: Matrix, y: Matrix, epochs: int, lr: real, eta: real)
      requires Valid() && numLayers > 1 && x.rows == arch[0] && (x.cols > 0 || epochs <= 0)
      requires activations == [] && wInputs == [] && delta == []
      modifies this
      ensures Valid()
      ensures x.cols > 0 ==> Params() == Descend(old(Params()), x, y, costFun.grad, EpochCount(epochs),
                                                 DecayFactor(lr, eta, x.cols), StepSize(lr, x.cols))
      ensures epochs <= 0 ==> Params() == old(Params())
    {
      InitGD(x.cols);
      ghost var p := Params();
      if epochs > 0 {
        var keep, rate := DecayFactor(lr, eta, x.cols), StepSize(lr, x.cols);
        var k := 0;
        while k < epochs
          invariant 0 <= k <= epochs
          invariant Valid() && |activations| == numLayers && |wInputs| == |delta| == numLayers - 1
          invariant Params() == Descend(p, x, y, costFun.grad, k, keep, rate)
        {
          DescendStep(x, y, keep, rate, p, k);
          k := k + 1;
        }
      }
      assert p == old(Params());
    }

    /** The second `GD`, which after every update also runs
      `accuracy(val_x, val_y)`; the value is only printed, so what remains
      of it is its forward pass over `val_x`. */
    method GDValidated(x: Matrix, y: Matrix, epochs: int, lr: real, eta: real, valX: Matrix)
      requires Valid() && numLayers > 1 && x.rows == arch[0] && (x.cols > 0 || epochs <= 0) && valX.rows == arch[0]
      requires activations == [] && wInputs == [] && delta == []
      modifies this
      ensures Valid()
      ensures x.cols > 0 ==> Params() == Descend(old(Params()), x, y, costFun.grad, EpochCount(epochs),
                                                 DecayFactor(lr, eta, x.cols), StepSize(lr, x.cols))
      ensures epochs <= 0 ==> Params() == old(Params())
      ensures |activations| == numLayers
      ensures epochs > 0 ==> Forwarded(valX)
    {
      InitGD(x.cols);
      ghost var p := Params();
      if epochs > 0 {
        var keep, rate := DecayFactor(lr, eta, x.cols), StepSize(lr, x.cols);
        var k := 0;
        while k < epochs
          invariant 0 <= k <= epochs
          invariant Valid() && |activations| == numLayers && |wInputs| == |delta| == numLayers - 1
          invariant Params() == Descend(p, x, y, costFun.grad, k, keep, rate)
          invariant k > 0 ==> Forwarded(valX)
        {
          ValidatedStep(x, y, keep, rate, valX, p, k);
          k := k + 1;
        }
      }
      assert p == old(Params());
    }

    /** The first `SGD(x, y, epochs, batch_size, lr, eta)`: `initGD` for one
      batch, then per epoch a shuffle of the sample indices (`orders[k]` is
      the order after the `k`-th shuffle), one step on the first
      `batch_size` of them with `keep = 1 - lr*eta/batch_size` and
      `rate = lr/batch_size`, and a forward pass over that batch for the
      printed cost. `copy_n` reads `batch_size` indices, so there must be
      that many samples. */
    method SGDSample(x: Matrix, y: Matrix, epochs: int, batchSize: int, lr: real, eta: real, orders: seq<seq<int>>)
      requires Valid() && numLayers > 1 && x.rows == arch[0]
      requires 0 < batchSize <= x.cols <= y.cols
      requires activations == [] && wInputs == [] && delta == []
      requires |orders| == EpochCount(epochs)
      requires forall k | 0 <= k < |orders| :: |orders[k]| == x.cols
      requires forall k | 0 <= k < |orders| :: Batching.IsShuffle(orders[k], x.cols)
      modifies this
      ensures Valid()
      ensures Params() == BatchSteps(old(Params()), x, y, costFun.grad, Heads(orders, batchSize), |orders|,
                                     DecayFactor(lr, eta, batchSize), StepSize(lr, batchSize))
    {
      var keep, rate := DecayFactor(lr, eta, batchSize), StepSize(lr, batchSize);
      InitGD(batchSize);
      SampleEpochs(x, y, keep, rate, Heads(orders, batchSize));
    }

    /** The epoch loop of the sampling `SGD`: epoch `k` trains on
      `heads[k]`, the first `batch_size` indices of the `k`-th shuffle. */
    method SampleEpochs(x: Matrix, y: Matrix, keep: real, rate: real, heads: seq<seq<int>>)
      requires Valid() && numLayers > 1 && x.rows == arch[0]
      requires |activations| == numLayers && |wInputs| == |delta| == numLayers - 1
      modifies this
      ensures Valid()
      ensures Params() == BatchSteps(old(Params()), x, y, costFun.grad, heads, |heads|, keep, rate)
    {
      ghost var p := Params();
      for k := 0 to |heads|
        invariant Valid() && |activations| == numLayers && |wInputs| == |delta| == numLayers - 1
        invariant Params() == BatchSteps(p, x, y, costFun.grad, heads, k, keep, rate)
      {
        SampleStep(x, y, heads[k], keep, rate, p, heads, k);
      }
    }

    /** The second `SGD`, with validation data: per epoch a shuffle, the
      mini-batch loop `for (l = 0; l < train_size - batch_size; l += batch_size)`
      with one step per batch, and `accuracy(val_x, val_y)`, of which only
      the forward pass over `val_x` leaves a trace (its value is printed).
      The bound is computed in `size_t`, so a training set smaller than one
      batch makes it wrap; that case is excluded. */
    method SGD(x: Matrix, y: Matrix, epochs: int, batchSize: int, lr: real, eta: real,
               valX: Matrix, orders: seq<seq<int>>)
      requires Valid() && numLayers > 1 && x.rows == arch[0] && valX.rows == arch[0]
      requires 0 < batchSize <= x.cols <= y.cols
      requires activations == [] && wInputs == [] && delta == []
      requires |orders| == EpochCount(epochs)
      requires forall k | 0 <= k < |orders| :: |orders[k]| == x.cols
      requires forall k | 0 <= k < |orders| :: Batching.IsShuffle(orders[k], x.cols)
      modifies this
      ensures Valid()
      ensures Params() == EpochSteps(old(Params()), x, y, costFun.grad, orders, |orders|, batchSize,
                                     DecayFactor(lr, eta, batchSize), StepSize(lr, batchSize))
      ensures |activations| == numLayers
      ensures |orders| > 0 ==> Forwarded(valX)
    {
      var keep, rate := DecayFactor(lr, eta, batchSize), StepSize(lr, batchSize);
      InitGD(batchSize);
      SGDEpochs(x, y, orders, batchSize, keep, rate, valX);
    }

    /** The epoch loop of the validated `SGD`. */
    method SGDEpochs(x: Matrix, y: Matrix, orders: seq<seq<int>>, batchSize: nat, keep: real, rate: real, valX: Matrix)
      requires Valid() && numLayers > 1 && x.rows == arch[0] && valX.rows == arch[0] && 0 < batchSize
      requires forall k | 0 <= k < |orders| :: batchSize <= |orders[k]|
      requires |activations| == numLayers && |wInputs| == |delta| == numLayers - 1
      modifies this
      ensures Valid() && |activations| == numLayers
      ensures Params() == EpochSteps(old(Params()), x, y, costFun.grad, orders, |orders|, batchSize, keep, rate)
      ensures |orders| > 0 ==> Forwarded(valX)
    {
      ghost var p := Params();
      for k := 0 to |orders|
        invariant Valid() && |activations| == numLayers && |wInputs| == |delta| == numLayers - 1
        invariant Params() == EpochSteps(p, x, y, costFun.grad, orders, k, batchSize, keep, rate)
        invariant k > 0 ==> Forwarded(valX)
      {
        SGDEpoch(x, y, orders, k, batchSize, keep, rate, valX, p);
      }
    }

    /** Epoch `k` of the validated `SGD` from `p0`: the mini-batch loop over
      the `k`-th shuffle, then the forward pass over `valX`. */
    method SGDEpoch(x: Matrix, y: Matrix, orders: seq<seq<int>>, k: nat, batchSize: nat, keep: real, rate: real,
                    valX: Matrix, ghost p0: Pass)
      requires Valid() && numLayers > 1 && x.rows == arch[0] && valX.rows == arch[0]
      requires k < |orders| && 0 < batchSize <= |orders[k]|
      requires |activations| == numLayers && |wInputs| == |delta| == numLayers - 1
      requires p0.Valid() && Params() == EpochSteps(p0, x, y, costFun.grad, orders, k, batchSize, keep, rate)
      modifies this
      ensures Valid() && |activations| == numLayers && |wInputs| == |delta| == numLayers - 1
      ensures Params() == EpochSteps(p0, x, y, costFun.grad, orders, k + 1, batchSize, keep, rate)
      ensures Forwarded(valX)
    {
      RunBatches(x, y, orders[k], batchSize, keep, rate);
      FeedFwd(valX);
    }

    /** The mini-batch loop of one epoch over the shuffled `indices`: while
      `l < train_size - batch_size`, the batch `indices[l .. l+batch)` is
      copied out and one step is taken on the columns it selects. */
    method RunBatches(x: Matrix, y: Matrix, indices: seq<int>, batchSize: nat, keep: real, rate: real)
      requires Valid() && numLayers > 1 && x.rows == arch[0] && 0 < batchSize <= |indices|
      requires |activations| == numLayers && |wInputs| == |delta| == numLayers - 1
      modifies this
      ensures Valid() && |activations| == numLayers && |wInputs| == |delta| == numLayers - 1
      ensures Params() == BatchSteps(old(Params()), x, y, costFun.grad, Batching.Batches(indices, batchSize),
                                     |Batching.Batches(indices, batchSize)|, keep, rate)
    {
      var train := |indices|;
      ghost var p := Params();
      ghost var batches := Batching.Batches(indices, batchSize);
      var l := 0;
      ghost var m := 0;
      while l < train - batchSize
        invariant Valid() && |activations| == numLayers && |wInputs| == |delta| == numLayers - 1
        invariant l == m * batchSize && m <= |batches|
        invariant Params() == BatchSteps(p, x, y, costFun.grad, batches, m, keep, rate)
        decreases train - l
      {
        NextBatch(x, y, indices, batchSize, l, keep, rate, p, batches, m);
        assert (m + 1) * batchSize == l + batchSize;
        l := l + batchSize;
        m := m + 1;
      }
      Batching.BatchRuns(indices, batchSize, m);
      assert m == |batches|;
      assert p == old(Params());
    }

    /** One pass of the mini-batch loop at `l = m * batch_size`: the batch
      `indices[l .. l+batch)` is batch `m`, and one step is taken on it. */
    method NextBatch(x: Matrix, y: Matrix, indices: seq<int>, batchSize: nat, l: nat, keep: real, rate: real,
                     ghost p0: Pass, ghost batches: seq<seq<int>>, ghost m: nat)
      requires Valid() && numLayers > 1 && x.rows == arch[0] && 0 < batchSize <= |indices|
      requires |activations| == numLayers && |wInputs| == |delta| == numLayers - 1
      requires batches == Batching.Batches(indices, batchSize) && l == m * batchSize && l < |indices| - batchSize
      requires p0.Valid() && m <= |batches| && Params() == BatchSteps(p0, x, y, costFun.grad, batches, m, keep, rate)
      modifies this
      ensures Valid() && |activations| == numLayers && |wInputs| == |delta| == numLayers - 1
      ensures m < |batches| && Params() == BatchSteps(p0, x, y, costFun.grad, batches, m + 1, keep, rate)
    {
      Batching.BatchRuns(indices, batchSize, m);
      Batching.BatchAt(indices, batchSize, 0, m);
      var subIndices := indices[l .. l + batchSize];
      BatchStep(x, y, subIndices, keep, rate, p0, batches, m);
    }

    /** `accuracy(x, y)`: a forward pass over `x`, then the count of columns
      of the output whose first largest entry is at row
      `static_cast<int>(y(0, i))`, divided by the number of columns.
      `maxCoeff` needs a non-empty column, so the output layer has at least
      one unit and the activations keep shapes. */
    method Accuracy(x: Matrix, y: Matrix) returns (r: Option<real>)
      requires Valid() && numLayers > 1 && x.rows == arch[0] && arch[numLayers - 1] > 0
      requires ShapePreserving(Params())
      requires |activations| == numLayers && |wInputs| >= numLayers - 1
      modifies this
      ensures Valid() && ParamsKept() && |activations| == numLayers
      ensures forall i {:trigger activations[i]} | 0 <= i < numLayers :: activations[i] == Activation(Params(), x, i)
      ensures activations[numLayers - 1].rows == arch[numLayers - 1] && activations[numLayers - 1].cols == x.cols
      ensures r == Batching.Ratio(Batching.Matches(Batching.PredictedLabels(activations[numLayers - 1]),
                                                   TargetLabels(y, x.cols)), x.cols)
      ensures r.Some? <==> x.cols > 0
      ensures r.Some? ==> 0.0 <= r.value <= 1.0
    {
      FeedFwd(x);
      ActivationShape(Params(), arch, x, numLayers - 1);
      var pred := activations[|activations| - 1];
      var sum := Batching.CountCorrect(pred, TargetLabels(y, x.cols));
      r := Batching.Ratio(sum, x.cols);
    }

    /** `getLayer(i)`: activation `i`, converted to a column vector, which
      needs a single column. */
    method GetLayer(i: int) returns (v: Matrix)
      requires 0 <= i < |activations| && activations[i].cols == 1
      ensures v == activations[i] && v.cols == 1
    {
      v := activations[i];
    }
  }
}
