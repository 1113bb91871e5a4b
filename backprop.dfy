/** What the forward and backward passes of the fully connected networks
    (src/sequential.h, sequential.h, sequential2.h) compute, written as
    functions of the parameters and one input batch. The classes modelling
    those files run the passes as loops over their member vectors and are
    proved to produce exactly these values.

    Layer `i` (for `i < |weights|`) maps activation `i` to activation
    `i + 1`: the weighted input is `weights[i] * activation(i)` plus the bias
    column, and the activation function of layer `i` is applied to it. */
module Backprop {
  import opened Matrices
  import Batching

  /** An activation function object: the activation and its derivative,
      both applied to a whole matrix of weighted inputs. */
  datatype ActivationFun = ActivationFun(activation: Matrix -> Matrix, prime: Matrix -> Matrix)

  /** The parameters of a network and the activation function object of
      each layer. */
  datatype Pass = Pass(weights: seq<Matrix>, biases: seq<Matrix>, funs: seq<ActivationFun>)
  {
    predicate Valid() { |weights| == |biases| == |funs| }
  }

  /** The weighted input of layer `i`. */
  function WInput(p: Pass, x: Matrix, i: nat): Matrix
    requires p.Valid() && i < |p.weights|
    decreases i, 1
  {
    AddColumn(MatMul(p.weights[i], Activation(p, x, i)), p.biases[i])
  }

  /** Activation `i`; activation 0 is the input itself. */
  function Activation(p: Pass, x: Matrix, i: nat): Matrix
    requires p.Valid() && i <= |p.weights|
    decreases i, 0
  {
    if i == 0 then x else p.funs[i - 1].activation(WInput(p, x, i - 1))
  }

  /** The error of layer `j`. The last layer's comes from the cost gradient
      `out(output, target, derivative)`; every earlier one is the next
      layer's error pulled back through its transposed weights and
      multiplied element-wise by the derivative of the activation. */
  function Delta(p: Pass, x: Matrix, y: Matrix, out: (Matrix, Matrix, Matrix) -> Matrix, j: nat): Matrix
    requires p.Valid() && j < |p.weights|
    decreases |p.weights| - j
  {
    var last := |p.weights| - 1;
    if j == last then out(Activation(p, x, last + 1), y, p.funs[last].prime(WInput(p, x, last)))
    else Mul(MatMul(Transpose(p.weights[j + 1]), Delta(p, x, y, out, j + 1)), p.funs[j].prime(WInput(p, x, j)))
  }

  /** The weight gradient of layer `j`: its error times the transposed
      activation that fed it. */
  function NablaW(p: Pass, x: Matrix, y: Matrix, out: (Matrix, Matrix, Matrix) -> Matrix, j: nat): Matrix
    requires p.Valid() && j < |p.weights|
  {
    MatMul(Delta(p, x, y, out, j), Transpose(Activation(p, x, j)))
  }

  /** An activation that keeps the shape of its argument. */
  ghost predicate KeepsShape(f: ActivationFun) {
    forall z: Matrix :: f.activation(z).rows == z.rows && f.activation(z).cols == z.cols
  }

  /** Every layer's activation keeps shapes. */
  ghost predicate ShapePreserving(p: Pass) {
    forall k | 0 <= k < |p.funs| :: KeepsShape(p.funs[k])
  }

  /** The weights of layer `i` are `arch[i+1] x arch[i]`. */
  predicate Layered(p: Pass, arch: seq<nat>) {
    && p.Valid() && |arch| == |p.weights| + 1
    && forall i | 0 <= i < |p.weights| :: p.weights[i].rows == arch[i + 1] && p.weights[i].cols == arch[i]
  }

  /** The shape chain of the forward pass: for an `arch[0] x n` input,
      activation `i` is `arch[i] x n`, so `weights[i]` has as many columns
      as activation `i` has rows and every product is well formed. */
  lemma {:induction false} ActivationShape(p: Pass, arch: seq<nat>, x: Matrix, i: nat)
    requires Layered(p, arch) && ShapePreserving(p)
    requires x.rows == arch[0] && i <= |p.weights|
    ensures Activation(p, x, i).rows == arch[i] && Activation(p, x, i).cols == x.cols
    ensures i < |p.weights| ==> p.weights[i].cols == Activation(p, x, i).rows
  {
    if i > 0 {
      ActivationShape(p, arch, x, i - 1);
      assert KeepsShape(p.funs[i - 1]);
    }
  }

  // ---------------------------------------------------------------------------
  // Parameter updates
  // ---------------------------------------------------------------------------

  /** `w * keep - rate * g`: a gradient step with weight decay, which the
      training loops take with `keep = 1 - lr*eta/n` and `rate = lr/n`. */
  function DecayStep(w: Matrix, g: Matrix, keep: real, rate: real): (m: Matrix)
    ensures m.Valid() && m.SameShape(w)
    ensures forall r, c | 0 <= r < w.rows && 0 <= c < w.cols ::
      m.At(r, c) == keep * w.At(r, c) - rate * g.At(r, c)
  {
    Sub(Scale(keep, w), Scale(rate, g))
  }

  /** `b - rate * g`: a plain gradient step. */
  function PlainStep(b: Matrix, g: Matrix, rate: real): (m: Matrix)
    ensures m.Valid() && m.SameShape(b)
    ensures forall r, c | 0 <= r < b.rows && 0 <= c < b.cols :: m.At(r, c) == b.At(r, c) - rate * g.At(r, c)
  {
    Build(b.rows, b.cols, (r, c) => b.At(r, c) - rate * g.At(r, c))
  }

  /** With a zero gradient the plain step leaves a parameter as it is and
      the decaying step only scales it; without decay (`keep = 1`) the two
      steps agree. */
  lemma ZeroGradientSteps(w: Matrix, keep: real, rate: real)
    requires w.Valid()
    ensures PlainStep(w, Constant(w.rows, w.cols, 0.0), rate) == w
    ensures DecayStep(w, Constant(w.rows, w.cols, 0.0), keep, rate) == Scale(keep, w)
    ensures forall g: Matrix :: DecayStep(w, g, 1.0, rate) == PlainStep(w, g, rate)
  {
    var zero := Constant(w.rows, w.cols, 0.0);
    Extensionality(PlainStep(w, zero, rate), w);
    Extensionality(DecayStep(w, zero, keep, rate), Scale(keep, w));
    forall g: Matrix ensures DecayStep(w, g, 1.0, rate) == PlainStep(w, g, rate) {
      Extensionality(DecayStep(w, g, 1.0, rate), PlainStep(w, g, rate));
    }
  }

  // ---------------------------------------------------------------------------
  // Training
  // ---------------------------------------------------------------------------

  /** The first `m` weight matrices after one gradient step on the batch
      `(x, y)`. */
  function StepWeights(p: Pass, x: Matrix, y: Matrix, out: (Matrix, Matrix, Matrix) -> Matrix, keep: real, rate: real, m: nat): (ws: seq<Matrix>)
    requires p.Valid() && m <= |p.weights|
    ensures |ws| == m
  {
    if m == 0 then [] else StepWeights(p, x, y, out, keep, rate, m - 1) + [DecayStep(p.weights[m - 1], NablaW(p, x, y, out, m - 1), keep, rate)]
  }

  /** The first `m` bias columns after one gradient step on `(x, y)`. */
  function StepBiases(p: Pass, x: Matrix, y: Matrix, out: (Matrix, Matrix, Matrix) -> Matrix, rate: real, m: nat): (bs: seq<Matrix>)
    requires p.Valid() && m <= |p.weights|
    ensures |bs| == m
  {
    if m == 0 then [] else StepBiases(p, x, y, out, rate, m - 1) + [PlainStep(p.biases[m - 1], RowSum(Delta(p, x, y, out, m - 1)), rate)]
  }

  /** One gradient step on every layer of `p` for the batch `(x, y)`. */
  function GradientStep(p: Pass, x: Matrix, y: Matrix, out: (Matrix, Matrix, Matrix) -> Matrix, keep: real, rate: real): (q: Pass)
    requires p.Valid()
    ensures q.Valid() && |q.weights| == |p.weights| && q.funs == p.funs
  {
    Pass(StepWeights(p, x, y, out, keep, rate, |p.weights|), StepBiases(p, x, y, out, rate, |p.weights|), p.funs)
  }

  /** A pass whose every weight and bias is the decaying and the plain step
      of the layer's gradient is the gradient step itself. */
  lemma GradientStepFrom(p: Pass, x: Matrix, y: Matrix, out: (Matrix, Matrix, Matrix) -> Matrix, keep: real, rate: real,
                         ws: seq<Matrix>, bs: seq<Matrix>)
    requires p.Valid() && |ws| == |bs| == |p.weights|
    requires forall j | 0 <= j < |ws| :: ws[j] == DecayStep(p.weights[j], NablaW(p, x, y, out, j), keep, rate)
    requires forall j | 0 <= j < |bs| :: bs[j] == PlainStep(p.biases[j], RowSum(Delta(p, x, y, out, j)), rate)
    ensures GradientStep(p, x, y, out, keep, rate) == Pass(ws, bs, p.funs)
  {
    GradientStepAt(p, x, y, out, keep, rate);
    var q := GradientStep(p, x, y, out, keep, rate);
    assert q.weights == ws;
    assert q.biases == bs;
  }

  /** Entry `j` of the first `m` stepped weights is weight `j` after a
      decaying step along its weight gradient. */
  lemma {:induction false} StepWeightsAt(p: Pass, x: Matrix, y: Matrix, out: (Matrix, Matrix, Matrix) -> Matrix, keep: real, rate: real, m: nat, j: nat)
    requires p.Valid() && j < m <= |p.weights|
    ensures StepWeights(p, x, y, out, keep, rate, m)[j] == DecayStep(p.weights[j], NablaW(p, x, y, out, j), keep, rate)
    decreases m
  {
    if j < m - 1 {
      StepWeightsAt(p, x, y, out, keep, rate, m - 1, j);
    }
  }

  /** Entry `j` of the first `m` stepped biases is bias `j` after a plain
      step along the row sums of its error. */
  lemma {:induction false} StepBiasesAt(p: Pass, x: Matrix, y: Matrix, out: (Matrix, Matrix, Matrix) -> Matrix, rate: real, m: nat, j: nat)
    requires p.Valid() && j < m <= |p.weights|
    ensures StepBiases(p, x, y, out, rate, m)[j] == PlainStep(p.biases[j], RowSum(Delta(p, x, y, out, j)), rate)
    decreases m
  {
    if j < m - 1 {
      StepBiasesAt(p, x, y, out, rate, m - 1, j);
    }
  }

  /** In one gradient step each weight matrix takes a decaying step along
      its weight gradient and each bias column a plain step along the row
      sums of its error. */
  lemma GradientStepAt(p: Pass, x: Matrix, y: Matrix, out: (Matrix, Matrix, Matrix) -> Matrix, keep: real, rate: real)
    requires p.Valid()
    ensures forall j | 0 <= j < |p.weights| ::
      GradientStep(p, x, y, out, keep, rate).weights[j] == DecayStep(p.weights[j], NablaW(p, x, y, out, j), keep, rate)
    ensures forall j | 0 <= j < |p.weights| ::
      GradientStep(p, x, y, out, keep, rate).biases[j] == PlainStep(p.biases[j], RowSum(Delta(p, x, y, out, j)), rate)
  {
    forall j | 0 <= j < |p.weights|
      ensures GradientStep(p, x, y, out, keep, rate).weights[j] == DecayStep(p.weights[j], NablaW(p, x, y, out, j), keep, rate)
      ensures GradientStep(p, x, y, out, keep, rate).biases[j] == PlainStep(p.biases[j], RowSum(Delta(p, x, y, out, j)), rate)
    {
      StepWeightsAt(p, x, y, out, keep, rate, |p.weights|, j);
      StepBiasesAt(p, x, y, out, rate, |p.weights|, j);
    }
  }

  /** A gradient step keeps the layer shapes: weights stay
      `arch[i+1] x arch[i]`, and biases keep their shape. */
  lemma GradientStepKeepsShapes(p: Pass, arch: seq<nat>, x: Matrix, y: Matrix, out: (Matrix, Matrix, Matrix) -> Matrix, keep: real, rate: real)
    requires Layered(p, arch)
    ensures Layered(GradientStep(p, x, y, out, keep, rate), arch)
    ensures forall i | 0 <= i < |p.biases| :: GradientStep(p, x, y, out, keep, rate).biases[i].SameShape(p.biases[i])
  {
    GradientStepAt(p, x, y, out, keep, rate);
  }

  /** `k` full-batch steps on `(x, y)`: the parameters after `k` epochs of
      gradient descent. */
  function Descend(p: Pass, x: Matrix, y: Matrix, out: (Matrix, Matrix, Matrix) -> Matrix, k: nat, keep: real, rate: real): (q: Pass)
    requires p.Valid()
    ensures q.Valid() && |q.weights| == |p.weights| && q.funs == p.funs
  {
    if k == 0 then p else GradientStep(Descend(p, x, y, out, k - 1, keep, rate), x, y, out, keep, rate)
  }

  /** The steps for the first `m` of the given batches, each on the columns
      of `x` and `y` the batch selects. */
  function BatchSteps(p: Pass, x: Matrix, y: Matrix, out: (Matrix, Matrix, Matrix) -> Matrix, batches: seq<seq<int>>, m: nat, keep: real, rate: real): (q: Pass)
    requires p.Valid() && m <= |batches|
    ensures q.Valid() && |q.weights| == |p.weights| && q.funs == p.funs
  {
    if m == 0 then p
    else GradientStep(BatchSteps(p, x, y, out, batches, m - 1, keep, rate),
                      Columns(x, batches[m - 1]), Columns(y, batches[m - 1]), out, keep, rate)
  }

  /** The first `e` epochs of mini-batch descent: epoch `k` takes one step
      per batch that the loop `l < n - b` cuts from the shuffled order
      `orders[k]`. */
  function EpochSteps(p: Pass, x: Matrix, y: Matrix, out: (Matrix, Matrix, Matrix) -> Matrix, orders: seq<seq<int>>, e: nat, b: nat, keep: real, rate: real): (q: Pass)
    requires p.Valid() && e <= |orders| && 0 < b
    ensures q.Valid() && |q.weights| == |p.weights| && q.funs == p.funs
  {
    if e == 0 then p
    else
      var batches := Batching.Batches(orders[e - 1], b);
      BatchSteps(EpochSteps(p, x, y, out, orders, e - 1, b, keep, rate), x, y, out, batches, |batches|, keep, rate)
  }
}
