/** sequential2.h: a third `Sequential<Scalar>`, trained by a sampling
    stochastic gradient descent. Its `backProp` computes the error and the
    gradients of the back layer only (the loop that would propagate the
    error further back is compiled out), so the gradient buffers of every
    earlier layer keep whatever the constructor left in them, and every
    epoch moves those layers by the same step.

    The member vectors of pointers become sequence fields that the methods
    reassign; a vector is a one-column `Matrix`. */
module SgdSequential {
  import opened Outcomes
  import opened Matrices
  import opened Backprop
  import Batching
  import MatrixSequential
  import VectorSequential

  /** The parameters and the two gradient buffers: everything that carries
      over from one epoch to the next. */
  datatype State = State(p: Pass, nablaB: seq<Matrix>, nablaW: seq<Matrix>)
  {
    predicate Valid() { p.Valid() && |nablaB| == |nablaW| == |p.weights| }
  }

  /** A gradient rule: the pair that one `backProp` on the sample `(x, y)`
      stores under the parameters `p`, an error and a weight gradient for
      the back layer. The loops below are written for any rule; the class
      runs them with `BackGradients`. */
  type Rule = (Pass, Matrix, Matrix) --> (Matrix, Matrix)

  /** A rule that applies to every well-formed network with a layer. */
  ghost predicate Defined(g: Rule) {
    forall p: Pass, x: Matrix, y: Matrix | p.Valid() && |p.weights| > 0 :: g.requires(p, x, y)
  }

  /** The pair `backProp` stores: the back layer's error (sequential.h's
      output error, as a column) and that error times the transposed
      activation feeding the back layer. */
  function BackGradients(p: Pass, x: Matrix, y: Matrix): (Matrix, Matrix)
    requires p.Valid() && |p.weights| > 0
  {
    var last := |p.weights| - 1;
    (Delta(p, x, y, VectorSequential.OutputError, last), NablaW(p, x, y, VectorSequential.OutputError, last))
  }

  /** `BackGradients` applies to every network with a layer. */
  lemma BackGradientsDefined()
    ensures Defined(BackGradients)
  {
  }

  /** The gradient buffers after a `backProp` that stored the pair `g`: the
      back layer's two slots take it, every other slot keeps what it
      held. */
  function Stored(s: State, g: (Matrix, Matrix)): (t: State)
    requires s.Valid() && |s.p.weights| > 0
    ensures t.Valid() && t.p == s.p
    ensures t.nablaB[|s.p.weights| - 1] == g.0 && t.nablaW[|s.p.weights| - 1] == g.1
    ensures forall j | 0 <= j < |s.p.weights| - 1 :: t.nablaB[j] == s.nablaB[j] && t.nablaW[j] == s.nablaW[j]
  {
    var last := |s.p.weights| - 1;
    State(s.p, s.nablaB[last := g.0], s.nablaW[last := g.1])
  }

  /** `backProp(x, y)` as seen by the parameters and the gradient
      buffers. */
  function BackPropped(s: State, x: Matrix, y: Matrix): (t: State)
    requires s.Valid() && |s.p.weights| > 0
    ensures t.Valid() && t.p == s.p
  {
    Stored(s, BackGradients(s.p, x, y))
  }

  /** The sample loop of one epoch under the rule `g`: `backProp` on the
      columns `order[0], ..., order[m-1]` in turn. */
  function Samples(g: Rule, s: State, x: Matrix, y: Matrix, order: seq<int>, m: nat): (t: State)
    requires Defined(g) && s.Valid() && |s.p.weights| > 0 && m <= |order|
    ensures t.Valid() && t.p == s.p
  {
    if m == 0 then s
    else Stored(Samples(g, s, x, y, order, m - 1), g(s.p, Columns(x, [order[m - 1]]), Columns(y, [order[m - 1]])))
  }

  /** The update loop: each weight matrix and each bias takes a plain step
      of size `rate` along its gradient buffer. */
  function Update(s: State, rate: real): (t: State)
    requires s.Valid()
    ensures t.Valid() && |t.p.weights| == |s.p.weights| && t.p.funs == s.p.funs
    ensures t.nablaB == s.nablaB && t.nablaW == s.nablaW
  {
    State(Pass(Stepped(s.p.weights, s.nablaW, rate), Stepped(s.p.biases, s.nablaB, rate), s.p.funs),
          s.nablaB, s.nablaW)
  }

  /** A plain step of size `rate` for each of `ms` along the matching entry
      of `gs`. */
  function Stepped(ms: seq<Matrix>, gs: seq<Matrix>, rate: real): (r: seq<Matrix>)
    requires |gs| == |ms|
    ensures |r| == |ms|
  {
    seq(|ms|, k requires 0 <= k < |ms| => PlainStep(ms[k], gs[k], rate))
  }

  /** The loop of the update: layer by layer, `ws[i] -= rate * gw[i]` and
      `bs[i] -= rate * gb[i]`, which keeps every shape. */
  method StepLayers(ws: seq<Matrix>, bs: seq<Matrix>, gw: seq<Matrix>, gb: seq<Matrix>, rate: real)
    returns (ws': seq<Matrix>, bs': seq<Matrix>)
    requires |ws| == |bs| == |gw| == |gb|
    ensures ws' == Stepped(ws, gw, rate) && bs' == Stepped(bs, gb, rate)
    ensures |ws'| == |ws| && |bs'| == |bs|
    ensures forall k | 0 <= k < |ws| ::
      ws'[k].rows == ws[k].rows && ws'[k].cols == ws[k].cols && bs'[k].rows == bs[k].rows && bs'[k].cols == bs[k].cols
  {
    ws', bs' := ws, bs;
    for i := 0 to |ws|
      invariant |ws'| == |bs'| == |ws|
      invariant forall k | 0 <= k < i :: ws'[k] == PlainStep(ws[k], gw[k], rate) && bs'[k] == PlainStep(bs[k], gb[k], rate)
      invariant forall k | i <= k < |ws| :: ws'[k] == ws[k] && bs'[k] == bs[k]
    {
      ws' := ws'[i := PlainStep(ws'[i], gw[i], rate)];
      bs' := bs'[i := PlainStep(bs'[i], gb[i], rate)];
    }
  }

  /** One epoch: the sample loop over the first `b` indices of the
      shuffled `order`, then the update. */
  function Epoch(g: Rule, s: State, x: Matrix, y: Matrix, order: seq<int>, b: nat, rate: real): (t: State)
    requires Defined(g) && s.Valid() && |s.p.weights| > 0 && b <= |order|
    ensures t.Valid() && |t.p.weights| == |s.p.weights| && t.p.funs == s.p.funs
  {
    Update(Samples(g, s, x, y, order, b), rate)
  }

  /** The first `e` epochs, epoch `k` on the shuffled order `orders[k]`. */
  function Train(g: Rule, s: State, x: Matrix, y: Matrix, orders: seq<seq<int>>, e: nat, b: nat, rate: real): (t: State)
    requires Defined(g) && s.Valid() && |s.p.weights| > 0 && e <= |orders|
    requires forall k | 0 <= k < |orders| :: b <= |orders[k]|
    ensures t.Valid() && |t.p.weights| == |s.p.weights| && t.p.funs == s.p.funs
  {
    if e == 0 then s else Epoch(g, Train(g, s, x, y, orders, e - 1, b, rate), x, y, orders[e - 1], b, rate)
  }

  /** Every `backProp` overwrites the same two slots, so after the sample
      loop they hold the gradients of the last sample alone. */
  lemma {:induction false} LastSampleWins(g: Rule, s: State, x: Matrix, y: Matrix, order: seq<int>, m: nat)
    requires Defined(g) && s.Valid() && |s.p.weights| > 0 && 0 < m <= |order|
    ensures Samples(g, s, x, y, order, m) == Stored(s, g(s.p, Columns(x, [order[m - 1]]), Columns(y, [order[m - 1]])))
  {
    if m > 1 {
      LastSampleWins(g, s, x, y, order, m - 1);
      Overwrite(s, g(s.p, Columns(x, [order[m - 2]]), Columns(y, [order[m - 2]])),
                g(s.p, Columns(x, [order[m - 1]]), Columns(y, [order[m - 1]])));
    }
  }

  /** A second store overwrites everything the first one wrote. */
  lemma Overwrite(s: State, g1: (Matrix, Matrix), g2: (Matrix, Matrix))
    requires s.Valid() && |s.p.weights| > 0
    ensures Stored(Stored(s, g1), g2) == Stored(s, g2)
  {
    var last := |s.p.weights| - 1;
    assert s.nablaB[last := g1.0][last := g2.0] == s.nablaB[last := g2.0];
    assert s.nablaW[last := g1.1][last := g2.1] == s.nablaW[last := g2.1];
  }

  /** The sample loop leaves the slots of every layer before the back one
      untouched. */
  lemma {:induction false} SamplesKeepEarly(g: Rule, s: State, x: Matrix, y: Matrix, order: seq<int>, m: nat, j: nat)
    requires Defined(g) && s.Valid() && |s.p.weights| > 0 && m <= |order| && j < |s.p.weights| - 1
    ensures Samples(g, s, x, y, order, m).nablaB[j] == s.nablaB[j]
    ensures Samples(g, s, x, y, order, m).nablaW[j] == s.nablaW[j]
  {
    if m > 0 {
      SamplesKeepEarly(g, s, x, y, order, m - 1, j);
    }
  }

  /** In one epoch on a non-empty batch the back layer steps along the
      gradients of the last sample of the batch, and every earlier layer
      along the buffers it already held. */
  lemma EpochAt(g: Rule, s: State, x: Matrix, y: Matrix, order: seq<int>, b: nat, rate: real, j: nat)
    requires Defined(g) && s.Valid() && |s.p.weights| > 0 && 0 < b <= |order| && j < |s.p.weights|
    ensures var last, h := |s.p.weights| - 1, g(s.p, Columns(x, [order[b - 1]]), Columns(y, [order[b - 1]]));
      && Epoch(g, s, x, y, order, b, rate).p.weights[j] == PlainStep(s.p.weights[j], if j == last then h.1 else s.nablaW[j], rate)
      && Epoch(g, s, x, y, order, b, rate).p.biases[j] == PlainStep(s.p.biases[j], if j == last then h.0 else s.nablaB[j], rate)
  {
    LastSampleWins(g, s, x, y, order, b);
    var t := Samples(g, s, x, y, order, b);
  }

  /** In an epoch every layer before the back one steps along the buffers
      it already held, which stay as they were. */
  lemma EpochEarly(g: Rule, s: State, x: Matrix, y: Matrix, order: seq<int>, b: nat, rate: real, j: nat)
    requires Defined(g) && s.Valid() && |s.p.weights| > 0 && b <= |order| && j < |s.p.weights| - 1
    ensures Epoch(g, s, x, y, order, b, rate).p.weights[j] == PlainStep(s.p.weights[j], s.nablaW[j], rate)
    ensures Epoch(g, s, x, y, order, b, rate).p.biases[j] == PlainStep(s.p.biases[j], s.nablaB[j], rate)
    ensures Epoch(g, s, x, y, order, b, rate).nablaW[j] == s.nablaW[j]
    ensures Epoch(g, s, x, y, order, b, rate).nablaB[j] == s.nablaB[j]
  {
    SamplesKeepEarly(g, s, x, y, order, b, j);
    var t := Samples(g, s, x, y, order, b);
  }

  /** Epoch `e` moves every layer before the back one by one plain step
      along its gradient buffers and leaves those buffers alone. */
  lemma TrainEarlyStep(g: Rule, s: State, x: Matrix, y: Matrix, orders: seq<seq<int>>, e: nat, b: nat, rate: real, j: nat)
    requires Defined(g) && s.Valid() && |s.p.weights| > 0 && 0 < e <= |orders| && j < |s.p.weights| - 1
    requires forall k | 0 <= k < |orders| :: b <= |orders[k]|
    ensures var t0, t := Train(g, s, x, y, orders, e - 1, b, rate), Train(g, s, x, y, orders, e, b, rate);
      && t.p.weights[j] == PlainStep(t0.p.weights[j], t0.nablaW[j], rate)
      && t.p.biases[j] == PlainStep(t0.p.biases[j], t0.nablaB[j], rate)
      && t.nablaW[j] == t0.nablaW[j] && t.nablaB[j] == t0.nablaB[j]
  {
    EpochEarly(g, Train(g, s, x, y, orders, e - 1, b, rate), x, y, orders[e - 1], b, rate, j);
  }

  /** The gradient buffers of every layer before the back one are never
      written: after any number of epochs they hold what the constructor
      left there. */
  lemma {:induction false} TrainKeepsEarlyGradients(g: Rule, s: State, x: Matrix, y: Matrix, orders: seq<seq<int>>, e: nat,
                                                    b: nat, rate: real, j: nat)
    requires Defined(g) && s.Valid() && |s.p.weights| > 0 && e <= |orders| && j < |s.p.weights| - 1
    requires forall k | 0 <= k < |orders| :: b <= |orders[k]|
    ensures Train(g, s, x, y, orders, e, b, rate).nablaB[j] == s.nablaB[j]
    ensures Train(g, s, x, y, orders, e, b, rate).nablaW[j] == s.nablaW[j]
  {
    if e > 0 {
      TrainKeepsEarlyGradients(g, s, x, y, orders, e - 1, b, rate, j);
      KeepsEarlyStep(g, s, x, y, orders, e, b, rate, j);
    } else {
      TrainStart(g, s, x, y, orders, b, rate);
    }
  }

  /** The inductive step of `TrainKeepsEarlyGradients`. */
  lemma KeepsEarlyStep(g: Rule, s: State, x: Matrix, y: Matrix, orders: seq<seq<int>>, e: nat, b: nat, rate: real, j: nat)
    requires Defined(g) && s.Valid() && |s.p.weights| > 0 && 0 < e <= |orders| && j < |s.p.weights| - 1
    requires forall k | 0 <= k < |orders| :: b <= |orders[k]|
    requires Train(g, s, x, y, orders, e - 1, b, rate).nablaB[j] == s.nablaB[j]
    requires Train(g, s, x, y, orders, e - 1, b, rate).nablaW[j] == s.nablaW[j]
    ensures Train(g, s, x, y, orders, e, b, rate).nablaB[j] == s.nablaB[j]
    ensures Train(g, s, x, y, orders, e, b, rate).nablaW[j] == s.nablaW[j]
  {
    TrainEarlyStep(g, s, x, y, orders, e, b, rate, j);
  }

  /** No epoch leaves the state as it was. */
  lemma TrainStart(g: Rule, s: State, x: Matrix, y: Matrix, orders: seq<seq<int>>, b: nat, rate: real)
    requires Defined(g) && s.Valid() && |s.p.weights| > 0
    requires forall k | 0 <= k < |orders| :: b <= |orders[k]|
    ensures Train(g, s, x, y, orders, 0, b, rate) == s
  {
  }

  /** `e` plain steps of size `rate` along the same `g`. */
  function Repeat(w: Matrix, g: Matrix, rate: real, e: nat): (m: Matrix)
    ensures e > 0 ==> m.Valid() && m.SameShape(w)
  {
    if e == 0 then w else PlainStep(Repeat(w, g, rate, e - 1), g, rate)
  }

  /** So every layer before the back one drifts along a fixed direction,
      whatever the data: after `e` epochs its weights and bias are `e`
      steps along the buffers the constructor left. */
  lemma {:induction false} StaleDrift(g: Rule, s: State, x: Matrix, y: Matrix, orders: seq<seq<int>>, e: nat, b: nat,
                                      rate: real, j: nat)
    requires Defined(g) && s.Valid() && |s.p.weights| > 0 && e <= |orders| && j < |s.p.weights| - 1
    requires forall k | 0 <= k < |orders| :: b <= |orders[k]|
    ensures Train(g, s, x, y, orders, e, b, rate).p.weights[j] == Repeat(s.p.weights[j], s.nablaW[j], rate, e)
    ensures Train(g, s, x, y, orders, e, b, rate).p.biases[j] == Repeat(s.p.biases[j], s.nablaB[j], rate, e)
  {
    if e > 0 {
      StaleDrift(g, s, x, y, orders, e - 1, b, rate, j);
      DriftStep(g, s, x, y, orders, e, b, rate, j);
    } else {
      TrainStart(g, s, x, y, orders, b, rate);
    }
  }

  /** The inductive step of `StaleDrift`. */
  lemma DriftStep(g: Rule, s: State, x: Matrix, y: Matrix, orders: seq<seq<int>>, e: nat, b: nat, rate: real, j: nat)
    requires Defined(g) && s.Valid() && |s.p.weights| > 0 && 0 < e <= |orders| && j < |s.p.weights| - 1
    requires forall k | 0 <= k < |orders| :: b <= |orders[k]|
    requires Train(g, s, x, y, orders, e - 1, b, rate).p.weights[j] == Repeat(s.p.weights[j], s.nablaW[j], rate, e - 1)
    requires Train(g, s, x, y, orders, e - 1, b, rate).p.biases[j] == Repeat(s.p.biases[j], s.nablaB[j], rate, e - 1)
    ensures Train(g, s, x, y, orders, e, b, rate).p.weights[j] == Repeat(s.p.weights[j], s.nablaW[j], rate, e)
    ensures Train(g, s, x, y, orders, e, b, rate).p.biases[j] == Repeat(s.p.biases[j], s.nablaB[j], rate, e)
  {
    TrainKeepsEarlyGradients(g, s, x, y, orders, e - 1, b, rate, j);
    TrainEarlyStep(g, s, x, y, orders, e, b, rate, j);
  }

  /** `e` copies of `v` added up. */
  function Times(e: nat, v: real): real {
    if e == 0 then 0.0 else Times(e - 1, v) + v
  }

  /** Adding up `e` copies of `v` is multiplying by `e`. */
  lemma {:induction false} TimesIsProduct(e: nat, v: real)
    ensures Times(e, v) == e as real * v
  {
    if e > 0 {
      TimesIsProduct(e - 1, v);
      assert (e - 1) as real * v + v == e as real * v;
    }
  }

  /** Entry `(r, c)` after `e` steps has moved by `e` times `rate` times
      the matching entry of `g`. */
  lemma {:induction false} RepeatAt(w: Matrix, g: Matrix, rate: real, e: nat, r: int, c: int)
    requires 0 <= r < w.rows && 0 <= c < w.cols
    ensures Repeat(w, g, rate, e).At(r, c) == w.At(r, c) - Times(e, rate * g.At(r, c))
  {
    if e > 0 {
      RepeatAt(w, g, rate, e - 1, r, c);
      RepeatStepAt(w, g, rate, e, r, c);
    }
  }

  /** One more step moves entry `(r, c)` by one more `rate * g(r, c)`. */
  lemma RepeatStepAt(w: Matrix, g: Matrix, rate: real, e: nat, r: int, c: int)
    requires 0 < e && 0 <= r < w.rows && 0 <= c < w.cols
    requires Repeat(w, g, rate, e - 1).At(r, c) == w.At(r, c) - Times(e - 1, rate * g.At(r, c))
    ensures Repeat(w, g, rate, e).At(r, c) == w.At(r, c) - Times(e, rate * g.At(r, c))
  {
    var prev := Repeat(w, g, rate, e - 1);
    assert prev.SameShape(w) || e == 1;
    PlainStepAt(prev, g, rate, r, c);
    AddOne(w.At(r, c), prev.At(r, c), Repeat(w, g, rate, e).At(r, c), e, rate * g.At(r, c));
  }

  /** One entry of a plain step. */
  lemma PlainStepAt(b: Matrix, g: Matrix, rate: real, r: int, c: int)
    requires 0 <= r < b.rows && 0 <= c < b.cols
    ensures PlainStep(b, g, rate).At(r, c) == b.At(r, c) - rate * g.At(r, c)
  {
  }

  lemma AddOne(a: real, before: real, after: real, e: nat, v: real)
    requires e > 0 && before == a - Times(e - 1, v) && after == before - v
    ensures after == a - Times(e, v)
  {
  }

  /** `dl` differs from `d0` in the back slot at most. */
  ghost predicate BackSlotOnly(d0: seq<Matrix>, dl: seq<Matrix>) {
    |dl| == |d0| && forall j | 0 <= j < |d0| - 1 :: dl[j] == d0[j]
  }

  /** The pass buffers `acts` and `ins` and the back error slot of `dl`
      hold what `backProp` on column `c` of `x` and `y` leaves under `p`:
      the forward pass of that column and its error at the back layer. */
  ghost predicate SamplePassed(p: Pass, x: Matrix, y: Matrix, c: int, acts: seq<Matrix>, ins: seq<Matrix>, dl: seq<Matrix>)
  {
    && p.Valid() && |p.weights| > 0
    && VectorSequential.Fed(p, Columns(x, [c]), acts, ins)
    && |dl| == |p.weights|
    && dl[|p.weights| - 1] == Delta(p, Columns(x, [c]), Columns(y, [c]), VectorSequential.OutputError, |p.weights| - 1)
  }

  /** The predicted label of every test input under `p`: the index of the
      first largest of the `units` entries of the output column. */
  ghost function Predictions(p: Pass, xs: seq<Matrix>, units: nat): (labels: seq<int>)
    requires p.Valid() && units > 0
    ensures |labels| == |xs|
    ensures forall i | 0 <= i < |xs| :: 0 <= labels[i] < units
  {
    seq(|xs|, i requires 0 <= i < |xs| => ArgMaxColumn(Activation(p, xs[i], |p.weights|), 0, units))
  }

  /** The expected label of each of the first `n` targets: the index of its
      first largest entry. */
  function Targets(ys: seq<Matrix>, n: nat): (labels: seq<int>)
    requires n <= |ys| && forall i | 0 <= i < n :: ys[i].rows > 0
    ensures |labels| == n
    ensures forall i | 0 <= i < n :: 0 <= labels[i] < ys[i].rows
  {
    seq(n, i requires 0 <= i < n => ArgMaxColumn(ys[i], 0, ys[i].rows))
  }

  class Sequential {
    const numLayers: nat
    const arch: seq<nat>
    const activationFun: ActivationFun
    /** The shared activation object once per layer, the form the
      `Backprop` functions take. */
    const funs: seq<ActivationFun>

    var weights: seq<Matrix>
    var biases: seq<Matrix>
    var activations: seq<Matrix>
    var wInputs: seq<Matrix>
    var nablaB: seq<Matrix>
    var nablaW: seq<Matrix>
    var delta: seq<Matrix>

    /** One weight matrix `arch[i+1] x arch[i]`, one bias column and one
      gradient slot of each kind per layer after the input, all sharing
      the one activation object. */
    ghost predicate Valid()
      reads this
    {
      && numLayers == |arch| > 0
      && |weights| == |biases| == |nablaB| == |nablaW| == |funs| == numLayers - 1
      && (forall i | 0 <= i < |funs| :: funs[i] == activationFun)
      && (forall i | 0 <= i < numLayers - 1 :: weights[i].rows == arch[i + 1] && weights[i].cols == arch[i])
      && (forall i | 0 <= i < numLayers - 1 :: biases[i].rows == arch[i + 1] && biases[i].cols == 1)
    }

    /** The buffers of exactly one `initSGD`, so that `back()` of each
      vector is the slot the forward pass writes. */
    predicate Allocated()
      reads this`activations, this`wInputs, this`delta
    {
      |activations| == numLayers && |wInputs| == numLayers - 1 && |delta| == numLayers - 1
    }

    /** The network as the `Backprop` functions see it. */
    function Params(): Pass
      reads this
    {
      Pass(weights, biases, funs)
    }

    /** The parameters with the gradient buffers. */
    function Snapshot(): State
      reads this
    {
      State(Params(), nablaB, nablaW)
    }

    /** The pass buffers of one `initSGD(n)`: activation `i` is
      `arch[i] x n`, weighted input and error `i` are `arch[i+1] x n`. */
    ghost predicate Fresh(n: nat)
      reads this`activations, this`wInputs, this`delta
      requires Allocated() && numLayers == |arch|
    {
      && (forall i | 0 <= i < numLayers :: activations[i].rows == arch[i] && activations[i].cols == n)
      && (forall i | 0 <= i < numLayers - 1 :: wInputs[i].rows == arch[i + 1] && wInputs[i].cols == n)
      && (forall i | 0 <= i < numLayers - 1 :: delta[i].rows == arch[i + 1] && delta[i].cols == n)
    }

    /** The error slots before the back one are as `initSGD(n)` allocated
      them. */
    ghost predicate EarlyErrors(n: nat)
      reads this`activations, this`wInputs, this`delta
      requires Allocated() && numLayers == |arch|
    {
      forall i | 0 <= i < |delta| - 1 :: delta[i].rows == arch[i + 1] && delta[i].cols == n
    }

    /** The constructor: for each layer after the input a weight matrix and
      a bias column filled by `setRandom` (`sampleW(i, r, c)` and
      `sampleB(i, r)` are the draws for layer `i`) and two gradient slots
      of the same shapes, left uninitialised. `arch.front()` is read
      unguarded. No activation, weighted-input or error buffer exists
      until `initSGD`. */
    constructor(archIn: seq<nat>, a: ActivationFun, sampleW: (nat, int, int) -> real, sampleB: (nat, int) -> real)
      requires |archIn| > 0
      ensures Valid() && numLayers == |archIn| && arch == archIn && activationFun == a
      ensures forall i {:trigger weights[i]} | 0 <= i < numLayers - 1 ::
        MatrixSequential.DrawnLayer(arch, sampleW, sampleB, weights[i], biases[i], nablaB[i], nablaW[i], i)
      ensures activations == [] && wInputs == [] && delta == []
    {
      var ws, bs, nbs, nws := MatrixSequential.InitialLayers(archIn, sampleW, sampleB);
      forall i | 0 <= i < |archIn| - 1 ensures bs[i].rows == archIn[i + 1] && bs[i].cols == 1 {
        assert MatrixSequential.DrawnLayer(archIn, sampleW, sampleB, ws[i], bs[i], nbs[i], nws[i], i);
      }
      numLayers, arch, activationFun, funs := |archIn|, archIn, a, seq(|archIn| - 1, _ => a);
      weights, biases, nablaB, nablaW := ws, bs, nbs, nws;
      activations, wInputs, delta := [], [], [];
    }

    /** `initSGD(n_samples)`: appends one `arch[0] x n` activation buffer,
      then for every later layer an error, an activation and a weighted
      input buffer `arch[i] x n`. The buffers are appended, not replaced;
      Eigen leaves them uninitialised, so only their shapes are promised. */
    method InitSGD(samples: nat)
      requires Valid()
      modifies this
      ensures Valid() && Snapshot() == old(Snapshot())
      ensures |activations| == |old(activations)| + numLayers && activations[..|old(activations)|] == old(activations)
      ensures forall i | |old(activations)| <= i < |activations| ::
        activations[i].rows == arch[i - |old(activations)|] && activations[i].cols == samples
      ensures |wInputs| == |old(wInputs)| + numLayers - 1 && wInputs[..|old(wInputs)|] == old(wInputs)
      ensures |delta| == |old(delta)| + numLayers - 1 && delta[..|old(delta)|] == old(delta)
      ensures forall i | |old(wInputs)| <= i < |wInputs| ::
        wInputs[i].rows == arch[i - |old(wInputs)| + 1] && wInputs[i].cols == samples
      ensures forall i | |old(delta)| <= i < |delta| ::
        delta[i].rows == arch[i - |old(delta)| + 1] && delta[i].cols == samples
    {
      var acts, ins, dl := [Constant(arch[0], samples, 0.0)], [], [];
      for i := 1 to numLayers
        invariant |acts| == i && |ins| == |dl| == i - 1
        invariant forall k | 0 <= k < i :: acts[k] == Constant(arch[k], samples, 0.0)
        invariant forall k | 0 <= k < i - 1 ::
          ins[k] == Constant(arch[k + 1], samples, 0.0) && dl[k] == Constant(arch[k + 1], samples, 0.0)
      {
        dl := dl + [Constant(arch[i], samples, 0.0)];
        acts := acts + [Constant(arch[i], samples, 0.0)];
        ins := ins + [Constant(arch[i], samples, 0.0)];
      }
      activations, wInputs, delta := activations + acts, wInputs + ins, delta + dl;
    }

    /** `feedFwd(input)`: activation 0 is the input; weighted input `i` is
      `weights[i] * activations[i] + biases[i]` and activation `i+1` the
      shared activation of it. The bias vector is added to the product, so
      the input is a single column; layers 0 and 1 are written unguarded,
      so there are at least two layers. */
    method FeedFwd(x: Matrix)
      requires Valid() && numLayers > 1 && x.rows == arch[0] && x.cols == 1
      requires |activations| >= numLayers && |wInputs| >= numLayers - 1
      modifies this
      ensures Valid() && Snapshot() == old(Snapshot()) && delta == old(delta)
      ensures |activations| == |old(activations)| && |wInputs| == |old(wInputs)|
      ensures forall i {:trigger activations[i]} | 0 <= i < numLayers :: activations[i] == Activation(Params(), x, i)
      ensures forall i {:trigger wInputs[i]} | 0 <= i < numLayers - 1 :: wInputs[i] == WInput(Params(), x, i)
      ensures forall i | numLayers <= i < |activations| :: activations[i] == old(activations[i])
      ensures forall i | numLayers - 1 <= i < |wInputs| :: wInputs[i] == old(wInputs[i])
    {
      ghost var p := Params();
      var acts, ins := activations[0 := x], wInputs;
      ins := ins[0 := AddColumn(MatMul(weights[0], x), biases[0])];
      acts := acts[1 := activationFun.activation(ins[0])];
      for i := 1 to numLayers - 1
        invariant |acts| == |activations| && |ins| == |wInputs|
        invariant forall k {:trigger acts[k]} | 0 <= k <= i :: acts[k] == Activation(p, x, k)
        invariant forall k {:trigger ins[k]} | 0 <= k < i :: ins[k] == WInput(p, x, k)
        invariant forall k | numLayers <= k < |acts| :: acts[k] == activations[k]
        invariant forall k | numLayers - 1 <= k < |ins| :: ins[k] == wInputs[k]
      {
        var z := AddColumn(MatMul(weights[i], acts[i]), biases[i]);
        assert z == WInput(p, x, i);
        ins := ins[i := z];
        acts := acts[i + 1 := activationFun.activation(z)];
      }
      activations, wInputs := acts, ins;
    }

    /** `backProp(x, y)`: a forward pass, then the back layer's error
      `cost_grad(y)` times the derivative at the back weighted input,
      copied into the back bias gradient and multiplied by the transposed
      activation `num_layers - 2` into the back weight gradient. Nothing
      else is written. */
    method BackProp(x: Matrix, y: Matrix)
      requires Valid() && numLayers > 1 && x.rows == arch[0] && x.cols == 1 && y.cols == 1 && Allocated()
      modifies this
      ensures Valid() && Allocated() && Params() == old(Params())
      ensures VectorSequential.Fed(Params(), x, activations, wInputs)
      ensures Snapshot() == BackPropped(old(Snapshot()), x, y)
      ensures delta == old(delta)[numLayers - 2 := Delta(Params(), x, y, VectorSequential.OutputError, numLayers - 2)]
    {
      FeedFwd(x);
      ghost var p := Params();
      var e := Mul(CostGrad(y), activationFun.prime(wInputs[|wInputs| - 1]));
      assert e == Delta(p, x, y, VectorSequential.OutputError, numLayers - 2) by {
        assert activations[numLayers - 1] == Activation(p, x, numLayers - 1);
        assert wInputs[numLayers - 2] == WInput(p, x, numLayers - 2);
      }
      delta := delta[|delta| - 1 := e];
      nablaB := nablaB[|nablaB| - 1 := delta[|delta| - 1]];
      nablaW := nablaW[|nablaW| - 1 := MatMul(delta[|delta| - 1], Transpose(activations[numLayers - 2]))];
      assert activations[numLayers - 2] == Activation(p, x, numLayers - 2);
    }

    /** The sample loop of an epoch: `backProp` on column `indices[i]` of
      `x` and `y` for every `i < batch_size`. */
    method BackPropSamples(x: Matrix, y: Matrix, indices: seq<int>, batchSize: nat)
      requires Valid() && numLayers > 1 && x.rows == arch[0] && Allocated() && batchSize <= |indices|
      modifies this
      ensures Valid() && Allocated()
      ensures Snapshot() == Samples(BackGradients, old(Snapshot()), x, y, indices, batchSize)
      ensures BackSlotOnly(old(delta), delta)
      ensures batchSize > 0 ==> SamplePassed(old(Params()), x, y, indices[batchSize - 1], activations, wInputs, delta)
    {
      ghost var s := Snapshot();
      for i := 0 to batchSize
        invariant Valid() && Allocated() && Params() == s.p
        invariant Snapshot() == Samples(BackGradients, s, x, y, indices, i)
        invariant BackSlotOnly(old(delta), delta)
        invariant i > 0 ==> SamplePassed(s.p, x, y, indices[i - 1], activations, wInputs, delta)
      {
        BackProp(Columns(x, [indices[i]]), Columns(y, [indices[i]]));
      }
    }

    /** The update loop of `SGD`: `weights[i] -= rate * nabla_w[i]` and
      `biases[i] -= rate * nabla_b[i]` for all `num_layers - 1` layers,
      with no decay term. */
    method ApplyGradients(rate: real)
      requires Valid()
      modifies this
      ensures Valid() && Snapshot() == Update(old(Snapshot()), rate)
      ensures activations == old(activations) && wInputs == old(wInputs) && delta == old(delta)
    {
      weights, biases := StepLayers(weights, biases, nablaW, nablaB, rate);
    }

    /** Epoch `k` of `SGD` from `s0`: the sample loop over the `k`-th
      shuffle, then the update. Its last `backProp` stays in the pass
      buffers, made under the parameters before the update. */
    method EpochStep(x: Matrix, y: Matrix, orders: seq<seq<int>>, k: nat, batchSize: nat, rate: real, ghost s0: State)
      requires Valid() && numLayers > 1 && x.rows == arch[0] && Allocated()
      requires k < |orders| && forall i | 0 <= i < |orders| :: batchSize <= |orders[i]|
      requires s0.Valid() && |s0.p.weights| > 0 && Snapshot() == Train(BackGradients, s0, x, y, orders, k, batchSize, rate)
      modifies this
      ensures Valid() && Allocated()
      ensures Snapshot() == Train(BackGradients, s0, x, y, orders, k + 1, batchSize, rate)
      ensures BackSlotOnly(old(delta), delta)
      ensures batchSize > 0 ==> SamplePassed(old(Params()), x, y, orders[k][batchSize - 1], activations, wInputs, delta)
    {
      BackPropSamples(x, y, orders[k], batchSize);
      ApplyGradients(rate);
    }

    /** `SGD(x, y, epochs, batch_size, lr)`: `initSGD` for all `train_size`
      columns, then per epoch a shuffle of the sample indices (`orders[k]`
      is the order after the `k`-th shuffle), `backProp` on the first
      `batch_size` of them and one update with `rate = lr/batch_size`.
      The indices come from `0 .. train_size-1`, so `x` and `y` have that
      many columns and the batch is no larger. */
    method SGD(x: Matrix, y: Matrix, epochs: int, batchSize: int, lr: real, orders: seq<seq<int>>)
      requires Valid() && numLayers > 1 && x.rows == arch[0]
      requires 0 < batchSize <= x.cols <= y.cols
      requires activations == [] && wInputs == [] && delta == []
      requires |orders| == MatrixSequential.EpochCount(epochs)
      requires forall k | 0 <= k < |orders| :: |orders[k]| == x.cols
      requires forall k | 0 <= k < |orders| :: Batching.IsShuffle(orders[k], x.cols)
      modifies this
      ensures Valid() && Allocated()
      ensures Snapshot() == Train(BackGradients, old(Snapshot()), x, y, orders, |orders|, batchSize, MatrixSequential.StepSize(lr, batchSize))
      ensures EarlyErrors(x.cols)
      ensures |orders| == 0 ==> Fresh(x.cols)
      ensures |orders| > 0 ==>
        SamplePassed(Train(BackGradients, old(Snapshot()), x, y, orders, |orders| - 1, batchSize, MatrixSequential.StepSize(lr, batchSize)).p,
                     x, y, orders[|orders| - 1][batchSize - 1], activations, wInputs, delta)
    {
      InitSGD(x.cols);
      assert Fresh(x.cols) && EarlyErrors(x.cols) by {
        assert |old(activations)| == |old(wInputs)| == |old(delta)| == 0;
      }
      Epochs(x, y, epochs, batchSize, MatrixSequential.StepSize(lr, batchSize), orders, x.cols);
    }

    /** The epoch loop of `SGD`, on buffers that `initSGD(n)` allocated:
      the error slots before the back one are never written, and after the
      last epoch the pass buffers hold the last sample's `backProp` under
      the parameters before the final update. */
    method Epochs(x: Matrix, y: Matrix, epochs: int, batchSize: nat, rate: real, orders: seq<seq<int>>, ghost n: nat)
      requires Valid() && numLayers > 1 && x.rows == arch[0] && Allocated()
      requires 0 < batchSize && |orders| == MatrixSequential.EpochCount(epochs)
      requires forall k | 0 <= k < |orders| :: batchSize <= |orders[k]|
      requires EarlyErrors(n) && Fresh(n)
      modifies this
      ensures Valid() && Allocated()
      ensures Snapshot() == Train(BackGradients, old(Snapshot()), x, y, orders, |orders|, batchSize, rate)
      ensures EarlyErrors(n)
      ensures |orders| == 0 ==> Fresh(n)
      ensures |orders| > 0 ==>
        SamplePassed(Train(BackGradients, old(Snapshot()), x, y, orders, |orders| - 1, batchSize, rate).p,
                     x, y, orders[|orders| - 1][batchSize - 1], activations, wInputs, delta)
    {
      BackGradientsDefined();
      ghost var s := Snapshot();
      ghost var before, last := s.p, 0;
      var k := 0;
      while k < epochs
        invariant 0 <= k <= |orders|
        invariant Valid() && Allocated()
        invariant Snapshot() == Train(BackGradients, s, x, y, orders, k, batchSize, rate)
        invariant EarlyErrors(n)
        invariant |orders| == 0 ==> Fresh(n)
        invariant k > 0 ==> before == Train(BackGradients, s, x, y, orders, k - 1, batchSize, rate).p
        invariant k > 0 ==> last == orders[k - 1][batchSize - 1]
        invariant k > 0 ==> SamplePassed(before, x, y, last, activations, wInputs, delta)
      {
        before, last := Params(), orders[k][batchSize - 1];
        EpochStep(x, y, orders, k, batchSize, rate, s);
        k := k + 1;
      }
      assert k == |orders|;
    }

    /** `cost_grad(y)`: the output activation minus the target. */
    function CostGrad(y: Matrix): (g: Matrix)
      requires |activations| > 0
      reads this
      ensures g.Valid() && g.SameShape(activations[|activations| - 1])
      ensures forall r, c | 0 <= r < g.rows && 0 <= c < g.cols ::
        g.At(r, c) == activations[|activations| - 1].At(r, c) - y.At(r, c)
    {
      Sub(activations[|activations| - 1], y)
    }

    /** `cost_grad(y)` times the derivative is the back layer's error
      `OutputError`, so `OutputErrorAtTarget` covers it. */
    lemma CostGradTimesDerivative(y: Matrix, pz: Matrix)
      requires |activations| > 0
      ensures Mul(CostGrad(y), pz) == VectorSequential.OutputError(activations[|activations| - 1], y, pz)
    {
    }

    /** `cost_grad(y)` is the zero matrix exactly when the output activation
      equals the target. */
    lemma CostGradZeroAtTarget(y: Matrix)
      requires |activations| > 0 && activations[|activations| - 1].Valid() && y.Valid()
      requires y.SameShape(activations[|activations| - 1])
      ensures CostGrad(y) == Constant(y.rows, y.cols, 0.0) <==> activations[|activations| - 1] == y
    {
      SubZeroIffEqual(activations[|activations| - 1], y);
    }

    /** `accuracy(x, y)`: for every test input a forward pass, then the
      index of the largest output entry compared with the index of the
      largest target entry; the count of matches divided by the number of
      inputs. `maxCoeff` needs non-empty vectors, so the output layer has a
      unit, the activation keeps shapes and no target is empty. */
    method Accuracy(xs: seq<Matrix>, ys: seq<Matrix>) returns (r: Option<real>)
      requires Valid() && numLayers > 1 && Allocated() && arch[numLayers - 1] > 0
      requires ShapePreserving(Params())
      requires |xs| <= |ys|
      requires forall i | 0 <= i < |xs| :: xs[i].rows == arch[0] && xs[i].cols == 1 && ys[i].rows > 0
      modifies this
      ensures Valid() && Allocated() && Snapshot() == old(Snapshot())
      ensures r == Batching.Ratio(Batching.Matches(Predictions(Params(), xs, arch[numLayers - 1]), Targets(ys, |xs|)), |xs|)
      ensures r.Some? <==> |xs| > 0
      ensures r.Some? ==> 0.0 <= r.value <= 1.0
      ensures |xs| > 0 ==> VectorSequential.Fed(Params(), xs[|xs| - 1], activations, wInputs)
    {
      ghost var p := Params();
      ghost var predicted := Predictions(p, xs, arch[numLayers - 1]);
      ghost var expected := Targets(ys, |xs|);
      var sum := 0;
      for i := 0 to |xs|
        invariant Valid() && Allocated() && Snapshot() == old(Snapshot())
        invariant sum == Batching.Matches(predicted[..i], expected[..i])
        invariant i > 0 ==> VectorSequential.Fed(p, xs[i - 1], activations, wInputs)
      {
        sum := AccuracyStep(xs, ys, i, sum, predicted, expected);
      }
      assert predicted[..|xs|] == predicted;
      assert expected[..|xs|] == expected;
      Batching.MatchesAllIff(predicted, expected);
      r := Batching.Ratio(sum, |xs|);
    }

    /** One pass of the counting loop of `accuracy`, at input `i`. */
    method AccuracyStep(xs: seq<Matrix>, ys: seq<Matrix>, i: nat, sum: int, ghost predicted: seq<int>, ghost expected: seq<int>)
      returns (sum': int)
      requires Valid() && numLayers > 1 && Allocated() && arch[numLayers - 1] > 0
      requires ShapePreserving(Params())
      requires i < |xs| <= |ys|
      requires forall k | 0 <= k < |xs| :: xs[k].rows == arch[0] && xs[k].cols == 1 && ys[k].rows > 0
      requires predicted == Predictions(Params(), xs, arch[numLayers - 1]) && expected == Targets(ys, |xs|)
      requires sum == Batching.Matches(predicted[..i], expected[..i])
      modifies this
      ensures Valid() && Allocated() && Snapshot() == old(Snapshot())
      ensures sum' == Batching.Matches(predicted[..i + 1], expected[..i + 1])
      ensures VectorSequential.Fed(Params(), xs[i], activations, wInputs)
    {
      FeedFwd(xs[i]);
      ghost var p := Params();
      ActivationShape(p, arch, xs[i], numLayers - 1);
      assert activations[numLayers - 1] == Activation(p, xs[i], numLayers - 1);
      var pred := ArgMaxColumn(activations[|activations| - 1], 0, activations[|activations| - 1].rows);
      var test := ArgMaxColumn(ys[i], 0, ys[i].rows);
      assert predicted[..i + 1][..i] == predicted[..i];
      assert expected[..i + 1][..i] == expected[..i];
      sum' := sum + (if pred == test then 1 else 0);
    }

    /** `getLayer(i)`: activation `i`, converted to a vector, which needs a
      single column. */
    method GetLayer(i: int) returns (v: Matrix)
      requires 0 <= i < |activations| && activations[i].cols == 1
      ensures v == activations[i] && v.cols == 1
    {
      v := activations[i];
    }
  }
}
