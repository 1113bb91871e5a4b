/** src/sequential.cpp: `Sequential2`, a chain of layers linked through their
    `_prev` and `_next` pointers. The layers are kept in an arena (the list
    the chain was built from) and a link is the position of the layer it
    points to, `None` standing for the null pointer.

    The layers themselves are reached only through virtual calls whose
    bodies belong to the layer classes, so the chain records every call it
    makes, in order, in `calls`; what each call does to its layer is the
    subject of the `Layers` module. */
module LayerChain {
  import opened Outcomes
  import opened Matrices
  import Batching

  /** A layer as the chain sees it: its `_size` and its two links. */
  datatype Node = Node(size: nat, prev: Option<nat>, next: Option<nat>)

  /** A call the chain makes on the layer at position `layer`. */
  datatype Call =
    | InitParams(layer: nat, prevSize: nat)
    | Init(layer: nat, samples: nat)
    | FwdInput(layer: nat, input: Matrix)
    | Fwd(layer: nat)
    | BwdCost(layer: nat, target: Matrix)
    | Bwd(layer: nat)
    | Update(layer: nat, lr: real, mu: real, batch: int)

  /** The links of a wired chain: every layer points back to the one before
      it and forward to the one after it; the front layer has no
      predecessor and the back layer no successor. */
  predicate Wired(ls: seq<Node>) {
    && |ls| > 0
    && (forall i | 0 <= i < |ls| :: ls[i].prev == (if i == 0 then None else Some(i - 1)))
    && (forall i | 0 <= i < |ls| :: ls[i].next == (if i == |ls| - 1 then None else Some(i + 1)))
  }

  /** The layer reached from `from` after following `k` successor links. */
  function FollowNext(ls: seq<Node>, from: Option<nat>, k: nat): Option<nat>
    decreases k
  {
    if k == 0 || from.None? || from.value >= |ls| then from
    else FollowNext(ls, ls[from.value].next, k - 1)
  }

  /** The layer reached from `from` after following `k` predecessor links. */
  function FollowPrev(ls: seq<Node>, from: Option<nat>, k: nat): Option<nat>
    decreases k
  {
    if k == 0 || from.None? || from.value >= |ls| then from
    else FollowPrev(ls, ls[from.value].prev, k - 1)
  }

  /** In a wired chain of `n` layers, `k` successor links from layer `s`
      lead to layer `s + k`, and the link out of the back layer is the null
      pointer that ends the forward walk; from the front, the walk meets
      every layer in list order. */
  lemma {:induction false} WalkForward(ls: seq<Node>, s: nat, k: nat)
    requires Wired(ls) && s < |ls| && s + k <= |ls|
    ensures FollowNext(ls, Some(s), k) == (if s + k < |ls| then Some(s + k) else None)
    decreases k
  {
    if k > 0 {
      if s + 1 < |ls| {
        WalkForward(ls, s + 1, k - 1);
      } else {
        NullStays(ls, k - 1);
      }
    }
  }

  /** Symmetrically, `k` predecessor links from layer `s` lead to layer
      `s - k`, and the link out of the front layer is null. */
  lemma {:induction false} WalkBackward(ls: seq<Node>, s: nat, k: nat)
    requires Wired(ls) && s < |ls| && k <= s + 1
    ensures FollowPrev(ls, Some(s), k) == (if k <= s then Some(s - k) else None)
    decreases k
  {
    if k > 0 {
      if s > 0 {
        WalkBackward(ls, s - 1, k - 1);
      } else {
        NullStays(ls, k - 1);
      }
    }
  }

  lemma NullStays(ls: seq<Node>, k: nat)
    ensures FollowNext(ls, None, k) == None && FollowPrev(ls, None, k) == None
  {
  }

  /** The two directions of a wired chain agree: `j` follows `i` exactly when
      `i` precedes `j`. */
  lemma LinksInverse(ls: seq<Node>)
    requires Wired(ls)
    ensures forall i, j | 0 <= i < |ls| && 0 <= j < |ls| :: ls[i].next == Some(j) <==> ls[j].prev == Some(i)
  {
    forall i, j | 0 <= i < |ls| && 0 <= j < |ls|
      ensures ls[i].next == Some(j) <==> ls[j].prev == Some(i)
    {
      assert ls[i].next == (if i == |ls| - 1 then None else Some(i + 1));
      assert ls[j].prev == (if j == 0 then None else Some(j - 1));
    }
  }

  // ---------------------------------------------------------------------------
  // The calls of each operation, in order
  // ---------------------------------------------------------------------------

  /** `initParams(prev_size)` on every layer after the front one, in order,
      each with the size of the layer before it. */
  function WiringCalls(sizes: seq<nat>, k: nat): (calls: seq<Call>)
    requires 0 < k <= |sizes|
    ensures |calls| == k - 1
  {
    if k == 1 then [] else WiringCalls(sizes, k - 1) + [InitParams(k - 1, sizes[k - 2])]
  }

  /** `init(samples)` on the first `k` layers, in order. */
  function InitCalls(k: nat, samples: nat): (calls: seq<Call>)
    ensures |calls| == k
  {
    if k == 0 then [] else InitCalls(k - 1, samples) + [Init(k - 1, samples)]
  }

  /** The first `k` calls of a forward pass. */
  function ForwardCalls(k: nat, x: Matrix): (calls: seq<Call>)
    requires k > 0
    ensures |calls| == k
  {
    if k == 1 then [FwdInput(0, x)] else ForwardCalls(k - 1, x) + [Fwd(k - 1)]
  }

  /** The first `m + 1` calls of a backward pass over `n` layers. */
  function BackwardCalls(n: nat, y: Matrix, m: nat): (calls: seq<Call>)
    requires 0 < n && m < n
    ensures |calls| == m + 1
  {
    if m == 0 then [BwdCost(n - 1, y)] else BackwardCalls(n, y, m - 1) + [Bwd(n - 1 - m)]
  }

  /** `update(lr, mu, batch)` on the first `k` layers. */
  function UpdateCalls(k: nat, lr: real, mu: real, batch: int): (calls: seq<Call>)
    ensures |calls| == k
  {
    if k == 0 then [] else UpdateCalls(k - 1, lr, mu, batch) + [Update(k - 1, lr, mu, batch)]
  }

  /** The wiring calls `initParams` on layers `1 .. k-1` in order, each
      once, with the size of the layer before it, and never on the front
      layer. */
  lemma {:induction false} WiringOrder(sizes: seq<nat>, k: nat)
    requires 0 < k <= |sizes|
    ensures forall j | 0 <= j < k - 1 :: WiringCalls(sizes, k)[j] == InitParams(j + 1, sizes[j])
  {
    if k > 1 {
      WiringOrder(sizes, k - 1);
    }
  }

  /** `init` passes the same sample count to every layer, in list order. */
  lemma {:induction false} InitOrder(k: nat, samples: nat)
    ensures forall j | 0 <= j < k :: InitCalls(k, samples)[j] == Init(j, samples)
  {
    if k > 0 {
      InitOrder(k - 1, samples);
    }
  }

  /** A forward pass hands the input to the front layer, then calls `fwd()`
      on every later layer exactly once, in list order. */
  lemma {:induction false} ForwardOrder(k: nat, x: Matrix)
    requires k > 0
    ensures ForwardCalls(k, x)[0] == FwdInput(0, x)
    ensures forall j | 0 < j < k :: ForwardCalls(k, x)[j] == Fwd(j)
  {
    if k > 1 {
      ForwardOrder(k - 1, x);
    }
  }

  /** A backward pass hands the cost gradient to the back layer, then calls
      `bwd()` on every earlier layer exactly once, in reverse list order. */
  lemma {:induction false} BackwardOrder(n: nat, y: Matrix, m: nat)
    requires 0 < n && m < n
    ensures BackwardCalls(n, y, m)[0] == BwdCost(n - 1, y)
    ensures forall j | 0 < j <= m :: BackwardCalls(n, y, m)[j] == Bwd(n - 1 - j)
  {
    if m > 0 {
      BackwardOrder(n, y, m - 1);
    }
  }

  /** The update loop calls `update` on every layer once, in list order. */
  lemma {:induction false} UpdateOrder(k: nat, lr: real, mu: real, batch: int)
    ensures forall j | 0 <= j < k :: UpdateCalls(k, lr, mu, batch)[j] == Update(j, lr, mu, batch)
  {
    if k > 0 {
      UpdateOrder(k - 1, lr, mu, batch);
    }
  }

  /** One mini-batch: forward pass on its inputs, backward pass against its
      targets, then one update per layer. */
  function StepCalls(n: nat, xb: Matrix, yb: Matrix, lr: real, mu: real, batch: int): seq<Call>
    requires n > 0
  {
    ForwardCalls(n, xb) + BackwardCalls(n, yb, n - 1) + UpdateCalls(n, lr, mu, batch)
  }

  /** The steps of the first `m` of the given batches, each batch selecting
      columns of `x` and `y`. */
  function BatchRun(n: nat, x: Matrix, y: Matrix, batches: seq<seq<int>>, m: nat, lr: real, mu: real, batch: int): seq<Call>
    requires n > 0 && m <= |batches|
  {
    if m == 0 then []
    else
      BatchRun(n, x, y, batches, m - 1, lr, mu, batch)
      + StepCalls(n, Columns(x, batches[m - 1]), Columns(y, batches[m - 1]), lr, mu, batch)
  }

  /** One epoch over the shuffled `order`: the steps of all its batches,
      then the forward pass of the validation accuracy. */
  function EpochCalls(n: nat, x: Matrix, y: Matrix, order: seq<int>, batch: nat, lr: real, mu: real, valX: Matrix): seq<Call>
    requires n > 0 && 0 < batch
  {
    var batches := Batching.Batches(order, batch);
    BatchRun(n, x, y, batches, |batches|, lr, mu, batch) + ForwardCalls(n, valX)
  }

  /** The first `e` epochs, one per shuffled order. */
  function TrainingCalls(n: nat, x: Matrix, y: Matrix, orders: seq<seq<int>>, e: nat, batch: nat, lr: real, mu: real, valX: Matrix): seq<Call>
    requires n > 0 && e <= |orders| && 0 < batch
  {
    if e == 0 then []
    else TrainingCalls(n, x, y, orders, e - 1, batch, lr, mu, valX)
         + EpochCalls(n, x, y, orders[e - 1], batch, lr, mu, valX)
  }

  // ---------------------------------------------------------------------------
  // Counting the updates
  // ---------------------------------------------------------------------------

  /** Number of `update` calls the layer at position `i` receives. */
  function Updates(calls: seq<Call>, i: nat): nat {
    if |calls| == 0 then 0
    else Updates(calls[..|calls| - 1], i) + (if calls[|calls| - 1].Update? && calls[|calls| - 1].layer == i then 1 else 0)
  }

  lemma {:induction false} UpdatesAppend(a: seq<Call>, b: seq<Call>, i: nat)
    ensures Updates(a + b, i) == Updates(a, i) + Updates(b, i)
    decreases |b|
  {
    if |b| > 0 {
      var b' := b[..|b| - 1];
      assert (a + b)[..|a + b| - 1] == a + b';
      UpdatesAppend(a, b', i);
    } else {
      assert a + b == a;
    }
  }

  lemma {:induction false} NoUpdates(calls: seq<Call>, i: nat)
    requires forall j | 0 <= j < |calls| :: !calls[j].Update?
    ensures Updates(calls, i) == 0
    decreases |calls|
  {
    if |calls| > 0 {
      NoUpdates(calls[..|calls| - 1], i);
    }
  }

  lemma {:induction false} UpdateCallsOnce(k: nat, lr: real, mu: real, batch: int, i: nat)
    ensures Updates(UpdateCalls(k, lr, mu, batch), i) == (if i < k then 1 else 0)
  {
    if k > 0 {
      var calls := UpdateCalls(k, lr, mu, batch);
      assert calls[..k - 1] == UpdateCalls(k - 1, lr, mu, batch);
      UpdateCallsOnce(k - 1, lr, mu, batch, i);
    }
  }

  /** One mini-batch updates every layer exactly once, after its forward and
      backward passes. */
  lemma StepUpdatesOnce(n: nat, xb: Matrix, yb: Matrix, lr: real, mu: real, batch: int, i: nat)
    requires n > 0 && i < n
    ensures Updates(StepCalls(n, xb, yb, lr, mu, batch), i) == 1
    ensures forall j | 0 <= j < 2 * n :: !StepCalls(n, xb, yb, lr, mu, batch)[j].Update?
  {
    var f, b, u := ForwardCalls(n, xb), BackwardCalls(n, yb, n - 1), UpdateCalls(n, lr, mu, batch);
    ForwardOrder(n, xb);
    BackwardOrder(n, yb, n - 1);
    NoUpdates(f, i);
    NoUpdates(b, i);
    UpdateCallsOnce(n, lr, mu, batch, i);
    UpdatesAppend(f, b, i);
    UpdatesAppend(f + b, u, i);
    var step := StepCalls(n, xb, yb, lr, mu, batch);
    assert step == f + b + u;
    forall j | 0 <= j < 2 * n ensures !step[j].Update? {
      if j < n {
        assert step[j] == f[j];
      } else {
        assert step[j] == b[j - n];
      }
    }
  }

  lemma {:induction false} BatchRunUpdates(n: nat, x: Matrix, y: Matrix, batches: seq<seq<int>>, m: nat, lr: real, mu: real, batch: int, i: nat)
    requires 0 <= i < n
    requires m <= |batches|
    ensures Updates(BatchRun(n, x, y, batches, m, lr, mu, batch), i) == m
    decreases m
  {
    if m > 0 {
      var last := batches[m - 1];
      BatchRunUpdates(n, x, y, batches, m - 1, lr, mu, batch, i);
      StepUpdatesOnce(n, Columns(x, last), Columns(y, last), lr, mu, batch, i);
      UpdatesAppend(BatchRun(n, x, y, batches, m - 1, lr, mu, batch),
                    StepCalls(n, Columns(x, last), Columns(y, last), lr, mu, batch), i);
    }
  }

  /** Every layer is updated once per batch, that is `(train - 1) / batch`
      times per epoch; when `batch` divides the training set into `m` full
      batches that is `m - 1` times, the last full batch being skipped. */
  lemma EpochUpdates(n: nat, x: Matrix, y: Matrix, order: seq<int>, batch: nat, lr: real, mu: real, valX: Matrix, i: nat)
    requires 0 <= i < n && 0 < batch <= |order|
    ensures Updates(EpochCalls(n, x, y, order, batch, lr, mu, valX), i) == (|order| - 1) / batch
    ensures forall m: nat | |order| == m * batch :: Updates(EpochCalls(n, x, y, order, batch, lr, mu, valX), i) == m - 1
  {
    var batches := Batching.Batches(order, batch);
    BatchRunUpdates(n, x, y, batches, |batches|, lr, mu, batch, i);
    ForwardOrder(n, valX);
    NoUpdates(ForwardCalls(n, valX), i);
    UpdatesAppend(BatchRun(n, x, y, batches, |batches|, lr, mu, batch), ForwardCalls(n, valX), i);
    Batching.BatchCount(order, batch);
    forall m: nat | |order| == m * batch
      ensures Updates(EpochCalls(n, x, y, order, batch, lr, mu, valX), i) == m - 1
    {
      Batching.LastFullBatchDropped(order, batch, m);
    }
  }

  // ---------------------------------------------------------------------------
  // The chain
  // ---------------------------------------------------------------------------

  /** The links front to back as set up by the constructor: `_prev` of the
      front layer is null and every later layer's points to the one before;
      `initParams` is called on each later layer with the `_size` of the one
      before it. The successor links and the sizes are not touched. */
  method ConnectForward(nodes: seq<Node>) returns (ls: seq<Node>, log: seq<Call>)
    requires |nodes| > 0
    ensures |ls| == |nodes|
    ensures forall j | 0 <= j < |ls| :: ls[j].size == nodes[j].size && ls[j].next == nodes[j].next
    ensures forall j | 0 <= j < |ls| :: ls[j].prev == (if j == 0 then None else Some(j - 1))
    ensures log == WiringCalls(Sizes(nodes), |nodes|)
  {
    var n := |nodes|;
    ls := nodes[0 := nodes[0].(prev := None)];
    log := [];
    var prevLayer: nat := 0;
    var prevSize := ls[0].size;
    for i := 1 to n
      invariant |ls| == n
      invariant forall j | 0 <= j < n :: ls[j].size == nodes[j].size && ls[j].next == nodes[j].next
      invariant forall j | 0 <= j < i :: ls[j].prev == (if j == 0 then None else Some(j - 1))
      invariant prevLayer == i - 1 && prevSize == nodes[i - 1].size
      invariant log == WiringCalls(Sizes(nodes), i)
    {
      ls := ls[i := ls[i].(prev := Some(prevLayer))];
      log := log + [InitParams(i, prevSize)];
      prevSize := ls[i].size;
      prevLayer := i;
    }
  }

  /** The links back to front: `_next` of the back layer is null and every
      earlier layer's points to the one after it. */
  method ConnectBackward(nodes: seq<Node>) returns (ls: seq<Node>)
    requires |nodes| > 0
    ensures |ls| == |nodes|
    ensures forall j | 0 <= j < |ls| :: ls[j].size == nodes[j].size && ls[j].prev == nodes[j].prev
    ensures forall j | 0 <= j < |ls| :: ls[j].next == (if j == |ls| - 1 then None else Some(j + 1))
  {
    var n := |nodes|;
    ls := nodes;
    var nextLayer: Option<nat> := None;
    var i := n;
    while i > 0
      invariant 0 <= i <= n && |ls| == n
      invariant forall j | 0 <= j < n :: ls[j].size == nodes[j].size && ls[j].prev == nodes[j].prev
      invariant forall j | i <= j < n :: ls[j].next == (if j == n - 1 then None else Some(j + 1))
      invariant nextLayer == (if i == n then None else Some(i))
    {
      ls := ls[i - 1 := ls[i - 1].(next := nextLayer)];
      nextLayer := Some(i - 1);
      i := i - 1;
    }
  }

  /** `Sequential2`: the layers in list order and the calls made on them. */
  class Sequential2 {
    var layers: seq<Node>
    var calls: seq<Call>

    predicate Valid()
      reads this
    {
      Wired(layers)
    }

    /** The constructor: sets `_prev` front to back, calling `initParams`
      with the size of the layer before, then sets `_next` back to front.
      The links the layers came with are all overwritten. `_layers[0]` is
      read unguarded, so the list must not be empty. */
    constructor(nodes: seq<Node>)
      requires |nodes| > 0
      ensures Valid() && |layers| == |nodes|
      ensures forall i | 0 <= i < |nodes| :: layers[i].size == nodes[i].size
      ensures calls == WiringCalls(Sizes(nodes), |nodes|)
    {
      var forward, log := ConnectForward(nodes);
      var linked := ConnectBackward(forward);
      layers := linked;
      calls := log;
    }

    /** `init(num_samples)`: passes the sample count to every layer. */
    method Init(samples: nat)
      requires Valid()
      modifies this
      ensures layers == old(layers)
      ensures calls == old(calls) + InitCalls(|layers|, samples)
    {
      for i := 0 to |layers|
        invariant layers == old(layers)
        invariant calls == old(calls) + InitCalls(i, samples)
      {
        calls := calls + [Call.Init(i, samples)];
      }
    }

    /** `fwdProp(input)`: hands the input to the front layer, then follows
      the `_next` links until the null pointer, calling `fwd()` on each
      layer it reaches. */
    method FwdProp(x: Matrix)
      requires Valid()
      modifies this
      ensures layers == old(layers)
      ensures calls == old(calls) + ForwardCalls(|layers|, x)
    {
      var n := |layers|;
      var layer := 0;
      calls := calls + [FwdInput(layer, x)];
      var current := layers[layer].next;
      while current.Some?
        invariant layers == old(layers)
        invariant current.Some? ==> 0 < current.value < n
        invariant calls == old(calls) + ForwardCalls(if current.Some? then current.value else n, x)
        decreases if current.Some? then n - current.value else 0
      {
        calls := calls + [Fwd(current.value)];
        current := layers[current.value].next;
      }
    }

    /** `bkwProp(output)`: hands the cost gradient against `output` to the
      back layer, then follows the `_prev` links until the null pointer,
      calling `bwd()` on each layer it reaches. */
    method BkwProp(y: Matrix)
      requires Valid()
      modifies this
      ensures layers == old(layers)
      ensures calls == old(calls) + BackwardCalls(|layers|, y, |layers| - 1)
    {
      var n := |layers|;
      var layer := n - 1;
      calls := calls + [BwdCost(layer, y)];
      var current := layers[layer].prev;
      while current.Some?
        invariant layers == old(layers)
        invariant current.Some? ==> current.value < n - 1
        invariant calls == old(calls) + BackwardCalls(n, y, if current.Some? then n - 1 - current.value - 1 else n - 1)
        decreases if current.Some? then current.value + 1 else 0
      {
        calls := calls + [Bwd(current.value)];
        current := layers[current.value].prev;
      }
    }

    /** The loop after each mini-batch: `update(lr, mu, batch_size)` on every
      layer in list order. */
    method UpdateAll(lr: real, mu: real, batch: int)
      requires Valid()
      modifies this
      ensures layers == old(layers)
      ensures calls == old(calls) + UpdateCalls(|layers|, lr, mu, batch)
    {
      for i := 0 to |layers|
        invariant layers == old(layers)
        invariant calls == old(calls) + UpdateCalls(i, lr, mu, batch)
      {
        calls := calls + [Update(i, lr, mu, batch)];
      }
    }

    /** `SGD`: `init(batch_size)`, then per epoch one shuffle of the sample
      indices (`orders[k]` is the order after the `k`-th shuffle), the
      mini-batch loop `for (l = 0; l < train_size - batch_size; l += batch_size)`
      and the validation pass. The bound is computed in `size_t`, so a
      training set smaller than one batch makes it wrap and the loop read
      past the index list; a batch size of 0 never advances `l`. Both are
      excluded. */
    method SGD(x: Matrix, y: Matrix, epochs: int, batchSize: int, lr: real, mu: real,
               valX: Matrix, orders: seq<seq<int>>)
      requires Valid()
      requires 0 < batchSize <= x.cols <= y.cols
      requires |orders| == (if epochs < 0 then 0 else epochs)
      requires forall k | 0 <= k < |orders| :: |orders[k]| == x.cols
      requires forall k | 0 <= k < |orders| :: Batching.IsShuffle(orders[k], x.cols)
      modifies this
      ensures layers == old(layers)
      ensures calls == old(calls) + InitCalls(|layers|, batchSize)
                       + TrainingCalls(|layers|, x, y, orders, |orders|, batchSize, lr, mu, valX)
    {
      var n := |layers|;
      Init(batchSize);
      ghost var start := calls;
      for k := 0 to |orders|
        invariant layers == old(layers) && Valid()
        invariant start == old(calls) + InitCalls(n, batchSize)
        invariant calls == start + TrainingCalls(n, x, y, orders, k, batchSize, lr, mu, valX)
      {
        TrainEpoch(x, y, orders, k, batchSize, lr, mu, valX, start);
      }
    }

    /** One turn of the epoch loop: epoch `k` appends its calls to the
      trace of the first `k` epochs. */
    method TrainEpoch(x: Matrix, y: Matrix, orders: seq<seq<int>>, k: nat, batchSize: nat, lr: real, mu: real,
                      valX: Matrix, ghost start: seq<Call>)
      requires Valid() && k < |orders| && 0 < batchSize <= |orders[k]|
      requires calls == start + TrainingCalls(|layers|, x, y, orders, k, batchSize, lr, mu, valX)
      modifies this
      ensures layers == old(layers)
      ensures calls == start + TrainingCalls(|layers|, x, y, orders, k + 1, batchSize, lr, mu, valX)
    {
      ghost var n := |layers|;
      ghost var done := TrainingCalls(n, x, y, orders, k, batchSize, lr, mu, valX);
      ghost var epoch := EpochCalls(n, x, y, orders[k], batchSize, lr, mu, valX);
      RunEpoch(x, y, orders[k], batchSize, lr, mu, valX);
      AppendAssoc(start, done, epoch);
    }

    /** One pass of the epoch loop after the shuffle: the mini-batch loop,
      then the forward pass of `accuracy(val_x, val_y)`, whose value is only
      printed. */
    method RunEpoch(x: Matrix, y: Matrix, indices: seq<int>, batchSize: nat, lr: real, mu: real, valX: Matrix)
      requires Valid() && 0 < batchSize <= |indices|
      modifies this
      ensures layers == old(layers)
      ensures calls == old(calls) + EpochCalls(|layers|, x, y, indices, batchSize, lr, mu, valX)
    {
      RunBatches(x, y, indices, batchSize, lr, mu);
      FwdProp(valX);
    }

    /** The body of the mini-batch loop: `copy_n` of the batch
      `indices[l .. l+batch)`, forward pass on the inputs it selects,
      backward pass against the targets it selects, one update per layer. */
    method TrainStep(x: Matrix, y: Matrix, indices: seq<int>, l: nat, batch: nat, lr: real, mu: real)
      requires Valid() && l + batch <= |indices|
      modifies this
      ensures layers == old(layers)
      ensures calls == old(calls) + StepCalls(|layers|, Columns(x, indices[l .. l + batch]),
                                              Columns(y, indices[l .. l + batch]), lr, mu, batch)
    {
      var subIndices := indices[l .. l + batch];
      var xb, yb := Columns(x, subIndices), Columns(y, subIndices);
      FwdProp(xb);
      BkwProp(yb);
      UpdateAll(lr, mu, batch);
      var n := |layers|;
      assert calls == old(calls) + ForwardCalls(n, xb) + BackwardCalls(n, yb, n - 1) + UpdateCalls(n, lr, mu, batch);
    }

    /** The mini-batch loop of one epoch over the shuffled `indices`: while
      `l < train_size - batch_size`, the batch `indices[l .. l+batch)` is
      copied out, the inputs and targets it selects go through a forward
      and a backward pass, and every layer is updated. */
    method RunBatches(x: Matrix, y: Matrix, indices: seq<int>, batchSize: nat, lr: real, mu: real)
      requires Valid() && 0 < batchSize <= |indices|
      modifies this
      ensures layers == old(layers)
      ensures calls == old(calls) + BatchRun(|layers|, x, y, Batching.Batches(indices, batchSize),
                                             |Batching.Batches(indices, batchSize)|, lr, mu, batchSize)
    {
      var n := |layers|;
      var train := |indices|;
      ghost var batches := Batching.Batches(indices, batchSize);
      var l := 0;
      ghost var m := 0;
      while l < train - batchSize
        invariant layers == old(layers) && Valid()
        invariant l == m * batchSize && m <= |batches|
        invariant calls == old(calls) + BatchRun(n, x, y, batches, m, lr, mu, batchSize)
        decreases train - l
      {
        Batching.BatchRuns(indices, batchSize, m);
        Batching.BatchAt(indices, batchSize, 0, m);
        assert indices[l .. l + batchSize] == batches[m];
        ghost var done := BatchRun(n, x, y, batches, m, lr, mu, batchSize);
        TrainStep(x, y, indices, l, batchSize, lr, mu);
        AppendAssoc(old(calls), done, StepCalls(n, Columns(x, batches[m]), Columns(y, batches[m]), lr, mu, batchSize));
        assert (m + 1) * batchSize == l + batchSize;
        l := l + batchSize;
        m := m + 1;
      }
      Batching.BatchRuns(indices, batchSize, m);
    }

    /** `accuracy(x, y)`: a forward pass over `x`, then the count of columns
      of the back layer's activation `pred` whose first largest entry is at
      row `static_cast<int>(y(i))`, divided by the number of columns of `x`.
      `pred` is what the back layer holds after the pass. */
    method Accuracy(x: Matrix, y: Matrix, pred: Matrix) returns (r: Option<real>)
      requires Valid()
      requires pred.rows > 0 && pred.cols == x.cols && |y.data| >= x.cols
      modifies this
      ensures layers == old(layers)
      ensures calls == old(calls) + ForwardCalls(|layers|, x)
      ensures r == Batching.Ratio(Batching.Matches(Batching.PredictedLabels(pred), Labels(y, x.cols)), x.cols)
      ensures r.Some? <==> x.cols > 0
      ensures r.Some? ==> 0.0 <= r.value <= 1.0
    {
      FwdProp(x);
      var sum := Batching.CountCorrect(pred, Labels(y, x.cols));
      r := Batching.Ratio(sum, x.cols);
    }
  }

  lemma AppendAssoc(a: seq<Call>, b: seq<Call>, c: seq<Call>)
    ensures a + b + c == a + (b + c)
  {
  }

  function Sizes(nodes: seq<Node>): (s: seq<nat>)
    ensures |s| == |nodes| && forall i | 0 <= i < |nodes| :: s[i] == nodes[i].size
  {
    seq(|nodes|, i requires 0 <= i < |nodes| => nodes[i].size)
  }

  /** `static_cast<int>(y(i))` for the first `n` coefficients of `y`. */
  function Labels(y: Matrix, n: nat): (labels: seq<int>)
    requires n <= |y.data|
    ensures |labels| == n && forall i | 0 <= i < n :: labels[i] == Batching.Trunc(y.data[i])
  {
    seq(n, i requires 0 <= i < n => Batching.Trunc(y.data[i]))
  }
}
