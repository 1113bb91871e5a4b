/** The layer objects of include/layers.h and src/layers.cpp.

    Each layer keeps a `BaseLayer` with its two links, written as positions in
    the network's list of layers rather than as pointers. The shared base
    class becomes a `base` object held by each concrete layer, since the
    virtual interface is only ever used through the concrete classes here.
    Tensors of rank 2 are `Matrix` values; the activation function and its
    derivative, and the random weight initialisation, are parameters. */
module Layers {
  import opened Outcomes
  import opened Shapes
  import opened Matrices
  import EigenFuns
  import Convolutions

  /** `BaseLayer`: the successor and predecessor links. */
  class BaseLayer {
    var next: Option<nat>
    var prev: Option<nat>

    /** Both links start out null. */
    constructor ()
      ensures next == None && prev == None
    {
      next := None;
      prev := None;
    }

    /** `next()`: the stored successor link. */
    method Next() returns (r: Option<nat>)
      ensures r == next
    {
      r := next;
    }

    /** `prev()`: the stored predecessor link. */
    method Prev() returns (r: Option<nat>)
      ensures r == prev
    {
      r := prev;
    }

    /** The default `init(n)` leaves the layer as it is. */
    method Init(n: nat)
      ensures next == old(next) && prev == old(prev)
    {
    }

    /** The default `update(rate, mu, size)` leaves the layer as it is. */
    method Update(rate: real, mu: real, size: real)
      ensures next == old(next) && prev == old(prev)
    {
    }
  }

  /** A tensor of any rank: its extents and its elements in column-major
      order. */
  datatype Dense = Dense(shape: seq<int>, data: seq<real>)

  /** `InputLayer<N>`: holds whatever it was last fed. */
  class InputLayer {
    const base: BaseLayer
    const shape: seq<int>
    var act: Dense

    constructor (shape: seq<int>)
      ensures this.shape == shape && fresh(base) && base.next == None && base.prev == None
    {
      this.shape := shape;
      base := new BaseLayer();
      act := Dense(seq(|shape| + 1, _ => 0), []);
    }

    /** `init(n_samples)`: a fresh activation whose shape is the layer's own
        shape followed by the sample count. The elements are left
        uninitialised by the source and are given here as `contents`. */
    method Init(nSamples: int, contents: seq<real>)
      modifies this
      ensures act.shape == shape + [nSamples] && act.data == contents
      ensures act.shape[..|shape|] == shape && act.shape[|shape|] == nSamples
    {
      act := Dense(shape + [nSamples], contents);
    }

    /** `fwd(input)`: stores the input as the activation, unchanged. */
    method FwdInput(input: Dense)
      modifies this
      ensures act == input
    {
      act := input;
    }

    /** `get_act()`. */
    method GetAct() returns (a: Dense)
      ensures a == act
    {
      a := act;
    }

    /** `get_grad()`: the activation as well. */
    method GetGrad() returns (g: Dense)
      ensures g == act
    {
      g := act;
    }

    /** `fwd()`, `bwd()`, `bwd(t)` and `initParams()` do nothing. */
    method Fwd()
      ensures act == old(act)
    {
    }
  }

  /** `FCLayer`: a fully connected layer of `size` units. Batch shapes are
      `[units, samples]`. */
  class FCLayer {
    const base: BaseLayer
    const size: nat
    var inShape: seq<int>
    var inBatchShape: seq<int>
    var outBatchShape: seq<int>
    var weights: Matrix
    var biases: seq<real>
    var winputs: Matrix
    var act: Matrix
    var grad: Matrix
    var nablaB: Matrix
    var nablaW: Matrix

    ghost predicate Valid()
      reads this
    {
      |inShape| == 1 && |inBatchShape| == 2 && |outBatchShape| == 2 && weights.Valid()
    }

    /** `FCLayer(size)`: the output batch shape starts with `size`; the
        entries the source leaves unset are `unset`. */
    constructor (size: nat, unset: int)
      ensures Valid() && this.size == size && fresh(base) && base.next == None && base.prev == None
      ensures outBatchShape == [size, unset] && inBatchShape == [unset, unset] && inShape == [unset]
    {
      this.size := size;
      base := new BaseLayer();
      inShape := [unset];
      inBatchShape := [unset, unset];
      outBatchShape := [size, unset];
      weights := Constant(0, 0, 0.0);
      biases := [];
      winputs, act, grad := Constant(0, 0, 0.0), Constant(0, 0, 0.0), Constant(0, 0, 0.0);
      nablaB, nablaW := Constant(0, 0, 0.0), Constant(0, 0, 0.0);
    }

    /** `initParams()`: the input shape is the predecessor's output shape;
        the weights are `size x inputs` and the biases have `size` entries,
        filled with the given samples of the random initialiser. */
    method InitParams(prevShape: seq<int>, sampleW: (int, int) -> real, sampleB: int -> real)
      requires Valid() && |prevShape| == 1 && prevShape[0] >= 0
      modifies this
      ensures Valid() && inShape == prevShape
      ensures inBatchShape == [prevShape[0], old(inBatchShape[1])] && outBatchShape == old(outBatchShape)
      ensures weights.rows == size && weights.cols == prevShape[0]
      ensures forall r, c | 0 <= r < size && 0 <= c < prevShape[0] :: weights.At(r, c) == sampleW(r, c)
      ensures |biases| == size && forall r | 0 <= r < size :: biases[r] == sampleB(r)
      ensures winputs == old(winputs) && act == old(act) && grad == old(grad)
      ensures nablaB == old(nablaB) && nablaW == old(nablaW)
    {
      inShape := prevShape;
      inBatchShape := [prevShape[0], inBatchShape[1]];
      weights := Build(size, prevShape[0], sampleW);
      biases := seq(size, r => sampleB(r));
    }

    /** `init(batch_size)`: the last entry of both batch shapes becomes the
        batch size, the rest is kept, and the buffers are reallocated at
        those shapes with uninitialised contents `fill`. */
    method Init(batchSize: nat, fill: real)
      requires Valid() && inBatchShape[0] >= 0 && outBatchShape[0] >= 0
      modifies this
      ensures Valid()
      ensures outBatchShape == old(outBatchShape)[1 := batchSize]
      ensures inBatchShape == old(inBatchShape)[1 := batchSize]
      ensures act == Constant(outBatchShape[0], batchSize, fill)
      ensures grad == Constant(inBatchShape[0], batchSize, fill)
      ensures winputs == Constant(inBatchShape[0], batchSize, fill)
      ensures nablaB == Constant(outBatchShape[0], batchSize, fill)
      ensures nablaW == Constant(outBatchShape[0], batchSize, fill)
      ensures inShape == old(inShape) && weights == old(weights) && biases == old(biases)
    {
      outBatchShape := outBatchShape[1 := batchSize];
      inBatchShape := inBatchShape[1 := batchSize];
      act := Constant(outBatchShape[0], batchSize, fill);
      grad := Constant(inBatchShape[0], batchSize, fill);
      winputs := Constant(inBatchShape[0], batchSize, fill);
      nablaB := Constant(outBatchShape[0], batchSize, fill);
      nablaW := Constant(outBatchShape[0], batchSize, fill);
    }

    /** `fwd()`: needs a predecessor. The weighted input is the product of
        the weights with the predecessor's activation, plus the bias of each
        row broadcast along the row. */
    method Fwd(prevAct: Matrix, activation: Matrix -> Matrix)
      requires Valid() && base.prev.Some?
      requires prevAct.Valid() && weights.cols == prevAct.rows && |biases| == weights.rows
      modifies this
      ensures Valid()
      ensures weights == old(weights) && biases == old(biases) && grad == old(grad)
      ensures nablaB == old(nablaB) && nablaW == old(nablaW)
      ensures inShape == old(inShape) && inBatchShape == old(inBatchShape) && outBatchShape == old(outBatchShape)
      ensures winputs.Valid() && winputs.rows == weights.rows && winputs.cols == prevAct.cols
      ensures forall r, c | 0 <= r < weights.rows && 0 <= c < prevAct.cols ::
        winputs.At(r, c) == Dot(weights, prevAct, r, c, weights.cols) + biases[r]
      ensures act == activation(winputs)
    {
      winputs := EigenFuns.VecSum(MatMul(weights, prevAct), biases, false);
      act := activation(winputs);
    }

    /** `bwd(cost_grad)`: only for the last layer. The cost gradient buffer is
        viewed at the output batch shape, which the view's size check demands
        it fits. */
    method BwdCost(costGrad: seq<real>, prevAct: Matrix, gradAct: Matrix -> Matrix)
      requires Valid() && base.next.None?
      requires outBatchShape[0] >= 0 && outBatchShape[1] >= 0
      requires |costGrad| == outBatchShape[0] * outBatchShape[1]
      requires Matrix(outBatchShape[0], outBatchShape[1], costGrad).SameShape(gradAct(winputs))
      requires prevAct.cols == outBatchShape[1] && weights.rows == outBatchShape[0]
      modifies this
      ensures Valid()
      ensures weights == old(weights) && biases == old(biases) && winputs == old(winputs) && act == old(act)
      ensures inShape == old(inShape) && inBatchShape == old(inBatchShape) && outBatchShape == old(outBatchShape)
      ensures nablaB == Mul(Matrix(outBatchShape[0], outBatchShape[1], costGrad), gradAct(winputs))
      ensures nablaW == MatMul(nablaB, Transpose(prevAct))
      ensures grad == MatMul(Transpose(weights), nablaB)
    {
      Backward(Matrix(outBatchShape[0], outBatchShape[1], costGrad), prevAct, gradAct);
    }

    /** `bwd()`: only for a layer with a successor, whose gradient is given. */
    method Bwd(nextGrad: Matrix, prevAct: Matrix, gradAct: Matrix -> Matrix)
      requires Valid() && base.next.Some?
      requires nextGrad.SameShape(gradAct(winputs))
      requires prevAct.cols == nextGrad.cols && weights.rows == nextGrad.rows
      modifies this
      ensures Valid()
      ensures nablaB == Mul(nextGrad, gradAct(old(winputs)))
      ensures nablaW == MatMul(nablaB, Transpose(prevAct))
      ensures grad == MatMul(Transpose(weights), nablaB)
      ensures weights == old(weights) && biases == old(biases) && winputs == old(winputs) && act == old(act)
      ensures inShape == old(inShape) && inBatchShape == old(inBatchShape) && outBatchShape == old(outBatchShape)
    {
      Backward(nextGrad, prevAct, gradAct);
    }

    /** The part both `bwd` overloads share. */
    method Backward(incoming: Matrix, prevAct: Matrix, gradAct: Matrix -> Matrix)
      requires Valid()
      modifies this
      ensures Valid()
      ensures nablaB == Mul(incoming, gradAct(old(winputs)))
      ensures nablaW == MatMul(nablaB, Transpose(prevAct))
      ensures grad == MatMul(Transpose(weights), nablaB)
      ensures weights == old(weights) && biases == old(biases) && winputs == old(winputs) && act == old(act)
      ensures inShape == old(inShape) && inBatchShape == old(inBatchShape) && outBatchShape == old(outBatchShape)
    {
      nablaB := Mul(incoming, gradAct(winputs));
      nablaW := MatMul(nablaB, Transpose(prevAct));
      grad := MatMul(Transpose(weights), nablaB);
    }
  }

  /** `ConvolLayer`: weights of shape `[rows, cols, depth]`. Batch shapes
      are the three extents followed by the sample count. */
  class ConvolLayer {
    const base: BaseLayer
    const weightShape: seq<int>
    var weights: seq<real>
    var biases: seq<real>
    var inShape: seq<int>
    var outShape: seq<int>
    var inBatchShape: seq<int>
    var outBatchShape: seq<int>

    /** `ConvolLayer(shape)`: every weight and every one of the `shape[2]`
        biases is 1. */
    constructor (shape: seq<int>)
      requires |shape| == 3 && shape[0] >= 0 && shape[1] >= 0 && shape[2] >= 0
      ensures weightShape == shape && fresh(base) && base.next == None && base.prev == None
      ensures |weights| == Product(shape) && forall j | 0 <= j < |weights| :: weights[j] == 1.0
      ensures |biases| == shape[2] && forall j | 0 <= j < |biases| :: biases[j] == 1.0
    {
      weightShape := shape;
      base := new BaseLayer();
      assert shape == [shape[0], shape[1], shape[2]];
      ProductOf3(shape[0], shape[1], shape[2]);
      MulNonNegative3(shape[0], shape[1], shape[2]);
      weights := seq(Product(shape), _ => 1.0);
      biases := seq(shape[2], _ => 1.0);
      inShape, outShape, inBatchShape, outBatchShape := [], [], [], [];
    }

    /** `init(batch_size)`: the output extents of a valid convolution of the
        predecessor's output with the weights, and batch shapes that append
        the batch size to the input and output extents. */
    method Init(prevShape: seq<int>, batchSize: int)
      requires |prevShape| == 3 && |weightShape| == 3
      modifies this
      ensures inShape == prevShape
      ensures outShape == ConvolOutShape(prevShape, weightShape)
      ensures inBatchShape == prevShape + [batchSize] && outBatchShape == outShape + [batchSize]
      ensures weights == old(weights) && biases == old(biases)
    {
      inShape := prevShape;
      outShape := [inShape[0] - weightShape[0] + 1, inShape[1] - weightShape[1] + 1, inShape[2] * weightShape[2]];
      inBatchShape := inShape + [batchSize];
      outBatchShape := outShape + [batchSize];
    }

    /** `initParams()` and `bwd()` do nothing. */
    method InitParams()
      ensures weights == old(weights) && outShape == old(outShape)
    {
    }
  }

  lemma MulNonNegative3(a: int, b: int, c: int)
    requires a >= 0 && b >= 0 && c >= 0
    ensures a * b * c >= 0
  {
  }

  /** The output extents `ConvolLayer::init` computes from input extents
      `[rows, cols, depth]` and weights `[kr, kc, kernels]`: one output row
      per valid row offset, one column per valid column offset, and one depth
      slice per input slice and kernel. */
  function ConvolOutShape(inShape: seq<int>, weightShape: seq<int>): (s: seq<int>)
    requires |inShape| == 3 && |weightShape| == 3
    ensures |s| == 3
  {
    [inShape[0] - weightShape[0] + 1, inShape[1] - weightShape[1] + 1, inShape[2] * weightShape[2]]
  }

  /** The layer's output extents agree with those of `convolveBatch` for a
      single-channel batch whose kernels are the weights' depth slices. */
  lemma ConvolOutShapeMatchesConvolveBatch(inShape: seq<int>, weightShape: seq<int>, batch: int)
    requires |inShape| == 3 && |weightShape| == 3
    requires Positive(inShape) && Positive(weightShape) && batch > 0
    requires weightShape[0] <= inShape[0] && weightShape[1] <= inShape[1]
    ensures Convolutions.ConvolveBatch([1] + inShape + [batch], [weightShape[2], 1, weightShape[0], weightShape[1]]).Ok?
    ensures Convolutions.ConvolveBatch([1] + inShape + [batch], [weightShape[2], 1, weightShape[0], weightShape[1]]).value
      == [1] + ConvolOutShape(inShape, weightShape) + [batch]
  {
    var input := [1] + inShape + [batch];
    var kernels := [weightShape[2], 1, weightShape[0], weightShape[1]];
    assert input == [1, inShape[0], inShape[1], inShape[2], batch];
    Convolutions.ConvolveBatchShape(input, kernels);
    var expected := [1, inShape[0] - weightShape[0] + 1, inShape[1] - weightShape[1] + 1, weightShape[2] * inShape[2], batch];
    assert Convolutions.ConvolveBatch(input, kernels).value == expected;
    assert expected == [1] + ConvolOutShape(inShape, weightShape) + [batch];
  }
}
