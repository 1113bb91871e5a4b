# NNN core in Dafny

A model of the bookkeeping core of NNN, a small C++ neural-network library built on Eigen. The model covers index, shape and offset arithmetic and the order in which the library writes its buffers. Floating-point values are modelled as `real`.

The modules follow the source files:

- `Outcomes`, `Arith`: `Option`/`Result` wrappers, error kinds, small arithmetic lemmas.
- `Shapes`: element counts, axis permutations, reshapes that Eigen refuses when counts differ, single-pair contractions, image patches.
- `TensorWrap` (include/Tensor.h): `TensorWrapper` (borrowed buffer plus element count, with views) and `TensorShape` (heap copy of a shape); `checkSize` counts in 64-bit `size_t`.
- `Matrices`: column-major dense matrices, Eigen's default layout.
- `EigenFuns` (include/eigenFuns.h): broadcast sum, first-element min/max reducer, transpose permutation, normaliser, `sliced`.
- `SrcEigenFuns` (src/eigenFuns.h): the older seeded reducer, `min`/`max`, 2-D transpose, normaliser.
- `Convolutions` (include/convolutions.h): the forward and both backward convolutions as shape pipelines, with every reshape and contraction checked; the direct correlation sum of tests/testOps.h as the numeric reference.
- `MaxPooling` (include/max_poling.h): the in-place kernel over arrays: window ranges, flat offsets, running maximum and argmax.
- `Layers` (include/layers.h, src/layers.cpp): `BaseLayer`, `InputLayer`, `FCLayer`, `ConvolLayer`.
- `LayerChain` (src/sequential.cpp): `Sequential2`: layers in an arena with links as positions; every virtual call it makes is recorded in order.
- `Batching` (src/sequential.cpp, src/sequential.h): how mini-batches are cut from a shuffled index list; how correct predictions are counted.
- `Backprop`: forward and backward passes and gradient steps, as functions of the parameters.
- `MatrixSequential` (src/sequential.h): the batched fully connected network: `GD`, sampling `SGD`, mini-batch `SGD`.
- `VectorSequential` (sequential.h): the one-sample-at-a-time network with `updateBatch`.
- `SgdSequential` (sequential2.h): the network whose `backProp` stops at the back layer.
- `BatchReading` (include/batchReader.h): the reader base: `begin`, `end`, `reset`.
- `BatchPng` (include/batchPNGReader.h): the directory scan, one-hot labels, size check, iterator.
- `BatchCsv` (include/batchCSVReader.h): the offset scan, the per-sample buffer layout, iterator.

Classes keep the fields the source updates in place; lists of pointers become `seq` fields that the methods reassign. The training methods of `MatrixSequential` (`GD`, `GDValidated`, `SGDSample`, `SGD`) are each proved to leave exactly the parameters that the matching `Backprop` iteration (`Descend`, `BatchSteps`, `EpochSteps`) produces. `VectorSequential.Sequential.UpdateBatch` is proved to take one gradient step from the last sample's `backProp`. `SgdSequential.Sequential.SGD` is proved to leave the state of the module's own `Train` iteration, along with its buffers. The training methods of `LayerChain.Sequential2` (`SGD`, `TrainEpoch`, `RunEpoch`, `TrainStep`) call into the layers through virtual members whose arithmetic is not part of that chain, so they are proved against the ordered trace of the calls they make (`InitCalls`, `TrainingCalls`, `EpochCalls`, `StepCalls`) and not against parameters. Each batch iterator is proved to meet its reader's stop offset after `total / batch` steps.

Two points about the source itself:

- include/layers.h declares `BaseLayer(int)`, while src/layers.cpp defines `BaseLayer(size_t, size_t)`, and the two files differ in other members too. The model follows the bodies in src/layers.cpp; the link fields start null as include/layers.h:16-17 declares.
- `TensorWrapper::checkSize` multiplies in `size_t`, so it accepts a shape whose true element count differs from the buffer's once the product wraps. `TensorWrap.WrappedCheckAcceptsOverflow` shows such a shape. The model keeps this behaviour.

## Model

| member | source | states |
|---|---|---|
| `TensorWrap.TensorWrapper.constructor` | include/Tensor.h:26-31 | the wrapper aliases the tensor's storage (no copy) and records its element count |
| `TensorWrap.TensorWrapper.CheckSize` | include/Tensor.h:14-21 | true exactly when the shape's product, accumulated in 64-bit `size_t`, equals the recorded size; without wrap-around, exactly when the true product equals it |
| `TensorWrap.WrappedCheckAcceptsOverflow` | include/Tensor.h:16-20 | a shape of 2^32 x 2^32 passes the wrapped check for size 0 although it describes 2^64 elements |
| `TensorWrap.TensorWrapper.Get` | include/Tensor.h:34-43 | under the asserted size check, the view shares the wrapper's storage and carries exactly the requested shape |
| `TensorWrap.TensorWrapper.GetFlat` | include/Tensor.h:45-47 | a rank-1 view over the same storage whose single extent is the recorded size |
| `TensorWrap.TensorShape.constructor` | include/Tensor.h:55-59 | the shape object owns a fresh buffer holding every entry of the given shape |
| `TensorWrap.TensorShape.Get` | include/Tensor.h:60-66 | when the requested rank equals the stored count, returns exactly the stored entries |
| `TensorWrap.ShapeRoundTrip` | include/Tensor.h:55-66 | constructing a `TensorShape` and reading it back returns the original shape |
| `Shapes.ReshapeByFactor` | include/convolutions.h:78-88 | a reshape between counts `a*x` and `b*x` (x > 0) is accepted exactly when `a == b` — the rule behind every reshape of the convolution pipelines |
| `Shapes.ContractMatMul` | include/convolutions.h:38-40 | contracting axis 1 of `[m,k]` with axis 0 of `[k,n]` yields `[m,n]` |
| `Shapes.ContractTransposedMatMul` | include/convolutions.h:152-154 | contracting axis 0 of `[k,m]` with axis 0 of `[k,n]` yields `[m,n]` |
| `Matrices.ColumnMajorOffset` | include/eigenFuns.h:21-23 | the column-major offset `r + c*rows` of an in-grid position lies below `rows*cols` and splits back into `r` (remainder) and `c` (quotient) |
| `Matrices.ColumnMajorPosition` | include/eigenFuns.h:21-23 | every offset below `rows*cols` is the column-major offset of the in-grid position (offset % rows, offset / rows) |
| `Matrices.AddColumn` | src/sequential.h:106-111 | element `(r,c)` of the result is `a(r,c) + v(r)`: `colwise() + biases[i]` broadcasts the bias column over every sample |
| `Matrices.SubZeroIffEqual` | src/sequential.h:113-115 | the difference of two same-shaped matrices is all zeros exactly when they are equal |
| `Matrices.ArgMaxColumn` | src/sequential.cpp:117 | the index of a largest entry of column `c`, strictly larger than every entry before it (`maxCoeff(&index)` reports the first maximum) |
| `EigenFuns.MakeVecsum` | include/eigenFuns.h:11-20 | a functor can be built only when the vector's length is the column count (`rowwise`) or the row count (otherwise) |
| `EigenFuns.VecsumAtPosition` | include/eigenFuns.h:21-25 | at the linear index of grid position `(row,col)` the functor yields `mat(row,col) + vec(col)` when rowwise and `mat(row,col) + vec(row)` otherwise |
| `EigenFuns.VecSum` | include/eigenFuns.h:34-42 | `vecSum` keeps the matrix's shape and adds `vec(col)` or `vec(row)` at every position |
| `EigenFuns.ColwiseAddIsVecSum` | src/sequential.h:106-111 | `colwise() +` a bias column is `vecSum(a, v.col(0), false)`: the column added at every position of its row |
| `EigenFuns.ComparerOp.constructor` | include/eigenFuns.h:84-85 | a new reducer holds its condition and is waiting for its first value |
| `EigenFuns.ComparerOp.Reduce` | include/eigenFuns.h:87-94 | the first call returns the value itself; every later call returns `condition(t, accum)`; afterwards the reducer is no longer first |
| `EigenFuns.Min` | include/eigenFuns.h:127-138 | over a non-empty tensor, an element of it that is no larger than any element; over an empty one, the `initialize()` value 0 |
| `EigenFuns.Max` | include/eigenFuns.h:140-151 | over a non-empty tensor, an element of it that is no smaller than any element; over an empty one, 0 |
| `EigenFuns.TransposePermutation` | include/eigenFuns.h:157-162 | `[1, 0, 2, ..., n-1]` is a permutation of the `n` axes that swaps the first two and fixes the rest |
| `EigenFuns.TransposeInvolution` | include/eigenFuns.h:155-164 | `transposed` swaps the first two extents of a shape, and applying it twice gives the original shape |
| `EigenFuns.MakeNormalizer` | include/eigenFuns.h:171-175 | the normaliser stores the tensor's extremes (elements of it when it is non-empty) bounding every element, and the scale factor |
| `EigenFuns.NormalizeEndpoints` | include/eigenFuns.h:176-178 | when max > min, the minimum maps to 0 and the maximum to `mult` |
| `EigenFuns.NormalizeBetween` | include/eigenFuns.h:176-178 | when max > min and `mult >= 0`, every value between the extremes maps into `[0, mult]` |
| `EigenFuns.AssignChip` | include/eigenFuns.h:197 | `out.chip(i, dim) = arg.chip(j, dim)` overwrites exactly the slab at position `i` along `dim` with slab `j` of the source and keeps every other element and the shape |
| `EigenFuns.Sliced` | include/eigenFuns.h:186-200 | the output shape is the input's with extent `dim` replaced by the index count, and the output element at `x` is the input element at `x` with coordinate `dim` replaced by `indices[x[dim]]` |
| `EigenFuns.MaxElement` | include/eigenFuns.h:206 | `*std::max_element(indices)` is an index in the list, no smaller than any other |
| `EigenFuns.SlicedChecked` | include/eigenFuns.h:202-218 | under the intended asserts (at most as many indices as the extent, largest index below the extent) the same shape and elements as `Sliced` |
| `EigenFuns.SlicedChecksRefuseFullSelection` | include/eigenFuns.h:205 | the strict count assert as written rejects selecting all positions `0 .. n-1` of the dimension, which the intended `<=` check admits |
| `EigenFuns.SlicedChecksIntendedExact` | include/eigenFuns.h:205-206 | for non-negative indices the intended checks pass exactly when there are at most as many indices as the extent and each is inside it |
| `SrcEigenFuns.CompareOp.Reduce` | src/eigenFuns.h:16-18 | every call overwrites the accumulator with `condition(t, accum)` |
| `SrcEigenFuns.Min` | src/eigenFuns.h:50-57 | seeded with `t(0,0)`: an element of the 2-D tensor that is no larger than any element |
| `SrcEigenFuns.Max` | src/eigenFuns.h:59-67 | seeded with `t(0,0)`: an element of the 2-D tensor that is no smaller than any element |
| `SrcEigenFuns.Transposed` | src/eigenFuns.h:69-74 | the shuffle by `{1,0}` gives the matrix whose shape is the swapped shape and whose element `(r,c)` is the input's `(c,r)` |
| `SrcEigenFuns.TransposedTwice` | src/eigenFuns.h:69-74 | `{1,0}` is a permutation of two axes and transposing twice gives the original matrix |
| `SrcEigenFuns.MakeMaxNormalize` | src/eigenFuns.h:76-82 | the normaliser stores elements of the tensor that bound every element from below and above |
| `SrcEigenFuns.ApplyRange` | src/eigenFuns.h:83-85 | equal extremes divide by zero (no value); otherwise the minimum maps to 0, the maximum to 1, and everything between them into `[0, 1]` |
| `Convolutions.ForwardShuffle` | include/convolutions.h:72-74 | `{1,2,3,0,4,5}` is a permutation of six axes that moves `channels` to the front and `depth` to position 3 |
| `Convolutions.ForwardContractionWellFormed` | include/convolutions.h:56-62 | the kernel matrix's column count equals the patch matrix's row count (`channels*kr*kc`), and the extracted patches always reshape to the planned patch matrix |
| `Convolutions.KernelMatrixReshape` | include/convolutions.h:60-62 | the kernel bank reshapes to `depth x (channels*kr*kc)` exactly when its second extent is the input's channel count |
| `Convolutions.PositionReshape` | include/convolutions.h:64-70 | the contracted `depth x (outR*outC*in_depth*batch)` matrix reshapes to `pos_contract_shape` exactly when `channels == 1` |
| `Convolutions.OutputReshape` | include/convolutions.h:49-54 | merging the shuffled depth and in-depth axes into `out_shape` keeps the element count |
| `Convolutions.ConvolveBatchShape` | include/convolutions.h:24-89 | `convolveBatch` succeeds exactly when the input and the kernels have one channel, and then yields `[1, ir-kr+1, ic-kc+1, depth*in_depth, batch]` |
| `Convolutions.GradShuffle` | include/convolutions.h:141-143 | `{3,0,1,2,4}` is a permutation of five axes that brings the gradient's depth axis to the front |
| `Convolutions.KernelReverse` | include/convolutions.h:130 | exactly the two spatial kernel axes (2 and 3) are reversed |
| `Convolutions.FullPaddingCoversInput` | include/convolutions.h:148-150 | with padding `gradr-1` on both sides the patch count along an axis is `kr + gradr - 1`, which equals `input_r` exactly when `gradr == input_r - kr + 1` |
| `Convolutions.KernelStackReshape` | include/convolutions.h:131-136 | the kernel bank stacks into `[depth*channels, kr, kc]` exactly when its second extent is the gradient's channel count |
| `Convolutions.MergeLeadingThree` | include/convolutions.h:137-139 | the patches of the stacked kernels always reshape to the `kern_contract_shape` matrix |
| `Convolutions.MergeLeadingFour` | include/convolutions.h:144-146 | the shuffled gradient always reshapes to the `grad_contract_shape` matrix |
| `Convolutions.SplitChannels` | include/convolutions.h:156-160 | the contracted `[input_r*input_c, batch]` matrix reshapes to `[channels, input_r, input_c, batch]` exactly when `channels == 1` |
| `Convolutions.BackwardsConvolveInputShape` | include/convolutions.h:107-177 | for a gradient shaped like the forward output (`grad.dim(3) == kernels.dim(0)` asserted), the input gradient exists exactly for one channel and is `[1, input_r, input_c, batch]`, one rank less than the gradient |
| `Convolutions.InputShuffle` | include/convolutions.h:218-220 | `{3,1,2,0}` is a permutation of four axes that swaps the channel and batch axes |
| `Convolutions.OutputShuffle` | include/convolutions.h:229-231 | `{3,4,0,1,2}` is a permutation of five axes that brings depth and batch to the front |
| `Convolutions.KernelGradPaddingVanishes` | include/convolutions.h:242-243 | the padding `max(outr - inr, 0)` is 0 exactly when `outr <= inr`, and likewise for columns |
| `Convolutions.InputPatchMatrix` | include/convolutions.h:222-224 | the patches of the shuffled input always reshape to the `input_contract_shape` matrix |
| `Convolutions.GradientMatrix` | include/convolutions.h:232-234 | the shuffled gradient reshapes to `depth x (channels*outr*outc*batch)` exactly when `channels == 1` |
| `Convolutions.KernelBankReshape` | include/convolutions.h:236-240 | the `[depth, kr*kc]` product reshapes to the kernel bank shape `[depth, 1, kr, kc]` |
| `Convolutions.InputStage` | include/convolutions.h:216-224 | with `outr = inr - kr + 1` the patch count is `kr*kc` and the patch matrix has its planned shape |
| `Convolutions.OutputStage` | include/convolutions.h:231-234 | for a one-channel gradient the shuffled gradient fits its planned matrix exactly when the input has one channel |
| `Convolutions.ProductStage` | include/convolutions.h:245-262 | for one channel the contraction on pair (1,0) and the final reshape give `[depth, 1, kr, kc]` |
| `Convolutions.BackwardsConvolveKernelShape` | include/convolutions.h:195-263 | for a gradient shaped like the forward output, the kernel gradient exists exactly when the input has one channel and is `[depth, channels, kr, kc]` |
| `Convolutions.DirectCorrelation` | tests/testOps.h:39-49 | the reference loop computes the direct correlation sum of input window `(oh, oc)` with kernel `dk` over `ker_size x ker_size` |
| `Convolutions.OutputDepthIndex` | tests/testOps.h:36 | output depth `d*ker_depth + dk` lies below `depth*ker_depth` and determines `d` and `dk` uniquely |
| `MaxPooling.WindowRange` | include/max_poling.h:25-30 | output row `h` lies in `[hstart, hend)` exactly when `0 <= h < outr` and `h*stride <= r < h*stride + kr`; the same for columns with `kc` and `outc` |
| `MaxPooling.AxisRange` | include/max_poling.h:25-27 | the one-axis form of the window-range equivalence |
| `MaxPooling.FlatInRange` | include/max_poling.h:34 | `idx_flat = r + c*ir + k*ic*ir + i*ic*ir*depth` of an in-range cell lies in `[0, ir*ic*depth*batch)` |
| `MaxPooling.FlatInjective` | include/max_poling.h:34 | two in-range cells share a flat index exactly when all four coordinates agree (the column-major offset) |
| `MaxPooling.ScanAtLeastStart` | include/max_poling.h:35-38 | the scan never lowers an output cell below its start value |
| `MaxPooling.ScanAtLeastWindow` | include/max_poling.h:21-38 | once the scan has passed an input cell of the window, the output cell is at least that input's value |
| `MaxPooling.ScanRaisedBy` | include/max_poling.h:35-38 | an output cell either still holds its start state or was raised (strictly above the start) by a window cell whose value it holds and whose flat index `argmax_out` records |
| `MaxPooling.ScanKeepsEarliest` | include/max_poling.h:21-22 | with strict `>` ties keep the earliest input in scan order (`r` outer, `c` inner): once the scan has raised the start value, every window cell scanned before the recorded one is strictly smaller |
| `MaxPooling.PooledIsWindowMaximum` | include/max_poling.h:14-39 | the final value of each output cell is at least the lowest float and every input of its window, and is either the start state or the value of a window input whose index the argmax holds |
| `MaxPooling.ScanReadsOnlyItsPlane` | include/max_poling.h:19-20 | two inputs that agree on plane `(k, i)` pool to the same cell states there: channels and samples never mix |
| `MaxPooling.SetConstant` | include/max_poling.h:14 | every output cell is set to the given value |
| `MaxPooling.VisitInput` | include/max_poling.h:32-40 | the `h`/`w` loops for one input cell apply exactly one visit to the output cells of that plane and leave every other cell unchanged |
| `MaxPooling.MaxPool` | include/max_poling.h:7-45 | every output/argmax cell ends as the scan of its window from the lowest float (the argmax keeps its old entry when never raised); the input is only read |
| `Layers.BaseLayer.constructor` | include/layers.h:16-17 | both links start out null |
| `Layers.BaseLayer.Next` | src/layers.cpp:59 | `next()` returns the stored successor link unchanged |
| `Layers.BaseLayer.Prev` | src/layers.cpp:60 | `prev()` returns the stored predecessor link unchanged |
| `Layers.BaseLayer.Init` | include/layers.h:22 | the default `init` changes nothing |
| `Layers.BaseLayer.Update` | include/layers.h:30 | the default `update` changes nothing |
| `Layers.InputLayer.constructor` | include/layers.h:65-68 | stores the shape; links start out null |
| `Layers.InputLayer.Init` | include/layers.h:69-74 | the activation's shape is the layer's shape followed by `n_samples` |
| `Layers.InputLayer.FwdInput` | include/layers.h:78-80 | `fwd(input)` stores the input as the activation, unchanged |
| `Layers.InputLayer.GetAct` | include/layers.h:84-86 | `get_act()` returns the stored activation |
| `Layers.InputLayer.GetGrad` | include/layers.h:87-89 | `get_grad()` also returns the activation |
| `Layers.InputLayer.Fwd` | include/layers.h:75-82 | `fwd()`, `bwd()` and `initParams()` change nothing |
| `Layers.FCLayer.constructor` | src/layers.cpp:63-67 | the output batch shape starts with `size`; the other shape entries keep their unset values; links start null |
| `Layers.FCLayer.InitParams` | src/layers.cpp:69-79 | the input shape is the predecessor's, copied into the input batch shape; weights get shape `{out, in}` and biases length `out`, filled from the sampler; nothing else changes |
| `Layers.FCLayer.Init` | src/layers.cpp:81-89 | the last entry of both batch shapes becomes `batch_size` and the others stay; the five buffers are allocated with the batch shapes |
| `Layers.FCLayer.Fwd` | src/layers.cpp:91-96 | needs a predecessor; the weighted input is `W * prev_act` plus the bias in every row (element `(r,c)` is `(W*prev)(r,c) + b(r)`), the activation is `act` of it, and the parameters are unchanged |
| `Layers.FCLayer.BwdCost` | src/layers.cpp:99-104 | needs no successor; `nabla_b` is the cost gradient times `grad_act(winputs)` elementwise, `nabla_w = nabla_b * prev_act^T`, `grad = W^T * nabla_b` |
| `Layers.FCLayer.Bwd` | src/layers.cpp:106-113 | needs a successor; the same three formulas with the successor's gradient in place of the cost gradient |
| `Layers.FCLayer.Backward` | src/layers.cpp:101-103 | the formulas both `bwd` overloads share, leaving parameters, activations and shapes unchanged |
| `Layers.ConvolLayer.constructor` | src/layers.cpp:172-179 | weights of the given shape and `shape[2]` biases, every one set to 1 |
| `Layers.ConvolLayer.Init` | src/layers.cpp:181-194 | the output extents are `[in0 - w0 + 1, in1 - w1 + 1, in2 * w2]`; both batch shapes are the extents followed by `batch_size` |
| `Layers.ConvolLayer.InitParams` | src/layers.cpp:196-197 | `initParams()` changes nothing |
| `Layers.ConvolOutShapeMatchesConvolveBatch` | src/layers.cpp:199-201 | the layer's output extents (plus batch) are exactly the shape `convolveBatch` produces for its one-channel input and kernels |
| `LayerChain.WalkForward` | src/sequential.cpp:44-51 | in a wired chain, `k` successor links from layer `s` lead to layer `s + k`, and to null exactly when that passes the back layer |
| `LayerChain.WalkBackward` | src/sequential.cpp:54-63 | in a wired chain, `k` predecessor links from layer `s` lead to layer `s - k`, and to null once they pass the front layer |
| `LayerChain.NullStays` | src/sequential.cpp:48 | following links from the null pointer stays at null |
| `LayerChain.LinksInverse` | src/sequential.cpp:12-28 | in a wired chain `layers[i].next` is `j` exactly when `layers[j].prev` is `i` |
| `LayerChain.WiringCalls` | src/sequential.cpp:16-22 | the wiring of `k` layers makes `k - 1` `initParams` calls |
| `LayerChain.WiringOrder` | src/sequential.cpp:16-22 | the `j`-th wiring call is `initParams` on layer `j + 1` with `layers[j]._size`; layer 0 never receives one |
| `LayerChain.InitCalls` | src/sequential.cpp:38-42 | `init` makes one call per layer |
| `LayerChain.InitOrder` | src/sequential.cpp:38-42 | the `j`-th call of `init(n)` passes `n` to layer `j` |
| `LayerChain.ForwardCalls` | src/sequential.cpp:44-52 | a forward pass over `k` layers makes `k` calls |
| `LayerChain.ForwardOrder` | src/sequential.cpp:44-52 | the forward pass first feeds the input to the front layer, then calls `fwd()` on every later layer once, in list order |
| `LayerChain.BackwardCalls` | src/sequential.cpp:54-64 | a backward pass over `n` layers makes `n` calls |
| `LayerChain.BackwardOrder` | src/sequential.cpp:54-64 | the backward pass first seeds the back layer with the cost gradient, then calls `bwd()` on every earlier layer once, in reverse order |
| `LayerChain.UpdateCalls` | src/sequential.cpp:91-93 | the update loop makes one call per layer |
| `LayerChain.UpdateOrder` | src/sequential.cpp:91-93 | the `j`-th call of the update loop is `update(lr, mu, batch_size)` on layer `j` |
| `LayerChain.UpdateCallsOnce` | src/sequential.cpp:91-93 | the update loop updates each layer of the chain exactly once and no other position |
| `LayerChain.StepUpdatesOnce` | src/sequential.cpp:86-93 | one mini-batch updates every layer exactly once, and only after its forward and backward passes |
| `LayerChain.BatchRunUpdates` | src/sequential.cpp:84-94 | after `m` mini-batches every layer has been updated exactly `m` times |
| `LayerChain.EpochUpdates` | src/sequential.cpp:84-94 | in one epoch every layer is updated `(train_size - 1) / batch_size` times; when `train_size = m*batch_size` that is `m - 1`, so the last full batch is dropped |
| `LayerChain.ConnectForward` | src/sequential.cpp:11-22 | sets `prev` of layer 0 to null and of layer `j` to `j - 1`, keeps sizes and `next` links, and logs the wiring calls |
| `LayerChain.ConnectBackward` | src/sequential.cpp:23-28 | sets `next` of the back layer to null and of layer `j` to `j + 1`, keeping sizes and `prev` links |
| `LayerChain.Sequential2.constructor` | src/sequential.cpp:7-29 | the chain is wired both ways over the given layers (sizes kept) and has made exactly the wiring calls |
| `LayerChain.Sequential2.Init` | src/sequential.cpp:38-42 | appends exactly the `init(n)` calls, one per layer in order |
| `LayerChain.Sequential2.FwdProp` | src/sequential.cpp:44-52 | walks the successor links from the front and appends exactly the forward-pass calls |
| `LayerChain.Sequential2.BkwProp` | src/sequential.cpp:54-64 | walks the predecessor links from the back and appends exactly the backward-pass calls |
| `LayerChain.Sequential2.UpdateAll` | src/sequential.cpp:91-93 | appends one `update(lr, mu, batch_size)` per layer, in order |
| `LayerChain.Sequential2.SGD` | src/sequential.cpp:66-104 | `init(batch_size)` once, then for each epoch's shuffled order the calls of every mini-batch the loop bound admits followed by the validation forward pass |
| `LayerChain.Sequential2.TrainEpoch` | src/sequential.cpp:79-103 | one turn of the epoch loop appends exactly that epoch's calls |
| `LayerChain.Sequential2.RunEpoch` | src/sequential.cpp:84-96 | the mini-batch loop followed by the validation pass appends exactly the epoch's calls |
| `LayerChain.Sequential2.TrainStep` | src/sequential.cpp:86-93 | one loop body: forward on `x(all, indices[l..l+b))`, backward against the same columns of `y`, then the update loop |
| `LayerChain.Sequential2.RunBatches` | src/sequential.cpp:84-94 | the loop `l = 0, b, 2b, ...` while `l < train - b` appends the steps of exactly the batches `Batches(indices, b)` |
| `LayerChain.Sequential2.Accuracy` | src/sequential.cpp:106-122 | one forward pass; the result is the share of columns whose first argmax equals `int(y(i))`, in `[0, 1]`, undefined (no value) for an empty test set |
| `LayerChain.Labels` | src/sequential.cpp:118 | the target labels are the first `n` coefficients of `y`, each truncated toward zero |
| `Batching.LoopBoundExact` | src/sequential.cpp:84 | with at least one batch of samples the `size_t` bound `train_size - batch_size` does not wrap |
| `Batching.ShortTrainingSetOverruns` | src/sequential.cpp:84-86 | with fewer samples than one batch the bound wraps to a huge value, so the first iteration copies a batch that runs past the index list |
| `Batching.BatchAt` | src/sequential.cpp:84-86 | batch `k` of the loop starting at offset `l` is `indices[l + k*b .. l + k*b + b)`, and it ends strictly inside the list |
| `Batching.BatchesFromRuns` | src/sequential.cpp:84 | the loop test `l < n - b` at `l = l0 + k*b` holds exactly when batch `k` is produced |
| `Batching.BatchRuns` | src/sequential.cpp:84 | the loop from 0 runs batch `k` (at `l = k*b`) exactly when `k*b < n - b` |
| `Batching.BatchesInRange` | src/sequential.cpp:84-87 | every index a batch copies out of a shuffled index list is a sample index below `train_size` |
| `Batching.BatchesFromCount` | src/sequential.cpp:84 | from offset `l` below the end the loop runs `(n - l - 1) / b` batches |
| `Batching.BatchCount` | src/sequential.cpp:84 | one epoch runs `(n - 1) / b` batches and leaves between 1 and `b` samples unused |
| `Batching.LastFullBatchDropped` | src/sequential.cpp:84 | when `train_size = m*b`, only `m - 1` batches run: the last full batch is dropped |
| `Batching.BatchesDisjoint` | src/sequential.cpp:84-86 | when the index list has no repeats, two different batches share no index |
| `Batching.Trunc` | src/sequential.cpp:118 | `static_cast<int>` rounds toward zero: for non-negative `x`, `n <= x < n + 1`; for negative `x`, `n - 1 < x <= n` |
| `Batching.MatchesCountsAgreeing` | src/sequential.cpp:116-119 | the counted sum is the number of positions where prediction and target agree |
| `Batching.MatchesAllIff` | src/sequential.cpp:116-119 | the sum is at most the test size, and equals it exactly when every prediction is right |
| `Batching.PredictedLabels` | src/sequential.cpp:117 | one predicted label per column, each a row index of the prediction |
| `Batching.CountCorrect` | src/sequential.cpp:113-119 | the counting loop returns the number of agreeing positions, a value in `[0, test_size]` |
| `Batching.Ratio` | src/sequential.cpp:121 | the quotient exists exactly for a non-empty test set, lies in `[0, 1]` for a count within the test size, and is 1 when every sample matches |
| `Backprop.ActivationShape` | src/sequential.h:103-114 | for an `arch[0] x n` input, activation `i` is `arch[i] x n`, and `weights[i]` has as many columns as activation `i` has rows |
| `Backprop.DecayStep` | src/sequential.h:163-164 | the weight update `w*(1 - lr*eta/n) - (lr/n)*nabla_w`, element by element, keeping the shape |
| `Backprop.PlainStep` | src/sequential.h:165 | the bias update `b - (lr/n)*nabla_b`, element by element, keeping the shape |
| `Backprop.ZeroGradientSteps` | src/sequential.h:163-165 | with zero gradients the biases are unchanged and the weights are only scaled by `1 - lr*eta/n`; without decay the two updates coincide |
| `Backprop.GradientStepFrom` | src/sequential.h:162-166 | parameters that took the decaying step on every weight and the plain step on every bias are exactly one gradient step |
| `Backprop.StepWeightsAt` | src/sequential.h:162-164 | weight `j` after the update loop is weight `j` after a decaying step along its own gradient `delta[j] * activations[j]^T` |
| `Backprop.StepBiasesAt` | src/sequential.h:162-165 | bias `j` after the update loop is bias `j` after a plain step along the row sum of `delta[j]` |
| `Backprop.GradientStepAt` | src/sequential.h:162-166 | in one gradient step every weight takes the decaying step and every bias the plain step along its own gradient |
| `Backprop.GradientStepKeepsShapes` | src/sequential.h:162-166 | a gradient step keeps every layer's weight shape `arch[i+1] x arch[i]` and every bias shape |
| `MatrixSequential.Writes` | src/sequential.h:122-136 | the error matrices `backProp` writes, one per weight layer counted from the back |
| `MatrixSequential.WritesOrder` | src/sequential.h:122-136 | `backProp` writes error `layers-1-i` at step `i`: strictly from the back layer to the front, and every layer exactly once |
| `MatrixSequential.BufferDeltaIsDelta` | src/sequential.h:122-133 | the error recursion over the buffers the forward pass filled equals the errors of the backpropagation definition |
| `MatrixSequential.BackwardPass` | src/sequential.h:122-136 | the back-layer assignment and the loop `i = 3 .. num_layers` leave every error, bias gradient and weight gradient as the backward recursion defines them, written back to front |
| `MatrixSequential.BackwardResult` | src/sequential.h:124-135 | after the backward pass each `delta[j]`, `nabla_b[j]` (the row sums of `delta[j]`) and `nabla_w[j]` is the one the backpropagation definition gives |
| `MatrixSequential.InitialLayers` | src/sequential.h:78-91 | one sampled `arch[i+1] x arch[i]` weight matrix, one sampled bias column, and two gradient slots of those shapes per layer after the input |
| `MatrixSequential.Heads` | src/sequential.h:210-211 | the batch of each sampling epoch is the first `batch_size` entries of that epoch's shuffled order |
| `MatrixSequential.EpochCount` | src/sequential.h:159 | the loop `for (k = 0; k < epochs; k++)` runs `epochs` times, and not at all for a negative count |
| `MatrixSequential.TargetLabels` | src/sequential.h:280 | the label of column `i` is the truncation of `y(0, i)` |
| `MatrixSequential.Sequential.ValidLayered` | src/sequential.h:78-87 | a network whose weights are `arch[i+1] x arch[i]` and biases `arch[i+1] x 1` is a well-formed pass over `arch` |
| `MatrixSequential.Sequential.constructor` | src/sequential.h:67-101 | one sampled weight matrix, bias column and two gradient slots per layer after the input, the shared activation everywhere except the back layer under `use_softmax`, and empty pass buffers |
| `MatrixSequential.Sequential.InitGD` | src/sequential.h:139-150 | appends an `arch[0] x n` activation and, per later layer, `arch[i] x n` error, activation and weighted-input buffers, keeping what was there and the parameters |
| `MatrixSequential.Sequential.FeedFwd` | src/sequential.h:103-114 | every activation and weighted input is that of the forward pass of `x` under the current parameters; nothing else changes |
| `MatrixSequential.Sequential.BackProp` | src/sequential.h:116-137 | the forward pass of `x`, then every error and gradient as backpropagation against `y` defines them, in back-to-front order; parameters unchanged |
| `MatrixSequential.Sequential.UpdateParams` | src/sequential.h:162-166 | each weight becomes `keep*w - rate*nabla_w` and each bias `b - rate*nabla_b`; the buffers and gradients are untouched |
| `MatrixSequential.Sequential.TrainStep` | src/sequential.h:160-166 | `backProp` plus the update loop is exactly one gradient step from the old parameters |
| `MatrixSequential.Sequential.GD` | src/sequential.h:152-168 | full-batch training leaves the parameters of `epochs` gradient steps over all of `x` with decay `1 - lr*eta/n` and rate `lr/n`; with no epoch, an empty training set is allowed and the parameters are kept |
| `MatrixSequential.Sequential.GDValidated` | src/sequential.h:169-191 | the same parameters as `GD`, with the same allowance for an empty set when no epoch runs, and the activations of the last validation pass over `val_x` left behind when at least one epoch ran |
| `MatrixSequential.Sequential.SGDSample` | src/sequential.h:193-226 | sampling SGD leaves the parameters of one step per epoch on the first `batch_size` indices of that epoch's shuffle, with decay `1 - lr*eta/batch_size` and rate `lr/batch_size` |
| `MatrixSequential.Sequential.SGD` | src/sequential.h:228-265 | mini-batch SGD leaves the parameters of one step per batch that the loop `l < train_size - batch_size` visits in each epoch's shuffle, and the validation forward pass |
| `MatrixSequential.Sequential.RunBatches` | src/sequential.h:247-257 | the mini-batch loop takes exactly one step per batch of `Batches(indices, batch_size)`, in order |
| `MatrixSequential.Sequential.Accuracy` | src/sequential.h:267-283 | after a forward pass over `x`, the fraction of columns whose first largest output is at the label `y(0, i)`; present exactly when there is a column, and between 0 and 1 |
| `MatrixSequential.Sequential.GetLayer` | src/sequential.h:285-287 | activation `i`, which must have one column to become a vector |
| `VectorSequential.OutputError` | sequential.h:78-79 | the back layer's error has the shape of the output activation |
| `VectorSequential.OutputErrorAtTarget` | sequential.h:78-79 | when the output equals the target the back layer's error is zero, whatever the derivative |
| `VectorSequential.Rounds` | sequential.h:103-105 | `n` calls of `backProp` write `n` times one full back-to-front round of error indices |
| `VectorSequential.BackwardPass` | sequential.h:78-96 | the back-layer assignment and the loop `i = 3 .. num_layers` fill every error and gradient slot, back to front, each exactly once |
| `VectorSequential.BackwardResult` | sequential.h:78-96 | with the forward pass in the buffers, every error, bias gradient (equal to the error) and weight gradient is the one backpropagation defines |
| `VectorSequential.InitialLayers` | sequential.h:37-56 | an `arch[0]` activation, then per later layer `arch[i+1] x arch[i]` weights and `arch[i+1]` biases at 0.5 and every other buffer of the matching shape |
| `VectorSequential.Sequential.constructor` | sequential.h:33-57 | `arch.size()` layers with the shared activation, weights and biases set to 0.5 and buffers of the layer sizes |
| `VectorSequential.Sequential.FeedFwd` | sequential.h:59-72 | the activations and weighted inputs are the forward pass of the input under the current parameters; the parameters and gradients are untouched |
| `VectorSequential.Sequential.BackProp` | sequential.h:74-98 | the forward pass of `x`, then errors and gradients as backpropagation against `y` defines them, written back to front |
| `VectorSequential.Sequential.ApplyGradients` | sequential.h:107-110 | each weight and bias moves by `rate` times its gradient buffer; nothing else changes |
| `VectorSequential.Sequential.BackPropAll` | sequential.h:103-105 | after the sample loop the buffers hold the pass of the last sample alone, and every round wrote all error slots |
| `VectorSequential.Sequential.UpdateBatch` | sequential.h:100-111 | the step follows the gradient of the last sample only, scaled by `lr / batch_size`, because each `backProp` overwrites the buffers |
| `VectorSequential.Sequential.CostGradTimesDerivative` | sequential.h:78-79 | `cost_grad(y)` multiplied entry by entry with the activation derivative is the output error the backward pass starts from |
| `VectorSequential.Sequential.CostGradZeroAtTarget` | sequential.h:113-115 | `cost_grad(y)` is all zeros exactly when the output activation equals the target |
| `VectorSequential.Sequential.GetLayer` | sequential.h:117-119 | a copy of activation `i` |
| `SgdSequential.Stored` | sequential2.h:84-87 | a `backProp` writes only the back layer's two gradient slots; the parameters and every earlier slot are kept |
| `SgdSequential.BackPropped` | sequential2.h:80-100 | `backProp` changes no parameter |
| `SgdSequential.Samples` | sequential2.h:135-137 | the sample loop over the first `m` shuffled indices changes no parameter |
| `SgdSequential.Update` | sequential2.h:139-142 | the update loop keeps the number of layers, the activations and both gradient buffers |
| `SgdSequential.Stepped` | sequential2.h:139-142 | one step per layer, keeping the number of layers |
| `SgdSequential.StepLayers` | sequential2.h:139-142 | after the loop every weight and bias has taken exactly one plain step along its own gradient |
| `SgdSequential.Epoch` | sequential2.h:130-142 | an epoch keeps the number of layers and the activations |
| `SgdSequential.Train` | sequential2.h:130-149 | any number of epochs keeps the number of layers and the activations |
| `SgdSequential.LastSampleWins` | sequential2.h:135-137 | after the sample loop the gradient slots hold the gradients of the last sample of the batch alone |
| `SgdSequential.Overwrite` | sequential2.h:84-87 | a second `backProp` overwrites everything the first one stored |
| `SgdSequential.SamplesKeepEarly` | sequential2.h:88-99 | the sample loop never writes the gradient slots of the layers before the back one |
| `SgdSequential.EpochAt` | sequential2.h:130-142 | in an epoch the back layer steps along the last sample's gradients and every earlier layer along the buffer it already held |
| `SgdSequential.EpochEarly` | sequential2.h:139-142 | an epoch moves each earlier layer one step along its unchanged buffer |
| `SgdSequential.TrainEarlyStep` | sequential2.h:130-142 | epoch `e` moves each earlier layer by one more step along the buffer it had at the start |
| `SgdSequential.TrainKeepsEarlyGradients` | sequential2.h:88-99 | no number of epochs changes the gradient buffers of the layers before the back one |
| `SgdSequential.KeepsEarlyStep` | sequential2.h:88-99 | one more epoch keeps those buffers as they were |
| `SgdSequential.TrainStart` | sequential2.h:130 | zero epochs leave the state as it was |
| `SgdSequential.Repeat` | sequential2.h:140-141 | `e` steps along a fixed direction keep the matrix's shape |
| `SgdSequential.StaleDrift` | sequential2.h:88-142 | after `e` epochs every earlier layer is `e` steps along the buffers the constructor left, whatever the data |
| `SgdSequential.DriftStep` | sequential2.h:130-142 | one more epoch adds one more step to that drift |
| `SgdSequential.TimesIsProduct` | sequential2.h:140-141 | `e` equal steps add up to `e` times one step |
| `SgdSequential.RepeatAt` | sequential2.h:140-141 | after `e` steps an entry has moved by exactly `e * rate * g(r, c)` |
| `SgdSequential.RepeatStepAt` | sequential2.h:140-141 | each further step moves an entry by one more `rate * g(r, c)` |
| `SgdSequential.PlainStepAt` | sequential2.h:140-141 | one step moves an entry by `rate * g(r, c)` |
| `SgdSequential.AddOne` | sequential2.h:140-141 | one more subtraction of `v` extends a run of `e - 1` |
| `SgdSequential.Predictions` | sequential2.h:167-168 | one predicted label per test input, each a row index of the output layer |
| `SgdSequential.Targets` | sequential2.h:169 | one expected label per target, each a row index of that target |
| `SgdSequential.Sequential.constructor` | sequential2.h:43-63 | per layer after the input a sampled `arch[i+1] x arch[i]` weight matrix, a sampled bias column and gradient buffers of those shapes; no pass buffers yet |
| `SgdSequential.Sequential.InitSGD` | sequential2.h:102-113 | appends an `arch[0] x n` activation and `arch[i] x n` error, activation and weighted-input buffers per later layer, keeping the parameters, the gradients and what was there |
| `SgdSequential.Sequential.FeedFwd` | sequential2.h:65-78 | the activations and weighted inputs are the forward pass of the input; parameters and gradients unchanged |
| `SgdSequential.Sequential.BackProp` | sequential2.h:80-100 | the forward pass, then only the back layer's error and gradients written; every other slot and every parameter kept |
| `SgdSequential.Sequential.BackPropSamples` | sequential2.h:135-137 | the sample loop leaves the state the sample loop over the first `batch_size` shuffled indices defines; only the back error slot is written, and it and the activations and weighted inputs hold the pass of the last of those samples |
| `SgdSequential.Sequential.ApplyGradients` | sequential2.h:139-142 | the update loop leaves exactly the updated state, with the pass buffers untouched |
| `SgdSequential.Sequential.EpochStep` | sequential2.h:130-142 | one epoch takes the state from `k` to `k + 1` epochs of training and leaves the buffers of its last sample under the parameters it started from |
| `SgdSequential.Sequential.SGD` | sequential2.h:115-150 | `initSGD(train_size)` then the state of `epochs` epochs, each on the first `batch_size` indices of its shuffle with rate `lr / batch_size`; the early error slots keep their `train_size`-column shape, and the buffers hold the last epoch's last sample under the parameters before its update, or the fresh `initSGD` buffers when no epoch ran |
| `SgdSequential.Sequential.Epochs` | sequential2.h:130-149 | the epoch loop leaves the state of all epochs, keeps the early error slots as `initSGD` shaped them, and leaves the last epoch's last sample pass in the buffers |
| `SgdSequential.Sequential.CostGradTimesDerivative` | sequential2.h:84-85 | `cost_grad(y)` multiplied entry by entry with the activation derivative is the output error of the back layer |
| `SgdSequential.Sequential.CostGradZeroAtTarget` | sequential2.h:152-154 | `cost_grad(y)` is all zeros exactly when the output activation equals the target |
| `SgdSequential.Sequential.Accuracy` | sequential2.h:160-175 | the fraction of test inputs whose first largest output row matches the target's first largest row; present exactly when there is an input, and between 0 and 1; no parameter changes |
| `SgdSequential.Sequential.AccuracyStep` | sequential2.h:166-173 | one pass of the counting loop adds exactly the match at input `i` |
| `SgdSequential.Sequential.GetLayer` | sequential2.h:177-179 | activation `i`, which must have one column |
| `BatchReading.AsWrittenReachedOnlyIf` | include/batchReader.h:34-39 | an iterator stepping by `batch` from 0 lands on the as-written stop offset only when the record count is a multiple of the batch or its remainder is half a batch |
| `BatchReading.AsWrittenReachedIf` | include/batchReader.h:34-39 | in those two cases it lands there after `total / batch` steps |
| `BatchReading.TenByThreeNeverStops` | include/batchReader.h:34-39 | with 10 records in batches of 3 the stop offset is 8, which no step count reaches |
| `BatchReading.StopOffset` | include/batchReader.h:34-39 | the corrected stop offset lies within the last batch's width of the end, and equals the as-written one exactly in the cases where that one is reached |
| `BatchReading.StopReached` | include/batchReader.h:31-39 | from offset 0 the iterator meets the corrected stop at step `total / batch` and no other, and every batch before it lies inside the record array |
| `BatchReading.Swap` | include/batchReader.h:41-43 | one exchange swaps entries `i` and `j` and keeps every other entry |
| `BatchReading.SwapPermutes` | include/batchReader.h:41-43 | an exchange only reorders the entries |
| `BatchReading.ShuffledUpTo` | include/batchReader.h:41-43 | every prefix of the shuffle's exchanges keeps the length and the multiset of entries |
| `BatchReading.Shuffled` | include/batchReader.h:41-43 | the whole shuffle is a permutation |
| `BatchReading.Shuffle` | include/batchReader.h:41-43 | the exchange loop computes exactly the shuffle function for the given draws |
| `BatchReading.BatchReader.constructor` | include/batchReader.h:29 | stores the batch size |
| `BatchReading.BatchReader.Begin` | include/batchReader.h:31-33 | the iterator at offset 0 |
| `BatchReading.BatchReader.End` | include/batchReader.h:34-39 | the corrected stop offset, which is a multiple of the batch |
| `BatchReading.BatchReader.Reset` | include/batchReader.h:41-43 | the records become their shuffle for the given draws, a permutation; batch size and count unchanged |
| `BatchPng.LastIndexOf` | include/batchPNGReader.h:133 | the last position of the character, or -1 when it does not occur |
| `BatchPng.Directories` | include/batchPNGReader.h:131-139 | the sub-directory count never exceeds the listing's length |
| `BatchPng.ListedExactly` | include/batchPNGReader.h:132-138 | a record comes from a sub-directory exactly when its path is listed there, has the `.png` extension and carries that directory's label |
| `BatchPng.ListedStep` | include/batchPNGReader.h:132-138 | one turn of the inner loop appends the entry when it is kept |
| `BatchPng.DirectoriesGrow` | include/batchPNGReader.h:139 | a sub-directory's label is below the final directory count |
| `BatchPng.ScanSound` | include/batchPNGReader.h:130-141 | every scanned record comes from a sub-directory that lists it, and its label is a valid class |
| `BatchPng.ScanComplete` | include/batchPNGReader.h:130-141 | every kept file of every sub-directory is scanned, with its directory's label |
| `BatchPng.ScanStep` | include/batchPNGReader.h:130-141 | one turn of the outer loop appends that directory's kept files and counts one more label exactly for a directory |
| `BatchPng.ScanLabelsBelow` | include/batchPNGReader.h:130-141 | every scanned label lies below the number of sub-directories |
| `BatchPng.LabelsOf` | include/batchPNGReader.h:86-87 | the labels of a run of records, in order |
| `BatchPng.OneHot` | include/batchPNGReader.h:84-88 | the one-hot matrix: column `c` holds 1 at row `ls[c]` and 0 elsewhere |
| `BatchPng.OneHotDecodes` | include/batchPNGReader.h:82-90 | the arg-max of each one-hot column gives back its label |
| `BatchPng.ScanDirectory` | include/batchPNGReader.h:132-138 | the inner loop keeps exactly the `.png` entries, labelled with the directory's index |
| `BatchPng.Open` | include/batchPNGReader.h:124-150 | an error exactly when fewer records than one batch were found; otherwise the shuffled scan and the directory count |
| `BatchPng.IterationStops` | include/batchPNGReader.h:152-158 | an iterator from `begin()` equals `end()` exactly after `total / batch` steps, and every batch before lies in the array |
| `BatchPng.PngReader.constructor` | include/batchPNGReader.h:124-143 | the record array is the directory scan and the label count the number of sub-directories |
| `BatchPng.PngReader.Begin` | include/batchPNGReader.h:152 | a fresh iterator at offset 0 with the reader's batch and label count |
| `BatchPng.PngReader.End` | include/batchPNGReader.h:153-158 | a fresh iterator at the corrected stop offset |
| `BatchPng.PngReader.Reset` | include/batchPNGReader.h:160-162 | the records become their shuffle, keeping every label valid |
| `BatchPng.PngIterator.constructor` | include/batchPNGReader.h:51-55 | the given offset, batch and label count and a fresh `num_labels x batch` label buffer |
| `BatchPng.PngIterator.Copy` | include/batchPNGReader.h:63 | the same offset, reader and sizes and a fresh buffer with the same entries |
| `BatchPng.PngIterator.Next` | include/batchPNGReader.h:57-60 | the offset moves one batch forward |
| `BatchPng.PngIterator.Prev` | include/batchPNGReader.h:68-71 | the offset moves one batch back |
| `BatchPng.PngIterator.PostNext` | include/batchPNGReader.h:62-66 | steps forward and returns an iterator at the old offset |
| `BatchPng.PngIterator.PostPrev` | include/batchPNGReader.h:73-77 | steps back and returns an iterator at the old offset |
| `BatchPng.PngIterator.Labels` | include/batchPNGReader.h:82-90 | the buffer becomes the one-hot matrix of the batch's labels |
| `BatchCsv.LineStartIncreasing` | include/batchCSVReader.h:133-134 | lines start at strictly increasing byte offsets |
| `BatchCsv.FindLine` | include/batchCSVReader.h:70 | the search returns a line starting exactly at the offset, or reports that none from line `k` on does |
| `BatchCsv.FindsLine` | include/batchCSVReader.h:70-71 | seeking to a line's start finds that line |
| `BatchCsv.ReadLineAtStart` | include/batchCSVReader.h:70-72 | on a stream that has not failed, `seekg` to a line's start and `getline` give that line's values and leave the stream at the next line |
| `BatchCsv.FailedReadsNothing` | include/batchCSVReader.h:70-72 | once failbit is set, `read_line` extracts nothing and leaves the stream as it was |
| `BatchCsv.SecondEpochReadsNothing` | include/batchCSVReader.h:80-90 | as written, the first `begin()` peeks line 1 of a file and `end()` line 2; after an epoch whose last read is the last line, the next `begin()` peeks 0 values and sets failbit, and every later `read_line` copies nothing |
| `BatchCsv.RewoundPeekIsFirstWidth` | include/batchCSVReader.h:80-90 | the rewinding peek counts the values of the first line whatever state the stream is in, and agrees with the peek as written on a stream just opened |
| `BatchCsv.BlankLineShiftsRecord` | include/batchCSVReader.h:125-136 | with the data lines `1`, blank, `2`, the loop as written records the second sample at the blank line's offset, so that sample is never read |
| `BatchCsv.ScanPointsAtSamples` | include/batchCSVReader.h:125-136 | the corrected scan has one record per non-empty data line and every record points at a non-empty line, its own sample's |
| `BatchCsv.WriteAt` | include/batchCSVReader.h:74-77 | the fields land at positions `off ..` in order and every other position is kept |
| `BatchCsv.SlotIsProduct` | include/batchCSVReader.h:54 | slot `i` starts at `i * num_labels`, column `i` of the column-major buffer |
| `BatchCsv.SlotInside` | include/batchCSVReader.h:52-55 | slot `i` ends at or before where slot `n` starts |
| `BatchCsv.Filled` | include/batchCSVReader.h:52-55 | filling keeps the buffer's length |
| `BatchCsv.FilledBeyond` | include/batchCSVReader.h:52-55 | the first `n` rows leave every position from slot `n` on untouched |
| `BatchCsv.FilledLayout` | include/batchCSVReader.h:52-64 | position `j` of slot `i` holds field `j` of row `i`, or its old value where the row is shorter |
| `BatchCsv.Rows` | include/batchCSVReader.h:68-78 | one row of parsed values per offset, each the values of the line at that offset |
| `BatchCsv.ReadableRowsFit` | include/batchCSVReader.h:68-78 | lines no wider than the first line fit their slots |
| `BatchCsv.ReadSlots` | include/batchCSVReader.h:52-55 | the loop writes exactly the filled buffer: row `i` into slot `i` |
| `BatchCsv.ReadSlot` | include/batchCSVReader.h:68-78 | one `read_line` writes the line's values from the offset on and nothing else |
| `BatchCsv.LabelOffsets` | include/batchCSVReader.h:53-54 | the label offsets of the batch's records, in order |
| `BatchCsv.DataOffsets` | include/batchCSVReader.h:61-62 | the data offsets of the batch's records, in order |
| `BatchCsv.CopyBuffer` | include/batchCSVReader.h:32 | a fresh buffer with the same entries |
| `BatchCsv.IterationStops` | include/batchCSVReader.h:142-150 | an iterator from `begin()` equals `end()` exactly after `total / batch` steps, and every batch before lies in the array |
| `BatchCsv.CsvReader.constructor` | include/batchCSVReader.h:120-140 | one record per non-empty data line, holding that sample's own line offsets; the count is the number of such lines |
| `BatchCsv.CsvReader.Begin` | include/batchCSVReader.h:142-144 | a fresh iterator at offset 0 whose buffers are sized by the rewinding peek: the first line of each file |
| `BatchCsv.CsvReader.End` | include/batchCSVReader.h:145-150 | a fresh iterator at the corrected stop offset |
| `BatchCsv.CsvReader.Reset` | include/batchCSVReader.h:152-154 | the records become their shuffle; the count is kept |
| `BatchCsv.CsvIterator.constructor` | include/batchCSVReader.h:17-24 | the given offset and sizes and fresh buffers of `num_labels * batch` and `num_data * batch` entries |
| `BatchCsv.CsvIterator.Next` | include/batchCSVReader.h:26-29 | the offset moves one batch forward, buffers kept |
| `BatchCsv.CsvIterator.Prev` | include/batchCSVReader.h:37-40 | the offset moves one batch back, buffers kept |
| `BatchCsv.CsvIterator.Copy` | include/batchCSVReader.h:32 | the same offset, reader and sizes with fresh copies of both buffers |
| `BatchCsv.CsvIterator.PostNext` | include/batchCSVReader.h:31-35 | steps forward and returns an iterator at the old offset |
| `BatchCsv.CsvIterator.PostPrev` | include/batchCSVReader.h:42-46 | steps back and returns an iterator at the old offset |
| `BatchCsv.CsvIterator.Labels` | include/batchCSVReader.h:51-57 | the label buffer holds, in slot `i`, the values of the label line of record `begin + i` |
| `BatchCsv.CsvIterator.Data` | include/batchCSVReader.h:59-65 | the data buffer holds, in slot `i`, the values of the data line of record `begin + i` |

## Left out

- File and image input are not modelled: libpng decoding, `imread_bulk`, `std::ifstream`, `getline`/`seekg`/`tellg`, `stof` and the comma splitting in `read_line`/`peek_size`. A CSV file is a sequence of lines, each with its text (which fixes the byte offsets) and its parsed values. An `ifstream` is the index of the line it reads next and its failbit (`BatchCsv.Stream`); eofbit and byte positions inside a line are not modelled. A PNG directory is a list of entries, each a sub-directory with its listed paths or something else. These are foreign library calls and stream I/O.
- Every CSV line is taken to end with exactly one newline, so a last line without one, or a `\r\n` ending, is not modelled. `tellg()` after the read that fails at the end of the stream is -1.
- Randomness is a parameter: the normal samples and `setRandom` of the weight initialisation, and the draws of `std::shuffle` (Fisher-Yates picks for the readers, the shuffled index order of each epoch for the training loops). `mt19937` and `random_device` are not modelled.
- Activation functions, their derivatives, `SoftMax` and the cost functions are parameters: function values with their `grad`/`prime`. Their formulas use floating-point transcendentals.
- Floating point is modelled as `real`: no rounding, overflow, infinity or NaN. Two divisions are modelled with the zero case as an explicit `None` instead of a non-number: the accuracy ratio over an empty test set (`Batching.Ratio`) and the normaliser when `max == min`. Every other division by a count is excluded by a precondition, because the non-number it produces would reach the parameters. The members with such a precondition are `MatrixSequential.Sequential.GD` and `GDValidated` (an empty training set when an epoch runs), the batch-size bounds below, and `VectorSequential.Sequential.UpdateBatch`.
- `MatrixSequential.Sequential.GD` and `GDValidated` promise nothing about an empty training set when an epoch runs. In that case the source's step size `lr / 0` turns every weight into a non-number, which `real` arithmetic cannot express.
- The numeric evaluation of Eigen's `contract`, `extract_image_patches`, `reverse` and `shuffle` is not modelled, because it is library code. Only their shapes are; `Convolutions.DirectCorrelation` gives the numeric meaning.
- The vectorised packet path of the reducers (`reducePacket`, `finalizeBoth`) is not modelled; only the scalar `reduce`/`finalize` path is.
- Storage that Eigen leaves uninitialised is either a parameter (`contents`, `fill`, `uninitialised`) or has only its shape promised.
- Printing, timing (`std::chrono`), `operator<<`, the thread pools, the drivers and the tests are not modelled. The `#if 1` debug printing inside `backProp` of sequential.h is one such case.
- The cost loop of the sampling `SGD` in sequential2.h:144-147 needs `x` indexed as a vector of pointers. It only feeds a printed value, so it is not modelled.
- `SgdSequential.Sequential.SGD` and `SgdSequential.Sequential.Epochs` state the buffers as the last sample loop leaves them. As written, the cost loop would then run `batch_size - 1` more forward passes, overwriting the activations and weighted inputs.
- `cost()` in src/sequential.h and sequential2.h is not modelled beyond the forward pass that precedes it, since its value is only printed.
- `BatchReader::batch()` / `size()` and the readers' `batch()` / `size()` are not separate members: they return a stored field, which the model reads directly.
- `MaxPooling.MaxPool` requires the output and the argmax map to have exactly the pooled extents `(outr, outc, depth, batch)`, and requires `stride > 0`. The source trusts its caller for both.
- `MatrixSequential.Sequential.GD`, `GDValidated`, `SGDSample` and `SGD` require that no earlier `initGD` has appended buffers. Each call appends a fresh set (`InitGD` states this), and a second training call on the same object is not modelled.
- `SgdSequential.Sequential.SGD` requires, in the same way, a network on which `initSGD` has not yet run.
- `MatrixSequential.Sequential.SGD`, `SGDSample`, `SgdSequential.Sequential.SGD` and `LayerChain.Sequential2.SGD` require `0 < batch_size <= train_size`. With fewer samples the `size_t` bound `train_size - batch_size` wraps, which `Batching.ShortTrainingSetOverruns` shows, and the loops would read past the index list. A batch size of 0 never advances the loop.
- `VectorSequential.Sequential.UpdateBatch` requires a non-empty batch. Otherwise `lr / batch_size` is a floating-point division by zero.
- `MatrixSequential.Sequential.Accuracy` and `SgdSequential.Sequential.Accuracy` require an output layer with at least one unit, and activations that keep the shape of their input, because `maxCoeff` on an empty vector is undefined.
- `BatchCsv.CsvIterator.Labels` and `BatchCsv.CsvIterator.Data` require every line of the batch to be no wider than the first line of its file. `read_line` has no bounds check, and a wider line writes past the buffer.
- `BatchPng.PngIterator.Labels` requires every label of the batch to be below the label count, which `BatchPng.ScanLabelsBelow` proves of every reader built by the scan.
- The `int misal` and `int last_idx` of the `end()` functions are unbounded integers here. A record count beyond `int` range, which would truncate them, is not modelled.
- `BatchReading.BatchReader.End`, `BatchPng.PngReader.End` and `BatchCsv.CsvReader.End` return the corrected stop offset of the first finding below. The as-written offset is `BatchReading.EndAsWritten`.
- `BatchCsv.CsvReader.constructor` builds the corrected records of the second finding below. The as-written loop is `BatchCsv.ScanAsWritten`.
- `BatchCsv.CsvReader.Begin` and `BatchCsv.CsvReader.End` size the iterator's buffers by the corrected, rewinding peek of the third finding below. The as-written peek is `BatchCsv.PeekAsWritten`.
- `BatchCsv.CsvReader` and `BatchCsv.CsvIterator` do not carry the stream's state as fields. With the rewinding peek, and with `Labels` and `Data` reading only at line starts (their precondition), the position and failbit do not change what is copied. The stream's own transitions are `BatchCsv.GetLine`, `BatchCsv.Seek` and `BatchCsv.ReadLineAt`.
- `EigenFuns.SlicedChecked` requires the corrected count check of the fourth finding below. The as-written assert is `EigenFuns.SlicedChecks`.

## Findings

| source | as written | input that shows it | evidently intended | confidence | as-written member | corrected member |
|---|---|---|---|---|---|---|
| include/batchReader.h:34-39 (also include/batchPNGReader.h:153-158, include/batchCSVReader.h:145-150) | `end()` stops at `total - batch + total % batch` when the remainder is not 0; an iterator stepping by `batch` from 0 reaches this only when `2 * (total % batch) == batch` | 10 records in batches of 3: the stop offset is 8, the iterator goes 0, 3, 6, 9, and the batch at 9 reads records 9 to 11 of 10 | stop just after the last full batch, at `total - total % batch` | not executed | `BatchReading.TenByThreeNeverStops` | `BatchReading.StopReached` |
| include/batchCSVReader.h:125-136 | the offsets `off1`, `off2` move past a line only when it is recorded, so after a blank data line the next sample is recorded at the blank line's offset | data lines `1`, blank, `2`: the records are offsets 0 and 2, and offset 2 is the blank line | every record holds the starts of its own sample's lines | not executed | `BatchCsv.BlankLineShiftsRecord` | `BatchCsv.ScanPointsAtSamples` |
| include/batchCSVReader.h:80-90 (called at 17-24) | `peek_size` counts the values of the line at the stream's current position and never rewinds, so each `begin()` or `end()` peeks whatever line the last read left the stream at | a two-line file in batches of 2: `begin()` peeks line 1 and `end()` line 2; after the epoch reads both records, the next `begin()` peeks 0 values and sets failbit, and every later `read_line` copies nothing | count the values of the first line, as the function's comment says | not executed | `BatchCsv.SecondEpochReadsNothing` | `BatchCsv.RewoundPeekIsFirstWidth` |
| include/eigenFuns.h:205 | the rvalue `sliced` asserts `indices.size() < arg.dimension(dim)`, so selecting every position along `dim`, even in order, fails the assert | an extent of 3 with the indices 0, 1, 2 | at most as many indices as the extent, which the lvalue overload at include/eigenFuns.h:186-200 accepts without a check; the repository has no caller that shows the intent | not executed; low, since no caller exists | `EigenFuns.SlicedChecksRefuseFullSelection` | `EigenFuns.SlicedChecksIntendedExact` |
