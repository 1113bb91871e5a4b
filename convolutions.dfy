/** The convolution primitives of include/convolutions.h, as shape pipelines.
    Each primitive is a chain of Eigen reshapes, shuffles, patch extractions and
    one contraction; the chain is replayed on shapes, with every reshape and the
    contraction checked the way Eigen checks them. The numeric meaning is given
    by the direct correlation sum the test suite compares against. */
module Convolutions {
  import opened Outcomes
  import opened Shapes
  import opened Arith

  // ---------------------------------------------------------------------------
  // Forward valid convolution: convolveBatch
  // ---------------------------------------------------------------------------

  /** `[depth, channels, ir, ic, in_depth, batch]` to
      `[channels, ir, ic, depth, in_depth, batch]`. */
  function ForwardShuffle(): (p: seq<int>)
    ensures IsPermutation(p, 6)
    ensures p[3] == 0 && p[0] == 1
  {
    [1, 2, 3, 0, 4, 5]
  }

  /** The shape arrays convolveBatch fills before building its expression. */
  datatype ForwardPlan = ForwardPlan(
    outShape: Shape,
    inputContract: Shape,
    kernelsContract: Shape,
    posContract: Shape)

  /** Input is `[channels, rows, cols, in_depth, batch]`, kernels are
      `[depth, inDepthFactor, kr, kc]`. */
  function ForwardPlanOf(input: Shape, kernels: Shape): ForwardPlan
    requires |input| == 5 && |kernels| == 4
  {
    var depth, kr, kc := kernels[0], kernels[2], kernels[3];
    var channels, inDepth, batch := input[0], input[3], input[4];
    var outR, outC := input[1] - kr + 1, input[2] - kc + 1;
    ForwardPlan(
      [1, outR, outC, depth * inDepth, batch],
      [channels * kr * kc, outR * outC * inDepth * batch],
      [depth, channels * kr * kc],
      [depth, channels, outR, outC, inDepth, batch])
  }

  /** Shape of `convolveBatch(input, kernels)`, or the mismatch Eigen would
      stop on. */
  function ConvolveBatch(input: Shape, kernels: Shape): Result<Shape>
    requires |input| == 5 && |kernels| == 4
  {
    var plan := ForwardPlanOf(input, kernels);
    var kernelMatrix :- Reshape(kernels, plan.kernelsContract);
    var patchMatrix :- Reshape(ImagePatches(input, kernels[2], kernels[3], 0, 0), plan.inputContract);
    var product :- Contract(kernelMatrix, patchMatrix, 1, 0);
    var positioned :- Reshape(product, plan.posContract);
    Reshape(Shuffle(positioned, ForwardShuffle()), plan.outShape)
  }

  /** The kernel matrix is `depth x (channels*kr*kc)`, the patch matrix is
      `(channels*kr*kc) x (outR*outC*in_depth*batch)`, and the patch matrix
      always has exactly as many elements as the extracted patches, so the
      contraction on the pair (1, 0) is well formed. */
  lemma ForwardContractionWellFormed(input: Shape, kernels: Shape)
    requires |input| == 5 && |kernels| == 4
    requires kernels[2] <= input[1] && kernels[3] <= input[2]
    ensures var plan := ForwardPlanOf(input, kernels);
      && |plan.kernelsContract| == 2 && |plan.inputContract| == 2
      && plan.kernelsContract[1] == plan.inputContract[0]
      && Reshape(ImagePatches(input, kernels[2], kernels[3], 0, 0), plan.inputContract) == Ok(plan.inputContract)
  {
    var plan := ForwardPlanOf(input, kernels);
    var channels, kr, kc := input[0], kernels[2], kernels[3];
    var outR, outC := input[1] - kr + 1, input[2] - kc + 1;
    var patches := ImagePatches(input, kr, kc, 0, 0);
    assert patches == [channels, kr, kc, outR * outC, input[3], input[4]];
    ProductOf6(channels, kr, kc, outR * outC, input[3], input[4]);
    ProductOf2(channels * kr * kc, outR * outC * input[3] * input[4]);
    assert channels * kr * kc * (outR * outC) * input[3] * input[4]
        == (channels * kr * kc) * (outR * outC * input[3] * input[4]);
  }

  /** The kernel bank `[depth, factor, kr, kc]` reshapes to the
      `depth x (channels*kr*kc)` matrix exactly when `factor == channels`. */
  lemma KernelMatrixReshape(kernels: Shape, channels: int)
    requires |kernels| == 4 && Positive(kernels)
    ensures Reshape(kernels, [kernels[0], channels * kernels[2] * kernels[3]]).Ok? <==> kernels[1] == channels
  {
    var depth, factor, kr, kc := kernels[0], kernels[1], kernels[2], kernels[3];
    assert kernels == [depth, factor, kr, kc];
    ProductOf4(depth, factor, kr, kc);
    ProductOf2(depth, channels * kr * kc);
    assert depth * factor * kr * kc == factor * (depth * kr * kc);
    assert depth * (channels * kr * kc) == channels * (depth * kr * kc);
    MulPositive(depth, kr);
    MulPositive(depth * kr, kc);
    ReshapeByFactor(kernels, [depth, channels * kr * kc], factor, channels, depth * kr * kc);
  }

  /** The contracted `depth x (outR*outC*in_depth*batch)` matrix splits into
      `[depth, channels, outR, outC, in_depth, batch]` exactly when there is
      one channel. */
  lemma PositionReshape(depth: int, channels: int, outR: int, outC: int, inDepth: int, batch: int)
    requires depth > 0 && outR > 0 && outC > 0 && inDepth > 0 && batch > 0
    ensures Reshape([depth, outR * outC * inDepth * batch], [depth, channels, outR, outC, inDepth, batch]).Ok?
            <==> channels == 1
  {
    var rest := outR * outC * inDepth * batch;
    MulPositive(outR, outC);
    MulPositive(outR * outC, inDepth);
    MulPositive(outR * outC * inDepth, batch);
    MulPositive(depth, rest);
    ProductOf2(depth, rest);
    ProductOf6(depth, channels, outR, outC, inDepth, batch);
    assert depth * channels * outR * outC * inDepth * batch == channels * (depth * rest);
    assert depth * rest == 1 * (depth * rest);
    ReshapeByFactor([depth, rest], [depth, channels, outR, outC, inDepth, batch], 1, channels, depth * rest);
  }

  /** Merging the depth and in_depth axes keeps the element count. */
  lemma OutputReshape(outR: int, outC: int, depth: int, inDepth: int, batch: int)
    ensures Reshape([1, outR, outC, depth, inDepth, batch], [1, outR, outC, depth * inDepth, batch])
            == Ok([1, outR, outC, depth * inDepth, batch])
  {
    ProductOf6(1, outR, outC, depth, inDepth, batch);
    ProductOf5(1, outR, outC, depth * inDepth, batch);
    assert 1 * outR * outC * depth * inDepth * batch == 1 * outR * outC * (depth * inDepth) * batch;
  }

  /** convolveBatch succeeds exactly when the input has one channel and the
      kernel's second axis matches it; it then yields
      `[1, rows-kr+1, cols-kc+1, depth*in_depth, batch]`. */
  lemma ConvolveBatchShape(input: Shape, kernels: Shape)
    requires |input| == 5 && |kernels| == 4
    requires Positive(input) && Positive(kernels)
    requires kernels[2] <= input[1] && kernels[3] <= input[2]
    ensures ConvolveBatch(input, kernels).Ok? <==> input[0] == 1 && kernels[1] == 1
    ensures ConvolveBatch(input, kernels).Ok? ==>
      ConvolveBatch(input, kernels).value
        == [1, input[1] - kernels[2] + 1, input[2] - kernels[3] + 1, kernels[0] * input[3], input[4]]
  {
    var plan := ForwardPlanOf(input, kernels);
    var channels, depth, kr, kc := input[0], kernels[0], kernels[2], kernels[3];
    var inDepth, batch := input[3], input[4];
    var outR, outC := input[1] - kr + 1, input[2] - kc + 1;
    KernelMatrixReshape(kernels, channels);
    ForwardContractionWellFormed(input, kernels);
    var r1 := Reshape(kernels, plan.kernelsContract);
    if kernels[1] != channels {
      assert r1.Err?;
      assert ConvolveBatch(input, kernels) == Err(ShapeMismatch);
    } else {
      assert r1 == Ok(plan.kernelsContract);
      var r2 := Reshape(ImagePatches(input, kernels[2], kernels[3], 0, 0), plan.inputContract);
      assert r2 == Ok(plan.inputContract);
      var product := [depth, outR * outC * inDepth * batch];
      ContractMatMul(depth, channels * kr * kc, outR * outC * inDepth * batch);
      var r3 := Contract(plan.kernelsContract, plan.inputContract, 1, 0);
      assert r3 == Ok(product);
      PositionReshape(depth, channels, outR, outC, inDepth, batch);
      var r4 := Reshape(product, plan.posContract);
      assert r4.Ok? <==> channels == 1;
      if channels != 1 {
        assert ConvolveBatch(input, kernels) == Err(ShapeMismatch);
      } else {
        var shuffled := Shuffle(plan.posContract, ForwardShuffle());
        assert shuffled == [1, outR, outC, depth, inDepth, batch];
        OutputReshape(outR, outC, depth, inDepth, batch);
        assert ConvolveBatch(input, kernels) == Ok(plan.outShape);
      }
    }
  }

  // ---------------------------------------------------------------------------
  // Gradient with respect to the input: backwardsConvolveInput
  // ---------------------------------------------------------------------------

  /** `[channels, or, oc, depth, batch]` to `[depth, channels, or, oc, batch]`. */
  function GradShuffle(): (p: seq<int>)
    ensures IsPermutation(p, 5)
    ensures p[0] == 3
  {
    [3, 0, 1, 2, 4]
  }

  /** Only the two spatial kernel axes are reversed. */
  function KernelReverse(): (flags: seq<bool>)
    ensures |flags| == 4
    ensures forall i :: 0 <= i < 4 ==> (flags[i] <==> i == 2 || i == 3)
  {
    [false, false, true, true]
  }

  datatype InputGradPlan = InputGradPlan(
    kernShape: Shape,
    kernContract: Shape,
    gradContract: Shape,
    outShape: Shape,
    padr: int,
    padc: int)

  /** `grad` is `[channels, gradr, gradc, depth, batch]`, kernels are
      `[depth, factor, kr, kc]`, and the input extent is `inputR x inputC`. */
  function InputGradPlanOf(grad: Shape, kernels: Shape, inputR: int, inputC: int): InputGradPlan
    requires |grad| == 5 && |kernels| == 4
  {
    var channels, gradr, gradc, batch := grad[0], grad[1], grad[2], grad[4];
    var depth, kr, kc := kernels[0], kernels[2], kernels[3];
    InputGradPlan(
      [depth * channels, kr, kc],
      [depth * channels * gradr * gradc, inputR * inputC],
      [depth * channels * gradr * gradc, batch],
      [channels, inputR, inputC, batch],
      gradr - 1,
      gradc - 1)
  }

  /** Shape of `backwardsConvolveInput(grad, kernels, inputR, inputC)`; the
      source asserts `grad.dim(3) == kernels.dim(0)`. */
  function BackwardsConvolveInput(grad: Shape, kernels: Shape, inputR: int, inputC: int): Result<Shape>
    requires |grad| == 5 && |kernels| == 4
    requires grad[3] == kernels[0]
  {
    var plan := InputGradPlanOf(grad, kernels, inputR, inputC);
    // reversing keeps the shape
    var kernelsReversed :- Reshape(kernels, plan.kernShape);
    var patches := ImagePatches(kernelsReversed, grad[1], grad[2], plan.padr, plan.padc);
    var kernMatrix :- Reshape(patches, plan.kernContract);
    var gradMatrix :- Reshape(Shuffle(grad, GradShuffle()), plan.gradContract);
    var product :- Contract(kernMatrix, gradMatrix, 0, 0);
    Reshape(product, plan.outShape)
  }

  /** Full-convolution padding: the patch count along an axis,
      `kr + 2*(gradr-1) - gradr + 1`, equals `inputR` exactly when
      `gradr == inputR - kr + 1`. */
  lemma FullPaddingCoversInput(kr: int, gradr: int, inputR: int)
    ensures PatchPositions(kr, gradr, gradr - 1) == kr + gradr - 1
    ensures PatchPositions(kr, gradr, gradr - 1) == inputR <==> gradr == inputR - kr + 1
  {
  }

  /** The kernel bank `[depth, factor, kr, kc]` stacks into
      `[depth*channels, kr, kc]` exactly when `factor == channels`. */
  lemma KernelStackReshape(kernels: Shape, channels: int)
    requires |kernels| == 4 && Positive(kernels)
    ensures Reshape(kernels, [kernels[0] * channels, kernels[2], kernels[3]]).Ok? <==> kernels[1] == channels
  {
    var depth, factor, kr, kc := kernels[0], kernels[1], kernels[2], kernels[3];
    assert kernels == [depth, factor, kr, kc];
    ProductOf4(depth, factor, kr, kc);
    ProductOf3(depth * channels, kr, kc);
    assert depth * factor * kr * kc == factor * (depth * kr * kc);
    assert depth * channels * kr * kc == channels * (depth * kr * kc);
    MulPositive(depth, kr);
    MulPositive(depth * kr, kc);
    ReshapeByFactor(kernels, [depth * channels, kr, kc], factor, channels, depth * kr * kc);
  }

  /** Merging the three leading axes of a rank-4 shape keeps the count. */
  lemma MergeLeadingThree(a: int, b: int, c: int, n: int)
    ensures Reshape([a, b, c, n], [a * b * c, n]) == Ok([a * b * c, n])
  {
    ProductOf4(a, b, c, n);
    ProductOf2(a * b * c, n);
  }

  /** Merging the four leading axes of a rank-5 shape keeps the count. */
  lemma MergeLeadingFour(a: int, b: int, c: int, d: int, n: int)
    ensures Reshape([a, b, c, d, n], [a * b * c * d, n]) == Ok([a * b * c * d, n])
  {
    ProductOf5(a, b, c, d, n);
    ProductOf2(a * b * c * d, n);
  }

  /** `[r*c, batch]` splits into `[channels, r, c, batch]` exactly when there
      is one channel. */
  lemma SplitChannels(channels: int, r: int, c: int, batch: int)
    requires r > 0 && c > 0 && batch > 0
    ensures Reshape([r * c, batch], [channels, r, c, batch]).Ok? <==> channels == 1
  {
    ProductOf2(r * c, batch);
    ProductOf4(channels, r, c, batch);
    MulPositive(r, c);
    MulPositive(r * c, batch);
    assert channels * r * c * batch == channels * (r * c * batch);
    assert r * c * batch == 1 * (r * c * batch);
    ReshapeByFactor([r * c, batch], [channels, r, c, batch], 1, channels, r * c * batch);
  }

  /** With a gradient shaped like the forward output
      (`gradr = inputR - kr + 1`), backwardsConvolveInput succeeds exactly when
      the gradient has one channel and the kernel's second axis matches it, and
      then returns `[1, inputR, inputC, batch]`: the input's shape, the kernel
      depth summed away. */
  lemma BackwardsConvolveInputShape(grad: Shape, kernels: Shape, inputR: int, inputC: int)
    requires |grad| == 5 && |kernels| == 4
    requires Positive(grad) && Positive(kernels)
    requires grad[3] == kernels[0]
    requires grad[1] == inputR - kernels[2] + 1 && grad[2] == inputC - kernels[3] + 1
    ensures BackwardsConvolveInput(grad, kernels, inputR, inputC).Ok? <==> grad[0] == 1 && kernels[1] == 1
    ensures BackwardsConvolveInput(grad, kernels, inputR, inputC).Ok? ==>
      BackwardsConvolveInput(grad, kernels, inputR, inputC).value == [1, inputR, inputC, grad[4]]
  {
    var plan := InputGradPlanOf(grad, kernels, inputR, inputC);
    var channels, gradr, gradc, depth, batch := grad[0], grad[1], grad[2], grad[3], grad[4];
    var kr, kc := kernels[2], kernels[3];
    KernelStackReshape(kernels, channels);
    if kernels[1] != channels {
      assert BackwardsConvolveInput(grad, kernels, inputR, inputC) == Err(ShapeMismatch);
    } else {
      FullPaddingCoversInput(kr, gradr, inputR);
      FullPaddingCoversInput(kc, gradc, inputC);
      var patches := ImagePatches(plan.kernShape, gradr, gradc, plan.padr, plan.padc);
      assert patches == [depth * channels, gradr, gradc, inputR * inputC];
      MergeLeadingThree(depth * channels, gradr, gradc, inputR * inputC);
      var shuffled := Shuffle(grad, GradShuffle());
      assert shuffled == [depth, channels, gradr, gradc, batch];
      MergeLeadingFour(depth, channels, gradr, gradc, batch);
      assert depth * channels * gradr * gradc == plan.kernContract[0];
      ContractTransposedMatMul(depth * channels * gradr * gradc, inputR * inputC, batch);
      SplitChannels(channels, inputR, inputC, batch);
      assert BackwardsConvolveInput(grad, kernels, inputR, inputC)
          == Reshape([inputR * inputC, batch], plan.outShape);
    }
  }

  // ---------------------------------------------------------------------------
  // Gradient with respect to the kernels: backwardsConvolveKernel
  // ---------------------------------------------------------------------------

  /** `[channels, rows, cols, batch]` to `[batch, rows, cols, channels]`. */
  function InputShuffle(): (p: seq<int>)
    ensures IsPermutation(p, 4)
    ensures p[0] == 3 && p[3] == 0
  {
    [3, 1, 2, 0]
  }

  /** `[channels, or, oc, depth, batch]` to `[depth, batch, channels, or, oc]`. */
  function OutputShuffle(): (p: seq<int>)
    ensures IsPermutation(p, 5)
    ensures p[0] == 3 && p[1] == 4
  {
    [3, 4, 0, 1, 2]
  }

  function Max(a: int, b: int): int { if a < b then b else a }

  datatype KernelGradPlan = KernelGradPlan(
    inputContract: Shape,
    outputContract: Shape,
    kerShape: Shape,
    padr: int,
    padc: int)

  /** `input` is `[channels, inr, inc, batch]`, `output` (the gradient) is
      `[g0, outr, outc, depth, gbatch]`. */
  function KernelGradPlanOf(input: Shape, output: Shape, kr: int, kc: int): KernelGradPlan
    requires |input| == 4 && |output| == 5
  {
    var outr, outc, depth := output[1], output[2], output[3];
    var channels, inr, inc, batch := input[0], input[1], input[2], input[3];
    KernelGradPlan(
      [channels * batch * outr * outc, kr * kc],
      [depth, channels * outr * outc * batch],
      [depth, channels, kr, kc],
      Max(outr - inr, 0),
      Max(outc - inc, 0))
  }

  /** Shape of `backwardsConvolveKernel(input, output, kr, kc)`. */
  function BackwardsConvolveKernel(input: Shape, output: Shape, kr: int, kc: int): Result<Shape>
    requires |input| == 4 && |output| == 5
  {
    var plan := KernelGradPlanOf(input, output, kr, kc);
    var shuffledInput := Shuffle(input, InputShuffle());
    var patches := ImagePatches(shuffledInput, output[1], output[2], plan.padr, plan.padc);
    var inputMatrix :- Reshape(patches, plan.inputContract);
    var outputMatrix :- Reshape(Shuffle(output, OutputShuffle()), plan.outputContract);
    var product :- Contract(outputMatrix, inputMatrix, 1, 0);
    Reshape(product, plan.kerShape)
  }

  /** The padding `max(outr - inr, 0)` vanishes whenever the gradient is no
      larger than the input. */
  lemma KernelGradPaddingVanishes(input: Shape, output: Shape, kr: int, kc: int)
    requires |input| == 4 && |output| == 5
    ensures output[1] <= input[1] <==> KernelGradPlanOf(input, output, kr, kc).padr == 0
    ensures output[2] <= input[2] <==> KernelGradPlanOf(input, output, kr, kc).padc == 0
  {
  }

  /** The patches `[batch, outr, outc, kr*kc, channels]` of the shuffled input
      always fit the `(channels*batch*outr*outc) x (kr*kc)` matrix. */
  lemma InputPatchMatrix(batch: int, outr: int, outc: int, patches: int, channels: int)
    ensures Reshape([batch, outr, outc, patches, channels], [channels * batch * outr * outc, patches])
            == Ok([channels * batch * outr * outc, patches])
  {
    ProductOf5(batch, outr, outc, patches, channels);
    ProductOf2(channels * batch * outr * outc, patches);
    assert batch * outr * outc * patches * channels == (channels * batch * outr * outc) * patches;
  }

  /** The shuffled one-channel gradient `[depth, batch, 1, outr, outc]` fits the
      `depth x (channels*outr*outc*batch)` matrix exactly when the input has one
      channel. */
  lemma GradientMatrix(depth: int, batch: int, outr: int, outc: int, channels: int)
    requires depth > 0 && batch > 0 && outr > 0 && outc > 0
    ensures Reshape([depth, batch, 1, outr, outc], [depth, channels * outr * outc * batch]).Ok? <==> channels == 1
  {
    var x := depth * outr * outc * batch;
    ProductOf5(depth, batch, 1, outr, outc);
    ProductOf2(depth, channels * outr * outc * batch);
    assert depth * batch * 1 * outr * outc == 1 * x;
    assert depth * (channels * outr * outc * batch) == channels * x;
    MulPositive(depth, outr);
    MulPositive(depth * outr, outc);
    MulPositive(depth * outr * outc, batch);
    ReshapeByFactor([depth, batch, 1, outr, outc], [depth, channels * outr * outc * batch], 1, channels, x);
  }

  /** `[depth, kr*kc]` splits into the one-channel kernel bank shape. */
  lemma KernelBankReshape(depth: int, kr: int, kc: int)
    ensures Reshape([depth, kr * kc], [depth, 1, kr, kc]) == Ok([depth, 1, kr, kc])
  {
    ProductOf2(depth, kr * kc);
    ProductOf4(depth, 1, kr, kc);
  }

  /** With a one-channel gradient shaped like the forward output
      (`outr = inr - kr + 1`), there are exactly `kr*kc` patch positions, and
      backwardsConvolveKernel succeeds exactly when the input has one channel;
      it then returns `[depth, 1, kr, kc]`, the shape of the kernel bank. */
  lemma BackwardsConvolveKernelShape(input: Shape, output: Shape, kr: int, kc: int)
    requires |input| == 4 && |output| == 5
    requires Positive(input) && Positive(output) && kr > 0 && kc > 0
    requires output[1] == input[1] - kr + 1 && output[2] == input[2] - kc + 1
    requires output[0] == 1 && output[4] == input[3]
    ensures BackwardsConvolveKernel(input, output, kr, kc).Ok? <==> input[0] == 1
    ensures BackwardsConvolveKernel(input, output, kr, kc).Ok? ==>
      BackwardsConvolveKernel(input, output, kr, kc).value == [output[3], 1, kr, kc]
  {
    var plan := KernelGradPlanOf(input, output, kr, kc);
    InputStage(input, output, kr, kc);
    OutputStage(input, output, kr, kc);
    if input[0] == 1 {
      ProductStage(input, output, kr, kc);
    }
  }

  /** The patch matrix of the shuffled input always has the planned shape. */
  lemma InputStage(input: Shape, output: Shape, kr: int, kc: int)
    requires |input| == 4 && |output| == 5
    requires output[1] == input[1] - kr + 1 && output[2] == input[2] - kc + 1 && kr > 0 && kc > 0
    ensures var plan := KernelGradPlanOf(input, output, kr, kc);
      Reshape(ImagePatches(Shuffle(input, InputShuffle()), output[1], output[2], plan.padr, plan.padc),
              plan.inputContract) == Ok(plan.inputContract)
  {
    var plan := KernelGradPlanOf(input, output, kr, kc);
    assert plan.padr == 0 && plan.padc == 0;
    var channels, inr, inc, batch := input[0], input[1], input[2], input[3];
    var shuffledInput := Shuffle(input, InputShuffle());
    assert shuffledInput == [batch, inr, inc, channels];
    var patches := ImagePatches(shuffledInput, output[1], output[2], 0, 0);
    assert patches == [batch, output[1], output[2], kr * kc, channels];
    InputPatchMatrix(batch, output[1], output[2], kr * kc, channels);
  }

  /** The shuffled gradient fits its planned matrix exactly for one channel. */
  lemma OutputStage(input: Shape, output: Shape, kr: int, kc: int)
    requires |input| == 4 && |output| == 5
    requires Positive(input) && Positive(output)
    requires output[0] == 1 && output[4] == input[3]
    ensures var plan := KernelGradPlanOf(input, output, kr, kc);
      Reshape(Shuffle(output, OutputShuffle()), plan.outputContract).Ok? <==> input[0] == 1
    ensures var plan := KernelGradPlanOf(input, output, kr, kc);
      Reshape(Shuffle(output, OutputShuffle()), plan.outputContract).Ok? ==>
      Reshape(Shuffle(output, OutputShuffle()), plan.outputContract).value == plan.outputContract
  {
    var shuffledOutput := Shuffle(output, OutputShuffle());
    assert shuffledOutput == [output[3], input[3], 1, output[1], output[2]];
    GradientMatrix(output[3], input[3], output[1], output[2], input[0]);
  }

  /** For one channel the contraction and the final reshape give the kernel
      bank shape. */
  lemma ProductStage(input: Shape, output: Shape, kr: int, kc: int)
    requires |input| == 4 && |output| == 5 && input[0] == 1
    ensures var plan := KernelGradPlanOf(input, output, kr, kc);
      && Contract(plan.outputContract, plan.inputContract, 1, 0) == Ok([output[3], kr * kc])
      && Reshape([output[3], kr * kc], plan.kerShape) == Ok([output[3], 1, kr, kc])
  {
    var plan := KernelGradPlanOf(input, output, kr, kc);
    var k := input[0] * input[3] * output[1] * output[2];
    assert plan.outputContract == [output[3], k] by {
      assert input[0] * output[1] * output[2] * input[3] == k;
    }
    assert plan.inputContract == [k, kr * kc];
    ContractMatMul(output[3], k, kr * kc);
    KernelBankReshape(output[3], kr, kc);
  }

  // ---------------------------------------------------------------------------
  // Reference semantics (the direct sums of tests/testOps.h)
  // ---------------------------------------------------------------------------

  /** An input image batch with one channel, read as `input(0, r, c, d, b)`. */
  type Image = (int, int, int, int) -> real

  /** A kernel bank with one input channel, read as `kernel(dk, 0, r, c)`. */
  type Kernels = (int, int, int) -> real

  /** Sum over kernel columns `0 .. cols-1` of kernel row `r`. */
  function KernelRowSum(input: Image, kernel: Kernels, r: int, cols: nat, oh: int, oc: int, d: int, dk: int, b: int): real
  {
    if cols == 0 then 0.0
    else KernelRowSum(input, kernel, r, cols - 1, oh, oc, d, dk, b)
         + input(oh + r, oc + cols - 1, d, b) * kernel(dk, r, cols - 1)
  }

  /** The forward correlation at output `(0, oh, oc, d*ker_depth + dk, b)`:
      the sum over kernel rows `0 .. rows-1` and columns `0 .. kc-1` of
      `input(0, oh+r, oc+c, d, b) * kernel(dk, 0, r, c)`. */
  function Correlation(input: Image, kernel: Kernels, rows: nat, kc: nat, oh: int, oc: int, d: int, dk: int, b: int): real
  {
    if rows == 0 then 0.0
    else Correlation(input, kernel, rows - 1, kc, oh, oc, d, dk, b)
         + KernelRowSum(input, kernel, rows - 1, kc, oh, oc, d, dk, b)
  }

  /** The test's loop for one output element: the input row and the kernel row
      advance together, and so do the columns. */
  method DirectCorrelation(input: Image, kernel: Kernels, kerSize: nat, oh: int, oc: int, d: int, dk: int, b: int)
    returns (expected: real)
    ensures expected == Correlation(input, kernel, kerSize, kerSize, oh, oc, d, dk, b)
  {
    expected := 0.0;
    var startr, endr := oh, oh + kerSize;
    var startc, endc := oc, oc + kerSize;
    var ir, kr := startr, 0;
    while ir < endr
      invariant kr == ir - startr && 0 <= kr <= kerSize
      invariant expected == Correlation(input, kernel, kr, kerSize, oh, oc, d, dk, b)
    {
      var ic, kc := startc, 0;
      while ic < endc
        invariant kc == ic - startc && 0 <= kc <= kerSize
        invariant expected == Correlation(input, kernel, kr, kerSize, oh, oc, d, dk, b)
                              + KernelRowSum(input, kernel, kr, kc, oh, oc, d, dk, b)
      {
        expected := expected + input(ir, ic, d, b) * kernel(dk, kr, kc);
        ic, kc := ic + 1, kc + 1;
      }
      ir, kr := ir + 1, kr + 1;
    }
  }

  /** Output depth `d*ker_depth + dk` interleaves the kernel index fastest:
      each pair `(d, dk)` lands on its own index below `depth*ker_depth`, and
      the pair can be read back from it. */
  lemma OutputDepthIndex(d: int, dk: int, depth: int, kerDepth: int)
    requires 0 <= d < depth && 0 <= dk < kerDepth
    ensures 0 <= d * kerDepth + dk < depth * kerDepth
    ensures (d * kerDepth + dk) / kerDepth == d && (d * kerDepth + dk) % kerDepth == dk
  {
    assert d * kerDepth + dk < (d + 1) * kerDepth <= depth * kerDepth;
    DivModUnique(d * kerDepth + dk, kerDepth, d, dk);
  }
}
