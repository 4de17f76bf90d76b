/**
 * The operator library (`TensorNN`): each operator checks its shape
 * preconditions, allocates its output in the tensor store, fills a kernel
 * binding descriptor step by step, dispatches it, and releases its own
 * intermediates. The kernels themselves are opaque; what is modelled is
 * shapes, descriptors and the live-tensor accounting.
 */
module Operators {
  import opened Wrappers
  import opened Tensors
  import opened Keywords
  import opened ReduceWidths
  import opened Bindings

  /** The kernels the library looks up by name. */
  const KernelNames: set<Shader> := {EmbeddingShader, LinearShader, ReduceShader, FunctionShader}

  /** The 4x4 transform ArgMax applies to the final (value, index) min/max state:
      only the fourth column is set, selecting one component onto the output. */
  const ArgMaxLinear := Mat4(Zero4, Zero4, Zero4, Vec4(1.0, 0.0, 0.0, 0.0))

  /** `Linear`'s shape preconditions. */
  predicate LinearShapeOk(input: TensorInfo, weight: TensorInfo, transposeWeight: bool, head: int) {
    head >= 1 && input.cols % head == 0 && weight.cols % head == 0 && weight.rows % 4 == 0 &&
    (if transposeWeight then weight.rows / 4 == input.cols / head else weight.cols == input.cols)
  }

  /** Columns of `Linear`'s output. */
  function LinearCols(weight: TensorInfo, transposeWeight: bool, head: nat): nat {
    if transposeWeight then weight.cols else weight.rows / 4 * head
  }

  /** Columns of `Embedding`'s output, for the first weight given. */
  function EmbeddingCols(weight: TensorInfo, transposeWeight: bool): nat {
    if transposeWeight then weight.rows / 4 else weight.cols
  }

  /** A shape-valid `Linear` output splits evenly into `head` heads. */
  lemma LinearColsPerHead(input: TensorInfo, weight: TensorInfo, transposeWeight: bool, head: int)
    requires LinearShapeOk(input, weight, transposeWeight, head)
    ensures LinearCols(weight, transposeWeight, head) % head == 0
  {
    if !transposeWeight {
      ModOfMultiple(head, weight.rows / 4);
      assert weight.rows / 4 * head == head * (weight.rows / 4);
    }
  }

  /** The same weight stored the other way round (per head). */
  function TransposedLayout(weight: TensorInfo, head: nat): TensorInfo
    requires head >= 1
  {
    weight.(rows := 4 * (weight.cols / head), cols := weight.rows / 4 * head)
  }

  /** A weight that is valid untransposed is valid in its transposed layout,
      for the same input, and both layouts give the same output width. */
  lemma LinearTransposedShape(input: TensorInfo, weight: TensorInfo, head: int)
    requires LinearShapeOk(input, weight, false, head)
    ensures LinearShapeOk(input, TransposedLayout(weight, head), true, head)
    ensures LinearCols(TransposedLayout(weight, head), true, head) == LinearCols(weight, false, head)
  {
    var t := TransposedLayout(weight, head);
    ModOfMultiple(head, weight.rows / 4);
    assert weight.rows / 4 * head == head * (weight.rows / 4);
    ModOfMultiple(4, weight.cols / head);
  }

  /**
   * The dispatches `_Reduce` leaves after the first `k` of `log` and the
   * releases after the first `r` of `released`: one final pass from `input`
   * to `output`, or, when the group width splits, a masked partial pass into
   * a fresh `ReduceWidth`-wide buffer, released afterwards, and a final pass
   * from that buffer with no mask.
   */
  ghost predicate ReduceTrace(log: seq<Dispatch>, released: seq<Handle>, info: map<Handle, TensorInfo>, k: nat, r: nat,
      input: Handle, output: Handle, func: Keyword, group: nat, rangeMask: Option<Vec4>, linear: Option<Mat4>,
      inputReduced: bool)
  {
    input in info && group >= 1 && info[input].cols % group == 0 &&
    var cols := info[input].cols;
    if Splits(cols, group, inputReduced) then
      |log| == k + 2 && |released| == r + 1 &&
      var partial := released[r];
      partial != output && partial in info &&
      info[partial] == TensorInfo(info[input].rows, ReduceWidth(cols, group, inputReduced), Float32, 0) &&
      log[k].output == partial && log[k + 1].output == output &&
      ReduceDescriptor(log[k].mat, input, partial, func, rangeMask, None, Some(cols / group), inputReduced, info) &&
      ReduceDescriptor(log[k + 1].mat, partial, output, func, None, linear, None, true, info)
    else
      |log| == k + 1 && |released| == r && log[k].output == output &&
      ReduceDescriptor(log[k].mat, input, output, func, rangeMask, linear, None, inputReduced, info)
  }

  /** A reduction's trace survives new tensors: it depends only on the shapes it names. */
  lemma ReduceTraceStable(log: seq<Dispatch>, released: seq<Handle>, info: map<Handle, TensorInfo>,
      info': map<Handle, TensorInfo>, k: nat, r: nat, input: Handle, output: Handle, func: Keyword, group: nat,
      rangeMask: Option<Vec4>, linear: Option<Mat4>, inputReduced: bool)
    requires ReduceTrace(log, released, info, k, r, input, output, func, group, rangeMask, linear, inputReduced)
    requires output in info
    requires forall h :: h in info ==> h in info' && info'[h] == info[h]
    ensures ReduceTrace(log, released, info', k, r, input, output, func, group, rangeMask, linear, inputReduced)
  {
    var cols := info[input].cols;
    if Splits(cols, group, inputReduced) {
      var partial := released[r];
      ReduceDescriptorStable(log[k].mat, input, partial, func, rangeMask, None, Some(cols / group), inputReduced,
        info, info');
      ReduceDescriptorStable(log[k + 1].mat, partial, output, func, None, linear, None, true, info, info');
    } else {
      ReduceDescriptorStable(log[k].mat, input, output, func, rangeMask, linear, None, inputReduced, info, info');
    }
  }

  class TensorNN {
    /** The tensor store every operator allocates in and dispatches to. */
    var ctx: TensorContext
    /** The kernels available, by name. */
    var kernels: set<Shader>
    /** Quantization scale of each quantized weight. */
    var quants: map<Handle, Handle>
    /** Element format of the operators' outputs (reductions are always `Float32`). */
    var dataType: DType
    /** Precision sub-levels of `Linear`'s output. */
    var linearMipmap: nat

    /** The store is consistent and knows every quantized weight and its scale. */
    ghost predicate Stored()
      reads this`ctx, this`quants, ctx`info, ctx`live, ctx`next
    {
      ctx.Valid() && forall w :: w in quants ==> w in ctx.info && quants[w] in ctx.info
    }

    ghost predicate Valid()
      reads this`ctx, this`kernels, this`quants, ctx`info, ctx`live, ctx`next
    {
      Stored() && KernelNames <= kernels
    }

    constructor (ctx: TensorContext, kernels: set<Shader>)
      ensures this.ctx == ctx && this.kernels == kernels && quants == map[]
      ensures dataType == Float32 && linearMipmap == 2
    {
      this.ctx := ctx;
      this.kernels := kernels;
      quants := map[];
      dataType := Float32;
      linearMipmap := 2;
    }

    /** `Embedding(input, weight0, weight1, transposeWeight)`: the output has a row
        per input row and the width of the first weight given (a quarter of its
        rows when transposed). */
    method Embedding(input: Handle, weight0: Option<Handle>, weight1: Option<Handle>, transposeWeight: bool)
      returns (output: Handle)
      requires Valid() && input in ctx.info
      requires weight0.Some? || weight1.Some?
      requires weight0.Some? ==> weight0.value in ctx.info
      requires weight1.Some? ==> weight1.value in ctx.info
      modifies ctx
      ensures Valid() && ctx.Grows() && ctx.released == old(ctx.released)
      ensures var w := if weight0.Some? then weight0.value else weight1.value;
        ctx.Allocated(output, TensorInfo(ctx.Size0(input), EmbeddingCols(ctx.info[w], transposeWeight), dataType, 0))
      ensures |ctx.log| == |old(ctx.log)| + 1 && ctx.Last().output == output
      ensures EmbeddingDescriptor(ctx.Last().mat, input, output, weight0, weight1, transposeWeight, quants, ctx.info)
    {
      var w := if weight0.Some? then weight0.value else weight1.value;
      output := ctx.GPUTensor(ctx.Size0(input), EmbeddingCols(ctx.info[w], transposeWeight), dataType, 0);
      var mat := BuildEmbedding(input, output, weight0, weight1, transposeWeight, quants, ctx.info);
      ctx.Blit(output, mat);
    }

    /** `Linear(input, weight, transposeWeight, head)`: a per-head matrix product. */
    method Linear(input: Handle, weight: Handle, transposeWeight: bool, head: int) returns (output: Handle)
      requires Valid() && input in ctx.info && weight in ctx.info
      requires LinearShapeOk(ctx.info[input], ctx.info[weight], transposeWeight, head)
      modifies ctx
      ensures Valid() && ctx.Grows() && ctx.released == old(ctx.released)
      ensures ctx.Allocated(output, TensorInfo(ctx.Size0(input),
        LinearCols(ctx.info[weight], transposeWeight, head), dataType, linearMipmap))
      ensures |ctx.log| == |old(ctx.log)| + 1 && ctx.Last().output == output
      ensures LinearDescriptor(ctx.Last().mat, input, weight, output, transposeWeight, head, quants, ctx.info)
    {
      output := ctx.GPUTensor(ctx.Size0(input), LinearCols(ctx.info[weight], transposeWeight, head),
                              dataType, linearMipmap);
      var mat := BuildLinear(input, weight, output, transposeWeight, head, quants, ctx.info);
      ctx.Blit(output, mat);
    }

    /** One pass of `_Reduce`: allocate its `Float32` output `size1` columns wide,
        fill the descriptor and dispatch it. */
    method ReducePass(input: Handle, func: Keyword, size1: nat, rangeMask: Option<Vec4>, linear: Option<Mat4>,
                      rangeMod: Option<int>, inputReduced: bool)
      returns (output: Handle)
      requires Valid() && input in ctx.info
      modifies ctx
      ensures Valid() && ctx.Grows() && ctx.released == old(ctx.released)
      ensures ctx.Allocated(output, TensorInfo(ctx.Size0(input), size1, Float32, 0))
      ensures |ctx.log| == |old(ctx.log)| + 1 && ctx.Last().output == output
      ensures ReduceDescriptor(ctx.Last().mat, input, output, func, rangeMask, linear, rangeMod, inputReduced, ctx.info)
    {
      output := ctx.GPUTensor(ctx.Size0(input), size1, Float32, 0);
      var mat := BuildReduce(input, output, func, rangeMask, linear, rangeMod, inputReduced, ctx.info);
      ctx.Blit(output, mat);
    }

    /**
     * `_Reduce(input, func, group, rangeMask, linear, inputReduced)`: reduce
     * each group of columns to one cell. A wide group is first reduced to a
     * partial result `ReduceWidth` columns wide, which is reduced again (with
     * the transform) and then released.
     */
    method Reduce(input: Handle, func: Keyword, group: nat, rangeMask: Option<Vec4>, linear: Option<Mat4>,
                  inputReduced: bool)
      returns (output: Handle)
      requires Valid() && input in ctx.info
      requires group >= 1 && ctx.Size1(input) % group == 0
      modifies ctx
      decreases if inputReduced then 0 else 1, 1
      ensures Valid() && ctx.Grows()
      ensures ctx.Allocated(output, TensorInfo(ctx.Size0(input), group, Float32, 0))
      ensures ReduceTrace(ctx.log, ctx.released, ctx.info, |old(ctx.log)|, |old(ctx.released)|, input, output, func,
                          group, rangeMask, linear, inputReduced)
    {
      var cols := ctx.Size1(input);
      var size1 := ReduceWidth(cols, group, inputReduced);
      ReduceStep(cols, group, inputReduced);
      if size1 > group {
        output := ReduceSplit(input, func, group, rangeMask, linear);
      } else {
        output := ReducePass(input, func, group, rangeMask, linear, None, inputReduced);
      }
    }

    /** The splitting case of `_Reduce`: a masked partial pass into a
        `ReduceWidth`-wide buffer, a second `_Reduce` of that buffer as already
        reduced, and the release of the buffer. */
    method ReduceSplit(input: Handle, func: Keyword, group: nat, rangeMask: Option<Vec4>, linear: Option<Mat4>)
      returns (output: Handle)
      requires Valid() && input in ctx.info
      requires group >= 1 && ctx.Size1(input) % group == 0 && Splits(ctx.Size1(input), group, false)
      modifies ctx
      decreases 1, 0
      ensures Valid() && ctx.Grows()
      ensures ctx.Allocated(output, TensorInfo(ctx.Size0(input), group, Float32, 0))
      ensures ReduceTrace(ctx.log, ctx.released, ctx.info, |old(ctx.log)|, |old(ctx.released)|, input, output, func,
                          group, rangeMask, linear, false)
    {
      var cols := ctx.Size1(input);
      var size1 := ReduceWidth(cols, group, false);
      ReduceStep(cols, group, false);
      var partial := ReducePass(input, func, size1, rangeMask, None, Some(cols / group), false);
      ghost var first, info1 := ctx.Last(), ctx.info;
      output := Reduce(partial, func, group, None, linear, true);
      ctx.Release(partial);
      ReduceDescriptorStable(first.mat, input, partial, func, rangeMask, None, Some(cols / group), false,
                             info1, ctx.info);
    }

    /** The `FUNC_GROUPNORM` dispatch of `GroupNorm`, given its statistics `reduce`. */
    method GroupNormPass(input: Handle, reduce: Handle, weight: Handle, bias: Handle, eps: real)
      returns (output: Handle)
      requires Valid() && input in ctx.info && reduce in ctx.info && weight in ctx.info && bias in ctx.info
      modifies ctx
      ensures Valid() && ctx.Grows() && ctx.released == old(ctx.released)
      ensures ctx.Allocated(output, TensorInfo(ctx.Size0(input), ctx.Size1(input), dataType, 0))
      ensures |ctx.log| == |old(ctx.log)| + 1 && ctx.Last().output == output
      ensures GroupNormDescriptor(ctx.Last().mat, input, output, reduce, weight, bias, eps, ctx.info)
    {
      output := ctx.GPUTensor(ctx.Size0(input), ctx.Size1(input), dataType, 0);
      var mat := BuildGroupNorm(input, output, reduce, weight, bias, eps, ctx.info);
      ctx.Blit(output, mat);
    }

    /** `GroupNorm(input, weight, bias, eps, group)`: normalise each group of
        columns with its `REDUCE_SUMPOW` statistics, then scale and shift. */
    method GroupNorm(input: Handle, weight: Handle, bias: Handle, eps: real, group: nat) returns (output: Handle)
      requires Valid() && input in ctx.info && weight in ctx.info && bias in ctx.info
      requires ctx.Size0(weight) == 1 && ctx.Size1(weight) == ctx.Size1(input)
      requires ctx.Size0(bias) == 1 && ctx.Size1(bias) == ctx.Size1(input)
      requires group >= 1 && ctx.Size1(input) % group == 0
      modifies ctx
      ensures Valid() && ctx.Grows()
      ensures ctx.Allocated(output, TensorInfo(ctx.Size0(input), ctx.Size1(input), dataType, 0))
      ensures |ctx.log| == |old(ctx.log)| + ReducePasses(ctx.Size1(input), group, false) + 1
      ensures |ctx.released| == |old(ctx.released)| + ReducePasses(ctx.Size1(input), group, false)
      ensures var reduce := ctx.released[|ctx.released| - 1];
        reduce !in old(ctx.info) && reduce in ctx.info && reduce != output &&
        ctx.info[reduce] == TensorInfo(ctx.Size0(input), group, Float32, 0) &&
        ReduceTrace(ctx.log[..|ctx.log| - 1], ctx.released[..|ctx.released| - 1], ctx.info, |old(ctx.log)|,
          |old(ctx.released)|, input, reduce, ReduceSumpow, group, None, None, false) &&
        ctx.Last().output == output &&
        GroupNormDescriptor(ctx.Last().mat, input, output, reduce, weight, bias, eps, ctx.info)
    {
      var reduce := Reduce(input, ReduceSumpow, group, None, None, false);
      ghost var log1, released1, info1 := ctx.log, ctx.released, ctx.info;
      output := GroupNormPass(input, reduce, weight, bias, eps);
      ctx.Release(reduce);
      assert ctx.log[..|ctx.log| - 1] == log1;
      assert ctx.released[..|ctx.released| - 1] == released1;
      ReduceTraceStable(log1, released1, info1, ctx.info, |old(ctx.log)|, |old(ctx.released)|, input, reduce,
        ReduceSumpow, group, None, None, false);
    }

    /** The normalising dispatch of `_Normalize`, given its statistics `reduce`. */
    method NormalizePass(input: Handle, reduce: Handle, func: Keyword, rangeMask: Option<Vec4>)
      returns (output: Handle)
      requires Valid() && input in ctx.info && reduce in ctx.info
      modifies ctx
      ensures Valid() && ctx.Grows() && ctx.released == old(ctx.released)
      ensures ctx.Allocated(output, TensorInfo(ctx.Size0(input), ctx.Size1(input), dataType, 0))
      ensures |ctx.log| == |old(ctx.log)| + 1 && ctx.Last().output == output
      ensures NormalizeDescriptor(ctx.Last().mat, input, output, reduce, func, rangeMask, ctx.info)
    {
      output := ctx.GPUTensor(ctx.Size0(input), ctx.Size1(input), dataType, 0);
      var mat := BuildNormalize(input, output, reduce, func, rangeMask, ctx.info);
      ctx.Blit(output, mat);
    }

    /** `_Normalize(input, func, reduceFunc, group, rangeMask)`: reduce each group
        of columns with `reduceFunc` under the mask, then apply `func` with the
        statistics; the statistics buffer is released. */
    method Normalize(input: Handle, func: Keyword, reduceFunc: Keyword, group: nat, rangeMask: Option<Vec4>)
      returns (output: Handle)
      requires Valid() && input in ctx.info
      requires group >= 1 && ctx.Size1(input) % group == 0
      modifies ctx
      ensures Valid() && ctx.Grows()
      ensures ctx.Allocated(output, TensorInfo(ctx.Size0(input), ctx.Size1(input), dataType, 0))
      ensures |ctx.log| == |old(ctx.log)| + ReducePasses(ctx.Size1(input), group, false) + 1
      ensures |ctx.released| == |old(ctx.released)| + ReducePasses(ctx.Size1(input), group, false)
      ensures var reduce := ctx.released[|ctx.released| - 1];
        reduce !in old(ctx.info) && reduce in ctx.info && reduce != output &&
        ctx.info[reduce] == TensorInfo(ctx.Size0(input), group, Float32, 0) &&
        ReduceTrace(ctx.log[..|ctx.log| - 1], ctx.released[..|ctx.released| - 1], ctx.info, |old(ctx.log)|,
          |old(ctx.released)|, input, reduce, reduceFunc, group, rangeMask, None, false) &&
        ctx.Last().output == output &&
        NormalizeDescriptor(ctx.Last().mat, input, output, reduce, func, rangeMask, ctx.info)
    {
      var reduce := Reduce(input, reduceFunc, group, rangeMask, None, false);
      ghost var log1, released1, info1 := ctx.log, ctx.released, ctx.info;
      output := NormalizePass(input, reduce, func, rangeMask);
      ctx.Release(reduce);
      assert ctx.log[..|ctx.log| - 1] == log1;
      assert ctx.released[..|ctx.released| - 1] == released1;
      ReduceTraceStable(log1, released1, info1, ctx.info, |old(ctx.log)|, |old(ctx.released)|, input, reduce,
        reduceFunc, group, rangeMask, None, false);
    }

    /** `AddAct(input, bias, func, weight)`: add a broadcast bias, scale and
        apply an activation, keeping the input's shape. */
    method AddAct(input: Handle, bias: Option<Handle>, func: Keyword, weight: Option<Vec4>) returns (output: Handle)
      requires Valid() && input in ctx.info
      requires bias.Some? ==> (bias.value in ctx.info && ctx.Size0(bias.value) > 0 && ctx.Size1(bias.value) > 0 &&
        ctx.Size0(input) % ctx.Size0(bias.value) == 0 && ctx.Size1(input) % ctx.Size1(bias.value) == 0)
      modifies ctx
      ensures Valid() && ctx.Grows() && ctx.released == old(ctx.released)
      ensures ctx.Allocated(output, TensorInfo(ctx.Size0(input), ctx.Size1(input), dataType, 0))
      ensures |ctx.log| == |old(ctx.log)| + 1 && ctx.Last().output == output
      ensures AddActDescriptor(ctx.Last().mat, input, output, bias, func, weight, ctx.info)
    {
      output := ctx.GPUTensor(ctx.Size0(input), ctx.Size1(input), dataType, 0);
      var mat := BuildAddAct(input, output, bias, func, weight, ctx.info);
      ctx.Blit(output, mat);
    }

    /** `Copy(output, input, size, outputOffset, inputOffset, weight, bias)`: an
        affine copy between sub-rectangles, into a fresh `size` tensor of the
        input's format when no output is given. */
    method Copy(output: Option<Handle>, input: Handle, size: Int2, outputOffset: Int2, inputOffset: Int2,
                weight: Option<Vec4>, bias: Vec4)
      returns (result: Handle)
      requires Valid() && input in ctx.info
      requires output.Some? ==> output.value in ctx.info
      requires output.None? ==> size.x >= 0 && size.y >= 0
      modifies ctx
      ensures Valid() && ctx.Grows() && ctx.released == old(ctx.released)
      ensures output.Some? ==> result == output.value && ctx.info == old(ctx.info) && ctx.live == old(ctx.live)
      ensures output.None? ==> ctx.Allocated(result, TensorInfo(size.x, size.y, ctx.DType(input), 0))
      ensures |ctx.log| == |old(ctx.log)| + 1 && ctx.Last().output == result
      ensures CopyDescriptor(ctx.Last().mat, result, input, size, outputOffset, inputOffset, weight, bias, ctx.info)
    {
      if output.None? {
        result := ctx.GPUTensor(size.x, size.y, ctx.DType(input), 0);
      } else {
        result := output.value;
      }
      var mat := BuildCopy(result, input, size, outputOffset, inputOffset, weight, bias, ctx.info);
      ctx.Blit(result, mat);
    }

    /** `Rotary(input, rotary, group)`: rotary position embedding, keeping the input's shape. */
    method Rotary(input: Handle, rotary: Handle, group: int) returns (output: Handle)
      requires Valid() && input in ctx.info && rotary in ctx.info
      modifies ctx
      ensures Valid() && ctx.Grows() && ctx.released == old(ctx.released)
      ensures ctx.Allocated(output, TensorInfo(ctx.Size0(input), ctx.Size1(input), dataType, 0))
      ensures |ctx.log| == |old(ctx.log)| + 1 && ctx.Last().output == output
      ensures RotaryDescriptor(ctx.Last().mat, input, output, rotary, group, ctx.info)
    {
      output := ctx.GPUTensor(ctx.Size0(input), ctx.Size1(input), dataType, 0);
      var mat := BuildRotary(input, output, rotary, group, ctx.info);
      ctx.Blit(output, mat);
    }

    /** `ArgMax(input, rangeMask)`: a min/max reduction of each row whose final
        pass selects one component of the result. */
    method ArgMax(input: Handle, rangeMask: Option<Vec4>) returns (output: Handle)
      requires Valid() && input in ctx.info
      modifies ctx
      ensures Valid() && ctx.Grows()
      ensures ctx.Allocated(output, TensorInfo(ctx.Size0(input), 1, Float32, 0))
      ensures ReduceTrace(ctx.log, ctx.released, ctx.info, |old(ctx.log)|, |old(ctx.released)|, input, output,
                          ReduceMinmax, 1, rangeMask, Some(ArgMaxLinear), false)
    {
      output := Reduce(input, ReduceMinmax, 1, rangeMask, Some(ArgMaxLinear), false);
    }

    /** `Softmax(input, group, rangeMask)`: an L-infinity-stabilised exponential
        under the mask, then an L1 normalisation; the intermediate is released. */
    method Softmax(input: Handle, group: nat, rangeMask: Option<Vec4>) returns (output: Handle)
      requires Valid() && input in ctx.info
      requires group >= 1 && ctx.Size1(input) % group == 0
      modifies ctx
      ensures Valid() && ctx.Grows()
      ensures ctx.Allocated(output, TensorInfo(ctx.Size0(input), ctx.Size1(input), dataType, 0))
      ensures |ctx.released| == |old(ctx.released)| + 2 * ReducePasses(ctx.Size1(input), group, false) + 1
      ensures var temp := ctx.released[|ctx.released| - 1];
        var reduce := ctx.released[|ctx.released| - 2];
        temp !in old(ctx.info) && temp in ctx.info && temp != output && reduce in ctx.info &&
        ctx.info[temp] == TensorInfo(ctx.Size0(input), ctx.Size1(input), dataType, 0) &&
        |ctx.log| > |old(ctx.log)| && ctx.Last().output == output &&
        NormalizeDescriptor(ctx.Last().mat, temp, output, reduce, FuncNormalizeL1, None, ctx.info)
    {
      var temp := Normalize(input, FuncSoftmaxLinf, ReduceMinmax, group, rangeMask);
      output := NormalizeL1Releasing(temp, group);
    }

    /** The second half of `Softmax`: L1-normalise `temp`, then release it. */
    method NormalizeL1Releasing(temp: Handle, group: nat) returns (output: Handle)
      requires Valid() && temp in ctx.info && temp in ctx.live
      requires group >= 1 && ctx.Size1(temp) % group == 0
      modifies ctx
      ensures Valid() && ctx.Grows()
      ensures output !in old(ctx.info) && output in ctx.info && output != temp &&
        ctx.info[output] == TensorInfo(ctx.Size0(temp), ctx.Size1(temp), dataType, 0)
      ensures ctx.live == old(ctx.live) - {temp} + {output} && output !in old(ctx.live)
      ensures |ctx.released| == |old(ctx.released)| + ReducePasses(ctx.Size1(temp), group, false) + 1
      ensures ctx.released[|ctx.released| - 1] == temp
      ensures var reduce := ctx.released[|ctx.released| - 2];
        reduce in ctx.info && |ctx.log| > |old(ctx.log)| && ctx.Last().output == output &&
        NormalizeDescriptor(ctx.Last().mat, temp, output, reduce, FuncNormalizeL1, None, ctx.info)
    {
      output := Normalize(temp, FuncNormalizeL1, ReduceSumpow, group, None);
      ctx.Release(temp);
    }

    /** `Gumbel(input, temperature)`: `FUNC_GUMBEL` with the input as its own
        bias and the temperature in every component of the weight. */
    method Gumbel(input: Handle, temperature: real) returns (output: Handle)
      requires Valid() && input in ctx.info && ctx.Size0(input) > 0 && ctx.Size1(input) > 0
      modifies ctx
      ensures Valid() && ctx.Grows() && ctx.released == old(ctx.released)
      ensures ctx.Allocated(output, TensorInfo(ctx.Size0(input), ctx.Size1(input), dataType, 0))
      ensures |ctx.log| == |old(ctx.log)| + 1 && ctx.Last().output == output
      ensures AddActDescriptor(ctx.Last().mat, input, output, Some(input), FuncGumbel, Some(Splat(temperature)), ctx.info)
    {
      ModOfMultiple(ctx.Size0(input), 1);
      ModOfMultiple(ctx.Size1(input), 1);
      output := AddAct(input, Some(input), FuncGumbel, Some(Splat(temperature)));
    }
  }
}
