# ShaderGPT core: operator bookkeeping and the generation driver

ShaderGPT runs GPT-style language models on the GPU, using fragment
shaders as compute kernels. This project models two parts of it:

- **The operator library `TensorNN`.** Every neural-network operator
  follows the same steps:
  1. It checks the integer shape conditions of its inputs.
  2. It allocates an output tensor in the tensor store (`TensorContext`),
     with a shape computed from those inputs.
  3. It fills a kernel binding descriptor (a Unity `Material`): the keywords
     it enables, the tensor slots it binds with their dimensions and
     offsets, and its uniforms.
  4. It dispatches the descriptor (`Blit`) and releases its own intermediate
     tensors.

  The reduction `_Reduce` splits a wide row in two passes. It picks the
  intermediate width with integer arithmetic (a ceiling square root, or a
  power of two that divides the group width) and recurses at most once.
- **The generation driver `GPTBase`.** It does the following:
  - It loads the parameter textures by name and registers each weight's
    `.q8` quantized companion.
  - Once per frame, it appends one sampled token until the sequence reaches
    `maxLength`, paced by a time gate.
  - It provides the helpers that concrete models share:
    - packing token ids and positions into the input tensor;
    - sampling a token: last row of the logits, then Gumbel noise, then
      arg-max;
    - deferred releases (`MarkRelease` / `BatchRelease`);
    - comparing a tensor row with reference values and dumping it when the
      largest error reaches the tolerance;
    - redeclaring a parameter's row count together with its quantized
      companion.

The kernels are opaque. What the model keeps is:

- the shapes;
- the descriptors;
- the order of dispatches and releases;
- the set of live tensors;
- the token loop.

The model is organised in these modules:

- **`Tensors`** is the store as the core sees it.
  - A class `TensorContext` holds:
    - the shape map `info`;
    - the live set (`TensorCount` is its size);
    - the dispatch `log`;
    - the `released` list;
    - the uploaded host data;
    - the tensor dumps.
  - It also defines the descriptor value `Material`.
- **`Keywords`** holds the `Keyword` enum, its names and underlying values, and `ActFn`. `ActFn` is modelled through `Enum.Parse`'s handling of a string: it splits at commas, trims each piece, looks each name up, and ors the values.
- **`ReduceWidths`** holds the pure width arithmetic of `_Reduce`.
- **`Bindings`** holds the `SetTensor` overloads, `EnableOption`, and one
  descriptor predicate and one builder per operator.
- **`Operators`** is the class `TensorNN`, with one method per operator.
- **`Generation`** is the class `GPTBase`, together with the pure
  specifications of its token loop, input packing and error metrics.

## Model

| member | source | states |
|---|---|---|
| Keywords.ParseName | Script/TensorNN.cs:187-208 | parsing `s` yields `k` exactly when `s` is `k`'s name, in both directions |
| Keywords.ParseSound | Script/TensorNN.cs:194-208 | a name that parses to a keyword is that keyword's name |
| Keywords.ParseComplete | Script/TensorNN.cs:194-208 | every keyword parses back from its own name |
| Keywords.NameInjective | Script/TensorNN.cs:187-189 | distinct keywords enable distinct shader keywords, so a set of keywords stands for the set of enabled names |
| Keywords.Name | Script/TensorNN.cs:187-208 | every keyword's `ToString()` name is one of the enum's declared names, and that name stands for the keyword |
| Keywords.Parse | Script/TensorNN.cs:191-208 | looking up one name finds a keyword only under that keyword's own name, and finds nothing when no keyword is so named |
| Keywords.UpperLength | Script/TensorNN.cs:191 | upper-casing keeps the length and maps each character by itself |
| Keywords.Ord | Script/TensorNN.cs:194-208 | each keyword's underlying value is its declaration position, `None = 0` to `FUNC_ROTARY = 12` |
| Keywords.KeywordOf | Script/TensorNN.cs:194-208 | a value names the keyword whose underlying value it is, and no keyword when none has it |
| Keywords.OrdInjective | Script/TensorNN.cs:194-208 | distinct keywords have distinct values |
| Keywords.TrimStart | Script/TensorNN.cs:191 | `Enum.Parse` drops leading white space: the result is a suffix of the name, starts with no blank, and only blanks were dropped |
| Keywords.TrimEnd | Script/TensorNN.cs:191 | trailing white space is dropped in the same way: a prefix, ending in no blank, with only blanks dropped |
| Keywords.Split | Script/TensorNN.cs:191 | the comma-separated pieces: at least one, none containing a comma, and the whole string when it has no comma |
| Keywords.SplitFirst | Script/TensorNN.cs:191 | a list splits into its first piece followed by the pieces of the rest |
| Keywords.Or | Script/TensorNN.cs:191 | the bitwise or of two enum values stays within four bits, and 0 is its identity |
| Keywords.OrValues | Script/TensorNN.cs:204-207 | `FUNC_GELU` or `FUNC_GELU_NEW` is `FUNC_GUMBEL`'s value 11, and `FUNC_GELU` or `FUNC_ROTARY` is 13 |
| Keywords.ParseFlagsSingle | Script/TensorNN.cs:191 | one piece parses to the value of the keyword named by the trimmed piece, or fails |
| Keywords.ParseFlagsCons | Script/TensorNN.cs:191 | a list's value is the first piece's value or'ed with the rest's, and fails when either fails |
| Keywords.ActFn | Script/TensorNN.cs:190-192 | the result, when there is one, is an or of keyword values and so below 16 |
| Keywords.ActFnSpec | Script/TensorNN.cs:190-192 | for a name without a comma, `ActFn(name)` is `k`'s value exactly when `k` is named `FUNC_` followed by the upper-cased name with trailing blanks dropped; otherwise it fails, where `Enum.Parse` throws |
| Keywords.ActFnDeclared | Script/TensorNN.cs:190-208 | for a name without a comma, what `ActFn` returns is the value of a declared keyword whose name starts with `FUNC_` |
| Keywords.ActFnList | Script/TensorNN.cs:190-192 | for a comma list, `ActFn` ors the first activation's value with the value of the upper-cased rest, and fails when either side does |
| Keywords.ActFnListValues | Script/TensorNN.cs:190-208 | `gelu` followed by `FUNC_GELU_NEW` gives `FUNC_GUMBEL`; followed by `FUNC_ROTARY` it gives 13, a value the enum does not declare |
| ReduceWidths.CeilSqrt | Script/TensorNN.cs:62 | the result is the least `s` with `s * s >= n` |
| ReduceWidths.MinPow2 | Script/TensorNN.cs:64 | the result is the least power of two `m` with `m * m >= n` |
| ReduceWidths.ReduceWidth | Script/TensorNN.cs:57-68 | the first-pass width is at least `group`, and it differs from `group` only for an input that is not reduced and whose groups each span at least 256 columns |
| ReduceWidths.CeilSqrtBounds | Script/TensorNN.cs:59-62 | for a group width of 256 or more, the ungrouped split width is between 16 and the width |
| ReduceWidths.MinPow2Bounds | Script/TensorNN.cs:63-64 | for a group width of 256 or more, the power of two is between 16 and the width |
| ReduceWidths.ReduceWidthSplit | Script/TensorNN.cs:57-68 | the first-pass width is `group` (no split) or a multiple of `group` strictly between `group` and the input width. A split happens only when the input is not reduced and the group width is at least 256. When grouped, the split width divides the input width, as the comment at line 63 promises |
| ReduceWidths.UngroupedWidth | Script/TensorNN.cs:59-62 | the ungrouped split width is exactly the ceiling square root of the row width |
| ReduceWidths.ReducedNeverSplits | Script/TensorNN.cs:59 | an input marked as reduced is never split again |
| ReduceWidths.ReducePasses | Script/TensorNN.cs:78-85 | `_Reduce` issues one or two passes, two exactly when the width splits |
| ReduceWidths.ReduceStep | Script/TensorNN.cs:57-85 | a split width is a multiple of `group` whose second reduction does not split, which makes two passes; otherwise the width is `group` and there is one pass |
| Bindings.SetTensor | Script/TensorNN.cs:178-181 | binds the texture under the name with dimensions `(Size0, Size1, 1, Mipmap)`; a fresh name gets no offset. Nothing else changes: other slots, the kernel, the keywords and the uniforms are kept |
| Bindings.SetTensorRect | Script/TensorNN.cs:182-186 | binds the texture with dimensions `(size.x, size.y, 1, Mipmap)` and offset `(offset.x, offset.y, 0, 0)`, and changes nothing else |
| Bindings.SetTensorRectWhole | Script/TensorNN.cs:182-186 | binding the whole tensor at the origin as a sub-rectangle equals the plain binding plus a zero offset, and changes no other slot |
| Bindings.EnableOption | Script/TensorNN.cs:187-189 | adds exactly the keyword and leaves slots and uniforms alone |
| Bindings.SetLinear | Script/TensorNN.cs:86-91 | the vectors become the old vectors with the four `_Linear<i>` uniforms merged in, holding the four columns of the transform; the slots, the keywords and the other uniforms are kept |
| Bindings.BindWeight | Script/TensorNN.cs:19-32 | binds one weight. When it is quantized, its scale slot is bound and `WEIGHT_QUANTIZED` is enabled; otherwise the keywords are unchanged. Earlier slots are kept |
| Bindings.BindOptionalWeight | Script/TensorNN.cs:19-32 | the same for an optional weight; an absent weight changes nothing |
| Bindings.BindEmbeddingIO | Script/TensorNN.cs:16-18 | a fresh `Embedding` descriptor with exactly the output and input bound |
| Bindings.BindEmbeddingWeights | Script/TensorNN.cs:16-32 | each given weight is bound with its scale when quantized; `WEIGHT_QUANTIZED` is enabled exactly when some given weight is quantized, and it is the only keyword |
| Bindings.BuildEmbedding | Script/TensorNN.cs:16-34 | the descriptor `Embedding` dispatches. `WEIGHT_TRANSPOSED` is enabled iff the weight is transposed, and `WEIGHT_QUANTIZED` iff some weight given has a scale. Each such scale is bound. The slots are exactly output, input, each given weight and each quantized weight's scale; no uniform is set |
| Bindings.EmbeddingQuantizedIffScale | Script/TensorNN.cs:19-32 | in that descriptor a `_Scale<i>` slot is bound exactly when its weight is given and quantized, so `WEIGHT_QUANTIZED` is enabled exactly when some scale is bound |
| Bindings.BuildLinear | Script/TensorNN.cs:42-52 | the descriptor `Linear` dispatches. `_Head` is the only integer uniform, `WEIGHT_TRANSPOSED` is enabled iff transposed, and `WEIGHT_QUANTIZED` iff the weight has a scale. The slots are exactly output, input, weight and, when quantized, the scale; no vector or float is set |
| Bindings.LinearQuantizedIffScale | Script/TensorNN.cs:46-50 | in that descriptor `WEIGHT_QUANTIZED` is enabled exactly when `_Scale` is bound, and then `_Scale` holds the weight's scale |
| Bindings.BuildReduce | Script/TensorNN.cs:70-79 | one `_Reduce` pass's descriptor: the combinator and `INPUT_REDUCED` keywords; the slots are exactly output and input, whole; the vectors are exactly the range mask when given plus the transform when given (lines 86-91); the integers are exactly `_RangeMod` on a splitting pass; no float is set |
| Bindings.ReduceDescriptorStable | Script/TensorNN.cs:80-84 | a dispatched pass's descriptor stays accurate while the shapes of its two tensors are unchanged, across the recursive call and the release |
| Bindings.BuildGroupNorm | Script/TensorNN.cs:100-107 | `FUNC_GROUPNORM` alone; the slots are exactly output, input, statistics, weight and bias, whole; the only uniform is `_Eps` |
| Bindings.BuildNormalize | Script/TensorNN.cs:115-121 | the given function keyword alone; the slots are exactly output, input and statistics, whole; the only uniform is the mask, exactly when given |
| Bindings.AddActDescriptorStable | Script/TensorNN.cs:126-140 | an `AddAct` descriptor stays accurate while the shapes of the tensors it binds are unchanged, so later allocations do not falsify it |
| Bindings.BuildAddAct | Script/TensorNN.cs:129-137 | the activation keyword unless it is `None`; the slots are exactly output, input and, when given, the bias, whole; the only uniform is `_Weight`, exactly when given |
| Bindings.BuildCopy | Script/TensorNN.cs:144-148 | the slots are exactly the two sides, as `size` sub-rectangles at their offsets; the vectors are exactly `_Weight` (the given weight or all ones) and `_Bias`; no integer or float is set |
| Bindings.CopyDescriptorStable | Script/TensorNN.cs:141-151 | a `Copy` descriptor stays accurate while its two tensors' shapes are unchanged |
| Bindings.BuildRotary | Script/TensorNN.cs:154-159 | `FUNC_ROTARY` alone; the slots are exactly output, input and the rotation table, whole; the only uniform is `_ReduceDim = (Size0(input), group)` |
| Operators.LinearColsPerHead | Script/TensorNN.cs:39-41 | a shape-valid `Linear` output width divides evenly into `head` heads |
| Operators.LinearTransposedShape | Script/TensorNN.cs:39-41 | a weight valid untransposed is valid in its transposed layout, and both give the same output width |
| Operators.ReduceTraceStable | Script/TensorNN.cs:56-94 | a reduction's dispatches and release stay as stated when later operators allocate new tensors, so callers can state the reduction they ran |
| Operators.TensorNN.constructor | Script/TensorNN.cs:8-12 | the library starts with no quantized weights, `Float32` outputs and `linearMipmap` 2 |
| Operators.TensorNN.Embedding | Script/TensorNN.cs:14-37 | allocates exactly one new live tensor, `Size0(input)` by the first weight's `Size1` (or `Size0/4` when transposed), and dispatches `BuildEmbedding`'s descriptor to it |
| Operators.TensorNN.Linear | Script/TensorNN.cs:38-55 | under the shape assertions, allocates one `Size0(input)` by (`Size1(weight)` if transposed else `Size0(weight)/4*head`) tensor with `linearMipmap` sub-levels, and dispatches one `Linear` descriptor |
| Operators.TensorNN.ReducePass | Script/TensorNN.cs:69-80 | one pass: a new `Float32` tensor `size1` wide, and one `Reduce` descriptor dispatched to it |
| Operators.TensorNN.Reduce | Script/TensorNN.cs:56-94 | the result is one new live tensor, `Size0(input)` by `group`, `Float32`. Without a split there is one pass with mask and transform. With a split there is a masked pass into a fresh `ReduceWidth`-wide buffer carrying `_RangeMod`, then an unmasked final pass with the transform, and the buffer is released |
| Operators.TensorNN.ReduceSplit | Script/TensorNN.cs:59-85 | the splitting branch as above; the partial buffer is released, so the net live change is just the result |
| Operators.TensorNN.GroupNormPass | Script/TensorNN.cs:99-108 | a new tensor of the input's shape, with one `GroupNorm` descriptor dispatched to it |
| Operators.TensorNN.GroupNorm | Script/TensorNN.cs:95-111 | under the weight and bias shape assertions, one new live tensor of the input's shape. The statistics are `Size0` by `group`, are bound, and are released. They come from a full `_Reduce` trace: `REDUCE_SUMPOW` over the input, unmasked, with no transform. The dispatch and release counts follow `ReducePasses` |
| Operators.TensorNN.NormalizePass | Script/TensorNN.cs:114-122 | a new tensor of the input's shape, with one normalising descriptor dispatched to it |
| Operators.TensorNN.Normalize | Script/TensorNN.cs:112-125 | one new live tensor of the input's shape. The statistics come from a full `_Reduce` trace of `reduceFunc` over the input under the range mask; they are bound to the normalising pass, which carries the same mask, and then released |
| Operators.TensorNN.AddAct | Script/TensorNN.cs:126-140 | when the bias dimensions divide the input's, one new tensor of the input's shape with one `AddAct` descriptor |
| Operators.TensorNN.Copy | Script/TensorNN.cs:141-151 | writes into the given output without allocating, or into one new `size` tensor of the input's format; the sub-rectangle descriptor is dispatched to it |
| Operators.TensorNN.Rotary | Script/TensorNN.cs:152-162 | one new tensor of the input's shape with the `Rotary` descriptor |
| Operators.TensorNN.ArgMax | Script/TensorNN.cs:164-167 | a `REDUCE_MINMAX` reduction of each whole row to one `Float32` column, whose final pass carries the component-selecting transform |
| Operators.TensorNN.Softmax | Script/TensorNN.cs:168-173 | one new live tensor of the input's shape. The intermediate and both statistics buffers are released, and the last dispatch is the `FUNC_NORMALIZE_L1` pass over the intermediate |
| Operators.TensorNN.NormalizeL1Releasing | Script/TensorNN.cs:171-172 | the second half of `Softmax`: an unmasked `FUNC_NORMALIZE_L1` pass over the intermediate, with one new live tensor of its shape replacing the intermediate, which is released last |
| Operators.TensorNN.Gumbel | Script/TensorNN.cs:174-176 | `AddAct` with `FUNC_GUMBEL`, the input as its own bias, and the temperature in every component of the weight |
| Generation.Step | Script/GPTBase.cs:89-99 | a frame changes the state exactly when fewer than `maxLength` tokens exist and `nextTime` has come. It then appends the frame's token, points the position at it, and sets `nextTime` to now plus `interval` |
| Generation.Steps | Script/GPTBase.cs:88-99 | over a run of frames the tokens grow by at most one per frame, and a full sequence does not change |
| Generation.StepsGrow | Script/GPTBase.cs:88-99 | over any run of frames, the tokens only grow, by at most one per frame. They never pass `maxLength` once within it, a full sequence never changes, and the position moves only when a token is appended |
| Generation.StepsWindow | Script/GPTBase.cs:94-99 | the position stays within the sequence and, once a token is appended, points at the last token |
| Generation.StepsUnpaced | Script/GPTBase.cs:88-99 | when the first frame comes at or after `nextTime` and each later frame at least `interval` after the one before, every frame appends its token: the tokens are the prompt followed by the frames' tokens, up to `maxLength` |
| Generation.PackedInput | Script/GPTBase.cs:111-116 | four components per token from position `p` on, the last two of each texel zero |
| Generation.InputTexel | Script/GPTBase.cs:110-116 | texel `i` of the packed input is `(ids[p + i], p + i, 0, 0)` |
| Generation.PackInput | Script/GPTBase.cs:110-116 | the filled array is exactly the packed input of the ids from position `p` on |
| Generation.SumErr | Script/GPTBase.cs:149-151 | the summed absolute error is never negative |
| Generation.SumSqErr | Script/GPTBase.cs:149-152 | the summed squared error is never negative |
| Generation.MaxErr | Script/GPTBase.cs:149-153 | the running maximum, started at 0, is never negative |
| Generation.MaxErrIsMaximum | Script/GPTBase.cs:149-154 | the largest error is non-negative, bounds every compared component's error, and is attained by one when there are any |
| Generation.MaxErrExceeds | Script/GPTBase.cs:153-160 | the tolerance check fails exactly when the tolerance is not positive or some component is off by at least `eps` |
| Generation.SumErrBounds | Script/GPTBase.cs:149-155 | the largest error is at most the summed error, and the summed error is at most `count` times the largest |
| Generation.ErrorMetrics | Script/GPTBase.cs:146-154 | the loop's three accumulators are the summed, squared and largest errors over the compared components |
| Generation.AssertOffset | Script/GPTBase.cs:142-143 | for a row in `-Size0 .. Size0 - 1`, counting negative rows from the end, the offset starts a whole row that fits inside the tensor's data |
| Generation.AssertCount | Script/GPTBase.cs:144 | the count is the smaller of one row's components and the number of reference values |
| Generation.AssertWindow | Script/GPTBase.cs:142-145 | for a row in `-Size0 .. Size0 - 1`, the compared components lie inside that one row of the tensor's data |
| Generation.QuantNameInjective | Script/GPTBase.cs:52-54 | distinct weights have distinct companion names, and no name is its own companion |
| Generation.QuantRows | Script/GPTBase.cs:165 | the companion's rows are the ceiling of a quarter of the weight's rows |
| Generation.ParameterMap | Script/GPTBase.cs:51 | every texture is found under its own name, and no two names share a texture |
| Generation.QuantRegistry | Script/GPTBase.cs:52-54 | a parameter's texture has a scale exactly when its `.q8` companion exists, and the scale is that companion; no other texture gets one |
| Generation.NewLibrary | Script/GPTBase.cs:46-49 | a fresh library over a fresh store that knows exactly the textures, with the registry installed and nothing live |
| Generation.GPTBase.constructor | Script/GPTBase.cs:45-62 | `OnEnable`: the parameters by name, the quantization registry as above, and, in the `Run` task, the prompt at position 0 with the first step due now |
| Generation.GPTBase.Update | Script/GPTBase.cs:88-105 | in the `Run` task, exactly one `Step`: nothing happens at `maxLength` or before `nextTime`. Otherwise `nextTime` becomes now plus `interval`, the position becomes the old length, and one token is appended. The other tasks change nothing |
| Generation.GPTBase.InputTensor | Script/GPTBase.cs:110-120 | one new host tensor, `(|ids| - p)` by 1, holding the packed input |
| Generation.GPTBase.MarkRelease | Script/GPTBase.cs:131-134 | appends the tensor to the release list and returns it unchanged |
| Generation.GPTBase.BatchRelease | Script/GPTBase.cs:135-140 | releases every listed tensor in listing order, empties the list, and returns its argument unchanged |
| Generation.GPTBase.GumbelReleasing | Script/GPTBase.cs:125 | the one dispatch is `FUNC_GUMBEL` over the copied row, with the row as its own bias and the temperature in every weight component; the noisy row then replaces the copied row among the live tensors |
| Generation.GPTBase.ArgMaxReleasing | Script/GPTBase.cs:126 | the dispatches are a full `_Reduce` trace: `REDUCE_MINMAX` over the noisy row, under the given mask, with the component-selecting transform; the one-column result then replaces the noisy row among the live tensors |
| Generation.GPTBase.LastRow | Script/GPTBase.cs:123-124 | one new `1` by `Size1` tensor of the logits' format, filled by one `Copy` dispatch from offset `(Size0 - 1, 0)` |
| Generation.GPTBase.SampleRow | Script/GPTBase.cs:125-126 | the Gumbel dispatch over the row followed by the arg-max trace over the noisy row, masked to `(0, vocab_size, 0, 0)`; the row and the noisy row are released in that order, and the one-column result replaces the row and whatever was marked before among the live tensors |
| Generation.GPTBase.MultinomialSample | Script/GPTBase.cs:121-127 | copies the last row, offset `(Size0 - 1, 0)` and size `(1, Size1)`. Then the Gumbel noise is scaled by `temperature` over that row, and the arg-max is masked to `(0, vocab_size, 0, 0)`, as a chain of dispatches at fixed log positions. It returns a new `1 x 1` tensor. Afterwards the only new live tensor is the result, the release list is empty, and whatever was marked before is released |
| Generation.GPTBase.AssertData | Script/GPTBase.cs:141-161 | the tensor is dumped exactly when the largest error over the compared components of the row reaches `eps` |
| Generation.GPTBase.FixSize0 | Script/GPTBase.cs:162-166 | the parameter's rows become `size0` and its `.q8` companion's rows, if any, become `(size0 + 3) / 4`; no other tensor changes |

## Left out

- The kernels' numerics are not modelled. A dispatch is an opaque event that records the descriptor.
  - So nothing is proved about softmax sums, normalisation formulas or the Gumbel noise itself.
- Floating point is not modelled.
  - `Mathf.Sqrt` and `Mathf.Log` in `_Reduce` are replaced by their exact integer meanings: the least `s` with `s * s >= n`, and the least power of two `m` with `m * m >= n`.
  - Error metrics are real numbers.
  - The float conversion of token ids in `InputTensor` is exact.
- Shape `Debug.Assert`s become preconditions, so contracts hold for the inputs the assertions accept. Unity logs a failed assertion and carries on; what an operator does on such input is not modelled.
  - In `Linear`, `GroupNorm` and `AddAct`, a `%` by zero would throw. So `head >= 1` and nonzero bias dimensions are required.
- Operators.TensorNN.Reduce, `GroupNorm`, `Normalize` and `Softmax`: require `group >= 1`, because `_Reduce` computes `% group` and `/ group`, which throw for a zero group.
- The `Debug.Assert(ctx.TensorCount() == 0)` after `Run` in `Update` is modelled as `Update`'s precondition for a step that runs.
  - `Run` itself is the model's forward pass, which is not part of this model. It becomes the `token` parameter, and it is assumed to leave the live count as it found it.
  - `Time.time` is the `now` parameter.
- `AssertData` models the dump decision only.
  - `GetData` is the `data` parameter.
  - The L1/L2 normalisation (a division by `count`, which is NaN when no values are given) and the square root are logged and not modelled.
  - The failing `Debug.Assert(Li < eps)` only logs.
  - Reading outside `data` would throw, so the window is required to lie inside it.
- Generation.GPTBase.AssertData: the row is compared only when it lies inside the data; the source's out-of-range index exception is a precondition here.
- Names are enumerations: shader properties (`Prop`), keywords (`Keyword`) and kernels (`Shader`).
  - The kernel dictionary built by splitting each shader's name at `/` is the set of available kernels. Operators require all four, where the source's lookup would throw.
- `TensorContext`'s implementation is not part of this model. Only the bookkeeping its callers rely on is kept: shapes, the live set, dispatch and release order, host data and dumps.
  - `GPUTensor`'s default mipmap is taken to be 0.
  - Handles of imported textures are their indices in `textures`.
- `TensorNN.Material` is a value updated step by step. Each operator makes a fresh `Material`, so no aliasing is lost.
- `_Reduce`'s recursion is split into `Reduce`, `ReduceSplit` and `ReducePass`.
  - The order of dispatches and releases is that of the source.
- Other operators and helpers are split into smaller members:
  - `GroupNorm` and `_Normalize` are split into pass methods.
  - `Softmax` is split into its first `_Normalize` and `NormalizeL1Releasing`.
  - `MultinomialSample` is split into `LastRow` and `SampleRow`, which chains `GumbelReleasing` and `ArgMaxReleasing`.
  - `OnEnable` gets the helpers `ParameterMap`, `QuantRegistry` and `NewLibrary`.
  - The loops of `InputTensor` and `AssertData` become `PackInput` and `ErrorMetrics`.
- Operators.TensorNN.Softmax: states the final `FUNC_NORMALIZE_L1` descriptor and the release accounting. It does not restate the first `FUNC_SOFTMAX_LINF` pass's descriptor, which `Normalize`'s own contract gives.
- Operators.TensorNN.Embedding: requires at least one weight, because the output width reads `weight0 ?? weight1`, which throws when both are null.
- Operators.TensorNN.Gumbel: requires a non-empty input, because `AddAct`'s divisibility assertion divides by the bias dimensions, and the bias is the input.
- Generation.GPTBase.InputTensor: requires `0 <= positionId <= |ids|`. Outside that range the source throws, either from `new float[n*4]` with a negative `n` or from an index out of range (Script/GPTBase.cs:111-115). The exception path is not modelled.
- Operators.TensorNN.Copy: requires `size.x >= 0` and `size.y >= 0` when it allocates the output. The source passes `size` to `GPUTensor` unchecked (Script/TensorNN.cs:142-143), and what the store does with a negative size is not part of this model.
- Generation.GPTBase.constructor: models the first `OnEnable` only, and sets the tokens to the prompt unconditionally. The source keeps tokens that are already there and reads the prompt only `if(tokens == null)` (Script/GPTBase.cs:60-61), which matters only when the component is enabled again.
- Generation.GPTBase.MarkRelease: requires the tensor not to be listed already and to be live. Releasing one tensor twice is up to the store's implementation, which is not part of this model.
- Generation.GPTBase.MultinomialSample: the arg-max range argument is passed as `indexRange: new Vector2(0, vocab_size)`, a parameter name `ArgMax` does not declare (it declares `rangeMask`). It is modelled as the mask `(0, vocab_size, 0, 0)`, Unity's widening of that vector.
- Generation.GPTBase.FixSize0: row counts are natural numbers; negative sizes are not modelled.
- Generation.GPTBase.FixSize0: requires the name to be a parameter, because `parameters[name]` throws `KeyNotFoundException` for an unknown name.
- Keywords.UpperLength: upper-cases ASCII letters only; culture-invariant case mapping of other characters is not modelled.
- Keywords.TrimStart and `TrimEnd`: treat only the space and the ASCII controls tab to carriage return as white space. `Enum.Parse` trims every Unicode white-space character.
- Keywords.ActFnSpec: is stated for names without a comma. Comma lists are covered by `ActFnList`, which splits off the first name, and by `ActFnListValues`.
- Keywords.ActFn: returns the enum's underlying value, not a `Keyword`, because an or of several values (such as 13) may name no declared keyword. `Enum.Parse`'s numeric form, a string starting with a digit or a sign, is not modelled; it cannot arise, because every string `ActFn` builds starts with `FUNC_`.
- Generation.ParameterMap: requires distinct texture names, because `ToDictionary` throws on a duplicate key.
- `OnEnable` leaves out some steps:
  - tokenizer and test-fixture JSON loading;
  - the display of the prompt;
  - the `Test` task;
  - the editor-only `Bake` task (`TensorTracer` export).
  - Under `Run`, the prompt is a parameter (the fixture's `input_ids`).
- Also left out:
  - `OnDisable` (`ReleasePersistent`);
  - the UI text and `Debug.Log` output;
  - the abstract `Test` and `Bake`.
- Dictionary iteration order in the registry loop is irrelevant: names map to distinct textures, so the entries are independent.
