/**
 * Kernel binding in `TensorNN`: `SetTensor` (both overloads), `EnableOption`,
 * the descriptor each operator dispatches, and the step-by-step builders
 * that fill a fresh descriptor the way each operator body does.
 * Shapes are read from the store's shape map `info` (`Size0`, `Size1`, `Mipmap`).
 */
module Bindings {
  import opened Wrappers
  import opened Tensors
  import opened Keywords

  /** `name` is bound to `tex` in `m`. */
  predicate Bound(m: Material, name: Prop, tex: Handle) {
    name in m.slots && m.slots[name].tex == tex
  }

  /** The slot of the whole of `tex`: dimensions `(Size0, Size1, 1, Mipmap)`, no offset. */
  function Whole(tex: Handle, info: map<Handle, TensorInfo>): Slot
    requires tex in info
  {
    Slot(tex, Int4(info[tex].rows, info[tex].cols, 1, info[tex].mipmap), None)
  }

  /** The slot of the `size` sub-rectangle of `tex` at `offset`. */
  function Rect(tex: Handle, offset: Int2, size: Int2, info: map<Handle, TensorInfo>): Slot
    requires tex in info
  {
    Slot(tex, Int4(size.x, size.y, 1, info[tex].mipmap), Some(Int4(offset.x, offset.y, 0, 0)))
  }

  /** `name` is bound to the whole of `tex`. */
  predicate Binds(m: Material, name: Prop, tex: Handle, info: map<Handle, TensorInfo>) {
    tex in info && name in m.slots && m.slots[name] == Whole(tex, info)
  }

  /** `name` is bound to the `size` sub-rectangle of `tex` at `offset`. */
  predicate BindsRect(m: Material, name: Prop, tex: Handle, offset: Int2, size: Int2,
                      info: map<Handle, TensorInfo>) {
    tex in info && name in m.slots && m.slots[name] == Rect(tex, offset, size, info)
  }

  /** The `_Linear<i>` uniforms holding the columns of `linear`, when given. */
  function LinearMap(linear: Option<Mat4>): map<Prop, Vec4> {
    if linear.Some? then
      map[Linear0 := linear.value.c0, Linear1 := linear.value.c1,
          Linear2 := linear.value.c2, Linear3 := linear.value.c3]
    else map[]
  }

  /** The `_RangeMask` uniform, when a mask is given. */
  function MaskMap(rangeMask: Option<Vec4>): map<Prop, Vec4> {
    if rangeMask.Some? then map[RangeMask := rangeMask.value] else map[]
  }

  /** `SetTensor(mat, name, tex)`: bind `tex` with its whole shape. A slot
      keeps an offset bound earlier under the same name, as a material does. */
  function SetTensor(mat: Material, name: Prop, tex: Handle, info: map<Handle, TensorInfo>): (m: Material)
    requires tex in info
    ensures Bound(m, name, tex)
    ensures m.slots[name].dim == Int4(info[tex].rows, info[tex].cols, 1, info[tex].mipmap)
    ensures m.slots[name].off == if name in mat.slots then mat.slots[name].off else None
    ensures name !in mat.slots ==> Binds(m, name, tex, info)
    ensures m == mat.(slots := mat.slots[name := m.slots[name]])
  {
    var off := if name in mat.slots then mat.slots[name].off else None;
    mat.(slots := mat.slots[name := Slot(tex, Int4(info[tex].rows, info[tex].cols, 1, info[tex].mipmap), off)])
  }

  /** `SetTensor(mat, name, tex, offset, size)`: the plain binding, with its
      dimensions overridden by `size` and the offset set. */
  function SetTensorRect(mat: Material, name: Prop, tex: Handle, offset: Int2, size: Int2,
                         info: map<Handle, TensorInfo>): (m: Material)
    requires tex in info
    ensures BindsRect(m, name, tex, offset, size, info)
    ensures m == mat.(slots := mat.slots[name := m.slots[name]])
  {
    var m := SetTensor(mat, name, tex, info);
    m.(slots := m.slots[name := m.slots[name].(dim := Int4(size.x, size.y, 1, info[tex].mipmap),
                                               off := Some(Int4(offset.x, offset.y, 0, 0)))])
  }

  /** The sub-rectangle binding of a whole tensor at the origin binds what the
      plain binding binds, and differs from it only by recording the offset. */
  lemma SetTensorRectWhole(mat: Material, name: Prop, tex: Handle, info: map<Handle, TensorInfo>)
    requires tex in info
    ensures var whole := Int2(info[tex].rows, info[tex].cols);
      var r := SetTensorRect(mat, name, tex, Int2(0, 0), whole, info);
      var p := SetTensor(mat, name, tex, info);
      r.slots[name] == p.slots[name].(off := Some(Int4(0, 0, 0, 0))) &&
      r.slots.Keys == p.slots.Keys &&
      (forall s: Prop :: s in p.slots && s != name ==> r.slots[s] == p.slots[s])
  {
  }

  /** `EnableOption(mat, k)`: enable the keyword named `Name(k)`. */
  function EnableOption(mat: Material, k: Keyword): (m: Material)
    ensures m.keywords == mat.keywords + {k}
    ensures m.kernel == mat.kernel && m.slots == mat.slots && m.vectors == mat.vectors
    ensures m.ints == mat.ints && m.floats == mat.floats
  {
    mat.EnableKeyword(k)
  }

  /** Set the four `_Linear<i>` uniforms to the columns of `linear`. */
  function SetLinear(mat: Material, linear: Mat4): (m: Material)
    ensures m == mat.(vectors := mat.vectors + LinearMap(Some(linear)))
  {
    LinearMerge(mat.vectors, linear);
    mat.SetVector(Linear0, linear.c0).SetVector(Linear1, linear.c1)
       .SetVector(Linear2, linear.c2).SetVector(Linear3, linear.c3)
  }

  /** Setting the four uniforms one by one merges `LinearMap` into the vectors. */
  lemma LinearMerge(v: map<Prop, Vec4>, linear: Mat4)
    ensures v[Linear0 := linear.c0][Linear1 := linear.c1][Linear2 := linear.c2][Linear3 := linear.c3] ==
            v + LinearMap(Some(linear))
  {
  }

  /** `Vector4.one * t`. */
  function Splat(t: real): Vec4 {
    Vec4(t, t, t, t)
  }

  /** The `_Scale<i>` slot and `WEIGHT_QUANTIZED` accompany a quantized weight, and only one. */
  predicate QuantBinding(m: Material, weight: Handle, scaleName: Prop,
                         quants: map<Handle, Handle>, info: map<Handle, TensorInfo>) {
    weight in quants ==> Binds(m, scaleName, quants[weight], info)
  }

  // ---------------------------------------------------------------- Embedding

  /** The slots an optional weight occupies: its own and, when quantized, its scale's. */
  function WeightSlots(name: Prop, scaleName: Prop, w: Option<Handle>, quants: map<Handle, Handle>): set<Prop> {
    if w.None? then {} else if w.value in quants then {name, scaleName} else {name}
  }

  /** What `Embedding` dispatches. */
  ghost predicate EmbeddingDescriptor(m: Material, input: Handle, output: Handle,
      weight0: Option<Handle>, weight1: Option<Handle>, transposeWeight: bool,
      quants: map<Handle, Handle>, info: map<Handle, TensorInfo>)
  {
    m.kernel == EmbeddingShader &&
    Binds(m, Output, output, info) && Binds(m, Input, input, info) &&
    (weight0.Some? ==> Binds(m, Weight0, weight0.value, info) && QuantBinding(m, weight0.value, Scale0, quants, info)) &&
    (weight1.Some? ==> Binds(m, Weight1, weight1.value, info) && QuantBinding(m, weight1.value, Scale1, quants, info)) &&
    m.keywords <= {WeightTransposed, WeightQuantized} &&
    (WeightTransposed in m.keywords <==> transposeWeight) &&
    (WeightQuantized in m.keywords <==>
      (weight0.Some? && weight0.value in quants) || (weight1.Some? && weight1.value in quants)) &&
    m.slots.Keys == {Output, Input} + WeightSlots(Weight0, Scale0, weight0, quants)
                                    + WeightSlots(Weight1, Scale1, weight1, quants) &&
    m.vectors == map[] && m.ints == map[] && m.floats == map[]
  }

  /** One weight of `Embedding`: bind it and, when it is quantized, its scale and the keyword. */
  function BindWeight(mat: Material, name: Prop, scaleName: Prop, w: Handle,
                      quants: map<Handle, Handle>, info: map<Handle, TensorInfo>): (m: Material)
    requires w in info && (w in quants ==> quants[w] in info)
    requires name !in mat.slots && scaleName !in mat.slots && name != scaleName
    ensures Binds(m, name, w, info) && QuantBinding(m, w, scaleName, quants, info)
    ensures m.keywords == if w in quants then mat.keywords + {WeightQuantized} else mat.keywords
    ensures m.kernel == mat.kernel && m.vectors == mat.vectors && m.ints == mat.ints && m.floats == mat.floats
    ensures m.slots.Keys == mat.slots.Keys + WeightSlots(name, scaleName, Some(w), quants)
    ensures forall s: Prop :: s in mat.slots ==> m.slots[s] == mat.slots[s]
  {
    var m := SetTensor(mat, name, w, info);
    if w in quants then EnableOption(SetTensor(m, scaleName, quants[w], info), WeightQuantized) else m
  }

  /** `if(weight) { ... }`: bind a weight, when one is given, as `BindWeight` does. */
  method BindOptionalWeight(mat: Material, name: Prop, scaleName: Prop, w: Option<Handle>,
                            quants: map<Handle, Handle>, info: map<Handle, TensorInfo>)
    returns (m: Material)
    requires w.Some? ==> w.value in info && (w.value in quants ==> quants[w.value] in info)
    requires name !in mat.slots && scaleName !in mat.slots && name != scaleName
    ensures w.Some? ==> Binds(m, name, w.value, info) && QuantBinding(m, w.value, scaleName, quants, info)
    ensures m.keywords == if w.Some? && w.value in quants then mat.keywords + {WeightQuantized} else mat.keywords
    ensures m.kernel == mat.kernel && m.vectors == mat.vectors && m.ints == mat.ints && m.floats == mat.floats
    ensures m.slots.Keys == mat.slots.Keys + WeightSlots(name, scaleName, w, quants)
    ensures forall s: Prop :: s in mat.slots ==> m.slots[s] == mat.slots[s]
  {
    m := mat;
    if w.Some? {
      m := BindWeight(mat, name, scaleName, w.value, quants, info);
    }
  }

  /** Some weight given to `Embedding` has a quantization scale. */
  predicate AnyQuantized(weight0: Option<Handle>, weight1: Option<Handle>, quants: map<Handle, Handle>) {
    (weight0.Some? && weight0.value in quants) || (weight1.Some? && weight1.value in quants)
  }

  /** `Embedding`'s descriptor with only its output and input bound. */
  method BindEmbeddingIO(input: Handle, output: Handle, info: map<Handle, TensorInfo>) returns (mat: Material)
    requires input in info && output in info
    ensures mat.kernel == EmbeddingShader && mat.keywords == {}
    ensures Binds(mat, Output, output, info) && Binds(mat, Input, input, info)
    ensures mat.slots.Keys == {Output, Input}
    ensures mat.vectors == map[] && mat.ints == map[] && mat.floats == map[]
  {
    mat := Operator(EmbeddingShader);
    mat := SetTensor(mat, Output, output, info);
    mat := SetTensor(mat, Input, input, info);
  }

  /** `Embedding`'s descriptor up to the transposition keyword: the output,
      the input and each weight given, with its scale when quantized. */
  method BindEmbeddingWeights(input: Handle, output: Handle, weight0: Option<Handle>, weight1: Option<Handle>,
                              quants: map<Handle, Handle>, info: map<Handle, TensorInfo>)
    returns (mat: Material)
    requires input in info && output in info && output != input
    requires weight0.Some? ==> weight0.value in info
    requires weight1.Some? ==> weight1.value in info
    requires forall w :: w in quants ==> quants[w] in info
    ensures mat.kernel == EmbeddingShader
    ensures Binds(mat, Output, output, info) && Binds(mat, Input, input, info)
    ensures weight0.Some? ==> Binds(mat, Weight0, weight0.value, info) && QuantBinding(mat, weight0.value, Scale0, quants, info)
    ensures weight1.Some? ==> Binds(mat, Weight1, weight1.value, info) && QuantBinding(mat, weight1.value, Scale1, quants, info)
    ensures mat.keywords <= {WeightQuantized}
    ensures WeightQuantized in mat.keywords <==> AnyQuantized(weight0, weight1, quants)
    ensures mat.slots.Keys == {Output, Input} + WeightSlots(Weight0, Scale0, weight0, quants)
                                              + WeightSlots(Weight1, Scale1, weight1, quants)
    ensures mat.vectors == map[] && mat.ints == map[] && mat.floats == map[]
  {
    mat := BindEmbeddingIO(input, output, info);
    mat := BindOptionalWeight(mat, Weight0, Scale0, weight0, quants, info);
    mat := BindOptionalWeight(mat, Weight1, Scale1, weight1, quants, info);
  }

  method BuildEmbedding(input: Handle, output: Handle, weight0: Option<Handle>, weight1: Option<Handle>,
                        transposeWeight: bool, quants: map<Handle, Handle>, info: map<Handle, TensorInfo>)
    returns (mat: Material)
    requires input in info && output in info && output != input
    requires weight0.Some? ==> weight0.value in info
    requires weight1.Some? ==> weight1.value in info
    requires forall w :: w in quants ==> quants[w] in info
    ensures EmbeddingDescriptor(mat, input, output, weight0, weight1, transposeWeight, quants, info)
  {
    mat := BindEmbeddingWeights(input, output, weight0, weight1, quants, info);
    if transposeWeight {
      mat := EnableOption(mat, WeightTransposed);
    }
  }

  // ---------------------------------------------------------------- Linear

  /** What `Linear` dispatches. */
  ghost predicate LinearDescriptor(m: Material, input: Handle, weight: Handle, output: Handle,
      transposeWeight: bool, head: int, quants: map<Handle, Handle>, info: map<Handle, TensorInfo>)
  {
    m.kernel == LinearShader &&
    Binds(m, Output, output, info) && Binds(m, Input, input, info) && Binds(m, Weight, weight, info) &&
    m.ints == map[Head := head] &&
    m.keywords <= {WeightTransposed, WeightQuantized} &&
    (WeightTransposed in m.keywords <==> transposeWeight) &&
    (WeightQuantized in m.keywords <==> weight in quants) &&
    QuantBinding(m, weight, Scale, quants, info) &&
    m.slots.Keys == {Output, Input, Weight} + (if weight in quants then {Scale} else {}) &&
    m.vectors == map[] && m.floats == map[]
  }

  method BuildLinear(input: Handle, weight: Handle, output: Handle, transposeWeight: bool, head: int,
                     quants: map<Handle, Handle>, info: map<Handle, TensorInfo>)
    returns (mat: Material)
    requires input in info && weight in info && output in info
    requires output != input && output != weight
    requires forall w :: w in quants ==> quants[w] in info
    ensures LinearDescriptor(mat, input, weight, output, transposeWeight, head, quants, info)
  {
    mat := Operator(LinearShader);
    mat := SetTensor(mat, Output, output, info);
    mat := SetTensor(mat, Input, input, info);
    mat := SetTensor(mat, Weight, weight, info);
    mat := mat.SetInt(Head, head);
    if transposeWeight {
      mat := EnableOption(mat, WeightTransposed);
    }
    if weight in quants {
      mat := EnableOption(mat, WeightQuantized);
      mat := SetTensor(mat, Scale, quants[weight], info);
    }
  }

  /** In `Embedding`'s descriptor a scale slot is bound exactly when its weight
      is given and quantized, so `WEIGHT_QUANTIZED` is enabled exactly when
      some scale is bound. */
  lemma EmbeddingQuantizedIffScale(m: Material, input: Handle, output: Handle,
      weight0: Option<Handle>, weight1: Option<Handle>, transposeWeight: bool,
      quants: map<Handle, Handle>, info: map<Handle, TensorInfo>)
    requires EmbeddingDescriptor(m, input, output, weight0, weight1, transposeWeight, quants, info)
    ensures Scale0 in m.slots <==> weight0.Some? && weight0.value in quants
    ensures Scale1 in m.slots <==> weight1.Some? && weight1.value in quants
    ensures WeightQuantized in m.keywords <==> Scale0 in m.slots || Scale1 in m.slots
  {
  }

  /** In `Linear`'s descriptor `WEIGHT_QUANTIZED` is enabled exactly when the
      `_Scale` slot is bound, and then it holds the weight's scale. */
  lemma LinearQuantizedIffScale(m: Material, input: Handle, weight: Handle, output: Handle,
      transposeWeight: bool, head: int, quants: map<Handle, Handle>, info: map<Handle, TensorInfo>)
    requires LinearDescriptor(m, input, weight, output, transposeWeight, head, quants, info)
    ensures WeightQuantized in m.keywords <==> Scale in m.slots
    ensures Scale in m.slots ==> weight in quants && Binds(m, Scale, quants[weight], info)
  {
  }

  // ---------------------------------------------------------------- Reduce

  /**
   * What one pass of `_Reduce` dispatches: the combinator keyword, `INPUT_REDUCED`
   * when the input is a partial result, the range mask when given, `_RangeMod`
   * (the per-group width) on a splitting pass, and the `_Linear<i>` uniforms
   * when a transform is applied on this pass, and nothing more.
   */
  ghost predicate ReduceDescriptor(m: Material, input: Handle, output: Handle, func: Keyword,
      rangeMask: Option<Vec4>, linear: Option<Mat4>, rangeMod: Option<int>, inputReduced: bool,
      info: map<Handle, TensorInfo>)
  {
    m.kernel == ReduceShader &&
    m.keywords == {func} + (if inputReduced then {InputReduced} else {}) &&
    output in info && input in info &&
    m.slots == map[Output := Whole(output, info), Input := Whole(input, info)] &&
    m.vectors == MaskMap(rangeMask) + LinearMap(linear) &&
    m.ints == (if rangeMod.Some? then map[RangeMod := rangeMod.value] else map[]) &&
    m.floats == map[]
  }

  /** One `_Reduce` pass: `_RangeMod` is set on a splitting pass, the
      transform on the final one. */
  method BuildReduce(input: Handle, output: Handle, func: Keyword, rangeMask: Option<Vec4>, linear: Option<Mat4>,
                     rangeMod: Option<int>, inputReduced: bool, info: map<Handle, TensorInfo>)
    returns (mat: Material)
    requires input in info && output in info && output != input
    ensures ReduceDescriptor(mat, input, output, func, rangeMask, linear, rangeMod, inputReduced, info)
  {
    mat := Operator(ReduceShader);
    mat := EnableOption(mat, func);
    mat := SetTensor(mat, Output, output, info);
    mat := SetTensor(mat, Input, input, info);
    assert mat.slots == map[Output := Whole(output, info), Input := Whole(input, info)];
    if inputReduced {
      mat := EnableOption(mat, InputReduced);
    }
    assert mat.keywords == {func} + (if inputReduced then {InputReduced} else {});
    if rangeMask.Some? {
      mat := mat.SetVector(RangeMask, rangeMask.value);
    }
    assert mat.vectors == MaskMap(rangeMask);
    if rangeMod.Some? {
      mat := mat.SetInt(RangeMod, rangeMod.value);
    }
    assert mat.ints == (if rangeMod.Some? then map[RangeMod := rangeMod.value] else map[]);
    if linear.Some? {
      mat := SetLinear(mat, linear.value);
    } else {
      assert MaskMap(rangeMask) + LinearMap(linear) == MaskMap(rangeMask);
    }
  }

  /** A pass's descriptor stays accurate while the shapes of its two tensors do. */
  lemma ReduceDescriptorStable(m: Material, input: Handle, output: Handle, func: Keyword, rangeMask: Option<Vec4>,
      linear: Option<Mat4>, rangeMod: Option<int>, inputReduced: bool, info: map<Handle, TensorInfo>,
      info': map<Handle, TensorInfo>)
    requires ReduceDescriptor(m, input, output, func, rangeMask, linear, rangeMod, inputReduced, info)
    requires input in info' && info'[input] == info[input] && output in info' && info'[output] == info[output]
    ensures ReduceDescriptor(m, input, output, func, rangeMask, linear, rangeMod, inputReduced, info')
  {
  }

  // ---------------------------------------------------------------- Function kernel

  /** What `GroupNorm` dispatches after its reduction, and nothing more. */
  ghost predicate GroupNormDescriptor(m: Material, input: Handle, output: Handle, reduce: Handle,
      weight: Handle, bias: Handle, eps: real, info: map<Handle, TensorInfo>)
  {
    m.kernel == FunctionShader && m.keywords == {FuncGroupnorm} &&
    output in info && input in info && reduce in info && weight in info && bias in info &&
    m.slots == map[Output := Whole(output, info), Input := Whole(input, info), Reduce := Whole(reduce, info),
                   Weight := Whole(weight, info), Bias := Whole(bias, info)] &&
    m.vectors == map[] && m.ints == map[] && m.floats == map[Eps := eps]
  }

  method BuildGroupNorm(input: Handle, output: Handle, reduce: Handle, weight: Handle, bias: Handle, eps: real,
                        info: map<Handle, TensorInfo>)
    returns (mat: Material)
    requires input in info && output in info && reduce in info && weight in info && bias in info
    ensures GroupNormDescriptor(mat, input, output, reduce, weight, bias, eps, info)
  {
    mat := Operator(FunctionShader);
    mat := EnableOption(mat, FuncGroupnorm);
    mat := SetTensor(mat, Output, output, info);
    mat := SetTensor(mat, Input, input, info);
    mat := SetTensor(mat, Reduce, reduce, info);
    mat := SetTensor(mat, Weight, weight, info);
    mat := SetTensor(mat, Bias, bias, info);
    mat := mat.SetFloat(Eps, eps);
  }

  /** What `_Normalize` dispatches after its reduction, and nothing more. */
  ghost predicate NormalizeDescriptor(m: Material, input: Handle, output: Handle, reduce: Handle, func: Keyword,
      rangeMask: Option<Vec4>, info: map<Handle, TensorInfo>)
  {
    m.kernel == FunctionShader && m.keywords == {func} &&
    output in info && input in info && reduce in info &&
    m.slots == map[Output := Whole(output, info), Input := Whole(input, info), Reduce := Whole(reduce, info)] &&
    m.vectors == MaskMap(rangeMask) && m.ints == map[] && m.floats == map[]
  }

  method BuildNormalize(input: Handle, output: Handle, reduce: Handle, func: Keyword, rangeMask: Option<Vec4>,
                        info: map<Handle, TensorInfo>)
    returns (mat: Material)
    requires input in info && output in info && reduce in info
    ensures NormalizeDescriptor(mat, input, output, reduce, func, rangeMask, info)
  {
    mat := Operator(FunctionShader);
    mat := EnableOption(mat, func);
    mat := SetTensor(mat, Output, output, info);
    mat := SetTensor(mat, Input, input, info);
    mat := SetTensor(mat, Reduce, reduce, info);
    if rangeMask.Some? {
      mat := mat.SetVector(RangeMask, rangeMask.value);
    }
  }

  /** What `AddAct` dispatches: the activation keyword unless it is `None`,
      the bias slot exactly when a bias is given, the `_Weight` vector exactly when given,
      and nothing more. */
  ghost predicate AddActDescriptor(m: Material, input: Handle, output: Handle, bias: Option<Handle>, func: Keyword,
      weight: Option<Vec4>, info: map<Handle, TensorInfo>)
  {
    m.kernel == FunctionShader &&
    m.keywords == (if func != NoKeyword then {func} else {}) &&
    output in info && input in info && (bias.Some? ==> bias.value in info) &&
    m.slots == map[Output := Whole(output, info), Input := Whole(input, info)] +
               (if bias.Some? then map[Bias := Whole(bias.value, info)] else map[]) &&
    m.vectors == (if weight.Some? then map[Weight := weight.value] else map[]) &&
    m.ints == map[] && m.floats == map[]
  }

  /** An `AddAct` descriptor stays accurate while the shapes of its tensors do. */
  lemma AddActDescriptorStable(m: Material, input: Handle, output: Handle, bias: Option<Handle>, func: Keyword,
      weight: Option<Vec4>, info: map<Handle, TensorInfo>, info': map<Handle, TensorInfo>)
    requires AddActDescriptor(m, input, output, bias, func, weight, info)
    requires input in info' && info'[input] == info[input] && output in info' && info'[output] == info[output]
    requires bias.Some? ==> bias.value in info' && info'[bias.value] == info[bias.value]
    ensures AddActDescriptor(m, input, output, bias, func, weight, info')
  {
  }

  method BuildAddAct(input: Handle, output: Handle, bias: Option<Handle>, func: Keyword, weight: Option<Vec4>,
                     info: map<Handle, TensorInfo>)
    returns (mat: Material)
    requires input in info && output in info && output != input
    requires bias.Some? ==> bias.value in info
    ensures AddActDescriptor(mat, input, output, bias, func, weight, info)
  {
    mat := Operator(FunctionShader);
    if func != NoKeyword {
      mat := EnableOption(mat, func);
    }
    mat := SetTensor(mat, Output, output, info);
    mat := SetTensor(mat, Input, input, info);
    if bias.Some? {
      mat := SetTensor(mat, Bias, bias.value, info);
    }
    if weight.Some? {
      mat := mat.SetVector(Weight, weight.value);
    }
  }

  /** What `Copy` dispatches: both sides bound as `size` sub-rectangles at their
      offsets, the affine `_Weight` (all ones unless given) and `_Bias`, and nothing more. */
  ghost predicate CopyDescriptor(m: Material, output: Handle, input: Handle, size: Int2, outputOffset: Int2,
      inputOffset: Int2, weight: Option<Vec4>, bias: Vec4, info: map<Handle, TensorInfo>)
  {
    m.kernel == FunctionShader && m.keywords == {} &&
    output in info && input in info &&
    m.slots == map[Output := Rect(output, outputOffset, size, info), Input := Rect(input, inputOffset, size, info)] &&
    m.vectors == map[Weight := weight.GetOr(One4), Bias := bias] &&
    m.ints == map[] && m.floats == map[]
  }

  /** A `Copy` descriptor stays accurate while the shapes of its two tensors do. */
  lemma CopyDescriptorStable(m: Material, output: Handle, input: Handle, size: Int2, outputOffset: Int2,
      inputOffset: Int2, weight: Option<Vec4>, bias: Vec4, info: map<Handle, TensorInfo>,
      info': map<Handle, TensorInfo>)
    requires CopyDescriptor(m, output, input, size, outputOffset, inputOffset, weight, bias, info)
    requires input in info' && info'[input] == info[input] && output in info' && info'[output] == info[output]
    ensures CopyDescriptor(m, output, input, size, outputOffset, inputOffset, weight, bias, info')
  {
  }

  method BuildCopy(output: Handle, input: Handle, size: Int2, outputOffset: Int2, inputOffset: Int2,
                   weight: Option<Vec4>, bias: Vec4, info: map<Handle, TensorInfo>)
    returns (mat: Material)
    requires output in info && input in info
    ensures CopyDescriptor(mat, output, input, size, outputOffset, inputOffset, weight, bias, info)
  {
    mat := Operator(FunctionShader);
    mat := SetTensorRect(mat, Output, output, outputOffset, size, info);
    mat := SetTensorRect(mat, Input, input, inputOffset, size, info);
    mat := mat.SetVector(Weight, weight.GetOr(One4));
    mat := mat.SetVector(Bias, bias);
  }

  /** What `Rotary` dispatches: the rotation table and `_ReduceDim = (Size0(input), group)`,
      and nothing more. */
  ghost predicate RotaryDescriptor(m: Material, input: Handle, output: Handle, rotary: Handle, group: int,
      info: map<Handle, TensorInfo>)
  {
    m.kernel == FunctionShader && m.keywords == {FuncRotary} &&
    output in info && input in info && rotary in info &&
    m.slots == map[Output := Whole(output, info), Input := Whole(input, info), Rotary := Whole(rotary, info)] &&
    m.vectors == map[ReduceDim := Vec4(info[input].rows as real, group as real, 0.0, 0.0)] &&
    m.ints == map[] && m.floats == map[]
  }

  method BuildRotary(input: Handle, output: Handle, rotary: Handle, group: int, info: map<Handle, TensorInfo>)
    returns (mat: Material)
    requires input in info && output in info && rotary in info
    ensures RotaryDescriptor(mat, input, output, rotary, group, info)
  {
    mat := Operator(FunctionShader);
    mat := EnableOption(mat, FuncRotary);
    mat := SetTensor(mat, Output, output, info);
    mat := SetTensor(mat, Input, input, info);
    mat := SetTensor(mat, Rotary, rotary, info);
    mat := mat.SetVector(ReduceDim, Vec4(info[input].rows as real, group as real, 0.0, 0.0));
  }
}
