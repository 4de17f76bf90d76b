/**
 * The storage backend (`TensorContext`) as seen by the operator library and
 * the generation driver: a store of tensor handles with their grid shape,
 * a live-tensor count, and the kernel dispatches issued against it.
 * The backend's implementation is not part of this model; only the
 * bookkeeping its callers rely on is.
 */
module Tensors {
  import opened Wrappers
  import opened Keywords

  /** A texture (tensor) is identified by a handle. */
  type Handle = nat

  /** Element formats (Unity's `VertexAttributeFormat`). */
  datatype DType =
    | Float32 | Float16 | UNorm8 | SNorm8 | UNorm16 | SNorm16
    | UInt8 | SInt8 | UInt16 | SInt16 | UInt32 | SInt32

  /** Shape metadata of one tensor: `rows` is `Size0`, `cols` is `Size1`,
      each cell packing four components; `mipmap` counts precision sub-levels. */
  datatype TensorInfo = TensorInfo(rows: nat, cols: nat, dtype: DType, mipmap: nat)

  /** Unity's `Vector2Int`, `Vector4` and `Matrix4x4` (by columns). */
  datatype Int2 = Int2(x: int, y: int)
  datatype Int4 = Int4(x: int, y: int, z: int, w: int)
  datatype Vec4 = Vec4(x: real, y: real, z: real, w: real)
  datatype Mat4 = Mat4(c0: Vec4, c1: Vec4, c2: Vec4, c3: Vec4)

  const Zero4 := Vec4(0.0, 0.0, 0.0, 0.0)
  const One4 := Vec4(1.0, 1.0, 1.0, 1.0)

  /** The four kernels the operator library dispatches (the `Embedding`,
      `Linear`, `Reduce` and `Function` shaders). */
  datatype Shader = EmbeddingShader | LinearShader | ReduceShader | FunctionShader

  /**
   * The shader properties the operators set, each standing for the property
   * of the same name with a leading underscore: `Output` is `_Output`, whose
   * texture is bound as `_OutputTex` and whose dimensions as `_OutputDim`;
   * `Reduce` and `Rotary` are the statistics and rotation-table tensors.
   */
  datatype Prop =
    | Output | Input | Weight | Weight0 | Weight1 | Scale | Scale0 | Scale1 | Reduce | Bias | Rotary
    | RangeMask | RangeMod | Linear0 | Linear1 | Linear2 | Linear3 | Head | Eps | ReduceDim

  /** A bound tensor slot `<name>`: the texture (`<name>Tex`), its dimensions
      (`<name>Dim`) and, when a sub-rectangle was bound, its offset (`<name>Off`). */
  datatype Slot = Slot(tex: Handle, dim: Int4, off: Option<Int4>)

  /**
   * A kernel binding descriptor (a Unity `Material`): the kernel it runs,
   * the enabled keywords, the bound tensor slots and the uniforms. A keyword
   * is enabled by its name (`Name`, which is injective), so the set of
   * keywords stands for the set of enabled names.
   */
  datatype Material = Material(
    kernel: Shader,
    keywords: set<Keyword>,
    slots: map<Prop, Slot>,
    vectors: map<Prop, Vec4>,
    ints: map<Prop, int>,
    floats: map<Prop, real>)
  {
    function EnableKeyword(k: Keyword): (m: Material)
      ensures m.keywords == keywords + {k}
      ensures m.kernel == kernel && m.slots == slots && m.vectors == vectors
      ensures m.ints == ints && m.floats == floats
    {
      this.(keywords := keywords + {k})
    }

    function SetVector(name: Prop, v: Vec4): (m: Material)
      ensures m.vectors == vectors[name := v]
      ensures m.kernel == kernel && m.keywords == keywords && m.slots == slots
      ensures m.ints == ints && m.floats == floats
    {
      this.(vectors := vectors[name := v])
    }

    function SetInt(name: Prop, v: int): (m: Material)
      ensures m.ints == ints[name := v]
      ensures m.kernel == kernel && m.keywords == keywords && m.slots == slots
      ensures m.vectors == vectors && m.floats == floats
    {
      this.(ints := ints[name := v])
    }

    function SetFloat(name: Prop, v: real): (m: Material)
      ensures m.floats == floats[name := v]
      ensures m.kernel == kernel && m.keywords == keywords && m.slots == slots
      ensures m.vectors == vectors && m.ints == ints
    {
      this.(floats := floats[name := v])
    }
  }

  /** `ctx.Operator(shader)`: a fresh descriptor for the named kernel. */
  function Operator(kernel: Shader): (m: Material)
    ensures m.kernel == kernel && m.keywords == {} && m.slots == map[]
    ensures m.vectors == map[] && m.ints == map[] && m.floats == map[]
  {
    Material(kernel, {}, map[], map[], map[], map[])
  }

  /** One `ctx.Blit(output, mat)`: the kernel is opaque, only the event is kept. */
  datatype Dispatch = Dispatch(output: Handle, mat: Material)

  /** The handles listed in `s`, as a set. */
  function Elems(s: seq<Handle>): set<Handle> {
    set i | 0 <= i < |s| :: s[i]
  }

  lemma ElemsAppend(s: seq<Handle>, h: Handle)
    ensures Elems(s + [h]) == Elems(s) + {h}
  {
    assert forall i :: 0 <= i < |s| ==> (s + [h])[i] == s[i];
    assert (s + [h])[|s|] == h;
  }

  predicate Distinct(s: seq<Handle>) {
    forall i, j :: 0 <= i < j < |s| ==> s[i] != s[j]
  }

  /** A list without repetitions has as many elements as its set. */
  lemma {:induction false} DistinctCard(s: seq<Handle>)
    requires Distinct(s)
    ensures |Elems(s)| == |s|
  {
    if s != [] {
      var t := s[..|s| - 1];
      assert Elems(s) == Elems(t) + {s[|s| - 1]};
      assert s[|s| - 1] !in Elems(t);
      DistinctCard(t);
    }
  }

  /** The shapes of a store that knows exactly the assets, asset `i` under handle `i`. */
  function AssetInfo(assets: seq<TensorInfo>): (info: map<Handle, TensorInfo>)
    ensures forall h :: h in info ==> h < |assets|
    ensures forall i :: 0 <= i < |assets| ==> i in info && info[i] == assets[i]
  {
    map i | 0 <= i < |assets| :: assets[i]
  }

  class TensorContext {
    /** Shape of every tensor the store knows: imported assets and allocations, live or not. */
    var info: map<Handle, TensorInfo>
    /** The allocated tensors not yet released; `TensorCount()` is its size. */
    var live: set<Handle>
    /** Handles at or above `next` have never been used. */
    var next: Handle
    /** Every kernel dispatch, in issue order. */
    var log: seq<Dispatch>
    /** Every `Release`, in order. */
    var released: seq<Handle>
    /** Host data uploaded with `SetData`. */
    var hostData: map<Handle, seq<real>>
    /** Tensors dumped with `DebugTensor`, in order. */
    var dumps: seq<Handle>

    ghost predicate Valid()
      reads this`info, this`live, this`next
    {
      (forall h :: h in info ==> h < next) && live <= info.Keys
    }

    /** A fresh store that already knows the shapes of the imported textures
        `assets`, handle `i` being `assets[i]`; nothing is live. */
    constructor (assets: seq<TensorInfo>)
      ensures Valid()
      ensures info == AssetInfo(assets) && next == |assets|
      ensures live == {} && log == [] && released == [] && hostData == map[] && dumps == []
    {
      info := AssetInfo(assets);
      next := |assets|;
      live := {};
      log := [];
      released := [];
      hostData := map[];
      dumps := [];
    }

    function Size0(h: Handle): nat
      reads this`info
      requires h in info
    {
      info[h].rows
    }

    function Size1(h: Handle): nat
      reads this`info
      requires h in info
    {
      info[h].cols
    }

    function Mipmap(h: Handle): nat
      reads this`info
      requires h in info
    {
      info[h].mipmap
    }

    function DType(h: Handle): DType
      reads this`info
      requires h in info
    {
      info[h].dtype
    }

    /** The most recent dispatch. */
    function Last(): Dispatch
      reads this`log
      requires log != []
    {
      log[|log| - 1]
    }

    function TensorCount(): nat
      reads this`live
    {
      |live|
    }

    /** Nothing known is forgotten or reshaped, and the logs only grow. */
    twostate predicate Grows()
      reads this`next, this`info, this`log, this`released, this`hostData, this`dumps
    {
      old(next) <= next &&
      (forall h :: h in old(info) ==> h in info && info[h] == old(info)[h]) &&
      old(log) <= log && old(released) <= released &&
      hostData == old(hostData) && dumps == old(dumps)
    }

    /** `h` is a new tensor of shape `t`, and the only change to the live set. */
    twostate predicate Allocated(h: Handle, t: TensorInfo)
      reads this`info, this`live
    {
      h !in old(info) && h in info && info[h] == t &&
      live == old(live) + {h} && h !in old(live)
    }

    /** `ctx.GPUTensor(rows, cols, dtype, mipmap)`. */
    method GPUTensor(rows: nat, cols: nat, dtype: DType, mipmap: nat) returns (h: Handle)
      requires Valid()
      modifies this`info, this`live, this`next
      ensures Valid() && Grows()
      ensures Allocated(h, TensorInfo(rows, cols, dtype, mipmap))
    {
      h := next;
      info := info[h := TensorInfo(rows, cols, dtype, mipmap)];
      live := live + {h};
      next := next + 1;
    }

    /** `ctx.CPUTensor(rows, cols)`: a host-resident tensor. */
    method CPUTensor(rows: nat, cols: nat) returns (h: Handle)
      requires Valid()
      modifies this`info, this`live, this`next
      ensures Valid() && Grows()
      ensures Allocated(h, TensorInfo(rows, cols, Float32, 0))
    {
      h := GPUTensor(rows, cols, Float32, 0);
    }

    /** `ctx.SetData(h, data)`: host-to-device upload. */
    method SetData(h: Handle, data: seq<real>)
      requires h in info
      modifies this`hostData
      ensures hostData == old(hostData)[h := data]
    {
      hostData := hostData[h := data];
    }

    /** `ctx.Release(h)`. */
    method Release(h: Handle)
      requires Valid() && h in live
      modifies this`live, this`released
      ensures Valid()
      ensures live == old(live) - {h}
      ensures released == old(released) + [h]
    {
      live := live - {h};
      released := released + [h];
    }

    /** `ctx.Blit(output, mat)`: issue one kernel dispatch. */
    method Blit(output: Handle, mat: Material)
      modifies this`log
      ensures log == old(log) + [Dispatch(output, mat)]
    {
      log := log + [Dispatch(output, mat)];
    }

    /** `ctx.FixSize0(h, rows)`: redeclare the logical row count of `h`. */
    method FixSize0(h: Handle, rows: nat)
      requires Valid() && h in info
      modifies this`info
      ensures Valid()
      ensures info == old(info)[h := old(info)[h].(rows := rows)]
    {
      info := info[h := info[h].(rows := rows)];
    }

    /** `ctx.DebugTensor(h)`: dump the tensor's contents for inspection. */
    method DebugTensor(h: Handle)
      modifies this`dumps
      ensures dumps == old(dumps) + [h]
    {
      dumps := dumps + [h];
    }
  }
}
