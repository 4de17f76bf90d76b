/**
 * The generation driver (`GPTBase`): it loads the model's parameter
 * textures, registers each weight's 8-bit quantized companion, and then,
 * once per frame, asks the model for one more token until the sequence is
 * full. It also holds the helpers the concrete models share: packing the
 * input ids, sampling a token from the logits, deferred releases, checking
 * a tensor against reference values and redeclaring a parameter's rows.
 */
module Generation {
  import opened Wrappers
  import opened Tensors
  import opened Keywords
  import opened ReduceWidths
  import opened Bindings
  import opened Operators

  /** What the component does when enabled. */
  datatype Task = Run | Test | Bake

  function Min(a: int, b: int): int {
    if a <= b then a else b
  }

  // ---------------------------------------------------------------------
  // The token loop

  /** The generation state: the tokens so far, the position the next model
      run starts from, and the earliest time of the next step. */
  datatype GenState = GenState(tokens: seq<int>, positionId: int, nextTime: real)

  /** One frame: the clock reading and the token the model's `Run` returns. */
  datatype Frame = Frame(now: real, token: int)

  /** `Update` in the `Run` task: nothing once `maxLength` tokens exist or
      before `nextTime`; otherwise wait `interval` seconds from now, remember
      where the new token sits and append it. */
  function Step(s: GenState, maxLength: int, interval: real, f: Frame): (r: GenState)
    ensures r != s <==> |s.tokens| < maxLength && s.nextTime <= f.now
    ensures r != s ==> r.tokens == s.tokens + [f.token] && r.positionId == |r.tokens| - 1 && r.nextTime == f.now + interval
  {
    if |s.tokens| >= maxLength || f.now < s.nextTime then s
    else GenState(s.tokens + [f.token], |s.tokens|, f.now + interval)
  }

  /** `Update` over a run of frames. */
  function Steps(s: GenState, maxLength: int, interval: real, frames: seq<Frame>): (r: GenState)
    ensures |s.tokens| <= |r.tokens| <= |s.tokens| + |frames|
    ensures |s.tokens| >= maxLength ==> r == s
    decreases |frames|
  {
    if frames == [] then s
    else Steps(Step(s, maxLength, interval, frames[0]), maxLength, interval, frames[1..])
  }

  /** The tokens the frames would contribute, in order. */
  function FrameTokens(frames: seq<Frame>): seq<int> {
    seq(|frames|, i requires 0 <= i < |frames| => frames[i].token)
  }

  /** The sequence only grows, by at most one token a frame, never past
      `maxLength` once within it, and a full sequence never changes. A run
      that appends nothing leaves the position where it was. */
  lemma {:induction false} StepsGrow(s: GenState, maxLength: int, interval: real, frames: seq<Frame>)
    ensures var r := Steps(s, maxLength, interval, frames);
      s.tokens <= r.tokens && |r.tokens| <= |s.tokens| + |frames| &&
      (|s.tokens| <= maxLength ==> |r.tokens| <= maxLength) &&
      (|s.tokens| >= maxLength ==> r == s) &&
      (|r.tokens| == |s.tokens| ==> r.positionId == s.positionId)
    decreases |frames|
  {
    if frames != [] {
      var s1 := Step(s, maxLength, interval, frames[0]);
      StepsGrow(s1, maxLength, interval, frames[1..]);
      var r := Steps(s1, maxLength, interval, frames[1..]);
      assert s.tokens <= s1.tokens;
      assert s.tokens == r.tokens[..|s.tokens|] by {
        assert s1.tokens == r.tokens[..|s1.tokens|];
        assert s.tokens == s1.tokens[..|s.tokens|];
      }
    }
  }

  /** Every model run after the first reads exactly the newest token: the
      position stays within the sequence and, once a token has been
      appended, points at the last one. */
  lemma {:induction false} StepsWindow(s: GenState, maxLength: int, interval: real, frames: seq<Frame>)
    requires 0 <= s.positionId <= |s.tokens|
    ensures var r := Steps(s, maxLength, interval, frames);
      0 <= r.positionId <= |r.tokens| &&
      (|r.tokens| > |s.tokens| ==> r.positionId == |r.tokens| - 1)
    decreases |frames|
  {
    if frames != [] {
      var s1 := Step(s, maxLength, interval, frames[0]);
      StepsWindow(s1, maxLength, interval, frames[1..]);
      StepsGrow(s1, maxLength, interval, frames[1..]);
    }
  }

  /** With frames at least `interval` apart, the first of them no earlier
      than `nextTime`, every frame appends its token until the sequence is
      full. */
  lemma {:induction false} StepsUnpaced(s: GenState, maxLength: int, interval: real, frames: seq<Frame>)
    requires |s.tokens| <= maxLength
    requires frames != [] ==> s.nextTime <= frames[0].now
    requires forall i :: 0 < i < |frames| ==> frames[i - 1].now + interval <= frames[i].now
    ensures var k := Min(maxLength - |s.tokens|, |frames|);
      Steps(s, maxLength, interval, frames).tokens == s.tokens + FrameTokens(frames)[..k]
    decreases |frames|
  {
    var k := Min(maxLength - |s.tokens|, |frames|);
    if frames == [] {
      assert FrameTokens(frames)[..k] == [];
    } else if |s.tokens| == maxLength {
      StepsGrow(s, maxLength, interval, frames);
      assert FrameTokens(frames)[..k] == [];
    } else {
      var s1 := Step(s, maxLength, interval, frames[0]);
      assert s1.tokens == s.tokens + [frames[0].token];
      StepsUnpaced(s1, maxLength, interval, frames[1..]);
      assert FrameTokens(frames)[..k] == [frames[0].token] + FrameTokens(frames[1..])[..k - 1];
    }
  }

  // ---------------------------------------------------------------------
  // Packing the input ids

  /** `InputTensor(ids, p)`'s host data: texel `i` holds the id of token
      `p + i` and its position `p + i`, the other two components zero. */
  function PackedInput(ids: seq<int>, p: nat): (data: seq<real>)
    requires p <= |ids|
    ensures |data| == 4 * (|ids| - p)
    ensures forall k :: 0 <= k < |data| && k % 4 >= 2 ==> data[k] == 0.0
  {
    seq(4 * (|ids| - p), k requires 0 <= k < 4 * (|ids| - p) =>
      if k % 4 == 0 then ids[p + k / 4] as real
      else if k % 4 == 1 then (p + k / 4) as real
      else 0.0)
  }

  /** The packed input has one texel per token from `p` on, in order. */
  lemma InputTexel(ids: seq<int>, p: nat, i: nat)
    requires p + i < |ids|
    ensures |PackedInput(ids, p)| == 4 * (|ids| - p)
    ensures PackedInput(ids, p)[4 * i .. 4 * i + 4] == [ids[p + i] as real, (p + i) as real, 0.0, 0.0]
  {
    var d := PackedInput(ids, p);
    assert d[4 * i] == ids[p + i] as real;
    assert d[4 * i + 1] == (p + i) as real;
    assert d[4 * i + 2] == 0.0;
    assert d[4 * i + 3] == 0.0;
  }

  /** Fill the host array of `InputTensor` texel by texel. */
  method PackInput(ids: seq<int>, p: int) returns (data: seq<real>)
    requires 0 <= p <= |ids|
    ensures data == PackedInput(ids, p)
  {
    var n := |ids| - p;
    var a := new real[n * 4](_ => 0.0);
    for i := 0 to n
      invariant forall k :: 0 <= k < 4 * i ==> a[k] == PackedInput(ids, p)[k]
      invariant forall k :: 4 * i <= k < 4 * n ==> a[k] == 0.0
    {
      a[i * 4 + 0] := ids[i + p] as real;
      a[i * 4 + 1] := (i + p) as real;
      forall k | 4 * i <= k < 4 * i + 4
        ensures k / 4 == i && k % 4 == k - 4 * i
      {
      }
    }
    data := a[..];
  }

  // ---------------------------------------------------------------------
  // Comparing a tensor with reference values

  function Abs(x: real): real {
    if x < 0.0 then -x else x
  }

  function Max(a: real, b: real): real {
    if a >= b then a else b
  }

  /** The `n` components from `offset` on lie within `data` (or there are none). */
  predicate InWindow(data: seq<real>, offset: int, n: nat) {
    n == 0 || (0 <= offset && offset + n <= |data|)
  }

  /** `|data[offset + i] - value[i]|`. */
  function Err(data: seq<real>, offset: int, value: seq<real>, i: nat): real
    requires i < |value| && 0 <= offset + i < |data|
  {
    Abs(data[offset + i] - value[i])
  }

  /** The accumulated absolute error over the first `n` components. */
  function SumErr(data: seq<real>, offset: int, value: seq<real>, n: nat): (r: real)
    requires n <= |value| && InWindow(data, offset, n)
    ensures r >= 0.0
  {
    if n == 0 then 0.0 else SumErr(data, offset, value, n - 1) + Err(data, offset, value, n - 1)
  }

  /** The accumulated squared error over the first `n` components. */
  function SumSqErr(data: seq<real>, offset: int, value: seq<real>, n: nat): (r: real)
    requires n <= |value| && InWindow(data, offset, n)
    ensures r >= 0.0
  {
    if n == 0 then 0.0
    else SumSqErr(data, offset, value, n - 1) + Err(data, offset, value, n - 1) * Err(data, offset, value, n - 1)
  }

  /** The largest absolute error over the first `n` components (0 when none). */
  function MaxErr(data: seq<real>, offset: int, value: seq<real>, n: nat): (r: real)
    requires n <= |value| && InWindow(data, offset, n)
    ensures r >= 0.0
  {
    if n == 0 then 0.0 else Max(MaxErr(data, offset, value, n - 1), Err(data, offset, value, n - 1))
  }

  /** The maximum error is non-negative, bounds every component's error and,
      when there are components, is one of them. */
  lemma {:induction false} MaxErrIsMaximum(data: seq<real>, offset: int, value: seq<real>, n: nat)
    requires n <= |value| && InWindow(data, offset, n)
    ensures MaxErr(data, offset, value, n) >= 0.0
    ensures forall i :: 0 <= i < n ==> Err(data, offset, value, i) <= MaxErr(data, offset, value, n)
    ensures n > 0 ==> exists i :: 0 <= i < n && Err(data, offset, value, i) == MaxErr(data, offset, value, n)
  {
    if n > 0 {
      MaxErrIsMaximum(data, offset, value, n - 1);
      if n > 1 && MaxErr(data, offset, value, n - 1) > Err(data, offset, value, n - 1) {
        var i :| 0 <= i < n - 1 && Err(data, offset, value, i) == MaxErr(data, offset, value, n - 1);
        assert Err(data, offset, value, i) == MaxErr(data, offset, value, n);
      }
    }
  }

  /** The check fails (`Li >= eps`) exactly when the tolerance is not
      positive or some component is off by at least `eps`. */
  lemma MaxErrExceeds(data: seq<real>, offset: int, value: seq<real>, n: nat, eps: real)
    requires n <= |value| && InWindow(data, offset, n)
    ensures MaxErr(data, offset, value, n) >= eps <==>
      eps <= 0.0 || exists i :: 0 <= i < n && Err(data, offset, value, i) >= eps
  {
    MaxErrIsMaximum(data, offset, value, n);
  }

  /** `n` copies of `m` added up. */
  function Times(n: nat, m: real): (r: real)
    ensures r == n as real * m
  {
    if n == 0 then 0.0 else Times(n - 1, m) + m
  }

  /** The largest error is at most the summed error, which is at most `n`
      times the largest: the mean error lies between `Li / n` and `Li`. */
  lemma {:induction false} SumErrBounds(data: seq<real>, offset: int, value: seq<real>, n: nat)
    requires n <= |value| && InWindow(data, offset, n)
    ensures MaxErr(data, offset, value, n) <= SumErr(data, offset, value, n)
    ensures SumErr(data, offset, value, n) <= Times(n, MaxErr(data, offset, value, n))
  {
    if n > 0 {
      SumErrBounds(data, offset, value, n - 1);
      MaxErrIsMaximum(data, offset, value, n - 1);
      TimesMono(n - 1, MaxErr(data, offset, value, n - 1), MaxErr(data, offset, value, n));
    }
  }

  lemma {:induction false} TimesMono(n: nat, a: real, b: real)
    requires a <= b
    ensures Times(n, a) <= Times(n, b)
  {
    if n > 0 {
      TimesMono(n - 1, a, b);
    }
  }

  /** `AssertData`'s error loop: the summed, squared and largest errors. */
  method ErrorMetrics(data: seq<real>, offset: int, value: seq<real>, count: nat) returns (l1: real, l2: real, li: real)
    requires count <= |value| && InWindow(data, offset, count)
    ensures l1 == SumErr(data, offset, value, count)
    ensures l2 == SumSqErr(data, offset, value, count)
    ensures li == MaxErr(data, offset, value, count)
  {
    l1, l2, li := 0.0, 0.0, 0.0;
    for i := 0 to count
      invariant l1 == SumErr(data, offset, value, i)
      invariant l2 == SumSqErr(data, offset, value, i)
      invariant li == MaxErr(data, offset, value, i)
    {
      var error := Abs(data[offset + i] - value[i]);
      l1 := l1 + error;
      l2 := l2 + error * error;
      li := Max(li, error);
    }
  }

  /** The first component `AssertData` compares: row `row` of a tensor with
      `rows` rows of `cols` texels, a negative row counting from the end. */
  function AssertOffset(rows: nat, cols: nat, row: int): (offset: int)
    ensures 0 <= rows + row && row < rows ==> 0 <= offset && offset + cols * 4 <= rows * cols * 4
  {
    var r := if row >= 0 then row else rows + row;
    if 0 <= r < rows then
      MulMono(rows, r + 1, cols * 4, cols * 4);
      assert (r + 1) * (cols * 4) == r * (cols * 4) + cols * 4;
      assert rows * cols * 4 == rows * (cols * 4);
      r * (cols * 4)
    else r * (cols * 4)
  }

  /** How many components `AssertData` compares: a row, or fewer when fewer
      reference values are given. */
  function AssertCount(cols: nat, n: nat): (c: nat)
    ensures c <= cols * 4 && c <= n && (c == cols * 4 || c == n)
  {
    Min(cols * 4, n)
  }

  /** For a row in `-rows .. rows - 1`, the compared components lie within
      that one row of the tensor's data. */
  lemma AssertWindow(data: seq<real>, rows: nat, cols: nat, row: int, n: nat)
    requires |data| == rows * cols * 4 && 0 <= rows + row && row < rows
    ensures var r: int := if row >= 0 then row else rows + row;
      0 <= r < rows && AssertOffset(rows, cols, row) == r * (cols * 4) &&
      AssertOffset(rows, cols, row) + AssertCount(cols, n) <= (r + 1) * (cols * 4) <= |data| &&
      InWindow(data, AssertOffset(rows, cols, row), AssertCount(cols, n))
  {
    var r: int := if row >= 0 then row else rows + row;
    MulMono(rows, r + 1, cols * 4, cols * 4);
    assert (r + 1) * (cols * 4) == r * (cols * 4) + cols * 4;
    assert rows * cols * 4 == rows * (cols * 4);
  }

  // ---------------------------------------------------------------------
  // Parameters and their quantized companions

  /** The name of a weight's 8-bit quantized companion texture. */
  function QuantName(name: string): string {
    name + ".q8"
  }

  /** Distinct weights have distinct companions, and no name is its own companion, so the
      registry can tell each weight's companion apart from the weight itself. */
  lemma QuantNameInjective(a: string, b: string)
    ensures QuantName(a) == QuantName(b) ==> a == b
    ensures QuantName(a) != a
  {
    if QuantName(a) == QuantName(b) {
      assert a == QuantName(a)[..|a|];
      assert b == QuantName(b)[..|b|];
    }
    assert |QuantName(a)| == |a| + 3;
  }

  /** Rows of a quantized companion: four rows pack into one, rounding up. */
  function QuantRows(rows: nat): (q: nat)
    ensures 4 * q >= rows && 4 * q < rows + 4
  {
    (rows + 3) / 4
  }

  /** No two names share a texture. */
  predicate Injective(parameters: map<string, Handle>) {
    forall a, b :: a in parameters && b in parameters && a != b ==> parameters[a] != parameters[b]
  }

  /** `OnEnable`'s registry loop: every parameter whose name has a `.q8`
      companion gets that companion as its quantization entry, and no other
      texture gets one. */
  method QuantRegistry(parameters: map<string, Handle>) returns (quants: map<Handle, Handle>)
    requires Injective(parameters)
    ensures forall p :: p in parameters ==> (parameters[p] in quants <==> QuantName(p) in parameters)
    ensures forall p :: p in parameters && QuantName(p) in parameters ==> quants[parameters[p]] == parameters[QuantName(p)]
    ensures quants.Keys <= parameters.Values && quants.Values <= parameters.Values
  {
    quants := map[];
    var todo := parameters.Keys;
    while todo != {}
      invariant todo <= parameters.Keys
      invariant forall p :: p in parameters && p !in todo ==> (parameters[p] in quants <==> QuantName(p) in parameters)
      invariant forall p :: p in parameters && p !in todo && QuantName(p) in parameters ==>
        quants[parameters[p]] == parameters[QuantName(p)]
      invariant forall p :: p in todo ==> parameters[p] !in quants
      invariant quants.Keys <= parameters.Values && quants.Values <= parameters.Values
      decreases todo
    {
      var p :| p in todo;
      if QuantName(p) in parameters {
        quants := quants[parameters[p] := parameters[QuantName(p)]];
      }
      todo := todo - {p};
    }
  }

  /** `textures.ToDictionary(x => x.name)`: texture `i` under its name. */
  function ParameterMap(textures: seq<(string, TensorInfo)>): (parameters: map<string, Handle>)
    requires forall i, j :: 0 <= i < j < |textures| ==> textures[i].0 != textures[j].0
    ensures Injective(parameters)
    ensures forall i :: 0 <= i < |textures| ==> textures[i].0 in parameters && parameters[textures[i].0] == i
    ensures forall name :: name in parameters ==> parameters[name] < |textures|
  {
    map i | 0 <= i < |textures| :: textures[i].0 := i
  }

  /** The shapes of the textures, in order. */
  function Shapes(textures: seq<(string, TensorInfo)>): (shapes: seq<TensorInfo>)
    ensures |shapes| == |textures| && forall i :: 0 <= i < |textures| ==> shapes[i] == textures[i].1
  {
    seq(|textures|, i requires 0 <= i < |textures| => textures[i].1)
  }

  /** The operator library `OnEnable` creates: a store that knows the
      textures (texture `i` is handle `i`), with the quantization registry
      `quants` installed. */
  method NewLibrary(shapes: seq<TensorInfo>, shaders: set<Shader>, quants: map<Handle, Handle>) returns (lib: TensorNN)
    requires forall w :: w in quants ==> w < |shapes| && quants[w] < |shapes|
    ensures fresh(lib) && fresh(lib.ctx) && lib.Stored()
    ensures lib.kernels == shaders && lib.quants == quants && lib.ctx.info == AssetInfo(shapes)
    ensures lib.ctx.live == {} && lib.ctx.log == [] && lib.ctx.released == []
  {
    var ctx := new TensorContext(shapes);
    lib := new TensorNN(ctx, shaders);
    lib.quants := quants;
  }

  // ---------------------------------------------------------------------
  // The driver

  class GPTBase {
    var nn: TensorNN
    /** The parameter textures by name. */
    var parameters: map<string, Handle>
    var tokens: seq<int>
    var positionId: int
    var nextTime: real
    /** Tensors marked for release at the next `BatchRelease`. */
    var releaseList: seq<Handle>
    var maxLength: int
    var interval: real
    var temperature: real
    var task: Task

    ghost predicate Valid()
      reads this, nn`ctx, nn`quants, nn.ctx`info, nn.ctx`live, nn.ctx`next
    {
      nn.Stored() && Injective(parameters) &&
      (forall name :: name in parameters ==> parameters[name] in nn.ctx.info) &&
      Distinct(releaseList) && Elems(releaseList) <= nn.ctx.live
    }

    function State(): GenState
      reads this`tokens, this`positionId, this`nextTime
    {
      GenState(tokens, positionId, nextTime)
    }

    /** `OnEnable`: a fresh operator library over a store holding the
        textures (texture `i` is handle `i`), the parameters by name, the
        quantization registry, and, for the `Run` task, the prompt at
        position 0 with the first step due now. */
    constructor (textures: seq<(string, TensorInfo)>, shaders: set<Shader>, task: Task,
        maxLength: int, interval: real, temperature: real, prompt: seq<int>, now: real)
      requires forall i, j :: 0 <= i < j < |textures| ==> textures[i].0 != textures[j].0
      ensures Valid() && fresh(nn) && fresh(nn.ctx)
      ensures nn.kernels == shaders && nn.ctx.live == {} && nn.ctx.log == [] && releaseList == []
      ensures parameters == ParameterMap(textures)
      ensures nn.ctx.info == AssetInfo(Shapes(textures))
      ensures forall p :: p in parameters ==> (parameters[p] in nn.quants <==> QuantName(p) in parameters)
      ensures forall p :: p in parameters && QuantName(p) in parameters ==>
        nn.quants[parameters[p]] == parameters[QuantName(p)]
      ensures this.task == task && this.maxLength == maxLength && this.interval == interval
      ensures this.temperature == temperature
      ensures task == Run ==> State() == GenState(prompt, 0, now)
    {
      var params := ParameterMap(textures);
      var quants := QuantRegistry(params);
      var lib := NewLibrary(Shapes(textures), shaders, quants);
      nn := lib;
      parameters := params;
      releaseList := [];
      this.task := task;
      this.maxLength := maxLength;
      this.interval := interval;
      this.temperature := temperature;
      if task == Run {
        nextTime := now;
        positionId := 0;
        tokens := prompt;
      } else {
        nextTime := 0.0;
        positionId := 0;
        tokens := [];
      }
    }

    /** `Update(now)`, where `token` is what the model's `Run(positionId)`
        returns; `Run` leaves the live-tensor count as it found it, and after
        it the count must be zero. */
    method Update(now: real, token: int)
      requires task == Run && |tokens| < maxLength && nextTime <= now ==> nn.ctx.TensorCount() == 0
      modifies this`tokens, this`positionId, this`nextTime
      ensures State() == if task == Run then Step(old(State()), maxLength, interval, Frame(now, token)) else old(State())
    {
      if task == Run {
        if |tokens| >= maxLength {
          return;
        }
        if now < nextTime {
          return;
        }
        nextTime := now + interval;
        positionId := |tokens|;
        tokens := tokens + [token];
      }
    }

    /** `InputTensor(ids, positionId)`: a host tensor with one texel per token
        from `positionId` on. */
    method InputTensor(ids: seq<int>, positionId: int) returns (input: Handle)
      requires Valid() && 0 <= positionId <= |ids|
      modifies nn.ctx`info, nn.ctx`live, nn.ctx`next, nn.ctx`hostData
      ensures Valid()
      ensures nn.ctx.Allocated(input, TensorInfo(|ids| - positionId, 1, Float32, 0))
      ensures nn.ctx.hostData == old(nn.ctx.hostData)[input := PackedInput(ids, positionId)]
      ensures forall h :: h in old(nn.ctx.info) ==> h in nn.ctx.info && nn.ctx.info[h] == old(nn.ctx.info)[h]
    {
      var inputData := PackInput(ids, positionId);
      input := nn.ctx.CPUTensor(|ids| - positionId, 1);
      nn.ctx.SetData(input, inputData);
    }

    /** `MarkRelease(t)`: release `t` at the next `BatchRelease`. */
    method MarkRelease(t: Handle) returns (u: Handle)
      requires Valid() && t in nn.ctx.live && t !in Elems(releaseList)
      modifies this`releaseList
      ensures Valid() && u == t && releaseList == old(releaseList) + [t]
    {
      releaseList := releaseList + [t];
      u := t;
    }

    /** `BatchRelease(x)`: release every marked tensor, in marking order. */
    method BatchRelease<T>(x: T) returns (y: T)
      requires Valid()
      modifies this`releaseList, nn.ctx`live, nn.ctx`released
      ensures Valid() && y == x && releaseList == []
      ensures nn.ctx.live == old(nn.ctx.live) - Elems(old(releaseList))
      ensures nn.ctx.released == old(nn.ctx.released) + old(releaseList)
    {
      for i := 0 to |releaseList|
        invariant releaseList == old(releaseList)
        invariant nn.ctx.Valid()
        invariant nn.ctx.live == old(nn.ctx.live) - Elems(releaseList[..i])
        invariant nn.ctx.released == old(nn.ctx.released) + releaseList[..i]
      {
        assert releaseList[i] !in Elems(releaseList[..i]);
        assert Elems(releaseList[..i + 1]) == Elems(releaseList[..i]) + {releaseList[i]};
        nn.ctx.Release(releaseList[i]);
      }
      assert releaseList[..|releaseList|] == releaseList;
      releaseList := [];
      y := x;
    }

    /** `MultinomialSample(logits, vocabSize, temperature)`: copy the last row
        of the logits, perturb it with Gumbel noise scaled by `temperature`
        (none at 0, which makes this a greedy search) and take the arg-max
        over the vocabulary range; both intermediates are released, and so is
        anything marked before. */
    method MultinomialSample(logits: Handle, vocabSize: int, temperature: real)
      returns (token: Handle, ghost row: Handle, ghost noisy: Handle)
      requires Valid() && KernelNames <= nn.kernels && logits in nn.ctx.info && nn.ctx.Size1(logits) > 0
      modifies this`releaseList, nn.ctx
      ensures Valid() && nn.ctx.Grows() && releaseList == []
      ensures token !in old(nn.ctx.info) && token in nn.ctx.info && nn.ctx.info[token] == TensorInfo(1, 1, Float32, 0)
      ensures nn.ctx.live == old(nn.ctx.live) - Elems(old(releaseList)) + {token}
      ensures |nn.ctx.log| == |old(nn.ctx.log)| + 2 + ReducePasses(nn.ctx.Size1(logits), 1, false)
      ensures row !in old(nn.ctx.info) && nn.ctx.log[|old(nn.ctx.log)|].output == row
      ensures CopyDescriptor(nn.ctx.log[|old(nn.ctx.log)|].mat, row, logits, Int2(1, nn.ctx.Size1(logits)), Int2(0, 0),
        Int2(nn.ctx.Size0(logits) - 1, 0), None, Zero4, nn.ctx.info)
      ensures SampleTrace(nn.ctx.log, nn.ctx.released, nn.ctx.info, |old(nn.ctx.log)| + 1,
        |old(nn.ctx.released)| + |old(releaseList)|, row, noisy, token, temperature, vocabSize)
      ensures nn.ctx.released[..|old(nn.ctx.released)| + |old(releaseList)|] == old(nn.ctx.released) + old(releaseList)
      ensures nn.ctx.Last().output == token
    {
      ghost var size, offset := Int2(1, nn.ctx.Size1(logits)), Int2(nn.ctx.Size0(logits) - 1, 0);
      var copied := LastRow(logits);
      row := copied;
      ghost var copy, info1, log1 := nn.ctx.Last(), nn.ctx.info, nn.ctx.log;
      assert CopyDescriptor(copy.mat, row, logits, size, Int2(0, 0), offset, None, Zero4, info1);
      token, noisy := SampleRow(copied, temperature, vocabSize, |old(nn.ctx.log)| + 1,
        |old(nn.ctx.released)| + |old(releaseList)|);
      assert nn.ctx.log[..|log1|] == log1;
      assert nn.ctx.log[|old(nn.ctx.log)|] == copy;
      CopyDescriptorStable(copy.mat, row, logits, size, Int2(0, 0), offset, None, Zero4, info1, nn.ctx.info);
    }

    /** `nn.Copy(null, logits, new Vector2Int(1, Size1(logits)), Vector2Int.zero,
        new Vector2Int(Size0(logits) - 1, 0))`: the last row of the logits, as a new tensor. */
    method LastRow(logits: Handle) returns (row: Handle)
      requires Valid() && KernelNames <= nn.kernels && logits in nn.ctx.info
      modifies nn.ctx
      ensures Valid() && nn.ctx.Grows() && nn.ctx.released == old(nn.ctx.released)
      ensures nn.ctx.Allocated(row, TensorInfo(1, nn.ctx.Size1(logits), nn.ctx.DType(logits), 0))
      ensures |nn.ctx.log| == |old(nn.ctx.log)| + 1 && nn.ctx.Last().output == row
      ensures CopyDescriptor(nn.ctx.Last().mat, row, logits, Int2(1, nn.ctx.Size1(logits)), Int2(0, 0),
        Int2(nn.ctx.Size0(logits) - 1, 0), None, Zero4, nn.ctx.info)
    {
      row := nn.Copy(None, logits, Int2(1, nn.ctx.Size1(logits)), Int2(0, 0), Int2(nn.ctx.Size0(logits) - 1, 0),
        None, Zero4);
    }

    /**
     * The dispatches and releases `SampleRow` leaves after the first `k` of
     * `log` and the first `r` of `released`: the Gumbel pass from `row` to
     * `noisy`, the arg-max reduction of `noisy` to `token` over the range
     * `(0, vocabSize)`, and the releases of `row`, of any partial buffer of the
     * reduction, and of `noisy`, in that order.
     */
    ghost predicate SampleTrace(log: seq<Dispatch>, released: seq<Handle>, info: map<Handle, TensorInfo>, k: nat, r: nat,
        row: Handle, noisy: Handle, token: Handle, temperature: real, vocabSize: int)
    {
      |log| > k && log[k].output == noisy &&
      row in info && noisy in info &&
      AddActDescriptor(log[k].mat, row, noisy, Some(row), FuncGumbel, Some(Splat(temperature)), info) &&
      r < |released| && released[r] == row &&
      var e := |released| - 1;
      r < e && released[e] == noisy &&
      ReduceTrace(log, released[..e], info, k + 1, r + 1, noisy, token, ReduceMinmax, 1,
                  Some(Vec4(0.0, vocabSize as real, 0.0, 0.0)), Some(ArgMaxLinear), false)
    }

    /** `BatchRelease(nn.ArgMax(MarkRelease(BatchRelease(nn.Gumbel(MarkRelease(row), temperature))), range))`. */
    method SampleRow(row: Handle, temperature: real, vocabSize: int, ghost k: nat, ghost r: nat)
      returns (token: Handle, ghost noisy: Handle)
      requires Valid() && KernelNames <= nn.kernels && row in nn.ctx.live && row in nn.ctx.info
      requires k == |nn.ctx.log| && r == |nn.ctx.released| + |releaseList|
      requires row !in Elems(releaseList) && nn.ctx.Size0(row) > 0 && nn.ctx.Size1(row) > 0
      modifies this`releaseList, nn.ctx
      ensures Valid() && nn.ctx.Grows() && releaseList == []
      ensures noisy !in old(nn.ctx.info) && noisy in nn.ctx.info && nn.ctx.info[noisy] == TensorInfo(nn.ctx.Size0(row), nn.ctx.Size1(row), nn.dataType, 0)
      ensures token !in old(nn.ctx.info) && token in nn.ctx.info && nn.ctx.info[token] == TensorInfo(nn.ctx.Size0(row), 1, Float32, 0)
      ensures nn.ctx.live == old(nn.ctx.live) - Elems(old(releaseList)) - {row} + {token}
      ensures |nn.ctx.log| == |old(nn.ctx.log)| + 1 + ReducePasses(nn.ctx.Size1(row), 1, false)
      ensures nn.ctx.Last().output == token
      ensures SampleTrace(nn.ctx.log, nn.ctx.released, nn.ctx.info, k, r, row, noisy, token, temperature, vocabSize)
      ensures nn.ctx.released[..r] == old(nn.ctx.released) + old(releaseList)
    {
      var perturbed := GumbelReleasing(row, temperature);
      noisy := perturbed;
      ghost var gumbel, info1, released1 := nn.ctx.Last(), nn.ctx.info, nn.ctx.released;
      token := ArgMaxReleasing(perturbed, Vec4(0.0, vocabSize as real, 0.0, 0.0));
      assert nn.ctx.released[..|released1|] == released1;
      AddActDescriptorStable(gumbel.mat, row, noisy, Some(row), FuncGumbel, Some(Splat(temperature)), info1, nn.ctx.info);
    }

    /** `BatchRelease(nn.Gumbel(MarkRelease(x), temperature))`. */
    method GumbelReleasing(x: Handle, temperature: real) returns (y: Handle)
      requires Valid() && KernelNames <= nn.kernels && x in nn.ctx.live && x in nn.ctx.info
      requires x !in Elems(releaseList) && nn.ctx.Size0(x) > 0 && nn.ctx.Size1(x) > 0
      modifies this`releaseList, nn.ctx
      ensures Valid() && nn.ctx.Grows() && releaseList == []
      ensures y !in old(nn.ctx.info) && y in nn.ctx.info && nn.ctx.info[y] == TensorInfo(nn.ctx.Size0(x), nn.ctx.Size1(x), nn.dataType, 0)
      ensures nn.ctx.live == old(nn.ctx.live) - Elems(old(releaseList)) - {x} + {y}
      ensures nn.ctx.released == old(nn.ctx.released) + old(releaseList) + [x]
      ensures |nn.ctx.log| == |old(nn.ctx.log)| + 1 && nn.ctx.Last().output == y
      ensures AddActDescriptor(nn.ctx.Last().mat, x, y, Some(x), FuncGumbel, Some(Splat(temperature)), nn.ctx.info)
    {
      var marked := MarkRelease(x);
      y := nn.Gumbel(marked, temperature);
      ElemsAppend(old(releaseList), x);
      y := BatchRelease(y);
    }

    /** `BatchRelease(nn.ArgMax(MarkRelease(x), mask))`. */
    method ArgMaxReleasing(x: Handle, mask: Vec4) returns (y: Handle)
      requires Valid() && KernelNames <= nn.kernels && x in nn.ctx.live && x in nn.ctx.info
      requires x !in Elems(releaseList)
      modifies this`releaseList, nn.ctx
      ensures Valid() && nn.ctx.Grows() && releaseList == []
      ensures y !in old(nn.ctx.info) && y in nn.ctx.info && nn.ctx.info[y] == TensorInfo(nn.ctx.Size0(x), 1, Float32, 0)
      ensures nn.ctx.live == old(nn.ctx.live) - Elems(old(releaseList)) - {x} + {y}
      ensures |nn.ctx.log| == |old(nn.ctx.log)| + ReducePasses(nn.ctx.Size1(x), 1, false) && nn.ctx.Last().output == y
      ensures var r := |old(nn.ctx.released)| + ReducePasses(nn.ctx.Size1(x), 1, false) - 1;
        |nn.ctx.released| == r + |old(releaseList)| + 1 &&
        nn.ctx.released[r..] == old(releaseList) + [x] &&
        ReduceTrace(nn.ctx.log, nn.ctx.released[..r], nn.ctx.info, |old(nn.ctx.log)|, |old(nn.ctx.released)|,
                    x, y, ReduceMinmax, 1, Some(mask), Some(ArgMaxLinear), false)
    {
      var marked := MarkRelease(x);
      ReduceStep(nn.ctx.Size1(x), 1, false);
      y := nn.ArgMax(marked, Some(mask));
      ghost var reduced := nn.ctx.released;
      ElemsAppend(old(releaseList), x);
      y := BatchRelease(y);
      assert nn.ctx.released[..|reduced|] == reduced;
    }

    /** `AssertData(rt, row, value, eps)`, where `data` is what `GetData(rt)`
        reads back: dump the tensor when the largest error over the compared
        components reaches `eps`. */
    method AssertData(rt: Handle, row: int, value: seq<real>, eps: real, data: seq<real>)
      requires Valid() && rt in nn.ctx.info
      requires InWindow(data, AssertOffset(nn.ctx.Size0(rt), nn.ctx.Size1(rt), row),
        AssertCount(nn.ctx.Size1(rt), |value|))
      modifies nn.ctx`dumps
      ensures var offset := AssertOffset(nn.ctx.Size0(rt), nn.ctx.Size1(rt), row);
        var count := AssertCount(nn.ctx.Size1(rt), |value|);
        nn.ctx.dumps == old(nn.ctx.dumps) + (if MaxErr(data, offset, value, count) >= eps then [rt] else [])
    {
      var offset := AssertOffset(nn.ctx.Size0(rt), nn.ctx.Size1(rt), row);
      var count := AssertCount(nn.ctx.Size1(rt), |value|);
      var errorL1, errorL2, errorLi := ErrorMetrics(data, offset, value, count);
      MaxErrIsMaximum(data, offset, value, count);
      if Abs(errorLi) >= eps {
        nn.ctx.DebugTensor(rt);
      }
    }

    /** `FixSize0(name, size0)`: redeclare the rows of parameter `name` and,
        when it has a quantized companion, the companion's packed rows; no
        other tensor changes. */
    method FixSize0(name: string, size0: nat)
      requires Valid() && name in parameters
      modifies nn.ctx`info
      ensures Valid() && nn.ctx.info.Keys == old(nn.ctx.info.Keys)
      ensures forall h :: h in old(nn.ctx.info) ==>
        (nn.ctx.info[h] ==
          if QuantName(name) in parameters && h == parameters[QuantName(name)] then
            old(nn.ctx.info)[h].(rows := QuantRows(size0))
          else if h == parameters[name] then old(nn.ctx.info)[h].(rows := size0)
          else old(nn.ctx.info)[h])
    {
      nn.ctx.FixSize0(parameters[name], size0);
      if QuantName(name) in parameters {
        nn.ctx.FixSize0(parameters[QuantName(name)], QuantRows(size0));
      }
    }
  }
}
