/**
 * The kernel option keywords of `TensorNN.Keyword`, their names as enabled
 * on a descriptor, and `ActFn`, which maps an activation name to its keyword.
 */
module Keywords {
  import opened Wrappers

  datatype Keyword =
    | NoKeyword
    | WeightTransposed
    | WeightQuantized
    | InputReduced
    | ReduceSumpow
    | ReduceMinmax
    | FuncGroupnorm
    | FuncSoftmaxLinf
    | FuncNormalizeL1
    | FuncGelu
    | FuncGeluNew
    | FuncGumbel
    | FuncRotary

  /** `keyword.ToString()`: the shader keyword a descriptor enables. */
  function Name(k: Keyword): (n: string)
    ensures n in Named && Named[n] == k
  {
    match k
    case NoKeyword => "None"
    case WeightTransposed => "WEIGHT_TRANSPOSED"
    case WeightQuantized => "WEIGHT_QUANTIZED"
    case InputReduced => "INPUT_REDUCED"
    case ReduceSumpow => "REDUCE_SUMPOW"
    case ReduceMinmax => "REDUCE_MINMAX"
    case FuncGroupnorm => "FUNC_GROUPNORM"
    case FuncSoftmaxLinf => "FUNC_SOFTMAX_LINF"
    case FuncNormalizeL1 => "FUNC_NORMALIZE_L1"
    case FuncGelu => "FUNC_GELU"
    case FuncGeluNew => "FUNC_GELU_NEW"
    case FuncGumbel => "FUNC_GUMBEL"
    case FuncRotary => "FUNC_ROTARY"
  }

  /** Distinct keywords enable distinct shader keywords. */
  lemma NameInjective(a: Keyword, b: Keyword)
    ensures Name(a) == Name(b) ==> a == b
  {
  }

  /** The enum's names, each with its keyword. */
  const Named: map<string, Keyword> := map[
    "None" := NoKeyword, "WEIGHT_TRANSPOSED" := WeightTransposed, "WEIGHT_QUANTIZED" := WeightQuantized,
    "INPUT_REDUCED" := InputReduced, "REDUCE_SUMPOW" := ReduceSumpow, "REDUCE_MINMAX" := ReduceMinmax,
    "FUNC_GROUPNORM" := FuncGroupnorm, "FUNC_SOFTMAX_LINF" := FuncSoftmaxLinf,
    "FUNC_NORMALIZE_L1" := FuncNormalizeL1, "FUNC_GELU" := FuncGelu, "FUNC_GELU_NEW" := FuncGeluNew,
    "FUNC_GUMBEL" := FuncGumbel, "FUNC_ROTARY" := FuncRotary]

  /** `Enum.Parse`'s lookup of one name: the keyword named exactly `s`, if any. */
  function Parse(s: string): (r: Option<Keyword>)
    ensures r.Some? ==> Name(r.value) == s
    ensures r.None? ==> forall k: Keyword :: Name(k) != s
  {
    if s in Named then Some(Named[s]) else None
  }

  /** What parsing finds is named by the string. */
  lemma ParseSound(s: string)
    ensures Parse(s).Some? ==> Name(Parse(s).value) == s
  {
  }

  /** Every keyword parses back from its name. */
  lemma ParseComplete(k: Keyword)
    ensures Parse(Name(k)) == Some(k)
  {
    match k
    case NoKeyword =>
    case WeightTransposed =>
    case WeightQuantized =>
    case InputReduced =>
    case ReduceSumpow =>
    case ReduceMinmax =>
    case FuncGroupnorm =>
    case FuncSoftmaxLinf =>
    case FuncNormalizeL1 =>
    case FuncGelu =>
    case FuncGeluNew =>
    case FuncGumbel =>
    case FuncRotary =>
  }

  /** Parsing finds exactly the keyword whose name is the string. */
  lemma ParseName(s: string, k: Keyword)
    ensures Parse(s) == Some(k) <==> Name(k) == s
  {
    ParseSound(s);
    ParseComplete(k);
  }

  /** Invariant upper-casing, on ASCII letters. */
  function UpperChar(c: char): char {
    if 'a' <= c <= 'z' then (c as int - 'a' as int + 'A' as int) as char else c
  }

  /** `ToUpperInvariant`, character by character. */
  function Upper(s: string): string {
    if s == [] then [] else [UpperChar(s[0])] + Upper(s[1..])
  }

  /** Upper-casing keeps the length and maps each character by itself. */
  lemma {:induction false} UpperLength(s: string)
    ensures |Upper(s)| == |s| && forall i :: 0 <= i < |s| ==> Upper(s)[i] == UpperChar(s[i])
  {
    if s != [] {
      UpperLength(s[1..]);
    }
  }

  /** Upper-casing introduces no comma. */
  lemma {:induction false} UpperNoComma(s: string)
    requires ',' !in s
    ensures ',' !in Upper(s)
  {
    if s != [] {
      UpperNoComma(s[1..]);
    }
  }

  /** The underlying value of a keyword: its position in the declaration, `None = 0` first. */
  function Ord(k: Keyword): (v: nat)
    ensures v < 13
  {
    match k
    case NoKeyword => 0
    case WeightTransposed => 1
    case WeightQuantized => 2
    case InputReduced => 3
    case ReduceSumpow => 4
    case ReduceMinmax => 5
    case FuncGroupnorm => 6
    case FuncSoftmaxLinf => 7
    case FuncNormalizeL1 => 8
    case FuncGelu => 9
    case FuncGeluNew => 10
    case FuncGumbel => 11
    case FuncRotary => 12
  }

  /** The keyword a value stands for, if the enum declares one with that value. */
  function KeywordOf(v: int): (r: Option<Keyword>)
    ensures r.Some? ==> Ord(r.value) == v
    ensures r.None? ==> forall k: Keyword :: Ord(k) != v
  {
    if v == 0 then Some(NoKeyword)
    else if v == 1 then Some(WeightTransposed)
    else if v == 2 then Some(WeightQuantized)
    else if v == 3 then Some(InputReduced)
    else if v == 4 then Some(ReduceSumpow)
    else if v == 5 then Some(ReduceMinmax)
    else if v == 6 then Some(FuncGroupnorm)
    else if v == 7 then Some(FuncSoftmaxLinf)
    else if v == 8 then Some(FuncNormalizeL1)
    else if v == 9 then Some(FuncGelu)
    else if v == 10 then Some(FuncGeluNew)
    else if v == 11 then Some(FuncGumbel)
    else if v == 12 then Some(FuncRotary)
    else None
  }

  /** White space that `Enum.Parse` strips around a name: the space and tab to carriage return (ASCII only). */
  predicate IsBlank(c: char) {
    c == ' ' || '\t' <= c <= '\r'
  }

  function TrimStart(s: string): (t: string)
    ensures |t| <= |s| && t == s[|s| - |t|..] && (t == [] || !IsBlank(t[0]))
    ensures forall i :: 0 <= i < |s| - |t| ==> IsBlank(s[i])
  {
    if s != [] && IsBlank(s[0]) then TrimStart(s[1..]) else s
  }

  function TrimEnd(s: string): (t: string)
    ensures t <= s && (t == [] || !IsBlank(t[|t| - 1]))
    ensures forall i :: |t| <= i < |s| ==> IsBlank(s[i])
  {
    if s != [] && IsBlank(s[|s| - 1]) then TrimEnd(s[..|s| - 1]) else s
  }

  /** `string.Trim()`: the string without its leading and trailing blanks. */
  function Trim(s: string): string {
    TrimEnd(TrimStart(s))
  }

  /** The pieces of `s` between commas, in order; `s` itself when it has none. */
  function Split(s: string): (parts: seq<string>)
    ensures |parts| >= 1
    ensures ',' !in s ==> parts == [s]
    ensures forall i :: 0 <= i < |parts| ==> ',' !in parts[i]
  {
    if s == [] then [[]]
    else
      var rest := Split(s[1..]);
      if s[0] == ',' then [[]] + rest
      else
        assert ',' !in rest[0];
        assert s == [s[0]] + s[1..];
        [[s[0]] + rest[0]] + rest[1..]
  }

  /** The bitwise or of two enum values, as the flags combination of a comma list. */
  function Or(a: nat, b: nat): (r: nat)
    requires a < 16 && b < 16
    ensures r < 16 && (b == 0 ==> r == a) && (a == 0 ==> r == b)
  {
    OrBits(a, b, 4)
  }

  /** The or of the low `n` bits of `a` and `b`. */
  function OrBits(a: nat, b: nat, n: nat): (r: nat)
    ensures r < Pow2(n)
    ensures a < Pow2(n) && b == 0 ==> r == a
    ensures b < Pow2(n) && a == 0 ==> r == b
  {
    if n == 0 then 0
    else 2 * OrBits(a / 2, b / 2, n - 1) + (if a % 2 == 1 || b % 2 == 1 then 1 else 0)
  }

  function Pow2(n: nat): (p: nat)
    ensures p >= 1
  {
    if n == 0 then 1 else 2 * Pow2(n - 1)
  }

  /** The or of the values named by the trimmed pieces, or nothing when one names no keyword. */
  function ParseFlags(parts: seq<string>): (r: Option<nat>)
    ensures r.Some? ==> r.value < 16
  {
    if parts == [] then Some(0)
    else match Parse(Trim(parts[0]))
      case None => None
      case Some(k) =>
        match ParseFlags(parts[1..])
        case None => None
        case Some(v) => Some(Or(Ord(k), v))
  }

  /** A single piece parses to the value of the keyword it names, trimmed. */
  lemma ParseFlagsSingle(p: string)
    ensures ParseFlags([p]) == if Parse(Trim(p)).Some? then Some(Ord(Parse(Trim(p)).value)) else None
  {
    assert [p][1..] == [];
    if Parse(Trim(p)).Some? {
      var v := Ord(Parse(Trim(p)).value);
      assert Or(v, 0) == v;
    }
  }

  /** `Enum.Parse(typeof(Keyword), s)` on a string that does not start with a digit or a sign:
      each comma-separated piece, trimmed, must be a keyword's name, and the result is the or
      of their values, whether or not the enum declares that value. */
  function EnumParse(s: string): Option<nat> {
    ParseFlags(Split(s))
  }

  /** `ActFn(name)`: the value of `FUNC_<NAME>`; `None` where `Enum.Parse` would throw. */
  function ActFn(name: string): (r: Option<nat>)
    ensures r.Some? ==> r.value < 16
  {
    EnumParse("FUNC_" + Upper(name))
  }

  /** For a single name (no comma), `ActFn` yields a keyword's value exactly when that keyword
      is named `FUNC_` followed by the upper-cased name, trailing blanks dropped. */
  lemma ActFnSpec(name: string, k: Keyword)
    requires ',' !in name
    ensures ActFn(name) == Some(Ord(k)) <==> Name(k) == TrimEnd("FUNC_" + Upper(name))
  {
    var s := "FUNC_" + Upper(name);
    FuncPrefixed(name);
    ParseFlagsSingle(s);
    ParseName(TrimEnd(s), k);
    assert ActFn(name) == ParseFlags([s]);
    if ActFn(name) == Some(Ord(k)) {
      OrdInjective(Parse(TrimEnd(s)).value, k);
    }
  }

  /** Whatever `ActFn` yields for a single name is the value of a declared `FUNC_` keyword. */
  lemma ActFnDeclared(name: string)
    requires ',' !in name
    ensures ActFn(name).Some? ==> KeywordOf(ActFn(name).value).Some?
    ensures ActFn(name).Some? ==> "FUNC_" <= Name(KeywordOf(ActFn(name).value).value)
  {
    var s := "FUNC_" + Upper(name);
    FuncPrefixed(name);
    ParseFlagsSingle(s);
    assert ActFn(name) == ParseFlags([s]);
    if ActFn(name).Some? {
      var p := Parse(TrimEnd(s)).value;
      assert ActFn(name).value == Ord(p);
      ParseSound(TrimEnd(s));
      assert Name(p) == TrimEnd(s);
      KeywordOfOrd(p);
      assert KeywordOf(ActFn(name).value).value == p;
      assert Name(p)[..5] == "FUNC_";
    }
  }

  /** `FUNC_` followed by an upper-cased name: nothing to trim in front, the prefix survives
      trimming at the end, and no comma unless the name has one. */
  lemma FuncPrefixed(name: string)
    ensures var s := "FUNC_" + Upper(name);
      TrimStart(s) == s && Trim(s) == TrimEnd(s) &&
      |TrimEnd(s)| >= 5 && TrimEnd(s)[..5] == "FUNC_" &&
      (',' !in name ==> ',' !in s)
  {
    var s := "FUNC_" + Upper(name);
    assert s[..5] == "FUNC_";
    assert !IsBlank(s[0]);
    TrimEndKeeps(s, 5);
    if ',' !in name {
      UpperNoComma(name);
    }
  }

  /** Trimming at the end keeps a prefix that ends in a non-blank character. */
  lemma TrimEndKeeps(s: string, n: nat)
    requires 0 < n <= |s| && !IsBlank(s[n - 1])
    ensures |TrimEnd(s)| >= n && TrimEnd(s)[..n] == s[..n]
  {
    var t := TrimEnd(s);
    assert t == s[..|t|];
  }

  /** Each keyword's value stands for that keyword. */
  lemma KeywordOfOrd(k: Keyword)
    ensures KeywordOf(Ord(k)) == Some(k)
  {
    match k
    case NoKeyword =>
    case WeightTransposed =>
    case WeightQuantized =>
    case InputReduced =>
    case ReduceSumpow =>
    case ReduceMinmax =>
    case FuncGroupnorm =>
    case FuncSoftmaxLinf =>
    case FuncNormalizeL1 =>
    case FuncGelu =>
    case FuncGeluNew =>
    case FuncGumbel =>
    case FuncRotary =>
  }

  lemma OrdInjective(a: Keyword, b: Keyword)
    ensures Ord(a) == Ord(b) <==> a == b
  {
  }

  /** Upper-casing commutes with concatenation. */
  lemma {:induction false} UpperAppend(a: string, b: string)
    ensures Upper(a + b) == Upper(a) + Upper(b)
  {
    if a != [] {
      assert (a + b)[0] == a[0] && (a + b)[1..] == a[1..] + b;
      UpperAppend(a[1..], b);
      assert Upper(a + b) == [UpperChar(a[0])] + Upper(a[1..] + b);
    } else {
      assert a + b == b;
    }
  }

  /** Splitting at the first comma. */
  lemma {:induction false} SplitFirst(a: string, b: string)
    requires ',' !in a
    ensures Split(a + "," + b) == [a] + Split(b)
  {
    if a == [] {
      assert a + "," + b == [','] + b;
      assert (a + "," + b)[1..] == b;
    } else {
      assert (a + "," + b)[1..] == a[1..] + "," + b;
      SplitFirst(a[1..], b);
      assert [a[0]] + a[1..] == a;
      assert ([a[1..]] + Split(b))[1..] == Split(b);
    }
  }

  /** Both values or'ed together, or nothing when either is missing. */
  function OrFlags(x: Option<nat>, y: Option<nat>): (r: Option<nat>)
    requires x.Some? ==> x.value < 16
    requires y.Some? ==> y.value < 16
    ensures r.Some? <==> x.Some? && y.Some?
  {
    if x.None? || y.None? then None else Some(Or(x.value, y.value))
  }

  /** The first piece's value or'ed with the rest's. */
  lemma ParseFlagsCons(p: string, rest: seq<string>)
    ensures ParseFlags([p] + rest) == OrFlags(ParseFlags([p]), ParseFlags(rest))
  {
    assert ([p] + rest)[0] == p && ([p] + rest)[1..] == rest;
    ParseFlagsSingle(p);
  }

  /** A comma list names several activations at once: `ActFn` ors the value of the first
      (as its own `ActFn`) with that of the rest, and fails when either does. */
  lemma ActFnList(a: string, b: string)
    requires ',' !in a
    ensures ActFn(a + "," + b) == OrFlags(ActFn(a), EnumParse(Upper(b)))
  {
    var ua := "FUNC_" + Upper(a);
    FuncPrefixed(a);
    UpperList(a, b);
    SplitFirst(ua, Upper(b));
    ParseFlagsCons(ua, Split(Upper(b)));
  }

  /** Upper-casing a comma list upper-cases each side of the comma. */
  lemma UpperList(a: string, b: string)
    ensures "FUNC_" + Upper(a + "," + b) == ("FUNC_" + Upper(a)) + "," + Upper(b)
  {
    UpperAppend(a, "," + b);
    UpperAppend(",", b);
    assert Upper(",") == ",";
    assert a + "," + b == a + ("," + b);
  }

  /** 13 names no keyword. */
  lemma UndeclaredValue()
    ensures KeywordOf(13).None?
  {
  }

  lemma OrValues()
    ensures Or(9, 10) == 11 && Or(9, 12) == 13
  {
    assert OrBits(0, 0, 0) == 0;
    assert OrBits(1, 1, 1) == 1 && OrBits(1, 1, 1) == 1;
    assert OrBits(2, 2, 2) == 2 && OrBits(2, 3, 2) == 3;
    assert OrBits(4, 5, 3) == 5 && OrBits(4, 6, 3) == 6;
  }

  /** Two activations or to a third: `gelu,FUNC_GELU_NEW` is `FUNC_GUMBEL`, while
      `gelu,FUNC_ROTARY` is the value 13, which the enum does not declare. */
  lemma ActFnListValues(a: string, b: string)
    requires ',' !in a && ActFn(a) == Some(Ord(FuncGelu))
    ensures EnumParse(Upper(b)) == Some(Ord(FuncGeluNew)) ==> ActFn(a + "," + b) == Some(Ord(FuncGumbel))
    ensures EnumParse(Upper(b)) == Some(Ord(FuncRotary)) ==> ActFn(a + "," + b) == Some(13) && KeywordOf(13).None?
  {
    ActFnList(a, b);
    OrValues();
    assert Ord(FuncGelu) == 9 && Ord(FuncGeluNew) == 10 && Ord(FuncGumbel) == 11 && Ord(FuncRotary) == 12;
    if EnumParse(Upper(b)) == Some(Ord(FuncGeluNew)) {
      assert OrFlags(Some(9), Some(10)) == Some(11);
    }
    if EnumParse(Upper(b)) == Some(Ord(FuncRotary)) {
      assert OrFlags(Some(9), Some(12)) == Some(13);
    }
    UndeclaredValue();
  }
}
