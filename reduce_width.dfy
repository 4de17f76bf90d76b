/**
 * The pure width arithmetic behind the two-level tree reduction of
 * `TensorNN._Reduce`: which intermediate width the first pass reduces to,
 * and how many passes a reduction takes.
 */
module ReduceWidths {

  /** Reductions whose per-group width is at least this are split in two passes. */
  const SplitThreshold := 256

  /** Search upwards from `s` for the least root whose square reaches `n`. */
  function CeilSqrtFrom(n: nat, s: nat): (r: nat)
    requires s == 0 || (s - 1) * (s - 1) < n
    ensures r * r >= n && r >= s
    ensures r == 0 || (r - 1) * (r - 1) < n
    decreases n - s
  {
    if s * s >= n then s
    else
      MulMonoIf(s, n, s, 1);
      CeilSqrtFrom(n, s + 1)
  }

  lemma MulMono(a: nat, b: nat, c: nat, d: nat)
    requires a >= b && c >= d
    ensures a * c >= b * d
  {
  }

  lemma MulMonoIf(a: nat, b: nat, c: nat, d: nat)
    ensures a >= b && c >= d ==> a * c >= b * d
  {
    if a >= b && c >= d {
      MulMono(a, b, c, d);
    }
  }

  /** A nonzero multiple of `a > 0` is at least `a` away from zero. */
  lemma MulAwayFromZero(a: int, k: int)
    requires a > 0
    ensures k >= 1 ==> a * k >= a
    ensures k <= -1 ==> a * k <= -a
  {
    if k >= 1 {
      MulMono(a, a, k, 1);
    } else if k <= -1 {
      MulMono(a, a, -k, 1);
      assert a * k == -(a * -k);
    }
  }

  /** `ceil(sqrt(n))`: the smallest `s` with `s * s >= n`. */
  function CeilSqrt(n: nat): (s: nat)
    ensures s * s >= n
    ensures s == 0 || (s - 1) * (s - 1) < n
  {
    CeilSqrtFrom(n, 0)
  }

  predicate IsPow2(m: nat)
    decreases m
  {
    m == 1 || (m >= 2 && m % 2 == 0 && IsPow2(m / 2))
  }

  /** Search upwards through the powers of two from `m`. */
  function MinPow2From(n: nat, m: nat): (r: nat)
    requires IsPow2(m)
    requires m == 1 || (m / 2) * (m / 2) < n
    ensures IsPow2(r) && r >= m && r * r >= n
    ensures r == 1 || (r / 2) * (r / 2) < n
    decreases n - m
  {
    if m * m >= n then m
    else
      MulMonoIf(m, n, m, 1);
      MinPow2From(n, 2 * m)
  }

  /** `1 << ceil(log2(n) / 2)`: the smallest power of two `m` with `m * m >= n`. */
  function MinPow2(n: nat): (m: nat)
    ensures IsPow2(m) && m * m >= n
    ensures m == 1 || (m / 2) * (m / 2) < n
  {
    MinPow2From(n, 1)
  }

  /**
   * The column count of the first-pass output of `_Reduce` over `cols`
   * columns in `group` groups: `group` itself (no split) unless the input
   * is not yet reduced and each group spans at least 256 columns; then the
   * ceiling square root of the group width when ungrouped, or `group * m`
   * for the least power of two `m` with `m * m` reaching the group width,
   * provided `m` divides it.
   */
  function ReduceWidth(cols: nat, group: nat, inputReduced: bool): (size1: nat)
    requires group >= 1 && cols % group == 0
    ensures size1 >= group
    ensures size1 != group ==> !inputReduced && cols / group >= SplitThreshold
  {
    var n := cols / group;
    if inputReduced || n < SplitThreshold then group
    else if group == 1 then CeilSqrt(n)
    else
      var m := MinPow2(n);
      if n % m == 0 then
        MulMono(group, group, m, 1);
        group * m
      else group
  }

  /** `size1 > group` means that `_Reduce` splits into a partial pass and a final pass. */
  predicate Splits(cols: nat, group: nat, inputReduced: bool)
    requires group >= 1 && cols % group == 0
  {
    ReduceWidth(cols, group, inputReduced) > group
  }

  /** A power of two at least 2 is even, so halving it is exact. */
  lemma Pow2Half(m: nat)
    requires IsPow2(m) && m >= 2
    ensures m == 2 * (m / 2)
  {
  }

  /** For a group width of 256 or more the least root is at least 16, and below the width. */
  lemma {:induction false} CeilSqrtBounds(n: nat)
    requires n >= SplitThreshold
    ensures 16 <= CeilSqrt(n) < n
  {
    var s := CeilSqrt(n);
    MulMonoIf(15, s, 15, s);
    var t: nat := s - 1;
    MulMonoIf(t, n - 1, t, n - 1);
    MulMono(n - 1, n - 1, n - 1, 2);
  }

  /** The same for the least power of two. */
  lemma {:induction false} MinPow2Bounds(n: nat)
    requires n >= SplitThreshold
    ensures 16 <= MinPow2(n) < n
  {
    var m := MinPow2(n);
    MulMonoIf(15, m, 15, m);
    Pow2Half(m);
    var h := m / 2;
    MulMono(h, 8, h, 1);
  }

  /** Division by `a` of a multiple of `a` is exact. */
  lemma ModOfMultiple(a: int, q: int)
    requires a > 0
    ensures (a * q) % a == 0 && (a * q) / a == q
  {
    var x := a * q;
    var d, r := x / a, x % a;
    assert x == a * d + r && 0 <= r < a;
    assert a * (q - d) == r by {
      assert a * (q - d) == a * q - a * d;
    }
    MulAwayFromZero(a, q - d);
  }

  /** `n` divisible by `m` makes `group * n` divisible by `group * m`. */
  lemma ScaledDivides(group: nat, n: nat, m: nat)
    requires group >= 1 && m >= 1 && n % m == 0
    ensures (group * n) % (group * m) == 0
  {
    var q := n / m;
    assert n == m * q;
    assert group * n == (group * m) * q by {
      assert group * (m * q) == (group * m) * q;
    }
    ModOfMultiple(group * m, q);
  }

  /** The width choice as the source's comment promises it: a split width is
      a multiple of `group`, strictly between `group` and the input width,
      and in the grouped case divides the input width. */
  lemma {:induction false} ReduceWidthSplit(cols: nat, group: nat, inputReduced: bool)
    requires group >= 1 && cols % group == 0
    ensures var size1 := ReduceWidth(cols, group, inputReduced);
      size1 == group ||
      (size1 > group && size1 % group == 0 && size1 < cols && !inputReduced &&
       cols / group >= SplitThreshold && (group > 1 ==> cols % size1 == 0))
  {
    var n := cols / group;
    assert cols == group * n;
    if !inputReduced && n >= SplitThreshold {
      if group == 1 {
        CeilSqrtBounds(n);
      } else {
        var m := MinPow2(n);
        MinPow2Bounds(n);
        if n % m == 0 {
          ScaledDivides(group, n, m);
          ModOfMultiple(group, m);
          assert group * m < group * n by { MulMono(group, group, n, m + 1); }
          assert group * m > group by { MulMono(group, group, m, 2); }
        }
      }
    }
  }

  /** The ungrouped split is the exact ceiling square root of the width. */
  lemma UngroupedWidth(cols: nat)
    requires cols >= SplitThreshold
    ensures var s := ReduceWidth(cols, 1, false);
      s * s >= cols && (s - 1) * (s - 1) < cols
  {
  }

  /** A split already-reduced input is impossible: the second pass never splits. */
  lemma ReducedNeverSplits(cols: nat, group: nat)
    requires group >= 1 && cols % group == 0
    ensures ReduceWidth(cols, group, true) == group
  {
  }

  /**
   * The number of kernel passes `_Reduce` issues; it recurses on the
   * partial result marked as already reduced, so at most twice.
   */
  function ReducePasses(cols: nat, group: nat, inputReduced: bool): (k: nat)
    requires group >= 1 && cols % group == 0
    ensures 1 <= k <= 2
    ensures k == 2 <==> Splits(cols, group, inputReduced)
    decreases if inputReduced then 0 else 1
  {
    var size1 := ReduceWidth(cols, group, inputReduced);
    if size1 > group then
      ReduceWidthSplit(cols, group, inputReduced);
      1 + ReducePasses(size1, group, true)
    else 1
  }

  /** What `_Reduce` needs of its width choice: the number of passes it
      issues, and that a split width can be reduced again by group. */
  lemma ReduceStep(cols: nat, group: nat, inputReduced: bool)
    requires group >= 1 && cols % group == 0
    ensures var size1 := ReduceWidth(cols, group, inputReduced);
      (size1 > group <==> Splits(cols, group, inputReduced)) &&
      (size1 > group ==> size1 % group == 0 && !Splits(size1, group, true) &&
                         ReducePasses(cols, group, inputReduced) == 2) &&
      (size1 <= group ==> size1 == group && ReducePasses(cols, group, inputReduced) == 1)
  {
    ReduceWidthSplit(cols, group, inputReduced);
  }
}
