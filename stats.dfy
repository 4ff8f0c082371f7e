/** The numeric vocabulary of the feature extractor, over exact integers and
    reals: counting pixels that satisfy a predicate (`np.sum(mask > 0)`),
    channel sums and means (`np.mean`), percentages of a pixel population,
    filtering and averaging contour areas, and numpy's float-to-int cast
    (`astype(int)`, truncation toward zero). */
module Stats {

  /** An 8-bit channel value, as stored in a `uint8` image. */
  type Byte = x: int | 0 <= x < 256

  // ---------------------------------------------------------------------
  // Counting

  /** The number of elements of `s` that satisfy `p`. */
  function Count<T>(s: seq<T>, p: T -> bool): (n: nat)
    ensures n <= |s|
  {
    if s == [] then 0
    else Count(s[..|s| - 1], p) + (if p(s[|s| - 1]) then 1 else 0)
  }

  /** The positions of `s` whose element satisfies `p`: the "on" pixels of
      a mask. */
  function Matching<T>(s: seq<T>, p: T -> bool): set<nat>
  {
    set i: nat | i < |s| && p(s[i])
  }

  /** Counting agrees with the size of the set of matching positions. */
  lemma {:induction false} CountIsMatchingSize<T>(s: seq<T>, p: T -> bool)
    ensures Count(s, p) == |Matching(s, p)|
  {
    if s == [] {
      assert Matching(s, p) == {};
    } else {
      var n := |s| - 1;
      CountIsMatchingSize(s[..n], p);
      assert n !in Matching(s[..n], p);
      assert Matching(s, p) == Matching(s[..n], p) + (if p(s[n]) then {n} else {});
    }
  }

  /** Every element matches exactly when the count is the length. */
  lemma {:induction false} CountAll<T>(s: seq<T>, p: T -> bool)
    ensures Count(s, p) == |s| <==> forall i :: 0 <= i < |s| ==> p(s[i])
  {
    if s != [] {
      var n := |s| - 1;
      CountAll(s[..n], p);
      assert forall i :: 0 <= i < n ==> s[..n][i] == s[i];
    }
  }

  /** No element matches exactly when the count is zero. */
  lemma {:induction false} CountNone<T>(s: seq<T>, p: T -> bool)
    ensures Count(s, p) == 0 <==> forall i :: 0 <= i < |s| ==> !p(s[i])
  {
    if s != [] {
      var n := |s| - 1;
      CountNone(s[..n], p);
      assert forall i :: 0 <= i < n ==> s[..n][i] == s[i];
    }
  }

  // ---------------------------------------------------------------------
  // Sums and means of byte channels

  /** The sum of one byte channel over a pixel population. */
  function SumBy<T>(s: seq<T>, f: T -> Byte): (total: int)
    ensures 0 <= total <= 255 * |s|
  {
    if s == [] then 0 else SumBy(s[..|s| - 1], f) + f(s[|s| - 1])
  }

  /** `np.mean` of one byte channel over a non-empty pixel population. */
  function MeanBy<T>(s: seq<T>, f: T -> Byte): (m: real)
    requires |s| > 0
    ensures 0.0 <= m <= 255.0
  {
    var total := SumBy(s, f);
    assert total as real <= 255.0 * |s| as real;
    total as real / |s| as real
  }

  lemma {:induction false} SumOfUniform<T>(s: seq<T>, f: T -> Byte, c: Byte)
    requires forall i :: 0 <= i < |s| ==> f(s[i]) == c
    ensures SumBy(s, f) == c * |s|
  {
    if s != [] {
      var n := |s| - 1;
      assert forall i :: 0 <= i < n ==> s[..n][i] == s[i];
      SumOfUniform(s[..n], f, c);
    }
  }

  /** The mean of a channel that holds one value everywhere is that value. */
  lemma MeanOfUniform<T>(s: seq<T>, f: T -> Byte, c: Byte)
    requires |s| > 0
    requires forall i :: 0 <= i < |s| ==> f(s[i]) == c
    ensures MeanBy(s, f) == c as real
  {
    SumOfUniform(s, f, c);
  }

  // ---------------------------------------------------------------------
  // Percentages

  /** Dividing by a positive number keeps the order. */
  lemma DivMonotone(a: real, b: real, y: real)
    requires a <= b && 0.0 < y
    ensures a / y <= b / y
  {
    assert b / y - a / y == (b - a) / y;
  }

  /** The share of a part in a positive whole lies in [0, 1]; it is 0 only
      for the empty part and 1 only for the whole. */
  lemma ShareBounds(x: real, y: real)
    requires 0.0 <= x <= y && 0.0 < y
    ensures 0.0 <= x / y <= 1.0
    ensures x / y == 0.0 <==> x == 0.0
    ensures x / y == 1.0 <==> x == y
  {
    DivMonotone(0.0, x, y);
    DivMonotone(x, y, y);
    assert (x / y) * y == x;
  }

  /** `(count / total) * 100` for a part of a non-empty population. */
  function Percentage(count: nat, total: nat): (p: real)
    requires 0 < total && count <= total
    ensures 0.0 <= p <= 100.0
    ensures p == 0.0 <==> count == 0
    ensures p == 100.0 <==> count == total
  {
    ShareBounds(count as real, total as real);
    (count as real / total as real) * 100.0
  }

  /** The percentage of matching elements, stated over the set of matching
      positions. */
  lemma PercentageOfMatching<T>(s: seq<T>, p: T -> bool)
    requires |s| > 0
    ensures Percentage(Count(s, p), |s|) == 100.0 * (|Matching(s, p)| as real) / (|s| as real)
  {
    CountIsMatchingSize(s, p);
    PercentageIsScaledShare(Count(s, p), |s|);
  }

  lemma PercentageIsScaledShare(count: nat, total: nat)
    requires 0 < total && count <= total
    ensures Percentage(count, total) == 100.0 * (count as real) / (total as real)
  {
    var x, y := count as real, total as real;
    assert (x / y) * 100.0 == (100.0 * x) / y;
  }

  // ---------------------------------------------------------------------
  // Filtering and averaging real values

  function SumReal(s: seq<real>): real
  {
    if s == [] then 0.0 else s[0] + SumReal(s[1..])
  }

  /** `np.mean` of a non-empty list of reals. */
  function MeanReal(s: seq<real>): real
    requires |s| > 0
  {
    SumReal(s) / |s| as real
  }

  /** The mean times the number of values is their sum. */
  lemma MeanTimesCount(s: seq<real>)
    requires |s| > 0
    ensures MeanReal(s) * (|s| as real) == SumReal(s)
  {
    var n := |s| as real;
    assert (SumReal(s) / n) * n == SumReal(s);
  }

  /** `np.mean(s) if s else 0`: the mean of the values, or 0 when there are
      none; either way it times the number of values is their sum. */
  function MeanOrZero(s: seq<real>): (m: real)
    ensures s == [] ==> m == 0.0
    ensures s != [] ==> m == MeanReal(s)
    ensures m * (|s| as real) == SumReal(s)
  {
    if s == [] then 0.0
    else
      MeanTimesCount(s);
      MeanReal(s)
  }

  /** `[x for x in s if x > threshold]`: the elements above the threshold,
      in their original order. */
  function Above(s: seq<real>, threshold: real): (t: seq<real>)
    ensures |t| <= |s|
    ensures forall x :: x in t <==> x in s && x > threshold
    ensures forall x :: multiset(t)[x] == if x > threshold then multiset(s)[x] else 0
  {
    if s == [] then []
    else
      assert s == [s[0]] + s[1..];
      assert multiset(s) == multiset([s[0]]) + multiset(s[1..]);
      var head := if s[0] > threshold then [s[0]] else [];
      var t := head + Above(s[1..], threshold);
      assert multiset(t) == multiset(head) + multiset(Above(s[1..], threshold));
      t
  }

  lemma {:induction false} SumAbove(t: seq<real>, threshold: real)
    requires |t| > 0
    requires forall x :: x in t ==> x > threshold
    ensures SumReal(t) > threshold * |t| as real
  {
    assert t[0] in t;
    if |t| == 1 {
      assert t[1..] == [];
    } else {
      assert forall x :: x in t[1..] ==> x in t;
      SumAbove(t[1..], threshold);
      var m := |t[1..]| as real;
      assert threshold * |t| as real == threshold + threshold * m;
    }
  }

  /** The mean of values that all exceed a threshold exceeds it too. */
  lemma MeanAbove(t: seq<real>, threshold: real)
    requires |t| > 0
    requires forall x :: x in t ==> x > threshold
    ensures MeanReal(t) > threshold
  {
    SumAbove(t, threshold);
    var n := |t| as real;
    assert MeanReal(t) * n == SumReal(t);
  }

  // ---------------------------------------------------------------------
  // Casting reals to integers

  /** `n` is `x` with its fractional part dropped (rounded toward zero). */
  predicate IsTruncation(x: real, n: int)
  {
    if 0.0 <= x then 0 <= n && n as real <= x < n as real + 1.0
    else n <= 0 && n as real - 1.0 < x <= n as real
  }

  /** numpy's `astype(int)` on one floating-point value. */
  function TruncateToInt(x: real): (n: int)
    ensures IsTruncation(x, n)
  {
    if 0.0 <= x then x.Floor else -((-x).Floor)
  }

  /** Truncation is determined by its characterisation. */
  lemma TruncationIsUnique(x: real, m: int, n: int)
    requires IsTruncation(x, m) && IsTruncation(x, n)
    ensures m == n
  {
  }
}
