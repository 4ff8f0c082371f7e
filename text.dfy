/** String helpers: Python's `"".join`, decimal rendering of integers
    (`str(n)` / `f"{n}"`), the `repr` of a list of strings and `str(None)`,
    together with the facts about them that the rest of the model uses. */
module Text {
  import opened Wrappers

  /** `"".join(parts)` */
  function Concat(parts: seq<string>): string
  {
    if parts == [] then "" else parts[0] + Concat(parts[1..])
  }

  lemma ConcatFour(a: string, b: string, c: string, d: string)
    ensures Concat([a, b, c, d]) == a + b + c + d
  {
    assert [d][1..] == [];
    assert Concat([d]) == d;
    assert [c, d][1..] == [d];
    assert Concat([c, d]) == c + d;
    assert [b, c, d][1..] == [c, d];
    assert Concat([b, c, d]) == b + (c + d);
    assert [a, b, c, d][1..] == [b, c, d];
    assert Concat([a, b, c, d]) == a + (b + (c + d));
  }

  predicate StartsWith(s: string, prefix: string)
  {
    |prefix| <= |s| && s[..|prefix|] == prefix
  }

  /** `t` occurs in `s` starting at index `i`. */
  predicate OccursAt(s: string, t: string, i: int)
  {
    0 <= i && i + |t| <= |s| && s[i..i + |t|] == t
  }

  predicate Contains(s: string, t: string)
  {
    exists i | 0 <= i <= |s| :: OccursAt(s, t, i)
  }

  lemma OccursAfterPrefix(p: string, t: string)
    ensures OccursAt(p + t, t, |p|)
  {
    assert (p + t)[|p|..|p| + |t|] == t;
  }

  lemma OccursAtExtend(s: string, t: string, i: int, u: string)
    requires OccursAt(s, t, i)
    ensures OccursAt(s + u, t, i)
  {
    assert (s + u)[i..i + |t|] == s[i..i + |t|];
  }

  lemma OccursShift(p: string, s: string, t: string, i: int)
    requires OccursAt(s, t, i)
    ensures OccursAt(p + s, t, |p| + i)
  {
    assert (p + s)[|p| + i..|p| + i + |t|] == s[i..i + |t|];
  }

  lemma StartsWithExtend(s: string, prefix: string, u: string)
    requires StartsWith(s, prefix)
    ensures StartsWith(s + u, prefix)
  {
    assert (s + u)[..|prefix|] == s[..|prefix|];
  }

  lemma StartsWithTransitive(s: string, p: string, q: string)
    requires StartsWith(s, p) && StartsWith(p, q)
    ensures StartsWith(s, q)
  {
    assert s[..|q|] == s[..|p|][..|q|];
  }

  predicate IsDigit(c: char)
  {
    '0' <= c <= '9'
  }

  predicate AllDigits(s: string)
  {
    forall i :: 0 <= i < |s| ==> IsDigit(s[i])
  }

  function DigitChar(d: nat): (c: char)
    requires d < 10
    ensures IsDigit(c) && c as int - '0' as int == d
  {
    ('0' as int + d) as char
  }

  /** The value of a string of decimal digits, most significant first. */
  function DecimalValue(s: string): nat
    requires AllDigits(s)
  {
    if s == [] then 0
    else DecimalValue(s[..|s| - 1]) * 10 + (s[|s| - 1] as int - '0' as int)
  }

  /** `str(n)` for a non-negative integer: its decimal digits, without
      leading zeros. */
  function NatToString(n: nat): (s: string)
    ensures |s| > 0 && AllDigits(s)
    ensures |s| > 1 ==> s[0] != '0'
  {
    if n < 10 then [DigitChar(n)] else NatToString(n / 10) + [DigitChar(n % 10)]
  }

  /** The rendering of a number of two or more digits is the rendering of
      the number without its last digit, followed by that digit. */
  lemma NatToStringStep(n: nat, prefix: nat, last: nat)
    requires n >= 10 && prefix == n / 10 && last == n % 10
    ensures NatToString(n) == NatToString(prefix) + [DigitChar(last)]
  {
  }

  /** Reading the rendered digits back gives the number: `NatToString` is
      the decimal notation of `n`. */
  lemma {:induction false} NatToStringRoundTrip(n: nat)
    ensures DecimalValue(NatToString(n)) == n
  {
    if n >= 10 {
      NatToStringRoundTrip(n / 10);
      var s := NatToString(n);
      assert s[..|s| - 1] == NatToString(n / 10);
    }
  }

  /** Distinct numbers render to distinct strings. */
  lemma NatToStringInjective(m: nat, n: nat)
    requires NatToString(m) == NatToString(n)
    ensures m == n
  {
    NatToStringRoundTrip(m);
    NatToStringRoundTrip(n);
  }

  /** `str(o)` of an optional string: Python prints a missing value as `None`. */
  function ShowOptional(o: Option<string>): string
  {
    match o
    case None => "None"
    case Some(s) => s
  }

  /** The items of `repr(list_of_str)` without the brackets. */
  function QuotedItems(items: seq<string>): string
  {
    if items == [] then ""
    else if |items| == 1 then "'" + items[0] + "'"
    else "'" + items[0] + "', " + QuotedItems(items[1..])
  }

  /** `repr(items)` for a list of strings that contain no quote or backslash. */
  function ListRepr(items: seq<string>): string
  {
    "[" + QuotedItems(items) + "]"
  }
}
