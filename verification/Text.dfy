/**
 * String helpers with Python's meaning: `str(n)` for a status code, slicing `s[:n]`,
 * and `sep.join(parts)`.
 */
module Text {
  import opened Wrappers

  predicate IsDigit(c: char) { '0' <= c <= '9' }

  predicate AllDigits(s: string) { forall i :: 0 <= i < |s| ==> IsDigit(s[i]) }

  function DigitChar(d: nat): (c: char)
    requires d < 10
    ensures IsDigit(c) && c as int - '0' as int == d
  {
    ('0' as int + d) as char
  }

  /** The decimal rendering of a non-negative integer, as Python's f-string `{n}` gives it. */
  function Decimal(n: nat): (r: string)
    ensures |r| >= 1 && AllDigits(r)
    ensures r[0] == '0' ==> n == 0
  {
    if n < 10 then [DigitChar(n)] else Decimal(n / 10) + [DigitChar(n % 10)]
  }

  /** Reads a string of decimal digits back as a number. */
  function ParseDecimal(s: string): nat
    requires AllDigits(s)
  {
    if s == [] then 0 else ParseDecimal(s[..|s| - 1]) * 10 + (s[|s| - 1] as int - '0' as int)
  }

  lemma {:induction false} DecimalRoundTrip(n: nat)
    ensures ParseDecimal(Decimal(n)) == n
  {
    if n >= 10 {
      var d := Decimal(n);
      assert d[..|d| - 1] == Decimal(n / 10);
      DecimalRoundTrip(n / 10);
    }
  }

  /** The number behind a message of the form `prefix + str(code)`, if `s` has that form. */
  function ParseCode(prefix: string, s: string): Option<nat>
  {
    if |prefix| < |s| && s[..|prefix|] == prefix && AllDigits(s[|prefix|..])
    then Some(ParseDecimal(s[|prefix|..]))
    else None
  }

  /** A message built as `prefix + str(code)` names its code unambiguously. */
  lemma CodeRoundTrip(prefix: string, n: nat)
    ensures ParseCode(prefix, prefix + Decimal(n)) == Some(n)
  {
    var s := prefix + Decimal(n);
    assert s[..|prefix|] == prefix;
    assert s[|prefix|..] == Decimal(n);
    DecimalRoundTrip(n);
  }

  /** Python's slice `s[:n]`: the longest prefix of `s` that has at most `n` elements. */
  function Take<T>(s: seq<T>, n: nat): (r: seq<T>)
    ensures r <= s
    ensures |r| == if |s| < n then |s| else n
  {
    if |s| <= n then s else s[..n]
  }

  lemma AppendAssociative<T>(a: seq<T>, b: seq<T>, c: seq<T>)
    ensures (a + b) + c == a + (b + c)
  {
  }

  /** The first `|a| + k` elements of `a + b` are `a` followed by the first `k` of `b`. */
  lemma PrefixOfAppend<T>(a: seq<T>, b: seq<T>, k: nat)
    requires k <= |b|
    ensures (a + b)[..|a| + k] == a + b[..k]
  {
  }

  /** Python's `sep.join(parts)`. */
  function Join(parts: seq<string>, sep: string): string
  {
    if parts == [] then ""
    else if |parts| == 1 then parts[0]
    else parts[0] + sep + Join(parts[1..], sep)
  }
}
