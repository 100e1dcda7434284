/** String helpers shared by the stream and scanner models: first-index search, joins and decimal numerals. */
module Text {
  import opened Options

  /** Position of the first `c` in `s`, or -1. */
  function IndexOf(s: string, c: char): (i: int)
    ensures -1 <= i < |s|
    ensures i == -1 ==> c !in s
    ensures i >= 0 ==> s[i] == c && c !in s[..i]
  {
    if s == [] then -1
    else if s[0] == c then 0
    else
      var r := IndexOf(s[1..], c);
      if r == -1 then -1 else r + 1
  }

  /** The first index is the only one with no earlier occurrence. */
  lemma {:induction false} IndexOfUnique(s: string, c: char, i: nat)
    requires i < |s| && s[i] == c && c !in s[..i]
    ensures IndexOf(s, c) == i
  {
    if i > 0 {
      assert s[..i][0] == s[0];
      assert s[1..][..i - 1] == s[..i][1..];
      IndexOfUnique(s[1..], c, i - 1);
    }
  }

  function Concat(chunks: seq<string>): string {
    if chunks == [] then "" else chunks[0] + Concat(chunks[1..])
  }

  function Join(parts: seq<string>, sep: string): string {
    if parts == [] then ""
    else if |parts| == 1 then parts[0]
    else parts[0] + sep + Join(parts[1..], sep)
  }

  // ---- decimal numerals -----------------------------------------------------------------------

  predicate IsDigit(c: char) { '0' <= c <= '9' }

  function DigitChar(d: nat): (c: char)
    requires d < 10
    ensures IsDigit(c)
  {
    '0' + (d as char)
  }

  function DigitValue(c: char): (d: nat)
    requires IsDigit(c)
    ensures d < 10
  {
    c as int - '0' as int
  }

  /** `String(n)` of a non-negative integer. */
  function Decimal(n: nat): (s: string)
    ensures |s| > 0
    ensures forall c :: c in s ==> IsDigit(c)
  {
    if n < 10 then [DigitChar(n)] else Decimal(n / 10) + [DigitChar(n % 10)]
  }

  predicate AllDigits(s: string) { forall c :: c in s ==> IsDigit(c) }

  function DigitsValue(s: string): nat
    requires AllDigits(s)
  {
    if s == "" then 0
    else
      assert s[|s| - 1] in s;
      assert AllDigits(s[..|s| - 1]) by { forall c | c in s[..|s| - 1] ensures c in s {} }
      10 * DigitsValue(s[..|s| - 1]) + DigitValue(s[|s| - 1])
  }

  /** `Number(text)` restricted to plain decimal numerals; anything else is `None`. */
  function ParseDecimal(s: string): Option<nat> {
    if s != "" && AllDigits(s) then Some(DigitsValue(s)) else None
  }

  lemma {:induction false} DecimalRoundTrip(n: nat)
    ensures ParseDecimal(Decimal(n)) == Some(n)
  {
    var s := Decimal(n);
    assert AllDigits(s);
    if n < 10 {
      assert s[..|s| - 1] == "";
      assert DigitsValue(s) == n;
    } else {
      DecimalRoundTrip(n / 10);
      assert s[..|s| - 1] == Decimal(n / 10);
    }
  }
}
