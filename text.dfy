/** Character-level string operations shared by the blog and configuration models. */
module Text {

  /** `s` with every occurrence of `from` replaced by `to`: what Rust's
      `str::replace` does when both patterns are one character long. */
  function ReplaceChar(s: string, from: char, to: char): (r: string)
    ensures |r| == |s|
    ensures forall i :: 0 <= i < |s| ==> r[i] == (if s[i] == from then to else s[i])
  {
    if s == [] then []
    else [if s[0] == from then to else s[0]] + ReplaceChar(s[1..], from, to)
  }

  /** Position of the first `c` in `s`, or `|s|` when there is none. */
  function IndexOf(s: string, c: char): (k: nat)
    ensures k <= |s|
    ensures k < |s| ==> s[k] == c
    ensures forall j :: 0 <= j < k ==> s[j] != c
  {
    if s == [] then 0
    else if s[0] == c then 0
    else 1 + IndexOf(s[1..], c)
  }

  lemma {:induction false} IndexOfAfterPrefix(a: string, c: char, b: string)
    requires c !in a
    ensures IndexOf(a + [c] + b, c) == |a|
  {
    var s := a + [c] + b;
    assert s[|a|] == c;
    assert forall j :: 0 <= j < |a| ==> s[j] == a[j];
  }

  /** `s` split around its first `c`, if it has one. */
  function SplitAtFirst(s: string, c: char): (r: (bool, string, string))
    ensures r.0 <==> c in s
    ensures r.0 ==> s == r.1 + [c] + r.2 && c !in r.1
  {
    var k := IndexOf(s, c);
    if k == |s| then (false, s, "")
    else
      assert s == s[..k] + [c] + s[k + 1..];
      (true, s[..k], s[k + 1..])
  }

  lemma {:induction false} SplitAfterPrefix(a: string, c: char, b: string)
    requires c !in a
    ensures SplitAtFirst(a + [c] + b, c) == (true, a, b)
  {
    var s := a + [c] + b;
    IndexOfAfterPrefix(a, c, b);
    assert s[..|a|] == a;
    assert s[|a| + 1..] == b;
  }

  function DigitChar(d: nat): (c: char)
    requires d < 10
    ensures '0' <= c <= '9'
    ensures c as int - '0' as int == d
  {
    ['0', '1', '2', '3', '4', '5', '6', '7', '8', '9'][d]
  }

  predicate IsDigit(c: char) { '0' <= c <= '9' }

  predicate AllDigits(s: string) { forall i :: 0 <= i < |s| ==> IsDigit(s[i]) }

  /** Decimal digits of `n`, most significant first, with no leading zero. */
  function Digits(n: nat): (r: string)
    ensures |r| >= 1
    ensures AllDigits(r)
    ensures |r| > 1 ==> r[0] != '0'
  {
    if n < 10 then [DigitChar(n)] else Digits(n / 10) + [DigitChar(n % 10)]
  }

  /** Value of a string of decimal digits, most significant first. */
  function DigitsValue(s: string): (n: int)
    requires AllDigits(s)
  {
    if s == [] then 0
    else 10 * DigitsValue(s[..|s| - 1]) + (s[|s| - 1] as int - '0' as int)
  }

  /** Rust's `Display` of an integer: an optional `-` and the decimal digits. */
  function DecimalString(n: int): (r: string)
    ensures |r| >= 1
    ensures r[0] == '-' <==> n < 0
    ensures n < 0 ==> AllDigits(r[1..]) && (|r| > 2 ==> r[1] != '0')
    ensures n >= 0 ==> AllDigits(r) && (|r| > 1 ==> r[0] != '0')
  {
    if n < 0 then "-" + Digits(-n) else Digits(n)
  }

  /** Reads back what `DecimalString` writes. */
  function ParseDecimal(s: string): (r: int)
  {
    if |s| > 0 && s[0] == '-' && AllDigits(s[1..]) then
      -DigitsValue(s[1..])
    else if AllDigits(s) then
      DigitsValue(s)
    else
      0
  }

  lemma {:induction false} DigitsRoundTrip(n: nat)
    ensures DigitsValue(Digits(n)) == n
  {
    var s := Digits(n);
    if n >= 10 {
      DigitsRoundTrip(n / 10);
      assert s[..|s| - 1] == Digits(n / 10);
    }
  }

  /** Every id string the index page shows reads back as the id it came from,
      so distinct ids give distinct strings. */
  lemma {:induction false} DecimalRoundTrip(n: int)
    ensures ParseDecimal(DecimalString(n)) == n
  {
    if n < 0 {
      NegativeRoundTrip(n);
    } else {
      var d := Digits(n);
      assert DecimalString(n) == d && d[0] != '-';
      DigitsRoundTrip(n);
    }
  }

  lemma {:induction false} NegativeRoundTrip(n: int)
    requires n < 0
    ensures ParseDecimal(DecimalString(n)) == n
  {
    var s := DecimalString(n);
    var d := Digits(-n);
    assert s[0] == '-' && s[1..] == d by {
      assert s == "-" + d;
    }
    assert ParseDecimal(s) == -DigitsValue(d);
    DigitsRoundTrip(-n);
  }
}
