/** Decimal numerals: how Python writes integers into query text and report
    messages, how the query text is read back, and how pandas coerces a
    string cell to a number (`pd.to_numeric(..., errors='coerce')`). */
module Text {
  import opened Outcomes

  predicate IsDigit(c: char) { '0' <= c <= '9' }

  predicate AllDigits(s: string) { forall i :: 0 <= i < |s| ==> IsDigit(s[i]) }

  function DigitValue(c: char): nat
    requires IsDigit(c)
  {
    c as int - '0' as int
  }

  function DigitChar(d: nat): (c: char)
    requires d < 10
    ensures IsDigit(c) && DigitValue(c) == d
  {
    ('0' as int + d) as char
  }

  /** The numeral of `n`, as `str(n)` writes it: no sign, no leading zero. */
  function NatToString(n: nat): (s: string)
    ensures |s| > 0 && AllDigits(s)
    decreases n
  {
    if n < 10 then [DigitChar(n)] else NatToString(n / 10) + [DigitChar(n % 10)]
  }

  /** The numeral of `i`, as an f-string writes an `int`. */
  function IntToString(i: int): (s: string)
    ensures |s| > 0
    ensures s[0] == '-' <==> i < 0
  {
    if i < 0 then "-" + NatToString(-i) else NatToString(i)
  }

  /** The value of a run of digits, most significant first. */
  function DigitsValue(s: string): nat
    requires AllDigits(s)
  {
    if s == [] then 0 else DigitsValue(s[..|s| - 1]) * 10 + DigitValue(s[|s| - 1])
  }

  function Pow10(k: nat): (p: nat)
    ensures p >= 1
  {
    if k == 0 then 1 else 10 * Pow10(k - 1)
  }

  /** Reading a numeral back gives the number that was written. */
  lemma {:induction false} DigitsValueOfNatToString(n: nat)
    ensures DigitsValue(NatToString(n)) == n
  {
    if n >= 10 {
      var s := NatToString(n);
      assert s[..|s| - 1] == NatToString(n / 10);
      DigitsValueOfNatToString(n / 10);
    }
  }

  /** The length of the longest run of digits at the front of `s`. */
  function LeadingDigits(s: string): (k: nat)
    ensures k <= |s|
    ensures AllDigits(s[..k])
    ensures k < |s| ==> !IsDigit(s[k])
  {
    if s == [] || !IsDigit(s[0]) then 0
    else
      var k := 1 + LeadingDigits(s[1..]);
      assert s[..k] == [s[0]] + s[1..][..k - 1];
      k
  }

  /** A numeral followed by text that does not start with a digit is read
      up to its last digit and no further. */
  lemma {:induction false} LeadingDigitsOfNumeral(d: string, t: string)
    requires AllDigits(d)
    requires t == [] || !IsDigit(t[0])
    ensures LeadingDigits(d + t) == |d|
  {
    if d != [] {
      assert (d + t)[1..] == d[1..] + t;
      LeadingDigitsOfNumeral(d[1..], t);
    }
  }

  /** Reads an optional minus sign and a run of digits at the front of `s`,
      giving the integer and the text after it; None when no digit comes. */
  function ReadInt(s: string): (r: Option<(int, string)>)
    ensures r.Some? ==> |r.value.1| < |s|
  {
    var neg := |s| > 0 && s[0] == '-';
    var body := if neg then s[1..] else s;
    var k := LeadingDigits(body);
    if k == 0 then None
    else
      var v: int := DigitsValue(body[..k]);
      Some((if neg then -v else v, body[k..]))
  }

  /** Reading back what `IntToString` wrote gives the same integer and
      leaves exactly the text that followed it. */
  lemma ReadIntOfIntToString(i: int, t: string)
    requires t == [] || !IsDigit(t[0])
    ensures ReadInt(IntToString(i) + t) == Some((i, t))
  {
    if i < 0 {
      ReadIntOfNegative(-i, t);
    } else {
      ReadIntOfNatural(i, t);
    }
  }

  lemma ReadIntOfNatural(n: nat, t: string)
    requires t == [] || !IsDigit(t[0])
    ensures ReadInt(NatToString(n) + t) == Some((n, t))
  {
    var d := NatToString(n);
    LeadingDigitsOfNumeral(d, t);
    assert (d + t)[..|d|] == d && (d + t)[|d|..] == t;
    DigitsValueOfNatToString(n);
  }

  lemma ReadIntOfNegative(n: nat, t: string)
    requires n > 0
    requires t == [] || !IsDigit(t[0])
    ensures ReadInt("-" + NatToString(n) + t) == Some((-(n as int), t))
  {
    var d := NatToString(n);
    var s := "-" + d + t;
    assert s[1..] == d + t;
    LeadingDigitsOfNumeral(d, t);
    assert (d + t)[..|d|] == d && (d + t)[|d|..] == t;
    DigitsValueOfNatToString(n);
  }

  /** A character that can occur in a decimal numeral at all. */
  predicate IsNumeralChar(c: char) { IsDigit(c) || c == '.' || c == '-' || c == '+' }

  /** `pd.to_numeric(cell, errors='coerce')` for one string cell: an optional
      sign, digits and an optional fraction (at least one digit in all) give
      that number; anything else gives null (NaN) instead of raising. */
  function ToNumeric(s: string): Option<real>
  {
    var neg := |s| > 0 && s[0] == '-';
    var body := if |s| > 0 && (s[0] == '-' || s[0] == '+') then s[1..] else s;
    var k := LeadingDigits(body);
    var whole := DigitsValue(body[..k]) as real;
    var tail := body[k..];
    if tail == [] then
      if k == 0 then None else Some(if neg then -whole else whole)
    else if tail[0] != '.' || !AllDigits(tail[1..]) || (k == 0 && |tail| == 1) then None
    else
      var v := whole + DigitsValue(tail[1..]) as real / Pow10(|tail| - 1) as real;
      Some(if neg then -v else v)
  }

  /** Coercion reads an integer numeral back as the integer. */
  lemma ToNumericOfIntToString(i: int)
    ensures ToNumeric(IntToString(i)) == Some(i as real)
  {
    var n: nat := if i < 0 then -i else i;
    var d := NatToString(n);
    var s := IntToString(i);
    var body := if i < 0 then s[1..] else s;
    assert body == d + [];
    LeadingDigitsOfNumeral(d, []);
    assert body[..|d|] == d;
    DigitsValueOfNatToString(n);
  }

  /** A cell holding any character that cannot occur in a numeral (a letter,
      a space, a second kind of punctuation) is coerced to null. */
  lemma ToNumericRejectsForeignChar(s: string, i: nat)
    requires i < |s| && !IsNumeralChar(s[i])
    ensures ToNumeric(s) == None
  {
    var signed := |s| > 0 && (s[0] == '-' || s[0] == '+');
    var body := if signed then s[1..] else s;
    var j := if signed then i - 1 else i;
    assert 0 <= j < |body| && body[j] == s[i];
    var k := LeadingDigits(body);
    var tail := body[k..];
    assert j >= k by {
      assert !IsDigit(body[j]);
      forall m | 0 <= m < k ensures IsDigit(body[m]) {
        assert body[..k][m] == body[m];
      }
    }
    assert tail[j - k] == s[i];
    if j > k {
      assert tail[1..][j - k - 1] == s[i];
    }
  }
}
