/** Decimal numerals: `str(n)` and `int(s)` in base 10 over ASCII digits, as the
  * handlers use them on request arguments and the document store on document
  * names. */
module Numerals {
  import opened Common

  predicate IsDigit(c: char)
  {
    '0' <= c <= '9'
  }

  predicate AllDigits(s: string)
  {
    forall i :: 0 <= i < |s| ==> IsDigit(s[i])
  }

  function DigitValue(c: char): (v: nat)
    requires IsDigit(c)
    ensures v < 10
  {
    c as int - '0' as int
  }

  function DigitChar(v: nat): (c: char)
    requires v < 10
    ensures IsDigit(c) && DigitValue(c) == v
  {
    ('0' as int + v) as char
  }

  /** The value of a string of decimal digits, most significant first. */
  function DigitsValue(s: string): nat
    requires AllDigits(s)
  {
    if s == [] then 0 else DigitsValue(s[..|s| - 1]) * 10 + DigitValue(s[|s| - 1])
  }

  /** `str(n)` for a natural number: no leading zeros except for 0 itself. */
  function NatToString(n: nat): (s: string)
    ensures |s| >= 1 && AllDigits(s)
    ensures |s| > 1 ==> s[0] != '0'
  {
    if n < 10 then [DigitChar(n)] else NatToString(n / 10) + [DigitChar(n % 10)]
  }

  /** `str(n)` for any integer. */
  function IntToString(n: int): string
  {
    if n < 0 then "-" + NatToString(-n) else NatToString(n)
  }

  /** The white space `int()` ignores around a numeral: the space, tab, line
    * feed, vertical tab, form feed, carriage return and the separators 0x1C to 0x1F. */
  predicate IsBlank(c: char)
  {
    c == ' ' || 9 <= c as int <= 13 || 28 <= c as int <= 31
  }

  /** The text without its leading and trailing white space. */
  function Strip(s: string): (r: string)
    ensures |r| <= |s|
    ensures r != [] ==> !IsBlank(r[0]) && !IsBlank(r[|r| - 1])
    ensures s != [] && !IsBlank(s[0]) && !IsBlank(s[|s| - 1]) ==> r == s
  {
    if s == [] then []
    else if IsBlank(s[0]) then Strip(s[1..])
    else if IsBlank(s[|s| - 1]) then Strip(s[..|s| - 1])
    else s
  }

  /** Decimal digits in which single underscores may separate two digits. */
  predicate Grouped(s: string)
  {
    |s| >= 1 && forall i :: 0 <= i < |s| ==> GroupChar(s, i)
  }

  /** Position i holds a digit, or an underscore with a digit on either side. */
  predicate GroupChar(s: string, i: int)
    requires 0 <= i < |s|
  {
    IsDigit(s[i]) || (s[i] == '_' && 0 < i < |s| - 1 && IsDigit(s[i - 1]) && IsDigit(s[i + 1]))
  }

  /** The digits of a grouped numeral, the underscores dropped. */
  function Ungrouped(s: string): (r: string)
    ensures AllDigits(r)
    ensures AllDigits(s) ==> r == s
  {
    if s == [] then []
    else if IsDigit(s[|s| - 1]) then Ungrouped(s[..|s| - 1]) + [s[|s| - 1]]
    else Ungrouped(s[..|s| - 1])
  }

  /** A plain string of digits is a grouped numeral. */
  lemma DigitsGrouped(s: string)
    requires |s| >= 1 && AllDigits(s)
    ensures Grouped(s)
  {
  }

  /** A character that is neither a digit nor an underscore between two digits spoils a numeral. */
  lemma NotGrouped(s: string, i: int)
    requires 0 <= i < |s| && !GroupChar(s, i)
    ensures !Grouped(s)
  {
  }

  /** `int(s)` in base 10: white space, then an optional sign, then digits that
    * single underscores may group, then white space; anything else is a ValueError. */
  function ParseInt(s: string): Option<int>
  {
    var t := Strip(s);
    if |t| >= 2 && (t[0] == '-' || t[0] == '+') && Grouped(t[1..]) then
      var v := DigitsValue(Ungrouped(t[1..]));
      Some(if t[0] == '-' then -(v as int) else v)
    else if Grouped(t) then Some(DigitsValue(Ungrouped(t)))
    else None
  }

  /** A plain string of digits is read as its value. */
  lemma ParseDigits(s: string)
    requires |s| >= 1 && AllDigits(s)
    ensures ParseInt(s) == Some(DigitsValue(s))
  {
    assert IsDigit(s[0]) && IsDigit(s[|s| - 1]);
    assert Strip(s) == s;
    DigitsGrouped(s);
  }

  /** A minus sign and a plain string of digits is read as the negated value. */
  lemma {:induction false} ParseNegative(d: string, v: nat)
    requires |d| >= 1 && AllDigits(d) && DigitsValue(d) == v
    ensures ParseInt("-" + d) == Some(-(v as int))
  {
    StripSigned(d);
    assert ("-" + d)[1..] == d;
    DigitsGrouped(d);
    ParseSigned("-" + d, v);
  }

  /** A stripped text of a minus sign and a grouped numeral is read as the negated value. */
  lemma ParseSigned(t: string, v: nat)
    requires Strip(t) == t && |t| >= 2 && t[0] == '-'
    requires Grouped(t[1..]) && DigitsValue(Ungrouped(t[1..])) == v
    ensures ParseInt(t) == Some(-(v as int))
  {
  }

  /** A minus sign followed by text ending in a digit has no white space to strip. */
  lemma StripSigned(d: string)
    requires |d| >= 1 && IsDigit(d[|d| - 1])
    ensures Strip("-" + d) == "-" + d
  {
    var s := "-" + d;
    assert s[0] == '-' && s[|s| - 1] == d[|d| - 1];
  }

  /** White space on either side of a numeral changes nothing. */
  lemma {:induction false} ParseIntBlank(s: string, c: char)
    requires IsBlank(c)
    ensures ParseInt([c] + s) == ParseInt(s)
    ensures ParseInt(s + [c]) == ParseInt(s)
  {
    assert ([c] + s)[1..] == s;
    StripBlankEnd(s, c);
  }

  lemma {:induction false} StripBlankEnd(s: string, c: char)
    requires IsBlank(c)
    ensures Strip(s + [c]) == Strip(s)
    decreases |s|
  {
    var t := s + [c];
    assert t[|t| - 1] == c && t[..|t| - 1] == s;
    if s != [] && IsBlank(s[0]) {
      assert t[1..] == s[1..] + [c];
      StripBlankEnd(s[1..], c);
    }
  }

  /** `int()` skips white space around the numeral. */
  lemma IntAcceptsBlanks()
    ensures ParseInt(" 3") == Some(3) && ParseInt("3\n") == Some(3)
  {
    DigitsGrouped("3");
    assert Strip(" 3") == "3";
    assert Strip("3\n") == "3";
  }

  /** `int()` takes a leading sign. */
  lemma IntAcceptsSigns()
    ensures ParseInt("+3") == Some(3) && ParseInt("-3") == Some(-3)
  {
    SignedThree("+3");
    SignedThree("-3");
  }

  lemma SignedThree(t: string)
    requires t == "+3" || t == "-3"
    ensures ParseInt(t) == Some(if t[0] == '-' then -3 else 3)
  {
    assert Strip(t) == t;
    assert t[1..] == "3";
    DigitsGrouped("3");
    ThreeValue();
  }

  lemma ThreeValue()
    ensures Ungrouped("3") == "3" && DigitsValue("3") == 3
  {
    assert "3"[..0] == [];
  }

  /** `int()` takes underscores between digits. */
  lemma IntAcceptsGroups()
    ensures ParseInt("1_0") == Some(10)
  {
    assert Strip("1_0") == "1_0";
    TenGrouped();
    TenValue();
  }

  lemma TenGrouped()
    ensures Grouped("1_0")
  {
    assert GroupChar("1_0", 0) && GroupChar("1_0", 1) && GroupChar("1_0", 2);
  }

  lemma TenValue()
    ensures Ungrouped("1_0") == "10" && DigitsValue("10") == 10
  {
    assert "1_0"[..2] == "1_" && "1_"[..1] == "1" && "1"[..0] == [];
    assert "10"[..1] == "1";
  }

  /** `int()` takes leading zeros. */
  lemma IntAcceptsZeros()
    ensures ParseInt("007") == Some(7)
  {
    assert Strip("007") == "007";
    DigitsGrouped("007");
    assert "007"[..2] == "00" && "00"[..1] == "0" && "0"[..0] == [];
    assert DigitsValue("007") == 7;
  }

  /** `int()` refuses empty text, a lone sign, misplaced underscores and other characters. */
  lemma IntRefuses()
    ensures ParseInt("") == None && ParseInt(" ") == None && ParseInt("+") == None
    ensures ParseInt("1__0") == None && ParseInt("_1") == None && ParseInt("1_") == None
    ensures ParseInt("abc") == None && ParseInt("3.0") == None
  {
    NotGrouped("1__0", 1);
    NotGrouped("_1", 0);
    NotGrouped("1_", 1);
    NotGrouped("3.0", 1);
    NotGrouped("abc", 0);
    NotGrouped("+", 0);
  }

  lemma {:induction false} NatToStringValue(n: nat)
    ensures DigitsValue(NatToString(n)) == n
  {
    if n >= 10 {
      var s := NatToString(n);
      NatToStringValue(n / 10);
      assert s[..|s| - 1] == NatToString(n / 10);
      assert s[|s| - 1] == DigitChar(n % 10);
    }
  }

  /** `int(str(n)) == n` */
  lemma {:induction false} IntRoundTrip(n: int)
    ensures ParseInt(IntToString(n)) == Some(n)
  {
    if n < 0 {
      NegativeRoundTrip(-n);
    } else {
      NaturalRoundTrip(n);
    }
  }

  lemma NegativeRoundTrip(m: nat)
    ensures ParseInt("-" + NatToString(m)) == Some(-(m as int))
  {
    NatToStringValue(m);
    ParseNegative(NatToString(m), m);
  }

  lemma NaturalRoundTrip(m: nat)
    ensures ParseInt(NatToString(m)) == Some(m)
  {
    NatToStringValue(m);
    ParseDigits(NatToString(m));
  }

  /** Distinct ids give distinct document names. */
  lemma IntToStringInjective(a: int, b: int)
    requires IntToString(a) == IntToString(b)
    ensures a == b
  {
    IntRoundTrip(a);
    IntRoundTrip(b);
  }

  /** Zero-padded two-digit rendering, as `%02d`. */
  function Pad2(n: nat): (s: string)
    requires n < 100
    ensures |s| == 2 && AllDigits(s)
  {
    [DigitChar(n / 10), DigitChar(n % 10)]
  }

  /** Zero-padded four-digit rendering, as `%04d`. */
  function Pad4(n: nat): (s: string)
    requires n < 10000
    ensures |s| == 4 && AllDigits(s)
  {
    Pad2(n / 100) + Pad2(n % 100)
  }

  lemma Pad2Value(n: nat)
    requires n < 100
    ensures DigitsValue(Pad2(n)) == n
  {
    var s := Pad2(n);
    assert s[..1] == [DigitChar(n / 10)];
    assert s[..1][..0] == [];
    assert DigitsValue(s[..1]) == n / 10;
    assert DigitsValue(s) == (n / 10) * 10 + n % 10;
  }

  lemma Pad4Value(n: nat)
    requires n < 10000
    ensures DigitsValue(Pad4(n)) == n
  {
    var s := Pad4(n);
    var hi, lo := n / 100, n % 100;
    assert s[..3] == Pad2(hi) + [DigitChar(lo / 10)];
    assert s[..3][..2] == Pad2(hi);
    Pad2Value(hi);
  }

  function Pow10(n: nat): (r: nat)
    ensures r >= 1
  {
    if n == 0 then 1 else 10 * Pow10(n - 1)
  }

  /** Digits written one after the other: the first run's value shifts left by the second's length. */
  lemma {:induction false} DigitsAppend(a: string, b: string)
    requires AllDigits(a) && AllDigits(b)
    ensures AllDigits(a + b)
    ensures DigitsValue(a + b) == DigitsValue(a) * Pow10(|b|) + DigitsValue(b)
    decreases |b|
  {
    var c := a + b;
    assert AllDigits(c) by {
      forall i | 0 <= i < |c| ensures IsDigit(c[i]) {
        if i < |a| { assert c[i] == a[i]; } else { assert c[i] == b[i - |a|]; }
      }
    }
    if b == [] {
      assert c == a;
    } else {
      var n := |b| - 1;
      assert c[..|c| - 1] == a + b[..n] && c[|c| - 1] == b[n];
      assert AllDigits(b[..n]) by {
        forall i | 0 <= i < n ensures IsDigit(b[..n][i]) { assert b[..n][i] == b[i]; }
      }
      DigitsAppend(a, b[..n]);
      var x, p, y, d := DigitsValue(a), Pow10(n), DigitsValue(b[..n]), DigitValue(b[n]);
      assert DigitsValue(c) == DigitsValue(a + b[..n]) * 10 + d;
      assert DigitsValue(b) == y * 10 + d;
      ShiftStep(x, p, y, d);
    }
  }

  lemma ShiftStep(x: nat, p: nat, y: nat, d: nat)
    ensures (x * p + y) * 10 + d == x * (10 * p) + (y * 10 + d)
  {
  }

  /** Zero-padded six-digit rendering, as `%06d`. */
  function Pad6(n: nat): (s: string)
    requires n < 1000000
    ensures |s| == 6 && AllDigits(s)
  {
    Pad2(n / 10000) + Pad4(n % 10000)
  }

  lemma Pad6Value(n: nat)
    requires n < 1000000
    ensures DigitsValue(Pad6(n)) == n
  {
    Pad2Value(n / 10000);
    Pad4Value(n % 10000);
    DigitsAppend(Pad2(n / 10000), Pad4(n % 10000));
    assert Pow10(4) == 10000;
  }
}
