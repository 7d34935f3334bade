/** Naive `datetime` values as `datetime.fromisoformat` reads them and
  * `datetime.isoformat()` writes them. The text is a date YYYY-MM-DD,
  * optionally followed by any one separator character and a time of day
  * HH[:MM[:SS[.fff[fff]]]]. */
module IsoTimes {
  import opened Common
  import opened Numerals
  import opened Dates

  datatype TimeOfDay = TimeOfDay(hour: int, minute: int, second: int, micro: int)

  predicate ValidTime(t: TimeOfDay)
  {
    0 <= t.hour < 24 && 0 <= t.minute < 60 && 0 <= t.second < 60 && 0 <= t.micro < 1000000
  }

  /** A `datetime` without a time zone. */
  datatype Naive = Naive(date: Date, time: TimeOfDay)

  /** A value `datetime` can hold. */
  type Stamp = n: Naive | ValidDate(n.date) && ValidTime(n.time)
    witness Naive(Date(1, 1, 1), TimeOfDay(0, 0, 0, 0))

  const Midnight := TimeOfDay(0, 0, 0, 0)

  /** The time part; None where `fromisoformat` raises ValueError: a length
    * other than HH, HH:MM, HH:MM:SS, HH:MM:SS.fff or HH:MM:SS.ffffff, a
    * wrong separator, a non-digit, or a field out of range. Three fraction
    * digits are milliseconds. */
  function ParseTime(t: string): (r: Option<TimeOfDay>)
    ensures r.Some? ==> ValidTime(r.value)
    ensures r.Some? ==> |t| in {2, 5, 8, 12, 15}
  {
    if |t| != 2 && |t| != 5 && |t| != 8 && |t| != 12 && |t| != 15 then None
    else if !AllDigits(t[..2]) then None
    else if |t| >= 5 && !(t[2] == ':' && AllDigits(t[3..5])) then None
    else if |t| >= 8 && !(t[5] == ':' && AllDigits(t[6..8])) then None
    else if |t| >= 12 && !(t[8] == '.' && AllDigits(t[9..])) then None
    else
      var time := TimeOfDay(
        DigitsValue(t[..2]),
        if |t| >= 5 then DigitsValue(t[3..5]) else 0,
        if |t| >= 8 then DigitsValue(t[6..8]) else 0,
        if |t| == 12 then DigitsValue(t[9..]) * 1000 else if |t| == 15 then DigitsValue(t[9..]) else 0);
      if ValidTime(time) then Some(time) else None
  }

  /** `datetime.fromisoformat(s)` for text without a UTC offset: the first ten
    * characters are the date, and a longer text continues with one separator
    * character and the time. A date alone is midnight. */
  function FromIsoFormat(s: string): (r: Option<Stamp>)
    ensures r.Some? ==> |s| >= 10 && ParseIso(s[..10]) == Some(r.value.date)
    ensures r.Some? && |s| == 10 ==> r.value.time == Midnight
    ensures r.Some? && |s| > 10 ==> ParseTime(s[11..]) == Some(r.value.time)
  {
    if |s| < 10 then None
    else match ParseIso(s[..10])
      case None => None
      case Some(day) =>
        if |s| == 10 then var n: Stamp := Naive(day, Midnight); Some(n)
        else match ParseTime(s[11..])
          case None => None
          case Some(time) => var n: Stamp := Naive(day, time); Some(n)
  }

  /** The time part `isoformat()` writes: HH:MM:SS, and six fraction digits
    * only when the microseconds are not zero. */
  function TimeFormat(t: TimeOfDay): (s: string)
    requires ValidTime(t)
    ensures |s| == 8 || |s| == 15
  {
    Pad2(t.hour) + ":" + Pad2(t.minute) + ":" + Pad2(t.second)
    + (if t.micro == 0 then "" else "." + Pad6(t.micro))
  }

  /** `datetime.isoformat()`: the date, a 'T' and the time. */
  function IsoFormatStamp(n: Stamp): (s: string)
    ensures |s| == 19 || |s| == 26
  {
    IsoFormat(n.date) + "T" + TimeFormat(n.time)
  }

  /** The shape of every text `isoformat()` writes: 'T' as separator, no
    * fraction or six fraction digits that are not all zero. */
  predicate IsoLayout(s: string)
  {
    |s| >= 19 && s[10] == 'T' && (|s| == 19 || (|s| == 26 && s[19..] != ".000000"))
  }

  lemma Pad6OfDigits(t: string)
    requires |t| == 6 && AllDigits(t)
    ensures DigitsValue(t) < 1000000 && Pad6(DigitsValue(t)) == t
  {
    var hi, lo := t[..2], t[2..];
    assert t == hi + lo;
    Pad2OfDigits(hi);
    Pad4OfDigits(lo);
    DigitsAppend(hi, lo);
    assert Pow10(4) == 10000;
    var a, b := DigitsValue(hi), DigitsValue(lo);
    assert DigitsValue(t) == a * 10000 + b;
    assert (a * 10000 + b) / 10000 == a && (a * 10000 + b) % 10000 == b;
  }

  /** Six zero digits are the only six digits worth nothing. */
  lemma ZeroFraction(t: string)
    requires |t| == 6 && AllDigits(t)
    ensures DigitsValue(t) == 0 <==> t == "000000"
  {
    Pad6OfDigits(t);
    if t == "000000" {
      Pad6Value(0);
      assert Pad6(0) == "000000";
    }
  }

  /** What `isoformat()` writes for the time, the time parser reads back. */
  lemma TimeRoundTrip(t: TimeOfDay)
    requires ValidTime(t)
    ensures ParseTime(TimeFormat(t)) == Some(t)
  {
    var s := TimeFormat(t);
    assert s[..2] == Pad2(t.hour) && s[3..5] == Pad2(t.minute) && s[6..8] == Pad2(t.second);
    Pad2Value(t.hour);
    Pad2Value(t.minute);
    Pad2Value(t.second);
    if t.micro != 0 {
      assert s[9..] == Pad6(t.micro);
      Pad6Value(t.micro);
    }
  }

  /** A date followed by any one separator character and an `isoformat()`
    * time reads back as that date and time. */
  lemma SeparatorRoundTrip(n: Stamp, sep: char)
    ensures FromIsoFormat(IsoFormat(n.date) + [sep] + TimeFormat(n.time)) == Some(n)
  {
    var s := IsoFormat(n.date) + [sep] + TimeFormat(n.time);
    assert s[..10] == IsoFormat(n.date) && s[11..] == TimeFormat(n.time);
    ParseIsoRoundTrip(n.date);
    TimeRoundTrip(n.time);
  }

  /** `fromisoformat(x.isoformat()) == x`. */
  lemma IsoRoundTrip(n: Stamp)
    ensures FromIsoFormat(IsoFormatStamp(n)) == Some(n)
  {
    SeparatorRoundTrip(n, 'T');
  }

  /** A date's own isoformat reads back as that date at midnight. */
  lemma DateRoundTrip(d: Date)
    requires ValidDate(d)
    ensures FromIsoFormat(IsoFormat(d)).Some?
    ensures FromIsoFormat(IsoFormat(d)).value == Naive(d, Midnight)
  {
    ParseIsoRoundTrip(d);
    assert IsoFormat(d)[..10] == IsoFormat(d);
  }

  /** Writing back a parsed text gives the text exactly when it already has
    * the layout `isoformat()` writes. */
  lemma IsoCanonical(s: string)
    requires FromIsoFormat(s).Some?
    ensures IsoFormatStamp(FromIsoFormat(s).value) == s <==> IsoLayout(s)
  {
    var n := FromIsoFormat(s).value;
    var w := IsoFormatStamp(n);
    ParseIsoCanonical(s[..10]);
    if w == s {
      LayoutOfFormat(n);
    }
    if IsoLayout(s) {
      var t := s[11..];
      assert ParseTime(t) == Some(n.time);
      Pad2OfDigits(t[..2]);
      Pad2OfDigits(t[3..5]);
      Pad2OfDigits(t[6..8]);
      var clock := t[..2] + ":" + t[3..5] + ":" + t[6..8];
      assert t[..8] == clock;
      if |s| == 26 {
        ZeroFraction(t[9..]);
        assert t[8..] != ".000000";
        assert t[9..] != "000000";
        Pad6OfDigits(t[9..]);
        assert t == clock + "." + t[9..];
      } else {
        assert t == clock;
      }
      assert s == s[..10] + "T" + t;
    }
  }

  /** Every text `isoformat()` writes has its layout. */
  lemma LayoutOfFormat(n: Stamp)
    ensures IsoLayout(IsoFormatStamp(n))
  {
    var w := IsoFormatStamp(n);
    assert w[10] == 'T';
    if n.time.micro != 0 {
      var f := Pad6(n.time.micro);
      Pad6Value(n.time.micro);
      ZeroFraction(f);
      assert w[19..] == "." + f;
      assert ("." + f)[1..] == f && ".000000"[1..] == "000000";
    }
  }

  /** The forms the service stores: a date alone, a date and time with a 'T'
    * or a space, minutes only, milliseconds. */
  lemma IsoAccepts()
    ensures FromIsoFormat("2024-01-05").Some? && FromIsoFormat("2024-01-05").value == Naive(Date(2024, 1, 5), Midnight)
    ensures FromIsoFormat("2024-01-05T09:00").Some?
    ensures FromIsoFormat("2024-01-05T09:00").value == Naive(Date(2024, 1, 5), TimeOfDay(9, 0, 0, 0))
  {
    DateDigits();
    assert "2024-01-05"[..10] == "2024-01-05";
    var s := "2024-01-05T09:00";
    assert s[..10] == "2024-01-05" && s[11..] == "09:00";
    TwoDigits('0', '9');
    TwoDigits('0', '0');
    assert "09:00"[..2] == "09" && "09:00"[3..5] == "00";
  }

  /** Three fraction digits are milliseconds. */
  lemma IsoMilliseconds()
    ensures FromIsoFormat("2024-01-05 09:30:15.250").Some?
    ensures FromIsoFormat("2024-01-05 09:30:15.250").value == Naive(Date(2024, 1, 5), TimeOfDay(9, 30, 15, 250000))
  {
    DateDigits();
    var s := "2024-01-05 09:30:15.250";
    assert s[..10] == "2024-01-05" && s[11..] == "09:30:15.250";
    MillisecondTime();
  }

  lemma MillisecondTime()
    ensures ParseTime("09:30:15.250") == Some(TimeOfDay(9, 30, 15, 250000))
  {
    var t := "09:30:15.250";
    assert t[..2] == "09" && t[3..5] == "30" && t[6..8] == "15" && t[9..] == "250";
    TwoDigits('0', '9');
    TwoDigits('3', '0');
    TwoDigits('1', '5');
    TwoDigits('2', '5');
    assert "250"[..2] == "25";
  }

  /** Text `fromisoformat` refuses: nothing after the separator, hour 24,
    * one fraction digit, an unpadded date. */
  lemma IsoRefuses()
    ensures FromIsoFormat("2024-01-05T").None?
    ensures FromIsoFormat("2024-01-05T24:00").None?
    ensures FromIsoFormat("2024-01-05T09:00:00.5").None?
    ensures FromIsoFormat("2024-1-5").None?
  {
    assert "2024-01-05T24:00"[11..] == "24:00" && "24:00"[..2] == "24";
    TwoDigits('2', '4');
    assert |"2024-01-05T09:00:00.5"[11..]| == 10;
  }

  lemma DateDigits()
    ensures ParseIso("2024-01-05") == Some(Date(2024, 1, 5))
  {
    var s := "2024-01-05";
    assert s[..4] == "2024" && s[5..7] == "01" && s[8..] == "05";
    assert "2024"[..3] == "202" && "202"[..2] == "20" && "20"[..1] == "2" && "2"[..0] == [];
    TwoDigits('0', '1');
    TwoDigits('0', '5');
  }

  lemma TwoDigits(a: char, b: char)
    requires IsDigit(a) && IsDigit(b)
    ensures DigitsValue([a, b]) == DigitValue(a) * 10 + DigitValue(b)
  {
    assert [a, b][..1] == [a] && [a][..0] == [];
    assert DigitsValue([a]) == DigitValue(a);
  }
}
