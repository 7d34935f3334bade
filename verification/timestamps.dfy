/** Date-times as `datetime.strptime` reads them with the formats
  * '%Y-%m-%d %H:%M:%S.%f', '%Y-%m-%d %H:%M:%S' and '%Y-%m-%d', and as
  * `strftime('%Y-%m-%d %H:%M:%S')` writes them. The space of a format matches
  * any run of whitespace; the fraction of a second is read and dropped. */
module Timestamps {
  import opened Common
  import opened Numerals
  import opened Dates

  datatype DateTime = DateTime(date: Date, hour: int, minute: int, second: int)

  predicate ValidDateTime(t: DateTime)
  {
    ValidDate(t.date) && 0 <= t.hour < 24 && 0 <= t.minute < 60 && 0 <= t.second < 60
  }

  /** The ASCII characters `\s` matches: space, 9 to 13, and the separators 28 to 31. */
  predicate IsSpace(c: char)
  {
    IsBlank(c)
  }

  function SpaceTest(): char -> bool { (c: char) => IsSpace(c) }

  /** `%H`: 2[0-3] | [0-1]\d | \d */
  function HourField(t: string): Option<int>
  {
    if |t| == 1 && IsDigit(t[0]) then Some(DigitValue(t[0]))
    else if |t| == 2 && IsDigit(t[1]) && ('0' <= t[0] <= '1' || (t[0] == '2' && t[1] <= '3'))
    then Some(DigitValue(t[0]) * 10 + DigitValue(t[1]))
    else None
  }

  /** `%M`: [0-5]\d | \d */
  function MinuteField(t: string): Option<int>
  {
    if |t| == 1 && IsDigit(t[0]) then Some(DigitValue(t[0]))
    else if |t| == 2 && IsDigit(t[1]) && '0' <= t[0] <= '5' then Some(DigitValue(t[0]) * 10 + DigitValue(t[1]))
    else None
  }

  /** `%S`: 6[0-1] | [0-5]\d | \d; 60 and 61 pass the pattern, and building the datetime then fails. */
  function SecondField(t: string): Option<int>
  {
    if |t| == 1 && IsDigit(t[0]) then Some(DigitValue(t[0]))
    else if |t| == 2 && ((IsDigit(t[1]) && '0' <= t[0] <= '5') || (t[0] == '6' && '0' <= t[1] <= '1'))
    then Some(DigitValue(t[0]) * 10 + DigitValue(t[1]))
    else None
  }

  /** The text before and after the first `c`. */
  function SplitAt(s: string, c: char): (r: Option<(string, string)>)
    ensures r.Some? ==> s == r.value.0 + [c] + r.value.1 && c !in r.value.0
    ensures r.None? <==> c !in s
  {
    match IndexOf(s, c)
    case None => None
    case Some(k) =>
      assert s == s[..k] + [c] + s[k + 1..];
      Some((s[..k], s[k + 1..]))
  }

  /** Splitting a text joined at the first `c` gives its two halves back. */
  lemma SplitJoined(a: string, c: char, b: string)
    requires c !in a
    ensures SplitAt(a + [c] + b, c) == Some((a, b))
  {
    var s := a + [c] + b;
    assert s[|a|] == c && s[..|a|] == a;
    var k := IndexOf(s, c).value;
    assert s[..k] == a && s[k + 1..] == b;
  }

  function TrimLeft(s: string): (r: string)
    ensures |r| <= |s| && (r == [] || !IsSpace(r[0]))
  {
    if s != [] && IsSpace(s[0]) then TrimLeft(s[1..]) else s
  }

  /** The seconds text, with the `.%f` tail (one to six digits) when the format has one. */
  function SecondsText(t: string, fraction: bool): Option<string>
  {
    if !fraction then Some(t)
    else
      match SplitAt(t, '.')
      case None => None
      case Some((sec, f)) => if 1 <= |f| <= 6 && AllDigits(f) then Some(sec) else None
  }

  /** `%H:%M:%S` or `%H:%M:%S.%f` as the whole text. */
  function ParseTime(t: string, fraction: bool): Option<(int, int, int)>
  {
    match SplitAt(t, ':')
    case None => None
    case Some((h, rest)) =>
      match SplitAt(rest, ':')
      case None => None
      case Some((m, tail)) =>
        match SecondsText(tail, fraction)
        case None => None
        case Some(sec) =>
          match (HourField(h), MinuteField(m), SecondField(sec))
          case (Some(hh), Some(mm), Some(ss)) => Some((hh, mm, ss))
          case _ => None
  }

  /** `datetime.strptime(s, '%Y-%m-%d %H:%M:%S[.%f]')`; None where it raises ValueError.
    * The day field ends at the first whitespace after its first character. */
  function ParseDateTime(s: string, fraction: bool): (r: Option<DateTime>)
    ensures r.Some? ==> ValidDateTime(r.value)
  {
    if |s| < 5 || !AllDigits(s[..4]) || s[4] != '-' then None
    else
      var rest := s[5..];
      match IndexOf(rest, '-')
      case None => None
      case Some(k) =>
        if k + 2 > |rest| then None
        else
          match FindFirst(rest[k + 2..], SpaceTest())
          case None => None
          case Some(w) =>
            var j := k + 2 + w;
            match (MonthField(rest[..k]), DayField(rest[k + 1..j]), ParseTime(TrimLeft(rest[j..]), fraction))
            case (Some(m), Some(d), Some((hh, mm, ss))) =>
              var t := DateTime(Date(DigitsValue(s[..4]), m, d), hh, mm, ss);
              if ValidDateTime(t) then Some(t) else None
            case _ => None
  }

  /** `strftime('%Y-%m-%d %H:%M:%S')`. */
  function Canonical(t: DateTime): (s: string)
    requires ValidDateTime(t)
    ensures |s| == 19
  {
    IsoFormat(t.date) + " " + Pad2(t.hour) + ":" + Pad2(t.minute) + ":" + Pad2(t.second)
  }

  /** The formats of format_timestamp, tried in order. */
  function FirstParse(s: string): (r: Option<DateTime>)
    ensures r.Some? ==> ValidDateTime(r.value)
  {
    match ParseDateTime(s, true)
    case Some(t) => Some(t)
    case None =>
      match ParseDateTime(s, false)
      case Some(t) => Some(t)
      case None =>
        match ParseDate(s)
        case Some(d) => Some(DateTime(d, 0, 0, 0))
        case None => None
  }

  // ------------------------------------------------------------ round trips

  lemma HourPad(n: int)
    requires 0 <= n < 24
    ensures HourField(Pad2(n)) == Some(n)
  {
    Pad2Value(n);
    assert Pad2(n)[..1][..0] == [];
  }

  lemma MinutePad(n: int)
    requires 0 <= n < 60
    ensures MinuteField(Pad2(n)) == Some(n) && SecondField(Pad2(n)) == Some(n)
  {
    Pad2Value(n);
    assert Pad2(n)[..1][..0] == [];
  }

  lemma TimeRoundTrip(h: int, m: int, sec: int)
    requires 0 <= h < 24 && 0 <= m < 60 && 0 <= sec < 60
    ensures ParseTime(Pad2(h) + ":" + Pad2(m) + ":" + Pad2(sec), false) == Some((h, m, sec))
    ensures ParseTime(Pad2(h) + ":" + Pad2(m) + ":" + Pad2(sec), true) == None
  {
    var t := Pad2(h) + ":" + Pad2(m) + ":" + Pad2(sec);
    Pad2Value(h);
    Pad2Value(m);
    Pad2Value(sec);
    var rest := Pad2(m) + ":" + Pad2(sec);
    assert ':' !in Pad2(h) && ':' !in Pad2(m);
    SplitJoined(Pad2(h), ':', rest);
    assert t == Pad2(h) + [':'] + rest;
    SplitJoined(Pad2(m), ':', Pad2(sec));
    assert '.' !in Pad2(sec);
    HourPad(h);
    MinutePad(m);
    MinutePad(sec);
  }

  /** The date part of a canonical text and where its whitespace lies. */
  lemma CanonicalLayout(t: DateTime)
    requires ValidDateTime(t)
    ensures var s := Canonical(t);
      && s[..4] == Pad4(t.date.year) && s[4] == '-'
      && s[5..] == Pad2(t.date.month) + "-" + Pad2(t.date.day) + " " + Pad2(t.hour) + ":" + Pad2(t.minute) + ":" + Pad2(t.second)
  {
  }

  /** A canonical date, whitespace and a time text that starts with a
    * non-space: the date-time format reads the date and then the time text. */
  lemma DateThenTime(t: DateTime, time: string, fraction: bool)
    requires ValidDateTime(t) && time != [] && !IsSpace(time[0])
    ensures ParseTime(time, fraction) == Some((t.hour, t.minute, t.second))
            ==> ParseDateTime(IsoFormat(t.date) + " " + time, fraction) == Some(t)
    ensures ParseTime(time, fraction).None? ==> ParseDateTime(IsoFormat(t.date) + " " + time, fraction).None?
  {
    var s := IsoFormat(t.date) + " " + time;
    Pad4Value(t.date.year);
    assert s[..4] == Pad4(t.date.year) && s[4] == '-';
    var rest := s[5..];
    assert rest == Pad2(t.date.month) + "-" + Pad2(t.date.day) + " " + time;
    assert rest[2] == '-' && rest[0] != '-' && rest[1] != '-';
    assert IndexOf(rest, '-') == Some(2);
    assert rest[4..] == [Pad2(t.date.day)[1]] + " " + time;
    assert !IsSpace(rest[4]) && IsSpace(rest[5]);
    assert FindFirst(rest[4..], SpaceTest()) == Some(1);
    assert rest[..2] == Pad2(t.date.month) && rest[3..5] == Pad2(t.date.day);
    assert TrimLeft(rest[5..]) == time by {
      assert rest[5..] == " " + time && rest[5..][1..] == time;
    }
    MonthFieldPad(t.date.month);
    DayFieldPad(t.date.day);
  }

  /** The time text of a canonical date-time. */
  function ClockText(t: DateTime): string
    requires ValidDateTime(t)
  {
    Pad2(t.hour) + ":" + Pad2(t.minute) + ":" + Pad2(t.second)
  }

  lemma ClockLayout(t: DateTime)
    requires ValidDateTime(t)
    ensures Canonical(t) == IsoFormat(t.date) + " " + ClockText(t)
    ensures ClockText(t) != [] && !IsSpace(ClockText(t)[0])
  {
    assert ClockText(t)[0] == Pad2(t.hour)[0];
  }

  /** What strftime writes, the seconds format reads back; the fraction format refuses it. */
  lemma ParseCanonical(t: DateTime)
    requires ValidDateTime(t)
    ensures ParseDateTime(Canonical(t), false) == Some(t)
    ensures ParseDateTime(Canonical(t), true) == None
  {
    ClockLayout(t);
    TimeRoundTrip(t.hour, t.minute, t.second);
    DateThenTime(t, ClockText(t), false);
    DateThenTime(t, ClockText(t), true);
  }

  /** The time text of a canonical date-time, with a fraction after it. */
  function FractionText(t: DateTime, f: string): string
    requires ValidDateTime(t)
  {
    Pad2(t.hour) + ":" + Pad2(t.minute) + ":" + Pad2(t.second) + "." + f
  }

  lemma FractionLayout(t: DateTime, f: string)
    requires ValidDateTime(t)
    ensures Canonical(t) + "." + f == IsoFormat(t.date) + " " + FractionText(t, f)
    ensures FractionText(t, f) != [] && !IsSpace(FractionText(t, f)[0])
  {
    assert FractionText(t, f)[0] == Pad2(t.hour)[0];
  }

  /** A fraction of one to six digits after the seconds is read and dropped. */
  lemma ParseFraction(t: DateTime, f: string)
    requires ValidDateTime(t) && 1 <= |f| <= 6 && AllDigits(f)
    ensures ParseDateTime(Canonical(t) + "." + f, true) == Some(t)
  {
    FractionLayout(t, f);
    FractionTime(t.hour, t.minute, t.second, f);
    DateThenTime(t, FractionText(t, f), true);
  }

  /** format_timestamp's first format reads a text with a fraction. */
  lemma FirstParseFraction(t: DateTime, f: string)
    requires ValidDateTime(t) && 1 <= |f| <= 6 && AllDigits(f)
    ensures FirstParse(Canonical(t) + "." + f) == Some(t)
  {
    ParseFraction(t, f);
  }

  lemma FractionTime(h: int, m: int, sec: int, f: string)
    requires 0 <= h < 24 && 0 <= m < 60 && 0 <= sec < 60 && 1 <= |f| <= 6 && AllDigits(f)
    ensures ParseTime(Pad2(h) + ":" + Pad2(m) + ":" + Pad2(sec) + "." + f, true) == Some((h, m, sec))
  {
    var t := Pad2(h) + ":" + Pad2(m) + ":" + Pad2(sec) + "." + f;
    Pad2Value(h);
    Pad2Value(m);
    Pad2Value(sec);
    var tail := Pad2(sec) + "." + f;
    var rest := Pad2(m) + ":" + tail;
    assert ':' !in Pad2(h) && ':' !in Pad2(m) && '.' !in Pad2(sec);
    assert t == Pad2(h) + [':'] + rest;
    SplitJoined(Pad2(h), ':', rest);
    assert rest == Pad2(m) + [':'] + tail;
    SplitJoined(Pad2(m), ':', tail);
    assert tail == Pad2(sec) + ['.'] + f;
    SplitJoined(Pad2(sec), '.', f);
    assert SplitAt(t, ':') == Some((Pad2(h), rest));
    assert SecondsText(tail, true) == Some(Pad2(sec));
    HourPad(h);
    MinutePad(m);
    MinutePad(sec);
  }

  /** Reading a canonical text in format_timestamp's order gives the date-time back. */
  lemma FirstParseCanonical(t: DateTime)
    requires ValidDateTime(t)
    ensures FirstParse(Canonical(t)) == Some(t)
  {
    ParseCanonical(t);
  }
}
