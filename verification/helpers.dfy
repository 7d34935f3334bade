/** The template helpers of app/utils/helpers.py (app.py and
  * testing_env/test_app.py carry identical copies of several of them).
  * "Today" is a parameter. */
module Helpers {
  import opened Common
  import opened Dates
  import opened Numerals
  import opened Timestamps
  import Records

  // ------------------------------------------------------------ due dates

  /** The due date, when the text is given and `strptime(_, '%Y-%m-%d')` reads it. */
  function DueDate(due: Option<string>): (r: Option<Date>)
    ensures r.Some? ==> ValidDate(r.value)
  {
    match due
    case None => None
    case Some(s) => ParseDate(s)
  }

  /** get_due_date_text_class */
  function DueTextClass(due: Option<string>, today: Date): string
  {
    match DueDate(due)
    case None => ""
    case Some(d) =>
      if Before(d, today) then "due-date-overdue"
      else if d == today then "due-date-today"
      else "due-date-upcoming"
  }

  /** get_due_date_status */
  function DueStatus(due: Option<string>, today: Date): string
    requires ValidDate(today)
  {
    match DueDate(due)
    case None => ""
    case Some(d) =>
      if Before(d, today) then "(OVERDUE)"
      else if d == today then "(TODAY)"
      else if DaysBetween(today, d) <= 3 then "(SOON)"
      else ""
  }

  /** The classes speak of the day count: overdue strictly before today, due
    * today, soon within three days after, upcoming any day after; an absent or
    * unreadable due date gets no class. */
  lemma DueClassesByDays(due: Option<string>, today: Date)
    requires ValidDate(today)
    ensures DueTextClass(due, today) == "" <==> DueDate(due).None?
    ensures DueTextClass(due, today) == "due-date-overdue" <==> DueDate(due).Some? && DaysBetween(today, DueDate(due).value) < 0
    ensures DueTextClass(due, today) == "due-date-today" <==> DueDate(due).Some? && DaysBetween(today, DueDate(due).value) == 0
    ensures DueTextClass(due, today) == "due-date-upcoming" <==> DueDate(due).Some? && DaysBetween(today, DueDate(due).value) > 0
    ensures DueStatus(due, today) == "(OVERDUE)" <==> DueTextClass(due, today) == "due-date-overdue"
    ensures DueStatus(due, today) == "(TODAY)" <==> DueTextClass(due, today) == "due-date-today"
    ensures DueStatus(due, today) == "(SOON)" <==> DueDate(due).Some? && 0 < DaysBetween(today, DueDate(due).value) <= 3
  {
    if DueDate(due).Some? {
      OrderAgrees(DueDate(due).value, today);
    }
  }

  // ------------------------------------------------------------ comments and labels

  function OnCard(cardId: int): Records.Comment -> bool { (c: Records.Comment) => c.cardId == cardId }

  /** get_comment_count: the comments whose card_id is the card's. */
  function CommentCount(comments: seq<Records.Comment>, cardId: int): (r: nat)
    ensures r <= |comments|
    ensures r == 0 <==> forall i :: 0 <= i < |comments| ==> comments[i].cardId != cardId
  {
    if Count(comments, OnCard(cardId)) == 0 then 0
    else
      assert Filter(comments, OnCard(cardId))[0] in comments;
      Count(comments, OnCard(cardId))
  }

  /** A comment added to a card raises its count by one and leaves every other card's count. */
  lemma CommentCountAdd(comments: seq<Records.Comment>, c: Records.Comment, cardId: int)
    ensures CommentCount(comments + [c], cardId) == CommentCount(comments, cardId) + (if c.cardId == cardId then 1 else 0)
  {
    FilterAppend(comments, [c], OnCard(cardId));
    assert Filter([c], OnCard(cardId)) == if c.cardId == cardId then [c] else [];
  }

  datatype Label = Label(id: string, name: string, color: string)

  const PredefinedLabels: seq<Label> := [
    Label("bug", "Bug", "#ff5630"),
    Label("feature", "Feature", "#0052cc"),
    Label("urgent", "Urgent", "#ff8b00"),
    Label("enhancement", "Enhancement", "#36b37e")
  ]

  function LabelIs(id: string): Label -> bool { (l: Label) => l.id == id }

  /** get_label_by_id: the first label with the id, or None. */
  function LabelById(id: string, labels: seq<Label>): (r: Option<Label>)
    ensures r.Some? ==> r.value.id == id && r.value in labels
    ensures r.None? <==> forall i :: 0 <= i < |labels| ==> labels[i].id != id
  {
    match FindFirst(labels, LabelIs(id))
    case None => None
    case Some(k) => Some(labels[k])
  }

  /** The predefined labels answer to their own ids and to nothing else. */
  lemma PredefinedLookup(id: string)
    ensures LabelById(id, PredefinedLabels).Some? <==> id in {"bug", "feature", "urgent", "enhancement"}
    ensures id == "bug" ==> LabelById(id, PredefinedLabels) == Some(Label("bug", "Bug", "#ff5630"))
    ensures id == "urgent" ==> LabelById(id, PredefinedLabels) == Some(Label("urgent", "Urgent", "#ff8b00"))
  {
    if id == "bug" {
      assert FindFirst(PredefinedLabels, LabelIs(id)) == Some(0);
    } else if id == "urgent" {
      assert PredefinedLabels[2].id == id;
    }
  }

  // ------------------------------------------------------------ mentions

  /** `\w` on ASCII text. */
  predicate IsWordChar(c: char)
  {
    'a' <= c <= 'z' || 'A' <= c <= 'Z' || '0' <= c <= '9' || c == '_'
  }

  predicate AllWord(s: string)
  {
    forall i :: 0 <= i < |s| ==> IsWordChar(s[i])
  }

  /** The length of the word run at the start of s. */
  function WordRun(s: string): (n: nat)
    ensures n <= |s| && AllWord(s[..n]) && (n == |s| || !IsWordChar(s[n]))
  {
    if s == [] || !IsWordChar(s[0]) then 0
    else
      var n := WordRun(s[1..]);
      assert s[..n + 1] == [s[0]] + s[1..][..n];
      n + 1
  }

  /** `re.findall(r'@(\w+)', s)`: scanning left to right, an '@' followed by a
    * word character yields the whole word run, and the scan resumes after it. */
  function FindMentions(s: string): seq<string>
    decreases |s|
  {
    if |s| < 2 then []
    else if s[0] == '@' && IsWordChar(s[1]) then
      var n := WordRun(s[1..]);
      [s[1..1 + n]] + FindMentions(s[1 + n..])
    else FindMentions(s[1..])
  }

  /** `@x` stands at i in s, and the word does not go on after x. */
  predicate MentionAt(s: string, x: string, i: int)
  {
    0 <= i && i + 1 + |x| <= |s| && s[i] == '@' && s[i + 1..i + 1 + |x|] == x
    && (i + 1 + |x| == |s| || !IsWordChar(s[i + 1 + |x|]))
  }

  lemma MentionShift(s: string, k: nat, x: string, i: int)
    requires k <= |s| && MentionAt(s[k..], x, i)
    ensures MentionAt(s, x, i + k)
  {
    assert s[k..][i + 1..i + 1 + |x|] == s[i + k + 1..i + k + 1 + |x|];
  }

  /** A found mention: a non-empty word written after an '@' in s. */
  ghost predicate SoundMention(s: string, x: string)
  {
    |x| >= 1 && AllWord(x) && exists i :: MentionAt(s, x, i)
  }

  /** A mention sound in a suffix of s is sound in s. */
  lemma SoundShift(s: string, k: nat, xs: seq<string>)
    requires k <= |s| && forall x :: x in xs ==> SoundMention(s[k..], x)
    ensures forall x :: x in xs ==> SoundMention(s, x)
  {
    forall x | x in xs ensures SoundMention(s, x) {
      var i :| MentionAt(s[k..], x, i);
      MentionShift(s, k, x, i);
    }
  }

  /** Every mention found is a non-empty word written after an '@' in the text
    * and ending where the word ends. */
  lemma {:induction false} MentionsSound(s: string)
    ensures forall x :: x in FindMentions(s) ==> |x| >= 1 && AllWord(x) && exists i :: MentionAt(s, x, i)
    decreases |s|
  {
    if |s| >= 2 {
      if s[0] == '@' && IsWordChar(s[1]) {
        var n := WordRun(s[1..]);
        var head := s[1..1 + n];
        var tail := s[1 + n..];
        MentionsSound(tail);
        SoundShift(s, 1 + n, FindMentions(tail));
        assert head == s[1..][..n];
        assert MentionAt(s, head, 0);
        assert FindMentions(s) == [head] + FindMentions(tail);
      } else {
        MentionsSound(s[1..]);
        SoundShift(s, 1, FindMentions(s[1..]));
      }
    }
  }

  /** Position i holds an '@' followed by a word character. */
  predicate MentionStart(s: string, i: nat)
  {
    i + 1 < |s| && s[i] == '@' && IsWordChar(s[i + 1])
  }

  /** The whole word run after the '@' at i. */
  function MentionWord(s: string, i: nat): (m: string)
    requires MentionStart(s, i)
    ensures |m| >= 1
  {
    s[i + 1..i + 1 + WordRun(s[i + 1..])]
  }

  /** Every '@' followed by a word character yields its whole word run: the
    * scan cannot skip it, because an '@' is never inside an earlier run. */
  lemma {:induction false} MentionsComplete(s: string, i: nat)
    requires MentionStart(s, i)
    ensures MentionWord(s, i) in FindMentions(s)
    decreases |s|
  {
    if s[0] == '@' && IsWordChar(s[1]) {
      var k := 1 + WordRun(s[1..]);
      MentionsAtHead(s);
      if i == 0 {
        InFront(MentionWord(s, i), FindMentions(s[k..]));
      } else {
        AtAfterRun(s, i);
        MentionSuffix(s, k, i);
        MentionsComplete(s[k..], i - k);
        InLater([s[1..k]], FindMentions(s[k..]), MentionWord(s, i));
      }
    } else {
      MentionsSkip(s);
      MentionSuffix(s, 1, i);
      MentionsComplete(s[1..], i - 1);
    }
  }

  /** A text opening with '@' and a word character yields that word first. */
  lemma MentionsAtHead(s: string)
    requires |s| >= 2 && s[0] == '@' && IsWordChar(s[1])
    ensures FindMentions(s) == [s[1..1 + WordRun(s[1..])]] + FindMentions(s[1 + WordRun(s[1..])..])
  {
  }

  /** Otherwise the scan moves on by one character. */
  lemma MentionsSkip(s: string)
    requires |s| >= 2 && !(s[0] == '@' && IsWordChar(s[1]))
    ensures FindMentions(s) == FindMentions(s[1..])
  {
  }

  lemma InFront(m: string, b: seq<string>)
    ensures m in [m] + b
  {
    assert ([m] + b)[0] == m;
  }

  /** The mention at i, read in the suffix from k. */
  lemma MentionSuffix(s: string, k: nat, i: nat)
    requires 0 < k <= i && MentionStart(s, i)
    ensures MentionStart(s[k..], i - k) && MentionWord(s[k..], i - k) == MentionWord(s, i)
  {
    assert s[k..][i - k + 1..] == s[i + 1..];
  }

  lemma InLater(a: seq<string>, b: seq<string>, m: string)
    requires m in b
    ensures m in a + b
  {
    var k :| 0 <= k < |b| && b[k] == m;
    assert (a + b)[|a| + k] == m;
  }

  /** An '@' is not a word character, so one after position 0 lies beyond the word run at 1. */
  lemma AtAfterRun(s: string, i: nat)
    requires 0 < i < |s| && s[i] == '@'
    ensures i >= 1 + WordRun(s[1..])
  {
  }

  /** A word x written right after an '@' and ending where the word ends is the run WordRun measures there. */
  lemma RunOfMention(s: string, x: string, i: int)
    requires |x| >= 1 && AllWord(x) && MentionAt(s, x, i)
    ensures i + 1 < |s| && IsWordChar(s[i + 1])
    ensures WordRun(s[i + 1..]) == |x| && s[i + 1..i + 1 + |x|] == x
  {
    var u := s[i + 1..];
    var n := WordRun(u);
    assert u[..|x|] == x;
    assert s[i + 1] == x[0];
  }

  /** A text without an '@' mentions nobody. */
  lemma {:induction false} NoAtNoMentions(s: string)
    requires '@' !in s
    ensures FindMentions(s) == []
    decreases |s|
  {
    if |s| >= 2 {
      assert s[0] != '@';
      NoAtNoMentions(s[1..]);
    }
  }

  /** The set of a list, kept in first-seen order. */
  function Distinct(xs: seq<string>): (r: seq<string>)
    ensures NoDuplicates(r) && |r| <= |xs|
    ensures forall x :: x in r <==> x in xs
  {
    if xs == [] then []
    else
      var r := Distinct(xs[..|xs| - 1]);
      assert xs == xs[..|xs| - 1] + [xs[|xs| - 1]];
      if xs[|xs| - 1] in r then r else r + [xs[|xs| - 1]]
  }

  /** extract_mentions: the distinct names found. */
  function ExtractMentions(content: string): (r: seq<string>)
    ensures NoDuplicates(r)
    ensures forall x :: x in r <==> x in FindMentions(content)
  {
    Distinct(FindMentions(content))
  }

  /** The names found are exactly the non-empty words written right after an
    * '@' and ending where the word ends; each appears once. */
  lemma ExtractMentionsSpec(content: string)
    ensures NoDuplicates(ExtractMentions(content))
    ensures forall x :: x in ExtractMentions(content) <==>
      |x| >= 1 && AllWord(x) && exists i :: MentionAt(content, x, i)
  {
    MentionsSound(content);
    forall x | |x| >= 1 && AllWord(x) && (exists i :: MentionAt(content, x, i))
      ensures x in FindMentions(content)
    {
      var i :| MentionAt(content, x, i);
      RunOfMention(content, x, i);
      MentionsComplete(content, i);
      assert MentionWord(content, i) == x;
    }
  }

  /** "@name" alone mentions exactly that name. */
  lemma MentionOfName(name: string)
    requires |name| >= 1 && AllWord(name)
    ensures ExtractMentions("@" + name) == [name]
  {
    var s := "@" + name;
    assert s[1..] == name;
    var n := WordRun(name);
    assert n == |name|;
    assert s[1..1 + n] == name && s[1 + n..] == [];
    assert FindMentions(s) == [name] + FindMentions([]);
  }

  // ------------------------------------------------------------ display formats

  /** format_timestamp on a text (or on nothing): a ten-character text is kept;
    * otherwise the first of the three formats that reads it decides the
    * `%Y-%m-%d %H:%M:%S` rendering, and an unreadable text is kept. */
  function FormatTimestamp(ts: Option<string>): (r: string)
    ensures ts.None? || ts == Some("") ==> r == "-"
    ensures ts.Some? && |ts.value| == 10 ==> r == ts.value
  {
    if ts.None? || ts.value == "" then "-"
    else if |ts.value| == 10 then ts.value
    else
      match FirstParse(ts.value)
      case Some(t) => Canonical(t)
      case None => ts.value
  }

  /** Formatting a formatted timestamp changes nothing. */
  lemma FormatTimestampIdempotent(ts: Option<string>)
    ensures FormatTimestamp(Some(FormatTimestamp(ts))) == FormatTimestamp(ts)
  {
    if ts.Some? && ts.value != "" && |ts.value| != 10 && FirstParse(ts.value).Some? {
      FirstParseCanonical(FirstParse(ts.value).value);
    }
  }

  /** A date-time with a fraction of a second is shown to the second. */
  lemma FormatTimestampDropsFraction(t: DateTime, f: string)
    requires ValidDateTime(t) && 1 <= |f| <= 6 && AllDigits(f)
    ensures FormatTimestamp(Some(Canonical(t) + "." + f)) == Canonical(t)
  {
    FirstParseFraction(t, f);
    FormatTimestampOfParsed(Canonical(t) + "." + f, t);
  }

  /** A text of more than ten characters that one of the formats reads is shown as what it read. */
  lemma FormatTimestampOfParsed(s: string, t: DateTime)
    requires |s| > 10 && FirstParse(s) == Some(t)
    ensures FormatTimestamp(Some(s)) == Canonical(t)
  {
  }

  /** A date that is not written in ten characters is shown at midnight. */
  lemma FormatTimestampOfShortDate(s: string)
    requires |s| != 10 && ParseDate(s).Some?
    ensures FormatTimestamp(Some(s)) == Canonical(DateTime(ParseDate(s).value, 0, 0, 0))
  {
    assert ParseDateTime(s, true).None? && ParseDateTime(s, false).None? by {
      ParseDateNoTime(s);
    }
  }

  /** A text strptime reads as a bare date holds no whitespace after its day. */
  lemma ParseDateNoTime(s: string)
    requires ParseDate(s).Some?
    ensures ParseDateTime(s, true).None? && ParseDateTime(s, false).None?
  {
    var rest := s[5..];
    var k := IndexOf(rest, '-').value;
    var t := rest[k + 1..];
    assert DayField(t).Some?;
    if |t| == 2 {
      assert rest[k + 2..] == [t[1]] && !IsSpace(t[1]);
    } else {
      assert rest[k + 2..] == [];
    }
    assert FindFirst(rest[k + 2..], SpaceTest()).None?;
  }

  /** format_date: a ten-character text is kept; a `%Y-%m-%d %H:%M:%S` text is
    * cut to its date; anything else is kept. */
  function FormatDate(ds: Option<string>): (r: string)
    ensures ds.None? ==> r == ""
    ensures ds.Some? && |ds.value| == 10 ==> r == ds.value
  {
    if ds.None? || ds.value == "" then ""
    else if |ds.value| == 10 then ds.value
    else
      match ParseDateTime(ds.value, false)
      case Some(t) => IsoFormat(t.date)
      case None => ds.value
  }

  /** Formatting a formatted date changes nothing, and a strftime date-time is cut to its date. */
  lemma FormatDateFacts(ds: Option<string>, t: DateTime)
    requires ValidDateTime(t)
    ensures FormatDate(Some(FormatDate(ds))) == FormatDate(ds)
    ensures FormatDate(Some(Canonical(t))) == IsoFormat(t.date)
  {
    FormatDateIdempotent(ds);
    ParseCanonical(t);
  }

  lemma FormatDateIdempotent(ds: Option<string>)
    ensures FormatDate(Some(FormatDate(ds))) == FormatDate(ds)
  {
    if ds.Some? && ds.value != "" && |ds.value| != 10 {
      match ParseDateTime(ds.value, false)
      case Some(u) =>
        assert |IsoFormat(u.date)| == 10;
      case None =>
    }
  }
}

/** The card-level due-date helpers of app_modules/utils/date_helpers.py. The
  * text class and the status there are those of `Helpers`. */
module DateHelpers {
  import opened Common
  import opened Dates
  import Helpers

  /** get_due_date_class */
  function DueClass(due: Option<string>, today: Date): string
    requires ValidDate(today)
  {
    match Helpers.DueDate(due)
    case None => ""
    case Some(d) =>
      if Before(d, today) then "card-overdue"
      else if d == today then "card-due-today"
      else if DaysBetween(today, d) <= 3 then "card-due-soon"
      else ""
  }

  /** The card class always agrees with the status text: overdue, today, soon or nothing. */
  lemma ClassFollowsStatus(due: Option<string>, today: Date)
    requires ValidDate(today)
    ensures DueClass(due, today) == "card-overdue" <==> Helpers.DueStatus(due, today) == "(OVERDUE)"
    ensures DueClass(due, today) == "card-due-today" <==> Helpers.DueStatus(due, today) == "(TODAY)"
    ensures DueClass(due, today) == "card-due-soon" <==> Helpers.DueStatus(due, today) == "(SOON)"
    ensures DueClass(due, today) == "" <==> Helpers.DueStatus(due, today) == ""
  {
  }
}
