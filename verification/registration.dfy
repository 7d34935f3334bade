/** The registration form script (static/js/registration.js): the password
  * strength meter, the confirmation check that disables the submit button,
  * the checks run on submit, the email field's flag and the username
  * sanitiser. Field values are strings; the page's elements, messages and
  * styles are left out. */
module Registration {
  import opened Common

  // ------------------------------------------------------------ character classes

  predicate IsLowerAscii(c: char) { 'a' <= c <= 'z' }
  predicate IsUpperAscii(c: char) { 'A' <= c <= 'Z' }
  predicate IsDigit(c: char) { '0' <= c <= '9' }
  predicate IsAlnum(c: char) { IsLowerAscii(c) || IsUpperAscii(c) || IsDigit(c) }
  predicate IsSymbol(c: char) { !IsAlnum(c) }

  /** A character of `[a-zA-Z0-9_-]`. */
  predicate UsernameChar(c: char) { IsAlnum(c) || c == '_' || c == '-' }

  /** The white space and line terminators `String.prototype.trim` strips. */
  predicate IsSpace(c: char)
  {
    var n := c as int;
    (0x09 <= n <= 0x0D) || n == 0x20 || n == 0xA0 || n == 0x1680 || (0x2000 <= n <= 0x200A)
    || n == 0x2028 || n == 0x2029 || n == 0x202F || n == 0x205F || n == 0x3000 || n == 0xFEFF
  }

  /** `s.match(/[...]/)` is truthy: some character of the class occurs. */
  predicate HasSome(s: string, p: char -> bool)
  {
    exists i :: 0 <= i < |s| && p(s[i])
  }

  // ------------------------------------------------------------ password strength

  /** The five things the meter gives a point for. */
  datatype Criterion = Length | Lowercase | Uppercase | Digit | Symbol

  const Criteria := [Length, Lowercase, Uppercase, Digit, Symbol]

  predicate Met(password: string, k: Criterion)
  {
    match k
    case Length => |password| >= 6
    case Lowercase => HasSome(password, IsLowerAscii)
    case Uppercase => HasSome(password, IsUpperAscii)
    case Digit => HasSome(password, IsDigit)
    case Symbol => HasSome(password, IsSymbol)
  }

  function MetBy(password: string): Criterion -> bool { k => Met(password, k) }

  /** The strength score: how many of the five criteria the password meets. */
  function Score(password: string): nat
  {
    Count(Criteria, MetBy(password))
  }

  /** The score counts each criterion once, in the order the meter tests them. */
  lemma ScoreUnfolds(password: string)
    ensures Score(password) == (if Met(password, Length) then 1 else 0) + (if Met(password, Lowercase) then 1 else 0)
                               + (if Met(password, Uppercase) then 1 else 0) + (if Met(password, Digit) then 1 else 0)
                               + (if Met(password, Symbol) then 1 else 0)
  {
    var p := MetBy(password);
    assert Criteria[1..] == [Lowercase, Uppercase, Digit, Symbol];
    assert Criteria[1..][1..] == [Uppercase, Digit, Symbol];
    assert Criteria[1..][1..][1..] == [Digit, Symbol];
    assert Criteria[1..][1..][1..][1..] == [Symbol];
    assert Criteria[1..][1..][1..][1..][1..] == [];
    assert |Filter([Symbol], p)| == (if Met(password, Symbol) then 1 else 0);
    assert |Filter([Digit, Symbol], p)| == (if Met(password, Digit) then 1 else 0) + |Filter([Symbol], p)|;
    assert |Filter([Uppercase, Digit, Symbol], p)| == (if Met(password, Uppercase) then 1 else 0) + |Filter([Digit, Symbol], p)|;
    assert |Filter([Lowercase, Uppercase, Digit, Symbol], p)|
        == (if Met(password, Lowercase) then 1 else 0) + |Filter([Uppercase, Digit, Symbol], p)|;
  }

  /** The input handler's counter: one point per criterion, tested in turn. */
  method PasswordStrength(password: string) returns (strength: nat)
    ensures strength == Score(password)
    ensures strength <= 5
  {
    ScoreUnfolds(password);
    strength := 0;
    if |password| >= 6 {
      strength := strength + 1;
    }
    var hasLower := HasLower(password);
    if hasLower {
      strength := strength + 1;
    }
    var hasUpper := HasUpper(password);
    if hasUpper {
      strength := strength + 1;
    }
    var hasDigit := HasDigit(password);
    if hasDigit {
      strength := strength + 1;
    }
    var hasSymbol := HasSymbol(password);
    if hasSymbol {
      strength := strength + 1;
    }
  }

  /** One scan per character class, as the regular expression does it. */
  method Scan(s: string, p: char -> bool) returns (found: bool)
    ensures found <==> HasSome(s, p)
  {
    var i := 0;
    while i < |s|
      invariant 0 <= i <= |s|
      invariant forall j :: 0 <= j < i ==> !p(s[j])
    {
      if p(s[i]) {
        return true;
      }
      i := i + 1;
    }
    return false;
  }

  method HasLower(s: string) returns (found: bool)
    ensures found <==> Met(s, Lowercase)
  {
    found := Scan(s, IsLowerAscii);
  }

  method HasUpper(s: string) returns (found: bool)
    ensures found <==> Met(s, Uppercase)
  {
    found := Scan(s, IsUpperAscii);
  }

  method HasDigit(s: string) returns (found: bool)
    ensures found <==> Met(s, Digit)
  {
    found := Scan(s, IsDigit);
  }

  method HasSymbol(s: string) returns (found: bool)
    ensures found <==> Met(s, Symbol)
  {
    found := Scan(s, IsSymbol);
  }

  datatype Label = Weak | Medium | Strong

  /** The label shown under the password field; nothing for an empty field. */
  function StrengthLabel(password: string): Option<Label>
  {
    if password == [] then None
    else if Score(password) < 2 then Some(Weak)
    else if Score(password) < 4 then Some(Medium)
    else Some(Strong)
  }

  /** The score lies in 0..5 and is 5 exactly when every criterion is met. */
  lemma ScoreBounds(password: string)
    ensures Score(password) <= 5
    ensures Score(password) == 5 <==> forall k :: Met(password, k)
    ensures Score(password) == 0 <==> forall k :: !Met(password, k)
  {
    ScoreUnfolds(password);
    if Score(password) == 5 {
      forall k ensures Met(password, k) { match k { case _ => } }
    }
  }

  /** A character class found in the text is still found with one more character at the end. */
  lemma HasSomeGrows(s: string, c: char, p: char -> bool)
    requires HasSome(s, p)
    ensures HasSome(s + [c], p)
  {
    var i :| 0 <= i < |s| && p(s[i]);
    assert (s + [c])[i] == s[i];
  }

  /** A criterion once met stays met when a character is typed at the end. */
  lemma MetGrows(password: string, c: char, k: Criterion)
    requires Met(password, k)
    ensures Met(password + [c], k)
  {
    match k
    case Length =>
    case Lowercase => HasSomeGrows(password, c, IsLowerAscii);
    case Uppercase => HasSomeGrows(password, c, IsUpperAscii);
    case Digit => HasSomeGrows(password, c, IsDigit);
    case Symbol => HasSomeGrows(password, c, IsSymbol);
  }

  /** Typing a character never lowers the score, nor the label. */
  lemma ScoreGrows(password: string, c: char)
    ensures Score(password) <= Score(password + [c])
    ensures password != [] ==> Rank(StrengthLabel(password).value) <= Rank(StrengthLabel(password + [c]).value)
  {
    ScoreUnfolds(password);
    ScoreUnfolds(password + [c]);
    forall k | Met(password, k) ensures Met(password + [c], k) {
      MetGrows(password, c, k);
    }
  }

  function Rank(l: Label): nat
  {
    match l
    case Weak => 0
    case Medium => 1
    case Strong => 2
  }

  /** Six characters or more with a lower-case letter, an upper-case letter
    * and a digit is a strong password; a short one of lower-case letters only
    * is a weak one. */
  lemma StrengthExamples(password: string)
    ensures (|password| >= 6 && HasSome(password, IsLowerAscii) && HasSome(password, IsUpperAscii)
             && HasSome(password, IsDigit)) ==> StrengthLabel(password) == Some(Strong)
    ensures (password != [] && |password| < 6 && (forall i :: 0 <= i < |password| ==> IsLowerAscii(password[i])))
            ==> StrengthLabel(password) == Some(Weak)
  {
    ScoreUnfolds(password);
    if password != [] && |password| < 6 && (forall i :: 0 <= i < |password| ==> IsLowerAscii(password[i])) {
      assert !Met(password, Uppercase) && !Met(password, Digit) && !Met(password, Symbol);
    }
  }

  // ------------------------------------------------------------ confirmation

  /** What the confirmation check shows: no message, a match or a mismatch,
    * and whether the submit button is disabled. */
  datatype MatchView = MatchView(message: Option<bool>, submitDisabled: bool)

  function CheckPasswordMatch(password: string, confirm: string): MatchView
  {
    if confirm == [] then MatchView(None, false)
    else if password == confirm then MatchView(Some(true), false)
    else MatchView(Some(false), true)
  }

  // ------------------------------------------------------------ submit

  datatype Form = Form(password: string, confirm: string, email: string, displayName: string, username: string)

  /** The reasons a submit is stopped, in the order they are tested. */
  datatype Refusal = Mismatch | ShortPassword | BadEmail | ShortDisplayName | ShortUsername

  function LeadingSpaces(s: string): (n: nat)
    ensures n <= |s| && (forall i :: 0 <= i < n ==> IsSpace(s[i])) && (n < |s| ==> !IsSpace(s[n]))
  {
    if s != [] && IsSpace(s[0]) then 1 + LeadingSpaces(s[1..]) else 0
  }

  function TrailingSpaces(s: string): (n: nat)
    ensures n <= |s| && (forall i :: |s| - n <= i < |s| ==> IsSpace(s[i])) && (n < |s| ==> !IsSpace(s[|s| - n - 1]))
  {
    if s != [] && IsSpace(s[|s| - 1]) then 1 + TrailingSpaces(s[..|s| - 1]) else 0
  }

  /** `s.trim()`. */
  function Trim(s: string): string
  {
    var t := s[LeadingSpaces(s)..];
    t[..|t| - TrailingSpaces(t)]
  }

  /** Trimming keeps a slice of the text, drops only white space around it
    * and leaves no white space at either end. */
  lemma TrimSpec(s: string)
    ensures exists a, b :: 0 <= a <= b <= |s| && Trim(s) == s[a..b]
                           && (forall i :: 0 <= i < a ==> IsSpace(s[i]))
                           && (forall i :: b <= i < |s| ==> IsSpace(s[i]))
    ensures Trim(s) != [] ==> !IsSpace(Trim(s)[0]) && !IsSpace(Trim(s)[|Trim(s)| - 1])
    ensures (forall i :: 0 <= i < |s| ==> !IsSpace(s[i])) ==> Trim(s) == s
  {
    var a := LeadingSpaces(s);
    var t := s[a..];
    var b := a + |t| - TrailingSpaces(t);
    assert Trim(s) == s[a..b];
    forall i | b <= i < |s| ensures IsSpace(s[i]) {
      assert s[i] == t[i - a];
    }
    if Trim(s) != [] {
      assert Trim(s)[|Trim(s)| - 1] == t[|t| - TrailingSpaces(t) - 1];
    }
    if forall i :: 0 <= i < |s| ==> !IsSpace(s[i]) {
      assert a == 0;
      if |t| > 0 { assert !IsSpace(t[|t| - 1]); }
    }
  }

  /** The submit handler: None lets the form through, otherwise the first
    * check that fails. */
  function Validate(f: Form): Option<Refusal>
  {
    if f.password != f.confirm then Some(Mismatch)
    else if |f.password| < 6 then Some(ShortPassword)
    else if f.email == [] || '@' !in f.email then Some(BadEmail)
    else if f.displayName == [] || |Trim(f.displayName)| < 2 then Some(ShortDisplayName)
    else if f.username == [] || |f.username| < 3 then Some(ShortUsername)
    else None
  }

  /** Each check on its own, as a rule about the finished form. */
  predicate Fails(f: Form, k: Refusal)
  {
    match k
    case Mismatch => f.password != f.confirm
    case ShortPassword => |f.password| < 6
    case BadEmail => !exists i :: 0 <= i < |f.email| && f.email[i] == '@'
    case ShortDisplayName => |Trim(f.displayName)| < 2
    case ShortUsername => |f.username| < 3
  }

  function Order(k: Refusal): nat
  {
    match k
    case Mismatch => 0
    case ShortPassword => 1
    case BadEmail => 2
    case ShortDisplayName => 3
    case ShortUsername => 4
  }

  /** A form goes through exactly when no check fails; otherwise the reported
    * refusal fails and every check tested before it passes. */
  lemma ValidateFirstFailure(f: Form)
    ensures Validate(f).None? <==> forall k :: !Fails(f, k)
    ensures Validate(f).Some? ==> Fails(f, Validate(f).value)
    ensures Validate(f).Some? ==> forall k :: Order(k) < Order(Validate(f).value) ==> !Fails(f, k)
  {
    assert f.displayName == [] ==> |Trim(f.displayName)| == 0;
    if Validate(f).None? {
      forall k ensures !Fails(f, k) {
        match k
        case BadEmail =>
          var i :| 0 <= i < |f.email| && f.email[i] == '@';
        case _ =>
      }
    } else {
      assert Fails(f, Validate(f).value);
    }
  }

  /** A form that goes through has a password of six characters or more. */
  lemma AcceptedPassword(f: Form)
    requires Validate(f).None?
    ensures f.password == f.confirm && |f.password| >= 6 && |f.username| >= 3
  {
  }

  /** The confirmation check and the submit check agree: a disabled button
    * means the submit would stop at the mismatch, and a form that goes
    * through leaves the button enabled. The button is disabled exactly when
    * the confirmation is filled in and differs. */
  lemma MatchAgreesWithSubmit(f: Form)
    ensures CheckPasswordMatch(f.password, f.confirm).submitDisabled <==> f.confirm != [] && f.password != f.confirm
    ensures CheckPasswordMatch(f.password, f.confirm).submitDisabled ==> Validate(f) == Some(Mismatch)
    ensures Validate(f).None? ==> CheckPasswordMatch(f.password, f.confirm) == MatchView(Some(true), false)
    ensures f.confirm == [] && f.password != [] ==>
              !CheckPasswordMatch(f.password, f.confirm).submitDisabled && Validate(f) == Some(Mismatch)
  {
  }

  // ------------------------------------------------------------ email and username fields

  /** The email field turns red on blur when it is filled in without an '@'. */
  predicate EmailFlagged(email: string)
  {
    email != [] && '@' !in email
  }

  /** The submit check refuses an email exactly when it is empty or flagged, so
    * a form that goes through never has a flagged email. */
  lemma EmailFlagAgrees(f: Form)
    ensures Fails(f, BadEmail) <==> f.email == [] || EmailFlagged(f.email)
    ensures Validate(f).None? ==> !EmailFlagged(f.email)
  {
  }

  /** The username input handler: every character outside `[A-Za-z0-9_-]` is removed. */
  function Sanitize(s: string): string
  {
    Filter(s, UsernameChar)
  }

  /** `a` is `b` with some characters taken out. */
  predicate Subsequence(a: string, b: string)
    decreases |b|
  {
    if a == [] then true
    else if b == [] then false
    else if a[0] == b[0] then Subsequence(a[1..], b[1..])
    else Subsequence(a, b[1..])
  }

  lemma {:induction false} FilterSubsequence(s: string, p: char -> bool)
    ensures Subsequence(Filter(s, p), s)
    decreases |s|
  {
    if s != [] {
      FilterSubsequence(s[1..], p);
      if !p(s[0]) {
        SubsequenceDrop(Filter(s[1..], p), s);
      }
    }
  }

  /** A subsequence of the tail is a subsequence of the whole. */
  lemma {:induction false} SubsequenceDrop(a: string, b: string)
    requires b != [] && Subsequence(a, b[1..])
    ensures Subsequence(a, b)
    decreases |b|, 0
  {
    if a != [] && a[0] == b[0] {
      SubsequenceTail(a, b[1..]);
    }
  }

  /** Dropping the first character keeps a subsequence. */
  lemma {:induction false} SubsequenceTail(a: string, b: string)
    requires a != [] && Subsequence(a, b)
    ensures Subsequence(a[1..], b)
    decreases |b|, 1
  {
    if a[1..] != [] {
      if a[0] != b[0] {
        SubsequenceTail(a, b[1..]);
      }
      SubsequenceDrop(a[1..], b);
    }
  }

  /** The sanitised username holds only allowed characters, is the input with
    * characters taken out, keeps every allowed one, changes an allowed name
    * not at all, and sanitising twice is sanitising once. */
  lemma SanitizeSpec(s: string)
    ensures forall i :: 0 <= i < |Sanitize(s)| ==> UsernameChar(Sanitize(s)[i])
    ensures Subsequence(Sanitize(s), s)
    ensures Count(s, UsernameChar) == |Sanitize(s)|
    ensures Sanitize(s) == s <==> forall i :: 0 <= i < |s| ==> UsernameChar(s[i])
    ensures Sanitize(Sanitize(s)) == Sanitize(s)
  {
    FilterSubsequence(s, UsernameChar);
    FilterKeepsAll(s, UsernameChar);
    if forall i :: 0 <= i < |s| ==> UsernameChar(s[i]) {
      FilterTrue(s, UsernameChar);
    }
    FilterTrue(Sanitize(s), UsernameChar);
  }
}
