/**
 * The regular expressions the sign-in, sign-up, reset and forgot-password forms
 * test their fields against, each written as a predicate over the whole string
 * (every pattern is anchored with `^…$` or, for the password rule, with `^`
 * followed by lookaheads only), and the Yup rule chains the forms share.
 */
module Patterns {
  import opened Optional
  import opened Text

  /*** /^[^\s@]+@[^\s@]+\.[^\s@]+$/ ***/

  /** The class `[^\s@]`. */
  predicate IsAtomChar(c: char) { !IsSpace(c) && c != '@' }

  /** `[^\s@]+`. */
  predicate IsAtom(s: string) {
    |s| >= 1 && forall i :: 0 <= i < |s| ==> IsAtomChar(s[i])
  }

  /**
   * The email pattern read off the regex: a run of atom characters, '@', a run,
   * a literal '.', and a last run. Since a run may itself hold dots, the
   * literal dot may be any dot of the domain.
   */
  predicate EmailPattern(s: string)
    ensures EmailPattern(s) ==> '@' in s && |s| >= 5
  {
    exists at: nat, dot: nat | at < dot < |s| ::
      s[at] == '@' && s[dot] == '.'
      && IsAtom(s[..at]) && IsAtom(s[at + 1..dot]) && IsAtom(s[dot + 1..])
  }

  predicate NoSpace(s: string) { forall i :: 0 <= i < |s| ==> !IsSpace(s[i]) }

  /** `s` holds '@' at index `at` and nowhere else. */
  predicate OnlyAtSignAt(s: string, at: nat) {
    at < |s| && s[at] == '@' && forall i :: 0 <= i < |s| && i != at ==> s[i] != '@'
  }

  /**
   * The same language described by its shape: no white space, exactly one '@',
   * not in first place, and a '.' after it that is neither the first nor the
   * last character of the domain.
   */
  predicate EmailShape(s: string) {
    && NoSpace(s)
    && exists at: nat | 0 < at < |s| ::
         OnlyAtSignAt(s, at) && exists dot: nat | at + 1 < dot < |s| - 1 :: s[dot] == '.'
  }

  lemma EmailPatternIsShape(s: string)
    requires EmailPattern(s)
    ensures EmailShape(s)
  {
    var at: nat, dot: nat :| at < dot < |s| && s[at] == '@' && s[dot] == '.'
      && IsAtom(s[..at]) && IsAtom(s[at + 1..dot]) && IsAtom(s[dot + 1..]);
    forall i | 0 <= i < |s| && i != at
      ensures IsAtomChar(s[i])
    {
      if i < at {
        assert s[..at][i] == s[i];
      } else if at < i < dot {
        assert s[at + 1..dot][i - at - 1] == s[i];
      } else if dot < i {
        assert s[dot + 1..][i - dot - 1] == s[i];
      }
    }
    assert NoSpace(s) by {
      forall i | 0 <= i < |s| ensures !IsSpace(s[i]) {
        if i == at {
          assert s[i] == '@';
        }
      }
    }
    assert OnlyAtSignAt(s, at);
    assert at + 1 < dot < |s| - 1;
  }

  lemma ShapeIsEmailPattern(s: string)
    requires EmailShape(s)
    ensures EmailPattern(s)
  {
    var at: nat :| 0 < at < |s| && OnlyAtSignAt(s, at)
      && exists dot: nat | at + 1 < dot < |s| - 1 :: s[dot] == '.';
    var dot: nat :| at + 1 < dot < |s| - 1 && s[dot] == '.';
    var local, domain, last := s[..at], s[at + 1..dot], s[dot + 1..];
    forall i | 0 <= i < |local| ensures IsAtomChar(local[i]) {
      assert local[i] == s[i];
    }
    forall i | 0 <= i < |domain| ensures IsAtomChar(domain[i]) {
      assert domain[i] == s[at + 1 + i];
    }
    forall i | 0 <= i < |last| ensures IsAtomChar(last[i]) {
      assert last[i] == s[dot + 1 + i];
    }
  }

  /** The regex accepts exactly the strings of that shape. */
  lemma EmailPatternShape(s: string)
    ensures EmailPattern(s) <==> EmailShape(s)
  {
    if EmailPattern(s) {
      EmailPatternIsShape(s);
    }
    if EmailShape(s) {
      ShapeIsEmailPattern(s);
    }
  }

  /*** /^[a-zA-Z0-9_.]{3,20}$/ ***/

  predicate IsUsernameChar(c: char) { IsLetter(c) || IsDigit(c) || c == '_' || c == '.' }

  predicate UsernamePattern(s: string)
    ensures UsernamePattern(s) ==> '@' !in s && NoSpace(s)
  {
    3 <= |s| <= 20 && forall i :: 0 <= i < |s| ==> IsUsernameChar(s[i])
  }

  /*** /^[A-Za-z]{3,}$/ ***/

  predicate NamePattern(s: string)
    ensures NamePattern(s) ==> NoSpace(s) && forall i :: 0 <= i < |s| ==> !IsDigit(s[i])
  {
    |s| >= 3 && forall i :: 0 <= i < |s| ==> IsLetter(s[i])
  }

  /*** /^(\+20|0)?1\d{9}$/ ***/

  /** `1\d{9}`. */
  predicate PhoneBody(t: string) {
    |t| == 10 && t[0] == '1' && AllDigits(t[1..])
  }

  /** The three alternatives of the optional prefix: none, `0`, or `+20`. */
  predicate PhonePattern(s: string)
    ensures PhonePattern(s) ==> 10 <= |s| <= 13 && NoSpace(s)
  {
    || PhoneBody(s)
    || (|s| >= 1 && s[0] == '0' && PhoneBody(s[1..]))
    || (|s| >= 3 && s[..3] == "+20" && PhoneBody(s[3..]))
  }

  /**
   * An accepted number has 10, 11 or 13 characters, ends in a '1' followed by
   * nine digits, and holds no character other than digits after an optional
   * leading '+'.
   */
  lemma PhonePatternShape(s: string)
    requires PhonePattern(s)
    ensures |s| == 10 || |s| == 11 || |s| == 13
    ensures s[|s| - 10] == '1' && AllDigits(s[|s| - 9..])
    ensures |s| == 13 <==> s[0] == '+'
    ensures AllDigits(s[1..])
  {
    if |s| >= 1 && s[0] == '0' && PhoneBody(s[1..]) {
      assert s[1..][1..] == s[2..];
      assert s[|s| - 9..] == s[1..][1..];
      forall i | 0 <= i < |s| - 1 ensures IsDigit(s[1..][i]) {
        if i > 0 {
          assert s[1..][i] == s[1..][1..][i - 1];
        }
      }
    } else if |s| >= 3 && s[..3] == "+20" && PhoneBody(s[3..]) {
      assert s[3..][1..] == s[4..];
      assert s[|s| - 9..] == s[3..][1..];
      assert s[1] == s[..3][1] && s[2] == s[..3][2];
      forall i | 0 <= i < |s| - 1 ensures IsDigit(s[1..][i]) {
        if i == 2 {
          assert s[1..][i] == s[3..][0];
        } else if i > 2 {
          assert s[1..][i] == s[3..][1..][i - 3];
        }
      }
    }
  }

  /** Both numbers quoted in the phone field's error message match the pattern. */
  lemma PhoneMessageExamples()
    ensures PhonePattern("+201063361951") && PhonePattern("01063361951")
  {
    assert "+201063361951"[..3] == "+20";
    assert "+201063361951"[3..] == "1063361951";
    assert "01063361951"[1..] == "1063361951";
    assert "1063361951"[1..] == "063361951";
  }

  /*** /^(?=.*[A-Z])(?=.*[a-z])(?=.*\d)(?=.*[@$!%*?&])/ ***/

  /** The four character classes the password rule looks ahead for. */
  datatype CharClass = Upper | Lower | Digit | Special

  predicate InClass(c: char, k: CharClass) {
    match k
    case Upper => IsUpper(c)
    case Lower => IsLower(c)
    case Digit => IsDigit(c)
    case Special => c in "@$!%*?&"
  }

  predicate NoLineTerminator(s: string) {
    forall i :: 0 <= i < |s| ==> !IsLineTerminator(s[i])
  }

  /**
   * `(?=.*[k])` at the start of the input: a run of characters other than line
   * terminators (what `.` matches), then a character of class `k`.
   */
  predicate Lookahead(s: string, k: CharClass)
    ensures Lookahead(s, k) ==> HasClass(s, k)
  {
    exists i: nat | i < |s| :: NoLineTerminator(s[..i]) && InClass(s[i], k)
  }

  /** Some character of `s` belongs to class `k`, wherever it stands. */
  predicate HasClass(s: string, k: CharClass) {
    exists i: nat | i < |s| :: InClass(s[i], k)
  }

  /** The order of the lookaheads does not matter: they all start at position 0. */
  predicate HasAllClasses(s: string)
    ensures HasAllClasses(s) ==> forall k: CharClass :: HasClass(s, k)
  {
    Lookahead(s, Upper) && Lookahead(s, Lower) && Lookahead(s, Digit) && Lookahead(s, Special)
  }

  /** The characters before the first line terminator. */
  function FirstLine(s: string): (r: string)
    ensures r <= s && NoLineTerminator(r)
    ensures |r| < |s| ==> IsLineTerminator(s[|r|])
  {
    if s == [] || IsLineTerminator(s[0]) then [] else [s[0]] + FirstLine(s[1..])
  }

  /** A run of non-terminators from the start, followed by a non-terminator, stays inside the first line. */
  lemma FirstLineIsLongestRun(s: string, i: nat)
    requires i < |s| && NoLineTerminator(s[..i]) && !IsLineTerminator(s[i])
    ensures i < |FirstLine(s)|
  {
    forall j | 0 <= j < i ensures !IsLineTerminator(s[j]) {
      assert s[..i][j] == s[j];
    }
  }

  /** A lookahead succeeds exactly when the first line holds a character of the class. */
  lemma LookaheadFirstLine(s: string, k: CharClass)
    ensures Lookahead(s, k) <==> HasClass(FirstLine(s), k)
  {
    var r := FirstLine(s);
    if Lookahead(s, k) {
      var i: nat :| i < |s| && NoLineTerminator(s[..i]) && InClass(s[i], k);
      FirstLineIsLongestRun(s, i);
      assert r[i] == s[i];
    }
    if HasClass(r, k) {
      var i: nat :| i < |r| && InClass(r[i], k);
      assert s[..i] == r[..i];
      assert forall j :: 0 <= j < i ==> s[..i][j] == r[j];
      assert s[i] == r[i];
    }
  }

  /** On one line, the password rule asks for each class anywhere in the string. */
  lemma SingleLineLookahead(s: string, k: CharClass)
    requires NoLineTerminator(s)
    ensures Lookahead(s, k) <==> HasClass(s, k)
  {
    if HasClass(s, k) {
      var i: nat :| i < |s| && InClass(s[i], k);
      assert forall j :: 0 <= j < i ==> s[..i][j] == s[j];
      assert NoLineTerminator(s[..i]);
    }
  }

  /**
   * A class character after a line break does not count: if none occurs before
   * the break, the lookahead fails whatever follows it.
   */
  lemma LineBreakHidesClass(a: string, brk: char, b: string, k: CharClass)
    requires IsLineTerminator(brk)
    requires forall i :: 0 <= i < |a| ==> !InClass(a[i], k)
    ensures !Lookahead(a + [brk] + b, k)
  {
    var s := a + [brk] + b;
    forall i | 0 <= i < |s| ensures InClass(s[i], k) ==> !NoLineTerminator(s[..i]) {
      if i < |a| {
        assert s[i] == a[i];
      } else if i == |a| {
        assert s[i] == brk;
      } else {
        assert s[..i][|a|] == brk;
      }
    }
  }

  /*** The Yup rule chains ***/

  const PasswordRequired := "Password is required"
  const PasswordTooShort := "Password must be at least 8 characters long"
  const ConfirmRequired := "Confirm password is required"
  const PasswordsDiffer := "Passwords must match"

  /**
   * `.required().min(8).matches(…)` on a password, reporting the first rule that
   * fails; the forms differ only in the wording `classMessage` of the last rule.
   */
  function PasswordError(s: string, classMessage: string): (r: Option<string>)
    ensures r == None <==> |s| >= 8 && HasAllClasses(s)
    ensures |s| == 0 ==> r == Some(PasswordRequired)
    ensures 0 < |s| < 8 ==> r == Some(PasswordTooShort)
    ensures |s| >= 8 && !HasAllClasses(s) ==> r == Some(classMessage)
  {
    if |s| == 0 then Some(PasswordRequired)
    else if |s| < 8 then Some(PasswordTooShort)
    else if !HasAllClasses(s) then Some(classMessage)
    else None
  }

  /**
   * An accepted password has at least 8 characters with an upper-case letter, a
   * lower-case letter, a digit and a special character in its first line; on a
   * single line, those conditions are also sufficient.
   */
  lemma PasswordAccepted(s: string, classMessage: string)
    ensures PasswordError(s, classMessage) == None ==>
              |s| >= 8 && forall k: CharClass :: HasClass(s, k)
    ensures NoLineTerminator(s) && |s| >= 8 && (forall k: CharClass :: HasClass(s, k)) ==>
              PasswordError(s, classMessage) == None
  {
    if PasswordError(s, classMessage) == None {
      forall k: CharClass ensures HasClass(s, k) {
        assert Lookahead(s, k);
      }
    }
    if NoLineTerminator(s) {
      SingleLineLookahead(s, Upper);
      SingleLineLookahead(s, Lower);
      SingleLineLookahead(s, Digit);
      SingleLineLookahead(s, Special);
    }
  }

  /** `.required().oneOf([Yup.ref("password"), null])` on the confirmation. */
  function ConfirmError(confirm: string, password: string): (r: Option<string>)
    ensures r == None <==> confirm != "" && confirm == password
    ensures confirm == "" ==> r == Some(ConfirmRequired)
    ensures confirm != "" && confirm != password ==> r == Some(PasswordsDiffer)
  {
    if confirm == "" then Some(ConfirmRequired)
    else if confirm != password then Some(PasswordsDiffer)
    else None
  }

  /*** Formik's errors object ***/

  /** The message stored for `field`, if any. */
  function ErrorOf(errors: map<string, string>, field: string): Option<string> {
    if field in errors then Some(errors[field]) else None
  }

  /** Stores the first failing rule's message of `field`, or leaves the field out when every rule passes. */
  function Record(errors: map<string, string>, field: string, e: Option<string>): (r: map<string, string>)
    ensures ErrorOf(r, field) == (if e.Some? then e else ErrorOf(errors, field))
    ensures forall f :: f != field ==> ErrorOf(r, f) == ErrorOf(errors, f)
    ensures r.Keys <= errors.Keys + {field}
  {
    if e.Some? then errors[field := e.value] else errors
  }
}
