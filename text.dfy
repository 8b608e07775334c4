/**
 * Character classes and string helpers with the meaning the JavaScript built-ins
 * used by the storefront and the forms give them: the `\s` class and `trim`,
 * `toLowerCase` (restricted to ASCII), `includes`, and the decimal rendering of
 * an integer inside a template literal.
 */
module Text {

  predicate IsUpper(c: char) { 'A' <= c <= 'Z' }

  predicate IsLower(c: char) { 'a' <= c <= 'z' }

  predicate IsLetter(c: char) { IsUpper(c) || IsLower(c) }

  /** The regex class `\d`. */
  predicate IsDigit(c: char) { '0' <= c <= '9' }

  predicate AllDigits(s: string) { forall i :: 0 <= i < |s| ==> IsDigit(s[i]) }

  /** The code points a regex `.` refuses to match. */
  predicate IsLineTerminator(c: char) {
    c == '\n' || c == '\r' || c == '\U{2028}' || c == '\U{2029}'
  }

  /**
   * The regex class `\s`, which is also exactly what `String.prototype.trim`
   * strips: the white-space code points plus the line terminators.
   */
  predicate IsSpace(c: char) {
    || c == ' ' || c == '\t' || c == '\U{000B}' || c == '\U{000C}'
    || c == '\U{00A0}' || c == '\U{1680}' || ('\U{2000}' <= c <= '\U{200A}')
    || c == '\U{202F}' || c == '\U{205F}' || c == '\U{3000}' || c == '\U{FEFF}'
    || IsLineTerminator(c)
  }

  predicate AllSpace(s: string) { forall i :: 0 <= i < |s| ==> IsSpace(s[i]) }

  /** `toLowerCase` on one character, ASCII letters only. */
  function Lower(c: char): char {
    if IsUpper(c) then (c as int + 32) as char else c
  }

  /** `toLowerCase`: every upper-case ASCII letter lowered, every other character kept. */
  function ToLower(s: string): (r: string)
    ensures |r| == |s|
    ensures forall i :: 0 <= i < |s| ==> !IsUpper(r[i])
    ensures forall i :: 0 <= i < |s| && !IsUpper(s[i]) ==> r[i] == s[i]
    ensures forall i :: 0 <= i < |s| && IsUpper(s[i]) ==> IsLower(r[i]) && r[i] as int == s[i] as int + 32
  {
    seq(|s|, i requires 0 <= i < |s| => Lower(s[i]))
  }

  /** Lowering is idempotent and leaves no upper-case ASCII letter behind. */
  lemma ToLowerIdempotent(s: string)
    ensures ToLower(ToLower(s)) == ToLower(s)
    ensures forall i :: 0 <= i < |s| ==> !IsUpper(ToLower(s)[i])
  {
  }

  /** `s.includes(t)`: `t` occurs in `s` as a contiguous block (the empty string always does). */
  predicate Contains(s: string, t: string)
    ensures t == [] ==> Contains(s, t)
    ensures Contains(s, t) ==> |t| <= |s|
  {
    assert t == [] ==> OccursAt(s, t, 0);
    exists i: nat | i <= |s| :: OccursAt(s, t, i)
  }

  /** `t` sits in `s` at index `i`: the slice `s[i..i + |t|]` is `t`. */
  predicate OccursAt(s: string, t: string, i: nat) {
    i + |t| <= |s| && s[i..i + |t|] == t
  }

  /** Leading white space removed: what remains is a suffix of `s` that does not start with a space. */
  function TrimStart(s: string): (r: string)
    ensures |r| <= |s| && r == s[|s| - |r|..]
    ensures AllSpace(s[..|s| - |r|])
    ensures r != [] ==> !IsSpace(r[0])
  {
    if s != [] && IsSpace(s[0]) then TrimStart(s[1..]) else s
  }

  /** Trailing white space removed: what remains is a prefix of `s` that does not end with a space. */
  function TrimEnd(s: string): (r: string)
    ensures |r| <= |s| && r == s[..|r|]
    ensures AllSpace(s[|r|..])
    ensures r != [] ==> !IsSpace(r[|r| - 1])
  {
    if s != [] && IsSpace(s[|s| - 1]) then TrimEnd(s[..|s| - 1]) else s
  }

  /**
   * `s.trim()`: the slice of `s` that starts where its leading white space ends,
   * with only white space before and after it and none at either of its ends.
   */
  function Trim(s: string): (r: string)
    ensures |r| <= |s| && Contains(s, r)
    ensures r != "" ==> !IsSpace(r[0]) && !IsSpace(r[|r| - 1])
    ensures var k := |s| - |TrimStart(s)|;
      OccursAt(s, r, k) && AllSpace(s[..k]) && AllSpace(s[k + |r|..])
  {
    TrimSplitsInput(s);
    TrimEnd(TrimStart(s))
  }

  /** `s` is leading white space, then the trimmed text, then trailing white space. */
  lemma TrimSplitsInput(s: string)
    ensures var k := |s| - |TrimStart(s)|; var r := TrimEnd(TrimStart(s));
      OccursAt(s, r, k) && AllSpace(s[k + |r|..]) && Contains(s, r)
  {
    var t := TrimStart(s);
    var r := TrimEnd(t);
    assert |t| <= |s| && t == s[|s| - |t|..];
    assert |r| <= |t| && r == t[..|r|];
    assert AllSpace(t[|r|..]);
    StripBothEnds(s, t, r);
  }

  /**
   * Cutting a suffix `t` of `s`, then a prefix `r` of `t` followed only by white
   * space, leaves the slice of `s` at `|s| - |t|`, followed only by white space.
   */
  lemma StripBothEnds(s: string, t: string, r: string)
    requires |t| <= |s| && t == s[|s| - |t|..]
    requires |r| <= |t| && r == t[..|r|] && AllSpace(t[|r|..])
    ensures var k := |s| - |t|;
      OccursAt(s, r, k) && AllSpace(s[k + |r|..])
  {
    var k := |s| - |t|;
    assert s[k..][..|r|] == s[k..k + |r|];
    assert s[k..][|r|..] == s[k + |r|..];
  }

  /** `s.trim()` is empty exactly when every character of `s` is white space. */
  lemma TrimEmptyIffBlank(s: string)
    ensures Trim(s) == "" <==> AllSpace(s)
  {
    var t := TrimStart(s);
    if Trim(s) == "" {
      assert AllSpace(t[0..]);
      assert t == [];
      assert s[..|s|] == s;
    } else {
      var r := Trim(s);
      assert !IsSpace(r[0]);
      assert r[0] == t[0];
      assert t[0] == s[|s| - |t|];
    }
  }

  function DigitChar(d: nat): (c: char)
    requires d < 10
    ensures IsDigit(c)
  {
    ('0' as int + d) as char
  }

  /** The decimal digits of `n`, most significant first, with no leading zero. */
  function NatToText(n: nat): (r: string)
    ensures 1 <= |r| && AllDigits(r)
    ensures |r| > 1 ==> r[0] != '0'
    decreases n
  {
    if n < 10 then [DigitChar(n)] else NatToText(n / 10) + [DigitChar(n % 10)]
  }

  /** The number a string of decimal digits denotes. */
  function DigitsValue(s: string): nat
    requires AllDigits(s)
  {
    if s == [] then 0 else DigitsValue(s[..|s| - 1]) * 10 + (s[|s| - 1] as int - '0' as int)
  }

  /** Reading back the rendered digits gives the number. */
  lemma {:induction false} NatToTextRoundTrip(n: nat)
    ensures DigitsValue(NatToText(n)) == n
    decreases n
  {
    if n >= 10 {
      NatToTextRoundTrip(n / 10);
      var r := NatToText(n);
      assert r[..|r| - 1] == NatToText(n / 10);
    }
  }

  /** How a JavaScript integer is rendered inside a template literal. */
  function IntToText(n: int): (r: string)
    ensures |r| >= 1 && (r[0] == '-' <==> n < 0)
    ensures n >= 0 ==> AllDigits(r)
    ensures n < 0 ==> |r| >= 2 && r[0] == '-' && AllDigits(r[1..])
    ensures n >= 0 ==> DigitsValue(r) == n
    ensures n < 0 ==> DigitsValue(r[1..]) == -n
  {
    if n < 0 then
      NatToTextRoundTrip(-n);
      var r := "-" + NatToText(-n);
      assert r[1..] == NatToText(-n);
      r
    else
      NatToTextRoundTrip(n);
      NatToText(n)
  }

  /** Different integers are rendered differently: the text determines the number. */
  lemma IntToTextInjective(a: int, b: int)
    requires IntToText(a) == IntToText(b)
    ensures a == b
  {
    var r := IntToText(a);
    assert a < 0 <==> b < 0;
    if a < 0 {
      assert DigitsValue(r[1..]) == -a == -b;
    } else {
      assert DigitsValue(r) == a == b;
    }
  }
}
