/**
 * The username check of `register` (controllers/authcontroller.js): a
 * username is refused when the JavaScript regular expression
 * `^[^\s@]+@[^\s@]+\.[^\s@]+$` matches it.
 */
module Usernames {

  /** JavaScript's `\s`: the white-space and line-terminator characters. */
  predicate IsSpace(c: char) {
    || c == ' ' || c == '\t' || c == '\n' || c == '\U{000B}' || c == '\U{000C}' || c == '\r'
    || c == '\U{00A0}' || c == '\U{1680}' || ('\U{2000}' <= c <= '\U{200A}')
    || c == '\U{2028}' || c == '\U{2029}' || c == '\U{202F}' || c == '\U{205F}'
    || c == '\U{3000}' || c == '\U{FEFF}'
  }

  /** The character class `[^\s@]`. */
  predicate WordChar(c: char) { !IsSpace(c) && c != '@' }

  /** `[^\s@]+`: a non-empty run of class characters. */
  ghost predicate WordRun(s: string) {
    |s| > 0 && forall i :: 0 <= i < |s| ==> WordChar(s[i])
  }

  /**
   * The language of the regular expression: the whole string is a run, an
   * `@`, a run, a `.` and a run.
   */
  ghost predicate MatchesEmailRegex(s: string) {
    exists a, b :: 0 <= a < b < |s| && s[a] == '@' && s[b] == '.' &&
      WordRun(s[..a]) && WordRun(s[a + 1..b]) && WordRun(s[b + 1..])
  }

  /** The domain part holds a `.` that is neither its first nor its last character. */
  predicate HasInnerDot(d: string) {
    exists k :: 0 < k < |d| - 1 && d[k] == '.'
  }

  /**
   * The same language stated by its shape: no white space, exactly one
   * `@`, a non-empty part before it, and a domain after it with an inner dot.
   */
  predicate IsEmailShaped(s: string) {
    (forall i :: 0 <= i < |s| ==> !IsSpace(s[i])) &&
    exists a :: 0 < a < |s| && s[a] == '@' &&
      (forall j :: 0 <= j < |s| && j != a ==> s[j] != '@') &&
      HasInnerDot(s[a + 1..])
  }

  /** A slice is a run exactly when it is non-empty and every character in its range is a class character. */
  lemma WordRunSlice(s: string, lo: nat, hi: nat)
    requires lo <= hi <= |s|
    ensures WordRun(s[lo..hi]) <==> lo < hi && forall i :: lo <= i < hi ==> WordChar(s[i])
  {
    assert forall i :: lo <= i < hi ==> s[lo..hi][i - lo] == s[i];
  }

  lemma {:induction false} ShapedMatchesRegex(s: string)
    requires IsEmailShaped(s)
    ensures MatchesEmailRegex(s)
  {
    var a :| 0 < a < |s| && s[a] == '@' &&
      (forall j :: 0 <= j < |s| && j != a ==> s[j] != '@') && HasInnerDot(s[a + 1..]);
    var d := s[a + 1..];
    var k :| 0 < k < |d| - 1 && d[k] == '.';
    var b := a + 1 + k;
    assert s[b] == d[k];
    WordRunSlice(s, 0, a);
    WordRunSlice(s, a + 1, b);
    WordRunSlice(s, b + 1, |s|);
    assert s[..a] == s[0..a] && s[b + 1..] == s[b + 1..|s|];
    assert WordRun(s[..a]) && WordRun(s[a + 1..b]) && WordRun(s[b + 1..]);
  }

  lemma {:induction false} RegexMatchIsShaped(s: string)
    requires MatchesEmailRegex(s)
    ensures IsEmailShaped(s)
  {
    var a, b :| 0 <= a < b < |s| && s[a] == '@' && s[b] == '.' &&
      WordRun(s[..a]) && WordRun(s[a + 1..b]) && WordRun(s[b + 1..]);
    assert s[..a] == s[0..a] && s[b + 1..] == s[b + 1..|s|];
    WordRunSlice(s, 0, a);
    WordRunSlice(s, a + 1, b);
    WordRunSlice(s, b + 1, |s|);
    assert forall j :: 0 <= j < |s| && j != a ==> WordChar(s[j]) || j == b;
    var d := s[a + 1..];
    assert d[b - a - 1] == '.';
    assert HasInnerDot(d);
  }

  /** The shape description and the regular expression accept the same strings. */
  lemma EmailShapeIsRegex(s: string)
    ensures IsEmailShaped(s) <==> MatchesEmailRegex(s)
  {
    if IsEmailShaped(s) { ShapedMatchesRegex(s); }
    if MatchesEmailRegex(s) { RegexMatchIsShaped(s); }
  }

  /** A username without an `@` is never refused. */
  lemma NoAtNeverRefused(s: string)
    requires forall i :: 0 <= i < |s| ==> s[i] != '@'
    ensures !MatchesEmailRegex(s)
  {
    EmailShapeIsRegex(s);
  }

  /** A username holding white space is never refused. */
  lemma SpaceNeverRefused(s: string, i: nat)
    requires i < |s| && IsSpace(s[i])
    ensures !MatchesEmailRegex(s)
  {
    EmailShapeIsRegex(s);
  }

  /** The regular expression accepts `a@b.com`. */
  lemma SampleEmailRefused()
    ensures MatchesEmailRegex("a@b.com")
  {
    var s := "a@b.com";
    assert s[1] == '@' && s[3] == '.';
    assert s[..1] == "a" && s[2..3] == "b" && s[4..] == "com";
    assert WordRun(s[..1]) && WordRun(s[2..3]) && WordRun(s[4..]);
    assert 0 <= 1 < 3 < |s|;
  }
}
