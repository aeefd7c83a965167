/**
 * The password-strength rule shared by the server (signup and reset) and the
 * signup form: the regular expression
 *   ^(?=.*[a-z])(?=.*[A-Z])(?=.*\d)(?=.*[@$!%*?&])[A-Za-z\d@$!%*?&]{8,}$
 * applied through `.test` with no flags, so `\d` is [0-9], `.` stops at a line terminator
 * and `$` is the end of the input.
 */
module PasswordPolicy {

  predicate IsLower(c: char) { 'a' <= c <= 'z' }
  predicate IsUpper(c: char) { 'A' <= c <= 'Z' }
  predicate IsDigit(c: char) { '0' <= c <= '9' }

  /** The regex's symbol class `[@$!%*?&]`. */
  predicate IsSymbol(c: char) { c in "@$!%*?&" }

  /** The body class `[A-Za-z\d@$!%*?&]`. */
  predicate InBodyClass(c: char) { IsLower(c) || IsUpper(c) || IsDigit(c) || IsSymbol(c) }

  /** The characters JavaScript's `.` does not match. */
  predicate IsLineTerminator(c: char) { c == '\n' || c == '\r' || c == '\U{2028}' || c == '\U{2029}' }

  /** `(?=.*[cls])` at the start of `s`: a `cls` character reached through non-terminators. */
  predicate Lookahead(s: string, cls: char -> bool)
  {
    exists i :: 0 <= i < |s| && cls(s[i]) && forall j :: 0 <= j < i ==> !IsLineTerminator(s[j])
  }

  /** `passwordRegex.test(s)`: the four lookaheads, then eight or more body characters to the end. */
  predicate RegexTest(s: string)
  {
    && Lookahead(s, IsLower)
    && Lookahead(s, IsUpper)
    && Lookahead(s, IsDigit)
    && Lookahead(s, IsSymbol)
    && |s| >= 8
    && forall i :: 0 <= i < |s| ==> InBodyClass(s[i])
  }

  predicate Contains(s: string, cls: char -> bool)
  {
    exists i :: 0 <= i < |s| && cls(s[i])
  }

  /** The policy in plain words: long enough, only allowed characters, one of each kind. */
  predicate IsStrong(s: string)
  {
    && |s| >= 8
    && (forall i :: 0 <= i < |s| ==> InBodyClass(s[i]))
    && Contains(s, IsLower)
    && Contains(s, IsUpper)
    && Contains(s, IsDigit)
    && Contains(s, IsSymbol)
  }

  /** No body character is a line terminator, so a body-only string meets a lookahead as soon as it contains the class. */
  lemma {:induction false} LookaheadOnBody(s: string, cls: char -> bool)
    requires forall i :: 0 <= i < |s| ==> InBodyClass(s[i])
    ensures Lookahead(s, cls) <==> Contains(s, cls)
  {
    if Contains(s, cls) {
      var i :| 0 <= i < |s| && cls(s[i]);
      forall j | 0 <= j < i ensures !IsLineTerminator(s[j]) {
        assert InBodyClass(s[j]);
      }
    }
  }

  /** The regex accepts exactly the strong passwords. */
  lemma RegexTestIsStrong(s: string)
    ensures RegexTest(s) <==> IsStrong(s)
  {
    if forall i :: 0 <= i < |s| ==> InBodyClass(s[i]) {
      LookaheadOnBody(s, IsLower);
      LookaheadOnBody(s, IsUpper);
      LookaheadOnBody(s, IsDigit);
      LookaheadOnBody(s, IsSymbol);
    }
  }

  /** "Abcdef1!" is accepted. */
  lemma AcceptsExample()
    ensures RegexTest("Abcdef1!")
  {
    var good := "Abcdef1!";
    assert IsLower(good[1]) && IsUpper(good[0]) && IsDigit(good[6]) && IsSymbol(good[7]);
    assert forall i :: 0 <= i < |good| ==> InBodyClass(good[i]);
    RegexTestIsStrong(good);
  }

  /** "abcdefgh" (no upper case), "Ab1!" (too short) and "Abcdef1#" ('#' is outside the class) are refused. */
  lemma RefusesExamples()
    ensures !RegexTest("abcdefgh")
    ensures !RegexTest("Ab1!")
    ensures !RegexTest("Abcdef1#")
  {
    var lowerOnly := "abcdefgh";
    assert forall i :: 0 <= i < |lowerOnly| ==> !IsUpper(lowerOnly[i]);
    RegexTestIsStrong(lowerOnly);
    assert !InBodyClass("Abcdef1#"[7]);
  }
}
