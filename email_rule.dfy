/**
 * The e-mail rule shared by the account-creation and password-recovery
 * screens: the pattern `^[^\s@]+@[^\s@]+\.[^\s@]+$` and the normalisation
 * (trim, then lower-case) applied before it.
 */
module EmailRule {
  import opened JsText

  /** Every character is matched by `[^\s@]`. */
  predicate Plain(t: string) {
    forall k :: 0 <= k < |t| ==> !IsWhitespace(t[k]) && t[k] != '@'
  }

  /**
   * The pattern as a regular expression reads it: a non-empty plain local
   * part, '@', a non-empty plain run, '.', and a non-empty plain tail. The
   * middle run and the tail may themselves hold further dots.
   */
  ghost predicate MatchesEmailPattern(s: string) {
    exists i, j :: 0 < i && i + 1 < j < |s| - 1 && s[i] == '@' && s[j] == '.'
      && Plain(s[..i]) && Plain(s[i + 1..j]) && Plain(s[j + 1..])
  }

  /** The first position of `c` in `s`, or -1. */
  function IndexOf(s: string, c: char): (i: int)
    ensures -1 <= i < |s|
    ensures i >= 0 ==> s[i] == c
    ensures forall k :: 0 <= k < |s| && (i < 0 || k < i) ==> s[k] != c
  {
    if |s| == 0 then -1
    else if s[0] == c then 0
    else
      var r := IndexOf(s[1..], c);
      if r < 0 then -1 else r + 1
  }

  /**
   * `isValidEmail(email)`, decided by scanning: the first '@' is not at the
   * start, nothing after it is blank or another '@', and a dot sits strictly
   * inside what follows it.
   */
  predicate IsValidEmail(s: string) {
    var i := IndexOf(s, '@');
    0 < i && Plain(s[..i]) && Plain(s[i + 1..])
    && var rest := s[i + 1..];
    |rest| >= 3 && IndexOf(rest[1..|rest| - 1], '.') >= 0
  }

  /** `email.trim().toLowerCase()`. */
  function Normalize(email: string): string {
    ToLowerCase(Trim(email))
  }

  // ---------------------------------------------------------------------------
  // Properties

  /** The scanner accepts exactly the texts the pattern matches. */
  lemma ValidIffMatches(s: string)
    ensures IsValidEmail(s) <==> MatchesEmailPattern(s)
  {
    if IsValidEmail(s) {
      ValidMatches(s);
    }
    if MatchesEmailPattern(s) {
      var i, j :| 0 < i && i + 1 < j < |s| - 1 && s[i] == '@' && s[j] == '.'
        && Plain(s[..i]) && Plain(s[i + 1..j]) && Plain(s[j + 1..]);
      MatchValid(s, i, j);
    }
  }

  lemma ValidMatches(s: string)
    requires IsValidEmail(s)
    ensures MatchesEmailPattern(s)
  {
    var i := IndexOf(s, '@');
    var rest := s[i + 1..];
    var inner := rest[1..|rest| - 1];
    var d := IndexOf(inner, '.');
    var j := i + 2 + d;
    assert s[j] == inner[d];
    assert s[i + 1..j] == rest[..j - (i + 1)];
    assert s[j + 1..] == rest[j - i..];
    assert Plain(s[i + 1..j]) && Plain(s[j + 1..]);
  }

  lemma MatchValid(s: string, i: int, j: int)
    requires 0 < i && i + 1 < j < |s| - 1 && s[i] == '@' && s[j] == '.'
    requires Plain(s[..i]) && Plain(s[i + 1..j]) && Plain(s[j + 1..])
    ensures IsValidEmail(s)
  {
    FirstAt(s, i);
    var rest := s[i + 1..];
    forall k | 0 <= k < |rest|
      ensures !IsWhitespace(rest[k]) && rest[k] != '@'
    {
      if i + 1 + k < j {
        assert rest[k] == s[i + 1..j][k];
      } else if i + 1 + k > j {
        assert rest[k] == s[j + 1..][i + k - j];
      }
    }
    var inner := rest[1..|rest| - 1];
    assert inner[j - i - 2] == '.';
  }

  /** An '@' with none before it is the one `IndexOf` finds. */
  lemma FirstAt(s: string, i: int)
    requires 0 <= i < |s| && s[i] == '@' && Plain(s[..i])
    ensures IndexOf(s, '@') == i
  {
  }

  /** The empty text is never valid, so the screens' own emptiness test adds nothing. */
  lemma EmptyIsInvalid()
    ensures !IsValidEmail("")
  {
  }

  /** Normalising a normalised address changes nothing. */
  lemma NormalizeIdempotent(email: string)
    ensures Normalize(Normalize(email)) == Normalize(email)
  {
    var n := Normalize(email);
    NormalizedShape(email);
    TrimFixed(n);
    LowerIdempotent(n);
  }

  lemma TrimFixed(n: string)
    requires n == [] || (!IsWhitespace(n[0]) && !IsWhitespace(n[|n| - 1]))
    ensures Trim(n) == n
  {
    assert [] + n + [] == n;
    TrimExact([], n, []);
  }

  lemma LowerIdempotent(n: string)
    requires forall k :: 0 <= k < |n| ==> !IsUpper(n[k])
    ensures ToLowerCase(n) == n
  {
    var r := ToLowerCase(n);
    forall k | 0 <= k < |n|
      ensures r[k] == n[k]
    {
    }
  }

  /** The normalised form of an address never has blank ends or upper-case letters. */
  lemma NormalizedShape(email: string)
    ensures var n := Normalize(email);
      (n == [] || (!IsWhitespace(n[0]) && !IsWhitespace(n[|n| - 1])))
      && forall k :: 0 <= k < |n| ==> !IsUpper(n[k])
  {
    var t := Trim(email);
    var n := ToLowerCase(t);
    if n != [] {
      assert LowerChar(t[0]) == n[0] && LowerChar(t[|t| - 1]) == n[|n| - 1];
      LowerKeepsNonBlank(t[0]);
      LowerKeepsNonBlank(t[|t| - 1]);
    }
  }

  /** Lower-casing never turns a visible character into a blank. */
  lemma LowerKeepsNonBlank(c: char)
    requires !IsWhitespace(c)
    ensures !IsWhitespace(LowerChar(c))
  {
    if 'A' <= c <= 'Z' {
      assert 'a' <= LowerChar(c) <= 'z';
    }
  }
}
