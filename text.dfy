/** The pieces of JavaScript's string semantics that the form validation
    relies on: `String.prototype.trim`, the regular-expression class `\S`,
    and the email pattern `/\S+@\S+\.\S+/`. */
module Text {

  /** ECMAScript WhiteSpace and LineTerminator code points: the characters
      that `trim` removes and that `\s` matches. */
  predicate IsWhitespace(c: char) {
    || c == '\t' || c == '\n' || c == '\U{000B}' || c == '\U{000C}' || c == '\r'
    || c == ' ' || c == '\U{00A0}' || c == '\U{1680}'
    || ('\U{2000}' <= c <= '\U{200A}')
    || c == '\U{2028}' || c == '\U{2029}' || c == '\U{202F}' || c == '\U{205F}'
    || c == '\U{3000}' || c == '\U{FEFF}'
  }

  predicate AllWhitespace(s: string) {
    forall i :: 0 <= i < |s| ==> IsWhitespace(s[i])
  }

  /** `s` with its leading whitespace removed. */
  function TrimStart(s: string): (r: string)
    ensures |r| <= |s| && r == s[|s| - |r|..]
    ensures r == [] || !IsWhitespace(r[0])
    ensures AllWhitespace(s[..|s| - |r|])
  {
    if s != [] && IsWhitespace(s[0]) then TrimStart(s[1..]) else s
  }

  /** `s` with its trailing whitespace removed. */
  function TrimEnd(s: string): (r: string)
    ensures |r| <= |s| && r == s[..|r|]
    ensures r == [] || !IsWhitespace(r[|r| - 1])
    ensures AllWhitespace(s[|r|..])
  {
    if s != [] && IsWhitespace(s[|s| - 1]) then TrimEnd(s[..|s| - 1]) else s
  }

  /** `s.trim()`: `s` with whitespace cut off at both ends. It is empty
      exactly when `s` is all whitespace, and otherwise starts and ends with a
      non-whitespace character. */
  function Trim(s: string): (r: string)
    ensures |r| <= |s|
    ensures exists i, j :: 0 <= i <= j <= |s| && r == s[i..j] && AllWhitespace(s[..i]) && AllWhitespace(s[j..])
    ensures r == [] <==> AllWhitespace(s)
    ensures r != [] ==> !IsWhitespace(r[0]) && !IsWhitespace(r[|r| - 1])
  {
    var t := TrimStart(s);
    var r := TrimEnd(t);
    TrimSlices(s, t, r);
    assert r == [] ==> s[..|s| - |t|] == s;
    r
  }

  /** A piece of a suffix of `s` is a piece of `s`. */
  lemma TrimSlices(s: string, t: string, r: string)
    requires |t| <= |s| && t == s[|s| - |t|..] && AllWhitespace(s[..|s| - |t|])
    requires |r| <= |t| && r == t[..|r|] && AllWhitespace(t[|r|..])
    ensures var i := |s| - |t|;
      r == s[i..i + |r|] && AllWhitespace(s[..i]) && AllWhitespace(s[i + |r|..])
  {
    var i := |s| - |t|;
    assert s[i + |r|..] == t[|r|..];
  }

  /** `!s.trim()`: the string is empty or whitespace only (that this is the
      same as an empty trim is `BlankIffEmptyTrim`). */
  predicate IsBlank(s: string) {
    AllWhitespace(s)
  }

  /** The truthiness of `s.trim()`, as a filter callback. */
  predicate HasContent(s: string) {
    !IsBlank(s)
  }

  lemma BlankIffEmptyTrim(s: string)
    ensures IsBlank(s) <==> Trim(s) == []
  {
  }

  /** A string without whitespace at either end is its own trim. */
  lemma {:induction false} TrimUntrimmed(s: string)
    requires s != [] ==> !IsWhitespace(s[0]) && !IsWhitespace(s[|s| - 1])
    ensures Trim(s) == s
  {
  }

  /** `trim` is idempotent. */
  lemma TrimIdempotent(s: string)
    ensures Trim(Trim(s)) == Trim(s)
  {
    TrimUntrimmed(Trim(s));
  }

  /** The regular expression `/\S+@\S+\.\S+/` matches `s` with the `@` at
      index `a` and the `.` at index `d`: one non-whitespace character before
      the `@`, one or more non-whitespace characters between the `@` and the
      `.`, and one non-whitespace character after the `.`. The pattern is not
      anchored, so nothing is said about the rest of `s`. */
  predicate EmailMatchAt(s: string, a: int, d: int)
    requires 0 < a && a + 2 <= d && d + 1 < |s|
  {
    && s[a] == '@' && !IsWhitespace(s[a - 1])
    && (forall k :: a < k < d ==> !IsWhitespace(s[k]))
    && s[d] == '.' && !IsWhitespace(s[d + 1])
  }

  /** `/\S+@\S+\.\S+/.test(s)` */
  predicate MatchesEmailPattern(s: string) {
    exists a, d | 0 < a < |s| && a + 2 <= d < |s| - 1 :: EmailMatchAt(s, a, d)
  }

  /** A match needs an `@` and a `.`, which rules out blank strings. */
  lemma EmailPatternNeedsAtAndDot(s: string)
    requires MatchesEmailPattern(s)
    ensures '@' in s && '.' in s && !IsBlank(s)
  {
    var a, d :| 0 < a < |s| && a + 2 <= d < |s| - 1 && EmailMatchAt(s, a, d);
    assert s[a] == '@' && s[d] == '.';
    assert !IsWhitespace(s[a]);
  }

  /** The pattern is unanchored: surrounding text never spoils a match. */
  lemma EmailPatternUnanchored(s: string, before: string, after: string)
    requires MatchesEmailPattern(s)
    ensures MatchesEmailPattern(before + s + after)
  {
    var a, d :| 0 < a < |s| && a + 2 <= d < |s| - 1 && EmailMatchAt(s, a, d);
    var t := before + s + after;
    var n := |before|;
    assert forall k :: 0 <= k < |s| ==> t[n + k] == s[k];
    assert forall k :: a < k < d ==> t[n + k] == s[k];
    assert EmailMatchAt(t, n + a, n + d);
  }

  /** The address of the apiModels test case matches. */
  lemma EmailPatternAcceptsExample()
    ensures MatchesEmailPattern("john@example.com")
  {
    assert EmailMatchAt("john@example.com", 4, 12);
  }

  /** A string without `@` never matches. */
  lemma EmailPatternRejectsExample()
    ensures !MatchesEmailPattern("invalid-email")
  {
    var s := "invalid-email";
    assert forall i :: 0 <= i < |s| ==> s[i] != '@';
    if MatchesEmailPattern(s) {
      EmailPatternNeedsAtAndDot(s);
    }
  }
}
