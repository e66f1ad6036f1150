/** The JavaScript string operations the account service relies on:
    white space as `String.prototype.trim` and the `\s` class see it,
    trimming, and lower-casing of ASCII letters. */
module JsText {

  /** ECMAScript WhiteSpace and LineTerminator code points. */
  predicate IsWhitespace(c: char) {
    || c == '\t' || c == '\n' || c == '\U{000B}' || c == '\U{000C}' || c == '\r'
    || c == ' ' || c == '\U{00A0}' || c == '\U{1680}'
    || ('\U{2000}' <= c <= '\U{200A}')
    || c == '\U{2028}' || c == '\U{2029}' || c == '\U{202F}' || c == '\U{205F}'
    || c == '\U{3000}' || c == '\U{FEFF}'
  }

  /** ECMAScript LineTerminator code points: the ones a regular expression's `.` does not match. */
  predicate IsLineTerminator(c: char) {
    c == '\n' || c == '\r' || c == '\U{2028}' || c == '\U{2029}'
  }

  /** Number of white-space characters at the start of `s`. */
  function LeadingSpace(s: string): (n: nat)
    ensures n <= |s|
    ensures forall i :: 0 <= i < n ==> IsWhitespace(s[i])
    ensures n == |s| || !IsWhitespace(s[n])
  {
    if s != [] && IsWhitespace(s[0]) then 1 + LeadingSpace(s[1..]) else 0
  }

  /** Number of white-space characters at the end of `s`. */
  function TrailingSpace(s: string): (n: nat)
    ensures n <= |s|
    ensures forall i :: |s| - n <= i < |s| ==> IsWhitespace(s[i])
    ensures n == |s| || !IsWhitespace(s[|s| - n - 1])
  {
    if s != [] && IsWhitespace(s[|s| - 1]) then 1 + TrailingSpace(s[..|s| - 1]) else 0
  }

  /** `trim()`: `s` without its leading and trailing white space. The result is
      the piece of `s` that starts at its first non-blank character, everything
      around it is blank, and it neither starts nor ends with white space. */
  function Trim(s: string): (r: string)
    ensures |r| <= |s|
    ensures LeadingSpace(s) + |r| <= |s| && r == s[LeadingSpace(s)..LeadingSpace(s) + |r|]
    ensures forall i :: 0 <= i < LeadingSpace(s) ==> IsWhitespace(s[i])
    ensures forall i :: LeadingSpace(s) + |r| <= i < |s| ==> IsWhitespace(s[i])
    ensures r == [] || (!IsWhitespace(r[0]) && !IsWhitespace(r[|r| - 1]))
  {
    var t := s[LeadingSpace(s)..];
    var r := t[..|t| - TrailingSpace(t)];
    assert forall i :: LeadingSpace(s) + |r| <= i < |s| ==> s[i] == t[i - LeadingSpace(s)];
    r
  }

  /** Trimming is determined by the blank margins alone: whenever `s[i..j]`
      is surrounded by white space and does not itself start or end with
      white space, it is what `Trim` returns. */
  lemma TrimUnique(s: string, i: nat, j: nat)
    requires i <= j <= |s|
    requires forall k :: 0 <= k < i ==> IsWhitespace(s[k])
    requires forall k :: j <= k < |s| ==> IsWhitespace(s[k])
    requires i == j || (!IsWhitespace(s[i]) && !IsWhitespace(s[j - 1]))
    ensures Trim(s) == s[i..j]
  {
  }

  /** Trimming twice is trimming once. */
  lemma TrimIdempotent(s: string)
    ensures Trim(Trim(s)) == Trim(s)
  {
  }

  /** A string padded on both sides by white space trims to its trimmed core. */
  lemma TrimPadded(a: string, m: string, b: string)
    requires forall k :: 0 <= k < |a| ==> IsWhitespace(a[k])
    requires forall k :: 0 <= k < |b| ==> IsWhitespace(b[k])
    ensures Trim(a + m + b) == Trim(m)
  {
    var s := a + m + b;
    var n := LeadingSpace(m);
    var r := Trim(m);
    assert s[|a| + n..|a| + n + |r|] == r;
    TrimUnique(s, |a| + n, |a| + n + |r|);
  }

  function AsciiLower(c: char): (d: char)
    ensures 'A' <= c <= 'Z' ==> d as int == c as int + 32
    ensures !('A' <= c <= 'Z') ==> d == c
  {
    if 'A' <= c <= 'Z' then (c as int + 32) as char else c
  }

  /** `toLowerCase()` restricted to ASCII: every letter A-Z becomes its lower-case
      form, nothing else changes, and no upper-case ASCII letter remains. */
  function LowerCase(s: string): (r: string)
    ensures |r| == |s|
    ensures forall i :: 0 <= i < |s| ==> r[i] == AsciiLower(s[i])
    ensures forall i :: 0 <= i < |r| ==> !('A' <= r[i] <= 'Z')
  {
    seq(|s|, i requires 0 <= i < |s| => AsciiLower(s[i]))
  }

  /** Lower-casing touches no white space, so it commutes with trimming: the
      order in which the `lowercase` and `trim` setters run does not matter. */
  lemma {:induction false} LowerCaseTrimCommute(s: string)
    ensures LowerCase(Trim(s)) == Trim(LowerCase(s))
  {
    var l := LowerCase(s);
    var n := LeadingSpace(s);
    var r := Trim(s);
    assert forall k :: 0 <= k < |s| ==> (IsWhitespace(l[k]) <==> IsWhitespace(s[k]));
    assert LowerCase(r) == l[n..n + |r|];
    TrimUnique(l, n, n + |r|);
  }
}
