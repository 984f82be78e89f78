/**
 * The JavaScript string built-ins the core relies on: whitespace, `trim`,
 * `join`, single-character `replace(/c/g, d)`, and ASCII case-insensitive
 * comparison as the regex `i` flag performs it for ASCII patterns.
 * A string is a sequence of Unicode scalar values, one `char` each. On text in the
 * Basic Multilingual Plane these are exactly JavaScript's UTF-16 code units.
 */
module Text {

  /** WhiteSpace and LineTerminator of ECMA-262 (sections 12.2 and 12.3):
      the set `String.prototype.trim` removes and the regex class `\s` matches. */
  predicate IsWhitespace(c: char)
  {
    // WhiteSpace: TAB, VT, FF, ZWNBSP and the Zs category
    || c == '\U{9}' || c == '\U{B}' || c == '\U{C}' || c == '\U{FEFF}'
    || c == ' ' || c == '\U{A0}' || c == '\U{1680}' || ('\U{2000}' <= c <= '\U{200A}')
    || c == '\U{202F}' || c == '\U{205F}' || c == '\U{3000}'
    // LineTerminator: LF, CR, LS, PS
    || c == '\n' || c == '\r' || c == '\U{2028}' || c == '\U{2029}'
  }

  predicate AllWhitespace(s: string)
  {
    forall k :: 0 <= k < |s| ==> IsWhitespace(s[k])
  }

  /** Length of the longest all-whitespace prefix (what a greedy `\s*` consumes). */
  function LeadingWhitespace(s: string): (n: nat)
    ensures n <= |s|
    ensures AllWhitespace(s[..n])
    ensures n == |s| || !IsWhitespace(s[n])
  {
    if s != [] && IsWhitespace(s[0]) then
      var m := LeadingWhitespace(s[1..]);
      assert s[1..][..m] == s[1..m + 1];
      1 + m
    else 0
  }

  /** Length of the longest all-whitespace suffix. */
  function TrailingWhitespace(s: string): (n: nat)
    ensures n <= |s|
    ensures AllWhitespace(s[|s| - n..])
    ensures n == |s| || !IsWhitespace(s[|s| - n - 1])
  {
    if s != [] && IsWhitespace(s[|s| - 1]) then
      var m := TrailingWhitespace(s[..|s| - 1]);
      assert s[..|s| - 1][|s| - 1 - m..] == s[|s| - 1 - m..|s| - 1];
      1 + m
    else 0
  }

  /** `String.prototype.trimStart`. */
  function TrimStart(s: string): (r: string)
    ensures |r| <= |s| && r == s[|s| - |r|..]
    ensures r == [] || !IsWhitespace(r[0])
    ensures AllWhitespace(s[..|s| - |r|])
  {
    s[LeadingWhitespace(s)..]
  }

  /** `String.prototype.trimEnd`. */
  function TrimEnd(s: string): (r: string)
    ensures |r| <= |s| && r == s[..|r|]
    ensures r == [] || !IsWhitespace(r[|r| - 1])
    ensures AllWhitespace(s[|r|..])
  {
    s[..|s| - TrailingWhitespace(s)]
  }

  /** `String.prototype.trim`: a contiguous slice of `s` with whitespace only
      outside it, and no whitespace at either end of it. */
  function Trim(s: string): (r: string)
    ensures LeadingWhitespace(s) + |r| <= |s|
    ensures r == s[LeadingWhitespace(s)..LeadingWhitespace(s) + |r|]
    ensures AllWhitespace(s[LeadingWhitespace(s) + |r|..])
    ensures r == [] || (!IsWhitespace(r[0]) && !IsWhitespace(r[|r| - 1]))
  {
    TrimEnd(TrimStart(s))
  }

  /** Trimming leaves nothing exactly when the string is all whitespace. */
  lemma TrimEmptyIff(s: string)
    ensures Trim(s) == [] <==> AllWhitespace(s)
  {
    var n := LeadingWhitespace(s);
    if Trim(s) == [] {
      assert AllWhitespace(s[n..]);
      assert n == |s|;
      assert s[..n] == s;
    }
    if AllWhitespace(s) {
      assert n == |s|;
    }
  }

  /** Trimming a trimmed string changes nothing. */
  lemma TrimIdempotent(s: string)
    ensures Trim(Trim(s)) == Trim(s)
  {
    var t := Trim(s);
    assert LeadingWhitespace(t) == 0;
    if t != [] { assert TrailingWhitespace(t) == 0; }
  }

  /** A string with no whitespace at either end is its own trim. */
  lemma TrimOfTrimmed(s: string)
    requires s == [] || (!IsWhitespace(s[0]) && !IsWhitespace(s[|s| - 1]))
    ensures Trim(s) == s
  {
    assert LeadingWhitespace(s) == 0;
    if s != [] { assert TrailingWhitespace(s) == 0; }
  }

  /** `Array.prototype.join(sep)`. */
  function Join(xs: seq<string>, sep: string): string
  {
    if |xs| == 0 then ""
    else if |xs| == 1 then xs[0]
    else xs[0] + sep + Join(xs[1..], sep)
  }

  /** Joining a concatenation puts one separator between the two joined halves. */
  lemma {:induction false} JoinAppend(xs: seq<string>, ys: seq<string>, sep: string)
    requires xs != [] && ys != []
    ensures Join(xs + ys, sep) == Join(xs, sep) + sep + Join(ys, sep)
  {
    if |xs| == 1 {
      assert (xs + ys)[1..] == ys;
    } else {
      assert (xs + ys)[1..] == xs[1..] + ys;
      JoinAppend(xs[1..], ys, sep);
    }
  }

  /** `s.replace(/c/g, d)` for a character class `targets` and a one-character replacement. */
  function ReplaceAll(s: string, targets: set<char>, replacement: char): (r: string)
    ensures |r| == |s|
    ensures forall k :: 0 <= k < |s| ==> r[k] == (if s[k] in targets then replacement else s[k])
  {
    if s == [] then [] else [if s[0] in targets then replacement else s[0]] + ReplaceAll(s[1..], targets, replacement)
  }

  /** ASCII letters fold to lower case; every other character is its own fold. */
  function FoldAscii(c: char): char
  {
    if 'A' <= c <= 'Z' then (c as int + 32) as char else c
  }

  /** `word` occurs at index `i` of `s`, ASCII letters compared case-insensitively. */
  predicate OccursAtFolded(s: string, i: nat, word: string)
  {
    i + |word| <= |s| && forall k :: 0 <= k < |word| ==> FoldAscii(s[i + k]) == FoldAscii(word[k])
  }

  /** `word` occurs at index `i` of `s`, exactly. */
  predicate OccursAt(s: string, i: nat, word: string)
  {
    i + |word| <= |s| && s[i..i + |word|] == word
  }

  predicate EndsWith(s: string, suffix: string)
  {
    |suffix| <= |s| && s[|s| - |suffix|..] == suffix
  }
}
