/**
 * `parseProofreadDetails`: the free-text `details` of a result split into the
 * corrections, improvements and notes sections, each cleaned up for display, or
 * a fallback carrying the whole text when no section is recognised.
 *
 * Each section regex `/(?:labels)[:：]?\s*(.*?)(?=(?:stops|$))/is` is written
 * out as the search the engine performs. At a position, the alternatives are
 * tried in written order with ASCII letters folded (the `i` flag). The first one
 * present wins: the optional colon and the greedy `\s*` never need to give
 * anything back, because the lazy capture can always run on to the end of the
 * input, where `$` holds (the `s` flag lets `.` cross line breaks). So a label
 * hit always matches, and the search returns the leftmost hit. A `?` such as
 * `corrections?` becomes two alternatives, the longer one first.
 *
 * The regexes are written as functions of the suffix that starts where the
 * engine is trying, so that facts about a text proved piece by piece compose.
 */
module SectionParser {
  import opened Wrappers
  import opened Text

  /** A section regex: its label alternatives in written order, and the labels of
      the other sections, whose appearance ends the capture. */
  datatype SectionPattern = SectionPattern(labels: seq<string>, stops: seq<string>)

  const CorrectionsPattern := SectionPattern(
    ["修正内容", "修正", "corrections", "correction", "変更点"],
    ["改善点", "improvements", "improvement", "注意点", "notes", "note"])

  const ImprovementsPattern := SectionPattern(
    ["改善点", "改善", "improvements", "improvement"],
    ["注意点", "notes", "note", "修正内容", "corrections", "correction"])

  const NotesPattern := SectionPattern(
    ["注意点", "注意", "notes", "note"],
    ["修正内容", "corrections", "correction", "改善点", "improvements", "improvement"])

  predicate StartsWithFolded(u: string, w: string)
  {
    OccursAtFolded(u, 0, w)
  }

  predicate StartsWithAny(u: string, words: seq<string>)
  {
    exists j :: 0 <= j < |words| && StartsWithFolded(u, words[j])
  }

  /** Index of the first alternative, in written order from `from`, that starts `u`. */
  function FirstLabel(u: string, labels: seq<string>, from: nat): (r: Option<nat>)
    requires from <= |labels|
    ensures r.Some? ==> from <= r.value < |labels| && StartsWithFolded(u, labels[r.value])
    ensures r.Some? ==> forall j :: from <= j < r.value ==> !StartsWithFolded(u, labels[j])
    ensures r.None? ==> forall j :: from <= j < |labels| ==> !StartsWithFolded(u, labels[j])
    decreases |labels| - from
  {
    if from == |labels| then None
    else if StartsWithFolded(u, labels[from]) then Some(from)
    else FirstLabel(u, labels, from + 1)
  }

  /** Length of the lazy capture `(.*?)` at the start of `u`: it stops at the first
      place where `(?=(?:stops|$))` holds. */
  function CaptureLength(u: string, stops: seq<string>): (n: nat)
    ensures n <= |u|
  {
    if u == [] || StartsWithAny(u, stops) then 0
    else 1 + CaptureLength(u[1..], stops)
  }

  /** The capture ends at the end of `u` or where a stop starts, and no stop starts
      before that. */
  lemma {:induction false} CaptureLengthSpec(u: string, stops: seq<string>)
    ensures var n := CaptureLength(u, stops);
      (n == |u| || StopAt(u, n, stops)) &&
      (forall k :: 0 <= k < n ==> !StopAt(u, k, stops))
  {
    assert u[0..] == u;
    if u != [] && !StartsWithAny(u, stops) {
      CaptureLengthSpec(u[1..], stops);
      forall k | 1 <= k <= |u| ensures StopAt(u, k, stops) == StopAt(u[1..], k - 1, stops) {
        assert u[k..] == u[1..][k - 1..];
      }
    }
  }

  /** One of the stop labels starts at index `k` of `u`. */
  predicate StopAt(u: string, k: int, stops: seq<string>)
  {
    0 <= k <= |u| && StartsWithAny(u[k..], stops)
  }

  predicate IsColon(c: char)
  {
    c == ':' || c == '：'
  }

  /** Where the capture starts once a label of length `m` is matched at the start of
      `u`: after the optional colon `[:：]?` and the greedy `\s*`. */
  function CaptureStart(u: string, m: nat): (c: nat)
    requires m <= |u|
    ensures m <= c <= |u|
    ensures c == |u| || !IsWhitespace(u[c])
  {
    var b := if m < |u| && IsColon(u[m]) then m + 1 else m;
    var n := LeadingWhitespace(u[b..]);
    assert b + n == |u| || u[b + n] == u[b..][n];
    assert u[b..b + n] == u[b..][..n];
    b + n
  }

  /** The regex tried at the start of `u`: the capture, when a label is there. */
  function MatchPrefix(u: string, p: SectionPattern): Option<string>
  {
    match FirstLabel(u, p.labels, 0)
    case None => None
    case Some(k) =>
      var c := CaptureStart(u, |p.labels[k]|);
      Some(u[c..c + CaptureLength(u[c..], p.stops)])
  }

  /** The regex matches when tried at index `j` of `u`. */
  predicate MatchesAt(u: string, j: int, p: SectionPattern)
  {
    0 <= j <= |u| && FirstLabel(u[j..], p.labels, 0).Some?
  }

  /** Where `String.prototype.match` finds the regex: the leftmost index it matches at. */
  function MatchPosition(u: string, p: SectionPattern): Option<nat>
  {
    LeftmostMatch(u, p, 0)
  }

  /** The regex tried at `i`, `i + 1`, ... up to the end of `u`. */
  function LeftmostMatch(u: string, p: SectionPattern, i: nat): (r: Option<nat>)
    ensures r.Some? ==> i <= r.value <= |u|
    decreases |u| + 1 - i
  {
    if i > |u| then None
    else if MatchesAt(u, i, p) then Some(i)
    else LeftmostMatch(u, p, i + 1)
  }

  /** `LeftmostMatch` finds the first index from `i` on that the regex matches at. */
  lemma {:induction false} LeftmostMatchSpec(u: string, p: SectionPattern, i: nat)
    ensures var r := LeftmostMatch(u, p, i);
      (r.Some? ==> i <= r.value && MatchesAt(u, r.value, p)) &&
      (r.Some? ==> forall j :: i <= j < r.value ==> !MatchesAt(u, j, p)) &&
      (r.None? ==> forall j :: i <= j <= |u| ==> !MatchesAt(u, j, p))
    decreases |u| + 1 - i
  {
    if i <= |u| && !MatchesAt(u, i, p) {
      LeftmostMatchSpec(u, p, i + 1);
    }
  }

  /** `text.match(pattern)?.[1]`: the capture of the leftmost match. */
  function Search(text: string, p: SectionPattern): Option<string>
  {
    match MatchPosition(text, p)
    case None => None
    case Some(i) => MatchPrefix(text[i..], p)
  }

  /** `extractSection`: the trimmed capture, or `""` when the regex does not match. */
  function ExtractSection(text: string, p: SectionPattern): (r: string)
    ensures r == [] || (!IsWhitespace(r[0]) && !IsWhitespace(r[|r| - 1]))
    ensures Search(text, p).None? ==> r == []
    ensures Search(text, p).Some? ==> r == Trim(Search(text, p).value)
  {
    match Search(text, p)
    case None => ""
    case Some(capture) => Trim(capture)
  }

  // ---------------------------------------------------------------------------
  // cleanSection

  /** A character `/^[#\-*\s]+/` removes. */
  predicate IsMarker(c: char)
  {
    c == '#' || c == '-' || c == '*' || IsWhitespace(c)
  }

  /** Length of the leading run of markers. */
  function LeadingMarkers(s: string): (n: nat)
    ensures n <= |s|
    ensures forall k :: 0 <= k < n ==> IsMarker(s[k])
    ensures n == |s| || !IsMarker(s[n])
  {
    if s == [] || !IsMarker(s[0]) then 0 else 1 + LeadingMarkers(s[1..])
  }

  /** `replace(/^[#\-*\s]+/, "")`. */
  function StripMarkers(s: string): (r: string)
    ensures |r| <= |s| && r == s[|s| - |r|..]
    ensures r == [] || !IsMarker(r[0])
  {
    s[LeadingMarkers(s)..]
  }

  /** What `\s*\n` matches at the start of `u`: the greedy `\s*` backs off to the last
      newline of the leading whitespace run, so this is the length up to and
      including that newline, or 0 when the run holds none. */
  function BlankRun(u: string): (n: nat)
    ensures n <= |u|
    ensures n > 0 ==> u[n - 1] == '\n' && AllWhitespace(u[..n])
  {
    if u == [] || !IsWhitespace(u[0]) then 0
    else
      var r := BlankRun(u[1..]);
      if r > 0 then
        assert u[..r + 1] == [u[0]] + u[1..][..r];
        r + 1
      else if u[0] == '\n' then 1
      else 0
  }

  /** When the run holds no newline, no whitespace-only prefix of `u` ends in one. */
  lemma {:induction false} BlankRunZero(u: string)
    requires BlankRun(u) == 0
    ensures forall q :: 0 <= q < |u| && AllWhitespace(u[..q + 1]) ==> u[q] != '\n'
  {
    if u != [] {
      forall q | 0 <= q < |u| && AllWhitespace(u[..q + 1])
        ensures u[q] != '\n'
      {
        assert u[..q + 1][0] == u[0];
        if q > 0 {
          BlankRunZero(u[1..]);
          assert u[..q + 1] == [u[0]] + u[1..][..q];
          assert u[1..][..q] == u[..q + 1][1..];
          assert u[1..][q - 1] == u[q];
        }
      }
    }
  }

  /** `replace(/\n\s*\n/g, "\n")`: scanning left to right, each match is replaced by a
      single newline and the scan goes on after it. */
  function CollapseBlankLines(s: string): string
  {
    if s == [] then []
    else if s[0] == '\n' && BlankRun(s[1..]) > 0 then "\n" + CollapseBlankLines(s[1 + BlankRun(s[1..])..])
    else [s[0]] + CollapseBlankLines(s[1..])
  }

  /** `cleanSection`: leading heading and bullet marks dropped, blank lines collapsed, trimmed. */
  function CleanSection(s: string): string
  {
    Trim(CollapseBlankLines(StripMarkers(s)))
  }

  /** No newline in `r` is followed by whitespace that reaches another newline. */
  ghost predicate NoBlankLine(r: string)
  {
    forall p :: NewlineAt(r, p) ==> BlankRun(r[p + 1..]) == 0
  }

  predicate NewlineAt(r: string, p: int)
  {
    0 <= p < |r| && r[p] == '\n'
  }

  // ---------------------------------------------------------------------------
  // The two result shapes

  datatype ProofreadDetails = ProofreadDetails(
    corrections: string, improvements: string, notes: string, fallbackText: Option<string>)

  /** `parseProofreadDetails`. The `catch` branch is unreachable here: every step is total. */
  function ParseProofreadDetails(detailsText: string): ProofreadDetails
  {
    var corrections := ExtractSection(detailsText, CorrectionsPattern);
    var improvements := ExtractSection(detailsText, ImprovementsPattern);
    var notes := ExtractSection(detailsText, NotesPattern);
    if corrections == "" && improvements == "" && notes == "" then
      ProofreadDetails("", "", "", Some(Trim(detailsText)))
    else
      ProofreadDetails(CleanSection(corrections), CleanSection(improvements), CleanSection(notes), None)
  }

  // ---------------------------------------------------------------------------
  // cleanSection: no blank line, no leading mark, trimmed, idempotent

  /** After the run `BlankRun` measures, the whitespace that follows holds no newline. */
  lemma {:induction false} BlankRunRest(u: string)
    requires BlankRun(u) > 0
    ensures BlankRun(u[BlankRun(u)..]) == 0
    decreases |u|
  {
    var r := BlankRun(u[1..]);
    if r > 0 {
      BlankRunRest(u[1..]);
      assert u[r + 1..] == u[1..][r..];
    }
  }

  /** A blank line inside a prefix is a blank line of the whole text. */
  lemma BlankRunPrefix(u: string, m: nat)
    requires m <= |u| && BlankRun(u[..m]) > 0
    ensures BlankRun(u) > 0
  {
    var n := BlankRun(u[..m]);
    assert u[..m][..n] == u[..n - 1 + 1];
    assert u[n - 1] == u[..m][n - 1];
    if BlankRun(u) == 0 {
      BlankRunZero(u);
    }
  }

  lemma NoBlankLineCons(c: char, v: string)
    requires NoBlankLine(v) && (c == '\n' ==> BlankRun(v) == 0)
    ensures NoBlankLine([c] + v)
  {
    var w := [c] + v;
    forall p | NewlineAt(w, p)
      ensures BlankRun(w[p + 1..]) == 0
    {
      if p == 0 {
        assert w[1..] == v;
      } else {
        assert w[p] == v[p - 1];
        assert NewlineAt(v, p - 1);
        assert w[p + 1..] == v[p..];
      }
    }
  }

  lemma NoBlankLineSlice(x: string, lo: nat, hi: nat)
    requires NoBlankLine(x) && lo <= hi <= |x|
    ensures NoBlankLine(x[lo..hi])
  {
    var y := x[lo..hi];
    forall p | NewlineAt(y, p)
      ensures BlankRun(y[p + 1..]) == 0
    {
      assert y[p] == x[lo + p];
      assert NewlineAt(x, lo + p);
      assert y[p + 1..] == x[lo + p + 1..][..hi - lo - p - 1];
      if BlankRun(y[p + 1..]) > 0 {
        BlankRunPrefix(x[lo + p + 1..], hi - lo - p - 1);
      }
    }
  }

  /** Collapsing keeps whether the leading whitespace run holds a newline. */
  lemma {:induction false} CollapseKeepsLeadingRun(s: string)
    ensures BlankRun(CollapseBlankLines(s)) > 0 <==> BlankRun(s) > 0
    decreases |s|
  {
    if s != [] && !(s[0] == '\n' && BlankRun(s[1..]) > 0) {
      var v := CollapseBlankLines(s[1..]);
      assert ([s[0]] + v)[1..] == v;
      CollapseKeepsLeadingRun(s[1..]);
    }
  }

  /** The result of the global replace has no blank line left. */
  lemma {:induction false} CollapseLeavesNoBlankLine(s: string)
    ensures NoBlankLine(CollapseBlankLines(s))
    decreases |s|
  {
    if s != [] {
      if s[0] == '\n' && BlankRun(s[1..]) > 0 {
        var k := BlankRun(s[1..]);
        var rest := s[1 + k..];
        BlankRunRest(s[1..]);
        assert s[1..][k..] == rest;
        CollapseLeavesNoBlankLine(rest);
        CollapseKeepsLeadingRun(rest);
        NoBlankLineCons('\n', CollapseBlankLines(rest));
      } else {
        CollapseLeavesNoBlankLine(s[1..]);
        CollapseKeepsLeadingRun(s[1..]);
        NoBlankLineCons(s[0], CollapseBlankLines(s[1..]));
      }
    }
  }

  /** Text without a blank line is left as it is. */
  lemma {:induction false} CollapseWithoutBlankLine(s: string)
    requires NoBlankLine(s)
    ensures CollapseBlankLines(s) == s
    decreases |s|
  {
    if s != [] {
      assert NewlineAt(s, 0) ==> BlankRun(s[0 + 1..]) == 0;
      NoBlankLineSlice(s, 1, |s|);
      assert s[1..|s|] == s[1..];
      CollapseWithoutBlankLine(s[1..]);
    }
  }

  /** Collapsing blank lines twice is collapsing them once. */
  lemma CollapseIdempotent(s: string)
    ensures CollapseBlankLines(CollapseBlankLines(s)) == CollapseBlankLines(s)
  {
    CollapseLeavesNoBlankLine(s);
    CollapseWithoutBlankLine(CollapseBlankLines(s));
  }

  /** Collapsing never touches a first character that is not whitespace. */
  lemma CollapseKeepsFirst(t: string)
    requires t != [] && !IsWhitespace(t[0])
    ensures CollapseBlankLines(t) != [] && CollapseBlankLines(t)[0] == t[0]
  {
    assert CollapseBlankLines(t) == [t[0]] + CollapseBlankLines(t[1..]);
  }

  /** Trimming text that starts with a non-whitespace character only cuts its end. */
  lemma TrimKeepsFirst(y: string)
    requires y != [] && !IsWhitespace(y[0])
    ensures Trim(y) != [] && Trim(y)[0] == y[0]
  {
  }

  /** A cleaned section has no blank line. */
  lemma CleanSectionHasNoBlankLine(s: string)
    ensures NoBlankLine(CleanSection(s))
  {
    CollapseLeavesNoBlankLine(StripMarkers(s));
    NoBlankLineTrim(CollapseBlankLines(StripMarkers(s)));
  }

  /** Trimming cannot create a blank line. */
  lemma NoBlankLineTrim(y: string)
    requires NoBlankLine(y)
    ensures NoBlankLine(Trim(y))
  {
    var lo := LeadingWhitespace(y);
    var r := Trim(y);
    NoBlankLineSlice(y, lo, lo + |r|);
    NoBlankLineSame(y[lo..lo + |r|], r);
  }

  lemma NoBlankLineSame(a: string, b: string)
    requires NoBlankLine(a) && a == b
    ensures NoBlankLine(b)
  {
  }

  /** A cleaned section is empty or starts with neither a mark nor whitespace, and
      does not end in whitespace. */
  lemma CleanSectionEnds(s: string)
    ensures var r := CleanSection(s);
      r == [] || (!IsMarker(r[0]) && !IsWhitespace(r[|r| - 1]))
  {
    var t := StripMarkers(s);
    if t != [] {
      CollapseKeepsFirst(t);
      TrimKeepsFirst(CollapseBlankLines(t));
    }
  }

  /** Text that already has the cleaned shape is its own cleaned section. */
  lemma CleanSectionOfClean(s: string)
    requires s == [] || (!IsMarker(s[0]) && !IsWhitespace(s[|s| - 1]))
    requires NoBlankLine(s)
    ensures CleanSection(s) == s
  {
    assert StripMarkers(s) == s;
    CollapseWithoutBlankLine(s);
    TrimOfTrimmed(s);
  }

  /** Cleaning a cleaned section changes nothing. */
  lemma CleanSectionIdempotent(s: string)
    ensures CleanSection(CleanSection(s)) == CleanSection(s)
  {
    CleanSectionHasNoBlankLine(s);
    CleanSectionEnds(s);
    CleanSectionOfClean(CleanSection(s));
  }

  /** The marks `replace(/^[#\-*\s]+/, "")` removes are exactly the leading run of
      `#`, `-`, `*` and whitespace. */
  lemma StripMarkersSpec(s: string)
    ensures var r := StripMarkers(s);
      && s == s[..|s| - |r|] + r
      && (forall k :: 0 <= k < |s| - |r| ==> IsMarker(s[k]))
      && (r == [] || !IsMarker(r[0]))
  {
  }

  // ---------------------------------------------------------------------------
  // Searching text built from pieces

  /** No character of `x` folds to one of `initials`. */
  predicate AvoidsInitials(x: string, initials: set<char>)
  {
    forall k :: 0 <= k < |x| ==> FoldAscii(x[k]) !in initials
  }

  /** Every word is non-empty and its first character folds into `initials`. */
  predicate InitialsWithin(words: seq<string>, initials: set<char>)
  {
    forall j :: 0 <= j < |words| ==> words[j] != [] && FoldAscii(words[j][0]) in initials
  }

  /** The folded first characters of each section's labels, and of all of them. */
  const CorrectionsInitials: set<char> := {'修', 'c', '変'}
  const ImprovementsInitials: set<char> := {'改', 'i'}
  const NotesInitials: set<char> := {'注', 'n'}
  const LabelInitials: set<char> := CorrectionsInitials + ImprovementsInitials + NotesInitials

  lemma PatternsHaveLabelInitials()
    ensures InitialsWithin(CorrectionsPattern.labels, CorrectionsInitials)
    ensures InitialsWithin(ImprovementsPattern.labels, ImprovementsInitials)
    ensures InitialsWithin(NotesPattern.labels, NotesInitials)
    ensures InitialsWithin(CorrectionsPattern.stops, ImprovementsInitials + NotesInitials)
    ensures InitialsWithin(ImprovementsPattern.stops, NotesInitials + CorrectionsInitials)
    ensures InitialsWithin(NotesPattern.stops, CorrectionsInitials + ImprovementsInitials)
  {
  }

  lemma AvoidsFewerInitials(x: string, initials: set<char>, fewer: set<char>)
    requires AvoidsInitials(x, initials) && fewer <= initials
    ensures AvoidsInitials(x, fewer)
  {
  }

  lemma AvoidsInitialsConcat(x: string, y: string, initials: set<char>)
    requires AvoidsInitials(x, initials) && AvoidsInitials(y, initials)
    ensures AvoidsInitials(x + y, initials)
  {
    assert forall k :: |x| <= k < |x + y| ==> (x + y)[k] == y[k - |x|];
  }

  /** A word can only start where its first character does. */
  lemma NoWordHere(u: string, words: seq<string>, initials: set<char>)
    requires u != [] && FoldAscii(u[0]) !in initials && InitialsWithin(words, initials)
    ensures !StartsWithAny(u, words)
  {
  }

  /** A capture runs straight through a piece in which no stop can start. */
  lemma {:induction false} CaptureThrough(x: string, y: string, stops: seq<string>, initials: set<char>)
    requires AvoidsInitials(x, initials) && InitialsWithin(stops, initials)
    ensures CaptureLength(x + y, stops) == |x| + CaptureLength(y, stops)
    decreases |x|
  {
    if x == [] {
      assert x + y == y;
    } else {
      assert (x + y)[0] == x[0];
      NoWordHere(x + y, stops, initials);
      assert (x + y)[1..] == x[1..] + y;
      CaptureThrough(x[1..], y, stops, initials);
    }
  }

  /** The search passes over a piece in which no label can start. */
  lemma SearchThrough(x: string, y: string, p: SectionPattern, initials: set<char>)
    requires AvoidsInitials(x, initials) && InitialsWithin(p.labels, initials)
    ensures MatchPosition(x + y, p) ==
      if MatchPosition(y, p).Some? then Some(|x| + MatchPosition(y, p).value) else None
  {
    LeftmostSkips(x, y, p, initials, 0);
    LeftmostShifts(x, y, p, 0);
  }

  /** No index inside `x` is a match of `x + y`. */
  lemma {:induction false} LeftmostSkips(x: string, y: string, p: SectionPattern, initials: set<char>, i: nat)
    requires AvoidsInitials(x, initials) && InitialsWithin(p.labels, initials)
    requires i <= |x|
    ensures LeftmostMatch(x + y, p, i) == LeftmostMatch(x + y, p, |x|)
    decreases |x| - i
  {
    if i < |x| {
      var u := x + y;
      assert u[i..][0] == x[i];
      NoWordHere(u[i..], p.labels, initials);
      assert !MatchesAt(u, i, p);
      LeftmostSkips(x, y, p, initials, i + 1);
    }
  }

  /** From `|x| + i` on, the search of `x + y` is the search of `y` from `i`, moved by `|x|`. */
  lemma {:induction false} LeftmostShifts(x: string, y: string, p: SectionPattern, i: nat)
    ensures LeftmostMatch(x + y, p, |x| + i) ==
      if LeftmostMatch(y, p, i).Some? then Some(|x| + LeftmostMatch(y, p, i).value) else None
    decreases |y| + 1 - i
  {
    var u := x + y;
    if i <= |y| {
      MatchesAtShift(x, y, p, i);
      if MatchesAt(y, i, p) {
        assert LeftmostMatch(y, p, i) == Some(i);
        assert LeftmostMatch(u, p, |x| + i) == Some(|x| + i);
      } else {
        LeftmostShifts(x, y, p, i + 1);
        assert LeftmostMatch(y, p, i) == LeftmostMatch(y, p, i + 1);
        assert LeftmostMatch(u, p, |x| + i) == LeftmostMatch(u, p, |x| + (i + 1));
      }
    } else {
      assert LeftmostMatch(y, p, i) == None;
      assert LeftmostMatch(u, p, |x| + i) == None;
    }
  }

  lemma MatchesAtShift(x: string, y: string, p: SectionPattern, i: nat)
    requires i <= |y|
    ensures MatchesAt(x + y, |x| + i, p) == MatchesAt(y, i, p)
  {
    assert (x + y)[|x| + i..] == y[i..];
  }

  /** So does the capture it returns. */
  lemma SearchOver(x: string, y: string, p: SectionPattern, initials: set<char>, u: string)
    requires AvoidsInitials(x, initials) && InitialsWithin(p.labels, initials)
    requires u == x + y
    ensures Search(u, p) == Search(y, p)
  {
    SearchThrough(x, y, p, initials);
    assert u[|x|..] == y;
    SearchShift(u, y, p, |x|);
  }

  /** A search whose match lies `d` places further on than in `y = u[d..]` finds
      the same capture. */
  lemma SearchShift(u: string, y: string, p: SectionPattern, d: nat)
    requires d <= |u| && y == u[d..]
    requires MatchPosition(u, p) ==
      if MatchPosition(y, p).Some? then Some(d + MatchPosition(y, p).value) else None
    ensures Search(u, p) == Search(y, p)
  {
    var m := MatchPosition(y, p);
    if m.Some? {
      assert u[d + m.value..] == y[m.value..];
    }
  }

  lemma StartsWithItself(w: string, tail: string)
    ensures StartsWithFolded(w + tail, w)
  {
    assert forall k :: 0 <= k < |w| ==> (w + tail)[0 + k] == w[k];
  }

  /** `name: body` followed by nothing or by a stop: the label of alternative `k`
      matches, the colon and one space are skipped, and the capture is the body. */
  lemma LabelledMatch(p: SectionPattern, k: nat, name: string, body: string, rest: string, initials: set<char>)
    requires k < |p.labels| && |name| == |p.labels[k]|
    requires FirstLabel(name + ": " + body + rest, p.labels, 0) == Some(k)
    requires body != [] && !IsWhitespace(body[0])
    requires AvoidsInitials(body, initials) && InitialsWithin(p.stops, initials)
    requires rest == [] || StartsWithAny(rest, p.stops)
    ensures MatchPrefix(name + ": " + body + rest, p) == Some(body)
  {
    var u := name + ": " + body + rest;
    var m := |name|;
    assert u[m] == ':';
    var v := u[m + 1..];
    assert v == " " + body + rest;
    assert v[1..] == body + rest;
    assert (body + rest)[0] == body[0];
    assert LeadingWhitespace(v) == 1;
    assert CaptureStart(u, m) == m + 2;
    assert u[m + 2..] == body + rest;
    CaptureThrough(body, rest, p.stops, initials);
    assert u[m + 2..m + 2 + |body|] == body;
  }

  /** A body followed by whitespace trims to the body. */
  lemma TrimPadded(a: string, w: string)
    requires a != [] && !IsWhitespace(a[0]) && !IsWhitespace(a[|a| - 1]) && AllWhitespace(w)
    ensures Trim(a + w) == a
  {
    var s := a + w;
    var r := Trim(s);
    assert s[0] == a[0];
    assert LeadingWhitespace(s) == 0;
    assert s[..|a|] == a;
  }

  // ---------------------------------------------------------------------------
  // What parsing promises

  /** The fallback shape appears exactly when all three trimmed captures are empty; then
      it carries the trimmed text, and otherwise every field is its cleaned capture. */
  lemma FallbackIffNoCapture(detailsText: string)
    ensures var d := ParseProofreadDetails(detailsText);
      var c := ExtractSection(detailsText, CorrectionsPattern);
      var i := ExtractSection(detailsText, ImprovementsPattern);
      var n := ExtractSection(detailsText, NotesPattern);
      && (d.fallbackText.Some? <==> c == "" && i == "" && n == "")
      && (d.fallbackText.Some? ==>
            d == ProofreadDetails("", "", "", Some(Trim(detailsText))))
      && (d.fallbackText.None? ==>
            d.corrections == CleanSection(c) && d.improvements == CleanSection(i) && d.notes == CleanSection(n))
  {
  }

  /** The shape `cleanSection` leaves: no leading mark, no surrounding whitespace, no blank line. */
  ghost predicate CleanShape(f: string)
  {
    (f == [] || (!IsMarker(f[0]) && !IsWhitespace(f[|f| - 1]))) && NoBlankLine(f)
  }

  /** Every field of the structured shape is a cleaned section, and an empty capture stays empty. */
  lemma StructuredFieldsAreClean(detailsText: string)
    requires ParseProofreadDetails(detailsText).fallbackText.None?
    ensures var d := ParseProofreadDetails(detailsText);
      CleanShape(d.corrections) && CleanShape(d.improvements) && CleanShape(d.notes)
    ensures ExtractSection(detailsText, CorrectionsPattern) == "" ==> ParseProofreadDetails(detailsText).corrections == ""
    ensures ExtractSection(detailsText, ImprovementsPattern) == "" ==> ParseProofreadDetails(detailsText).improvements == ""
    ensures ExtractSection(detailsText, NotesPattern) == "" ==> ParseProofreadDetails(detailsText).notes == ""
  {
    FallbackIffNoCapture(detailsText);
    CleanSectionShape(ExtractSection(detailsText, CorrectionsPattern));
    CleanSectionShape(ExtractSection(detailsText, ImprovementsPattern));
    CleanSectionShape(ExtractSection(detailsText, NotesPattern));
  }

  lemma CleanSectionShape(s: string)
    ensures CleanShape(CleanSection(s))
    ensures s == "" ==> CleanSection(s) == ""
  {
    CleanSectionHasNoBlankLine(s);
    CleanSectionEnds(s);
    if s == "" {
      assert StripMarkers(s) == "" && CollapseBlankLines("") == "";
    }
  }

  /** Text in which no label of any section starts anywhere falls back to its trimmed self. */
  lemma NoLabelFallsBack(detailsText: string)
    requires forall j :: 0 <= j <= |detailsText| ==>
      && !StartsWithAny(detailsText[j..], CorrectionsPattern.labels)
      && !StartsWithAny(detailsText[j..], ImprovementsPattern.labels)
      && !StartsWithAny(detailsText[j..], NotesPattern.labels)
    ensures ParseProofreadDetails(detailsText) == ProofreadDetails("", "", "", Some(Trim(detailsText)))
  {
    NoMatchAnywhere(detailsText, CorrectionsPattern);
    NoMatchAnywhere(detailsText, ImprovementsPattern);
    NoMatchAnywhere(detailsText, NotesPattern);
  }

  lemma NoMatchAnywhere(text: string, p: SectionPattern)
    requires forall j :: 0 <= j <= |text| ==> !StartsWithAny(text[j..], p.labels)
    ensures Search(text, p) == None
  {

  }

  /** A character-level sufficient condition for `NoLabelFallsBack`. */
  lemma NoInitialFallsBack(detailsText: string)
    requires AvoidsInitials(detailsText, LabelInitials)
    ensures ParseProofreadDetails(detailsText) == ProofreadDetails("", "", "", Some(Trim(detailsText)))
  {
    PatternsHaveLabelInitials();
    AvoidsFewerInitials(detailsText, LabelInitials, CorrectionsInitials);
    AvoidsFewerInitials(detailsText, LabelInitials, ImprovementsInitials);
    AvoidsFewerInitials(detailsText, LabelInitials, NotesInitials);
    forall j | 0 <= j <= |detailsText|
      ensures !StartsWithAny(detailsText[j..], CorrectionsPattern.labels)
      ensures !StartsWithAny(detailsText[j..], ImprovementsPattern.labels)
      ensures !StartsWithAny(detailsText[j..], NotesPattern.labels)
    {
      if j < |detailsText| {
        assert detailsText[j..][0] == detailsText[j];
        NoWordHere(detailsText[j..], CorrectionsPattern.labels, CorrectionsInitials);
        NoWordHere(detailsText[j..], ImprovementsPattern.labels, ImprovementsInitials);
        NoWordHere(detailsText[j..], NotesPattern.labels, NotesInitials);
      } else {
        assert forall w :: w in CorrectionsPattern.labels + ImprovementsPattern.labels + NotesPattern.labels ==> w != [];
      }
    }
    NoLabelFallsBack(detailsText);
  }

  /** A body that `cleanSection` leaves alone and that no label can start inside. */
  predicate PlainBody(x: string, initials: set<char>)
  {
    && x != [] && !IsMarker(x[0]) && !IsWhitespace(x[|x| - 1]) && '\n' !in x
    && AvoidsInitials(x, initials)
  }

  lemma PlainBodyIsClean(x: string, initials: set<char>)
    requires PlainBody(x, initials)
    ensures Trim(x + "\n") == x && CleanSection(x) == x
  {
    TrimPadded(x, "\n");
    CleanSectionOfClean(x);
  }

  /** A text that opens with the first label of `p`, a colon and a space: the capture
      is the body, up to the stop that `rest` opens with, or the end. */
  lemma SectionAtStart(p: SectionPattern, name: string, body: string, rest: string, initials: set<char>, u: string)
    requires p.labels != [] && p.labels[0] == name
    requires body != [] && !IsWhitespace(body[0])
    requires AvoidsInitials(body, initials) && InitialsWithin(p.stops, initials)
    requires rest == [] || StartsWithAny(rest, p.stops)
    requires u == name + ": " + body + rest
    ensures Search(u, p) == Some(body)
  {
    assert u == name + (": " + body + rest);
    StartsWithItself(name, ": " + body + rest);
    LabelledMatch(p, 0, name, body, rest, initials);
    assert u[0..] == u;
  }

  /** The same after a piece in which no label of `p` can start. */
  lemma SectionAfter(x: string, p: SectionPattern, name: string, body: string, rest: string,
                     initials: set<char>, labelInitials: set<char>, u: string)
    requires AvoidsInitials(x, labelInitials) && InitialsWithin(p.labels, labelInitials)
    requires p.labels != [] && p.labels[0] == name
    requires body != [] && !IsWhitespace(body[0])
    requires AvoidsInitials(body, initials) && InitialsWithin(p.stops, initials)
    requires rest == [] || StartsWithAny(rest, p.stops)
    requires u == x + (name + ": " + body + rest)
    ensures Search(u, p) == Some(body)
  {
    var y := name + ": " + body + rest;
    SearchOver(x, y, p, labelInitials, u);
    SectionAtStart(p, name, body, rest, initials, y);
  }

  /** Three labelled lines in the order 修正内容, 改善点, 注意点, as in the unit test. */
  function ThreeLines(a: string, b: string, c: string): string
  {
    "修正内容: " + a + "\n" + "改善点: " + b + "\n" + "注意点: " + c
  }

  lemma CorrectionsOfThreeLines(a: string, b: string, c: string)
    requires PlainBody(a, LabelInitials)
    ensures ExtractSection(ThreeLines(a, b, c), CorrectionsPattern) == a
  {
    var rest := "改善点: " + b + "\n" + "注意点: " + c;
    PatternsHaveLabelInitials();
    AvoidsFewerInitials(a, LabelInitials, ImprovementsInitials + NotesInitials);
    AvoidsInitialsConcat(a, "\n", ImprovementsInitials + NotesInitials);
    assert rest == "改善点" + (": " + b + "\n" + "注意点: " + c);
    StartsWithItself("改善点", ": " + b + "\n" + "注意点: " + c);
    assert StartsWithFolded(rest, CorrectionsPattern.stops[0]);
    assert ThreeLines(a, b, c) == "修正内容" + ": " + (a + "\n") + rest;
    SectionAtStart(CorrectionsPattern, "修正内容", a + "\n", rest, ImprovementsInitials + NotesInitials, ThreeLines(a, b, c));
    PlainBodyIsClean(a, LabelInitials);
  }

  lemma ImprovementsOfThreeLines(a: string, b: string, c: string)
    requires PlainBody(a, LabelInitials) && PlainBody(b, LabelInitials)
    ensures ExtractSection(ThreeLines(a, b, c), ImprovementsPattern) == b
  {
    var x := "修正内容: " + a + "\n";
    var y := "改善点: " + b + "\n" + "注意点: " + c;
    var rest := "注意点: " + c;
    PatternsHaveLabelInitials();
    AvoidsInitialsConcat("修正内容: ", a, ImprovementsInitials);
    AvoidsInitialsConcat("修正内容: " + a, "\n", ImprovementsInitials);
    AvoidsInitialsConcat(b, "\n", NotesInitials + CorrectionsInitials);
    assert rest == "注意点" + (": " + c);
    StartsWithItself("注意点", ": " + c);
    assert StartsWithFolded(rest, ImprovementsPattern.stops[0]);
    assert ThreeLines(a, b, c) == x + ("改善点" + ": " + (b + "\n") + rest);
    SectionAfter(x, ImprovementsPattern, "改善点", b + "\n", rest, NotesInitials + CorrectionsInitials,
      ImprovementsInitials, ThreeLines(a, b, c));
    PlainBodyIsClean(b, LabelInitials);
  }

  lemma NotesOfThreeLines(a: string, b: string, c: string)
    requires PlainBody(a, LabelInitials) && PlainBody(b, LabelInitials)
    requires PlainBody(c, CorrectionsInitials + ImprovementsInitials)
    ensures ExtractSection(ThreeLines(a, b, c), NotesPattern) == c
  {
    var x := "修正内容: " + a + "\n" + "改善点: " + b + "\n";
    var y := "注意点: " + c;
    PatternsHaveLabelInitials();
    AvoidsInitialsConcat("修正内容: ", a, NotesInitials);
    AvoidsInitialsConcat("修正内容: " + a, "\n", NotesInitials);
    AvoidsInitialsConcat("修正内容: " + a + "\n", "改善点: ", NotesInitials);
    AvoidsInitialsConcat("修正内容: " + a + "\n" + "改善点: ", b, NotesInitials);
    AvoidsInitialsConcat("修正内容: " + a + "\n" + "改善点: " + b, "\n", NotesInitials);
    assert ThreeLines(a, b, c) == x + ("注意点" + ": " + c + []);
    SectionAfter(x, NotesPattern, "注意点", c, [], CorrectionsInitials + ImprovementsInitials,
      NotesInitials, ThreeLines(a, b, c));
    TrimOfTrimmed(c);
  }

  /** Sections in the order 修正内容, 改善点, 注意点, one per line, with single-line
      bodies that hold no label initial: each field is its body and there is no fallback. */
  lemma ThreeLabelledLines(a: string, b: string, c: string)
    requires PlainBody(a, LabelInitials) && PlainBody(b, LabelInitials)
    requires PlainBody(c, CorrectionsInitials + ImprovementsInitials)
    ensures ParseProofreadDetails(ThreeLines(a, b, c)) == ProofreadDetails(a, b, c, None)
  {
    CorrectionsOfThreeLines(a, b, c);
    ImprovementsOfThreeLines(a, b, c);
    NotesOfThreeLines(a, b, c);
    PlainBodyIsClean(a, LabelInitials);
    PlainBodyIsClean(b, LabelInitials);
    PlainBodyIsClean(c, CorrectionsInitials + ImprovementsInitials);
  }

  // ---------------------------------------------------------------------------
  // The unit tests' inputs, order and case

  const TestCorrections := "誤字を直しました。"
  const TestImprovements := "読みやすい語順に調整しました。"
  const TestNotes := "敬語の使い方に注意してください。"

  /** The three formatted lines come back as their bodies, with no fallback. */
  lemma FormattedSectionsExample()
    ensures ParseProofreadDetails(ThreeLines(TestCorrections, TestImprovements, TestNotes))
      == ProofreadDetails(TestCorrections, TestImprovements, TestNotes, None)
  {
    TestCorrectionsIsPlain();
    TestImprovementsIsPlain();
    TestNotesIsPlain();
    ThreeLabelledLines(TestCorrections, TestImprovements, TestNotes);
  }

  lemma TestCorrectionsIsPlain()
    ensures PlainBody(TestCorrections, LabelInitials)
  {
  }

  lemma TestImprovementsIsPlain()
    ensures PlainBody(TestImprovements, LabelInitials)
  {
  }

  lemma TestNotesIsPlain()
    ensures PlainBody(TestNotes, CorrectionsInitials + ImprovementsInitials)
  {
  }

  const UnlabelledText := "これは解析できない形式です。"

  /** Trimmed text in which no label can start falls back to itself. */
  lemma TrimmedNoInitialFallsBack(t: string)
    requires AvoidsInitials(t, LabelInitials)
    requires t != [] && !IsWhitespace(t[0]) && !IsWhitespace(t[|t| - 1])
    ensures ParseProofreadDetails(t) == ProofreadDetails("", "", "", Some(t))
  {
    NoInitialFallsBack(t);
    TrimOfTrimmed(t);
  }

  /** The unit test's text without section names falls back to itself. */
  lemma UnlabelledExample(t: string)
    requires t == UnlabelledText
    ensures ParseProofreadDetails(t) == ProofreadDetails("", "", "", Some(UnlabelledText))
  {
    UnlabelledTextShape(t);
    TrimmedNoInitialFallsBack(t);
  }

  lemma UnlabelledTextShape(t: string)
    requires t == UnlabelledText
    ensures AvoidsInitials(t, LabelInitials)
    ensures t != [] && !IsWhitespace(t[0]) && !IsWhitespace(t[|t| - 1])
  {
  }

  /** The notes line, then the corrections line. */
  function NotesThenCorrections(c: string, a: string): string
  {
    "注意点: " + c + "\n" + "修正内容: " + a
  }

  lemma NotesBeforeCorrections(c: string, a: string)
    requires PlainBody(c, LabelInitials)
    ensures ExtractSection(NotesThenCorrections(c, a), NotesPattern) == c
  {
    var t := NotesThenCorrections(c, a);
    var rest := "修正内容: " + a;
    PatternsHaveLabelInitials();
    AvoidsInitialsConcat(c, "\n", CorrectionsInitials + ImprovementsInitials);
    assert rest == "修正内容" + (": " + a);
    StartsWithItself("修正内容", ": " + a);
    assert StartsWithFolded(rest, NotesPattern.stops[0]);
    assert t == "注意点" + ": " + (c + "\n") + rest;
    SectionAtStart(NotesPattern, "注意点", c + "\n", rest, CorrectionsInitials + ImprovementsInitials, t);
    PlainBodyIsClean(c, LabelInitials);
  }

  lemma CorrectionsAfterNotes(c: string, a: string)
    requires PlainBody(c, LabelInitials) && PlainBody(a, LabelInitials)
    ensures ExtractSection(NotesThenCorrections(c, a), CorrectionsPattern) == a
  {
    var t := NotesThenCorrections(c, a);
    var x := "注意点: " + c + "\n";
    PatternsHaveLabelInitials();
    AvoidsInitialsConcat("注意点: ", c, CorrectionsInitials);
    AvoidsInitialsConcat("注意点: " + c, "\n", CorrectionsInitials);
    assert t == x + ("修正内容" + ": " + a + []);
    SectionAfter(x, CorrectionsPattern, "修正内容", a, [], ImprovementsInitials + NotesInitials,
      CorrectionsInitials, t);
    TrimOfTrimmed(a);
  }

  /** No label of `p` starts anywhere in text that avoids its initials. */
  lemma NoSection(t: string, p: SectionPattern, initials: set<char>)
    requires AvoidsInitials(t, initials) && InitialsWithin(p.labels, initials)
    ensures ExtractSection(t, p) == ""
  {
    assert t == t + [];
    SearchOver(t, [], p, initials, t);
    assert MatchPrefix([], p).None?;
  }

  lemma ImprovementsAbsentFromReversed(c: string, a: string)
    requires PlainBody(c, LabelInitials) && PlainBody(a, LabelInitials)
    ensures ExtractSection(NotesThenCorrections(c, a), ImprovementsPattern) == ""
  {
    AvoidsFewerInitials(c, LabelInitials, ImprovementsInitials);
    AvoidsFewerInitials(a, LabelInitials, ImprovementsInitials);
    AvoidsInitialsConcat("注意点: ", c, ImprovementsInitials);
    AvoidsInitialsConcat("注意点: " + c, "\n", ImprovementsInitials);
    AvoidsInitialsConcat("注意点: " + c + "\n", "修正内容: ", ImprovementsInitials);
    AvoidsInitialsConcat("注意点: " + c + "\n" + "修正内容: ", a, ImprovementsInitials);
    PatternsHaveLabelInitials();
    NoSection(NotesThenCorrections(c, a), ImprovementsPattern, ImprovementsInitials);
  }

  /** Notes written before corrections: each capture still ends at the other's label. */
  lemma ReversedOrder(c: string, a: string)
    requires PlainBody(c, LabelInitials) && PlainBody(a, LabelInitials)
    ensures ParseProofreadDetails(NotesThenCorrections(c, a)) == ProofreadDetails(a, "", c, None)
  {
    NotesBeforeCorrections(c, a);
    CorrectionsAfterNotes(c, a);
    ImprovementsAbsentFromReversed(c, a);
    CleanSectionOfClean(a);
    CleanSectionOfClean(c);
    CleanSectionOfClean("");
  }

  /** English labels match whatever their case. */
  lemma UpperCaseNotes(n: string)
    requires PlainBody(n, LabelInitials)
    ensures ExtractSection("NOTES: " + n, NotesPattern) == n
  {
    var t := "NOTES: " + n;
    PatternsHaveLabelInitials();
    assert forall k :: 0 <= k < 5 ==> t[k] == "NOTES"[k];
    assert !StartsWithFolded(t, NotesPattern.labels[0]);
    assert !StartsWithFolded(t, NotesPattern.labels[1]);
    assert StartsWithFolded(t, NotesPattern.labels[2]);
    assert FirstLabel(t, NotesPattern.labels, 0) == Some(2);
    assert t == "NOTES" + ": " + n + [];
    LabelledMatch(NotesPattern, 2, "NOTES", n, [], CorrectionsInitials + ImprovementsInitials);
    assert t[0..] == t;
    TrimOfTrimmed(n);
  }

  lemma UpperCaseLabel(n: string)
    requires PlainBody(n, LabelInitials)
    ensures ParseProofreadDetails("NOTES: " + n) == ProofreadDetails("", "", n, None)
  {
    UpperCaseNotes(n);
    UpperCaseNotesOnly(n);
    CleanSectionOfClean(n);
    CleanSectionOfClean("");
  }

  lemma UpperCaseNotesOnly(n: string)
    requires PlainBody(n, LabelInitials)
    ensures ExtractSection("NOTES: " + n, CorrectionsPattern) == ""
    ensures ExtractSection("NOTES: " + n, ImprovementsPattern) == ""
  {
    PatternsHaveLabelInitials();
    AvoidsFewerInitials(n, LabelInitials, CorrectionsInitials);
    AvoidsFewerInitials(n, LabelInitials, ImprovementsInitials);
    AvoidsInitialsConcat("NOTES: ", n, CorrectionsInitials);
    AvoidsInitialsConcat("NOTES: ", n, ImprovementsInitials);
    NoSection("NOTES: " + n, CorrectionsPattern, CorrectionsInitials);
    NoSection("NOTES: " + n, ImprovementsPattern, ImprovementsInitials);
  }

  /** A capture runs across line breaks until another section's label. */
  lemma CaptureSpansLines(a: string, b: string)
    requires PlainBody(a, LabelInitials) && PlainBody(b, LabelInitials)
    ensures ExtractSection("修正内容: " + a + "\n" + b, CorrectionsPattern) == a + "\n" + b
  {
    var others := ImprovementsInitials + NotesInitials;
    var body := a + "\n" + b;
    AvoidsFewerInitials(a, LabelInitials, others);
    AvoidsFewerInitials(b, LabelInitials, others);
    AvoidsInitialsConcat(a, "\n", others);
    AvoidsInitialsConcat(a + "\n", b, others);
    assert body[0] == a[0];
    assert body[|body| - 1] == b[|b| - 1];
    assert "修正内容: " + a + "\n" + b == "修正内容: " + body;
    CorrectionsOnly(body);
  }

  /** A single corrections section whose body no other label can start inside. */
  lemma CorrectionsOnly(body: string)
    requires body != [] && !IsWhitespace(body[0]) && !IsWhitespace(body[|body| - 1])
    requires AvoidsInitials(body, ImprovementsInitials + NotesInitials)
    ensures ExtractSection("修正内容: " + body, CorrectionsPattern) == body
  {
    var t := "修正内容: " + body;
    PatternsHaveLabelInitials();
    assert t == "修正内容" + ": " + body + [];
    SectionAtStart(CorrectionsPattern, "修正内容", body, [], ImprovementsInitials + NotesInitials, t);
    TrimOfTrimmed(body);
  }
}
