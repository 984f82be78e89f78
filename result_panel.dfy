/**
 * The two pure pieces of `src/app/components/ResultPanel.tsx`: `displaySafeHtml`,
 * which turns plain text's line breaks into `<br>` and leaves text that already
 * holds markup alone, and the summary line with its placeholder.
 */
module ResultPanel {
  import opened Text

  const Br := "<br>"
  const SummaryPlaceholder := "校正概要を準備中..."

  /** `s.replace(/\n/g, '<br>')`. */
  function BreakLines(s: string): (r: string)
    ensures |r| >= |s|
  {
    if s == [] then []
    else (if s[0] == '\n' then Br else [s[0]]) + BreakLines(s[1..])
  }

  /** `displaySafeHtml`: only text without a `<` is converted. */
  function DisplaySafeHtml(html: string): (r: string)
  {
    if '<' !in html then BreakLines(html) else html
  }

  /** The inverse of `BreakLines` on text without `<`: every `<br>` back to a line break. */
  function JoinLines(s: string): (r: string)
    ensures |r| <= |s|
    decreases |s|
  {
    if s == [] then []
    else if |s| >= 4 && s[..4] == Br then ['\n'] + JoinLines(s[4..])
    else [s[0]] + JoinLines(s[1..])
  }

  /** Converting line breaks leaves no line break behind. */
  lemma {:induction false} BreakLinesRemovesNewlines(s: string)
    ensures '\n' !in BreakLines(s)
  {
    if s != [] {
      BreakLinesRemovesNewlines(s[1..]);
    }
  }

  /** Text without a line break is left as it is. */
  lemma {:induction false} BreakLinesNoNewline(s: string)
    requires '\n' !in s
    ensures BreakLines(s) == s
  {
    if s != [] {
      assert s[0] in s;
      assert '\n' !in s[1..] by {
        forall k | 0 <= k < |s[1..]| ensures s[1..][k] != '\n' {
          assert s[1..][k] == s[k + 1];
        }
      }
      BreakLinesNoNewline(s[1..]);
      assert s == [s[0]] + s[1..];
    }
  }

  /** Every other character is kept: only the line breaks become `<br>`. */
  lemma {:induction false} BreakLinesKeepsOthers(s: string, c: char)
    requires c != '\n' && c != '<' && c != 'b' && c != 'r' && c != '>'
    ensures c in BreakLines(s) <==> c in s
  {
    if s != [] {
      BreakLinesKeepsOthers(s[1..], c);
      assert s == [s[0]] + s[1..];
      var head := if s[0] == '\n' then Br else [s[0]];
      assert BreakLines(s) == head + BreakLines(s[1..]);
      assert c in head <==> c == s[0];
    }
  }

  /** Text with a line break gains a `<`, so its converted form is markup. */
  lemma {:induction false} BreakLinesAddsMarkup(s: string)
    requires '\n' in s
    ensures '<' in BreakLines(s)
  {
    if s[0] == '\n' {
      assert BreakLines(s)[0] == '<';
    } else {
      assert s == [s[0]] + s[1..];
      assert '\n' in s[1..];
      BreakLinesAddsMarkup(s[1..]);
      assert BreakLines(s) == [s[0]] + BreakLines(s[1..]);
    }
  }

  /** Converting text that holds no `<` loses nothing: `JoinLines` gives it back. */
  lemma {:induction false} BreakLinesRoundTrip(s: string)
    requires '<' !in s
    ensures JoinLines(BreakLines(s)) == s
  {
    if s != [] {
      assert s == [s[0]] + s[1..];
      assert '<' !in s[1..];
      BreakLinesRoundTrip(s[1..]);
      var rest := BreakLines(s[1..]);
      if s[0] == '\n' {
        assert BreakLines(s) == Br + rest;
        assert (Br + rest)[..4] == Br && (Br + rest)[4..] == rest;
      } else {
        assert BreakLines(s) == [s[0]] + rest;
        assert ([s[0]] + rest)[0] != '<';
        assert ([s[0]] + rest)[1..] == rest;
      }
    }
  }

  /** Plain text: every line break becomes `<br>`, no line break is left, and the
      text can be recovered. Markup: returned unchanged. */
  lemma DisplaySafeHtmlSpec(html: string)
    ensures '<' in html ==> DisplaySafeHtml(html) == html
    ensures '<' !in html ==> '\n' !in DisplaySafeHtml(html) && JoinLines(DisplaySafeHtml(html)) == html
  {
    if '<' !in html {
      BreakLinesRemovesNewlines(html);
      BreakLinesRoundTrip(html);
    }
  }

  /** Displaying displayed text changes nothing more. */
  lemma DisplaySafeHtmlIdempotent(html: string)
    ensures DisplaySafeHtml(DisplaySafeHtml(html)) == DisplaySafeHtml(html)
  {
    if '<' !in html {
      if '\n' in html {
        BreakLinesAddsMarkup(html);
      } else {
        BreakLinesNoNewline(html);
      }
    }
  }

  /** The summary as displayed: `displaySafeHtml(summary.trim() || placeholder)`. */
  function SummaryText(summary: string): (r: string)
  {
    DisplaySafeHtml(if Trim(summary) != "" then Trim(summary) else SummaryPlaceholder)
  }

  /** A blank summary shows the placeholder; any other shows its trimmed text, displayed. */
  lemma SummaryTextSpec(summary: string)
    ensures AllWhitespace(summary) ==> SummaryText(summary) == SummaryPlaceholder
    ensures !AllWhitespace(summary) ==> SummaryText(summary) == DisplaySafeHtml(Trim(summary))
  {
    TrimEmptyIff(summary);
    if AllWhitespace(summary) {
      PlaceholderIsPlain();
      BreakLinesNoNewline(SummaryPlaceholder);
    }
  }

  lemma PlaceholderIsPlain()
    ensures '<' !in SummaryPlaceholder && '\n' !in SummaryPlaceholder
  {
  }
}
