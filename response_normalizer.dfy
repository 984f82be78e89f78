/**
 * `src/lib/response-normalizer.ts`: turns a provider envelope into a bounded
 * three-field result, recovering from output that is not the requested JSON.
 *
 * `JSON.parse` and `sanitizeHtml` are calls into code outside the model; they
 * are parameters: `parse` returns `None` where `JSON.parse` throws, and
 * `sanitize` is any string-to-string function.
 */
module ResponseNormalizer {
  import opened Wrappers
  import opened Text
  import opened Validation

  const MaxCorrectedTextLength := 10000
  const MaxSummaryLength := 400
  const MaxDetailsLength := 4000

  /** The completion reason of a normally finished candidate (`FinishReason.STOP`). */
  const StopReason := "STOP"

  const TruncationMarker := '…'

  const NoBlockWarning := "JSON 形式のブロックが見つかりませんでした。"
  const RepairAttemptWarning := "JSON パースに失敗したため簡易修正を試みます。"
  const RepairSucceededWarning := "JSON の簡易修正に成功しました。"
  const RepairFailedWarning := "JSON の修復にも失敗しました。"
  const SchemaWarning := "Zod スキーマ検証に失敗しました。"
  const FallbackWarning := "フォールバックの校正結果を生成しました。"
  const FallbackSummary := "AI 応答を JSON として解釈できなかったため、元の文章を表示しています。"

  /** One content part; `text` is `None` when the part has no text member or it is undefined. */
  datatype Part = Part(text: Option<string>)

  /** A candidate; an absent `content` or `parts` is the empty sequence. */
  datatype Candidate = Candidate(finishReason: Option<string>, parts: seq<Part>)

  /** The envelope; an absent `promptFeedback` has no block reason, absent `candidates` is empty. */
  datatype ProviderResponse = ProviderResponse(blockReason: Option<string>, candidates: seq<Candidate>)

  /** The three errors normalisation throws. */
  datatype NormalizeError =
    | ProviderRejected(reason: string)
    | IncompleteResponse(reason: string)
    | EmptyResponse

  datatype NormalizedResult = NormalizedResult(
    correctedText: string, summary: string, details: string,
    warnings: seq<string>, rawText: string)

  /** JavaScript truthiness of an optional string. */
  predicate Truthy(o: Option<string>)
  {
    o.Some? && o.value != ""
  }

  // ---------------------------------------------------------------------------
  // Text extraction

  /** `parts.map(part => part.text).filter(Boolean)`: the non-empty texts, in order. */
  function TextsOf(parts: seq<Part>): (r: seq<string>)
    ensures |r| <= |parts|
    ensures forall k :: 0 <= k < |r| ==> r[k] != ""
    ensures (forall k :: 0 <= k < |parts| ==> !Truthy(parts[k].text)) <==> r == []
  {
    if parts == [] then []
    else
      var rest := TextsOf(parts[1..]);
      assert forall k :: 1 <= k < |parts| ==> parts[k] == parts[1..][k - 1];
      if Truthy(parts[0].text) then [parts[0].text.value] + rest else rest
  }

  /** `extractCandidateText`: a thrown error, `null` (`Success(None)`), or the text. */
  function ExtractCandidateText(response: ProviderResponse): Result<Option<string>, NormalizeError>
  {
    if Truthy(response.blockReason) then Failure(ProviderRejected(response.blockReason.value))
    else if response.candidates == [] then Success(None)
    else
      var candidate := response.candidates[0];
      if Truthy(candidate.finishReason) && candidate.finishReason.value != StopReason then
        Failure(IncompleteResponse(candidate.finishReason.value))
      else
        var texts := TextsOf(candidate.parts);
        if texts == [] then Success(None) else Success(Some(Trim(Join(texts, "\n"))))
  }

  // ---------------------------------------------------------------------------
  // Locating the JSON block

  const FenceOpen := "```json"
  const Fence := "```"

  /** Leftmost index `k >= from` at which `word` occurs. */
  function IndexOf(s: string, word: string, from: nat): (r: Option<nat>)
    ensures r.Some? ==> from <= r.value && OccursAt(s, r.value, word)
    ensures r.Some? ==> forall k :: from <= k < r.value ==> !OccursAt(s, k, word)
    ensures r.None? ==> forall k :: from <= k ==> !OccursAt(s, k, word)
    decreases |s| - from
  {
    if from + |word| > |s| then None
    else if OccursAt(s, from, word) then Some(from)
    else IndexOf(s, word, from + 1)
  }

  /** Greatest index `k >= lo` with `s[k] == c`. */
  function LastIndexOf(s: string, c: char, lo: nat): (r: Option<nat>)
    ensures r.Some? ==> lo <= r.value < |s| && s[r.value] == c
    ensures r.Some? ==> forall k :: r.value < k < |s| ==> s[k] != c
    ensures r.None? ==> forall k :: lo <= k < |s| ==> s[k] != c
  {
    if |s| <= lo then None
    else if s[|s| - 1] == c then Some(|s| - 1)
    else LastIndexOf(s[..|s| - 1], c, lo)
  }

  /** `/```json\s*([\s\S]*?)```/i` tried at index `i`: the capture, if it matches there.
      The greedy `\s*` never has to give anything back, since a closing fence cannot
      start on whitespace; the lazy capture runs to the first fence after it. */
  function FencedMatchAt(s: string, i: nat): Option<string>
  {
    if OccursAtFolded(s, i, FenceOpen) then
      var a := i + |FenceOpen| + LeadingWhitespace(s[i + |FenceOpen|..]);
      match IndexOf(s, Fence, a)
      case Some(k) => Some(s[a..k])
      case None => None
    else None
  }

  /** The leftmost match of the fenced pattern at or after `i`. */
  function FencedSearch(s: string, i: nat): Option<string>
    decreases |s| - i
  {
    if i + |FenceOpen| > |s| then None
    else match FencedMatchAt(s, i)
      case Some(c) => Some(c)
      case None => FencedSearch(s, i + 1)
  }

  /** `/\{[\s\S]+}/` tried at index `i`: a `{`, then the greedy `[\s\S]+` gives
      back characters until a `}`, which is the last one at least two places on. */
  function InlineMatchAt(s: string, i: nat): Option<string>
    requires i < |s|
  {
    if s[i] == '{' then
      match LastIndexOf(s, '}', i + 2)
      case Some(j) => Some(s[i..j + 1])
      case None => None
    else None
  }

  /** The leftmost match of the inline pattern at or after `i`. */
  function InlineSearch(s: string, i: nat): Option<string>
    decreases |s| - i
  {
    if i >= |s| then None
    else match InlineMatchAt(s, i)
      case Some(m) => Some(m)
      case None => InlineSearch(s, i + 1)
  }

  /** `detectJsonBlock`: a non-empty fenced capture, trimmed; else the inline match, trimmed. */
  function DetectJsonBlock(rawText: string): (r: Option<string>)
    ensures r.Some? ==> r.value != ""
  {
    var fenced := FencedSearch(rawText, 0);
    if fenced.Some? && fenced.value != "" then
      FencedCaptureStartsWithText(rawText, 0);
      Some(Trim(fenced.value))
    else match InlineSearch(rawText, 0)
      case Some(m) =>
        InlineMatchShape(rawText);
        Some(Trim(m))
      case None => None
  }

  /** A non-empty fenced capture starts with a non-whitespace character, so
      trimming it never leaves an empty block. */
  lemma {:induction false} FencedCaptureStartsWithText(s: string, i: nat)
    ensures FencedSearch(s, i).Some? && FencedSearch(s, i).value != "" ==>
      !IsWhitespace(FencedSearch(s, i).value[0])
    decreases |s| - i
  {
    if i + |FenceOpen| <= |s| {
      if FencedMatchAt(s, i).None? {
        FencedCaptureStartsWithText(s, i + 1);
      } else if FencedMatchAt(s, i).value != "" {
        var rest := s[i + |FenceOpen|..];
        var a := i + |FenceOpen| + LeadingWhitespace(rest);
        assert s[a] == rest[LeadingWhitespace(rest)];
      }
    }
  }

  /** Once a `}` no longer occurs from `lo` on, no later start matches inline. */
  lemma {:induction false} InlineSearchExhausted(s: string, i: nat, lo: nat)
    requires LastIndexOf(s, '}', lo).None? && lo <= i + 2
    ensures InlineSearch(s, i) == None
    decreases |s| - i
  {
    if i < |s| {
      InlineSearchExhausted(s, i + 1, lo);
    }
  }

  /** The inline search from `i` is decided at the first `{` at or after `i`. */
  lemma {:induction false} InlineSearchAtFirstOpen(s: string, i: nat)
    ensures InlineSearch(s, i) ==
      match IndexOf(s, "{", i)
      case None => None
      case Some(p) => InlineMatchAt(s, p)
    decreases |s| - i
  {
    if i < |s| {
      if s[i] == '{' {
        assert OccursAt(s, i, "{");
        if InlineMatchAt(s, i).None? {
          InlineSearchExhausted(s, i + 1, i + 2);
        }
      } else {
        assert !OccursAt(s, i, "{");
        InlineSearchAtFirstOpen(s, i + 1);
      }
    } else {
      assert IndexOf(s, "{", i).None?;
    }
  }

  /** The inline match is the span from the leftmost `{` to the last `}`, found
      exactly when there is at least one character between them. */
  lemma InlineIsFirstOpenToLastClose(s: string)
    ensures InlineSearch(s, 0) ==
      match (IndexOf(s, "{", 0), LastIndexOf(s, '}', 0))
      case (Some(i), Some(j)) => if i + 2 <= j then Some(s[i..j + 1]) else None
      case _ => None
  {
    InlineSearchAtFirstOpen(s, 0);
    var open := IndexOf(s, "{", 0);
    var close := LastIndexOf(s, '}', 0);
    if open.Some? {
      var i := open.value;
      assert s[i..i + 1] == "{";
      var near := LastIndexOf(s, '}', i + 2);
      if near.Some? {
        assert s[near.value] == '}';
      }
    }
  }

  /** An inline match is at least three characters, from a `{` to a `}`, and so is its own trim. */
  lemma InlineMatchShape(s: string)
    requires InlineSearch(s, 0).Some?
    ensures var m := InlineSearch(s, 0).value; |m| >= 3 && m[0] == '{' && m[|m| - 1] == '}' && Trim(m) == m
  {
    InlineSearchAtFirstOpen(s, 0);
    var i := IndexOf(s, "{", 0).value;
    assert s[i] == s[i..i + 1][0];
    var j := LastIndexOf(s, '}', i + 2).value;
    var m := InlineSearch(s, 0).value;
    assert m == s[i..j + 1];
    assert m[0] == s[i] && m[|m| - 1] == s[j];
    TrimOfTrimmed(m);
  }

  /** The block located in text that has no fenced block: from the first `{` to
      the last `}` when at least one character separates them, else nothing. */
  lemma DetectJsonBlockInline(rawText: string)
    requires FencedSearch(rawText, 0).None? || FencedSearch(rawText, 0).value == ""
    ensures DetectJsonBlock(rawText) ==
      match (IndexOf(rawText, "{", 0), LastIndexOf(rawText, '}', 0))
      case (Some(i), Some(j)) => if i + 2 <= j then Some(rawText[i..j + 1]) else None
      case _ => None
  {
    InlineIsFirstOpenToLastClose(rawText);
    if InlineSearch(rawText, 0).Some? { InlineMatchShape(rawText); }
  }

  /** Text without a fence or a `{` has no block. */
  lemma NoBraceNoBlock(rawText: string)
    requires '{' !in rawText && '`' !in rawText
    ensures DetectJsonBlock(rawText) == None
  {
    NoFence(rawText, 0);
    DetectJsonBlockInline(rawText);
    forall k | 0 <= k ensures !OccursAt(rawText, k, "{") {
      if k + 1 <= |rawText| { assert rawText[k..k + 1][0] == rawText[k]; }
    }
  }

  lemma {:induction false} NoFence(s: string, i: nat)
    requires '`' !in s
    ensures FencedSearch(s, i) == None
    decreases |s| - i
  {
    if i + |FenceOpen| <= |s| {
      assert FoldAscii(s[i]) != FoldAscii(FenceOpen[0]);
      NoFence(s, i + 1);
    }
  }

  /** `{}` alone is not a block: the inline pattern needs a character between the braces. */
  lemma EmptyObjectIsNoBlock()
    ensures DetectJsonBlock("{}") == None
  {
    assert FencedSearch("{}", 0) == None;
    DetectJsonBlockInline("{}");
    assert IndexOf("{}", "{", 0) == Some(0);
  }

  // ---------------------------------------------------------------------------
  // Repair

  /** The characters the repair rewrites before removing trailing commas. */
  const FullWidthPunctuation: set<char> := {'（', '）', '“', '”', '：', '，'}

  /** The five replacements, in their fixed order: `（`, `）`, `“”`, `：`, `，`. */
  function HalfWidthPunctuation(block: string): string
  {
    var step1 := ReplaceAll(block, {'（'}, '(');
    var step2 := ReplaceAll(step1, {'）'}, ')');
    var step3 := ReplaceAll(step2, {'“', '”'}, '"');
    var step4 := ReplaceAll(step3, {'：'}, ':');
    ReplaceAll(step4, {'，'}, ',')
  }

  /** `s.replace(/,\s*([}\]])/g, "$1")`: scanning left to right, a comma followed
      by whitespace and a closing brace or bracket is replaced by that bracket. */
  function RemoveTrailingCommas(s: string): (r: string)
    ensures |r| <= |s|
    decreases |s|
  {
    if s == [] then []
    else
      var n := LeadingWhitespace(s[1..]);
      if s[0] == ',' && 1 + n < |s| && (s[1 + n] == '}' || s[1 + n] == ']') then
        [s[1 + n]] + RemoveTrailingCommas(s[2 + n..])
      else
        [s[0]] + RemoveTrailingCommas(s[1..])
  }

  /** Removing trailing commas introduces no character. */
  lemma {:induction false} RemoveTrailingCommasKeepsCharacters(s: string)
    ensures forall k :: 0 <= k < |RemoveTrailingCommas(s)| ==> RemoveTrailingCommas(s)[k] in s
    decreases |s|
  {
    if s != [] {
      var n := LeadingWhitespace(s[1..]);
      var r := RemoveTrailingCommas(s);
      var t := if s[0] == ',' && 1 + n < |s| && (s[1 + n] == '}' || s[1 + n] == ']') then s[2 + n..] else s[1..];
      assert r == [r[0]] + RemoveTrailingCommas(t);
      assert r[0] in s;
      RemoveTrailingCommasKeepsCharacters(t);
      forall k | 0 <= k < |r| ensures r[k] in s {
        if k > 0 { assert r[k] == RemoveTrailingCommas(t)[k - 1]; assert r[k] in t; }
      }
    }
  }

  /** Text without commas is left as it is. */
  lemma {:induction false} RemoveTrailingCommasWithoutComma(s: string)
    requires forall k :: 0 <= k < |s| ==> s[k] != ','
    ensures RemoveTrailingCommas(s) == s
    decreases |s|
  {
    if s != [] {
      var t := s[1..];
      assert forall k :: 0 <= k < |t| ==> t[k] == s[k + 1];
      RemoveTrailingCommasWithoutComma(t);
      assert s == [s[0]] + t;
    }
  }

  /** The whole repair chain, applied only after a first parse has failed. */
  function Repair(block: string): string
  {
    RemoveTrailingCommas(HalfWidthPunctuation(block))
  }

  /** The five replacements amount to one character-wise half-width mapping. */
  function HalfWidth(c: char): char
  {
    if c == '（' then '(' else if c == '）' then ')' else if c == '“' || c == '”' then '"'
    else if c == '：' then ':' else if c == '，' then ',' else c
  }

  lemma HalfWidthPunctuationIsCharwise(block: string)
    ensures |HalfWidthPunctuation(block)| == |block|
    ensures forall k :: 0 <= k < |block| ==> HalfWidthPunctuation(block)[k] == HalfWidth(block[k])
  {
    var step1 := ReplaceAll(block, {'（'}, '(');
    var step2 := ReplaceAll(step1, {'）'}, ')');
    var step3 := ReplaceAll(step2, {'“', '”'}, '"');
    var step4 := ReplaceAll(step3, {'：'}, ':');
    var step5 := ReplaceAll(step4, {'，'}, ',');
    forall k | 0 <= k < |block| ensures step5[k] == HalfWidth(block[k]) {
      var c := block[k];
      assert step1[k] == if c == '（' then '(' else c;
      assert step2[k] == if step1[k] == '）' then ')' else step1[k];
      assert step3[k] == if step2[k] == '“' || step2[k] == '”' then '"' else step2[k];
      assert step4[k] == if step3[k] == '：' then ':' else step3[k];
      assert step5[k] == if step4[k] == '，' then ',' else step4[k];
    }
  }

  lemma HalfWidthIsNotFullWidth(c: char)
    ensures HalfWidth(c) !in FullWidthPunctuation
  {
  }

  /** No full-width punctuation survives the repair. */
  lemma RepairLeavesNoFullWidth(block: string)
    ensures forall k :: 0 <= k < |Repair(block)| ==> Repair(block)[k] !in FullWidthPunctuation
  {
    var h := HalfWidthPunctuation(block);
    var r := Repair(block);
    HalfWidthPunctuationIsCharwise(block);
    RemoveTrailingCommasKeepsCharacters(h);
    forall k | 0 <= k < |r| ensures r[k] !in FullWidthPunctuation {
      assert r[k] in h;
      var j :| 0 <= j < |h| && h[j] == r[k];
      HalfWidthIsNotFullWidth(block[j]);
    }
  }

  /** A comma directly before the closing character `close` is dropped. */
  lemma CommaBeforeClose(close: char)
    requires close == '}' || close == ']'
    ensures RemoveTrailingCommas([',', close]) == [close]
  {
    assert LeadingWhitespace([close]) == 0;
    assert [',', close][2..] == [];
  }

  /** A character other than a comma is kept and the scan moves on. */
  lemma KeepsNonComma(c: char, rest: string)
    requires c != ','
    ensures RemoveTrailingCommas([c] + rest) == [c] + RemoveTrailingCommas(rest)
  {
    assert ([c] + rest)[1..] == rest;
  }

  /** A trailing comma before a closing bracket is removed. */
  lemma TrailingCommaExample()
    ensures RemoveTrailingCommas("[1,]") == "[1]"
  {
    CommaBeforeClose(']');
    KeepsNonComma('1', ",]");
    KeepsNonComma('[', "1,]");
  }

  lemma FullWidthCommaIsMadeHalfWidth()
    ensures HalfWidthPunctuation("{1，}") == "{1,}"
  {
    HalfWidthPunctuationIsCharwise("{1，}");
  }

  /** A full-width trailing comma is removed too: it is made half-width before the removal runs. */
  lemma FullWidthTrailingCommaExample()
    ensures Repair("{1，}") == "{1}"
  {
    FullWidthCommaIsMadeHalfWidth();
    CommaBeforeClose('}');
    KeepsNonComma('1', ",}");
    KeepsNonComma('{', "1,}");
  }

  // ---------------------------------------------------------------------------
  // Parse, validate, fall back

  /** What the JSON step yields: a payload or `null`, and the warnings it pushed. */
  datatype Extraction = Extraction(payload: Option<ProofreadResponse>, warnings: seq<string>)

  /** `validatePayload` after `prior` warnings. */
  function Validated(data: Json, prior: seq<string>): Extraction
  {
    match ResponseSchema(data)
    case Some(p) => Extraction(Some(p), prior)
    case None => Extraction(None, prior + [SchemaWarning])
  }

  /** The parse, repair and validation steps for a located block. */
  function ParsedBlock(block: string, parse: string -> Option<Json>): Extraction
  {
    match parse(block)
    case Some(data) => Validated(data, [])
    case None =>
      match parse(Repair(block))
      case Some(data) => Validated(data, [RepairAttemptWarning, RepairSucceededWarning])
      case None => Extraction(None, [RepairAttemptWarning, RepairFailedWarning])
  }

  /** `extractJsonPayload` as a function of the raw text and the parser. */
  function JsonPayload(rawText: string, parse: string -> Option<Json>): Extraction
  {
    match DetectJsonBlock(rawText)
    case None => Extraction(None, [NoBlockWarning])
    case Some(block) => ParsedBlock(block, parse)
  }

  /** `buildFallbackPayload`'s value. */
  function FallbackPayload(rawText: string): ProofreadResponse
  {
    ProofreadResponse(rawText, FallbackSummary, rawText)
  }

  /** `truncate`: at most `maxLength` code units; a longer value keeps its first
      `maxLength - 1` and ends in the marker. */
  function Truncate(value: string, maxLength: nat): (r: string)
    requires maxLength >= 1
    ensures |r| <= maxLength
    ensures |value| <= maxLength ==> r == value
    ensures |value| > maxLength ==>
      |r| == maxLength && r[..maxLength - 1] == value[..maxLength - 1] && r[maxLength - 1] == TruncationMarker
  {
    if |value| <= maxLength then value else value[..maxLength - 1] + [TruncationMarker]
  }

  /** `sanitizePayload`: every field sanitised, then bounded by its own limit. */
  function SanitizePayload(p: ProofreadResponse, sanitize: string -> string): (r: ProofreadResponse)
    ensures |r.correctedText| <= MaxCorrectedTextLength
    ensures |r.summary| <= MaxSummaryLength
    ensures |r.details| <= MaxDetailsLength
  {
    ProofreadResponse(
      Truncate(sanitize(p.correctedText), MaxCorrectedTextLength),
      Truncate(sanitize(p.summary), MaxSummaryLength),
      Truncate(sanitize(p.details), MaxDetailsLength))
  }

  /** Everything after a successful extraction: the JSON steps, the fallback, and
      sanitising and truncating whichever payload results. */
  function NormalizeText(rawText: string, parse: string -> Option<Json>, sanitize: string -> string): NormalizedResult
  {
    var extraction := JsonPayload(rawText, parse);
    var payload := if extraction.payload.Some? then extraction.payload.value else FallbackPayload(rawText);
    var warnings := if extraction.payload.Some? then extraction.warnings else extraction.warnings + [FallbackWarning];
    var s := SanitizePayload(payload, sanitize);
    NormalizedResult(s.correctedText, s.summary, s.details, warnings, rawText)
  }

  /** `normalizeProofreadResponse` as a function of the envelope and the two external calls. */
  function Normalize(response: ProviderResponse, parse: string -> Option<Json>, sanitize: string -> string)
    : Result<NormalizedResult, NormalizeError>
  {
    match ExtractCandidateText(response)
    case Failure(e) => Failure(e)
    case Success(text) =>
      if text.None? || text.value == "" then Failure(EmptyResponse)
      else Success(NormalizeText(text.value, parse, sanitize))
  }

  // ---------------------------------------------------------------------------
  // What normalisation promises

  /** The text the first candidate contributes: its non-empty parts joined by newlines, trimmed. */
  function CandidateText(c: Candidate): string
  {
    Trim(Join(TextsOf(c.parts), "\n"))
  }

  /** A present block reason is checked first: it throws even when a candidate has text. */
  lemma BlockReasonThrowsFirst(response: ProviderResponse, parse: string -> Option<Json>, sanitize: string -> string)
    requires Truthy(response.blockReason)
    ensures Normalize(response, parse, sanitize) == Failure(ProviderRejected(response.blockReason.value))
  {
  }

  /** Without a block reason, a first candidate whose finish reason is present and not
      `STOP` throws; an absent finish reason is accepted like `STOP`. */
  lemma FinishReasonCheck(response: ProviderResponse, parse: string -> Option<Json>, sanitize: string -> string)
    requires !Truthy(response.blockReason) && response.candidates != []
    ensures var f := response.candidates[0].finishReason;
      Normalize(response, parse, sanitize).Failure? && Normalize(response, parse, sanitize).error.IncompleteResponse?
      <==> Truthy(f) && f.value != StopReason
    ensures var f := response.candidates[0].finishReason;
      Truthy(f) && f.value != StopReason ==> Normalize(response, parse, sanitize) == Failure(IncompleteResponse(f.value))
  {
  }

  /** Normalisation throws exactly in the three hard cases; once text is extracted it always
      produces a result, whatever the parser and the sanitiser do. */
  lemma ThrowsOnlyInHardCases(response: ProviderResponse, parse: string -> Option<Json>, sanitize: string -> string)
    ensures Normalize(response, parse, sanitize).Failure? <==>
      || Truthy(response.blockReason)
      || (response.candidates != [] && Truthy(response.candidates[0].finishReason)
          && response.candidates[0].finishReason.value != StopReason)
      || response.candidates == []
      || CandidateText(response.candidates[0]) == ""
    ensures Normalize(response, parse, sanitize) == Failure(EmptyResponse) <==>
      && !Truthy(response.blockReason)
      && (response.candidates == []
          || (!(Truthy(response.candidates[0].finishReason) && response.candidates[0].finishReason.value != StopReason)
              && CandidateText(response.candidates[0]) == ""))
  {
    if !Truthy(response.blockReason) && response.candidates != [] {
      var c := response.candidates[0];
      if TextsOf(c.parts) == [] {
        assert Join(TextsOf(c.parts), "\n") == "";
        TrimEmptyIff("");
      }
    }
  }

  /** A produced result is the normalisation of the extracted text, which it carries
      unchanged as `rawText`: non-empty and trimmed. */
  lemma RawTextIsExtractedText(response: ProviderResponse, parse: string -> Option<Json>, sanitize: string -> string)
    requires Normalize(response, parse, sanitize).Success?
    ensures response.candidates != []
    ensures var raw := CandidateText(response.candidates[0]);
      && raw != "" && Trim(raw) == raw
      && Normalize(response, parse, sanitize) == Success(NormalizeText(raw, parse, sanitize))
      && Normalize(response, parse, sanitize).value.rawText == raw
  {
    SuccessCarriesText(response, parse, sanitize);
    TrimIdempotent(Join(TextsOf(response.candidates[0].parts), "\n"));
  }

  lemma SuccessCarriesText(response: ProviderResponse, parse: string -> Option<Json>, sanitize: string -> string)
    requires Normalize(response, parse, sanitize).Success?
    ensures response.candidates != []
    ensures ExtractCandidateText(response) == Success(Some(CandidateText(response.candidates[0])))
    ensures CandidateText(response.candidates[0]) != ""
    ensures Normalize(response, parse, sanitize) == Success(NormalizeText(CandidateText(response.candidates[0]), parse, sanitize))
  {
  }

  /** Every field of a result is within its limit. */
  lemma ResultIsBounded(rawText: string, parse: string -> Option<Json>, sanitize: string -> string)
    ensures var r := NormalizeText(rawText, parse, sanitize);
      |r.correctedText| <= 10000 && |r.summary| <= 400 && |r.details| <= 4000
  {
  }

  /** The JSON steps only look at the repaired text when the block itself does not parse. */
  lemma UnchangedBlockIsNeverRepaired(block: string, parse1: string -> Option<Json>, parse2: string -> Option<Json>)
    requires parse1(block).Some? && parse1(block) == parse2(block)
    ensures ParsedBlock(block, parse1) == ParsedBlock(block, parse2)
    ensures ParsedBlock(block, parse1).warnings == [] || ParsedBlock(block, parse1).warnings == [SchemaWarning]
  {
  }

  /** The log of the parse, repair and validation steps for a located block, and whether
      they yield a payload. */
  lemma ParsedBlockWarnings(block: string, parse: string -> Option<Json>)
    ensures var e := ParsedBlock(block, parse);
      && (parse(block).Some? ==>
            e.warnings == (if e.payload.Some? then [] else [SchemaWarning])
            && (e.payload.Some? <==> ResponseSchema(parse(block).value).Some?))
      && (parse(block).None? && parse(Repair(block)).Some? ==>
            e.warnings == (if e.payload.Some? then [RepairAttemptWarning, RepairSucceededWarning]
                          else [RepairAttemptWarning, RepairSucceededWarning, SchemaWarning])
            && (e.payload.Some? <==> ResponseSchema(parse(Repair(block)).value).Some?))
      && (parse(block).None? && parse(Repair(block)).None? ==>
            e.payload.None? && e.warnings == [RepairAttemptWarning, RepairFailedWarning])
  {
  }

  /** The warnings log on every path. */
  lemma WarningsByPath(rawText: string, parse: string -> Option<Json>, sanitize: string -> string)
    ensures var r := NormalizeText(rawText, parse, sanitize);
      var block := DetectJsonBlock(rawText);
      && (block.None? ==> r.warnings == [NoBlockWarning, FallbackWarning])
      && (block.Some? && parse(block.value).Some? ==>
            r.warnings == if ResponseSchema(parse(block.value).value).Some? then [] else [SchemaWarning, FallbackWarning])
      && (block.Some? && parse(block.value).None? && parse(Repair(block.value)).Some? ==>
            r.warnings == if ResponseSchema(parse(Repair(block.value)).value).Some?
                          then [RepairAttemptWarning, RepairSucceededWarning]
                          else [RepairAttemptWarning, RepairSucceededWarning, SchemaWarning, FallbackWarning])
      && (block.Some? && parse(block.value).None? && parse(Repair(block.value)).None? ==>
            r.warnings == [RepairAttemptWarning, RepairFailedWarning, FallbackWarning])
  {
    var block := DetectJsonBlock(rawText);
    if block.None? {
      NoBlockPath(rawText, parse, sanitize);
    } else if parse(block.value).Some? {
      FirstParsePath(rawText, parse, sanitize);
    } else if parse(Repair(block.value)).Some? {
      RepairedPath(rawText, parse, sanitize);
    } else {
      FailedRepairPath(rawText, parse, sanitize);
    }
  }

  lemma NoBlockPath(rawText: string, parse: string -> Option<Json>, sanitize: string -> string)
    requires DetectJsonBlock(rawText).None?
    ensures NormalizeText(rawText, parse, sanitize).warnings == [NoBlockWarning, FallbackWarning]
  {
    NormalizeTextWarnings(rawText, parse, sanitize);
    JsonPayloadByBlock(rawText, parse);
    AppendPair([], NoBlockWarning, FallbackWarning);
  }

  lemma FirstParsePath(rawText: string, parse: string -> Option<Json>, sanitize: string -> string)
    requires DetectJsonBlock(rawText).Some? && parse(DetectJsonBlock(rawText).value).Some?
    ensures var data := parse(DetectJsonBlock(rawText).value).value;
      NormalizeText(rawText, parse, sanitize).warnings ==
        if ResponseSchema(data).Some? then [] else [SchemaWarning, FallbackWarning]
  {
    var block := DetectJsonBlock(rawText).value;
    NormalizeTextWarnings(rawText, parse, sanitize);
    JsonPayloadByBlock(rawText, parse);
    ParsedBlockWarnings(block, parse);
    AppendPair([], SchemaWarning, FallbackWarning);
  }

  lemma RepairedPath(rawText: string, parse: string -> Option<Json>, sanitize: string -> string)
    requires DetectJsonBlock(rawText).Some? && parse(DetectJsonBlock(rawText).value).None?
    requires parse(Repair(DetectJsonBlock(rawText).value)).Some?
    ensures var data := parse(Repair(DetectJsonBlock(rawText).value)).value;
      NormalizeText(rawText, parse, sanitize).warnings ==
        if ResponseSchema(data).Some? then [RepairAttemptWarning, RepairSucceededWarning]
        else [RepairAttemptWarning, RepairSucceededWarning, SchemaWarning, FallbackWarning]
  {
    var block := DetectJsonBlock(rawText).value;
    NormalizeTextWarnings(rawText, parse, sanitize);
    JsonPayloadByBlock(rawText, parse);
    ParsedBlockWarnings(block, parse);
    SnocThree(RepairAttemptWarning, RepairSucceededWarning, SchemaWarning, FallbackWarning);
  }

  lemma FailedRepairPath(rawText: string, parse: string -> Option<Json>, sanitize: string -> string)
    requires DetectJsonBlock(rawText).Some? && parse(DetectJsonBlock(rawText).value).None?
    requires parse(Repair(DetectJsonBlock(rawText).value)).None?
    ensures NormalizeText(rawText, parse, sanitize).warnings == [RepairAttemptWarning, RepairFailedWarning, FallbackWarning]
  {
    var block := DetectJsonBlock(rawText).value;
    NormalizeTextWarnings(rawText, parse, sanitize);
    JsonPayloadByBlock(rawText, parse);
    ParsedBlockWarnings(block, parse);
    SnocTwo(RepairAttemptWarning, RepairFailedWarning, FallbackWarning);
  }

  /** The JSON steps log the missing block, or run on the located block. */
  lemma JsonPayloadByBlock(rawText: string, parse: string -> Option<Json>)
    ensures var block := DetectJsonBlock(rawText);
      && (block.None? ==> JsonPayload(rawText, parse) == Extraction(None, [NoBlockWarning]))
      && (block.Some? ==> JsonPayload(rawText, parse) == ParsedBlock(block.value, parse))
  {
  }

  /** The log of a normalisation is the JSON steps' log, followed by the fallback
      warning when they yield no payload. */
  lemma NormalizeTextWarnings(rawText: string, parse: string -> Option<Json>, sanitize: string -> string)
    ensures var e := JsonPayload(rawText, parse);
      NormalizeText(rawText, parse, sanitize).warnings ==
        if e.payload.Some? then e.warnings else e.warnings + [FallbackWarning]
  {
  }

  /** The log is empty exactly on the clean path: the block parses as it is and validates. */
  lemma CleanPathIff(rawText: string, parse: string -> Option<Json>, sanitize: string -> string)
    ensures var block := DetectJsonBlock(rawText);
      NormalizeText(rawText, parse, sanitize).warnings == [] <==>
        block.Some? && parse(block.value).Some? && ResponseSchema(parse(block.value).value).Some?
  {
    WarningsByPath(rawText, parse, sanitize);
  }

  /** A validated payload reaches the caller sanitised and truncated, field by field,
      with an empty log or the two repair entries. */
  lemma ValidatedFields(rawText: string, parse: string -> Option<Json>, sanitize: string -> string)
    requires JsonPayload(rawText, parse).payload.Some?
    ensures var r := NormalizeText(rawText, parse, sanitize);
      var p := JsonPayload(rawText, parse).payload.value;
      && r.correctedText == Truncate(sanitize(p.correctedText), MaxCorrectedTextLength)
      && r.summary == Truncate(sanitize(p.summary), MaxSummaryLength)
      && r.details == Truncate(sanitize(p.details), MaxDetailsLength)
      && (r.warnings == [] || r.warnings == [RepairAttemptWarning, RepairSucceededWarning])
      && r.rawText == rawText
  {
    WarningsByPath(rawText, parse, sanitize);
  }

  /** Every fallback path ends with the fallback warning and shows the raw text as both
      the corrected text and the details, under the fixed summary. */
  lemma FallbackFields(rawText: string, parse: string -> Option<Json>, sanitize: string -> string)
    requires JsonPayload(rawText, parse).payload.None?
    ensures var r := NormalizeText(rawText, parse, sanitize);
      && r.warnings != [] && r.warnings[|r.warnings| - 1] == FallbackWarning
      && r.correctedText == Truncate(sanitize(rawText), MaxCorrectedTextLength)
      && r.summary == Truncate(sanitize(FallbackSummary), MaxSummaryLength)
      && r.details == Truncate(sanitize(rawText), MaxDetailsLength)
      && r.rawText == rawText
  {
  }

  /** The fallback warning is pushed exactly when the fallback runs. */
  lemma FallbackWarningIffFallback(rawText: string, parse: string -> Option<Json>, sanitize: string -> string)
    ensures JsonPayload(rawText, parse).payload.None? <==> FallbackWarning in NormalizeText(rawText, parse, sanitize).warnings
  {
    WarningsByPath(rawText, parse, sanitize);
  }

  /** The envelope of a single text part that finished normally. */
  function SinglePartResponse(text: string): ProviderResponse
  {
    ProviderResponse(None, [Candidate(Some(StopReason), [Part(Some(text))])])
  }

  /** A single part whose text has no whitespace at either end is the extracted text itself. */
  lemma SinglePartNormalizes(text: string, parse: string -> Option<Json>, sanitize: string -> string)
    requires text != [] && !IsWhitespace(text[0]) && !IsWhitespace(text[|text| - 1])
    ensures Normalize(SinglePartResponse(text), parse, sanitize) == Success(NormalizeText(text, parse, sanitize))
  {
    assert TextsOf([Part(Some(text))]) == [text];
    TrimOfTrimmed(text);
  }

  /** Prose without a `{` or a backtick falls back: the text is shown as the corrected
      text and the details, with the fixed summary and the two warnings. */
  lemma ProseFallsBack(prose: string, parse: string -> Option<Json>, sanitize: string -> string)
    requires prose != [] && !IsWhitespace(prose[0]) && !IsWhitespace(prose[|prose| - 1])
    requires '{' !in prose && '`' !in prose
    ensures Normalize(SinglePartResponse(prose), parse, sanitize) == Success(NormalizedResult(
      Truncate(sanitize(prose), MaxCorrectedTextLength),
      Truncate(sanitize(FallbackSummary), MaxSummaryLength),
      Truncate(sanitize(prose), MaxDetailsLength),
      [NoBlockWarning, FallbackWarning],
      prose))
  {
    SinglePartNormalizes(prose, parse, sanitize);
    NoBraceNoBlock(prose);
    FallbackFields(prose, parse, sanitize);
    WarningsByPath(prose, parse, sanitize);
  }

  /** Text without backticks that opens with `{` and closes with `}` is its own block. */
  lemma BracedTextIsItsOwnBlock(t: string)
    requires '`' !in t && |t| >= 3 && t[0] == '{' && t[|t| - 1] == '}'
    ensures DetectJsonBlock(t) == Some(t)
  {
    NoFence(t, 0);
    DetectJsonBlockInline(t);
    assert t[0..1] == "{";
    assert IndexOf(t, "{", 0) == Some(0);
    assert LastIndexOf(t, '}', 0) == Some(|t| - 1);
    assert t[0..|t|] == t;
  }

  /** A braced reply without backticks that parses to a well-formed response within
      the limits, whose fields the sanitiser leaves alone, comes back field for field
      with an empty log. */
  lemma BracedJsonPassesThrough(t: string, p: ProofreadResponse, parse: string -> Option<Json>, sanitize: string -> string)
    requires '`' !in t && |t| >= 3 && t[0] == '{' && t[|t| - 1] == '}'
    requires parse(t) == Some(ResponseJson(p)) && WellFormedResponse(p)
    requires |p.correctedText| <= MaxCorrectedTextLength && |p.summary| <= MaxSummaryLength
    requires |p.details| <= MaxDetailsLength
    requires sanitize(p.correctedText) == p.correctedText && sanitize(p.summary) == p.summary
    requires sanitize(p.details) == p.details
    ensures Normalize(SinglePartResponse(t), parse, sanitize) ==
      Success(NormalizedResult(p.correctedText, p.summary, p.details, [], t))
  {
    BracedTextIsItsOwnBlock(t);
    SinglePartNormalizes(t, parse, sanitize);
    ResponseRoundTrip(p);
    ValidatedFields(t, parse, sanitize);
    CleanPathIff(t, parse, sanitize);
  }

  /** The members `JSON.stringify` gives for the three-field test object (`\n` stays escaped). */
  const CleanJsonMembers := "\"correctedText\":\"" + "修正後テキスト" + "\",\"summary\":\"" + "概要です"
    + "\",\"details\":\"" + "修正内容: A\\n" + "改善点: B\\n" + "注意点: C" + "\""

  const CleanJsonText := "{" + CleanJsonMembers + "}"

  const CleanPayload := ProofreadResponse("修正後テキスト", "概要です", "修正内容: A\n改善点: B\n注意点: C")

  /** Valid JSON text matching the contract comes back field for field, with no warning,
      when the sanitiser leaves those fields as they are. */
  lemma CleanJsonPassesThrough(parse: string -> Option<Json>, sanitize: string -> string)
    requires parse(CleanJsonText) == Some(ResponseJson(CleanPayload))
    requires sanitize(CleanPayload.correctedText) == CleanPayload.correctedText
    requires sanitize(CleanPayload.summary) == CleanPayload.summary
    requires sanitize(CleanPayload.details) == CleanPayload.details
    ensures Normalize(SinglePartResponse(CleanJsonText), parse, sanitize) == Success(NormalizedResult(
      CleanPayload.correctedText, CleanPayload.summary, CleanPayload.details, [], CleanJsonText))
  {
    CleanJsonShape();
    BracedJsonPassesThrough(CleanJsonText, CleanPayload, parse, sanitize);
  }

  lemma CleanJsonShape()
    ensures var t := CleanJsonText; '`' !in t && |t| >= 3 && t[0] == '{' && t[|t| - 1] == '}'
    ensures WellFormedResponse(CleanPayload)
    ensures |CleanPayload.correctedText| <= MaxCorrectedTextLength && |CleanPayload.summary| <= MaxSummaryLength
    ensures |CleanPayload.details| <= MaxDetailsLength
  {
    assert '`' !in CleanJsonMembers;
  }

  // ---------------------------------------------------------------------------
  // The warnings array, mutated in place by `push`

  class WarningLog {
    var entries: seq<string>

    constructor ()
      ensures entries == []
    {
      entries := [];
    }

    method Push(w: string)
      modifies this
      ensures entries == old(entries) + [w]
    {
      entries := entries + [w];
    }
  }

  method ValidatePayload(data: Json, warnings: WarningLog) returns (p: Option<ProofreadResponse>)
    modifies warnings
    ensures p == ResponseSchema(data)
    ensures warnings.entries == old(warnings.entries) + (if p.None? then [SchemaWarning] else [])
  {
    p := ResponseSchema(data);
    if p.None? {
      warnings.Push(SchemaWarning);
    }
  }

  /** `extractJsonPayload`: locate the block, then parse, repair and validate it. */
  method ExtractJsonPayload(rawText: string, parse: string -> Option<Json>, warnings: WarningLog)
    returns (p: Option<ProofreadResponse>)
    modifies warnings
    ensures p == JsonPayload(rawText, parse).payload
    ensures warnings.entries == old(warnings.entries) + JsonPayload(rawText, parse).warnings
  {
    var jsonBlock := DetectJsonBlock(rawText);
    if jsonBlock.None? {
      warnings.Push(NoBlockWarning);
      return None;
    }
    p := ParseJsonBlock(jsonBlock.value, parse, warnings);
  }

  /** The part of `extractJsonPayload` after a block was located. */
  method ParseJsonBlock(jsonBlock: string, parse: string -> Option<Json>, warnings: WarningLog)
    returns (p: Option<ProofreadResponse>)
    modifies warnings
    ensures p == ParsedBlock(jsonBlock, parse).payload
    ensures warnings.entries == old(warnings.entries) + ParsedBlock(jsonBlock, parse).warnings
  {
    ghost var before := warnings.entries;
    var firstParse := parse(jsonBlock);
    if firstParse.Some? {
      p := ValidatePayload(firstParse.value, warnings);
      return;
    }
    warnings.Push(RepairAttemptWarning);
    var repaired := Repair(jsonBlock);
    var secondParse := parse(repaired);
    if secondParse.Some? {
      warnings.Push(RepairSucceededWarning);
      AppendPair(before, RepairAttemptWarning, RepairSucceededWarning);
      p := ValidatePayload(secondParse.value, warnings);
      AppendAfterPair(before, RepairAttemptWarning, RepairSucceededWarning, SchemaWarning);
      return;
    }
    warnings.Push(RepairFailedWarning);
    AppendPair(before, RepairAttemptWarning, RepairFailedWarning);
    p := None;
  }

  lemma SnocTwo(a: string, b: string, c: string)
    ensures [a, b] + [c] == [a, b, c]
  {
  }

  lemma SnocThree(a: string, b: string, c: string, d: string)
    ensures [a, b, c] + [d] == [a, b, c, d]
  {
  }

  lemma AppendPair(xs: seq<string>, a: string, b: string)
    ensures xs + [a] + [b] == xs + [a, b]
  {
  }

  lemma AppendAfterPair(xs: seq<string>, a: string, b: string, c: string)
    ensures xs + [a, b] + [c] == xs + ([a, b] + [c])
  {
  }

  method BuildFallbackPayload(rawText: string, warnings: WarningLog) returns (p: ProofreadResponse)
    modifies warnings
    ensures p == FallbackPayload(rawText)
    ensures warnings.entries == old(warnings.entries) + [FallbackWarning]
  {
    warnings.Push(FallbackWarning);
    p := ProofreadResponse(rawText, FallbackSummary, rawText);
  }

  /** The entry point: each step pushes onto one log, as the source does. */
  method NormalizeProofreadResponse(response: ProviderResponse, parse: string -> Option<Json>, sanitize: string -> string)
    returns (r: Result<NormalizedResult, NormalizeError>)
    ensures r == Normalize(response, parse, sanitize)
  {
    var warnings := new WarningLog();
    var extracted := ExtractCandidateText(response);
    if extracted.Failure? {
      return Failure(extracted.error);
    }
    var rawText := extracted.value;
    if rawText.None? || rawText.value == "" {
      return Failure(EmptyResponse);
    }
    ghost var extraction := JsonPayload(rawText.value, parse);
    var parsed := ExtractJsonPayload(rawText.value, parse, warnings);
    assert warnings.entries == extraction.warnings;
    var payload;
    if parsed.Some? {
      payload := parsed.value;
    } else {
      payload := BuildFallbackPayload(rawText.value, warnings);
      assert warnings.entries == extraction.warnings + [FallbackWarning];
    }
    var sanitized := SanitizePayload(payload, sanitize);
    r := Success(NormalizedResult(sanitized.correctedText, sanitized.summary, sanitized.details,
                                  warnings.entries, rawText.value));
  }
}
