# kotonoha proofreading core in Dafny

This project models the core of kotonoha, a Japanese proofreading app. Its server sends the user's text to a language model with a fixed instruction prompt. It then turns the model's reply into a bounded three-field result: `correctedText`, `summary` and `details`. The browser side splits `details` into three sections (corrections, improvements, notes). It also keeps the user's settings and a list of toast notifications, and manages the start, cancellation and completion of a proofreading request.

The model has one module per source file:

| file | module | models |
|---|---|---|
| `wrappers.dfy` | `Wrappers` | `Option` and `Result` |
| `text.dfy` | `Text` | the JavaScript string built-ins the core uses: `trim`, `join`, single-character `replace`, ASCII case folding |
| `validation.dfy` | `Validation` | the request and response schemas of `src/lib/validation/proofread.ts` |
| `response_normalizer.dfy` | `ResponseNormalizer` | `src/lib/response-normalizer.ts` |
| `section_parser.dfy` | `SectionParser` | `src/lib/format/proofread.ts` |
| `prompts.dfy` | `Prompts` | `src/lib/prompts.ts` |
| `settings_defaults.dfy` | `SettingsDefaults` | `src/lib/settings/defaults.ts` |
| `settings_store.dfy` | `SettingsStore` | `src/lib/settings/store.ts` |
| `notifications.dfy` | `Notifications` | `src/lib/notifications/store.ts` and `src/types/notification.ts` |
| `use_proofread.dfy` | `ProofreadHook` | the state logic of `src/app/hooks/useProofread.ts` |
| `result_panel.dfy` | `ResultPanel` | `displaySafeHtml` and the summary line of `src/app/components/ResultPanel.tsx` |

## Modelling choices

- **Strings.** A model string is a sequence of Unicode scalar values, one `char` each. It stands for a JavaScript string code unit by code unit exactly when the text has no surrogate code units, that is, when every character lies in the Basic Multilingual Plane (BMP). For such text a model length is JavaScript's `length`, so the lengths and limits below, stated in code units, are the source's. Text outside the BMP is listed under "## Left out".
- **Whitespace.** `trim` and the regex class `\s` share one predicate, `Text.IsWhitespace`. It is the WhiteSpace and LineTerminator sets of ECMA-262, sections 12.2 and 12.3, and it includes the ideographic space U+3000.
- **External calls.** The normaliser takes `JSON.parse` and `sanitizeHtml` as function parameters:
  - `parse: string -> Option<Json>`, where `None` means the call threw;
  - `sanitize: string -> string`.

  Every property is proved for all such functions.
- **Regular expressions.** Each regex is written as an explicit search:
  - the pattern is tried at every start position, and the leftmost match wins;
  - label alternatives are tried in their written order;
  - the `i` flag folds ASCII letters only, which is all it does for these ASCII-only patterns;
  - a greedy or lazy quantifier is written as the run length it actually takes.
- **Mutable state.** Code that commits state step by step becomes a class whose methods are proved against pure functions:
  - the normaliser's `warnings` array is `WarningLog`;
  - the prompt builder's `push` calls update a local `seq`;
  - the settings store is `SettingsStore.Store`;
  - the notification list is `NotificationStore`;
  - the hook's refs and state are `ProofreadSession`.
- **Outside inputs.** Random ids (`crypto.randomUUID`) are method parameters. How a request settles (the HTTP status, the body, or the error thrown) is an `Outcome` value passed to the method that models the `catch` block.
- **`validationState`.** The classifier is defined with `AllWhitespace`. `ClassifyIsTrimTest` proves that this equals the hook's own expression, which tests the length of the trimmed text.
- **`proofreadDetails`.** The hook state keeps the `details` text it shows, and `ProofreadSession.Details()` applies the pure `parseProofreadDetails` to it. This gives the same value the hook stores.

Behaviour of the source that the proofs make explicit:

- **`parseProofreadDetails`.** The `try`/`catch` can never reach its `catch`, because every step is total.
- **A capture that cleans to nothing.** A capture that is non-empty but becomes empty after `cleanSection`, such as `"##"`, gives the structured shape with three empty fields and no `fallbackText`.
- **`finally` of an older request.** It sets `loading` to false even when a newer request has become the active one. The run button is disabled while loading, so this needs overlapping requests to show.
- **The `??` fallbacks in `prompts.ts`.** The style and level are typed enums here, so those fallbacks can never apply.

## Model

| member | source | states |
|---|---|---|
| Text.Trim | src/lib/format/proofread.ts:59 | `trim` returns a contiguous slice with only whitespace cut from either side, and no whitespace at either end of the result |
| Text.TrimEmptyIff | src/app/hooks/useProofread.ts:29 | the trimmed text is empty exactly when every code unit is whitespace |
| Text.TrimIdempotent | src/lib/response-normalizer.ts:62 | trimming twice equals trimming once |
| Text.TrimOfTrimmed | src/lib/response-normalizer.ts:110 | text with no whitespace at either end is its own trim |
| Text.JoinAppend | src/lib/prompts.ts:58 | joining a concatenation puts exactly one separator between the two joined halves |
| Text.ReplaceAll | src/lib/response-normalizer.ts:86-90 | a global single-character replace keeps the length and maps each position independently |
| Validation.StyleFromName | src/lib/validation/proofread.ts:8-10 | a name reads back as a style exactly when it is one of the four enum values, and then names that style |
| Validation.LevelFromName | src/lib/validation/proofread.ts:11 | a name reads back as a level exactly when it is one of the three enum values, and then names that level |
| Validation.ParseRequestSpec | src/lib/validation/proofread.ts:3-12 | a request object is accepted iff `text` is a string of 1 to 10000 code units and each present enum member is a valid string; absent members default to business and standard; the text is kept |
| Validation.RequestRoundTrip | src/lib/validation/proofread.ts:3-12 | the object a client builds from a valid text and two enum values is accepted as sent |
| Validation.ParseRequestNeedsObject | src/lib/validation/proofread.ts:3 | anything other than an object is rejected |
| Validation.ResponseSchemaSpec | src/lib/validation/proofread.ts:16-20 | a value is accepted iff it is an object whose three members are strings of length at least one; the accepted fields are those strings unchanged |
| Validation.ResponseRoundTrip | src/lib/validation/proofread.ts:16-20 | a response with three non-empty fields, written as an object, validates to itself |
| Validation.WhitespaceFieldsPass | src/lib/validation/proofread.ts:17-19 | whitespace-only fields pass, since `min(1)` does not trim |
| ResponseNormalizer.TextsOf | src/lib/response-normalizer.ts:55-58 | the kept part texts are the non-empty ones; the list is empty exactly when no part has a non-empty text |
| ResponseNormalizer.IndexOf | src/lib/response-normalizer.ts:107-113 | finds the leftmost occurrence of a word at or after a position, or proves there is none |
| ResponseNormalizer.LastIndexOf | src/lib/response-normalizer.ts:113 | finds the last occurrence of a character, or proves there is none |
| ResponseNormalizer.DetectJsonBlock | src/lib/response-normalizer.ts:106-120 | a located block is never empty |
| ResponseNormalizer.FencedCaptureStartsWithText | src/lib/response-normalizer.ts:107-110 | a non-empty fenced capture starts with a non-whitespace character, so the block it yields is non-empty |
| ResponseNormalizer.InlineSearchAtFirstOpen | src/lib/response-normalizer.ts:113 | the leftmost-match search for `\{[\s\S]+}` is decided at the first `{` |
| ResponseNormalizer.InlineIsFirstOpenToLastClose | src/lib/response-normalizer.ts:113 | the inline match is the span from the first `{` to the last `}` when at least one character lies between them, and none otherwise |
| ResponseNormalizer.InlineMatchShape | src/lib/response-normalizer.ts:113-116 | an inline match has at least three characters, opens with `{`, closes with `}`, and is its own trim |
| ResponseNormalizer.DetectJsonBlockInline | src/lib/response-normalizer.ts:106-120 | without a non-empty fenced capture, the block is the first-`{`-to-last-`}` span, or none |
| ResponseNormalizer.NoBraceNoBlock | src/lib/response-normalizer.ts:106-120 | text without a backtick or a `{` has no block |
| ResponseNormalizer.NoFence | src/lib/response-normalizer.ts:107 | text without a backtick has no fenced match |
| ResponseNormalizer.EmptyObjectIsNoBlock | src/lib/response-normalizer.ts:113-119 | `{}` alone is not a block |
| ResponseNormalizer.RemoveTrailingCommas | src/lib/response-normalizer.ts:91 | trailing-comma removal never lengthens the text |
| ResponseNormalizer.RemoveTrailingCommasKeepsCharacters | src/lib/response-normalizer.ts:91 | the removal introduces no character |
| ResponseNormalizer.RemoveTrailingCommasWithoutComma | src/lib/response-normalizer.ts:91 | text without commas is left unchanged |
| ResponseNormalizer.HalfWidthPunctuationIsCharwise | src/lib/response-normalizer.ts:86-90 | the five replacements, in their order, are one character-wise half-width mapping that keeps the length |
| ResponseNormalizer.HalfWidthIsNotFullWidth | src/lib/response-normalizer.ts:86-90 | the mapping never yields one of the five full-width marks |
| ResponseNormalizer.RepairLeavesNoFullWidth | src/lib/response-normalizer.ts:85-91 | no full-width bracket, quote, colon or comma survives the repair |
| ResponseNormalizer.CommaBeforeClose | src/lib/response-normalizer.ts:91 | a comma directly before `}` or `]` is dropped |
| ResponseNormalizer.KeepsNonComma | src/lib/response-normalizer.ts:91 | any other character is kept and the scan moves on |
| ResponseNormalizer.TrailingCommaExample | src/lib/response-normalizer.ts:91 | `[1,]` becomes `[1]` |
| ResponseNormalizer.FullWidthCommaIsMadeHalfWidth | src/lib/response-normalizer.ts:90 | the full-width comma becomes `,` |
| ResponseNormalizer.FullWidthTrailingCommaExample | src/lib/response-normalizer.ts:85-91 | a full-width trailing comma is removed too, because the half-width step runs first |
| ResponseNormalizer.Truncate | src/lib/response-normalizer.ts:172-178 | the result has at most `maxLength` code units; a value within the limit is unchanged; a longer one keeps its first `maxLength - 1` units plus `…`, exactly `maxLength` long |
| ResponseNormalizer.SanitizePayload | src/lib/response-normalizer.ts:161-170 | every field is within its own limit: 10000, 400 and 4000 |
| ResponseNormalizer.BlockReasonThrowsFirst | src/lib/response-normalizer.ts:41-45 | a present block reason throws, whatever the candidates hold |
| ResponseNormalizer.FinishReasonCheck | src/lib/response-normalizer.ts:47-53 | without a block reason, the first candidate's finish reason throws exactly when it is present and not `STOP`; an absent one is accepted |
| ResponseNormalizer.ThrowsOnlyInHardCases | src/lib/response-normalizer.ts:17-63 | normalisation fails exactly on a block reason, a bad finish reason, no candidate, or empty extracted text; it fails with the empty-text error exactly in the last two cases |
| ResponseNormalizer.RawTextIsExtractedText | src/lib/response-normalizer.ts:21-62 | a result is the normalisation of the trimmed, newline-joined, non-empty candidate text, which it returns unchanged as `rawText` |
| ResponseNormalizer.ResultIsBounded | src/lib/response-normalizer.ts:8-29 | every returned field is within its limit, on every path |
| ResponseNormalizer.UnchangedBlockIsNeverRepaired | src/lib/response-normalizer.ts:77-81 | when the block parses as it is, the outcome does not depend on how the repaired text would parse, and no repair warning is logged |
| ResponseNormalizer.ParsedBlockWarnings | src/lib/response-normalizer.ts:77-144 | the warnings and the payload of each parse/repair/validate path of a located block |
| ResponseNormalizer.WarningsByPath | src/lib/response-normalizer.ts:69-151 | the exact warnings log on each of the six paths (no block; first parse validates or fails the schema; repair validates or fails the schema; repair fails to parse); every fallback path ends with the fallback warning |
| ResponseNormalizer.CleanPathIff | src/lib/response-normalizer.ts:77-144 | the log is empty exactly when a block is found, parses unchanged and validates |
| ResponseNormalizer.ValidatedFields | src/lib/response-normalizer.ts:161-170 | a validated payload is returned sanitised and truncated field by field, with an empty log or exactly the repair-attempt and repair-success warnings, and with the raw text |
| ResponseNormalizer.FallbackFields | src/lib/response-normalizer.ts:147-159 | on fallback, `correctedText` and `details` are the sanitised, truncated raw text, `summary` is the fixed message, and the log ends with the fallback warning |
| ResponseNormalizer.FallbackWarningIffFallback | src/lib/response-normalizer.ts:28 | the fallback warning is logged exactly when the JSON steps produced no payload |
| ResponseNormalizer.SinglePartNormalizes | src/lib/response-normalizer.ts:55-62 | a single text part with no whitespace at either end is itself the extracted text |
| ResponseNormalizer.ProseFallsBack | src/lib/__tests__/response-normalizer.test.ts:38-62 | prose without `{` or a backtick yields the fallback result, with the no-block and fallback warnings and the prose as raw text |
| ResponseNormalizer.BracedTextIsItsOwnBlock | src/lib/response-normalizer.ts:113-116 | text without backticks that opens with `{` and closes with `}` is its own block |
| ResponseNormalizer.BracedJsonPassesThrough | src/lib/response-normalizer.ts:17-36 | a braced reply that parses to a well-formed response within the limits, whose fields sanitising leaves alone, comes back field for field with an empty log |
| ResponseNormalizer.CleanJsonPassesThrough | src/lib/__tests__/response-normalizer.test.ts:27-36 | a clean JSON reply whose fields sanitising leaves alone comes back field for field, with an empty log |
| ResponseNormalizer.WarningLog.constructor | src/lib/response-normalizer.ts:20 | the log starts empty |
| ResponseNormalizer.WarningLog.Push | src/lib/response-normalizer.ts:72 | `push` appends one entry at the end |
| ResponseNormalizer.ValidatePayload | src/lib/response-normalizer.ts:132-145 | returns the schema's result and logs the schema warning exactly when validation fails |
| ResponseNormalizer.ExtractJsonPayload | src/lib/response-normalizer.ts:65-104 | returns the payload of the JSON steps and appends exactly their warnings to the log |
| ResponseNormalizer.ParseJsonBlock | src/lib/response-normalizer.ts:77-103 | parses the block, repairs it when the first parse fails, and appends exactly the repair warnings of the path taken |
| ResponseNormalizer.BuildFallbackPayload | src/lib/response-normalizer.ts:147-159 | returns the fallback payload and appends the fallback warning |
| ResponseNormalizer.NormalizeProofreadResponse | src/lib/response-normalizer.ts:17-36 | the step-by-step entry point computes exactly the result of the functional model, so every lemma above applies to it |
| SectionParser.FirstLabel | src/lib/format/proofread.ts:10-14 | returns the first alternative, in written order, that starts the text (ASCII case-insensitive), or proves that none does |
| SectionParser.CaptureLengthSpec | src/lib/format/proofread.ts:10-14 | the lazy capture stops at the first position where a stop label starts, or at the end of the input |
| SectionParser.CaptureStart | src/lib/format/proofread.ts:10-14 | after the label and an optional colon, the greedy `\s*` stops at the end or at a non-whitespace character |
| SectionParser.LeftmostMatchSpec | src/lib/format/proofread.ts:10-57 | `match` scanning from a position finds the leftmost position at which the pattern matches, or there is none |
| SectionParser.LeftmostShifts | src/lib/format/proofread.ts:57 | searching `x + y` from inside `y` finds what searching `y` finds, moved by the length of `x` |
| SectionParser.LeftmostSkips | src/lib/format/proofread.ts:10-57 | no position inside a prefix in which no label can start is a match |
| SectionParser.ExtractSection | src/lib/format/proofread.ts:56-60 | the result is `""` when nothing matches, and otherwise the trimmed capture; it never has whitespace at either end |
| SectionParser.LeadingMarkers | src/lib/format/proofread.ts:69 | measures the leading run of `#`, `-`, `*` and whitespace |
| SectionParser.StripMarkers | src/lib/format/proofread.ts:69 | the result is a suffix of the input and does not start with a marker |
| SectionParser.StripMarkersSpec | src/lib/format/proofread.ts:69 | exactly the leading run of marker characters is removed |
| SectionParser.BlankRun | src/lib/format/proofread.ts:70 | a match of `\n\s*\n` ends with a newline and consists of whitespace |
| SectionParser.BlankRunZero | src/lib/format/proofread.ts:70 | when there is no match, no whitespace-only prefix ends in a newline |
| SectionParser.CollapseLeavesNoBlankLine | src/lib/format/proofread.ts:70 | after the global replace no blank line is left |
| SectionParser.CollapseWithoutBlankLine | src/lib/format/proofread.ts:70 | text without a blank line is left as it is |
| SectionParser.CollapseIdempotent | src/lib/format/proofread.ts:70 | collapsing twice is collapsing once |
| SectionParser.CleanSectionHasNoBlankLine | src/lib/format/proofread.ts:67-72 | a cleaned section has no blank line |
| SectionParser.CleanSectionEnds | src/lib/format/proofread.ts:67-72 | a cleaned section is empty, or starts with neither a marker nor whitespace and does not end in whitespace |
| SectionParser.CleanSectionOfClean | src/lib/format/proofread.ts:67-72 | text that already has that shape is its own cleaned section |
| SectionParser.CleanSectionIdempotent | src/lib/format/proofread.ts:67-72 | cleaning twice is cleaning once |
| SectionParser.FallbackIffNoCapture | src/lib/format/proofread.ts:28-41 | `fallbackText` is present exactly when all three trimmed captures are empty; then the fields are empty and it is the trimmed input; otherwise the fields are the cleaned captures |
| SectionParser.StructuredFieldsAreClean | src/lib/format/proofread.ts:37-41 | in the structured shape every field has the cleaned shape, and an empty capture stays empty |
| SectionParser.NoLabelFallsBack | src/lib/format/proofread.ts:28-35 | text in which no label of any section starts falls back to its trimmed self |
| SectionParser.NoInitialFallsBack | src/lib/format/proofread.ts:28-35 | text with no character that can start a label falls back to its trimmed self |
| SectionParser.SearchThrough | src/lib/format/proofread.ts:10-57 | the leftmost match moves past a prefix in which no label can start |
| SectionParser.CaptureThrough | src/lib/format/proofread.ts:10-14 | a capture runs through a piece in which no stop label can start |
| SectionParser.LabelledMatch | src/lib/format/proofread.ts:10-14 | `label: body` followed by nothing or by another section's label captures exactly the body |
| SectionParser.SectionAtStart | src/lib/format/proofread.ts:10-57 | a text opening with a section's first label, a colon and a space finds that section's body |
| SectionParser.SectionAfter | src/lib/format/proofread.ts:10-57 | the same after a prefix in which none of the section's labels can start |
| SectionParser.CorrectionsOfThreeLines | src/lib/format/proofread.ts:10 | in three labelled lines the corrections capture is the first body |
| SectionParser.ImprovementsOfThreeLines | src/lib/format/proofread.ts:12 | the improvements capture is the second body |
| SectionParser.NotesOfThreeLines | src/lib/format/proofread.ts:14 | the notes capture is the third body |
| SectionParser.ThreeLabelledLines | src/lib/format/proofread.ts:7-41 | three labelled lines in the order 修正内容, 改善点, 注意点 (the unit test's order), with single-line bodies that contain no label initial, parse to their three bodies, with no fallback |
| SectionParser.FormattedSectionsExample | src/lib/format/__test__/proofread.test.ts:5-18 | the unit test's three lines give `誤字を直しました。`, `読みやすい語順に調整しました。` and `敬語の使い方に注意してください。`, with no fallback |
| SectionParser.TrimmedNoInitialFallsBack | src/lib/format/proofread.ts:28-35 | trimmed text in which no label can start falls back to itself |
| SectionParser.UnlabelledExample | src/lib/format/__test__/proofread.test.ts:20-29 | the unit test's text without section names gives three empty fields and itself as `fallbackText` |
| SectionParser.UnlabelledTextShape | src/lib/format/__test__/proofread.test.ts:21 | that text is trimmed and contains no character a label can start with |
| SectionParser.NotesBeforeCorrections | src/lib/format/proofread.ts:14 | with notes written first, the notes capture ends where the corrections label starts |
| SectionParser.CorrectionsAfterNotes | src/lib/format/proofread.ts:10 | the corrections capture is still found after the notes line |
| SectionParser.NoSection | src/lib/format/proofread.ts:56-60 | text in which no label of a pattern can start yields `""` for that pattern |
| SectionParser.ImprovementsAbsentFromReversed | src/lib/format/proofread.ts:12 | text without improvements yields an empty improvements capture |
| SectionParser.ReversedOrder | src/lib/format/proofread.ts:9-41 | a notes line followed by a corrections line, with single-line bodies in which no label can start, gives those two bodies, an empty improvements field and no fallback: each capture ends at the other section's label |
| SectionParser.UpperCaseNotes | src/lib/format/proofread.ts:14 | `NOTES:` matches the notes label, whatever its case |
| SectionParser.UpperCaseLabel | src/lib/format/proofread.ts:14-41 | a text with only an upper-case notes section parses to that section alone |
| SectionParser.UpperCaseNotesOnly | src/lib/format/proofread.ts:10-12 | an upper-case notes section is not taken for corrections or improvements |
| SectionParser.CaptureSpansLines | src/lib/format/proofread.ts:10 | with the `s` flag a capture runs across line breaks up to the next label |
| SectionParser.CorrectionsOnly | src/lib/format/proofread.ts:10-60 | a lone corrections section whose body no other label can start inside gives that body |
| Prompts.Items | src/lib/prompts.ts:42 | each level instruction becomes one `- ` line, in order |
| Prompts.JoinCustomLines | src/lib/prompts.ts:52-54 | the conditional push adds the custom block to the joined prompt exactly when the trimmed instruction is non-empty |
| Prompts.JoinPromptLines | src/lib/prompts.ts:52-58 | the joined prompt is the joined base lines, then the custom block, then a blank line, the target header and the text |
| Prompts.BuildProofreadPrompt | src/lib/prompts.ts:24-59 | builds the prompt by the conditional and unconditional pushes and the join; the result is the base lines, the custom block and the target text, and equals the join of the line model |
| Prompts.PromptEndsWithText | src/lib/prompts.ts:56-58 | the prompt always ends with the target header line and then the text verbatim |
| Prompts.CustomBlockPlacement | src/lib/prompts.ts:35-56 | the base lines come first; the three custom lines with the trimmed instruction follow exactly when it is non-empty; the target lines come last |
| Prompts.StyleLineThenInstruction | src/lib/prompts.ts:30-39 | the line naming the style is followed by that style's instruction |
| Prompts.LevelItemLines | src/lib/prompts.ts:10-43 | after the level line comes one `- item` line per level instruction (two, two or three), then a blank line |
| Prompts.TemplateNamesResponseFields | src/lib/prompts.ts:44-50 | the JSON template opens with `{`, closes with `}`, and names exactly the response schema's fields in order |
| Prompts.TemplateClosesBaseLines | src/lib/prompts.ts:44-50 | the JSON template is the last block of the base lines, wherever the custom and target blocks follow |
| SettingsDefaults.Values | src/lib/settings/defaults.ts:7-18 | the value list has one entry per option, in order |
| SettingsDefaults.DefaultSettingsValues | src/lib/settings/defaults.ts:1-5 | the defaults are business, standard and an empty custom prompt |
| SettingsDefaults.OptionValuesAreSchemaEnums | src/lib/settings/defaults.ts:7-18 | the option values are exactly the request schema's enums, in the same order |
| SettingsDefaults.OptionValuesDistinct | src/lib/settings/defaults.ts:7-18 | no option value appears twice |
| SettingsDefaults.OptionsCoverEnums | src/lib/settings/defaults.ts:7-18 | every style and level is offered, and every offered value reads back as one |
| SettingsDefaults.DefaultsAreOffered | src/lib/settings/defaults.ts:1-18 | the default style and level are among the options |
| SettingsDefaults.DefaultsMatchSchema | src/lib/settings/defaults.ts:2-3 | the settings defaults are the ones the request schema fills in |
| SettingsStore.MergeOverwritesOnlyGiven | src/lib/settings/store.ts:14-15 | a given field takes its new value and an absent field keeps its old one |
| SettingsStore.MergeNothing | src/lib/settings/store.ts:14-15 | `setSettings({})` changes nothing |
| SettingsStore.MergeIdempotent | src/lib/settings/store.ts:14-15 | applying the same partial twice is applying it once |
| SettingsStore.MergeCompose | src/lib/settings/store.ts:14-15 | two merges in a row are one merge in which the later partial wins field by field |
| SettingsStore.MergeTotal | src/lib/settings/store.ts:14-15 | a partial that gives every field determines the whole result |
| SettingsStore.Store.constructor | src/lib/settings/store.ts:13 | the initial state is the default settings |
| SettingsStore.Store.SetSettings | src/lib/settings/store.ts:14-15 | the new state is the old state merged with the partial |
| SettingsStore.Store.Reset | src/lib/settings/store.ts:16 | the new state is the default settings whatever the old one, so reset is idempotent |
| Notifications.Without | src/lib/notifications/store.ts:44-47 | removal never lengthens the list and keeps exactly the entries with another id |
| Notifications.DurationDefault | src/lib/notifications/store.ts:20 | only an absent duration becomes 3000; an explicit one, 0 included, is kept |
| Notifications.WithoutConcat | src/lib/notifications/store.ts:44-47 | removal distributes over concatenation, so the kept entries stay in order |
| Notifications.WithoutAbsent | src/lib/notifications/store.ts:44-47 | removing an id no entry has changes nothing |
| Notifications.WithoutIdempotent | src/lib/notifications/store.ts:44-47 | removing twice is removing once |
| Notifications.AddThenRemove | src/lib/notifications/store.ts:29-47 | adding under a fresh id and then removing that id restores the list |
| Notifications.NotificationStore.constructor | src/lib/notifications/store.ts:12 | the store starts with no notifications and no scheduled expiry |
| Notifications.NotificationStore.Add | src/lib/notifications/store.ts:14-42 | appends exactly one notification at the end, with the given id, type and message and the resolved duration; schedules an expiry exactly when the duration is positive; returns the id |
| Notifications.NotificationStore.Remove | src/lib/notifications/store.ts:44-47 | the list loses exactly the entries with that id |
| Notifications.NotificationStore.Clear | src/lib/notifications/store.ts:49 | the list is empty |
| Notifications.NotificationStore.Expire | src/lib/notifications/store.ts:33-39 | a scheduled expiry fires once and removes its id from the list |
| Notifications.NotifySuccess | src/lib/notifications/store.ts:52-56 | adds a success notification with the given message and duration |
| Notifications.NotifyError | src/lib/notifications/store.ts:58-62 | adds an error notification with the given message and duration |
| Notifications.NotifyInfo | src/lib/notifications/store.ts:64-68 | adds an info notification with the given message and duration |
| ProofreadHook.ClassifyIsTrimTest | src/app/hooks/useProofread.ts:28-34 | the classifier is the hook's expression: `empty` when the trimmed text has length 0, otherwise `limit` above 10000 code units, otherwise `ok` |
| ProofreadHook.ClassifyEmptyIff | src/app/hooks/useProofread.ts:29 | `empty` exactly when the trimmed text is empty, whatever the length, because blankness is checked first |
| ProofreadHook.ClassifyLimitIff | src/app/hooks/useProofread.ts:29-31 | `limit` exactly when the text is not blank and longer than 10000 |
| ProofreadHook.OkTextIsAcceptedByServer | src/app/hooks/useProofread.ts:28-34 | `ok` text meets the request schema's text rule, and the body the hook sends is accepted as sent with any settings |
| ProofreadHook.BlankTextPassesSchemaOnly | src/app/hooks/useProofread.ts:29 | blank text of an allowed length passes the schema's rule but is `empty` for the hook |
| ProofreadHook.SilentIff | src/app/hooks/useProofread.ts:137-166 | a request raises no error exactly when it delivered a valid response or was aborted after being cancelled; otherwise it raises exactly one |
| ProofreadHook.HttpFailureMessage | src/app/hooks/useProofread.ts:137-162 | a failed HTTP response reports the body's `error` when it is a non-empty string, and `校正に失敗しました` otherwise |
| ProofreadHook.CancelMarkConsumed | src/app/hooks/useProofread.ts:155-157 | an abort removes the request's cancel mark, and no other id's membership changes |
| ProofreadHook.AbortController.constructor | src/app/hooks/useProofread.ts:115 | a new controller is not yet aborted |
| ProofreadHook.AbortController.Abort | src/app/hooks/useProofread.ts:81 | `abort` marks the controller aborted |
| ProofreadHook.ProofreadSession.constructor | src/app/hooks/useProofread.ts:15-26 | the hook starts with empty text and results, not loading, no cancel marks, no mapping and no active controller |
| ProofreadHook.ProofreadSession.SetInputText | src/app/hooks/useProofread.ts:15 | replaces the input text and nothing else |
| ProofreadHook.ProofreadSession.Start | src/app/hooks/useProofread.ts:104-135 | changes nothing unless the input is `ok`; otherwise it clears the results, maps a fresh controller to the request id, makes it active, starts loading, and builds the body from the text and the current settings |
| ProofreadHook.ProofreadSession.Show | src/app/hooks/useProofread.ts:149-152 | shows a validated response's corrected text, summary and details |
| ProofreadHook.ProofreadSession.Settle | src/app/hooks/useProofread.ts:137-166 | a response passing the schema is shown; an abort of a cancelled request consumes its mark silently; every other outcome raises exactly its error message with its 3000 ms expiry timer |
| ProofreadHook.ProofreadSession.Release | src/app/hooks/useProofread.ts:167-175 | loading stops, the request's mapping is dropped, and the active controller is cleared only if it is still this request's |
| ProofreadHook.ProofreadSession.Cancel | src/app/hooks/useProofread.ts:69-85 | a no-op without an active controller; otherwise it marks the request id cancelled and unmaps it, aborts and clears the controller, stops loading, and raises the info notice with its 3000 ms expiry timer |
| ProofreadHook.CancelThenAbort | src/app/hooks/useProofread.ts:69-175 | a request cancelled and then settled by its abort raises only the cancel notice and its one expiry timer, and leaves no cancel mark, mapping or active controller behind |
| ResultPanel.BreakLines | src/app/components/ResultPanel.tsx:29 | the replace never shortens the text |
| ResultPanel.BreakLinesRemovesNewlines | src/app/components/ResultPanel.tsx:29 | no line break is left after the replace |
| ResultPanel.BreakLinesNoNewline | src/app/components/ResultPanel.tsx:29 | text without a line break is unchanged |
| ResultPanel.BreakLinesKeepsOthers | src/app/components/ResultPanel.tsx:29 | a character other than `\n`, `<`, `b`, `r` and `>` (the characters of a line break and of `<br>`) occurs in the output exactly when it occurs in the input |
| ResultPanel.BreakLinesAddsMarkup | src/app/components/ResultPanel.tsx:29 | text with a line break gains a `<` |
| ResultPanel.BreakLinesRoundTrip | src/app/components/ResultPanel.tsx:28-29 | for text without `<`, turning each `<br>` back into a line break recovers the input, so only line breaks were replaced |
| ResultPanel.DisplaySafeHtmlSpec | src/app/components/ResultPanel.tsx:26-34 | markup is returned unchanged; plain text loses every line break to `<br>` and nothing else changes |
| ResultPanel.DisplaySafeHtmlIdempotent | src/app/components/ResultPanel.tsx:26-34 | displaying displayed text changes nothing |
| ResultPanel.SummaryTextSpec | src/app/components/ResultPanel.tsx:114 | a blank summary shows `校正概要を準備中...`; any other shows its trimmed text, displayed |

## Left out

- `JSON.parse` and `sanitizeHtml` (`src/lib/sanitize.ts`) are parameters. The model states nothing about what the DOMPurify sanitiser removes.
- Every JSON value that `JSON.parse` can return is stood for by the `Json` datatype. Duplicate member names and number precision are not modelled.
- ResponseNormalizer.Truncate: requires `maxLength >= 1`. The source only ever calls it with 10000, 400 and 4000, and for `maxLength` 0 JavaScript's `slice(0, -1)` would behave differently.
- ResponseNormalizer.Truncate: the model's text has no surrogate pairs, so the source's cut in the middle of a pair (`slice(0, maxLength - 1)` on non-BMP text) is not modelled.
- Text outside the BMP is not modelled. A character such as an emoji or 𠮷 is two UTF-16 code units in JavaScript but one `char` here. Code-unit lengths of such text fall outside the proofs, and so do the 10000-unit input limit of `Classify` and the request schema, the `min(1)` rules, and the 10000/400/4000 bounds and `Truncate`'s cut on it.
- Non-string members of the provider envelope. A `text` part or a `finishReason` is an optional string. The SDK types are not modelled.
- SectionParser.ThreeLabelledLines: the bodies must be single lines that hold no character folding to a label initial (`PlainBody`), so bodies of ordinary English words containing `c`, `i` or `n`, such as those of `修正内容: A\n改善点: B\n注意点: C`, are not covered. The limit applies to these worked examples only: the general lemmas (`FallbackIffNoCapture`, `LeftmostMatchSpec`, `CaptureLengthSpec`) hold for every text.
- SectionParser.ReversedOrder: only the notes-then-corrections ordering with single-line bodies is proved. Other orderings of the three sections, and bodies that span lines or hold a label initial, are not claimed to parse the same.
- The `catch` branch of `parseProofreadDetails` (`src/lib/format/proofread.ts:42-50`) cannot be reached by the total model, so it is not modelled.
- The `??` fallbacks of `src/lib/prompts.ts:30-33` never apply to the typed `Style`/`Level` values, so they are not modelled.
- SettingsStore.Store.SetSettings: an explicit `undefined` in a partial record writes `undefined` into the state in JavaScript. This is not modelled: a partial's `None` means the field is absent.
- The `persist` middleware and its local storage under `textCorrectorSettings` (`src/lib/settings/store.ts:11-21`) are storage I/O, and are not modelled.
- Notifications: `setTimeout` is not modelled as time. A scheduled expiry is a `Timer` in a list, and `Expire` fires one of them. The `duration` is an integer, not a JavaScript number.
- Notifications: `crypto.randomUUID` and the `Date.now()`/`Math.random()` id are parameters, so id freshness is a precondition of `AddThenRemove`.
- ProofreadHook: `fetch`, `response.json()`, the abort signal and the `await` points are not modelled. The `Outcome` parameter says how the request settled.
- ProofreadHook: the `error` member of a failed response is an optional string. A non-string `error` is not modelled.
- ProofreadHook: interleavings of several requests are not modelled. They can be written as sequences of `Start`, `Cancel`, `Settle` and `Release` calls.
- ProofreadHook: `copyResult`, `showDetails`, `applyResult` and the modal toggles are not modelled. They are UI plumbing outside the request bookkeeping, as are the clipboard and React rendering.
- The model provider client, `withTimeout` and `generateProofread` (`src/lib/gemini.ts`, `src/lib/gemini/`) are SDK construction, timers and I/O. `src/lib/gemini/prompt.ts` is not part of this model.
- The HTTP route `src/app/api/proofread/route.ts` is request and response plumbing, and is not modelled.
- The UI components other than `ResultPanel`'s two expressions are rendering only, and are not modelled.
