/**
 * `buildProofreadPrompt` of `src/lib/prompts.ts`: the instruction text sent to
 * the model, assembled line by line from the request's style and level, an
 * optional user instruction, and the text to proofread.
 */
module Prompts {
  import opened Wrappers
  import opened Text
  import opened Validation

  /** `STYLE_INSTRUCTIONS`. */
  function StyleInstruction(style: Style): string
  {
    match style
    case Business => "敬語を正しく保ち、簡潔で信頼感のある表現を重視してください。"
    case Casual => "親しみやすい口調で、読者との距離を縮める表現を意識してください。"
    case Academic => "論理性と正確性を最優先し、専門用語の使い方に注意してください。"
    case Report => "客観的で事実に基づく記述を心掛け、明確な結論を導いてください。"
  }

  /** `LEVEL_INSTRUCTIONS`. */
  function LevelInstructions(level: Level): seq<string>
  {
    match level
    case Basic => ["誤字脱字の修正", "文法エラーの修正"]
    case Standard => ["basic の内容", "より自然な日本語表現への改善"]
    case Advanced => ["standard の内容", "文章構造の最適化（意味が変わらない範囲で）", "敬語表現の粒度調整"]
  }

  const Introduction := "あなたは日本語の校正・校閲の専門家です。以下の文章を適切に校正してください。"
  const JsonInstruction := "必ず以下の JSON 形式で回答してください:"
  const CustomHeader := "追加の指示（ユーザー指定）:"
  const TargetHeader := "対象文章:"

  /** One member line of the JSON template: the field name, a placeholder value,
      and a comma unless it is the last member. */
  function FieldLine(name: string, hint: string, last: bool): string
  {
    "  \"" + name + "\": \"" + hint + "\"" + (if last then "" else ",")
  }

  const FieldHints: seq<string> := ["校正後の文章", "修正概要（1-2行）", "詳細な修正理由と改善ポイント"]

  /** The JSON template lines, braces included. */
  const JsonTemplate: seq<string> := [
    "{",
    FieldLine("correctedText", "校正後の文章", false),
    FieldLine("summary", "修正概要（1-2行）", false),
    FieldLine("details", "詳細な修正理由と改善ポイント", true),
    "}"]

  /** `levelInstruction.map((item) => `- ${item}`)`. */
  function Items(xs: seq<string>): (r: seq<string>)
    ensures |r| == |xs|
    ensures forall i :: 0 <= i < |xs| ==> r[i] == "- " + xs[i]
  {
    if xs == [] then [] else ["- " + xs[0]] + Items(xs[1..])
  }

  /** The first six lines of `basePrompt`: the introduction, the style and the level. */
  function Header(style: Style, level: Level): seq<string>
  {
    [Introduction, "", "文体: " + StyleName(style), StyleInstruction(style), "", "校正レベル: " + LevelName(level)]
  }

  /** The closing lines of `basePrompt`: the JSON instruction and the template. */
  const TemplateLines: seq<string> := ["", JsonInstruction] + JsonTemplate

  /** `basePrompt` as its array literal writes it. */
  function BaseLines(style: Style, level: Level): seq<string>
  {
    Header(style, level) + Items(LevelInstructions(level)) + TemplateLines
  }

  /** `customPrompt?.trim()` is truthy. */
  predicate HasCustomPrompt(customPrompt: Option<string>)
  {
    customPrompt.Some? && Trim(customPrompt.value) != ""
  }

  /** The lines the conditional `push` adds. */
  function CustomLines(customPrompt: Option<string>): seq<string>
  {
    if HasCustomPrompt(customPrompt) then ["", CustomHeader, Trim(customPrompt.value)] else []
  }

  /** Every line of the prompt, in order. */
  function PromptLines(text: string, style: Style, level: Level, customPrompt: Option<string>): seq<string>
  {
    BaseLines(style, level) + CustomLines(customPrompt) + TargetLines(text)
  }

  /** The lines the unconditional `push` adds. */
  function TargetLines(text: string): seq<string>
  {
    ["", TargetHeader, text]
  }

  /** What the custom block adds to the joined text. */
  function CustomBlock(customPrompt: Option<string>): string
  {
    if HasCustomPrompt(customPrompt) then "\n\n" + CustomHeader + "\n" + Trim(customPrompt.value) else ""
  }

  lemma JoinThree(a: string, b: string, c: string, sep: string)
    ensures Join([a, b, c], sep) == a + sep + b + sep + c
  {
    assert [a, b, c][1..] == [b, c];
    assert [b, c][1..] == [c];
    assert Join([b, c], sep) == b + sep + c;
  }

  /** Joining lines followed by three more appends those three, each after a separator. */
  lemma JoinAppendThree(xs: seq<string>, a: string, b: string, c: string, sep: string)
    requires xs != []
    ensures Join(xs + [a, b, c], sep) == Join(xs, sep) + sep + a + sep + b + sep + c
  {
    JoinAppend(xs, [a, b, c], sep);
    JoinThree(a, b, c, sep);
  }

  /** Three lines opening with a blank one add a blank line and the other two. */
  lemma JoinBlankThenTwo(base: seq<string>, b: string, c: string)
    requires base != []
    ensures Join(base + ["", b, c], "\n") == Join(base, "\n") + "\n\n" + b + "\n" + c
  {
    JoinAppendThree(base, "", b, c, "\n");
    var j := Join(base, "\n");
    assert j + "\n" + "" == j + "\n";
    assert j + "\n" + "\n" == j + "\n\n";
  }

  /** The custom lines add the custom block to the joined text. */
  lemma JoinCustomLines(base: seq<string>, customPrompt: Option<string>)
    requires base != []
    ensures Join(base + CustomLines(customPrompt), "\n") == Join(base, "\n") + CustomBlock(customPrompt)
  {
    if HasCustomPrompt(customPrompt) {
      JoinBlankThenTwo(base, CustomHeader, Trim(customPrompt.value));
    } else {
      assert base + CustomLines(customPrompt) == base;
    }
  }

  /** Joining the base lines, the custom lines and the target lines puts the custom
      block and then the target text after the joined base lines. */
  lemma JoinPromptLines(base: seq<string>, customPrompt: Option<string>, text: string)
    requires base != []
    ensures Join(base + CustomLines(customPrompt) + ["", TargetHeader, text], "\n")
      == Join(base, "\n") + CustomBlock(customPrompt) + "\n\n" + TargetHeader + "\n" + text
  {
    JoinCustomLines(base, customPrompt);
    JoinBlankThenTwo(base + CustomLines(customPrompt), TargetHeader, text);
  }

  /** `buildProofreadPrompt`: the base lines, the custom block when the trimmed
      instruction is non-empty, then the target header and the text verbatim. */
  method BuildProofreadPrompt(text: string, style: Style, level: Level, customPrompt: Option<string>)
    returns (prompt: string)
    ensures prompt == Join(BaseLines(style, level), "\n") + CustomBlock(customPrompt) + "\n\n" + TargetHeader + "\n" + text
    ensures prompt == Join(PromptLines(text, style, level, customPrompt), "\n")
  {
    var basePrompt := BaseLines(style, level);
    ghost var base := basePrompt;
    if customPrompt.Some? && Trim(customPrompt.value) != "" {
      basePrompt := basePrompt + ["", CustomHeader, Trim(customPrompt.value)];
    }
    assert basePrompt == base + CustomLines(customPrompt);
    basePrompt := basePrompt + ["", TargetHeader, text];
    JoinPromptLines(base, customPrompt, text);
    prompt := Join(basePrompt, "\n");
  }

  // ---------------------------------------------------------------------------
  // Positions in the assembled lines. The prompt lines are the header, the level
  // items, the template lines, the custom lines and the target lines, in that
  // order; these facts hold for any five parts.

  lemma InFirst(h: seq<string>, i: seq<string>, t: seq<string>, c: seq<string>, x: seq<string>, k: int)
    requires 0 <= k < |h|
    ensures (h + i + t + c + x)[k] == h[k]
  {
  }

  lemma InSecond(h: seq<string>, i: seq<string>, t: seq<string>, c: seq<string>, x: seq<string>, k: int)
    requires 0 <= k < |i|
    ensures (h + i + t + c + x)[|h| + k] == i[k]
  {
  }

  lemma InThird(h: seq<string>, i: seq<string>, t: seq<string>, c: seq<string>, x: seq<string>, k: int)
    requires 0 <= k < |t|
    ensures (h + i + t + c + x)[|h| + |i| + k] == t[k]
  {
  }

  lemma Parts(b: seq<string>, c: seq<string>, x: seq<string>)
    ensures |b + c + x| == |b| + |c| + |x|
    ensures (b + c + x)[..|b|] == b
    ensures (b + c + x)[|b|..|b| + |c|] == c
    ensures (b + c + x)[|b| + |c|..] == x
  {
  }

  lemma JoinEndsWith(front: seq<string>, a: string, b: string, c: string, sep: string)
    requires front != []
    ensures EndsWith(Join(front + [a, b, c], sep), sep + b + sep + c)
  {
    JoinAppendThree(front, a, b, c, sep);
    var j := Join(front + [a, b, c], sep);
    var tail := sep + b + sep + c;
    assert j[|j| - |tail|..] == tail;
  }

  // ---------------------------------------------------------------------------
  // What the prompt promises

  /** The prompt ends with the target header line followed by the text verbatim. */
  lemma PromptEndsWithText(text: string, style: Style, level: Level, customPrompt: Option<string>)
    ensures var lines := PromptLines(text, style, level, customPrompt);
      lines[|lines| - 2] == TargetHeader && lines[|lines| - 1] == text
    ensures EndsWith(Join(PromptLines(text, style, level, customPrompt), "\n"), "\n" + TargetHeader + "\n" + text)
  {
    var base := BaseLines(style, level);
    var front := base + CustomLines(customPrompt);
    Parts(base, CustomLines(customPrompt), TargetLines(text));
    assert |front| >= |Header(style, level)| > 0;
    JoinEndsWith(front, "", TargetHeader, text, "\n");
  }

  /** The custom block is there exactly when the trimmed instruction is non-empty; it
      holds the trimmed text and sits between the base lines and the target text. */
  lemma CustomBlockPlacement(text: string, style: Style, level: Level, customPrompt: Option<string>)
    ensures var lines := PromptLines(text, style, level, customPrompt);
      var n := |BaseLines(style, level)|;
      && lines[..n] == BaseLines(style, level)
      && (HasCustomPrompt(customPrompt) ==>
            |lines| == n + 6 && lines[n..n + 3] == ["", CustomHeader, Trim(customPrompt.value)])
      && (!HasCustomPrompt(customPrompt) ==> |lines| == n + 3)
      && lines[|lines| - 3..] == ["", TargetHeader, text]
  {
    Parts(BaseLines(style, level), CustomLines(customPrompt), TargetLines(text));
  }

  /** The line naming the style is followed by that style's instruction. */
  lemma StyleLineThenInstruction(text: string, style: Style, level: Level, customPrompt: Option<string>)
    ensures var lines := PromptLines(text, style, level, customPrompt);
      lines[2] == "文体: " + StyleName(style) && lines[3] == StyleInstruction(style)
  {
    var h := Header(style, level);
    var i := Items(LevelInstructions(level));
    InFirst(h, i, TemplateLines, CustomLines(customPrompt), TargetLines(text), 2);
    InFirst(h, i, TemplateLines, CustomLines(customPrompt), TargetLines(text), 3);
  }

  /** After the level line comes one `- item` line per level instruction, in order:
      two for basic and standard, three for advanced. */
  lemma LevelItemLines(text: string, style: Style, level: Level, customPrompt: Option<string>)
    ensures |LevelInstructions(level)| == if level == Advanced then 3 else 2
    ensures var lines := PromptLines(text, style, level, customPrompt);
      && lines[5] == "校正レベル: " + LevelName(level)
      && (forall k :: 0 <= k < |LevelInstructions(level)| ==> lines[6 + k] == "- " + LevelInstructions(level)[k])
      && lines[6 + |LevelInstructions(level)|] == ""
  {
    var h := Header(style, level);
    var i := Items(LevelInstructions(level));
    var c := CustomLines(customPrompt);
    var x := TargetLines(text);
    InFirst(h, i, TemplateLines, c, x, 5);
    forall k | 0 <= k < |LevelInstructions(level)|
      ensures (h + i + TemplateLines + c + x)[6 + k] == "- " + LevelInstructions(level)[k]
    {
      InSecond(h, i, TemplateLines, c, x, k);
    }
    InThird(h, i, TemplateLines, c, x, 0);
  }

  /** The template's member lines name exactly the fields the response schema
      requires, in its order, between an opening and a closing brace. */
  lemma TemplateNamesResponseFields()
    ensures |JsonTemplate| == |ResponseFields| + 2
    ensures JsonTemplate[0] == "{" && JsonTemplate[|JsonTemplate| - 1] == "}"
    ensures forall k :: 0 <= k < |ResponseFields| ==>
      JsonTemplate[k + 1] == FieldLine(ResponseFields[k], FieldHints[k], k == |ResponseFields| - 1)
  {
  }

  lemma EndOfFront(a: seq<string>, t: seq<string>, q: seq<string>, c: seq<string>, x: seq<string>)
    requires |q| <= |t| && t[|t| - |q|..] == q
    ensures |a + t| >= |q| && (a + t + c + x)[|a + t| - |q|..|a + t|] == q
  {
    var lines := a + t + c + x;
    var n := |a + t|;
    forall k | 0 <= k < |q| ensures lines[n - |q|..n][k] == q[k] {
      assert lines[n - |q| + k] == t[|t| - |q| + k];
    }
  }

  /** The JSON template closes the base lines of every prompt. */
  lemma TemplateClosesBaseLines(text: string, style: Style, level: Level, customPrompt: Option<string>)
    ensures var n := |BaseLines(style, level)|;
      n >= |JsonTemplate| && PromptLines(text, style, level, customPrompt)[n - |JsonTemplate|..n] == JsonTemplate
  {
    assert TemplateLines[|TemplateLines| - |JsonTemplate|..] == JsonTemplate;
    EndOfFront(Header(style, level) + Items(LevelInstructions(level)), TemplateLines, JsonTemplate,
      CustomLines(customPrompt), TargetLines(text));
  }
}
