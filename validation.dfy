/**
 * The request and response schemas of `src/lib/validation/proofread.ts`,
 * written as predicates over a JSON value plus a defaulting step.
 */
module Validation {
  import opened Wrappers

  /** A JSON value (RFC 8259, section 3), as `JSON.parse` produces it: an
      object is already a finite map from member names to values. */
  datatype Json =
    | JNull
    | JBool(b: bool)
    | JNumber(literal: string)
    | JString(str: string)
    | JArray(elements: seq<Json>)
    | JObject(members: map<string, Json>)

  /** The request's `style` enumeration, in its written order. */
  datatype Style = Business | Casual | Academic | Report

  /** The request's `level` enumeration, in its written order. */
  datatype Level = Basic | Standard | Advanced

  function StyleName(s: Style): string
  {
    match s
    case Business => "business"
    case Casual => "casual"
    case Academic => "academic"
    case Report => "report"
  }

  function LevelName(l: Level): string
  {
    match l
    case Basic => "basic"
    case Standard => "standard"
    case Advanced => "advanced"
  }

  /** The enum values exactly as the schema lists them. */
  const StyleEnum: seq<string> := ["business", "casual", "academic", "report"]
  const LevelEnum: seq<string> := ["basic", "standard", "advanced"]

  const DefaultStyle: Style := Business
  const DefaultLevel: Level := Standard

  const MinTextLength := 1
  const MaxTextLength := 10000

  /** Reading an enum value back from its name. */
  function StyleFromName(name: string): (r: Option<Style>)
    ensures r.Some? <==> name in StyleEnum
    ensures r.Some? ==> StyleName(r.value) == name
  {
    if name == "business" then Some(Business)
    else if name == "casual" then Some(Casual)
    else if name == "academic" then Some(Academic)
    else if name == "report" then Some(Report)
    else None
  }

  function LevelFromName(name: string): (r: Option<Level>)
    ensures r.Some? <==> name in LevelEnum
    ensures r.Some? ==> LevelName(r.value) == name
  {
    if name == "basic" then Some(Basic)
    else if name == "standard" then Some(Standard)
    else if name == "advanced" then Some(Advanced)
    else None
  }

  /** A request after validation and defaulting. */
  datatype ProofreadRequest = ProofreadRequest(text: string, style: Style, level: Level)

  /** The three-field output contract. */
  datatype ProofreadResponse = ProofreadResponse(correctedText: string, summary: string, details: string)

  /** The field names of the response schema, in their written order. */
  const ResponseFields: seq<string> := ["correctedText", "summary", "details"]

  predicate TextRule(text: string)
  {
    MinTextLength <= |text| <= MaxTextLength
  }

  /** An enum field with a default: absent takes the default, a present value
      must be a string naming one of the values. */
  function StyleField(members: map<string, Json>): Option<Style>
  {
    if "style" !in members then Some(DefaultStyle)
    else match members["style"]
      case JString(name) => StyleFromName(name)
      case _ => None
  }

  function LevelField(members: map<string, Json>): Option<Level>
  {
    if "level" !in members then Some(DefaultLevel)
    else match members["level"]
      case JString(name) => LevelFromName(name)
      case _ => None
  }

  /** `proofreadRequestSchema.safeParse`: `None` is a failed parse. Members the
      schema does not name are dropped. */
  function ParseRequest(data: Json): (r: Option<ProofreadRequest>)
  {
    match data
    case JObject(m) =>
      if "text" in m && m["text"].JString? && TextRule(m["text"].str)
         && StyleField(m).Some? && LevelField(m).Some?
      then Some(ProofreadRequest(m["text"].str, StyleField(m).value, LevelField(m).value))
      else None
    case _ => None
  }

  /** The JSON object a client sends for a request. */
  function RequestJson(text: string, style: Style, level: Level): Json
  {
    JObject(map["text" := JString(text), "style" := JString(StyleName(style)), "level" := JString(LevelName(level))])
  }

  /** A request is accepted iff its text has between 1 and 10000 code units
      and both enum fields are valid or absent; absent fields take the defaults. */
  lemma ParseRequestSpec(m: map<string, Json>)
    ensures ParseRequest(JObject(m)).Some? <==>
      && "text" in m && m["text"].JString? && 1 <= |m["text"].str| <= 10000
      && ("style" in m ==> m["style"].JString? && m["style"].str in StyleEnum)
      && ("level" in m ==> m["level"].JString? && m["level"].str in LevelEnum)
    ensures ParseRequest(JObject(m)).Some? && "style" !in m ==> ParseRequest(JObject(m)).value.style == Business
    ensures ParseRequest(JObject(m)).Some? && "level" !in m ==> ParseRequest(JObject(m)).value.level == Standard
    ensures ParseRequest(JObject(m)).Some? ==> ParseRequest(JObject(m)).value.text == m["text"].str
  {
  }

  /** Every request a client builds from a valid text and the two enums is accepted as it was sent. */
  lemma RequestRoundTrip(text: string, style: Style, level: Level)
    requires TextRule(text)
    ensures ParseRequest(RequestJson(text, style, level)) == Some(ProofreadRequest(text, style, level))
  {
    match style
    case Business => case Casual => case Academic => case Report =>
  }

  /** Only a JSON value that is not an object is never a request. */
  lemma ParseRequestNeedsObject(data: Json)
    requires !data.JObject?
    ensures ParseRequest(data) == None
  {
  }

  /** A member that is a string of length at least one (the `min(1)` rule does not trim). */
  function NonEmptyString(m: map<string, Json>, key: string): Option<string>
  {
    if key in m && m[key].JString? && |m[key].str| >= 1 then Some(m[key].str) else None
  }

  /** `proofreadResponseSchema.safeParse`: `None` is a failed parse. */
  function ResponseSchema(data: Json): (r: Option<ProofreadResponse>)
  {
    match data
    case JObject(m) =>
      var c := NonEmptyString(m, "correctedText");
      var s := NonEmptyString(m, "summary");
      var d := NonEmptyString(m, "details");
      if c.Some? && s.Some? && d.Some? then Some(ProofreadResponse(c.value, s.value, d.value)) else None
    case _ => None
  }

  /** A response value all of whose fields are non-empty. */
  predicate WellFormedResponse(r: ProofreadResponse)
  {
    |r.correctedText| >= 1 && |r.summary| >= 1 && |r.details| >= 1
  }

  /** The JSON object that a well-formed response is written as. */
  function ResponseJson(r: ProofreadResponse): Json
  {
    JObject(map[ResponseFields[0] := JString(r.correctedText), ResponseFields[1] := JString(r.summary),
                ResponseFields[2] := JString(r.details)])
  }

  /** The schema accepts an object iff the three members are strings of length
      at least one, and then returns them unchanged; it never returns a response
      with an empty field. */
  lemma ResponseSchemaSpec(data: Json)
    ensures ResponseSchema(data).Some? <==>
      && data.JObject?
      && (forall f :: f in ResponseFields ==>
            f in data.members && data.members[f].JString? && |data.members[f].str| >= 1)
    ensures ResponseSchema(data).Some? ==>
      && WellFormedResponse(ResponseSchema(data).value)
      && data.members["correctedText"] == JString(ResponseSchema(data).value.correctedText)
      && data.members["summary"] == JString(ResponseSchema(data).value.summary)
      && data.members["details"] == JString(ResponseSchema(data).value.details)
  {
    if data.JObject? && ResponseSchema(data).None? {
      var m := data.members;
      if NonEmptyString(m, "correctedText").None? {
        assert ResponseFields[0] == "correctedText";
      } else if NonEmptyString(m, "summary").None? {
        assert ResponseFields[1] == "summary";
      } else {
        assert ResponseFields[2] == "details";
      }
    }
  }

  /** Writing a well-formed response as JSON and validating it gives it back. */
  lemma ResponseRoundTrip(r: ProofreadResponse)
    requires WellFormedResponse(r)
    ensures ResponseSchema(ResponseJson(r)) == Some(r)
  {
  }

  /** Whitespace-only fields pass, since the schema counts length without trimming. */
  lemma WhitespaceFieldsPass()
    ensures ResponseSchema(ResponseJson(ProofreadResponse(" ", "\n", "\U{3000}"))) == Some(ProofreadResponse(" ", "\n", "\U{3000}"))
  {
  }
}
