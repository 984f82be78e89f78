/**
 * `src/lib/settings/defaults.ts`: the default settings and the option lists
 * the settings dialog offers, with their consistency with the request schema.
 */
module SettingsDefaults {
  import opened Validation

  /** The persisted user settings. */
  datatype Settings = Settings(style: Style, level: Level, customPrompt: string)

  /** One entry of an option list: the value sent to the server and its caption (the label shown). */
  datatype OptionEntry = OptionEntry(value: string, caption: string)

  /** `DEFAULT_SETTINGS`. */
  const DefaultSettings: Settings := Settings(Business, Standard, "")

  /** `STYLE_OPTIONS`, in its written order. */
  const StyleOptions: seq<OptionEntry> := [
    OptionEntry("business", "ビジネス文書（デフォルト）"),
    OptionEntry("casual", "カジュアル"),
    OptionEntry("academic", "学術的"),
    OptionEntry("report", "報告書")]

  /** `LEVEL_OPTIONS`, in its written order. */
  const LevelOptions: seq<OptionEntry> := [
    OptionEntry("basic", "基本（誤字脱字・文法）"),
    OptionEntry("standard", "標準（表現改善含む）"),
    OptionEntry("advanced", "高度（構造最適化含む）")]

  /** `STORAGE_KEY`, the name the settings are persisted under. */
  const StorageKey := "textCorrectorSettings"

  /** The values of an option list, in order. */
  function Values(options: seq<OptionEntry>): (r: seq<string>)
    ensures |r| == |options|
    ensures forall i :: 0 <= i < |options| ==> r[i] == options[i].value
  {
    if options == [] then [] else [options[0].value] + Values(options[1..])
  }

  predicate Distinct(xs: seq<string>)
  {
    forall i, j :: 0 <= i < j < |xs| ==> xs[i] != xs[j]
  }

  /** The defaults are business, standard and no extra instruction. */
  lemma DefaultSettingsValues()
    ensures StyleName(DefaultSettings.style) == "business"
    ensures LevelName(DefaultSettings.level) == "standard"
    ensures DefaultSettings.customPrompt == ""
  {
  }

  /** The option values are exactly the request schema's enums, in the same order. */
  lemma OptionValuesAreSchemaEnums()
    ensures Values(StyleOptions) == StyleEnum
    ensures Values(LevelOptions) == LevelEnum
  {
  }

  /** No value appears twice in either option list. */
  lemma OptionValuesDistinct()
    ensures Distinct(Values(StyleOptions))
    ensures Distinct(Values(LevelOptions))
  {
    OptionValuesAreSchemaEnums();
  }

  /** Every style and every level is offered, and every offered value names one. */
  lemma OptionsCoverEnums()
    ensures forall s: Style :: StyleName(s) in Values(StyleOptions)
    ensures forall l: Level :: LevelName(l) in Values(LevelOptions)
    ensures forall i :: 0 <= i < |StyleOptions| ==> StyleFromName(StyleOptions[i].value).Some?
    ensures forall i :: 0 <= i < |LevelOptions| ==> LevelFromName(LevelOptions[i].value).Some?
  {
    OptionValuesAreSchemaEnums();
    forall s: Style ensures StyleName(s) in StyleEnum {
      match s
      case Business => assert StyleEnum[0] == "business";
      case Casual => assert StyleEnum[1] == "casual";
      case Academic => assert StyleEnum[2] == "academic";
      case Report => assert StyleEnum[3] == "report";
    }
    forall l: Level ensures LevelName(l) in LevelEnum {
      match l
      case Basic => assert LevelEnum[0] == "basic";
      case Standard => assert LevelEnum[1] == "standard";
      case Advanced => assert LevelEnum[2] == "advanced";
    }
  }

  /** The default style and level are among the offered options. */
  lemma DefaultsAreOffered()
    ensures StyleName(DefaultSettings.style) in Values(StyleOptions)
    ensures LevelName(DefaultSettings.level) in Values(LevelOptions)
  {
    OptionsCoverEnums();
  }

  /** The settings defaults are the defaults the request schema fills in. */
  lemma DefaultsMatchSchema()
    ensures DefaultSettings.style == DefaultStyle
    ensures DefaultSettings.level == DefaultLevel
  {
  }
}
