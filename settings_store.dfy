/**
 * `src/lib/settings/store.ts`: the settings store. Its state is the three
 * settings fields; `setSettings` spreads a partial record over the state
 * and `reset` replaces the state with the defaults.
 */
module SettingsStore {
  import opened Wrappers
  import opened Validation
  import opened SettingsDefaults

  /** `Partial<Settings>`: a field that is `None` is absent from the record. */
  datatype PartialSettings = PartialSettings(style: Option<Style>, level: Option<Level>, customPrompt: Option<string>)

  const NoChanges := PartialSettings(None, None, None)

  function Pick<T>(given: Option<T>, current: T): T
  {
    if given.Some? then given.value else current
  }

  /** `{ ...state, ...newSettings }` restricted to the settings fields. */
  function Merge(s: Settings, p: PartialSettings): Settings
  {
    Settings(Pick(p.style, s.style), Pick(p.level, s.level), Pick(p.customPrompt, s.customPrompt))
  }

  /** The later of two partials wins field by field. */
  function Override(p: PartialSettings, q: PartialSettings): PartialSettings
  {
    PartialSettings(
      if q.style.Some? then q.style else p.style,
      if q.level.Some? then q.level else p.level,
      if q.customPrompt.Some? then q.customPrompt else p.customPrompt)
  }

  /** A given field takes its given value, an absent field keeps its old value. */
  lemma MergeOverwritesOnlyGiven(s: Settings, p: PartialSettings)
    ensures p.style.Some? ==> Merge(s, p).style == p.style.value
    ensures p.style.None? ==> Merge(s, p).style == s.style
    ensures p.level.Some? ==> Merge(s, p).level == p.level.value
    ensures p.level.None? ==> Merge(s, p).level == s.level
    ensures p.customPrompt.Some? ==> Merge(s, p).customPrompt == p.customPrompt.value
    ensures p.customPrompt.None? ==> Merge(s, p).customPrompt == s.customPrompt
  {
  }

  /** `setSettings({})` changes nothing. */
  lemma MergeNothing(s: Settings)
    ensures Merge(s, NoChanges) == s
  {
  }

  /** Applying the same partial twice is applying it once. */
  lemma MergeIdempotent(s: Settings, p: PartialSettings)
    ensures Merge(Merge(s, p), p) == Merge(s, p)
  {
  }

  /** Two merges in a row are one merge of the overriding partial. */
  lemma MergeCompose(s: Settings, p: PartialSettings, q: PartialSettings)
    ensures Merge(Merge(s, p), q) == Merge(s, Override(p, q))
  {
  }

  /** A partial that gives every field determines the whole result. */
  lemma MergeTotal(s: Settings, t: Settings)
    ensures Merge(s, PartialSettings(Some(t.style), Some(t.level), Some(t.customPrompt))) == t
  {
  }

  /** The store. */
  class Store {
    var style: Style
    var level: Level
    var customPrompt: string

    function State(): Settings
      reads this
    {
      Settings(style, level, customPrompt)
    }

    /** The initial state is `...DEFAULT_SETTINGS`. */
    constructor()
      ensures State() == DefaultSettings
    {
      style := DefaultSettings.style;
      level := DefaultSettings.level;
      customPrompt := DefaultSettings.customPrompt;
    }

    /** `setSettings`: spread the partial over the current state. */
    method SetSettings(p: PartialSettings)
      modifies this
      ensures State() == Merge(old(State()), p)
    {
      if p.style.Some? {
        style := p.style.value;
      }
      if p.level.Some? {
        level := p.level.value;
      }
      if p.customPrompt.Some? {
        customPrompt := p.customPrompt.value;
      }
    }

    /** `reset`: back to the defaults, whatever the state was. */
    method Reset()
      modifies this
      ensures State() == DefaultSettings
    {
      style := DefaultSettings.style;
      level := DefaultSettings.level;
      customPrompt := DefaultSettings.customPrompt;
    }
  }
}
