/** The style preference store: a typed key-value map read into a
    `StylePreferences` record with a default for every missing key, and one
    update per field. */
module Preferences {
  import opened Wrappers
  import opened Strategy

  /** A stored preference value; each key has one type. */
  datatype PrefValue = StrVal(s: string) | FloatVal(f: real) | BoolVal(b: bool)

  type Store = map<string, PrefValue>

  const KeyFormality: string := "style_formality"
  const KeyHumorLevel: string := "style_humor_level"
  const KeyEnthusiasm: string := "style_enthusiasm"
  const KeyDatingStrategy: string := "dating_strategy"
  const KeyVoiceAssist: string := "voice_assist_mode_enabled"

  const DefaultFormality: string := "Medium"
  const DefaultHumorLevel: real := 0.3
  const DefaultEnthusiasm: string := "Neutral"
  const DefaultStrategy: DatingStrategy := Balanced
  const DefaultVoiceAssist: bool := false

  datatype StylePreferences = StylePreferences(
    formality: string,
    humorLevel: real,
    enthusiasm: string,
    datingStrategy: DatingStrategy,
    voiceAssistModeEnabled: bool)

  /** Every key the repository uses holds a value of its declared type; the
      typed setters are the only writers, so a store they built is always
      well typed. */
  predicate WellTyped(st: Store) {
    && (KeyFormality in st ==> st[KeyFormality].StrVal?)
    && (KeyHumorLevel in st ==> st[KeyHumorLevel].FloatVal?)
    && (KeyEnthusiasm in st ==> st[KeyEnthusiasm].StrVal?)
    && (KeyDatingStrategy in st ==> st[KeyDatingStrategy].StrVal?)
    && (KeyVoiceAssist in st ==> st[KeyVoiceAssist].BoolVal?)
  }

  function StringAt(st: Store, key: string): Option<string> {
    if key in st && st[key].StrVal? then Some(st[key].s) else None
  }

  /** The mapping step of `stylePreferencesFlow`. */
  function Decode(st: Store): (r: StylePreferences)
    requires WellTyped(st)
    ensures KeyFormality !in st ==> r.formality == DefaultFormality
    ensures KeyFormality in st ==> StrVal(r.formality) == st[KeyFormality]
    ensures KeyHumorLevel !in st ==> r.humorLevel == DefaultHumorLevel
    ensures KeyHumorLevel in st ==> FloatVal(r.humorLevel) == st[KeyHumorLevel]
    ensures KeyEnthusiasm !in st ==> r.enthusiasm == DefaultEnthusiasm
    ensures KeyEnthusiasm in st ==> StrVal(r.enthusiasm) == st[KeyEnthusiasm]
    ensures KeyDatingStrategy !in st ==> r.datingStrategy == DefaultStrategy
    ensures KeyDatingStrategy in st ==> r.datingStrategy == FromString(Some(st[KeyDatingStrategy].s))
    ensures KeyVoiceAssist !in st ==> r.voiceAssistModeEnabled == DefaultVoiceAssist
    ensures KeyVoiceAssist in st ==> BoolVal(r.voiceAssistModeEnabled) == st[KeyVoiceAssist]
  {
    StylePreferences(
      StringAt(st, KeyFormality).GetOr(DefaultFormality),
      if KeyHumorLevel in st then st[KeyHumorLevel].f else DefaultHumorLevel,
      StringAt(st, KeyEnthusiasm).GetOr(DefaultEnthusiasm),
      FromString(StringAt(st, KeyDatingStrategy)),
      if KeyVoiceAssist in st then st[KeyVoiceAssist].b else DefaultVoiceAssist)
  }

  function UpdateFormality(st: Store, formality: string): Store {
    st[KeyFormality := StrVal(formality)]
  }

  function UpdateHumorLevel(st: Store, humorLevel: real): Store {
    st[KeyHumorLevel := FloatVal(humorLevel)]
  }

  function UpdateEnthusiasm(st: Store, enthusiasm: string): Store {
    st[KeyEnthusiasm := StrVal(enthusiasm)]
  }

  /** The strategy is saved under its constant name. */
  function UpdateDatingStrategy(st: Store, strategy: DatingStrategy): Store {
    st[KeyDatingStrategy := StrVal(Name(strategy))]
  }

  function UpdateVoiceAssistMode(st: Store, enabled: bool): Store {
    st[KeyVoiceAssist := BoolVal(enabled)]
  }

  /** An empty (or unreadable, hence emptied) store reads as the defaults. */
  lemma EmptyStoreGivesDefaults()
    ensures WellTyped(map[])
    ensures Decode(map[]) == StylePreferences(DefaultFormality, DefaultHumorLevel, DefaultEnthusiasm,
                                              DefaultStrategy, DefaultVoiceAssist)
  {
  }

  /** A strategy string no constant is named by reads as `BALANCED`. */
  lemma UnknownStrategyReadsBalanced(st: Store, stored: string)
    requires WellTyped(st) && KeyDatingStrategy in st && st[KeyDatingStrategy] == StrVal(stored)
    requires forall s :: stored != Name(s)
    ensures Decode(st).datingStrategy == Balanced
  {
  }

  /** Each update is read back as written, leaves every other field as it
      was, and keeps the store well typed. */
  lemma FormalityRoundTrip(st: Store, formality: string)
    requires WellTyped(st)
    ensures WellTyped(UpdateFormality(st, formality))
    ensures Decode(UpdateFormality(st, formality)) == Decode(st).(formality := formality)
  {
    KeysDistinct();
  }

  lemma HumorLevelRoundTrip(st: Store, humorLevel: real)
    requires WellTyped(st)
    ensures WellTyped(UpdateHumorLevel(st, humorLevel))
    ensures Decode(UpdateHumorLevel(st, humorLevel)) == Decode(st).(humorLevel := humorLevel)
  {
    KeysDistinct();
  }

  lemma EnthusiasmRoundTrip(st: Store, enthusiasm: string)
    requires WellTyped(st)
    ensures WellTyped(UpdateEnthusiasm(st, enthusiasm))
    ensures Decode(UpdateEnthusiasm(st, enthusiasm)) == Decode(st).(enthusiasm := enthusiasm)
  {
    KeysDistinct();
  }

  lemma DatingStrategyRoundTrip(st: Store, strategy: DatingStrategy)
    requires WellTyped(st)
    ensures WellTyped(UpdateDatingStrategy(st, strategy))
    ensures Decode(UpdateDatingStrategy(st, strategy)) == Decode(st).(datingStrategy := strategy)
  {
    var st' := UpdateDatingStrategy(st, strategy);
    KeysDistinct();
    assert StringAt(st', KeyDatingStrategy) == Some(Name(strategy));
    FromStringName(strategy);
    assert StringAt(st', KeyFormality) == StringAt(st, KeyFormality);
    assert StringAt(st', KeyEnthusiasm) == StringAt(st, KeyEnthusiasm);
  }

  lemma VoiceAssistRoundTrip(st: Store, enabled: bool)
    requires WellTyped(st)
    ensures WellTyped(UpdateVoiceAssistMode(st, enabled))
    ensures Decode(UpdateVoiceAssistMode(st, enabled)) == Decode(st).(voiceAssistModeEnabled := enabled)
  {
    KeysDistinct();
  }

  /** The five keys are distinct, so no update can disturb another field. */
  lemma KeysDistinct()
    ensures KeyFormality != KeyHumorLevel && KeyFormality != KeyEnthusiasm
    ensures KeyFormality != KeyDatingStrategy && KeyFormality != KeyVoiceAssist
    ensures KeyHumorLevel != KeyEnthusiasm && KeyHumorLevel != KeyDatingStrategy
    ensures KeyHumorLevel != KeyVoiceAssist && KeyEnthusiasm != KeyDatingStrategy
    ensures KeyEnthusiasm != KeyVoiceAssist && KeyDatingStrategy != KeyVoiceAssist
  {
    assert KeyFormality[0] == 's' && KeyDatingStrategy[0] == 'd' && KeyVoiceAssist[0] == 'v';
    assert KeyFormality[6] == 'f' && KeyHumorLevel[6] == 'h' && KeyEnthusiasm[6] == 'e';
  }
}
