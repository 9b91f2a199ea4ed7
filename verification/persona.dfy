/** The practice persona enumeration (`PracticePersona`): three constants
    with display names, and a lookup by display name that falls back to
    `GENERAL_CHAT`. */
module Persona {
  import opened Wrappers
  import opened Collections

  datatype PracticePersona = GeneralChat | FlirtyAccelerated | SeriousDeep

  /** The constants in declaration order (`entries`). */
  const Entries: seq<PracticePersona> := [GeneralChat, FlirtyAccelerated, SeriousDeep]

  /** `toDisplayName()`. */
  function DisplayName(p: PracticePersona): string {
    match p
    case GeneralChat => "General Chat"
    case FlirtyAccelerated => "Flirty & Fast-Paced"
    case SeriousDeep => "Serious & Deep Convo"
  }

  /** `fromDisplayName(displayName)`: the first persona whose display name
      equals the argument exactly, and `GENERAL_CHAT` otherwise. */
  function FromDisplayName(displayName: string): (r: PracticePersona)
    ensures r != GeneralChat ==> DisplayName(r) == displayName
    ensures (forall p :: DisplayName(p) != displayName) ==> r == GeneralChat
  {
    match Find(Entries, (p: PracticePersona) => DisplayName(p) == displayName)
    case Some(p) => p
    case None => GeneralChat
  }

  /** The display name identifies the persona: looking it up gives the
      persona back. */
  lemma FromDisplayNameRoundTrip(p: PracticePersona)
    ensures FromDisplayName(DisplayName(p)) == p
  {
    var f := Find(Entries, (q: PracticePersona) => DisplayName(q) == DisplayName(p));
    assert p in Entries;
    assert f.Some? && DisplayName(f.value) == DisplayName(p);
  }

  /** The three display names are pairwise distinct. */
  lemma DisplayNamesDistinct(a: PracticePersona, b: PracticePersona)
    ensures a != b ==> DisplayName(a) != DisplayName(b)
  {
  }

  /** The lookup is by display name, so a constant name is not recognised. */
  lemma FromDisplayNameIgnoresConstantNames()
    ensures FromDisplayName("SERIOUS_DEEP") == GeneralChat
    ensures FromDisplayName("FLIRTY_ACCELERATED") == GeneralChat
    ensures FromDisplayName("serious & deep convo") == GeneralChat
  {
  }
}
