/** The dating strategy enumeration (`DatingStrategy`): four constants, each
    with a display name, and a lookup by constant name that falls back to
    `BALANCED`. */
module Strategy {
  import opened Wrappers
  import opened Collections

  datatype DatingStrategy =
    | Balanced
    | AcceleratedConnection
    | DeepConnection
    | SocialExploration

  /** The constants in declaration order (`entries`). */
  const Entries: seq<DatingStrategy> :=
    [Balanced, AcceleratedConnection, DeepConnection, SocialExploration]

  /** The Kotlin constant name (`name`). */
  function Name(s: DatingStrategy): string {
    match s
    case Balanced => "BALANCED"
    case AcceleratedConnection => "ACCELERATED_CONNECTION"
    case DeepConnection => "DEEP_CONNECTION"
    case SocialExploration => "SOCIAL_EXPLORATION"
  }

  /** The `displayName` constructor argument. */
  function DisplayName(s: DatingStrategy): string {
    match s
    case Balanced => "Balanced Approach"
    case AcceleratedConnection => "Accelerated Connection"
    case DeepConnection => "Deep Connection"
    case SocialExploration => "Social Exploration"
  }

  /** `fromString(name)`: the first constant whose name equals `name`
      exactly, and `BALANCED` for `null` or any other string. */
  function FromString(name: Option<string>): (r: DatingStrategy)
    ensures r != Balanced ==> name == Some(Name(r))
    ensures (forall s :: name != Some(Name(s))) ==> r == Balanced
  {
    match Find(Entries, (s: DatingStrategy) => Some(Name(s)) == name)
    case Some(s) => s
    case None => Balanced
  }

  /** Every strategy is found again from its constant name, which is how
      the preference store saves it. */
  lemma FromStringName(s: DatingStrategy)
    ensures FromString(Some(Name(s))) == s
  {
    var p := (t: DatingStrategy) => Some(Name(t)) == Some(Name(s));
    assert s in Entries;
    var f := Find(Entries, p);
    assert f.Some?;
    assert Name(f.value) == Name(s);
  }

  /** The lookup compares constant names, not display names, and is case
      sensitive. */
  lemma FromStringIsByConstantName()
    ensures FromString(Some("Balanced Approach")) == Balanced
    ensures FromString(Some("Deep Connection")) == Balanced
    ensures FromString(Some("deep_connection")) == Balanced
    ensures FromString(None) == Balanced
    ensures FromString(Some("DEEP_CONNECTION")) == DeepConnection
  {
    FromStringName(DeepConnection);
  }

  /** The constant names and the display names each tell the four
      strategies apart. */
  lemma NamesDistinct(a: DatingStrategy, b: DatingStrategy)
    ensures a != b ==> Name(a) != Name(b)
    ensures a != b ==> DisplayName(a) != DisplayName(b)
  {
  }
}
