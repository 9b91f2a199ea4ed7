/** The adapter registry (`MdaAdapterManager`): adapters kept in
    registration order, at most one per package name. */
module Registry {
  import opened Wrappers
  import opened Collections

  /** The two adapters of the application; the placeholder extracts
      nothing. */
  datatype AdapterKind = SimulatedDatingApp | Placeholder

  datatype Adapter = Adapter(packageName: string, kind: AdapterKind)

  const SimulatedPackage: string := "com.example.simulateddatingapp"
  const PlaceholderPackage: string := "com.example.anotherdatingapp"

  /** The adapters as the application constructs them. */
  function Builtin(kind: AdapterKind): (a: Adapter)
    ensures a.kind == kind
  {
    match kind
    case SimulatedDatingApp => Adapter(SimulatedPackage, kind)
    case Placeholder => Adapter(PlaceholderPackage, kind)
  }

  /** `getRegisteredPackageNames`. */
  function PackageNames(r: seq<Adapter>): (names: seq<string>)
    ensures |names| == |r|
    ensures forall i :: 0 <= i < |r| ==> names[i] == r[i].packageName
  {
    seq(|r|, i requires 0 <= i < |r| => r[i].packageName)
  }

  /** The registry invariant: no package is registered twice. */
  predicate Valid(r: seq<Adapter>) {
    NoDuplicates(PackageNames(r))
  }

  predicate Registered(r: seq<Adapter>, packageName: string) {
    exists i :: 0 <= i < |r| && r[i].packageName == packageName
  }

  /** `registerAdapter`: appended when its package is new, ignored
      otherwise. */
  function Register(r: seq<Adapter>, a: Adapter): (r': seq<Adapter>)
    ensures Registered(r, a.packageName) ==> r' == r
    ensures !Registered(r, a.packageName) ==> r' == r + [a]
    ensures Valid(r) ==> Valid(r')
  {
    if Registered(r, a.packageName) then r
    else
      var r' := r + [a];
      assert forall i :: 0 <= i < |r| ==> PackageNames(r')[i] == PackageNames(r)[i];
      r'
  }

  /** `getAdapterForPackage`: the first adapter for the package, or null. */
  function Lookup(r: seq<Adapter>, packageName: string): (found: Option<Adapter>)
    ensures found.Some? <==> Registered(r, packageName)
    ensures found.Some? ==> found.value in r && found.value.packageName == packageName
  {
    Find(r, (a: Adapter) => a.packageName == packageName)
  }

  /** In a valid registry the adapter found is the only one for its
      package. */
  lemma LookupUnique(r: seq<Adapter>, packageName: string, i: nat)
    requires Valid(r) && i < |r| && r[i].packageName == packageName
    ensures Lookup(r, packageName) == Some(r[i])
  {
    var found := Lookup(r, packageName);
    var j :| 0 <= j < |r| && r[j] == found.value;
    assert PackageNames(r)[i] == PackageNames(r)[j];
  }

  /** After registering a new package the lookup finds the new adapter,
      and every other lookup is as before. */
  lemma RegisterThenLookup(r: seq<Adapter>, a: Adapter, packageName: string)
    requires Valid(r) && !Registered(r, a.packageName)
    ensures Lookup(Register(r, a), a.packageName) == Some(a)
    ensures packageName != a.packageName ==> Lookup(Register(r, a), packageName) == Lookup(r, packageName)
  {
    var r' := Register(r, a);
    LookupUnique(r', a.packageName, |r|);
    if packageName != a.packageName && Registered(r, packageName) {
      var i :| 0 <= i < |r| && r[i].packageName == packageName;
      LookupUnique(r, packageName, i);
      LookupUnique(r', packageName, i);
    }
  }

  /** The application's registration of its two adapters, in that order. */
  lemma DefaultRegistry()
    ensures var r := Register(Register([], Builtin(SimulatedDatingApp)), Builtin(Placeholder));
      && PackageNames(r) == [SimulatedPackage, PlaceholderPackage]
      && Valid(r)
      && Lookup(r, PlaceholderPackage) == Some(Builtin(Placeholder))
  {
    var r1 := Register([], Builtin(SimulatedDatingApp));
    assert r1 == [Builtin(SimulatedDatingApp)];
    assert |SimulatedPackage| != |PlaceholderPackage|;
    var r := Register(r1, Builtin(Placeholder));
    assert r == [Builtin(SimulatedDatingApp), Builtin(Placeholder)];
    RegisterThenLookup(r1, Builtin(Placeholder), PlaceholderPackage);
  }
}
