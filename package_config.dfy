// PackageConfig: the list of packages (Basic, Advanced, Pro) and the
// features each one includes, and the lookup every screen uses to decide
// whether a feature is available to the shop's current package.
module PackageConfig {
  import opened Wrappers
  import opened ShopRecords
  import DotNetText

  datatype PackageDetails = PackageDetails(
    packageName: Option<string>,
    includedFeatures: Option<seq<AppFeature>>,
    cost: int,
    defaultDurationDays: int)

  /** The configuration asset; a null `packages` list is None. */
  datatype Config = Config(packages: Option<seq<PackageDetails>>)

  /** List.Find(p => p.packageName == name): the position of the first
      package with that name. */
  function FindIndex(ps: seq<PackageDetails>, name: Option<string>): (r: Option<nat>)
    ensures r.Some? ==> r.value < |ps| && ps[r.value].packageName == name
    ensures r.Some? ==> forall j :: 0 <= j < r.value ==> ps[j].packageName != name
    ensures r.None? <==> forall j :: 0 <= j < |ps| ==> ps[j].packageName != name
  {
    if ps == [] then None
    else if ps[0].packageName == name then Some(0)
    else match FindIndex(ps[1..], name)
      case None => None
      case Some(i) => Some(i + 1)
  }

  /** GetPackageDetails: the first package with the given name, or null. */
  function GetPackageDetails(c: Config, name: Option<string>): (r: Option<PackageDetails>)
  {
    if c.packages.None? then None
    else match FindIndex(c.packages.value, name)
      case None => None
      case Some(i) => Some(c.packages.value[i])
  }

  /** HasFeature. */
  predicate HasFeature(c: Config, name: Option<string>, feature: AppFeature)
  {
    if DotNetText.IsNullOrEmpty(name) || c.packages.None? then false
    else
      var p := GetPackageDetails(c, name);
      p.Some? && p.value.includedFeatures.Some? && feature in p.value.includedFeatures.value
  }

  /** GetPackageDetails yields exactly the first package carrying the name,
      and null when the list is null or holds no package of that name. */
  lemma GetPackageDetailsFirst(c: Config, name: Option<string>)
    ensures GetPackageDetails(c, name).None? <==>
      c.packages.None? || forall j :: 0 <= j < |c.packages.value| ==> c.packages.value[j].packageName != name
    ensures GetPackageDetails(c, name).Some? ==>
      exists i :: 0 <= i < |c.packages.value| && GetPackageDetails(c, name) == Some(c.packages.value[i])
        && c.packages.value[i].packageName == name
        && forall j :: 0 <= j < i ==> c.packages.value[j].packageName != name
  {
    if c.packages.Some? {
      var r := FindIndex(c.packages.value, name);
      if r.Some? {
        assert GetPackageDetails(c, name) == Some(c.packages.value[r.value]);
      }
    }
  }

  /** HasFeature holds iff the name is non-empty and the first package with
      that name lists the feature; in particular it is false for a null or
      empty name, a null package list, a missing package, or a package
      whose feature list is null. */
  lemma HasFeatureIff(c: Config, name: Option<string>, feature: AppFeature)
    ensures HasFeature(c, name, feature) <==>
      name.Some? && name.value != "" && c.packages.Some? &&
      exists i :: 0 <= i < |c.packages.value| && c.packages.value[i].packageName == name
        && (forall j :: 0 <= j < i ==> c.packages.value[j].packageName != name)
        && c.packages.value[i].includedFeatures.Some?
        && feature in c.packages.value[i].includedFeatures.value
  {
    if name.Some? && name.value != "" && c.packages.Some? {
      var ps := c.packages.value;
      var r := FindIndex(ps, name);
      if r.Some? {
        forall i | 0 <= i < |ps| && ps[i].packageName == name && (forall j :: 0 <= j < i ==> ps[j].packageName != name)
          ensures i == r.value
        {
        }
      }
    }
  }
}
