/** The shape of the registry (Packagist) data the indexer reads. Only the keys the
    indexer looks at are kept; a key that is absent (or null) is None. */
module Registry {
  import opened Values

  /** One entry of a package's version list. */
  datatype VersionInfo = VersionInfo(
    packageType: Option<string>,      // 'type'
    require: Option<seq<string>>,     // the keys of 'require', in order; the constraints are never read
    managerPlugin: bool,              // isset(extra['contao-manager-plugin'])
    description: Option<string>,
    keywords: Option<seq<string>>,
    homepage: Option<string>,
    support: Option<map<string, string>>,
    license: Option<seq<string>>)

  /** A version identifier with its descriptor, in the order the registry lists them. */
  datatype VersionEntry = VersionEntry(id: string, info: VersionInfo)

  /** The 'package' object of packages/<name>.json. In the older indexer its
      'versions' are replaced by the list from p/<name>.json. */
  datatype PackageInfo = PackageInfo(
    name: string,
    versions: seq<VersionEntry>,
    downloads: Option<int>,           // downloads.total
    favers: Option<int>,
    abandoned: Option<Value>,         // true, or the name of the replacement
    replacement: Option<string>,
    repository: Option<string>)

  /** What the registry yields for one name: data['packages'] and data['p']. */
  datatype RawData = RawData(packages: PackageInfo, p: seq<VersionEntry>)

  /** PHP's end(): the last entry, or nothing (false) for an empty list. */
  function Last(vs: seq<VersionEntry>): (r: Option<VersionInfo>)
    ensures r.Some? <==> |vs| > 0
    ensures |vs| > 0 ==> r.value == vs[|vs| - 1].info
  {
    if |vs| == 0 then None else Some(vs[|vs| - 1].info)
  }

  /** PHP's reset(): the first entry, or nothing (false) for an empty list. */
  function First(vs: seq<VersionEntry>): (r: Option<VersionInfo>)
    ensures r.Some? <==> |vs| > 0
    ensures |vs| > 0 ==> r.value == vs[0].info
  {
    if |vs| == 0 then None else Some(vs[0].info)
  }

  /** The names a version requires (none when it has no 'require'). */
  function RequireKeys(v: VersionInfo): seq<string> {
    v.require.GetOr([])
  }

  /** The version identifiers (the keys of 'versions'), in registry order. */
  function VersionIds(vs: seq<VersionEntry>): (r: seq<string>)
    ensures |r| == |vs|
    ensures forall i :: 0 <= i < |vs| ==> r[i] == vs[i].id
    decreases |vs|
  {
    if |vs| == 0 then [] else VersionIds(vs[..|vs| - 1]) + [vs[|vs| - 1].id]
  }
}
