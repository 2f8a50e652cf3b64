/** The package factory: turns registry data into Package and MetaPackage objects,
    classifies them, attaches logo and per-language metadata, and remembers every
    object it built for the rest of the run. */
module PackageFactory {
  import opened Values
  import opened Collections
  import opened Registry
  import opened MetaData
  import opened PackageModel
  import opened Languages

  /** A version counts as Contao-supported when it requires the core bundle or is a component. */
  predicate SupportsContao(v: VersionInfo) {
    "contao/core-bundle" in RequireKeys(v) || v.packageType == Some("contao-component")
  }

  /** A version is managed unless it is a plain contao-bundle without a manager plugin. */
  predicate ManagedVersion(v: VersionInfo) {
    v.packageType != Some("contao-bundle") || v.managerPlugin
  }

  predicate Supported(vs: seq<VersionEntry>) {
    exists i :: 0 <= i < |vs| && SupportsContao(vs[i].info)
  }

  predicate Managed(vs: seq<VersionEntry>) {
    exists i :: 0 <= i < |vs| && ManagedVersion(vs[i].info)
  }

  /** isSupported: scans the versions and stops at the first supporting one. */
  method IsSupported(vs: seq<VersionEntry>) returns (b: bool)
    ensures b == Supported(vs)
  {
    for i := 0 to |vs|
      invariant forall j :: 0 <= j < i ==> !SupportsContao(vs[j].info)
    {
      if SupportsContao(vs[i].info) {
        return true;
      }
    }
    return false;
  }

  /** isManaged: scans the versions and stops at the first managed one. */
  method IsManaged(vs: seq<VersionEntry>) returns (b: bool)
    ensures b == Managed(vs)
  {
    for i := 0 to |vs|
      invariant forall j :: 0 <= j < i ==> !ManagedVersion(vs[j].info)
    {
      if ManagedVersion(vs[i].info) {
        return true;
      }
    }
    return false;
  }

  /** What end($data['p']) yields for an empty list: every key reads as missing. */
  const NoVersion: VersionInfo := VersionInfo(None, None, false, None, None, None, None, None)

  /** The record setBasicData writes, given the logo and metadata it attaches. */
  function BuildRecord(data: RawData, logo: string, meta: map<string, map<string, Value>>): Record {
    var latest := Last(data.p).GetOr(NoVersion);
    var pkg := data.packages;
    Record(
      name := pkg.name,
      title := pkg.name,
      description := latest.description.GetOr(""),
      keywords := latest.keywords.GetOr([]),
      homepage := latest.homepage.GetOr(""),
      support := latest.support.GetOr(map[]),
      versions := SortStrings(VersionIds(pkg.versions)),
      license := latest.license.GetOr([]),
      downloads := pkg.downloads.GetOr(0),
      stars := pkg.favers.GetOr(0),
      supported := Supported(pkg.versions),
      managed := Managed(pkg.versions),
      abandoned := pkg.abandoned.Some?,
      replacement := pkg.replacement.GetOr(""),
      logo := logo,
      meta := meta,
      required := [])
  }

  /** setBasicData field by field: sorted versions, name as title, display fields from
      the last entry of the version list with their defaults, counts defaulting to 0,
      the two classifications, and abandonment. */
  lemma BuildRecordFields(data: RawData, logo: string, meta: map<string, map<string, Value>>)
    ensures var r := BuildRecord(data, logo, meta);
      && SortedStrings(r.versions)
      && multiset(r.versions) == multiset(VersionIds(data.packages.versions))
      && r.name == data.packages.name && r.title == data.packages.name
      && (|data.p| == 0 ==>
            r.description == "" && r.keywords == [] && r.homepage == "" && r.support == map[] && r.license == [])
      && (|data.p| > 0 ==>
            var latest := data.p[|data.p| - 1].info;
            && r.description == latest.description.GetOr("")
            && r.keywords == latest.keywords.GetOr([])
            && r.homepage == latest.homepage.GetOr("")
            && r.support == latest.support.GetOr(map[])
            && r.license == latest.license.GetOr([]))
      && r.downloads == data.packages.downloads.GetOr(0)
      && r.stars == data.packages.favers.GetOr(0)
      && (r.supported <==> exists i :: 0 <= i < |data.packages.versions| &&
                             SupportsContao(data.packages.versions[i].info))
      && (r.managed <==> exists i :: 0 <= i < |data.packages.versions| &&
                           ManagedVersion(data.packages.versions[i].info))
      && (r.abandoned <==> data.packages.abandoned.Some?)
      && r.replacement == data.packages.replacement.GetOr("")
  {
  }

  /** The logo and the metadata are the only fields that do not come from the registry data. */
  lemma BuildRecordUpdate(data: RawData, logo: string, meta: map<string, map<string, Value>>,
                          logo': string, meta': map<string, map<string, Value>>)
    ensures BuildRecord(data, logo, meta).(logo := logo', meta := meta') == BuildRecord(data, logo', meta')
  {
  }

  /** The metadata of one language: the allowed keys of meta/<name>/<language>.yml. */
  function MetaEntry(base: string, store: Store, name: string, language: string): map<string, Value> {
    FilterMetadata(ExtractLanguage(YamlAt(store, MetaFile(base, name, language)), language))
  }

  /** addMeta: one filtered entry for every index language. */
  function MetaMap(base: string, store: Store, name: string): map<string, map<string, Value>> {
    map l | l in LANGUAGES :: MetaEntry(base, store, name, l)
  }

  /** Every index language gets an entry, holding only allowed keys. */
  lemma MetaMapShape(base: string, store: Store, name: string)
    ensures forall l :: l in MetaMap(base, store, name) <==> l in LANGUAGES
    ensures forall l :: l in MetaMap(base, store, name) ==> MetaMap(base, store, name)[l].Keys <= ALLOWED_KEYS
  {
  }

  /** addLogo: the chosen image's logo, or the current logo when there is no image. */
  function FactoryLogo(base: string, name: string, store: Store, base64: string -> string, current: string): string {
    match LogoImage(base, name, store.files)
    case None => current
    case Some(image) => LogoUri(base, image, store.files, base64)
  }

  /** The names a list of versions require, version by version, repetitions kept. */
  function AllRequires(vs: seq<VersionEntry>): (r: seq<string>)
    decreases |vs|
  {
    if |vs| == 0 then [] else AllRequires(vs[..|vs| - 1]) + RequireKeys(vs[|vs| - 1].info)
  }

  /** Some version of the list requires the name. */
  predicate RequiredBySomeVersion(vs: seq<VersionEntry>, x: string) {
    exists i :: 0 <= i < |vs| && x in RequireKeys(vs[i].info)
  }

  /** A name is among all requirements iff some version requires it. */
  lemma {:induction false} AllRequiresMembers(vs: seq<VersionEntry>, x: string)
    ensures x in AllRequires(vs) <==> RequiredBySomeVersion(vs, x)
    decreases |vs|
  {
    if |vs| > 0 {
      var init := vs[..|vs| - 1];
      AllRequiresMembers(init, x);
      if x in AllRequires(vs) && x !in AllRequires(init) {
        assert x in RequireKeys(vs[|vs| - 1].info);
      }
      if RequiredBySomeVersion(vs, x) {
        var i :| 0 <= i < |vs| && x in RequireKeys(vs[i].info);
        if i < |vs| - 1 {
          assert init[i] == vs[i];
          assert RequiredBySomeVersion(init, x);
        }
      }
    }
  }

  /** What the factory works from: the metadata checkout, what the registry returns
      per name (a name without an entry yields no data), the files and YAML documents
      of the checkout, and base64_encode. */
  datatype Config = Config(
    metaDataDir: string,
    registry: map<string, RawData>,
    store: Store,
    base64: string -> string)

  /** The record a plain package built from the registry data of the name holds. */
  function BasicRecord(c: Config, name: string): Record
    requires name in c.registry
  {
    var data := c.registry[name];
    BuildRecord(data,
                FactoryLogo(c.metaDataDir, data.packages.name, c.store, c.base64, ""),
                MetaMap(c.metaDataDir, c.store, data.packages.name))
  }

  /** The names a metapackage requires across its versions, first occurrence first. */
  function RequiredNames(c: Config, name: string): seq<string>
    requires name in c.registry
  {
    Dedup(AllRequires(c.registry[name].packages.versions))
  }

  /** The name builds to a supported plain package. */
  function SupportedFlag(c: Config): string -> bool {
    n => n in c.registry && BasicRecord(c, n).supported
  }

  /** The name builds to a managed plain package. */
  function ManagedFlag(c: Config): string -> bool {
    n => n in c.registry && BasicRecord(c, n).managed
  }

  /** The record of a metapackage: its own basic record, with supported and managed
      raised when a required package that builds is supported or managed, and the
      required names recorded. */
  function MetaRecord(c: Config, name: string): Record
    requires name in c.registry
  {
    var r := BasicRecord(c, name);
    var req := RequiredNames(c, name);
    r.(supported := r.supported || AnyOf(req, SupportedFlag(c)),
       managed := r.managed || AnyOf(req, ManagedFlag(c)),
       required := req)
  }

  /** The two kinds of entry of the factory's cache, 'basic-<name>' and 'meta-<name>'. */
  datatype CacheKey = BasicKey(name: string) | MetaKey(name: string)

  /** Every entry of the first cache is still in the second, unchanged. */
  ghost predicate Keeps<K, V>(before: map<K, V>, after: map<K, V>) {
    forall k :: k in before ==> k in after && after[k] == before[k]
  }

  lemma KeepsTrans<K, V>(a: map<K, V>, b: map<K, V>, c: map<K, V>)
    requires Keeps(a, b) && Keeps(b, c)
    ensures Keeps(a, c)
  {
  }

  /** The cache entries the plain packages of the names that build occupy. */
  function BuiltKeys(c: Config, names: seq<string>): (ks: set<CacheKey>)
    ensures forall k :: k in ks <==> k.BasicKey? && k.name in names && k.name in c.registry
  {
    set x | x in names && x in c.registry :: BasicKey(x)
  }

  /** A prefix one longer adds the entry of the next name if that name builds. */
  lemma BuiltKeysSnoc(c: Config, names: seq<string>, i: int)
    requires 0 <= i < |names|
    ensures BuiltKeys(c, names[..i + 1]) ==
              BuiltKeys(c, names[..i]) + (if names[i] in c.registry then {BasicKey(names[i])} else {})
  {
    TakeSnoc(names, i);
  }

  /** The names the loop over required names fetches, in order, when the cache starts
      with the given keys: a name is fetched unless a plain package of it is cached,
      from before the loop or because the same name built earlier in the loop. */
  function RequiredFetches(c: Config, keys: set<CacheKey>, names: seq<string>): (f: seq<string>)
    ensures forall x :: x in f ==> x in names && BasicKey(x) !in keys
    decreases |names|
  {
    if |names| == 0 then []
    else
      var init, last := names[..|names| - 1], names[|names| - 1];
      RequiredFetches(c, keys, init) + (if BasicKey(last) in keys + BuiltKeys(c, init) then [] else [last])
  }

  /** A prefix one longer fetches the next name unless its plain package is cached
      by then. */
  lemma RequiredFetchesSnoc(c: Config, keys: set<CacheKey>, names: seq<string>, i: int)
    requires 0 <= i < |names|
    ensures RequiredFetches(c, keys, names[..i + 1]) ==
              RequiredFetches(c, keys, names[..i]) +
              (if BasicKey(names[i]) in keys + BuiltKeys(c, names[..i]) then [] else [names[i]])
  {
    TakeSnoc(names, i);
  }

  /** Over a list without repetitions (as the required names of a metapackage are),
      exactly the names without a cached plain package are fetched, each once, in order. */
  lemma {:induction false} RequiredFetchesOfDistinct(c: Config, keys: set<CacheKey>, names: seq<string>)
    requires NoDuplicates(names)
    ensures RequiredFetches(c, keys, names) == Filter(names, x => BasicKey(x) !in keys)
    decreases |names|
  {
    if |names| > 0 {
      var init, last := names[..|names| - 1], names[|names| - 1];
      assert NoDuplicates(init);
      assert last !in init;
      assert BasicKey(last) !in BuiltKeys(c, init);
      RequiredFetchesOfDistinct(c, keys, init);
    }
  }

  /** What the cached object of a key holds. */
  function Expected(c: Config, k: CacheKey): Record
    requires k.name in c.registry
  {
    match k
    case BasicKey(n) => BasicRecord(c, n)
    case MetaKey(n) => MetaRecord(c, n)
  }

  class Factory {
    const config: Config
    /** The memo cache: every package built so far, by kind and name. */
    var cache: map<CacheKey, Package>
    /** The names whose registry data was requested, in order. */
    ghost var fetches: seq<string>
    /** The packages the cache holds. */
    ghost var repr: set<Package>
    /** For every key with registry data, the record its package holds once built. */
    ghost const expected: imap<CacheKey, Record>

    /** The expected records are the ones the registry data builds. The predicate does
        not depend on the heap. */
    ghost predicate Faithful() {
      && (forall k :: k in expected <==> k.name in config.registry)
      && (forall k {:trigger Expected(config, k)} :: k in expected ==> expected[k] == Expected(config, k))
    }

    /** Every cached object holds the expected record of its key. */
    ghost predicate Valid()
      reads this`cache, this`repr, repr
    {
      && (forall k :: k in cache ==> k in expected && cache[k] in repr)
      && (forall k :: k in cache ==> cache[k].Snapshot() == expected[k])
    }

    constructor (config: Config)
      ensures Faithful() && Valid()
      ensures this.config == config && cache == map[] && fetches == []
    {
      this.config := config;
      cache := map[];
      repr := {};
      fetches := [];
      expected := imap k: CacheKey | k.name in config.registry :: Expected(config, k);

    }

    /** addLogo */
    method AddLogo(package: Package)
      modifies package
      ensures package.Snapshot() ==
                old(package.Snapshot()).(logo := FactoryLogo(config.metaDataDir, old(package.name), config.store,
                                                             config.base64, old(package.logo)))
    {
      var image := LogoImage(config.metaDataDir, package.name, config.store.files);
      if image.None? {
        return;
      }
      var self := package.SetLogo(LogoUri(config.metaDataDir, image.value, config.store.files, config.base64));
    }

    /** addMeta */
    method AddMeta(package: Package)
      modifies package
      ensures package.Snapshot() ==
                old(package.Snapshot()).(meta := MetaMap(config.metaDataDir, config.store, old(package.name)))
    {
      var meta: map<string, map<string, Value>> := map[];
      for i := 0 to |LANGUAGES|
        invariant meta.Keys == set l | l in LANGUAGES[..i]
        invariant forall l :: l in meta ==> meta[l] == MetaEntry(config.metaDataDir, config.store, package.name, l)
      {
        assert LANGUAGES[..i + 1] == LANGUAGES[..i] + [LANGUAGES[i]];
        meta := meta[LANGUAGES[i] := MetaEntry(config.metaDataDir, config.store, package.name, LANGUAGES[i])];
      }
      assert LANGUAGES[..|LANGUAGES|] == LANGUAGES;
      assert meta == MetaMap(config.metaDataDir, config.store, package.name);
      var self := package.SetMeta(meta);
    }

    /** setBasicData: the version identifiers, sorted; the classification of all
        versions; then the fields, the logo and the metadata. */
    method SetBasicData(data: RawData, package: Package)
      modifies package
      ensures package.Snapshot() ==
                BuildRecord(data,
                            FactoryLogo(config.metaDataDir, data.packages.name, config.store, config.base64,
                                        old(package.logo)),
                            MetaMap(config.metaDataDir, config.store, data.packages.name))
                .(required := old(package.required))
    {
      var versions: seq<string> := [];
      var all := data.packages.versions;
      for i := 0 to |all|
        invariant versions == VersionIds(all[..i])
      {
        assert all[..i + 1][..i] == all[..i];
        versions := versions + [all[i].id];
      }
      assert all[..|all|] == all;
      versions := SortStrings(versions);
      var supported := IsSupported(all);
      var managed := IsManaged(all);
      SetFields(data, package, versions, supported, managed);
      ghost var fields := BuildRecord(data, old(package.logo), old(package.meta)).(required := old(package.required));
      assert package.name == data.packages.name;
      ghost var logo := FactoryLogo(config.metaDataDir, data.packages.name, config.store, config.base64,
                                    old(package.logo));
      AddLogo(package);
      assert package.Snapshot() == fields.(logo := logo);
      AddMeta(package);
      assert package.Snapshot() ==
               fields.(logo := logo, meta := MetaMap(config.metaDataDir, config.store, data.packages.name));
    }

    /** The setter calls of setBasicData: the display fields come from the last entry
        of the version list, with their defaults when it is missing. */
    static method SetFields(data: RawData, package: Package, versions: seq<string>, supported: bool, managed: bool)
      requires versions == SortStrings(VersionIds(data.packages.versions))
      requires supported == Supported(data.packages.versions) && managed == Managed(data.packages.versions)
      modifies package
      ensures package.Snapshot() ==
                BuildRecord(data, old(package.logo), old(package.meta)).(required := old(package.required))
    {
      var latest := Last(data.p).GetOr(NoVersion);
      var self := package.SetName(data.packages.name);
      self := package.SetTitle(data.packages.name);
      self := package.SetDescription(latest.description.GetOr(""));
      self := package.SetKeywords(latest.keywords.GetOr([]));
      self := package.SetHomepage(latest.homepage.GetOr(""));
      self := package.SetSupport(latest.support.GetOr(map[]));
      self := package.SetVersions(versions);
      self := package.SetLicense(latest.license.GetOr([]));
      self := package.SetDownloads(data.packages.downloads.GetOr(0));
      self := package.SetStars(data.packages.favers.GetOr(0));
      self := package.SetSupported(supported);
      self := package.SetManaged(managed);
      self := package.SetAbandoned(data.packages.abandoned.Some?);
      self := package.SetReplacement(data.packages.replacement.GetOr(""));
    }

    /** createBasicFromPackagist: the cached package for the name if there is one;
        otherwise fetch, give up (caching nothing) when there is no data, else build
        and cache. */
    method CreateBasicFromPackagist(name: string) returns (p: Package?)
      requires Faithful() && Valid()
      modifies this
      ensures Valid()
      ensures p != null <==> name in config.registry
      ensures p != null ==> BasicKey(name) in cache && cache[BasicKey(name)] == p
      ensures p != null ==> p.Snapshot() == BasicRecord(config, name)
      ensures p != null ==> BasicKey(name) in expected && p.Snapshot() == expected[BasicKey(name)]
      ensures BasicKey(name) in old(cache) ==> p == old(cache[BasicKey(name)]) && cache == old(cache)
      ensures BasicKey(name) in old(cache) ==> fetches == old(fetches)
      ensures BasicKey(name) !in old(cache) ==> fetches == old(fetches) + [name]
      ensures BasicKey(name) !in old(cache) && p == null ==> cache == old(cache)
      ensures BasicKey(name) !in old(cache) && p != null ==> fresh(p) && cache == old(cache)[BasicKey(name) := p]
      ensures repr == old(repr) || (fresh(p) && repr == old(repr) + {p})
      ensures Keeps(old(cache), cache)
      ensures cache.Keys == old(cache).Keys + (if name in config.registry then {BasicKey(name)} else {})
      ensures fetches == old(fetches) + (if BasicKey(name) in old(cache) then [] else [name])
    {
      if BasicKey(name) in cache {
        assert BasicKey(name) in expected;
        assert Expected(config, BasicKey(name)) == BasicRecord(config, name);
        return cache[BasicKey(name)];
      }
      fetches := fetches + [name];
      if name !in config.registry {
        return null;
      }
      p := BuildBasic(name);
      assert Expected(config, BasicKey(name)) == BasicRecord(config, name);
      Remember(BasicKey(name), p);

    }

    /** A new package filled by setBasicData from the registry data of the name. */
    method BuildBasic(name: string) returns (p: Package)
      requires name in config.registry
      ensures fresh(p) && p.Snapshot() == BasicRecord(config, name)
    {
      p := new Package();
      SetBasicData(config.registry[name], p);
    }

    /** The de-duplicated require keys of all versions, first occurrence first; a version
        without 'require' contributes nothing. */
    static method CollectRequires(vs: seq<VersionEntry>) returns (reqs: seq<string>)
      ensures reqs == Dedup(AllRequires(vs))
    {
      reqs := [];
      for i := 0 to |vs|
        invariant reqs == Dedup(AllRequires(vs[..i]))
      {
        assert vs[..i + 1][..i] == vs[..i];
        if vs[i].info.require.None? {
          assert AllRequires(vs[..i + 1]) == AllRequires(vs[..i]) + [] == AllRequires(vs[..i]);
          continue;
        }
        var keys := vs[i].info.require.value;
        ghost var before := AllRequires(vs[..i]);
        assert before + keys[..0] == before;
        for j := 0 to |keys|
          invariant reqs == Dedup(before + keys[..j])
        {
          ghost var s := before + keys[..j];
          assert before + keys[..j + 1] == s + [keys[j]];
          assert (s + [keys[j]])[..|s|] == s;
          if keys[j] !in reqs {
            reqs := reqs + [keys[j]];
          }
        }
        assert keys[..|keys|] == keys;
        assert AllRequires(vs[..i + 1]) == AllRequires(vs[..i]) + keys;
      }
      assert vs[..|vs|] == vs;
    }

    /** createMetaFromPackagist: like createBasicFromPackagist, and additionally collect
        the required names of all versions and raise supported/managed from the
        required packages that build. */
    method CreateMetaFromPackagist(name: string) returns (m: Package?)
      requires Faithful() && Valid()
      modifies this
      ensures Valid()
      ensures m != null <==> name in config.registry
      ensures m != null ==> MetaKey(name) in cache && cache[MetaKey(name)] == m
      ensures m != null ==> m.Snapshot() == MetaRecord(config, name)
      ensures m != null ==> MetaKey(name) in expected && m.Snapshot() == expected[MetaKey(name)]
      ensures MetaKey(name) in old(cache) ==> m == old(cache[MetaKey(name)]) && cache == old(cache)
      ensures MetaKey(name) in old(cache) ==> fetches == old(fetches)
      ensures MetaKey(name) !in old(cache) && m != null ==> fresh(m)
      ensures Keeps(old(cache), cache)
      ensures MetaKey(name) !in old(cache) && m == null ==> cache == old(cache) && fetches == old(fetches) + [name]
      ensures MetaKey(name) !in old(cache) && m != null ==>
                && cache.Keys == old(cache).Keys + BuiltKeys(config, RequiredNames(config, name)) + {MetaKey(name)}
                && fetches == old(fetches) + [name] +
                                RequiredFetches(config, old(cache).Keys, RequiredNames(config, name))
    {
      if MetaKey(name) in cache {
        assert Expected(config, MetaKey(name)) == MetaRecord(config, name);
        return cache[MetaKey(name)];
      }
      fetches := fetches + [name];
      if name !in config.registry {
        return null;
      }
      ghost var before := cache;
      m := BuildMeta(name);
      assert Expected(config, MetaKey(name)) == MetaRecord(config, name);
      ghost var built := cache;
      Remember(MetaKey(name), m);
      KeepsTrans(before, built, cache);
    }

    /** The building part of createMetaFromPackagist: the basic data, the required
        names of all versions, the flags raised by them, and the names recorded. */
    method BuildMeta(name: string) returns (m: Package)
      requires Faithful() && Valid() && name in config.registry
      modifies this
      ensures Valid()
      ensures fresh(m) && m !in repr
      ensures m.Snapshot() == MetaRecord(config, name)
      ensures Keeps(old(cache), cache)
      ensures cache.Keys == old(cache).Keys + BuiltKeys(config, RequiredNames(config, name))
      ensures fetches == old(fetches) + RequiredFetches(config, old(cache).Keys, RequiredNames(config, name))
    {
      m := BuildBasic(name);
      var reqs := CollectRequires(config.registry[name].packages.versions);
      ghost var basic := m.Snapshot();
      RaiseFlags(m, reqs);
      RecordRequired(m, reqs);
      assert m.Snapshot() == basic.(supported := basic.supported || AnyOf(reqs, SupportedFlag(config)),
                                    managed := basic.managed || AnyOf(reqs, ManagedFlag(config)),
                                    required := reqs);
    }

    /** setRequiredPackagesAccrossVersions on a package that is not in the cache. */
    method RecordRequired(m: Package, reqs: seq<string>)
      requires Valid()
      requires m !in repr
      modifies m
      ensures Valid()
      ensures m.Snapshot() == old(m.Snapshot()).(required := reqs)
    {
      var self := m.SetRequiredPackagesAcrossVersions(reqs);
    }

    /** The loop of createMetaFromPackagist over the required names: each one is built
        (or taken from the cache) as a plain package, and a supported (managed) one
        raises the metapackage's flag. */
    method RaiseFlags(m: Package, reqs: seq<string>)
      requires Faithful() && Valid()
      requires m !in repr
      modifies this, m
      ensures Valid()
      ensures m !in repr
      ensures m.Snapshot() ==
                old(m.Snapshot()).(supported := old(m.supported) || AnyOf(reqs, SupportedFlag(config)),
                                   managed := old(m.managed) || AnyOf(reqs, ManagedFlag(config)))
      ensures Keeps(old(cache), cache)
      ensures cache.Keys == old(cache).Keys + BuiltKeys(config, reqs)
      ensures fetches == old(fetches) + RequiredFetches(config, old(cache).Keys, reqs)
    {
      ghost var start := m.Snapshot();
      ghost var cache0, fetches0 := cache, fetches;
      for i := 0 to |reqs|
        invariant Valid()
        invariant m !in repr
        invariant Keeps(cache0, cache)
        invariant cache.Keys == cache0.Keys + BuiltKeys(config, reqs[..i])
        invariant fetches == fetches0 + RequiredFetches(config, cache0.Keys, reqs[..i])
        invariant m.Snapshot() ==
                    start.(supported := start.supported || AnyOf(reqs[..i], SupportedFlag(config)),
                           managed := start.managed || AnyOf(reqs[..i], ManagedFlag(config)))
      {
        ghost var before, fetched := cache, fetches;
        StepRequired(m, reqs[i]);
        AnyOfSnoc(reqs, SupportedFlag(config), i);
        AnyOfSnoc(reqs, ManagedFlag(config), i);
        KeepsTrans(cache0, before, cache);
        ghost var built := if reqs[i] in config.registry then {BasicKey(reqs[i])} else {};
        BuiltKeysSnoc(config, reqs, i);
        UnionAssoc(cache0.Keys, BuiltKeys(config, reqs[..i]), built);
        ghost var fetch := if BasicKey(reqs[i]) in before then [] else [reqs[i]];
        RequiredFetchesSnoc(config, cache0.Keys, reqs, i);
        AppendAssoc(fetches0, RequiredFetches(config, cache0.Keys, reqs[..i]), fetch);
      }
      assert reqs[..|reqs|] == reqs;
    }

    /** One pass of the loop: the required name is built (or taken from the cache) as a
        plain package, and raises the metapackage's flags when it builds. */
    method StepRequired(m: Package, require: string)
      requires Faithful() && Valid()
      requires m !in repr
      modifies this, m
      ensures Valid()
      ensures m !in repr
      ensures m.Snapshot() ==
                old(m.Snapshot()).(supported := old(m.supported) || SupportedFlag(config)(require),
                                   managed := old(m.managed) || ManagedFlag(config)(require))
      ensures Keeps(old(cache), cache)
      ensures cache.Keys == old(cache).Keys + (if require in config.registry then {BasicKey(require)} else {})
      ensures fetches == old(fetches) + (if BasicKey(require) in old(cache) then [] else [require])
    {
      var required := CreateBasicFromPackagist(require);
      if required == null {
        return;
      }
      Raise(m, required.supported, required.managed);
    }

    /** The two conditional setter calls of the loop: a flag that is not yet set is set
        when the required package has it. The package is not in the cache. */
    method Raise(m: Package, supported: bool, managed: bool)
      requires Valid()
      requires m !in repr
      modifies m
      ensures Valid()
      ensures m.Snapshot() ==
                old(m.Snapshot()).(supported := old(m.supported) || supported, managed := old(m.managed) || managed)
    {
      if !m.supported && supported {
        var self := m.SetSupported(true);
      }
      assert Valid();
      if !m.managed && managed {
        var self := m.SetManaged(true);
      }
    }

    /** $this->cache[key] = package, for a package that holds what the key stands for. */
    method Remember(key: CacheKey, p: Package)
      requires Valid() && key in expected && p.Snapshot() == expected[key]
      modifies this
      ensures Valid()
      ensures cache == old(cache)[key := p] && repr == old(repr) + {p} && fetches == old(fetches)
    {
      cache := cache[key := p];
      repr := repr + {p};
    }
  }

  /** A name is among the required names of a metapackage iff some version requires it,
      and it is listed once. */
  lemma RequiredNamesMembers(c: Config, name: string, x: string)
    requires name in c.registry
    ensures NoDuplicates(RequiredNames(c, name))
    ensures x in RequiredNames(c, name) <==> RequiredBySomeVersion(c.registry[name].packages.versions, x)
  {
    AllRequiresMembers(c.registry[name].packages.versions, x);
  }

  /** Building a metapackage fetches each of its required names at most once: exactly
      the ones without a plain package in the cache, in the order they are required. */
  lemma MetaFetchesUncachedRequired(c: Config, keys: set<CacheKey>, name: string)
    requires name in c.registry
    ensures RequiredFetches(c, keys, RequiredNames(c, name)) ==
              Filter(RequiredNames(c, name), x => BasicKey(x) !in keys)
  {
    RequiredFetchesOfDistinct(c, keys, RequiredNames(c, name));
  }

  /** A metapackage is supported (managed) iff its own versions make it so or some
      name one of its versions requires builds to a supported (managed) package. */
  lemma MetaFlags(c: Config, name: string)
    requires name in c.registry
    ensures MetaRecord(c, name).supported <==>
              (|| BasicRecord(c, name).supported
               || exists x :: RequiredBySomeVersion(c.registry[name].packages.versions, x) && SupportedFlag(c)(x))
    ensures MetaRecord(c, name).managed <==>
              (|| BasicRecord(c, name).managed
               || exists x :: RequiredBySomeVersion(c.registry[name].packages.versions, x) && ManagedFlag(c)(x))
  {
    var req := RequiredNames(c, name);
    var vs := c.registry[name].packages.versions;
    forall x ensures x in req <==> RequiredBySomeVersion(vs, x) {
      RequiredNamesMembers(c, name, x);
    }
    FlagThroughRequired(req, vs, SupportedFlag(c));
    FlagThroughRequired(req, vs, ManagedFlag(c));
  }

  /** A fold over a list of names finds a flagged name iff some name with the list's
      membership is flagged. */
  lemma FlagThroughRequired(req: seq<string>, vs: seq<VersionEntry>, flag: string -> bool)
    requires forall x :: x in req <==> RequiredBySomeVersion(vs, x)
    ensures AnyOf(req, flag) <==> exists x :: RequiredBySomeVersion(vs, x) && flag(x)
  {
    AnyOfExists(req, flag);
    if AnyOf(req, flag) {
      var i :| 0 <= i < |req| && flag(req[i]);
      assert RequiredBySomeVersion(vs, req[i]);
    }
    if exists x :: RequiredBySomeVersion(vs, x) && flag(x) {
      var x :| RequiredBySomeVersion(vs, x) && flag(x);
      assert x in req;
      var i :| 0 <= i < |req| && req[i] == x;
    }
  }

  /** Apart from the two flags and the required names, a metapackage holds what a plain
      package of the same name holds, its flags are never lower, and it records the
      names its versions require. */
  lemma MetaRecordExtendsBasic(c: Config, name: string)
    requires name in c.registry
    ensures MetaRecord(c, name).(supported := false, managed := false, required := []) ==
              BasicRecord(c, name).(supported := false, managed := false)
    ensures BasicRecord(c, name).required == []
    ensures MetaRecord(c, name).required == RequiredNames(c, name)
    ensures BasicRecord(c, name).supported ==> MetaRecord(c, name).supported
    ensures BasicRecord(c, name).managed ==> MetaRecord(c, name).managed
  {
  }
}
