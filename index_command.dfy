/** The older indexer (the 'index' console command): it reads the registry through a
    caching HTTP client, skips packages whose two registry documents both came from
    the cache, derives a twelve-key search object per package, and resolves the
    metapackages in waves. */
module LegacyIndexer {
  import opened Values
  import opened Collections
  import opened Registry
  import PackageFactory

  /** The object extractSearchData builds, one field per key. */
  datatype SearchData = SearchData(
    name: string,
    description: Value,      // the latest version's description, null when missing
    keywords: Value,         // the latest version's keywords, null when missing
    homepage: string,
    links: Value,            // the latest version's support links, [] when missing
    license: Value,          // the latest version's licenses, '' when missing
    downloads: int,
    stars: int,
    supported: bool,
    managed: bool,
    abandoned: bool,
    replacement: Value)      // the value of 'abandoned', '' when missing

  /** What the registry and the HTTP cache answer during one run. */
  datatype Env = Env(
    lists: string -> seq<string>,                  // packageNames of list.json?type=<type>
    packageData: string -> PackageInfo,            // 'package' of packages/<name>.json
    composerVersions: string -> seq<VersionEntry>, // packages[<name>] of p/<name>.json
    cacheable: string -> bool)                     // the cache middleware stores the response of the URL

  const PACKAGIST := "https://packagist.org/"
  const CHUNK_SIZE := 100

  function ListUrl(kind: string): string {
    PACKAGIST + "packages/list.json?type=" + kind
  }

  function PackageUrl(name: string): string {
    PACKAGIST + "packages/" + name + ".json"
  }

  function ComposerUrl(name: string): string {
    PACKAGIST + "p/" + name + ".json"
  }

  /** The page of the package on the registry, the last homepage fallback. */
  function PackagistPage(name: string): string {
    PACKAGIST + "packages/" + name
  }

  /** The URLs of different packages differ, and a package URL is never a version-list URL. */
  lemma UrlsDistinct(a: string, b: string)
    ensures a != b ==> PackageUrl(a) != PackageUrl(b) && ComposerUrl(a) != ComposerUrl(b)
    ensures PackageUrl(a) != ComposerUrl(b)
  {
    var pa, pb := PackageUrl(a), PackageUrl(b);
    var ca, cb := ComposerUrl(a), ComposerUrl(b);
    assert pa[31..|pa| - 5] == a && pb[31..|pb| - 5] == b;
    assert ca[24..|ca| - 5] == a && cb[24..|cb| - 5] == b;
    assert pa[23] == 'a' && cb[23] == '/';
  }

  /** The cache after a request: a response the middleware may store is stored. */
  function Stored(env: Env, cache: set<string>, uri: string): (r: set<string>)
    ensures uri in r <==> uri in cache || env.cacheable(uri)
    ensures forall u :: u != uri ==> (u in r <==> u in cache)
  {
    if env.cacheable(uri) then cache + {uri} else cache
  }

  /** The package array getPackage assembles: the package document with the version
      list of the second document. */
  function PackageOf(env: Env, name: string): PackageInfo {
    env.packageData(name).(versions := env.composerVersions(name))
  }

  /** The outcome of fetching a package: the package, or nothing on a double cache hit,
      and the cache afterwards. */
  datatype Fetch = Fetch(package: Option<PackageInfo>, cache: set<string>)

  /** getPackage: both documents are requested in turn; when both were served from the
      cache the package counts as unchanged and is skipped. */
  function FetchPackage(env: Env, cache: set<string>, name: string): Fetch {
    var afterFirst := Stored(env, cache, PackageUrl(name));
    var hit := PackageUrl(name) in cache && ComposerUrl(name) in afterFirst;
    Fetch(if hit then None else Some(PackageOf(env, name)), Stored(env, afterFirst, ComposerUrl(name)))
  }

  /** Both documents of the name were in the cache before the requests. */
  predicate CachedBefore(cache: set<string>, n: string) {
    PackageUrl(n) in cache && ComposerUrl(n) in cache
  }

  /** A package is skipped exactly when both documents were cached; fetching only adds
      the stored responses to the cache; a package whose documents are both stored is
      skipped when it is fetched again. */
  lemma FetchPackageSkips(env: Env, cache: set<string>, name: string)
    ensures FetchPackage(env, cache, name).package == None <==> CachedBefore(cache, name)
    ensures FetchPackage(env, cache, name).package != None ==>
              FetchPackage(env, cache, name).package == Some(PackageOf(env, name))
    ensures forall u :: u in FetchPackage(env, cache, name).cache <==>
              u in cache || (env.cacheable(u) && (u == PackageUrl(name) || u == ComposerUrl(name)))
    ensures env.cacheable(PackageUrl(name)) && env.cacheable(ComposerUrl(name)) ==>
              FetchPackage(env, FetchPackage(env, cache, name).cache, name).package == None
  {
    UrlsDistinct(name, name);
  }

  // ---------------------------------------------------------------------------
  // extractSearchData

  /** The version requires the core bundle; the type of the version plays no part. */
  predicate RequiresCoreBundle(v: VersionInfo) {
    "contao/core-bundle" in RequireKeys(v)
  }

  predicate CoreBundleRequired(vs: seq<VersionEntry>) {
    exists i :: 0 <= i < |vs| && RequiresCoreBundle(vs[i].info)
  }

  /** A present value, or null. */
  function OrNull(o: Option<string>): Value {
    if o.Some? then Str(o.value) else Null
  }

  /** The search object of a package: the display fields and managed from the last
      version (whose keys all read as missing when there is none), supported from any
      version. */
  function SearchObject(p: PackageInfo): SearchData {
    var latest := Last(p.versions).GetOr(PackageFactory.NoVersion);
    SearchData(
      name := p.name,
      description := OrNull(latest.description),
      keywords := if latest.keywords.Some? then Strs(latest.keywords.value) else Null,
      homepage := latest.homepage.GetOr(p.repository.GetOr(PackagistPage(p.name))),
      links := if latest.support.Some? then StrMap(latest.support.value) else EmptyArray,
      license := if latest.license.Some? then Strs(latest.license.value) else Str(""),
      downloads := p.downloads.GetOr(0),
      stars := p.favers.GetOr(0),
      supported := CoreBundleRequired(p.versions),
      managed := PackageFactory.ManagedVersion(latest),
      abandoned := p.abandoned.Some?,
      replacement := p.abandoned.GetOr(Str("")))
  }

  /** extractSearchData: a scan for a version requiring the core bundle that stops at
      the first, then the object. */
  method ExtractSearchData(p: PackageInfo) returns (d: SearchData)
    ensures d == SearchObject(p)
  {
    var supported := false;
    var latest := Last(p.versions).GetOr(PackageFactory.NoVersion);
    var i := 0;
    while i < |p.versions|
      invariant 0 <= i <= |p.versions|
      invariant !supported
      invariant forall j :: 0 <= j < i ==> !RequiresCoreBundle(p.versions[j].info)
    {
      if RequiresCoreBundle(p.versions[i].info) {
        supported := true;
        break;
      }
      i := i + 1;
    }
    d := SearchData(p.name, OrNull(latest.description),
                    if latest.keywords.Some? then Strs(latest.keywords.value) else Null,
                    latest.homepage.GetOr(p.repository.GetOr(PackagistPage(p.name))),
                    if latest.support.Some? then StrMap(latest.support.value) else EmptyArray,
                    if latest.license.Some? then Strs(latest.license.value) else Str(""),
                    p.downloads.GetOr(0), p.favers.GetOr(0), supported,
                    PackageFactory.ManagedVersion(latest), p.abandoned.Some?, p.abandoned.GetOr(Str("")));
  }

  /** A package without versions and without optional keys: every display field takes
      its default, the homepage is the registry page, and it counts as managed. */
  lemma SearchObjectDefaults(p: PackageInfo)
    requires p.versions == [] && p.repository == None && p.downloads == None && p.favers == None
    requires p.abandoned == None
    ensures SearchObject(p) ==
              SearchData(p.name, Null, Null, PackagistPage(p.name), EmptyArray, Str(""), 0, 0,
                         false, true, false, Str(""))
  {
  }

  /** The homepage falls back from the latest version's to the repository to the
      registry page. */
  lemma SearchObjectHomepage(p: PackageInfo)
    ensures var latest := Last(p.versions).GetOr(PackageFactory.NoVersion);
      && (latest.homepage.Some? ==> SearchObject(p).homepage == latest.homepage.value)
      && (latest.homepage.None? && p.repository.Some? ==> SearchObject(p).homepage == p.repository.value)
      && (latest.homepage.None? && p.repository.None? ==> SearchObject(p).homepage == PackagistPage(p.name))
  {
  }

  /** The command is narrower than the factory: what it calls supported the factory
      does too, and a component that does not require the core bundle is supported
      for the factory only. */
  lemma SupportNarrowerThanFactory(p: PackageInfo)
    ensures SearchObject(p).supported ==> PackageFactory.Supported(p.versions)
    ensures var component := VersionInfo(Some("contao-component"), None, false, None, None, None, None, None);
      var q := p.(versions := [VersionEntry("1.0.0", component)]);
      PackageFactory.Supported(q.versions) && !SearchObject(q).supported
  {
    if SearchObject(p).supported {
      var i :| 0 <= i < |p.versions| && RequiresCoreBundle(p.versions[i].info);
      assert PackageFactory.SupportsContao(p.versions[i].info);
    }
    var component := VersionInfo(Some("contao-component"), None, false, None, None, None, None, None);
    var q := p.(versions := [VersionEntry("1.0.0", component)]);
    assert PackageFactory.SupportsContao(q.versions[0].info);
  }

  /** managed looks at the last version only: a bundle whose earlier version declares a
      manager plugin is managed for the factory but not here. */
  lemma ManagedFromLatestOnly(p: PackageInfo)
    requires |p.versions| > 0
    ensures SearchObject(p).managed ==> PackageFactory.Managed(p.versions)
    ensures var plugin := VersionInfo(Some("contao-bundle"), None, true, None, None, None, None, None);
      var bundle := VersionInfo(Some("contao-bundle"), None, false, None, None, None, None, None);
      var q := p.(versions := [VersionEntry("1.0.0", plugin), VersionEntry("2.0.0", bundle)]);
      PackageFactory.Managed(q.versions) && !SearchObject(q).managed
  {
    var n := |p.versions| - 1;
    if SearchObject(p).managed {
      assert PackageFactory.ManagedVersion(p.versions[n].info);
    }
    var plugin := VersionInfo(Some("contao-bundle"), None, true, None, None, None, None, None);
    var bundle := VersionInfo(Some("contao-bundle"), None, false, None, None, None, None, None);
    var q := p.(versions := [VersionEntry("1.0.0", plugin), VersionEntry("2.0.0", bundle)]);
    assert PackageFactory.ManagedVersion(q.versions[0].info);
  }

  // ---------------------------------------------------------------------------
  // indexPackages

  /** One call of saveObjects for a non-empty list, none for an empty one. */
  function Pushed(objects: seq<SearchData>): seq<seq<SearchData>> {
    if |objects| == 0 then [] else [objects]
  }

  /** The objects of one chunk and the cache afterwards. */
  datatype Batch = Batch(objects: seq<SearchData>, cache: set<string>)

  /** The inner loop of indexPackages over a prefix of a chunk. */
  function Gather(env: Env, cache: set<string>, names: seq<string>): Batch
    decreases |names|
  {
    if |names| == 0 then Batch([], cache)
    else
      var b := Gather(env, cache, names[..|names| - 1]);
      var f := FetchPackage(env, b.cache, names[|names| - 1]);
      Batch(b.objects + (if f.package.Some? then [SearchObject(f.package.value)] else []), f.cache)
  }

  /** The pushes and the cache after a run. */
  datatype Run = Run(pushes: seq<seq<SearchData>>, cache: set<string>)

  /** The outer loop of indexPackages over a prefix of the chunks. */
  function IndexChunks(env: Env, cache: set<string>, chunks: seq<seq<string>>): Run
    decreases |chunks|
  {
    if |chunks| == 0 then Run([], cache)
    else
      var r := IndexChunks(env, cache, chunks[..|chunks| - 1]);
      var b := Gather(env, r.cache, chunks[|chunks| - 1]);
      Run(r.pushes + Pushed(b.objects), b.cache)
  }

  /** One more chunk of the prefix appends its push. */
  lemma IndexChunksSnoc(env: Env, cache: set<string>, chunks: seq<seq<string>>, j: int)
    requires 0 <= j < |chunks|
    ensures var r := IndexChunks(env, cache, chunks[..j]);
      var b := Gather(env, r.cache, chunks[j]);
      IndexChunks(env, cache, chunks[..j + 1]) == Run(r.pushes + Pushed(b.objects), b.cache)
  {
    TakeSnoc(chunks, j);
  }

  /** The search object of the package the registry has for the name. */
  function ObjectOf(env: Env): string -> SearchData {
    n => SearchObject(PackageOf(env, n))
  }

  /** After gathering, the cache holds what it held and the stored responses of the names. */
  lemma {:induction false} GatherCache(env: Env, cache: set<string>, names: seq<string>, u: string)
    ensures u in Gather(env, cache, names).cache <==>
              u in cache || (env.cacheable(u) && exists m :: m in names && (u == PackageUrl(m) || u == ComposerUrl(m)))
    decreases |names|
  {
    if |names| > 0 {
      var init, last := names[..|names| - 1], names[|names| - 1];
      GatherCache(env, cache, init, u);
      FetchPackageSkips(env, Gather(env, cache, init).cache, last);
      assert names == init + [last];
    }
  }

  /** Fetching other names leaves the cache state of a name's documents as it was. */
  lemma GatherKeepsOthers(env: Env, cache: set<string>, names: seq<string>, n: string)
    requires n !in names
    ensures CachedBefore(Gather(env, cache, names).cache, n) == CachedBefore(cache, n)
  {
    forall m | m in names ensures PackageUrl(n) != PackageUrl(m) && PackageUrl(n) != ComposerUrl(m)
                              && ComposerUrl(n) != PackageUrl(m) && ComposerUrl(n) != ComposerUrl(m) {
      UrlsDistinct(n, m);
      UrlsDistinct(m, n);
    }
    GatherCache(env, cache, names, PackageUrl(n));
    GatherCache(env, cache, names, ComposerUrl(n));
  }

  /** Of distinct names, a chunk yields one object per name whose two documents were
      not both cached before, in chunk order. */
  lemma {:induction false} GatherObjects(env: Env, cache: set<string>, names: seq<string>)
    requires NoDuplicates(names)
    ensures Gather(env, cache, names).objects == MapSeq(Filter(names, Missed(cache)), ObjectOf(env))
    decreases |names|
  {
    if |names| > 0 {
      var init, last := names[..|names| - 1], names[|names| - 1];
      assert NoDuplicates(init);
      GatherObjects(env, cache, init);
      var b := Gather(env, cache, init);
      GatherKeepsOthers(env, cache, init, last);
      FetchPackageSkips(env, b.cache, last);
      MapFilterLast(names, Missed(cache), ObjectOf(env));
    }
  }

  /** A name is not skipped: one of its documents was not cached. */
  function Missed(cache: set<string>): string -> bool {
    n => !CachedBefore(cache, n)
  }

  /** Every push of indexPackages has between 1 and 100 objects. */
  lemma {:induction false} IndexChunksSizes(env: Env, cache: set<string>, chunks: seq<seq<string>>)
    requires forall i :: 0 <= i < |chunks| ==> |chunks[i]| <= CHUNK_SIZE
    ensures forall i :: 0 <= i < |IndexChunks(env, cache, chunks).pushes| ==>
              0 < |IndexChunks(env, cache, chunks).pushes[i]| <= CHUNK_SIZE
    decreases |chunks|
  {
    if |chunks| > 0 {
      var init := chunks[..|chunks| - 1];
      IndexChunksSizes(env, cache, init);
      GatherSize(env, IndexChunks(env, cache, init).cache, chunks[|chunks| - 1]);
    }
  }

  /** A chunk yields at most one object per name. */
  lemma {:induction false} GatherSize(env: Env, cache: set<string>, names: seq<string>)
    ensures |Gather(env, cache, names).objects| <= |names|
    decreases |names|
  {
    if |names| > 0 {
      GatherSize(env, cache, names[..|names| - 1]);
    }
  }

  // ---------------------------------------------------------------------------
  // indexRequirements

  /** The locals of one pass of indexRequirements: the accepted objects keyed by name,
      the required list as it grows, the deferred names, and the cache. */
  datatype Pass = Pass(objects: OMap<SearchData>, required: seq<string>, children: seq<string>, cache: set<string>)

  /** A pass at its start. */
  function PassStart(required: seq<string>, cache: set<string>): (w: Pass)
    ensures w.objects.Valid()
  {
    Pass(EmptyOMap(), required, [], cache)
  }

  /** The candidate is accepted: its first version requires one of the required names. */
  predicate Accepts(reqs: seq<string>, required: seq<string>) {
    |Intersect(reqs, required)| > 0
  }

  /** The candidate is deferred: it requires another candidate of this pass, and not itself. */
  predicate Defers(reqs: seq<string>, names: seq<string>, name: string) {
    var sub := Intersect(reqs, names);
    |sub| > 0 && name !in sub
  }

  /** One candidate of the loop: skipped, dropped without a 'require' in its first
      version, accepted (the object is stored and the name appended to the required
      list at once), deferred, or dropped. */
  function Step(env: Env, w: Pass, names: seq<string>, name: string): (r: Pass)
    requires w.objects.Valid()
    ensures r.objects.Valid()
  {
    var f := FetchPackage(env, w.cache, name);
    if f.package.None? then w.(cache := f.cache)
    else
      var version := First(f.package.value.versions);
      if version.None? || version.value.require.None? then w.(cache := f.cache)
      else
        var reqs := version.value.require.value;
        if Accepts(reqs, w.required) then
          Pass(w.objects.Put(name, SearchObject(f.package.value)), w.required + [name], w.children, f.cache)
        else if Defers(reqs, names, name) then w.(children := w.children + [name], cache := f.cache)
        else w.(cache := f.cache)
  }

  /** The loop of indexRequirements over a prefix of the candidates. */
  function Scan(env: Env, w: Pass, names: seq<string>, prefix: seq<string>): (r: Pass)
    requires w.objects.Valid()
    ensures r.objects.Valid()
    decreases |prefix|
  {
    if |prefix| == 0 then w
    else Step(env, Scan(env, w, names, prefix[..|prefix| - 1]), names, prefix[|prefix| - 1])
  }

  /** The first version's 'require' keys of the package the registry has for the name,
      if the version list and the key are there. */
  function FirstRequires(env: Env, name: string): Option<seq<string>> {
    var version := First(PackageOf(env, name).versions);
    if version.None? || version.value.require.None? then None else version.value.require
  }

  /** What one candidate does to the locals, case by case. */
  lemma StepCases(env: Env, w: Pass, names: seq<string>, name: string)
    requires w.objects.Valid()
    ensures var r := Step(env, w, names, name);
      var f := FetchPackage(env, w.cache, name);
      var reqs := FirstRequires(env, name);
      && r.cache == f.cache
      && (f.package.None? || reqs.None? ==> r.objects == w.objects && r.required == w.required && r.children == w.children)
      && (f.package.Some? && reqs.Some? && Accepts(reqs.value, w.required) ==>
            && r.objects == w.objects.Put(name, ObjectOf(env)(name))
            && r.required == w.required + [name] && r.children == w.children)
      && (f.package.Some? && reqs.Some? && !Accepts(reqs.value, w.required) ==>
            && r.objects == w.objects && r.required == w.required
            && r.children == w.children + (if Defers(reqs.value, names, name) then [name] else []))
  {
    FetchPackageSkips(env, w.cache, name);
  }

  /** One candidate appends at most itself, to the required list or to the deferred ones. */
  lemma StepShape(env: Env, w: Pass, names: seq<string>, name: string)
    requires w.objects.Valid()
    ensures var r := Step(env, w, names, name);
      || (r.required == w.required && r.children == w.children)
      || (r.required == w.required + [name] && r.children == w.children)
      || (r.required == w.required && r.children == w.children + [name])
  {
    StepCases(env, w, names, name);
  }

  /** A pass only appends to the required list, and keeps at most one deferred or
      accepted name per candidate, all of them candidates. */
  lemma {:induction false} ScanBounds(env: Env, w: Pass, names: seq<string>, prefix: seq<string>)
    requires w.objects.Valid()
    ensures var r := Scan(env, w, names, prefix);
      && w.required <= r.required
      && |r.children| + |r.required| <= |w.children| + |w.required| + |prefix|
      && (forall n :: n in r.children ==> n in w.children || n in prefix)
      && (forall n :: n in r.required ==> n in w.required || n in prefix)
    decreases |prefix|
  {
    if |prefix| > 0 {
      var init := prefix[..|prefix| - 1];
      ScanBounds(env, w, names, init);
      StepShape(env, Scan(env, w, names, init), names, prefix[|prefix| - 1]);
    }
  }

  /** One pass of indexRequirements from its start. */
  function Wave(env: Env, cache: set<string>, names: seq<string>, required: seq<string>): (r: Pass)
    ensures r.objects.Valid()
    ensures required <= r.required
    ensures |r.children| + |r.required| <= |required| + |names|
    ensures forall n :: n in r.children ==> n in names
  {
    ScanBounds(env, PassStart(required, cache), names, names);
    Scan(env, PassStart(required, cache), names, names)
  }

  /** indexRequirements as written, given fuel for the recursion: None when the fuel
      runs out. It recurses whenever some candidate was deferred. */
  function Requirements(env: Env, cache: set<string>, names: seq<string>, required: seq<string>, fuel: nat): Option<Run>
    decreases fuel
  {
    if fuel == 0 then None
    else
      var w := Wave(env, cache, names, required);
      var pushed := Pushed(w.objects.Values());
      if |w.children| == 0 then Some(Run(pushed, w.cache))
      else
        var rest := Requirements(env, w.cache, w.children, w.required, fuel - 1);
        if rest.None? then None else Some(Run(pushed + rest.value.pushes, rest.value.cache))
  }

  /** Two metapackages that require only each other, with responses the cache never
      stores: every pass defers both and accepts nothing, so the recursion never ends. */
  lemma MutualRequirementNeverEnds(env: Env, a: string, b: string, required: seq<string>, fuel: nat)
    requires a != b && a !in required && b !in required
    requires forall u :: !env.cacheable(u)
    requires FirstRequires(env, a) == Some([b]) && FirstRequires(env, b) == Some([a])
    ensures Requirements(env, {}, [a, b], required, fuel) == None
    decreases fuel
  {
    if fuel > 0 {
      var names := [a, b];
      var w0 := PassStart(required, {});
      FetchPackageSkips(env, {}, a);
      StepCases(env, w0, names, a);
      var w1 := Step(env, w0, names, a);
      assert Intersect([b], required) == [] && Intersect([b], names) == [b];
      assert w1 == w0.(children := [a]);
      FetchPackageSkips(env, {}, b);
      StepCases(env, w1, names, b);
      assert Intersect([a], required) == [] && Intersect([a], names) == [a];
      assert [a, b][..1] == [a] && [a][..0] == [];
      assert Scan(env, w0, names, [a]) == w1;
      assert Scan(env, w0, names, names) == Step(env, w1, names, b);
      assert Wave(env, {}, names, required) == Pass(EmptyOMap(), required, [a, b], {});
      MutualRequirementNeverEnds(env, a, b, required, fuel - 1);
    }
  }

  /** indexRequirements corrected: it recurses only when the pass accepted a candidate,
      since a pass that accepts nothing leaves the required list as it was and no
      deferred candidate can then be accepted. */
  function Resolve(env: Env, cache: set<string>, names: seq<string>, required: seq<string>): Run
    decreases |names|
  {
    var w := Wave(env, cache, names, required);
    var pushed := Pushed(w.objects.Values());
    if |w.children| == 0 || |w.required| == |required| then Run(pushed, w.cache)
    else
      var rest := Resolve(env, w.cache, w.children, w.required);
      Run(pushed + rest.pushes, rest.cache)
  }

  /** No candidate accepts the required list. */
  predicate NoneAccepted(env: Env, names: seq<string>, required: seq<string>) {
    forall n :: n in names && FirstRequires(env, n).Some? ==> !Accepts(FirstRequires(env, n).value, required)
  }

  /** A pass over candidates none of which accepts the required list accepts nothing. */
  lemma {:induction false} ScanRejecting(env: Env, w: Pass, names: seq<string>, prefix: seq<string>)
    requires w.objects.Valid()
    requires NoneAccepted(env, prefix, w.required)
    ensures Scan(env, w, names, prefix).objects == w.objects
    ensures Scan(env, w, names, prefix).required == w.required
    decreases |prefix|
  {
    if |prefix| > 0 {
      var init := prefix[..|prefix| - 1];
      assert NoneAccepted(env, init, w.required);
      ScanRejecting(env, w, names, init);
      StepCases(env, Scan(env, w, names, init), names, prefix[|prefix| - 1]);
    }
  }

  /** When a pass leaves the required list as it was, none of its deferred candidates
      accepts it. */
  lemma {:induction false} ScanDeferredRejected(env: Env, w: Pass, names: seq<string>, prefix: seq<string>)
    requires w.objects.Valid()
    requires NoneAccepted(env, w.children, w.required)
    requires Scan(env, w, names, prefix).required == w.required
    ensures NoneAccepted(env, Scan(env, w, names, prefix).children, w.required)
    decreases |prefix|
  {
    if |prefix| > 0 {
      var init, last := prefix[..|prefix| - 1], prefix[|prefix| - 1];
      var s := Scan(env, w, names, init);
      ScanBounds(env, w, names, init);
      StepCases(env, s, names, last);
      FetchPackageSkips(env, s.cache, last);
      ScanDeferredRejected(env, w, names, init);
    }
  }

  /** When a pass accepts nothing, the as-written recursion pushes nothing more,
      however long it runs. */
  lemma {:induction false} RequirementsAfterStall(env: Env, cache: set<string>, names: seq<string>,
                                                  required: seq<string>, fuel: nat)
    requires NoneAccepted(env, names, required)
    ensures Requirements(env, cache, names, required, fuel).Some? ==>
              Requirements(env, cache, names, required, fuel).value.pushes == []
    decreases fuel
  {
    if fuel > 0 {
      var w := Wave(env, cache, names, required);
      ScanRejecting(env, PassStart(required, cache), names, names);
      ScanDeferredRejected(env, PassStart(required, cache), names, names);
      RequirementsAfterStall(env, w.cache, w.children, w.required, fuel - 1);
    }
  }

  /** Whenever the code as written finishes, the corrected recursion pushes the same
      objects in the same order. */
  lemma {:induction false} ResolveAgrees(env: Env, cache: set<string>, names: seq<string>,
                                         required: seq<string>, fuel: nat)
    requires Requirements(env, cache, names, required, fuel).Some?
    ensures Requirements(env, cache, names, required, fuel).value.pushes == Resolve(env, cache, names, required).pushes
    decreases fuel
  {
    var w := Wave(env, cache, names, required);
    if |w.children| != 0 {
      if |w.required| == |required| {
        assert w.required == required;
        ScanDeferredRejected(env, PassStart(required, cache), names, names);
        RequirementsAfterStall(env, w.cache, w.children, w.required, fuel - 1);
      } else {
        ResolveAgrees(env, w.cache, w.children, w.required, fuel - 1);
      }
    }
  }

  /** A package accepted in a pass is seen by the later candidates of the same pass: a
      metapackage requiring one that was just accepted is accepted too. */
  lemma AcceptedFeedsLaterCandidates(env: Env, cache: set<string>, a: string, b: string, x: string,
                                     required: seq<string>)
    requires a != b && x in required
    requires !CachedBefore(cache, a) && !CachedBefore(cache, b)
    requires FirstRequires(env, a) == Some([x]) && FirstRequires(env, b) == Some([a])
    ensures Wave(env, cache, [a, b], required).required == required + [a] + [b]
  {
    var names := [a, b];
    var w0 := PassStart(required, cache);
    assert x in Intersect([x], required);
    StepAccepts(env, w0, names, a);
    var w1 := Step(env, w0, names, a);
    FetchKeepsOthers(env, cache, a, b);
    assert a in Intersect([a], w1.required);
    StepAccepts(env, w1, names, b);
    assert [a, b][..1] == [a] && [a][..0] == [];
    assert Scan(env, w0, names, [a]) == w1;
  }

  /** A candidate fetched fresh whose first version requires a required name is accepted. */
  lemma StepAccepts(env: Env, w: Pass, names: seq<string>, name: string)
    requires w.objects.Valid() && !CachedBefore(w.cache, name)
    requires FirstRequires(env, name).Some? && Accepts(FirstRequires(env, name).value, w.required)
    ensures Step(env, w, names, name).required == w.required + [name]
    ensures Step(env, w, names, name).cache == FetchPackage(env, w.cache, name).cache
  {
    FetchPackageSkips(env, w.cache, name);
    StepCases(env, w, names, name);
  }

  /** Fetching one package leaves the cache state of another one's documents as it was. */
  lemma FetchKeepsOthers(env: Env, cache: set<string>, a: string, b: string)
    requires a != b
    ensures CachedBefore(FetchPackage(env, cache, a).cache, b) == CachedBefore(cache, b)
  {
    UrlsDistinct(a, b);
    UrlsDistinct(b, a);
    FetchPackageSkips(env, cache, a);
  }

  /** When every response is stored, a deferred candidate is fetched again in the next
      pass, both documents now come from the cache, and it is skipped: the next pass
      pushes nothing. */
  lemma DeferredSkippedWhenCached(env: Env, cache: set<string>, names: seq<string>, required: seq<string>)
    requires forall u :: env.cacheable(u)
    ensures var w := Wave(env, cache, names, required);
      forall n :: n in w.children ==> CachedBefore(w.cache, n)
  {
    var w := Wave(env, cache, names, required);
    forall n | n in w.children ensures CachedBefore(w.cache, n) {
      ScanCaches(env, PassStart(required, cache), names, names, n);
    }
  }

  /** After a pass, the cache holds every document of the candidates it fetched when
      every response is stored. */
  lemma {:induction false} ScanCaches(env: Env, w: Pass, names: seq<string>, prefix: seq<string>, n: string)
    requires w.objects.Valid()
    requires forall u :: env.cacheable(u)
    requires n in prefix || CachedBefore(w.cache, n)
    ensures CachedBefore(Scan(env, w, names, prefix).cache, n)
    decreases |prefix|
  {
    if |prefix| > 0 {
      var init, last := prefix[..|prefix| - 1], prefix[|prefix| - 1];
      var s := Scan(env, w, names, init);
      if n != last {
        assert n in init || CachedBefore(w.cache, n);
        ScanCaches(env, w, names, init, n);
      }
      StepCases(env, s, names, last);
      FetchPackageSkips(env, s.cache, last);
    }
  }

  /** A pass over candidates all of whose documents are cached skips every one of them. */
  lemma {:induction false} ScanAllCached(env: Env, w: Pass, names: seq<string>, prefix: seq<string>)
    requires w.objects.Valid()
    requires forall n :: n in prefix ==> CachedBefore(w.cache, n)
    ensures Scan(env, w, names, prefix).objects == w.objects
    ensures Scan(env, w, names, prefix).children == w.children
    ensures Scan(env, w, names, prefix).cache == w.cache
    decreases |prefix|
  {
    if |prefix| > 0 {
      var init := prefix[..|prefix| - 1];
      ScanAllCached(env, w, names, init);
      StepCases(env, Scan(env, w, names, init), names, prefix[|prefix| - 1]);
      FetchPackageSkips(env, w.cache, prefix[|prefix| - 1]);
    }
  }

  /** So with every response stored, the second pass pushes nothing and ends the recursion. */
  lemma SecondPassEmptyWhenCached(env: Env, cache: set<string>, names: seq<string>, required: seq<string>)
    requires forall u :: env.cacheable(u)
    ensures var w := Wave(env, cache, names, required);
      var second := Wave(env, w.cache, w.children, w.required);
      second.objects.keys == [] && second.children == []
  {
    var w := Wave(env, cache, names, required);
    DeferredSkippedWhenCached(env, cache, names, required);
    ScanAllCached(env, PassStart(w.required, w.cache), w.children, w.children);
  }

  // ---------------------------------------------------------------------------
  // execute

  /** The candidates of execute: bundles and modules, each name once. */
  function Candidates(env: Env): seq<string> {
    Dedup(env.lists("contao-bundle") + env.lists("contao-module"))
  }

  /** What a whole run pushes: the three list documents are requested first, then the
      packages in chunks, then the metapackages in passes. */
  function ExecuteRun(env: Env, cache: set<string>): Run {
    var c1 := Stored(env, Stored(env, cache, ListUrl("contao-bundle")), ListUrl("contao-module"));
    var packages := IndexChunks(env, c1, Chunks(Candidates(env), CHUNK_SIZE));
    var c2 := Stored(env, packages.cache, ListUrl("metapackage"));
    var metas := Resolve(env, c2, env.lists("metapackage"), Candidates(env));
    Run(packages.pushes + metas.pushes, metas.cache)
  }

  /** The candidates are the bundles and modules, each once; the metapackages start
      from them as the required list. */
  lemma CandidatesAreUnion(env: Env, n: string)
    ensures NoDuplicates(Candidates(env))
    ensures n in Candidates(env) <==> n in env.lists("contao-bundle") || n in env.lists("contao-module")
  {
  }

  /** The command: the HTTP cache it reads through, the objects it has pushed, and
      whether it has opened the search index. */
  class IndexCommand {
    const env: Env
    var cache: set<string>
    var pushes: seq<seq<SearchData>>
    var indexReady: bool

    constructor (env: Env, stored: set<string>)
      ensures this.env == env && cache == stored && pushes == [] && !indexReady
    {
      this.env := env;
      cache := stored;
      pushes := [];
      indexReady := false;
    }

    /** getJson: a request through the caching client; tells whether the response came
        from the cache. The decoded document is what the environment holds for the URL. */
    method GetJson(uri: string) returns (hit: bool)
      modifies this`cache
      ensures hit == (uri in old(cache))
      ensures cache == Stored(env, old(cache), uri)
    {
      hit := uri in cache;
      if env.cacheable(uri) {
        cache := cache + {uri};
      }
    }

    method GetPackageNames(kind: string) returns (names: seq<string>)
      modifies this`cache
      ensures names == env.lists(kind)
      ensures cache == Stored(env, old(cache), ListUrl(kind))
    {
      var _ := GetJson(ListUrl(kind));
      names := env.lists(kind);
    }

    method GetPackage(name: string) returns (package: Option<PackageInfo>)
      modifies this`cache
      ensures Fetch(package, cache) == FetchPackage(env, old(cache), name)
    {
      var packageCache := GetJson(PackageUrl(name));
      var composerCache := GetJson(ComposerUrl(name));
      if packageCache && composerCache {
        return None;
      }
      package := Some(PackageOf(env, name));
    }

    /** index: nothing for an empty list; otherwise open the index once and push. */
    method Index(objects: seq<SearchData>)
      modifies this`pushes, this`indexReady
      ensures pushes == old(pushes) + Pushed(objects)
      ensures indexReady == (old(indexReady) || |objects| > 0)
    {
      if |objects| == 0 {
        return;
      }
      indexReady := true;
      pushes := pushes + [objects];
    }

    /** The inner loop of indexPackages for one chunk. */
    method GatherChunk(chunk: seq<string>) returns (objects: seq<SearchData>)
      modifies this`cache
      ensures Batch(objects, cache) == Gather(env, old(cache), chunk)
    {
      objects := [];
      for i := 0 to |chunk|
        invariant Batch(objects, cache) == Gather(env, old(cache), chunk[..i])
      {
        TakeSnoc(chunk, i);
        var package := GetPackage(chunk[i]);
        if package.Some? {
          var data := ExtractSearchData(package.value);
          objects := objects + [data];
        }
      }
      assert chunk[..|chunk|] == chunk;
    }

    method IndexPackages(names: seq<string>)
      modifies this`cache, this`pushes, this`indexReady
      ensures var r := IndexChunks(env, old(cache), Chunks(names, CHUNK_SIZE));
        pushes == old(pushes) + r.pushes && cache == r.cache
      ensures indexReady == (old(indexReady) || |pushes| > |old(pushes)|)
    {
      var chunks := Chunks(names, CHUNK_SIZE);
      for j := 0 to |chunks|
        invariant var r := IndexChunks(env, old(cache), chunks[..j]);
          pushes == old(pushes) + r.pushes && cache == r.cache
        invariant indexReady == (old(indexReady) || |pushes| > |old(pushes)|)
      {
        IndexChunksSnoc(env, old(cache), chunks, j);
        var objects := GatherChunk(chunks[j]);
        Index(objects);
        AppendAssoc(old(pushes), IndexChunks(env, old(cache), chunks[..j]).pushes, Pushed(objects));
      }
      assert chunks[..|chunks|] == chunks;
    }

    /** One candidate of indexRequirements, on the locals of the pass. */
    method RequirementStep(w: Pass, names: seq<string>, name: string) returns (r: Pass)
      requires w.objects.Valid() && w.cache == cache
      modifies this`cache
      ensures r == Step(env, w, names, name) && cache == r.cache
    {
      var package := GetPackage(name);
      if package.None? {
        return w.(cache := cache);
      }
      var version := First(package.value.versions);
      if version.None? || version.value.require.None? {
        return w.(cache := cache);
      }
      var reqs := version.value.require.value;
      if |Intersect(reqs, w.required)| > 0 {
        var data := ExtractSearchData(package.value);
        return Pass(w.objects.Put(name, data), w.required + [name], w.children, cache);
      }
      var sub := Intersect(reqs, names);
      if |sub| > 0 && name !in sub {
        return w.(children := w.children + [name], cache := cache);
      }
      return w.(cache := cache);
    }

    /** indexRequirements, corrected to recurse only after a pass that accepted a
        candidate. */
    method IndexRequirements(names: seq<string>, required: seq<string>)
      modifies this`cache, this`pushes, this`indexReady
      ensures var r := Resolve(env, old(cache), names, required);
        pushes == old(pushes) + r.pushes && cache == r.cache
      ensures indexReady == (old(indexReady) || |pushes| > |old(pushes)|)
      decreases |names|
    {
      var w := PassStart(required, cache);
      ghost var start := w;
      for i := 0 to |names|
        invariant w.objects.Valid() && w.cache == cache
        invariant w == Scan(env, start, names, names[..i])
        invariant pushes == old(pushes) && indexReady == old(indexReady)
      {
        TakeSnoc(names, i);
        w := RequirementStep(w, names, names[i]);
      }
      assert names[..|names|] == names;
      assert w == Wave(env, start.cache, names, required);
      ghost var whole := Resolve(env, start.cache, names, required);
      Index(w.objects.Values());
      if |w.children| != 0 && |w.required| != |required| {
        var rest := Resolve(env, w.cache, w.children, w.required);
        assert whole == Run(Pushed(w.objects.Values()) + rest.pushes, rest.cache);
        IndexRequirements(w.children, w.required);
        AppendAssoc(old(pushes), Pushed(w.objects.Values()), rest.pushes);
      } else {
        assert whole == Run(Pushed(w.objects.Values()), w.cache);
      }
    }

    method IndexMetapackages(packages: seq<string>)
      modifies this`cache, this`pushes, this`indexReady
      ensures var r := Resolve(env, Stored(env, old(cache), ListUrl("metapackage")), env.lists("metapackage"), packages);
        pushes == old(pushes) + r.pushes && cache == r.cache
      ensures indexReady == (old(indexReady) || |pushes| > |old(pushes)|)
    {
      var names := GetPackageNames("metapackage");
      IndexRequirements(names, packages);
    }

    /** execute: the bundles and modules, each once, are indexed in chunks; then the
        metapackages that require them, pass by pass. */
    method Execute()
      modifies this`cache, this`pushes, this`indexReady
      ensures var r := ExecuteRun(env, old(cache));
        pushes == old(pushes) + r.pushes && cache == r.cache
      ensures indexReady == (old(indexReady) || |pushes| > |old(pushes)|)
    {
      var bundles := GetPackageNames("contao-bundle");
      var modules := GetPackageNames("contao-module");
      var packages := Dedup(bundles + modules);
      IndexPackages(packages);
      ghost var first := pushes[|old(pushes)|..];
      assert pushes == old(pushes) + first;
      IndexMetapackages(packages);
      AppendAssoc(old(pushes), first, pushes[|old(pushes)| + |first|..]);
    }
  }
}
