/** The Indexer: collects the packages and metapackages of the catalog, lets the cache
    gate decide per language which of them changed, and pushes those to the search
    indexes in chunks. The cache pool and the search client are objects of their own. */
module CatalogIndexer {
  import opened Values
  import opened Collections
  import opened PackageModel
  import opened HashGen
  import opened Languages
  import opened PackageFactory
  import opened CacheGate

  /** A PSR-6 cache pool holding boolean items: the keys committed, the keys saved
      deferred since the last commit, and the number of commits. A deferred item is a
      hit before it is committed. */
  class CachePool {
    var saved: set<string>
    var deferred: set<string>
    var commits: nat

    constructor (saved: set<string>)
      ensures this.saved == saved && deferred == {} && commits == 0
    {
      this.saved := saved;
      deferred := {};
      commits := 0;
    }

    /** getItem(key)->isHit() */
    predicate IsHit(key: string)
      reads this
    {
      key in saved || key in deferred
    }

    /** saveDeferred of the item for key */
    method SaveDeferred(key: string)
      modifies this
      ensures deferred == old(deferred) + {key} && saved == old(saved) && commits == old(commits)
    {
      deferred := deferred + {key};
    }

    /** commit: every deferred item becomes saved. */
    method Commit()
      modifies this
      ensures saved == old(saved) + old(deferred) && deferred == {} && commits == old(commits) + 1
    {
      saved := saved + deferred;
      deferred := {};
      commits := commits + 1;
    }
  }

  /** The search service client: the indexes initialised, the indexes cleared and the
      objects pushed, each in call order. */
  class SearchClient {
    var initialised: seq<string>
    var cleared: seq<string>
    var pushes: seq<Push>

    constructor ()
      ensures initialised == [] && cleared == [] && pushes == []
    {
      initialised, cleared, pushes := [], [], [];
    }

    /** initIndex */
    method InitIndex(index: string)
      modifies this
      ensures initialised == old(initialised) + [index] && cleared == old(cleared) && pushes == old(pushes)
    {
      initialised := initialised + [index];
    }

    /** clearIndex on an index */
    method ClearIndex(index: string)
      modifies this
      ensures cleared == old(cleared) + [index] && initialised == old(initialised) && pushes == old(pushes)
    {
      cleared := cleared + [index];
    }

    /** saveObjects on an index */
    method SaveObjects(index: string, objects: seq<map<string, Value>>)
      modifies this
      ensures pushes == old(pushes) + [Push(index, objects)] && initialised == old(initialised) && cleared == old(cleared)
    {
      pushes := pushes + [Push(index, objects)];
    }
  }

  /** The index names of the languages, in order. */
  function IndexNames(langs: seq<string>): (r: seq<string>)
    ensures |r| == |langs|
    ensures forall i :: 0 <= i < |langs| ==> r[i] == IndexName(langs[i])
  {
    MapSeq(langs, IndexName)
  }

  /** The index names of one more language. */
  lemma IndexNamesSnoc(langs: seq<string>, i: int)
    requires 0 <= i < |langs|
    ensures IndexNames(langs[..i + 1]) == IndexNames(langs[..i]) + [IndexName(langs[i])]
  {
    TakeSnoc(langs, i);
    MapSeqAppend(langs[..i], [langs[i]], IndexName);
  }

  /** The names index() starts from: the one package asked for, or the bundles, modules
      and components the registry lists, first occurrence first. */
  function Requested(lists: string -> seq<string>, package: Option<string>): seq<string> {
    if package.Some? then [package.value]
    else Dedup(lists("contao-bundle") + lists("contao-module") + lists("contao-component"))
  }

  /** The registry has data for the name. */
  function HasData(c: Config): string -> bool {
    n => n in c.registry
  }

  /** A metapackage with data that requires one of the given plain packages. */
  function Qualifies(c: Config, plain: seq<string>): string -> bool {
    n => n in c.registry && exists x :: x in RequiredNames(c, n) && x in plain
  }

  /** The plain packages index() collects from the requested names. */
  function PlainNames(c: Config, names: seq<string>): seq<string> {
    Dedup(Filter(names, HasData(c)))
  }

  /** The names of the packages a run collects, in the order of the packages map:
      the plain ones, then the metapackages that require one of them. */
  function Catalog(c: Config, lists: string -> seq<string>, package: Option<string>): seq<string> {
    var plain := PlainNames(c, Requested(lists, package));
    Dedup(plain + Filter(lists("metapackage"), Qualifies(c, plain)))
  }

  /** The plain record of a name with data. */
  function BasicOf(c: Config): string -> Record {
    n => if n in c.registry then BasicRecord(c, n) else EmptyRecord
  }

  /** The metapackage record of a name with data. */
  function MetaOf(c: Config): string -> Record {
    n => if n in c.registry then MetaRecord(c, n) else EmptyRecord
  }

  /** The records after collectPackages: each name with data gets its plain record. */
  function WithBasics(recs: map<string, Record>, c: Config, names: seq<string>): map<string, Record> {
    PutWhere(recs, names, HasData(c), BasicOf(c))
  }

  /** The records after collectMetapackages: each qualifying name gets its metapackage record. */
  function WithMetas(recs: map<string, Record>, c: Config, names: seq<string>, plain: seq<string>): map<string, Record> {
    PutWhere(recs, names, Qualifies(c, plain), MetaOf(c))
  }

  /** One more name for the loop of collectPackages: the key order and the records. */
  lemma CollectStep(keys: seq<string>, recs: map<string, Record>, c: Config, names: seq<string>, i: int)
    requires NoDuplicates(keys) && 0 <= i < |names|
    ensures var before := Dedup(keys + Filter(names[..i], HasData(c)));
      Dedup(keys + Filter(names[..i + 1], HasData(c))) ==
        if names[i] in c.registry then Dedup(before + [names[i]]) else before
    ensures WithBasics(recs, c, names[..i + 1]) ==
              var r := WithBasics(recs, c, names[..i]);
              if names[i] in c.registry then r[names[i] := BasicRecord(c, names[i])] else r
  {
    var before := Filter(names[..i], HasData(c));
    TakeSnoc(names, i);
    FilterSnoc(names, HasData(c), i);
    PutWhereSnoc(recs, names, HasData(c), BasicOf(c), i);
    if names[i] in c.registry {
      DedupSnoc(keys + before, names[i]);
      AppendAssoc(keys, before, [names[i]]);
    } else {
      assert before + [] == before;
    }
  }

  /** One more name for the loop of collectMetapackages: the key order and the records. */
  lemma CollectMetaStep(keys: seq<string>, recs: map<string, Record>, c: Config, names: seq<string>,
                        plain: seq<string>, i: int)
    requires NoDuplicates(keys) && 0 <= i < |names|
    ensures var before := Dedup(keys + Filter(names[..i], Qualifies(c, plain)));
      Dedup(keys + Filter(names[..i + 1], Qualifies(c, plain))) ==
        if Qualifies(c, plain)(names[i]) then Dedup(before + [names[i]]) else before
    ensures WithMetas(recs, c, names[..i + 1], plain) ==
              var r := WithMetas(recs, c, names[..i], plain);
              if Qualifies(c, plain)(names[i]) then r[names[i] := MetaRecord(c, names[i])] else r
  {
    var before := Filter(names[..i], Qualifies(c, plain));
    TakeSnoc(names, i);
    FilterSnoc(names, Qualifies(c, plain), i);
    PutWhereSnoc(recs, names, Qualifies(c, plain), MetaOf(c), i);
    if Qualifies(c, plain)(names[i]) {
      DedupSnoc(keys + before, names[i]);
      AppendAssoc(keys, before, [names[i]]);
    } else {
      assert before + [] == before;
    }
  }

  /** What the packages of a run hold, by name. */
  function CatalogRecords(c: Config, lists: string -> seq<string>, package: Option<string>): map<string, Record> {
    var names := Requested(lists, package);
    WithMetas(WithBasics(map[], c, names), c, lists("metapackage"), PlainNames(c, names))
  }

  lemma WithBasicsMembers(recs: map<string, Record>, c: Config, names: seq<string>, n: string)
    ensures n in WithBasics(recs, c, names) <==> n in recs || (n in names && n in c.registry)
    ensures n in WithBasics(recs, c, names) ==>
              WithBasics(recs, c, names)[n] == if n in names && n in c.registry then BasicRecord(c, n) else recs[n]
  {
    PutWhereMembers(recs, names, HasData(c), BasicOf(c), n);
  }

  lemma WithMetasMembers(recs: map<string, Record>, c: Config, names: seq<string>, plain: seq<string>, n: string)
    ensures n in WithMetas(recs, c, names, plain) <==> n in recs || (n in names && Qualifies(c, plain)(n))
    ensures n in WithMetas(recs, c, names, plain) ==>
              WithMetas(recs, c, names, plain)[n] == if n in names && Qualifies(c, plain)(n) then MetaRecord(c, n) else recs[n]
  {
    PutWhereMembers(recs, names, Qualifies(c, plain), MetaOf(c), n);
  }

  /** A run holds a record for exactly the names of its catalog: the metapackage record
      for a listed metapackage that qualifies, the plain record otherwise. */
  lemma CatalogRecordsMembers(c: Config, lists: string -> seq<string>, package: Option<string>, n: string)
    ensures n in CatalogRecords(c, lists, package) <==> n in Catalog(c, lists, package)
    ensures n in CatalogRecords(c, lists, package) ==>
              n in c.registry && CatalogRecords(c, lists, package)[n] == CatalogRecord(c, lists, package, n)
  {
    var names := Requested(lists, package);
    var plain := PlainNames(c, names);
    var metas := lists("metapackage");
    WithBasicsMembers(map[], c, names, n);
    WithMetasMembers(WithBasics(map[], c, names), c, metas, plain, n);
    FilterMembers(names, HasData(c), n);
    FilterMembers(metas, Qualifies(c, plain), n);
  }

  /** What the package collected under a name holds. */
  function CatalogRecord(c: Config, lists: string -> seq<string>, package: Option<string>, n: string): Record
    requires n in c.registry
  {
    var plain := PlainNames(c, Requested(lists, package));
    if n in Filter(lists("metapackage"), Qualifies(c, plain)) then MetaRecord(c, n) else BasicRecord(c, n)
  }

  /** The catalog lists every name once; it holds exactly the requested names the
      registry has data for, and the listed metapackages with data that require one of
      those; a metapackage a metapackage requires does not bring it in. */
  lemma CatalogMembers(c: Config, lists: string -> seq<string>, package: Option<string>, n: string)
    ensures NoDuplicates(Catalog(c, lists, package))
    ensures n in Catalog(c, lists, package) <==>
              || (n in Requested(lists, package) && n in c.registry)
              || (&& n in lists("metapackage") && n in c.registry
                  && exists x :: x in RequiredNames(c, n) && x in Requested(lists, package) && x in c.registry)
  {
    var names := Requested(lists, package);
    var plain := PlainNames(c, names);
    FilterMembers(names, HasData(c), n);
    FilterMembers(lists("metapackage"), Qualifies(c, plain), n);
    forall x ensures x in plain <==> x in names && x in c.registry {
      FilterMembers(names, HasData(c), x);
    }
  }

  /** Indexing one package collects at most that package and the metapackages that
      require it. */
  lemma SinglePackageCatalog(c: Config, lists: string -> seq<string>, p: string, n: string)
    requires n in Catalog(c, lists, Some(p))
    ensures n == p || (n in lists("metapackage") && n in c.registry && p in RequiredNames(c, n))
  {
    CatalogMembers(c, lists, Some(p), n);
  }

  class Indexer {
    const factory: Factory
    const pool: CachePool
    const client: SearchClient
    /** getPackageNames of the registry, per package type */
    const lists: string -> seq<string>
    /** sha1(json_encode(...)) of the hash generator */
    const digest: seq<Value> -> string

    /** The packages map, in insertion order: each name with what its package holds. */
    var packages: OMap<Record>
    /** The indexes were initialised. */
    var indexesReady: bool

    constructor (factory: Factory, pool: CachePool, client: SearchClient,
                 lists: string -> seq<string>, digest: seq<Value> -> string)
      ensures packages.Valid()
      ensures this.factory == factory && this.pool == pool && this.client == client
      ensures this.lists == lists && this.digest == digest
      ensures packages.keys == [] && !indexesReady
    {
      this.factory := factory;
      this.pool := pool;
      this.client := client;
      this.lists := lists;
      this.digest := digest;
      packages := EmptyOMap();
      indexesReady := false;
    }

    /** index(): collect the requested packages and the metapackages that require one of
        them, then index what changed. */
    method Index(package: Option<string>, dryRun: bool, ignoreCache: bool, clearIndex: bool)
      requires factory.Faithful() && factory.Valid()
      modifies this, factory, pool, client
      ensures packages.Valid()
      ensures packages.keys == Catalog(factory.config, lists, package)
      ensures packages.vals == CatalogRecords(factory.config, lists, package)
      ensures packages.keys == [] ==> Unchanged(old(pool.saved), old(pool.deferred), old(pool.commits),
                                                 old(client.initialised), old(client.cleared), old(client.pushes),
                                                 old(indexesReady))
      ensures packages.keys != [] ==>
                Indexed(old(pool.saved), old(pool.deferred), old(pool.commits),
                        old(client.initialised), old(client.cleared), old(client.pushes),
                        old(indexesReady), dryRun, ignoreCache, clearIndex)
    {
      Collect(package);
      IndexPackages(dryRun, ignoreCache, clearIndex);
    }

    /** The first part of index(): a fresh packages map, filled by collectPackages and
        collectMetapackages. */
    method Collect(package: Option<string>)
      requires factory.Faithful() && factory.Valid()
      modifies this`packages, factory
      ensures packages.Valid() && factory.Valid()
      ensures packages.keys == Catalog(factory.config, lists, package)
      ensures packages.vals == CatalogRecords(factory.config, lists, package)
    {
      packages := EmptyOMap();
      var names := if package.Some? then [package.value]
                   else Dedup(lists("contao-bundle") + lists("contao-module") + lists("contao-component"));
      CollectPackages(names);
      assert [] + Filter(names, HasData(factory.config)) == Filter(names, HasData(factory.config));
      CollectMetapackages();
    }

    /** Nothing outside the packages map changed. */
    ghost predicate Unchanged(saved: set<string>, deferred: set<string>, commits: nat,
                              initialised: seq<string>, cleared: seq<string>, pushes: seq<Push>, ready: bool)
      reads this, pool, client
    {
      && pool.saved == saved && pool.deferred == deferred && pool.commits == commits
      && client.initialised == initialised && client.cleared == cleared && client.pushes == pushes
      && indexesReady == ready
    }

    /** What indexPackages leaves behind for the collected packages, from the state
        before it: the indexes are initialised (and cleared if asked) unless they were
        already; the keys the gates of all languages save are committed with the ones
        deferred before, in one commit; outside a dry run every queued package is pushed
        to its language's index in chunks. */
    ghost predicate Indexed(saved: set<string>, deferred: set<string>, commits: nat,
                            initialised: seq<string>, cleared: seq<string>, pushes: seq<Push>, ready: bool,
                            dryRun: bool, ignoreCache: bool, clearIndex: bool)
      reads this, pool, client
    {
      && packages.Valid()
      && indexesReady
      && client.initialised == initialised + (if ready then [] else IndexNames(LANGUAGES))
      && client.cleared == cleared + (if ready || !clearIndex then [] else IndexNames(LANGUAGES))
      && var all := GateAll(packages.keys, packages.vals, LANGUAGES, saved, deferred, ignoreCache, digest);
         && pool.saved == saved + all.deferred
         && pool.deferred == {}
         && pool.commits == commits + 1
         && client.pushes == pushes + (if dryRun then [] else PushLog(all.queues, packages.vals, LANGUAGES))
    }

    /** collectPackages: every name the factory builds a package for is added (or
        replaced, keeping its place) in the packages map. */
    method CollectPackages(names: seq<string>)
      requires packages.Valid() && factory.Faithful() && factory.Valid()
      modifies this`packages, factory
      ensures packages.Valid() && factory.Valid()
      ensures packages.keys == Dedup(old(packages.keys) + Filter(names, HasData(factory.config)))
      ensures packages.vals == WithBasics(old(packages.vals), factory.config, names)
    {
      ghost var keys0 := packages.keys;
      ghost var c := factory.config;
      assert keys0 + Filter(names[..0], HasData(c)) == keys0;
      DedupOfDistinct(keys0);
      for i := 0 to |names|
        invariant packages.Valid() && factory.Valid()
        invariant packages.keys == Dedup(keys0 + Filter(names[..i], HasData(c)))
        invariant packages.vals == WithBasics(old(packages.vals), c, names[..i])
      {
        CollectStep(keys0, old(packages.vals), c, names, i);
        CollectPackage(names[i]);
      }
      assert names[..|names|] == names;
    }

    /** One pass of the loop of collectPackages: $this->packages[$name] = $package for
        the package the factory builds, if any. */
    method CollectPackage(name: string)
      requires packages.Valid() && factory.Faithful() && factory.Valid()
      modifies this`packages, factory
      ensures packages.Valid() && factory.Valid()
      ensures name in factory.config.registry ==>
                packages == old(packages).Put(name, BasicRecord(factory.config, name))
      ensures name !in factory.config.registry ==> packages == old(packages)
    {
      var p := factory.CreateBasicFromPackagist(name);
      if p != null {
        packages := packages.Put(name, p.Snapshot());
      }
    }

    /** collectMetapackages: the names in the packages map are taken first; each listed
        metapackage the factory builds is added when it requires one of those names. */
    method CollectMetapackages()
      requires packages.Valid() && factory.Faithful() && factory.Valid()
      modifies this`packages, factory
      ensures packages.Valid() && factory.Valid()
      ensures var metas := Filter(lists("metapackage"), Qualifies(factory.config, old(packages.keys)));
        packages.keys == Dedup(old(packages.keys) + metas)
      ensures packages.vals == WithMetas(old(packages.vals), factory.config, lists("metapackage"), old(packages.keys))
    {
      var plain := packages.keys;
      var names := lists("metapackage");
      ghost var c := factory.config;
      ghost var q := Qualifies(c, plain);
      assert plain + Filter(names[..0], q) == plain;
      DedupOfDistinct(plain);
      for i := 0 to |names|
        invariant packages.Valid() && factory.Valid()
        invariant packages.keys == Dedup(plain + Filter(names[..i], q))
        invariant packages.vals == WithMetas(old(packages.vals), c, names[..i], plain)
      {
        CollectMetaStep(plain, old(packages.vals), c, names, plain, i);
        CollectMetapackage(names[i], plain);
      }
      assert names[..|names|] == names;
    }

    /** One pass of the loop of collectMetapackages. */
    method CollectMetapackage(name: string, plain: seq<string>)
      requires packages.Valid() && factory.Faithful() && factory.Valid()
      modifies this`packages, factory
      ensures packages.Valid() && factory.Valid()
      ensures Qualifies(factory.config, plain)(name) ==>
                packages == old(packages).Put(name, MetaRecord(factory.config, name))
      ensures !Qualifies(factory.config, plain)(name) ==> packages == old(packages)
    {
      var meta := FetchMetapackage(name, plain);
      if meta.Some? {
        packages := packages.Put(name, meta.value);
      }
    }

    /** One pass of the loop of collectMetapackages, up to the assignment: the
        metapackage the factory builds, when it requires one of the given names. */
    method FetchMetapackage(name: string, plain: seq<string>) returns (r: Option<Record>)
      requires factory.Faithful() && factory.Valid()
      modifies factory
      ensures factory.Valid()
      ensures Qualifies(factory.config, plain)(name) ==> r == Some(MetaRecord(factory.config, name))
      ensures !Qualifies(factory.config, plain)(name) ==> r == None
    {
      var m := factory.CreateMetaFromPackagist(name);
      if m == null {
        return None;
      }
      MetaRecordExtendsBasic(factory.config, name);
      assert m.required == RequiredNames(factory.config, name);
      if m.RequiresOneOf(plain) {
        return Some(m.Snapshot());
      }
      return None;
    }

    /** indexPackages: nothing at all for an empty packages map; otherwise initialise
        the indexes, gate every language, push the queues in chunks unless this is a dry
        run, and commit the pool, in a dry run too. */
    method IndexPackages(dryRun: bool, ignoreCache: bool, clearIndex: bool)
      requires packages.Valid()
      modifies this`indexesReady, pool, client
      ensures packages.keys == [] ==> Unchanged(old(pool.saved), old(pool.deferred), old(pool.commits),
                                                 old(client.initialised), old(client.cleared), old(client.pushes),
                                                 old(indexesReady))
      ensures packages.keys != [] ==>
                Indexed(old(pool.saved), old(pool.deferred), old(pool.commits),
                        old(client.initialised), old(client.cleared), old(client.pushes),
                        old(indexesReady), dryRun, ignoreCache, clearIndex)
    {
      if |packages.keys| == 0 {
        return;
      }
      CreateIndexes(clearIndex);
      var queues := GateLanguages(ignoreCache);
      PushAll(queues, dryRun);
      pool.Commit();
    }

    /** The first loop of indexPackages: one gate per language, in LANGUAGES order. */
    method GateLanguages(ignoreCache: bool) returns (queues: seq<seq<string>>)
      requires packages.Valid()
      modifies pool
      ensures var all := GateAll(packages.keys, packages.vals, LANGUAGES, old(pool.saved), old(pool.deferred),
                                 ignoreCache, digest);
        && queues == all.queues
        && pool.deferred == all.deferred
        && pool.saved == old(pool.saved) && pool.commits == old(pool.commits)
    {
      queues := [];
      for i := 0 to |LANGUAGES|
        invariant var all := GateAll(packages.keys, packages.vals, LANGUAGES[..i], old(pool.saved), old(pool.deferred),
                                     ignoreCache, digest);
          && queues == all.queues
          && pool.deferred == all.deferred
          && pool.saved == old(pool.saved) && pool.commits == old(pool.commits)
      {
        TakeSnoc(LANGUAGES, i);
        var q := GateLanguage(LANGUAGES[i], ignoreCache);
        queues := queues + [q];
      }
      assert LANGUAGES[..|LANGUAGES|] == LANGUAGES;
    }

    /** The inner loop of the first loop: the cache gate of one language. */
    method GateLanguage(language: string, ignoreCache: bool) returns (queue: seq<string>)
      requires packages.Valid()
      modifies pool
      ensures var g := Gate(packages.keys, packages.vals, language, old(pool.saved + pool.deferred), ignoreCache, digest);
        && queue == g.queue
        && pool.deferred == old(pool.deferred) + g.saved
        && pool.saved == old(pool.saved) && pool.commits == old(pool.commits)
    {
      ghost var visible := pool.saved + pool.deferred;
      var keys := packages.keys;
      queue := [];
      for j := 0 to |keys|
        invariant var g := Gate(keys[..j], packages.vals, language, visible, ignoreCache, digest);
          && queue == g.queue
          && pool.deferred == old(pool.deferred) + g.saved
          && pool.saved == old(pool.saved) && pool.commits == old(pool.commits)
      {
        TakeSnoc(keys, j);
        var n := keys[j];
        var key := CACHE_PREFIX + "-" + language + "-" + Hash(packages.vals[n], language, digest);
        var hit := pool.IsHit(key);
        if !ignoreCache {
          if !hit {
            pool.SaveDeferred(key);
            queue := queue + [n];
          }
        } else {
          queue := queue + [n];
        }
      }
      assert keys[..|keys|] == keys;
    }

    /** createIndexes: only when the indexes are not initialised yet, initialise the
        index of every language and clear it if asked. */
    method CreateIndexes(clearIndex: bool)
      modifies this`indexesReady, client
      ensures indexesReady
      ensures client.initialised == old(client.initialised) + (if old(indexesReady) then [] else IndexNames(LANGUAGES))
      ensures client.cleared == old(client.cleared) +
                (if old(indexesReady) || !clearIndex then [] else IndexNames(LANGUAGES))
      ensures client.pushes == old(client.pushes)
    {
      if indexesReady {
        return;
      }
      for i := 0 to |LANGUAGES|
        invariant client.initialised == old(client.initialised) + IndexNames(LANGUAGES[..i])
        invariant client.cleared == old(client.cleared) + (if clearIndex then IndexNames(LANGUAGES[..i]) else [])
        invariant client.pushes == old(client.pushes)
      {
        IndexNamesSnoc(LANGUAGES, i);
        var index := INDEX_PREFIX + LANGUAGES[i];
        client.InitIndex(index);
        AppendAssoc(old(client.initialised), IndexNames(LANGUAGES[..i]), [index]);
        if clearIndex {
          client.ClearIndex(index);
          AppendAssoc(old(client.cleared), IndexNames(LANGUAGES[..i]), [index]);
        }
      }
      assert LANGUAGES[..|LANGUAGES|] == LANGUAGES;
      indexesReady := true;
    }

    /** The second loop of indexPackages: the languages' queues in LANGUAGES order. */
    method PushAll(queues: seq<seq<string>>, dryRun: bool)
      requires |queues| == |LANGUAGES| && forall i :: 0 <= i < |queues| ==> Known(queues[i], packages.vals)
      modifies client
      ensures client.pushes == old(client.pushes) + (if dryRun then [] else PushLog(queues, packages.vals, LANGUAGES))
      ensures client.initialised == old(client.initialised) && client.cleared == old(client.cleared)
    {
      for i := 0 to |LANGUAGES|
        invariant client.pushes == old(client.pushes) +
                    (if dryRun then [] else PushLog(queues[..i], packages.vals, LANGUAGES[..i]))
        invariant client.initialised == old(client.initialised) && client.cleared == old(client.cleared)
      {
        PushLogSnoc(queues, packages.vals, LANGUAGES, i);
        PushLanguage(LANGUAGES[i], queues[i], dryRun);
        if !dryRun {
          AppendAssoc(old(client.pushes), PushLog(queues[..i], packages.vals, LANGUAGES[..i]),
                      LanguagePushes(queues[i], packages.vals, LANGUAGES[i]));
        }
      }
      assert LANGUAGES[..|LANGUAGES|] == LANGUAGES;
      assert queues[..|queues|] == queues;
    }

    /** The queue of one language in chunks of CHUNK, one saveObjects per chunk outside
        a dry run. */
    method PushLanguage(language: string, queue: seq<string>, dryRun: bool)
      requires Known(queue, packages.vals)
      modifies client
      ensures client.pushes == old(client.pushes) +
                (if dryRun then [] else LanguagePushes(queue, packages.vals, language))
      ensures client.initialised == old(client.initialised) && client.cleared == old(client.cleared)
    {
      var chunks := Chunks(queue, CHUNK);
      ChunksKnown(queue, packages.vals);
      for j := 0 to |chunks|
        invariant client.pushes == old(client.pushes) +
                    (if dryRun then [] else Batches(chunks[..j], packages.vals, language))
        invariant client.initialised == old(client.initialised) && client.cleared == old(client.cleared)
      {
        var objects := ChunkObjects(chunks[j], language);
        BatchesSnoc(chunks, packages.vals, language, j);
        if !dryRun {
          client.SaveObjects(INDEX_PREFIX + language, objects);
          AppendAssoc(old(client.pushes), Batches(chunks[..j], packages.vals, language),
                      [Push(IndexName(language), objects)]);
        }
      }
      assert chunks[..|chunks|] == chunks;
    }

    /** The getForAlgolia objects of one chunk. */
    method ChunkObjects(chunk: seq<string>, language: string) returns (objects: seq<map<string, Value>>)
      requires Known(chunk, packages.vals)
      ensures objects == Objects(chunk, packages.vals, language)
    {
      objects := [];
      for k := 0 to |chunk|
        invariant |objects| == k
        invariant forall i :: 0 <= i < k ==> objects[i] == Projection(packages.vals[chunk[i]], language)
      {
        objects := objects + [Projection(packages.vals[chunk[k]], language)];
      }
    }
  }
}
