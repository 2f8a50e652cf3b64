/** PackageHashGenerator: the content hash that decides whether a package's object
    for a language must be pushed again. sha1(json_encode(...)) is a parameter. */
module HashGen {
  import opened Values
  import opened PackageModel

  /** getHashRelevantInfo: thirteen entries, in this order. */
  function HashRelevantInfo(r: Record, language: string): (info: seq<Value>)
    ensures |info| == 13
  {
    [ Str(r.name),
      Str(r.description),
      Strs(r.keywords),
      Str(r.homepage),
      StrMap(r.support),
      Strs(r.versions),
      Strs(r.license),
      Bool(r.supported),
      Bool(r.managed),
      Bool(r.abandoned),
      Str(r.replacement),
      Str(r.logo),
      Dict(MetaForLanguage(r.meta, language)) ]
  }

  /** getHash: the digest of the hash-relevant entries. */
  function Hash(r: Record, language: string, digest: seq<Value> -> string): string {
    digest(HashRelevantInfo(r, language))
  }

  /** The fields the hash looks at: all of them but the title, the downloads, the
      stars and the overrides of other languages. */
  predicate SameHashRelevantFields(r1: Record, r2: Record, language: string) {
    && r1.name == r2.name
    && r1.description == r2.description
    && r1.keywords == r2.keywords
    && r1.homepage == r2.homepage
    && r1.support == r2.support
    && r1.versions == r2.versions
    && r1.license == r2.license
    && r1.supported == r2.supported
    && r1.managed == r2.managed
    && r1.abandoned == r2.abandoned
    && r1.replacement == r2.replacement
    && r1.logo == r2.logo
    && MetaForLanguage(r1.meta, language) == MetaForLanguage(r2.meta, language)
  }

  lemma {:induction false} StrsInjective(a: seq<string>, b: seq<string>)
    requires Strs(a) == Strs(b)
    ensures a == b
  {
    assert |a| == |b|;
    forall i | 0 <= i < |a| ensures a[i] == b[i] {
      assert Strs(a).items[i] == Str(a[i]) && Strs(b).items[i] == Str(b[i]);
    }
  }

  lemma {:induction false} StrMapInjective(a: map<string, string>, b: map<string, string>)
    requires StrMap(a) == StrMap(b)
    ensures a == b
  {
    assert a.Keys == b.Keys;
    forall k | k in a ensures a[k] == b[k] {
      assert StrMap(a).entries[k] == Str(a[k]) && StrMap(b).entries[k] == Str(b[k]);
    }
  }

  /** The hash-relevant entries of two records coincide exactly when the records agree
      on the fields listed in SameHashRelevantFields: every one of them reaches the
      hash, and nothing else does. */
  lemma HashInfoDeterminesFields(r1: Record, r2: Record, language: string)
    ensures (HashRelevantInfo(r1, language) == HashRelevantInfo(r2, language)) <==>
              SameHashRelevantFields(r1, r2, language)
  {
    var i1, i2 := HashRelevantInfo(r1, language), HashRelevantInfo(r2, language);
    if i1 == i2 {
      assert i1[2] == i2[2] && i1[4] == i2[4] && i1[5] == i2[5] && i1[6] == i2[6];
      StrsInjective(r1.keywords, r2.keywords);
      StrMapInjective(r1.support, r2.support);
      StrsInjective(r1.versions, r2.versions);
      StrsInjective(r1.license, r2.license);
      assert i1[12] == i2[12];
    }
  }

  /** Equal hash-relevant fields give equal hashes, whatever the digest. */
  lemma HashDependsOnlyOnRelevantFields(r1: Record, r2: Record, language: string, digest: seq<Value> -> string)
    requires SameHashRelevantFields(r1, r2, language)
    ensures Hash(r1, language, digest) == Hash(r2, language, digest)
  {
    HashInfoDeterminesFields(r1, r2, language);
  }

  /** The language reaches the hash only through its overrides: a package without
      overrides for two languages (no entry, or an empty one) has the same hash for both. */
  lemma HashSameWithoutOverrides(r: Record, l1: string, l2: string, digest: seq<Value> -> string)
    requires MetaForLanguage(r.meta, l1) == map[] && MetaForLanguage(r.meta, l2) == map[]
    ensures Hash(r, l1, digest) == Hash(r, l2, digest)
  {
  }

  /** A change of the download or star count alone does not change the hash, so the
      cache does not ask for the object to be pushed again. */
  lemma PopularityChangeKeepsHash(r: Record, language: string, downloads: int, stars: int, digest: seq<Value> -> string)
    ensures Hash(r.(downloads := downloads, stars := stars), language, digest) == Hash(r, language, digest)
  {
    HashDependsOnlyOnRelevantFields(r, r.(downloads := downloads, stars := stars), language, digest);
  }

  /** ... although the pushed object changes with the download count, unless an
      override for the language replaces it. */
  lemma PopularityChangeChangesObject(r: Record, language: string, downloads: int, stars: int)
    requires "downloads" !in MetaForLanguage(r.meta, language)
    requires downloads != r.downloads
    ensures Projection(r.(downloads := downloads, stars := stars), language) != Projection(r, language)
  {
    var r2 := r.(downloads := downloads, stars := stars);
    ProjectionOverrides(r, language, "downloads");
    ProjectionOverrides(r2, language, "downloads");
    assert Projection(r2, language)["downloads"] == Int(downloads);
  }
}
