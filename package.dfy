/** The package entity (Package, with the extension MetaPackage adds) and the
    per-language search object a package is projected to. */
module PackageModel {
  import opened Values
  import opened Collections

  /** The state of a Package object, field by field; the last field is the one a
      MetaPackage adds (the names it requires across its versions, [] for a plain package). */
  datatype Record = Record(
    name: string,
    title: string,
    description: string,
    keywords: seq<string>,
    homepage: string,
    support: map<string, string>,
    versions: seq<string>,
    license: seq<string>,
    downloads: int,
    stars: int,
    supported: bool,
    managed: bool,
    abandoned: bool,
    replacement: string,
    logo: string,
    meta: map<string, map<string, Value>>,
    required: seq<string>)

  /** The fourteen keys of every search object. */
  const BASE_KEYS: set<string> := {
    "name", "title", "description", "keywords", "homepage", "support", "license",
    "downloads", "stars", "supported", "managed", "abandoned", "replacement", "logo"}

  /** getMetaForLanguage: the overrides stored for the language, or none. */
  function MetaForLanguage(meta: map<string, map<string, Value>>, language: string): (r: map<string, Value>)
    ensures language in meta ==> r == meta[language]
    ensures language !in meta ==> r == map[]
  {
    if language in meta then meta[language] else map[]
  }

  /** The object getForAlgolia starts from: the record's public fields, with the
      package name also as the title. */
  function Base(r: Record): (b: map<string, Value>)
    ensures b.Keys == BASE_KEYS
  {
    map[
      "name" := Str(r.name),
      "title" := Str(r.name),
      "description" := Str(r.description),
      "keywords" := Strs(r.keywords),
      "homepage" := Str(r.homepage),
      "support" := StrMap(r.support),
      "license" := Strs(r.license),
      "downloads" := Int(r.downloads),
      "stars" := Int(r.stars),
      "supported" := Bool(r.supported),
      "managed" := Bool(r.managed),
      "abandoned" := Bool(r.abandoned),
      "replacement" := Str(r.replacement),
      "logo" := Str(r.logo)]
  }

  /** Every key the base object has is overwritten by the override for it, if any. */
  function Overlay(base: map<string, Value>, overrides: map<string, Value>): map<string, Value> {
    map k | k in base :: if k in overrides then overrides[k] else base[k]
  }

  /** No overrides leave the object as it is. */
  lemma OverlayNothing(base: map<string, Value>)
    ensures Overlay(base, map[]) == base
  {
  }

  /** The search object of a package for one language. */
  function Projection(r: Record, language: string): map<string, Value> {
    Overlay(Base(r), MetaForLanguage(r.meta, language))
  }

  /** The projection always has exactly the fourteen base keys. */
  lemma ProjectionKeys(r: Record, language: string)
    ensures Projection(r, language).Keys == BASE_KEYS
  {
  }

  /** Without overrides for the language the projection is the base object, whose
      title is the package name and not the stored title. */
  lemma ProjectionWithoutMeta(r: Record, language: string)
    requires language !in r.meta || r.meta[language] == map[]
    ensures Projection(r, language) == Base(r)
    ensures Projection(r, language)["title"] == Str(r.name)
  {
    OverlayNothing(Base(r));
  }

  /** An override for a base key replaces the whole value (no nested merge), whatever
      the key; an override for any other key is dropped; other keys keep the base value. */
  lemma ProjectionOverrides(r: Record, language: string, k: string)
    ensures var m := MetaForLanguage(r.meta, language);
            k in m && k in BASE_KEYS ==> Projection(r, language)[k] == m[k]
    ensures k !in BASE_KEYS ==> k !in Projection(r, language)
    ensures var m := MetaForLanguage(r.meta, language);
            k !in m && k in BASE_KEYS ==> Projection(r, language)[k] == Base(r)[k]
  {
  }

  /** The versions, the stored title, the required names and the overrides of other
      languages never reach the projection. */
  lemma ProjectionIgnoresInternalFields(r1: Record, r2: Record, language: string)
    requires r2 == r1.(versions := r2.versions, title := r2.title, meta := r2.meta, required := r2.required)
    requires MetaForLanguage(r1.meta, language) == MetaForLanguage(r2.meta, language)
    ensures Projection(r1, language) == Projection(r2, language)
  {
  }

  /** The record a new Package holds: logo '', no metadata and no required names. The
      source leaves the other fields unset until the factory's setters run; here they
      start empty. */
  const EmptyRecord: Record :=
    Record("", "", "", [], "", map[], [], [], 0, 0, false, false, false, "", "", map[], [])

  /** Package and its subclass MetaPackage as one class: the subclass's extra field and
      its two methods are members here, and a plain package leaves the field empty. */
  class Package {
    var name: string
    var title: string
    var description: string
    var keywords: seq<string>
    var homepage: string
    var support: map<string, string>
    var versions: seq<string>
    var license: seq<string>
    var downloads: int
    var stars: int
    var supported: bool
    var managed: bool
    var abandoned: bool
    var replacement: string
    var logo: string
    var meta: map<string, map<string, Value>>
    var required: seq<string>

    /** All fields as one value. */
    function Snapshot(): Record
      reads this
    {
      Record(name, title, description, keywords, homepage, support, versions, license,
             downloads, stars, supported, managed, abandoned, replacement, logo, meta, required)
    }

    constructor ()
      ensures Snapshot() == EmptyRecord
    {
      name, title, description, keywords, homepage := "", "", "", [], "";
      support, versions, license, downloads, stars := map[], [], [], 0, 0;
      supported, managed, abandoned, replacement := false, false, false, "";
      logo, meta, required := "", map[], [];
    }

    method SetName(name: string) returns (self: Package)
      modifies this
      ensures self == this && Snapshot() == old(Snapshot()).(name := name)
    {
      this.name := name;
      self := this;
    }

    method SetTitle(title: string) returns (self: Package)
      modifies this
      ensures self == this && Snapshot() == old(Snapshot()).(title := title)
    {
      this.title := title;
      self := this;
    }

    method SetDescription(description: string) returns (self: Package)
      modifies this
      ensures self == this && Snapshot() == old(Snapshot()).(description := description)
    {
      this.description := description;
      self := this;
    }

    method SetKeywords(keywords: seq<string>) returns (self: Package)
      modifies this
      ensures self == this && Snapshot() == old(Snapshot()).(keywords := keywords)
    {
      this.keywords := keywords;
      self := this;
    }

    method SetHomepage(homepage: string) returns (self: Package)
      modifies this
      ensures self == this && Snapshot() == old(Snapshot()).(homepage := homepage)
    {
      this.homepage := homepage;
      self := this;
    }

    method SetSupport(support: map<string, string>) returns (self: Package)
      modifies this
      ensures self == this && Snapshot() == old(Snapshot()).(support := support)
    {
      this.support := support;
      self := this;
    }

    method SetVersions(versions: seq<string>) returns (self: Package)
      modifies this
      ensures self == this && Snapshot() == old(Snapshot()).(versions := versions)
    {
      this.versions := versions;
      self := this;
    }

    method SetLicense(license: seq<string>) returns (self: Package)
      modifies this
      ensures self == this && Snapshot() == old(Snapshot()).(license := license)
    {
      this.license := license;
      self := this;
    }

    method SetDownloads(downloads: int) returns (self: Package)
      modifies this
      ensures self == this && Snapshot() == old(Snapshot()).(downloads := downloads)
    {
      this.downloads := downloads;
      self := this;
    }

    method SetStars(stars: int) returns (self: Package)
      modifies this
      ensures self == this && Snapshot() == old(Snapshot()).(stars := stars)
    {
      this.stars := stars;
      self := this;
    }

    method SetSupported(supported: bool) returns (self: Package)
      modifies this
      ensures self == this && Snapshot() == old(Snapshot()).(supported := supported)
    {
      this.supported := supported;
      self := this;
    }

    method SetManaged(managed: bool) returns (self: Package)
      modifies this
      ensures self == this && Snapshot() == old(Snapshot()).(managed := managed)
    {
      this.managed := managed;
      self := this;
    }

    method SetAbandoned(abandoned: bool) returns (self: Package)
      modifies this
      ensures self == this && Snapshot() == old(Snapshot()).(abandoned := abandoned)
    {
      this.abandoned := abandoned;
      self := this;
    }

    method SetReplacement(replacement: string) returns (self: Package)
      modifies this
      ensures self == this && Snapshot() == old(Snapshot()).(replacement := replacement)
    {
      this.replacement := replacement;
      self := this;
    }

    method SetLogo(logo: string) returns (self: Package)
      modifies this
      ensures self == this && Snapshot() == old(Snapshot()).(logo := logo)
    {
      this.logo := logo;
      self := this;
    }

    method SetMeta(meta: map<string, map<string, Value>>) returns (self: Package)
      modifies this
      ensures self == this && Snapshot() == old(Snapshot()).(meta := meta)
    {
      this.meta := meta;
      self := this;
    }

    /** getForAlgolia: build the base object from the fields, then apply the overrides
        stored for the language. */
    method GetForAlgolia(language: string) returns (data: map<string, Value>)
      ensures data == Projection(Snapshot(), language)
    {
      var base := Base(Snapshot());
      var overrides := MetaForLanguage(meta, language);
      data := ApplyOverrides(base, overrides);
    }

    /** setRequiredPackagesAccrossVersions (MetaPackage) */
    method SetRequiredPackagesAcrossVersions(required: seq<string>) returns (self: Package)
      modifies this
      ensures self == this && Snapshot() == old(Snapshot()).(required := required)
    {
      this.required := required;
      self := this;
    }

    /** requiresOneOf (MetaPackage): array_intersect of the required names with the
        given names is not empty. */
    function RequiresOneOf(names: seq<string>): (r: bool)
      reads this
      ensures r <==> exists x :: x in required && x in names
    {
      var common := Intersect(required, names);
      assert |common| != 0 ==> common[0] in common;
      |common| != 0
    }
  }

  /** The loop of getForAlgolia: each override overwrites the entry of the same key,
      if the object has one; keys the object lacks are skipped. */
  method ApplyOverrides(base: map<string, Value>, overrides: map<string, Value>) returns (data: map<string, Value>)
    ensures data == Overlay(base, overrides)
  {
    data := base;
    var todo := overrides.Keys;
    while todo != {}
      invariant todo <= overrides.Keys
      invariant data.Keys == base.Keys
      invariant forall k :: k in data ==>
                  data[k] == if k in overrides && k !in todo then overrides[k] else base[k]
      decreases todo
    {
      var k :| k in todo;
      if k in data {
        data := data[k := overrides[k]];
      }
      todo := todo - {k};
    }
  }

  /** Nothing is required of an empty list, and what holds of a list holds of every
      list that contains its names. */
  lemma RequiresOneOfMonotone(m: Package, names: seq<string>, more: seq<string>)
    requires forall x :: x in names ==> x in more
    ensures !m.RequiresOneOf([])
    ensures m.RequiresOneOf(names) ==> m.RequiresOneOf(more)
  {
  }
}
