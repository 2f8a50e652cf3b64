/** The metadata repository: logos, per-language YAML overrides and the list of
    package directories. The filesystem and the YAML parser are inputs (a Store). */
module MetaData {
  import opened Values
  import opened Collections

  /** The only keys a metadata file may override. */
  const ALLOWED_KEYS: set<string> := {"title", "description", "keywords", "homepage", "support"}

  /** Logos larger than this many bytes are linked, smaller ones are inlined. */
  const LOGO_SIZE_LIMIT: int := 5 * 1024
  const RAW_URL_PREFIX: string := "https://rawgit.com/contao/package-metadata/master/meta/"
  const DATA_URI_PREFIX: string := "data:image/svg+xml;base64,"

  /** What filesize() and file_get_contents() report for an existing file. */
  datatype FileInfo = FileInfo(size: int, contents: string)

  /** The outcome of Yaml::parseFile: a ParseException (also raised for a missing
      file) or the parsed top-level mapping. */
  datatype YamlDoc = ParseError | Parsed(data: map<string, Value>)

  /** The part of the filesystem the indexer looks at, keyed by full path. */
  datatype Store = Store(files: map<string, FileInfo>, yaml: map<string, YamlDoc>)

  /** One depth-1 directory found under the metadata directory: its parent path
      (getPath) and its own name (getBasename). */
  datatype DirEntry = DirEntry(path: string, basename: string)

  function MetaDataDir(dir: string): string {
    dir + "/meta"
  }

  /** explode('/', name, 2): the vendor is the text before the first '/', the rest is
      everything after it; without a '/', the second part is missing and reads as ''. */
  function SplitName(name: string): (r: (string, string))
    ensures '/' !in r.0
    ensures '/' in name ==> name == r.0 + "/" + r.1
    ensures '/' !in name ==> r == (name, "")
    decreases |name|
  {
    if |name| == 0 then ("", "")
    else if name[0] == '/' then ("", name[1..])
    else
      var rest := SplitName(name[1..]);
      assert name == [name[0]] + name[1..];
      ([name[0]] + rest.0, rest.1)
  }

  /** Splitting "vendor/rest" gives back the vendor and the rest when the vendor has no '/'. */
  lemma {:induction false} SplitNameOfJoined(vendor: string, rest: string)
    requires '/' !in vendor
    ensures SplitName(vendor + "/" + rest) == (vendor, rest)
    decreases |vendor|
  {
    var s := vendor + "/" + rest;
    if |vendor| == 0 {
      assert s[0] == '/' && s[1..] == rest;
    } else {
      assert s[1..] == vendor[1..] + "/" + rest;
      SplitNameOfJoined(vendor[1..], rest);
      assert [s[0]] + vendor[1..] == vendor;
    }
  }

  /** vendor/name/logo.svg, relative to the metadata directory. */
  function OwnLogo(name: string): string {
    var parts := SplitName(name);
    parts.0 + "/" + parts.1 + "/logo.svg"
  }

  /** vendor/logo.svg, relative to the metadata directory. */
  function VendorLogo(name: string): string {
    SplitName(name).0 + "/logo.svg"
  }

  /** The logo image a package uses: its own, else its vendor's, else none. */
  function LogoImage(base: string, name: string, files: map<string, FileInfo>): (r: Option<string>)
    ensures r.Some? ==> base + "/" + r.value in files
    ensures base + "/" + OwnLogo(name) in files ==> r == Some(OwnLogo(name))
    ensures (base + "/" + OwnLogo(name) !in files && base + "/" + VendorLogo(name) in files) ==>
              r == Some(VendorLogo(name))
    ensures r.None? <==> base + "/" + OwnLogo(name) !in files && base + "/" + VendorLogo(name) !in files
  {
    var image := OwnLogo(name);
    if base + "/" + image in files then Some(image)
    else
      var image' := VendorLogo(name);
      if base + "/" + image' in files then Some(image') else None
  }

  /** The logo of an existing image: a URL into the metadata repository when the file
      is larger than LOGO_SIZE_LIMIT bytes, else a data URI of its base64 contents. */
  function LogoUri(base: string, image: string, files: map<string, FileInfo>, base64: string -> string): (r: string)
    requires base + "/" + image in files
    ensures files[base + "/" + image].size > LOGO_SIZE_LIMIT ==> r == RAW_URL_PREFIX + image
    ensures files[base + "/" + image].size <= LOGO_SIZE_LIMIT ==>
              r == DATA_URI_PREFIX + base64(files[base + "/" + image].contents)
  {
    var file := files[base + "/" + image];
    if file.size > LOGO_SIZE_LIMIT then RAW_URL_PREFIX + image
    else DATA_URI_PREFIX + base64(file.contents)
  }

  /** getLogoForPackage: '' when neither candidate image exists, else the chosen image's logo. */
  function LogoForPackage(dir: string, name: string, store: Store, base64: string -> string): (r: string)
    ensures r == "" <==> LogoImage(MetaDataDir(dir), name, store.files).None?
    ensures LogoImage(MetaDataDir(dir), name, store.files).Some? ==>
              r == LogoUri(MetaDataDir(dir), LogoImage(MetaDataDir(dir), name, store.files).value, store.files, base64)
  {
    var base := MetaDataDir(dir);
    match LogoImage(base, name, store.files)
    case None => ""
    case Some(image) =>
      assert |DATA_URI_PREFIX| > 0 && |RAW_URL_PREFIX| > 0;
      LogoUri(base, image, store.files, base64)
  }

  /** The parse result for a path; a file that does not exist fails to parse. */
  function YamlAt(store: Store, path: string): YamlDoc {
    if path in store.yaml then store.yaml[path] else ParseError
  }

  /** The language's section of a parsed metadata file when it is an array, else []. */
  function ExtractLanguage(doc: YamlDoc, language: string): (r: Value)
    ensures IsArray(r)
    ensures doc.Parsed? && language in doc.data && IsArray(doc.data[language]) ==> r == doc.data[language]
    ensures doc.ParseError? || language !in doc.data || !IsArray(doc.data[language]) ==> r == EmptyArray
  {
    if doc.Parsed? && language in doc.data && IsArray(doc.data[language]) then doc.data[language]
    else EmptyArray
  }

  /** array_intersect_key with the allow-list: exactly the allowed keys of the input,
      values unchanged. A list has integer keys only, so nothing of it survives. */
  function FilterMetadata(v: Value): (r: map<string, Value>)
    ensures r.Keys <= ALLOWED_KEYS
    ensures v.Dict? ==> r.Keys == v.entries.Keys * ALLOWED_KEYS
    ensures !v.Dict? ==> r == map[]
    ensures forall k :: k in r ==> v.Dict? && r[k] == v.entries[k]
  {
    if v.Dict? then map k | k in v.entries && k in ALLOWED_KEYS :: v.entries[k] else map[]
  }

  /** The path of a package's metadata file for one language. */
  function MetaFile(base: string, name: string, language: string): string {
    base + "/" + name + "/" + language + ".yml"
  }

  /** getMetaDataForPackage: the allowed keys of the language's section of
      meta/<name>/<language>.yml; nothing when the file fails to parse or the section
      is missing or not an array. */
  function MetaDataForPackage(dir: string, store: Store, name: string, language: string): (r: map<string, Value>)
    ensures r.Keys <= ALLOWED_KEYS
    ensures YamlAt(store, MetaFile(MetaDataDir(dir), name, language)).ParseError? ==> r == map[]
    ensures forall k :: k in r ==>
              var doc := YamlAt(store, MetaFile(MetaDataDir(dir), name, language));
              doc.Parsed? && language in doc.data && doc.data[language].Dict?
              && k in doc.data[language].entries && r[k] == doc.data[language].entries[k]
    ensures forall k :: k in ALLOWED_KEYS ==>
              var doc := YamlAt(store, MetaFile(MetaDataDir(dir), name, language));
              (doc.Parsed? && language in doc.data && doc.data[language].Dict?
               && k in doc.data[language].entries) ==> k in r
  {
    FilterMetadata(ExtractLanguage(YamlAt(store, MetaFile(MetaDataDir(dir), name, language)), language))
  }

  /** PHP's basename() of a path without a trailing '/': the text after the last '/'. */
  function Basename(path: string): (r: string)
    ensures '/' !in r
    ensures |r| <= |path| && path[|path| - |r|..] == r
    ensures |r| < |path| ==> path[|path| - |r| - 1] == '/'
    decreases |path|
  {
    if |path| == 0 || path[|path| - 1] == '/' then ""
    else
      var init := Basename(path[..|path| - 1]);
      init + [path[|path| - 1]]
  }

  /** The name formed for one directory: parent directory name, '/', own name. */
  function DirName(d: DirEntry): string {
    Basename(d.path) + "/" + d.basename
  }

  /** getPackageNames: one "vendor/package" name per depth-1 directory, in the order
      the finder yields them. */
  method PackageNames(dirs: seq<DirEntry>) returns (names: seq<string>)
    ensures names == MapSeq(dirs, DirName)
    ensures |names| == |dirs|
    ensures forall i :: 0 <= i < |dirs| ==> names[i] == DirName(dirs[i])
  {
    names := [];
    for i := 0 to |dirs|
      invariant names == MapSeq(dirs[..i], DirName)
    {
      MapSeqSnoc(dirs, i, DirName);
      names := names + [DirName(dirs[i])];
    }
    assert dirs[..|dirs|] == dirs;
  }

  /** A listed name splits back into the vendor directory and the package directory,
      so its logo and metadata are looked up where the directory was found. */
  lemma ListedNameSplitsBack(d: DirEntry)
    ensures SplitName(DirName(d)) == (Basename(d.path), d.basename)
  {
    SplitNameOfJoined(Basename(d.path), d.basename);
  }
}
