# Contao package indexer — a Dafny model

The Contao package indexer reads the Contao extensions out of the Packagist registry
and pushes one search object per package and language to Algolia indexes. This model covers:

- the package entity and its per-language search object;
- the package factory;
- the metadata checkout (logos and translated texts);
- the hash that decides whether a package changed since the last run;
- the indexer, which collects packages and metapackages, gates them through the cache and pushes them in chunks;
- the older single-index command, which walks the registry over HTTP and resolves metapackages in passes.

Modules follow the source files:

| module | file | models |
|---|---|---|
| `Values` | values.dfy | the PHP values a JSON or YAML document decodes to |
| `Collections` | collections.dfy | the PHP array functions the core relies on: `array_unique`, `array_chunk`, `array_intersect`, `sort`, and assignment into an ordered array |
| `Registry` | registry.dfy | the shape of the registry's package document and its version entries |
| `MetaData` | metadata.dfy | `MetaDataRepository` |
| `PackageModel` | package.dfy | `Package` and `MetaPackage`, as one class |
| `Languages` | languages.dfy | `Indexer::LANGUAGES` |
| `HashGen` | hash.dfy | `PackageHashGenerator` |
| `PackageFactory` | factory.dfy | `Factory` and its memo cache |
| `CacheGate` | gate.dfy | the per-language cache gate and the chunked pushes of `Indexer::indexPackages`, as functions |
| `CatalogIndexer` | indexer.dfy | `Indexer`, with the cache pool and the search client as objects it changes |
| `LegacyIndexer` | index_command.dfy | `Command\IndexCommand` |

How each part is modelled:

- **Package and MetaPackage.** They are one class whose fields the setters update. `MetaPackage` only adds the required names, so a plain package leaves that field empty.
- **Search object.** It is a `map<string, Value>`. It holds the fourteen base keys, each overridden by the language's metadata when the metadata has that key.
- **Package factory.** It is a class with a memo cache keyed by kind (`basic-` or `meta-`) and name.
  - Each method is proved against a function of the registry data: `BasicRecord` or `MetaRecord`.
  - The ghost predicate `Valid` states that every cached object holds the record its key builds to.
- **Indexer.**
  - The cache pool and the search client are objects whose state (saved keys, deferred keys, commits, initialised and cleared indexes, pushes) the indexer changes.
  - `Indexer.Index` is proved against `Catalog`, `CatalogRecords`, `GateAll` and `PushLog`.
- **Legacy command.**
  - The HTTP client's response cache is a set of URLs. Which responses the cache keeps is an input, `Env.cacheable`.
  - Each method is proved against a function of the environment and the cache: `FetchPackage`, `Gather`, `IndexChunks`, `Resolve` or `ExecuteRun`.

What the lemmas establish, in the system's terms. Each item names its lemmas.

- **Hash contents.** The hash covers exactly these fields: name, description, keywords, homepage, support, versions, license, the three flags, replacement, logo, and the overrides of its own language.
  - Two packages hash alike iff these agree (`HashInfoDeterminesFields`).
  - As a consequence, changing the download or star count never changes the hash (`PopularityChangeKeepsHash`), but it does change the pushed object (`PopularityChangeChangesObject`). A package whose only change is its popularity is therefore re-pushed only after some other change.
- **Cache gate.**
  - It queues exactly the packages whose key was neither stored nor saved earlier in the run (`GateMisses`, `GateQueuesMisses`).
  - Each language's keys are distinct from the other languages' keys (`ItemKeyLanguage`), so the gates do not interfere (`GateIgnoresOtherLanguages`, `LastLanguageUnaffected`).
  - Every saved key is committed in the one commit at the end (`Indexer.Index` with `Indexed`).
- **Catalog membership.** A name is in the catalog iff one of the following holds (`CatalogMembers`):
  - the name was requested and has registry data;
  - the name is a listed metapackage that requires such a package.
- **Legacy command.**
  - A package is skipped exactly when both of its documents came from the cache (`FetchPackageSkips`).
  - `supported` looks only for a requirement on `contao/core-bundle`, which is narrower than the factory's notion (`SupportNarrowerThanFactory`).
  - `managed` looks at the last version only (`ManagedFromLatestOnly`).
  - When responses are cached, the deferred metapackages are fetched again as cache hits in the second pass and dropped (`DeferredSkippedWhenCached`, `SecondPassEmptyWhenCached`).

What the code does, and the model with it:

- There are no private packages. A name without registry data is left out.
- The "latest" version is simply the last entry of the version list.
- Overrides replace whole values; they are not merged key by key.
- No list of available languages is attached to the object.
- Nothing is deleted from an index.
- An item's cache key is `package-indexer-<language>-<hash>`; the package name is not part of it.
- The legacy command's passes do not stop when a pass accepts nothing. The function `Requirements` models these passes as written. The command's methods follow the corrected `Resolve` instead (see Findings and Left out).

## Model

| member | source | states |
|---|---|---|
| Registry.Last | src/Package/Factory.php:124 | `end()` of the version list yields a version iff the list is non-empty, and then it is the final entry |
| Registry.First | src/Command/IndexCommand.php:132 | `reset()` of the version list yields a version iff the list is non-empty, and then it is the first entry |
| Registry.VersionIds | src/Package/Factory.php:126-128 | the version identifiers, one per version entry, in registry order |
| Collections.Dedup | src/Indexer.php:92-96 | `array_unique`: the same members, each once, never longer than the input; the order it keeps is stated by `DedupKeepsFirstOccurrences` |
| Collections.DedupKeepsFirstOccurrences | src/Indexer.php:92-96 | `array_unique` keeps first occurrences in input order: of two elements of the result, the earlier one first occurs earlier in the input |
| Collections.FirstIndex | src/Indexer.php:92-96 | the position of an element's first occurrence: it holds the element and no earlier position does |
| Collections.DedupOfDistinct | src/Indexer.php:92-96 | `array_unique` leaves a list without repetitions unchanged |
| Collections.Chunks | src/Indexer.php:179 | `array_chunk`: the chunks concatenate back to the input, each holds 1 to n items, all but the last hold exactly n, and there are none iff the input is empty |
| Collections.Intersect | src/Command/IndexCommand.php:138 | `array_intersect`: exactly the members of the first list that are in the second, never longer than the first |
| Collections.SortStrings | src/Package/Factory.php:130 | `sort`: the result is sorted and a permutation of the input |
| Collections.OMap.Put | src/Indexer.php:111 | assigning a key of an ordered array: the key maps to the new value, a new key is appended to the key order and an existing one keeps its place |
| Collections.FilterMembers | src/Indexer.php:127 | a name is kept by a filter iff it is in the list and passes the test |
| Languages.LanguagesAreDistinctCodes | src/Indexer.php:31 | the fourteen index languages are distinct two-letter codes |
| MetaData.SplitName | src/MetaDataRepository.php:68 | `explode('/', name, 2)`: the vendor holds no '/', vendor + "/" + rest is the name when it has a '/', and the rest is empty when it has none |
| MetaData.SplitNameOfJoined | src/MetaDataRepository.php:68 | splitting "vendor/rest" gives back vendor and rest whenever the vendor holds no '/' |
| MetaData.LogoImage | src/MetaDataRepository.php:68-77 | the package's own logo is chosen when it exists, else the vendor's logo, and there is none iff neither file exists; a chosen image always exists |
| MetaData.LogoUri | src/MetaDataRepository.php:79-90 | a logo over 5 KiB becomes a raw URL under the metadata repository, a smaller one an inline base64 SVG data URI of its contents |
| MetaData.LogoForPackage | src/MetaDataRepository.php:66-93 | the logo is empty iff no logo file exists, and otherwise is the URI of the chosen image |
| MetaData.ExtractLanguage | src/MetaDataRepository.php:99-101 | the language's section when the document parsed and the section is an array, else an empty array |
| MetaData.FilterMetadata | src/MetaDataRepository.php:109-115 | exactly the allowed keys (title, description, keywords, homepage, support) of the array, with their values; nothing for a non-array |
| MetaData.MetaDataForPackage | src/MetaDataRepository.php:95-107 | a file that fails to parse gives nothing; otherwise an allowed key is present iff the language's dictionary section has it, with its value |
| MetaData.Basename | src/MetaDataRepository.php:60 | `basename`: the last '/'-free suffix of the path |
| MetaData.PackageNames | src/MetaDataRepository.php:52-64 | one "vendor/package" name per depth-1 directory, in the order the directories are listed |
| MetaData.ListedNameSplitsBack | src/MetaDataRepository.php:60 | a listed name splits back into the vendor directory and the package directory |
| PackageModel.MetaForLanguage | src/Package/Package.php:282-291 | the overrides stored for the language, or none when the language has none |
| PackageModel.Base | src/Package/Package.php:302-317 | the object before overrides has exactly the fourteen base keys |
| PackageModel.OverlayNothing | src/Package/Package.php:320-326 | with no overrides the object is the base object |
| PackageModel.ProjectionKeys | src/Package/Package.php:300-329 | a search object always has exactly the fourteen base keys, whatever the overrides hold |
| PackageModel.ProjectionWithoutMeta | src/Package/Package.php:300-329 | a language without overrides gets the base object, whose title is the package name |
| PackageModel.ProjectionOverrides | src/Package/Package.php:320-326 | an override of a base key wins, a base key without an override keeps its base value, and a key outside the base shape never appears |
| PackageModel.ProjectionIgnoresInternalFields | src/Package/Package.php:300-329 | the versions, the stored title, the required names and the other languages' overrides do not affect a language's object |
| PackageModel.Package.constructor | src/Package/Package.php:20-95 | a new package has empty fields, an empty logo and no metadata |
| PackageModel.Package.SetName | src/Package/Package.php:102-107 | the name changes, nothing else does, and the package itself is returned |
| PackageModel.Package.SetTitle | src/Package/Package.php:114-119 | the title changes, nothing else does, and the package itself is returned |
| PackageModel.Package.SetDescription | src/Package/Package.php:126-131 | the description changes, nothing else does, and the package itself is returned |
| PackageModel.Package.SetKeywords | src/Package/Package.php:138-143 | the keywords change, nothing else does, and the package itself is returned |
| PackageModel.Package.SetHomepage | src/Package/Package.php:150-155 | the homepage changes, nothing else does, and the package itself is returned |
| PackageModel.Package.SetSupport | src/Package/Package.php:162-167 | the support links change, nothing else does, and the package itself is returned |
| PackageModel.Package.SetVersions | src/Package/Package.php:174-179 | the versions change, nothing else does, and the package itself is returned |
| PackageModel.Package.SetLicense | src/Package/Package.php:186-191 | the license changes, nothing else does, and the package itself is returned |
| PackageModel.Package.SetDownloads | src/Package/Package.php:198-203 | the download count changes, nothing else does, and the package itself is returned |
| PackageModel.Package.SetStars | src/Package/Package.php:210-215 | the star count changes, nothing else does, and the package itself is returned |
| PackageModel.Package.SetSupported | src/Package/Package.php:222-227 | the supported flag changes, nothing else does, and the package itself is returned |
| PackageModel.Package.SetManaged | src/Package/Package.php:234-239 | the managed flag changes, nothing else does, and the package itself is returned |
| PackageModel.Package.SetAbandoned | src/Package/Package.php:246-251 | the abandoned flag changes, nothing else does, and the package itself is returned |
| PackageModel.Package.SetReplacement | src/Package/Package.php:258-263 | the replacement changes, nothing else does, and the package itself is returned |
| PackageModel.Package.SetLogo | src/Package/Package.php:270-275 | the logo changes, nothing else does, and the package itself is returned |
| PackageModel.Package.SetMeta | src/Package/Package.php:293-298 | the metadata changes, nothing else does, and the package itself is returned |
| PackageModel.Package.GetForAlgolia | src/Package/Package.php:300-329 | the object of the package's current fields for the language: base keys overlaid by that language's overrides |
| PackageModel.ApplyOverrides | src/Package/Package.php:320-326 | the override loop yields the base object with every base key that has an override replaced by it |
| PackageModel.Package.SetRequiredPackagesAcrossVersions | src/Package/MetaPackage.php:25-30 | the required names change, nothing else does, and the package itself is returned |
| PackageModel.Package.RequiresOneOf | src/Package/MetaPackage.php:32-35 | true iff some required name is among the given names |
| PackageModel.RequiresOneOfMonotone | src/Package/MetaPackage.php:32-35 | no package requires one of no names, and requiring one of a list implies requiring one of any larger list |
| HashGen.HashRelevantInfo | src/Cache/PackageHashGenerator.php:24-42 | the hashed tuple has thirteen entries |
| HashGen.HashInfoDeterminesFields | src/Cache/PackageHashGenerator.php:24-42 | two packages have the same hashed tuple for a language iff they agree on name, description, keywords, homepage, support, versions, license, the three flags, replacement, logo and that language's overrides |
| HashGen.HashDependsOnlyOnRelevantFields | src/Cache/PackageHashGenerator.php:19-22 | packages that agree on the hash-relevant fields get the same hash, whatever the digest |
| HashGen.HashSameWithoutOverrides | src/Cache/PackageHashGenerator.php:39 | a package without overrides in two languages hashes alike in both |
| HashGen.PopularityChangeKeepsHash | src/Cache/PackageHashGenerator.php:24-42 | new download and star counts leave the hash unchanged |
| HashGen.PopularityChangeChangesObject | src/Package/Package.php:310-311 | a new download count that no override hides changes the pushed object, although the hash stays the same |
| PackageFactory.IsSupported | src/Package/Factory.php:151-162 | true iff some version requires contao/core-bundle or has type contao-component |
| PackageFactory.IsManaged | src/Package/Factory.php:164-173 | true iff some version is not a contao-bundle or declares a manager plugin |
| PackageFactory.BuildRecordFields | src/Package/Factory.php:120-149 | field by field: the name as name and title; sorted version identifiers that permute the registry's; description, keywords, homepage, support and license from the last entry, or their defaults; counts defaulting to 0; the two classifications; abandoned iff marked; the replacement |
| PackageFactory.BuildRecordUpdate | src/Package/Factory.php:147-148 | the logo and the metadata set last replace only those two fields |
| PackageFactory.MetaMapShape | src/Package/Factory.php:175-185 | the metadata has one entry for each index language, each restricted to the allowed keys |
| PackageFactory.AllRequiresMembers | src/Package/Factory.php:85-95 | a name is among the collected requirements iff some version requires it |
| PackageFactory.RequiredNamesMembers | src/Package/Factory.php:85-97 | the required names have no repetition and are exactly the names some version requires |
| PackageFactory.MetaFlags | src/Package/Factory.php:99-113 | a metapackage is supported (managed) iff its own versions say so or some required name builds to a supported (managed) package |
| PackageFactory.FlagThroughRequired | src/Package/Factory.php:99-113 | a test holds for some collected requirement iff it holds for some name a version requires |
| PackageFactory.MetaRecordExtendsBasic | src/Package/Factory.php:82-115 | a metapackage holds its plain record apart from the flags, which it only raises, and records its required names; a plain package records none |
| PackageFactory.Factory.constructor | src/Package/Factory.php:41-48 | a new factory has an empty cache |
| PackageFactory.Factory.AddLogo | src/Package/Factory.php:187-214 | only the logo changes: it becomes the chosen image's URI, or stays as it was when no logo file exists |
| PackageFactory.Factory.AddMeta | src/Package/Factory.php:175-185 | only the metadata changes: one filtered entry per index language from the package's YAML files |
| PackageFactory.Factory.SetBasicData | src/Package/Factory.php:120-149 | the package holds the record built from the registry data, with logo and metadata from the checkout, and keeps its required names |
| PackageFactory.Factory.SetFields | src/Package/Factory.php:132-145 | the fourteen setter calls leave the package holding the built record with its old logo, metadata and required names |
| PackageFactory.Factory.CreateBasicFromPackagist | src/Package/Factory.php:50-67 | a package comes back iff the registry has data for the name; afterwards:<br>- a cached one is returned as is, without a fetch;<br>- otherwise one fetch happens and a new package holding the plain record is cached, or nothing is cached when there is no data;<br>- earlier entries stay, and the cache gains exactly the name's entry when the name has data;<br>- the cache stays valid |
| PackageFactory.Factory.BuildBasic | src/Package/Factory.php:63-64 | a new package holding the plain record of the name |
| PackageFactory.BuiltKeys | src/Package/Factory.php:99-100 | the cache entries the required names occupy once built: the plain entries of exactly the names that have data |
| PackageFactory.RequiredFetches | src/Package/Factory.php:99-100 | the names the loop fetches are among its names, and none of them was cached before the loop |
| PackageFactory.RequiredFetchesOfDistinct | src/Package/Factory.php:99-100 | over names without repetition, exactly the names without a cached plain package are fetched, each once, in order |
| PackageFactory.MetaFetchesUncachedRequired | src/Package/Factory.php:85-100 | building a metapackage fetches exactly its required names that have no plain package in the cache, each once, in the order required |
| PackageFactory.Factory.CollectRequires | src/Package/Factory.php:85-97 | the names the versions require, each once, first occurrence first |
| PackageFactory.Factory.CreateMetaFromPackagist | src/Package/Factory.php:69-118 | a metapackage comes back iff the registry has data for the name; afterwards:<br>- a cached one is returned as is, without a fetch;<br>- otherwise the name is fetched; without data nothing else happens and the cache is unchanged;<br>- with data, the required names without a cached plain package are fetched in turn (`RequiredFetches`), their plain packages and the new metapackage are cached, and earlier entries stay;<br>- the cache stays valid |
| PackageFactory.Factory.BuildMeta | src/Package/Factory.php:76-115 | a new package, outside the cache, holding the metapackage record; the cache keeps its entries and gains the plain packages of the required names that build; the fetches are extended by `RequiredFetches` of the required names; the cache stays valid |
| PackageFactory.Factory.RecordRequired | src/Package/Factory.php:115 | only the required names of the metapackage change |
| PackageFactory.Factory.RaiseFlags | src/Package/Factory.php:99-113 | the loop over the requirements raises supported (managed) iff some required name builds to a supported (managed) package, and changes nothing else of the package; the cache keeps its entries and gains the plain packages of the names that build; the fetches are extended by `RequiredFetches` of the names |
| PackageFactory.Factory.StepRequired | src/Package/Factory.php:100-112 | one requirement raises each flag when it builds to a package with that flag set; the cache keeps its entries and gains the name's entry when it has data; the name is fetched iff its plain package was not cached |
| PackageFactory.Factory.Raise | src/Package/Factory.php:106-112 | a flag is set when it was unset and the required package has it; other fields stay |
| PackageFactory.Factory.Remember | src/Package/Factory.php:117 | storing a package that holds its key's record extends the cache by that key and keeps it valid |
| CacheGate.ItemKeyLanguage | src/Indexer.php:149-151 | a cache key carries its language right after the prefix |
| CacheGate.Gate | src/Indexer.php:148-175 | only names of the packages map are queued |
| CacheGate.GateIgnoringCache | src/Indexer.php:164-167 | with ignoreCache every package is queued and nothing is saved |
| CacheGate.GateMisses | src/Indexer.php:153-163 | every queued package missed the pool; every package's key ends up visible or saved; every saved key belongs to a queued package; every queued package's key is saved |
| CacheGate.GateQueuesMisses | src/Indexer.php:148-175 | with distinct keys the queue is exactly the packages whose key missed, in map order |
| CacheGate.GateIgnoresOtherLanguages | src/Indexer.php:142-176 | keys of other languages do not change what a language's gate does |
| CacheGate.GateSavesOwnLanguage | src/Indexer.php:149-159 | a language's gate saves only keys of that language |
| CacheGate.GateAll | src/Indexer.php:142-176 | one queue per language, each of packages in the map |
| CacheGate.GateAllDefersListedLanguages | src/Indexer.php:142-176 | every key deferred over all languages was deferred before or belongs to an index language |
| CacheGate.LastLanguageUnaffected | src/Indexer.php:142-176 | the keys the earlier languages defer do not change what the last language's gate does |
| CacheGate.GateAllDefersMore | src/Indexer.php:142-176 | keys deferred before stay deferred |
| CacheGate.GateAllQueues | src/Indexer.php:142-176 | each language's queue is what its gate yields against the pool as it was before the loop |
| CacheGate.GateAllDeferred | src/Indexer.php:142-176 | the deferred keys afterwards are the earlier ones plus exactly what the languages' gates save |
| CacheGate.Objects | src/Indexer.php:183-185 | one search object per package of a chunk |
| CacheGate.Batches | src/Indexer.php:178-192 | one push per chunk, to the language's index, of that chunk's objects |
| CacheGate.LanguagePushesShape | src/Indexer.php:178-192 | a language's pushes go to its index with 1 to 100 objects each, there are none iff its queue is empty, and together they hold its queue's objects in order |
| CacheGate.BatchesObjects | src/Indexer.php:178-192 | the pushed objects of all chunks are the objects of their concatenation |
| CacheGate.PushLogBatches | src/Indexer.php:178-198 | every push goes to the index of an index language and holds 1 to 100 objects |
| CatalogIndexer.CachePool.constructor | src/Indexer.php:63 | a pool with the stored keys, nothing deferred, no commit |
| CatalogIndexer.CachePool.SaveDeferred | src/Indexer.php:159 | the key joins the deferred ones; stored keys and commits stay |
| CatalogIndexer.CachePool.Commit | src/Indexer.php:200 | the deferred keys join the stored ones, nothing stays deferred, and one commit is counted |
| CatalogIndexer.SearchClient.constructor | src/Indexer.php:48 | no index initialised or cleared, nothing pushed |
| CatalogIndexer.SearchClient.InitIndex | src/Indexer.php:208 | the index is appended to the initialised ones; nothing else changes |
| CatalogIndexer.SearchClient.ClearIndex | src/Indexer.php:211 | the index is appended to the cleared ones; nothing else changes |
| CatalogIndexer.SearchClient.SaveObjects | src/Indexer.php:188 | the push is appended to the log; nothing else changes |
| CatalogIndexer.IndexNames | src/Indexer.php:208 | the index of each language is the prefix `v2_` followed by the language |
| CatalogIndexer.WithBasicsMembers | src/Indexer.php:105-114 | after collectPackages a name is mapped iff it was there before or was requested and has registry data, and a requested one maps to its plain record |
| CatalogIndexer.WithMetasMembers | src/Indexer.php:116-131 | after collectMetapackages a name is mapped iff it was there before or is a listed metapackage requiring a collected package, and such a one maps to its metapackage record |
| CatalogIndexer.CatalogRecordsMembers | src/Indexer.php:85-131 | the packages map has exactly the catalog's names, each with registry data and its record |
| CatalogIndexer.CatalogMembers | src/Indexer.php:85-131 | the catalog has no repetition, and a name is in it iff it was requested with registry data, or it is a listed metapackage with data that requires such a name |
| CatalogIndexer.SinglePackageCatalog | src/Indexer.php:85-131 | indexing one package yields it and the listed metapackages that require it, nothing more |
| CatalogIndexer.Indexer.constructor | src/Indexer.php:75-83 | the collaborators as given, no packages, indexes not yet created |
| CatalogIndexer.Indexer.Index | src/Indexer.php:85-103 | the packages map is the catalog with its records; an empty catalog changes nothing else; otherwise:<br>- the indexes are created and cleared as asked;<br>- the keys the per-language gates save are committed with the earlier deferred ones in one commit;<br>- outside a dry run each queue is pushed to its index in chunks |
| CatalogIndexer.Indexer.Collect | src/Indexer.php:87-100 | a fresh packages map filled with the catalog and its records; the factory's cache stays valid |
| CatalogIndexer.Indexer.CollectPackages | src/Indexer.php:105-114 | every requested name with registry data is added to the packages map (or replaced in place) with its plain record |
| CatalogIndexer.Indexer.CollectPackage | src/Indexer.php:108-112 | a name with registry data is put with its plain record; one without leaves the map as it was |
| CatalogIndexer.Indexer.CollectMetapackages | src/Indexer.php:116-131 | every listed metapackage that requires one of the packages collected before it is added with its metapackage record |
| CatalogIndexer.Indexer.CollectMetapackage | src/Indexer.php:121-129 | a qualifying metapackage is put with its record; any other leaves the map as it was |
| CatalogIndexer.Indexer.FetchMetapackage | src/Indexer.php:121-127 | the metapackage's record iff it has data and requires one of the given names, else nothing |
| CatalogIndexer.Indexer.IndexPackages | src/Indexer.php:133-201 | an empty map changes nothing; otherwise the indexes are created, every language is gated, the queues are pushed unless dry, and the saved keys are committed once |
| CatalogIndexer.Indexer.GateLanguages | src/Indexer.php:142-176 | the queues and deferred keys are those of the gates of all languages in turn; stored keys and commits stay |
| CatalogIndexer.Indexer.GateLanguage | src/Indexer.php:148-175 | the queue and the newly deferred keys are what the gate yields against the keys visible when it starts |
| CatalogIndexer.Indexer.CreateIndexes | src/Indexer.php:203-217 | the first call initialises every language's index and clears them when asked; a later call does nothing; nothing is pushed |
| CatalogIndexer.Indexer.PushAll | src/Indexer.php:178-198 | outside a dry run the pushes of every language's queue in chunks are appended; a dry run pushes nothing |
| CatalogIndexer.Indexer.PushLanguage | src/Indexer.php:179-192 | outside a dry run one push per chunk of the queue is appended; a dry run pushes nothing |
| CatalogIndexer.Indexer.ChunkObjects | src/Indexer.php:180-185 | the objects of the chunk's packages for the language, in order |
| LegacyIndexer.UrlsDistinct | src/Command/IndexCommand.php:166-167 | the two document URLs of a package differ from each other and from those of any other package |
| LegacyIndexer.Stored | src/Command/IndexCommand.php:250-261 | a request adds its URL to the response cache iff the response may be stored, and changes no other entry |
| LegacyIndexer.FetchPackageSkips | src/Command/IndexCommand.php:164-180 | a package is skipped iff both of its documents were cached; a package that is not skipped is the package document with the composer document's versions; fetching adds only the package's stored documents; a package whose documents both get stored is skipped when fetched again |
| LegacyIndexer.ExtractSearchData | src/Command/IndexCommand.php:182-210 | the search object of the package: display fields and managed from the last version, supported from any version |
| LegacyIndexer.SearchObjectDefaults | src/Command/IndexCommand.php:194-207 | a package without versions, repository, counts or abandonment gets null texts, the registry page as homepage, no links, an empty license, zero counts, unsupported, managed, not abandoned |
| LegacyIndexer.SearchObjectHomepage | src/Command/IndexCommand.php:198 | the homepage is the last version's, else the repository, else the registry page |
| LegacyIndexer.SupportNarrowerThanFactory | src/Command/IndexCommand.php:184-192 | a package marked supported here is supported for the factory, but a contao-component is supported only for the factory |
| LegacyIndexer.ManagedFromLatestOnly | src/Command/IndexCommand.php:204 | a package with versions that is marked managed here is managed for the factory, but a managed older version under an unmanaged last one does not count here |
| LegacyIndexer.GatherCache | src/Command/IndexCommand.php:81-96 | after a chunk the response cache holds what it held plus the stored documents of the chunk's packages |
| LegacyIndexer.GatherObjects | src/Command/IndexCommand.php:84-90 | a chunk of distinct names yields, in order, the search objects of exactly those packages whose documents were not both cached before |
| LegacyIndexer.GatherSize | src/Command/IndexCommand.php:84-90 | a chunk yields at most one object per name |
| LegacyIndexer.IndexChunksSizes | src/Command/IndexCommand.php:81-96 | every push of the package phase holds 1 to 100 objects |
| LegacyIndexer.StepCases | src/Command/IndexCommand.php:124-148 | a skipped candidate, or one whose first version lacks 'require', changes nothing but the cache; an accepted one is stored and appended to the required list; any other is deferred iff it requires another candidate and not itself |
| LegacyIndexer.ScanBounds | src/Command/IndexCommand.php:124-148 | a pass only appends to the required list, and records at most one accepted or deferred name per candidate, always a candidate |
| LegacyIndexer.Wave | src/Command/IndexCommand.php:115-150 | a pass extends the required list, defers only candidates, and accepts or defers each candidate at most once |
| LegacyIndexer.MutualRequirementNeverEnds | src/Command/IndexCommand.php:141-154 | two metapackages that require only each other, with responses never stored, keep the recursion going past any bound |
| LegacyIndexer.ScanRejecting | src/Command/IndexCommand.php:124-148 | a pass in which no candidate accepts the required list stores nothing and leaves the list as it was |
| LegacyIndexer.ScanDeferredRejected | src/Command/IndexCommand.php:141-145 | when a pass accepts nothing, none of its deferred candidates accepts the required list either |
| LegacyIndexer.RequirementsAfterStall | src/Command/IndexCommand.php:150-154 | once no candidate accepts the required list, the further passes push nothing |
| LegacyIndexer.ResolveAgrees | src/Command/IndexCommand.php:115-155 | whenever the recursion as written ends, it pushes exactly what the corrected one pushes |
| LegacyIndexer.AcceptedFeedsLaterCandidates | src/Command/IndexCommand.php:138-140 | a candidate accepted in a pass lets a later candidate of the same pass that requires it be accepted too |
| LegacyIndexer.DeferredSkippedWhenCached | src/Command/IndexCommand.php:141-145 | when every response is stored, every deferred candidate's documents are cached after the pass |
| LegacyIndexer.ScanAllCached | src/Command/IndexCommand.php:124-130 | candidates whose documents are all cached are all skipped: nothing is stored or deferred and the cache stays |
| LegacyIndexer.SecondPassEmptyWhenCached | src/Command/IndexCommand.php:152-154 | when every response is stored, the second pass stores and defers nothing |
| LegacyIndexer.CandidatesAreUnion | src/Command/IndexCommand.php:63-66 | the candidates are the bundles and the modules, each once |
| LegacyIndexer.IndexCommand.constructor | src/Command/IndexCommand.php:237-245 | the response cache is what storage holds; nothing is pushed and no index is open |
| LegacyIndexer.IndexCommand.GetJson | src/Command/IndexCommand.php:250-261 | a hit iff the URL was cached; the response is stored if it may be |
| LegacyIndexer.IndexCommand.GetPackageNames | src/Command/IndexCommand.php:157-162 | the registry's list of the type, with its response cached if it may be |
| LegacyIndexer.IndexCommand.GetPackage | src/Command/IndexCommand.php:164-180 | the package and the cache afterwards are those of fetching it, so it is skipped iff both documents were cached |
| LegacyIndexer.IndexCommand.Index | src/Command/IndexCommand.php:212-229 | an empty list pushes nothing; any other is pushed as one batch and opens the index |
| LegacyIndexer.IndexCommand.GatherChunk | src/Command/IndexCommand.php:82-95 | the chunk's objects and the cache afterwards are those of gathering it |
| LegacyIndexer.IndexCommand.IndexPackages | src/Command/IndexCommand.php:75-100 | one push per chunk of names that yields objects, as the chunk functions give them; the index is opened iff something was pushed |
| LegacyIndexer.IndexCommand.RequirementStep | src/Command/IndexCommand.php:125-147 | one candidate of the loop does what the pass step gives |
| LegacyIndexer.IndexCommand.IndexRequirements | src/Command/IndexCommand.php:115-155 | the pushes and the cache of the corrected recursion, which stops once a pass accepts nothing; this always terminates |
| LegacyIndexer.IndexCommand.IndexMetapackages | src/Command/IndexCommand.php:102-113 | the metapackage list is fetched, then the corrected passes (`Resolve`) start from it with the indexed packages as the required list |
| LegacyIndexer.IndexCommand.Execute | src/Command/IndexCommand.php:61-73 | the pushes and the cache of a whole run: lists first, then the packages in chunks, then the corrected metapackage passes (`Resolve`) |

## Left out

- HTTP transport and the registry API are not modelled. Their results are inputs:
  - the indexer's registry data is `Config.registry`;
  - the legacy command's documents are `Env.lists`, `Env.packageData` and `Env.composerVersions`.
- A response other than 200 aborts the legacy command with an exception. The model treats every response as 200.
- The Guzzle cache's storage policy and expiry are reduced to the input `Env.cacheable`, which says whether a URL's response is kept.
- The Algolia client is modelled as a log of init, clear and save calls.
  - The application id and key read from the environment are not modelled.
  - An `AlgoliaException` swallowed while creating an index is not modelled. Creation always succeeds in the model.
- Logging, the console output and the progress bars are not modelled.
- The YAML parser and the filesystem are inputs.
  - Parsed documents and files are maps in `Store`.
  - `base64_encode` and the hash digest (sha1 of the JSON encoding) are function parameters.
- `MetaAwarePackageHashGenerator`, `IndexMetaCommand`, `AbstractIndexCommand`, the Algolia index wrappers and the bundle configuration are not part of this model.
- PHP key order inside objects is not modelled, because an object is a map. The order of the packages map and of pushes is modelled.
- Collections.SortStrings: it sorts by character code, not by PHP's `sort` with its numeric-string comparison.
- MetaData.LogoUri: the raw URL concatenates the image path into a `sprintf` format. A '%' in a package or vendor name would be read as a directive, and the model does not capture that.
- PackageFactory.BuildRecordFields: the `(int)` casts of the counts are not modelled, because the registry data holds integers or nothing.
- CatalogIndexer.Indexer: the packages map holds each package's state as a record, not a reference to the factory's object. Aliasing between the map and the factory's cache is therefore not modelled. Nothing changes a package after it has been collected, so the pushed objects are the same.
- CatalogIndexer.Indexer.Index: does not restate that the factory's cache stays valid after the indexing phase. `Collect` states it after collection, and nothing later modifies the factory or its packages.
- LegacyIndexer.Requirements: the recursion as written is given a fuel bound. Runs that need more passes than the fuel read as not finishing.
- LegacyIndexer.IndexCommand.IndexRequirements: it follows the corrected recursion `Resolve`, not the code as written (see Findings).
- LegacyIndexer.IndexCommand.IndexMetapackages: it runs the passes through `IndexRequirements`, so it follows the corrected `Resolve`. On inputs where the code recurses forever, the model reports a finished run.
- LegacyIndexer.IndexCommand.Execute: through `ExecuteRun` its metapackage phase is the corrected `Resolve`. On inputs where the code recurses forever, the model reports a finished run.

## Findings

| source | as written | input that shows it | evidently intended | confidence | as-written member | corrected member |
|---|---|---|---|---|---|---|
| src/Command/IndexCommand.php:141-154 | a pass that defers candidates always recurses on them with the same required list, even when it accepted nothing | two listed metapackages a and b whose first versions require only b and only a respectively. Neither requires an indexed package, and the registry responses are not stored by the cache. Every pass then defers both again | stop once a pass accepts nothing, since no deferred candidate can be accepted later; the passes then always end and push the same objects | not executed | LegacyIndexer.MutualRequirementNeverEnds | LegacyIndexer.ResolveAgrees |
