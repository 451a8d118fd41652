# cql-services in Dafny

A Dafny model of the decision logic of `cql-services`, the Kotlin glue between a CQL host application, the CQL-to-ELM translator and a FHIR server. The modelled code does the following:

- it orders library versions and picks one candidate among same-named libraries;
- it reads ids and resource types out of canonical URLs;
- it recovers the option fingerprint that a compiled (ELM) library carries in its annotations, and parses it into a set of translator options;
- it keeps four caches that it updates in place (models, decorated libraries, mangled-key libraries, value-set expansions);
- it resolves a library through an ordered chain of content providers: precompiled JSON ELM, then XML ELM, then translation of the CQL source;
- it serves CQL source from the first `text/cql` attachment of a FHIR Library, falling back to an inner provider;
- it extracts `using` definitions, renders translator diagnostics and converts identifiers.

Everything outside this repository is a parameter of the model, given as a total function that may fail (`Err`) or give null (`None`):

- the translator (`LibraryManager.resolveLibrary`, `CqlTranslator.fromStream`, `convertToXml`);
- the ELM readers;
- the model-info loader;
- the resolution provider's `resolveLibraryByName`;
- the attachment accessors;
- the inner `FhirLibrarySourceProvider`;
- `Code.equivalent`.

Java `null` is `Option`, and a thrown exception is an `Err` holding an `Exception` value named after the class the code throws or catches.

Each component is one module, in the file named after the Kotlin source file. Imperative code is modelled in two parts:

- A method on a class follows the source step by step, with its loops, early returns and in-place map updates in `modifies`.
- Its contract ties the result and the new state to a function on values, such as `CachedLoad`, `Resolve`, `ExpandOutcome` or `Selection`.

The lemmas then state the cache invariants, the hit/miss behaviour and the error paths of those functions. Ghost logs (`innerLoads`, `builds`, `innerExpansions`, `loads`) record which collaborator calls a method made.

Where the code and its comments disagree, the model follows the code:

- `compareVersions` splits on the two-character literal `\.`, because Kotlin's `split(String)` takes no regular expression. An ordinary version such as "1.2.0" is therefore one segment, and `toInt` rejects it.
- The segments are parsed lazily, only as far as the comparison gets.
- `selectFromList` returns the last exact match. It never returns the maximum that it computes and that its comment promises. A comparison failure while computing that maximum aborts the selection.
- `TranslatingLibraryLoader.getLibraryContent` does not catch exceptions from the providers, so they propagate.
- `parseTranslatorOptions` trims only the whole string. Its documented example, with a space after the comma, therefore fails.
- In `LibraryLoader.loadLibrary`, a null compiled library fails with a null dereference before the diagnostics are checked.
- `LibraryLoader.loadLibrary` calls `readLibrary` with one argument, which is modelled as reading XML.
- A `text/cql` attachment with null content raises a NullPointerException inside the provider's `try`, so the inner provider answers.
- A null answer from the wrapped terminology provider's `expand` is a NullPointerException. The result is stored in a variable declared non-null, and nothing is cached.
- `Enum.valueOf` is a lookup in a name table that holds every constant under its own name.

## Model

| member | source | states |
|---|---|---|
| `VersionedIdentifierConverter.ToElmIdentifier` | src/main/kotlin/fr/phast/cql/services/converters/VersionedIdentifierConverter.kt:31-35 | system, id and version are copied unchanged |
| `VersionedIdentifierConverter.ToEngineIdentifier` | src/main/kotlin/fr/phast/cql/services/converters/VersionedIdentifierConverter.kt:37-40 | system, id and version are copied unchanged |
| `VersionedIdentifierConverter.EngineRoundTrip` | src/main/kotlin/fr/phast/cql/services/converters/VersionedIdentifierConverter.kt:31-40 | converting an engine identifier to the translator's form and back gives the same identifier |
| `VersionedIdentifierConverter.ElmRoundTrip` | src/main/kotlin/fr/phast/cql/services/converters/VersionedIdentifierConverter.kt:31-40 | converting a translator identifier to the engine's form and back gives the same identifier |
| `UsingHelper.Url` | src/main/kotlin/fr/phast/cql/services/helpers/UsingHelper.kt:51-54 | a url is found exactly for a non-null name that has an entry in the table |
| `UsingHelper.KnownUrls` | src/main/kotlin/fr/phast/cql/services/helpers/UsingHelper.kt:44-54 | FHIR gives "http://hl7.org/fhir", QDM gives "urn:healthit-gov:qdm:v5_4"; a null name or any other name gives null |
| `UsingHelper.TriplesOf` | src/main/kotlin/fr/phast/cql/services/helpers/UsingHelper.kt:39-47 | no contract of its own; the triples of the non-System definitions, stated by TriplesInOrder |
| `UsingHelper.UsingUrlAndVersion` | src/main/kotlin/fr/phast/cql/services/helpers/UsingHelper.kt:34-49 | no contract of its own; getUsingUrlAndVersion on values, stated by the ensures of GetUsingUrlAndVersion and by UsingExample |
| `UsingHelper.TriplesInOrder` | src/main/kotlin/fr/phast/cql/services/helpers/UsingHelper.kt:39-47 | one triple per non-System definition, in input order: the length is the number of non-System definitions, the triple of definition j sits at the count of non-System definitions before j, and every triple is (localIdentifier, version, url) of some non-System definition |
| `UsingHelper.GetUsingUrlAndVersion` | src/main/kotlin/fr/phast/cql/services/helpers/UsingHelper.kt:34-49 | the loop builds exactly the triples of the non-System definitions; null usings or a null definition list give the empty list; no triple names System |
| `UsingHelper.UsingExample` | src/main/kotlin/fr/phast/cql/services/helpers/UsingHelper.kt:34-54 | System is skipped, FHIR gets its url, an unknown model gets a null url |
| `CanonicalHelper.LastIndexOf` | src/main/kotlin/fr/phast/cql/services/helpers/CanonicalHelper.kt:33 | the index holds the character and none follows it; -1 exactly when the character is absent |
| `CanonicalHelper.AfterLastSlash` | src/main/kotlin/fr/phast/cql/services/helpers/CanonicalHelper.kt:33 | the text kept contains no '/' |
| `CanonicalHelper.GetId` | src/main/kotlin/fr/phast/cql/services/helpers/CanonicalHelper.kt:31-35 | no contract of its own; getId, stated by GetIdIsLastSegment, GetIdWithoutSeparators, GetIdIdempotent, GetIdOfParts and GetIdExample |
| `CanonicalHelper.GetIdIsLastSegment` | src/main/kotlin/fr/phast/cql/services/helpers/CanonicalHelper.kt:31-35 | the id contains neither '/' nor '\|'; it starts right after the last '/' (or at the start) and ends at the first '\|' after it (or at the end) |
| `CanonicalHelper.GetIdWithoutSeparators` | src/main/kotlin/fr/phast/cql/services/helpers/CanonicalHelper.kt:32-34 | a value containing neither '/' nor '\|' is returned unchanged |
| `CanonicalHelper.GetIdIdempotent` | src/main/kotlin/fr/phast/cql/services/helpers/CanonicalHelper.kt:31-35 | getId of an id is that id |
| `CanonicalHelper.GetIdOfParts` | src/main/kotlin/fr/phast/cql/services/helpers/CanonicalHelper.kt:33-34 | base + "/" + id + "\|" + version gives back id when id has no '/' or '\|' and version has no '/' |
| `CanonicalHelper.GetIdExample` | src/main/kotlin/fr/phast/cql/services/helpers/CanonicalHelper.kt:31-35 | "http://a/Library/abc\|1.0" gives "abc" |
| `CanonicalHelper.RemoveAll` | src/main/kotlin/fr/phast/cql/services/helpers/CanonicalHelper.kt:40 | no contract of its own; `replace(pattern, "")`, stated by RemoveAllIsSplitJoin and RemoveRepeatedSegment |
| `CanonicalHelper.RemoveAllIsSplitJoin` | src/main/kotlin/fr/phast/cql/services/helpers/CanonicalHelper.kt:40 | `replace(pattern, "")` removes every occurrence: it equals splitting at the occurrences and joining with nothing |
| `CanonicalHelper.GetResourceNameAsWritten` | src/main/kotlin/fr/phast/cql/services/helpers/CanonicalHelper.kt:37-44 | the code: null exactly when there is no '/'; a non-null result has no '/' |
| `CanonicalHelper.GetResourceName` | src/main/kotlin/fr/phast/cql/services/helpers/CanonicalHelper.kt:37-44 | the intended reading: null exactly when there is no '/'; a non-null result has no '/' |
| `CanonicalHelper.GetResourceNameIsPenultimateSegment` | src/main/kotlin/fr/phast/cql/services/helpers/CanonicalHelper.kt:39-41 | the intended name is the segment between the last two '/' (or from the start): canonical = p + name + "/" + t with no '/' in t and p empty or ending in '/' |
| `CanonicalHelper.AsWrittenAgreesWithoutRepeat` | src/main/kotlin/fr/phast/cql/services/helpers/CanonicalHelper.kt:40-41 | when the final "/segment" occurs nowhere earlier, the code gives the intended name |
| `CanonicalHelper.ResourceNameExample` | src/main/kotlin/fr/phast/cql/services/helpers/CanonicalHelper.kt:37-44 | "Library/abc" gives "Library", as written and as intended |
| `CanonicalHelper.ResourceNameOfRepeatedSegment` | src/main/kotlin/fr/phast/cql/services/helpers/CanonicalHelper.kt:40-41 | "a/Library/Lib" gives "arary" as written but "Library" as intended |
| `CanonicalHelper.RemoveRepeatedSegment` | src/main/kotlin/fr/phast/cql/services/helpers/CanonicalHelper.kt:40 | replace-all removes "/Lib" both from the end and from inside "/Library" |
| `Common.SharedMap.constructor` | src/main/kotlin/fr/phast/cql/services/decorators/CacheAwareLibraryLoaderDecorator.kt:44 | a mutable map (`mutableMapOf()`, also at CacheAwareModelManager.kt:34) starts with the contents it is given, and whoever holds the object shares it |
| `Common.OptionValueOf` | src/main/kotlin/fr/phast/cql/services/utils/TranslatorOptionUtil.kt:110 | `valueOf` succeeds only with the constant whose name is exactly the text, and otherwise fails naming the text |
| `Common.OptionValueOfName` | src/main/kotlin/fr/phast/cql/services/utils/TranslatorOptionUtil.kt:110 | every constant is found under its own name |
| `Common.ParseInt` | src/main/kotlin/fr/phast/cql/services/providers/LibraryResolutionProvider.kt:79-80 | `toInt` gives a 32-bit value or a NumberFormatException naming the text |
| `Common.ParseIntOfIntToString` | src/main/kotlin/fr/phast/cql/services/providers/LibraryResolutionProvider.kt:79-80 | a round trip that pins the value `toInt` gives: the decimal rendering of every 32-bit integer parses back to that integer |
| `TranslatorOptionUtil.AnnotationOptions` | src/main/kotlin/fr/phast/cql/services/utils/TranslatorOptionUtil.kt:55-94 | no contract of its own; the annotation scan, stated by FirstDecisionWins, NoDecisionIsNull, InfoWithoutOptionsEndsScan, SkipsWhatDoesNotDecide and ScanAnnotations |
| `TranslatorOptionUtil.FirstDecisionWins` | src/main/kotlin/fr/phast/cql/services/utils/TranslatorOptionUtil.kt:56-93 | annotations are scanned in order and the first one that decides gives the result, whatever follows |
| `TranslatorOptionUtil.NoDecisionIsNull` | src/main/kotlin/fr/phast/cql/services/utils/TranslatorOptionUtil.kt:56-93 | when no annotation decides, the result is null |
| `TranslatorOptionUtil.InfoWithoutOptionsEndsScan` | src/main/kotlin/fr/phast/cql/services/utils/TranslatorOptionUtil.kt:60-62 | a CqlToElmInfo with null options ends the scan with null |
| `TranslatorOptionUtil.SkipsWhatDoesNotDecide` | src/main/kotlin/fr/phast/cql/services/utils/TranslatorOptionUtil.kt:65-90 | a map without the "translatorOptions" key and an XML element without that attribute are skipped |
| `TranslatorOptionUtil.ScanAnnotations` | src/main/kotlin/fr/phast/cql/services/utils/TranslatorOptionUtil.kt:55-94 | the loop, with its returns and continues, gives the first decision, and null when none decides |
| `TranslatorOptionUtil.TrimStart` | src/main/kotlin/fr/phast/cql/services/utils/TranslatorOptionUtil.kt:108 | the result is a suffix of the input that does not start with a blank (a character up to ' ') |
| `TranslatorOptionUtil.TrimStartRemovesBlanks` | src/main/kotlin/fr/phast/cql/services/utils/TranslatorOptionUtil.kt:108 | every character removed before that suffix is blank |
| `TranslatorOptionUtil.TrimEnd` | src/main/kotlin/fr/phast/cql/services/utils/TranslatorOptionUtil.kt:108 | the result is a prefix of the input that does not end with a blank |
| `TranslatorOptionUtil.TrimEndRemovesBlanks` | src/main/kotlin/fr/phast/cql/services/utils/TranslatorOptionUtil.kt:108 | every character removed after that prefix is blank |
| `TranslatorOptionUtil.Trim` | src/main/kotlin/fr/phast/cql/services/utils/TranslatorOptionUtil.kt:108 | the trimmed text sits at some index of the input, only blanks (characters up to ' ') come before and after it, and it has no blank at either end: exactly the leading and trailing blanks are removed |
| `TranslatorOptionUtil.ParseAll` | src/main/kotlin/fr/phast/cql/services/utils/TranslatorOptionUtil.kt:107-112 | no contract of its own; the `add` of each piece's constant, stated by ParseAllMeaning, ParseAllIgnoresOrder and ParsePieces |
| `TranslatorOptionUtil.ParsedOptions` | src/main/kotlin/fr/phast/cql/services/utils/TranslatorOptionUtil.kt:103-113 | no contract of its own; parseTranslatorOptions on values, stated by the ensures of ParseTranslatorOptions and by OrderAndRepetition, SpaceAfterCommaFails and EmptyStringFails |
| `TranslatorOptionUtil.ParseAllMeaning` | src/main/kotlin/fr/phast/cql/services/utils/TranslatorOptionUtil.kt:107-112 | parsing succeeds exactly when every piece is an option name, and the set then holds exactly the options named; otherwise the error names the first piece that is not a name |
| `TranslatorOptionUtil.ParseAllIgnoresOrder` | src/main/kotlin/fr/phast/cql/services/utils/TranslatorOptionUtil.kt:107-112 | piece lists with the same elements, in any order and with any repetition, parse alike |
| `TranslatorOptionUtil.ParsePieces` | src/main/kotlin/fr/phast/cql/services/utils/TranslatorOptionUtil.kt:109-111 | the `add` loop gives the parse of all pieces, or the first piece's failure |
| `TranslatorOptionUtil.ParseTranslatorOptions` | src/main/kotlin/fr/phast/cql/services/utils/TranslatorOptionUtil.kt:103-113 | null gives null; otherwise the set holds exactly the options named by the pieces of the trimmed text split on "," |
| `TranslatorOptionUtil.OrderAndRepetition` | src/main/kotlin/fr/phast/cql/services/utils/TranslatorOptionUtil.kt:107-112 | "x,y" and "y,x,y" both give {a, b} for option names x, y |
| `TranslatorOptionUtil.OrderAndRepetitionExample` | src/main/kotlin/fr/phast/cql/services/utils/TranslatorOptionUtil.kt:107-112 | "EnableAnnotations,EnableLocators" gives both options and equals "EnableLocators,EnableAnnotations,EnableLocators" |
| `TranslatorOptionUtil.SpaceAfterCommaFails` | src/main/kotlin/fr/phast/cql/services/utils/TranslatorOptionUtil.kt:108-111 | "EnableAnnotations, EnableLocators" fails on " EnableLocators" |
| `TranslatorOptionUtil.NotAName` | src/main/kotlin/fr/phast/cql/services/utils/TranslatorOptionUtil.kt:110 | no option name starts with a space |
| `TranslatorOptionUtil.EmptyStringFails` | src/main/kotlin/fr/phast/cql/services/utils/TranslatorOptionUtil.kt:108-111 | an empty option string is one empty piece, which fails |
| `TranslatorOptionUtil.GetTranslatorOptions` | src/main/kotlin/fr/phast/cql/services/utils/TranslatorOptionUtil.kt:43-50 | null annotations or an empty list give null; otherwise the scan's string, parsed |
| `TranslatorOptionUtil.OptionsMatch` | src/main/kotlin/fr/phast/cql/services/decorators/CacheAwareLibraryLoaderDecorator.kt:59-63 | true exactly when the recovered set equals the configured one; a library without a fingerprint does not match; a parse failure propagates |
| `LibraryResolution.SegmentValue` | src/main/kotlin/fr/phast/cql/services/providers/LibraryResolutionProvider.kt:79-80 | no contract of its own; segment i parsed with toInt, 0 past the end; stated by SegmentValueIsHead and CompareFromIsLexOrder |
| `LibraryResolution.SegmentValueIsHead` | src/main/kotlin/fr/phast/cql/services/providers/LibraryResolutionProvider.kt:79-80 | on segments that parse to the values x, segment i is x[i], and 0 when i is past the end |
| `LibraryResolution.VersionOrder` | src/main/kotlin/fr/phast/cql/services/providers/LibraryResolutionProvider.kt:64-93 | no contract of its own; compareVersions on values, stated by the ensures of CompareVersions and by VersionOrderIsLexOrder, VersionOrderAntisymmetric, OrdinaryDottedVersionFails and DottedExample |
| `LibraryResolution.CompareVersions` | src/main/kotlin/fr/phast/cql/services/providers/LibraryResolutionProvider.kt:64-93 | the loop with early returns computes the comparison: null with null is 0, a non-null version before null is -1, null before a non-null version is 1, and any result is in -1..1 |
| `LibraryResolution.CompareFrom` | src/main/kotlin/fr/phast/cql/services/providers/LibraryResolutionProvider.kt:78-92 | a successful comparison is -1, 0 or 1 |
| `LibraryResolution.CompareFromIsLexOrder` | src/main/kotlin/fr/phast/cql/services/providers/LibraryResolutionProvider.kt:77-92 | on segments that all parse, the comparison is the lexicographic order of their values, a missing segment reading as 0 |
| `LibraryResolution.VersionOrderIsLexOrder` | src/main/kotlin/fr/phast/cql/services/providers/LibraryResolutionProvider.kt:64-93 | for two versions whose segments parse, compareVersions is the lexicographic order |
| `LibraryResolution.LexOrderIgnoresTrailingZero` | src/main/kotlin/fr/phast/cql/services/providers/LibraryResolutionProvider.kt:79-80 | a trailing 0 segment changes no comparison |
| `LibraryResolution.OneEqualsOneZero` | src/main/kotlin/fr/phast/cql/services/providers/LibraryResolutionProvider.kt:77-92 | [1] and [1, 0] compare equal |
| `LibraryResolution.LexOrderAntisymmetric` | src/main/kotlin/fr/phast/cql/services/providers/LibraryResolutionProvider.kt:83-88 | swapping the operands negates the order of the segment values |
| `LibraryResolution.CompareFromAntisymmetric` | src/main/kotlin/fr/phast/cql/services/providers/LibraryResolutionProvider.kt:78-92 | a successful comparison of the segment lists stays successful when swapped, with the opposite sign |
| `LibraryResolution.VersionOrderAntisymmetric` | src/main/kotlin/fr/phast/cql/services/providers/LibraryResolutionProvider.kt:64-93 | wherever compareVersions(a, b) is defined, compareVersions(b, a) is its negation |
| `LibraryResolution.SingleSegment` | src/main/kotlin/fr/phast/cql/services/providers/LibraryResolutionProvider.kt:75-76 | a version without a backslash is a single segment |
| `LibraryResolution.OrdinaryDottedVersionFails` | src/main/kotlin/fr/phast/cql/services/providers/LibraryResolutionProvider.kt:75-80 | a version without a backslash that is not a plain integer makes every comparison with it fail, in either position |
| `LibraryResolution.DottedExample` | src/main/kotlin/fr/phast/cql/services/providers/LibraryResolutionProvider.kt:75-80 | comparing "1.2" with "1.2.0" fails on "1.2" |
| `LibraryResolution.Selection` | src/main/kotlin/fr/phast/cql/services/providers/LibraryResolutionProvider.kt:39-62 | no contract of its own; selectFromList on values, stated by the ensures of SelectFromList and by LastMatchIsLast, MaximumIsNotReturned and DottedCandidatesFail |
| `LibraryResolution.LastMatchIsLast` | src/main/kotlin/fr/phast/cql/services/providers/LibraryResolutionProvider.kt:46-50 | the match found is an element with the requested version, with no such element after it; there is none exactly when no element has that version |
| `LibraryResolution.SelectFromList` | src/main/kotlin/fr/phast/cql/services/providers/LibraryResolutionProvider.kt:39-62 | the single pass gives the selection: empty input gives null; a non-null result is the last element with the requested version; when the pass completes, null means no element has that version |
| `LibraryResolution.MaximumIsNotReturned` | src/main/kotlin/fr/phast/cql/services/providers/LibraryResolutionProvider.kt:51-61 | with candidates "1" and "2" the maximum is "2", yet requesting "3" gives null |
| `LibraryResolution.DottedCandidatesFail` | src/main/kotlin/fr/phast/cql/services/providers/LibraryResolutionProvider.kt:51-57 | with candidates "1.0", "2.0", "1.5", requesting "1.5" fails on "1.0" although a match exists |
| `Managers.BuildModel` | src/main/kotlin/fr/phast/cql/services/managers/CacheAwareModelManager.kt:61-82 | the model exists exactly when the model info loads, and wraps it; it is a SystemModel exactly for id "System"; a missing class becomes an error naming id and version; other failures pass through |
| `Managers.Resolve` | src/main/kotlin/fr/phast/cql/services/managers/CacheAwareModelManager.kt:36-59 | no contract of its own; resolveModel on the caches' values, stated by ResolveBindsName, ResolveOnlyAdds, LocalHitWithoutVersion, LocalHitOtherVersion, GlobalHit, FullMiss, SecondCall and the ensures of CacheAwareModelManager.ResolveModel |
| `Managers.ResolveBindsName` | src/main/kotlin/fr/phast/cql/services/managers/CacheAwareModelManager.kt:36-59 | after a successful call the local cache binds the requested id to the returned model |
| `Managers.ResolveOnlyAdds` | src/main/kotlin/fr/phast/cql/services/managers/CacheAwareModelManager.kt:49-57 | existing local and global entries are never replaced or removed; only the requested id and identifier are added; the global cache changes only when a model is built for an identifier it lacked |
| `Managers.LocalHitWithoutVersion` | src/main/kotlin/fr/phast/cql/services/managers/CacheAwareModelManager.kt:38-40 | a bound id requested with a null version gives the bound model; neither cache changes and nothing is built |
| `Managers.LocalHitOtherVersion` | src/main/kotlin/fr/phast/cql/services/managers/CacheAwareModelManager.kt:40-47 | a bound id requested with another non-null version fails with a message naming both versions; neither cache changes |
| `Managers.GlobalHit` | src/main/kotlin/fr/phast/cql/services/managers/CacheAwareModelManager.kt:49-52 | on a local miss, a global entry for the exact identifier is returned and bound locally under the id |
| `Managers.FullMiss` | src/main/kotlin/fr/phast/cql/services/managers/CacheAwareModelManager.kt:53-57 | on a full miss the model is built once and stored globally under the identifier and locally under the id |
| `Managers.SecondCall` | src/main/kotlin/fr/phast/cql/services/managers/CacheAwareModelManager.kt:38-58 | a second call with the same identifier never builds and changes nothing; it returns the same model unless the request's version differs from the model's own |
| `Managers.SecondCallRefusedExample` | src/main/kotlin/fr/phast/cql/services/managers/CacheAwareModelManager.kt:38-57 | a model built for version 4.0.0 whose info says 4.0.1 is refused on the next identical request |
| `Managers.CacheAwareModelManager.constructor` | src/main/kotlin/fr/phast/cql/services/managers/CacheAwareModelManager.kt:32-34 | the given global cache is shared and the local cache starts empty |
| `Managers.CacheAwareModelManager.ResolveModel` | src/main/kotlin/fr/phast/cql/services/managers/CacheAwareModelManager.kt:36-59 | the step-by-step refinement of `model` leaves the result and both caches as Resolve says, and builds exactly when Resolve does |
| `LibraryLoaderDecorator.CachedLoad` | src/main/kotlin/fr/phast/cql/services/decorators/CacheAwareLibraryLoaderDecorator.kt:46-57 | no contract of its own; load on the cache's value, stated by FreshHit, StaleDelegates, UnparsableFingerprintFails, OnlyRequestedKeyChanges, SecondLoad, UnannotatedLibraryIsAlwaysReloaded and the ensures of CacheAwareLibraryLoaderDecorator.Load |
| `LibraryLoaderDecorator.Delegate` | src/main/kotlin/fr/phast/cql/services/decorators/CacheAwareLibraryLoaderDecorator.kt:51-56 | no contract of its own; the delegating branch of load, stated by StaleDelegates and OnlyRequestedKeyChanges |
| `LibraryLoaderDecorator.FreshHit` | src/main/kotlin/fr/phast/cql/services/decorators/CacheAwareLibraryLoaderDecorator.kt:47-50 | a cached library whose fingerprint is exactly the configured set is returned without an inner call; the cache is unchanged |
| `LibraryLoaderDecorator.StaleDelegates` | src/main/kotlin/fr/phast/cql/services/decorators/CacheAwareLibraryLoaderDecorator.kt:47-56 | a miss or a fingerprint that is null or names another set delegates: the inner answer is returned, a library replaces the entry, null or a failure leaves the cache alone |
| `LibraryLoaderDecorator.UnparsableFingerprintFails` | src/main/kotlin/fr/phast/cql/services/decorators/CacheAwareLibraryLoaderDecorator.kt:59-61 | a cached fingerprint that does not parse fails the load before the inner loader is asked |
| `LibraryLoaderDecorator.OnlyRequestedKeyChanges` | src/main/kotlin/fr/phast/cql/services/decorators/CacheAwareLibraryLoaderDecorator.kt:51-56 | no other key changes; a returned library is what the cache holds under the id; a null answer or a failure changes nothing |
| `LibraryLoaderDecorator.SecondLoad` | src/main/kotlin/fr/phast/cql/services/decorators/CacheAwareLibraryLoaderDecorator.kt:47-50 | after a load that returned a library, the next load of the id skips the inner loader exactly when that library's fingerprint is the configured set (it is served again) or does not parse |
| `LibraryLoaderDecorator.UnannotatedLibraryIsAlwaysReloaded` | src/main/kotlin/fr/phast/cql/services/decorators/CacheAwareLibraryLoaderDecorator.kt:48 | a library without annotations, as XML-read ELM is, never matches: each load reaches the inner loader, and so does the next |
| `LibraryLoaderDecorator.CacheAwareLibraryLoaderDecorator.constructor` | src/main/kotlin/fr/phast/cql/services/decorators/CacheAwareLibraryLoaderDecorator.kt:37-44 | a given cache is shared; a null one becomes a fresh empty private map; options and library manager are the inner loader's |
| `LibraryLoaderDecorator.CacheAwareLibraryLoaderDecorator.WithoutCache` | src/main/kotlin/fr/phast/cql/services/decorators/CacheAwareLibraryLoaderDecorator.kt:42 | the secondary constructor starts with a fresh empty private map |
| `LibraryLoaderDecorator.CacheAwareLibraryLoaderDecorator.TranslatorOptionsMatch` | src/main/kotlin/fr/phast/cql/services/decorators/CacheAwareLibraryLoaderDecorator.kt:59-63 | true exactly when the library's recovered option set is the inner loader's |
| `LibraryLoaderDecorator.CacheAwareLibraryLoaderDecorator.Load` | src/main/kotlin/fr/phast/cql/services/decorators/CacheAwareLibraryLoaderDecorator.kt:46-57 | result, new cache and inner calls are those of CachedLoad on the old cache |
| `TranslatingLoader.FirstContent` | src/main/kotlin/fr/phast/cql/services/loaders/TranslatingLibraryLoader.kt:103-114 | no contract of its own; the provider loop on values, stated by FirstContentMeaning and the ensures of TranslatingLibraryLoader.GetLibraryContent |
| `TranslatingLoader.FirstContentMeaning` | src/main/kotlin/fr/phast/cql/services/loaders/TranslatingLibraryLoader.kt:103-114 | providers are asked in order up to the first that gives content or throws; that answer is the result and no later provider is asked; null exactly when every provider gives null |
| `TranslatingLoader.LibraryFromElm` | src/main/kotlin/fr/phast/cql/services/loaders/TranslatingLibraryLoader.kt:74-95 | no contract of its own; getLibraryFromElm on values, stated by JsonElmWins, XmlElmAfterJson, ElmReadFailuresSwallowed and NoPrecompiledElm |
| `TranslatingLoader.JsonElmWins` | src/main/kotlin/fr/phast/cql/services/loaders/TranslatingLibraryLoader.kt:76-84 | JSON ELM that reads is returned and XML is never asked for |
| `TranslatingLoader.XmlElmAfterJson` | src/main/kotlin/fr/phast/cql/services/loaders/TranslatingLibraryLoader.kt:85-94 | with JSON absent or unreadable, the answer is the readable XML ELM, a provider failure, or null |
| `TranslatingLoader.ElmReadFailuresSwallowed` | src/main/kotlin/fr/phast/cql/services/loaders/TranslatingLibraryLoader.kt:74-95 | reader failures never surface: a failure is a provider's own, and with no provider failure the lookup succeeds |
| `TranslatingLoader.FirstErrorIndex` | src/main/kotlin/fr/phast/cql/services/loaders/TranslatingLibraryLoader.kt:127-139 | the first Error-severity diagnostic, or -1 exactly when there is none |
| `TranslatingLoader.CompilerFailureOutcome` | src/main/kotlin/fr/phast/cql/services/loaders/TranslatingLibraryLoader.kt:118-126 | a compiler exception becomes "Unable translate library" with the id |
| `TranslatingLoader.ErrorDiagnosticAborts` | src/main/kotlin/fr/phast/cql/services/loaders/TranslatingLibraryLoader.kt:127-139 | an Error-severity diagnostic aborts with the id and the message of the first such diagnostic |
| `TranslatingLoader.WarningsDoNotAbort` | src/main/kotlin/fr/phast/cql/services/loaders/TranslatingLibraryLoader.kt:127-150 | without Error-severity diagnostics the compiled library goes on to be mapped |
| `TranslatingLoader.MapToEngine` | src/main/kotlin/fr/phast/cql/services/loaders/TranslatingLibraryLoader.kt:140-150 | no contract of its own; the mapping to the engine's library, stated by MapToEngineOutcomes |
| `TranslatingLoader.Translation` | src/main/kotlin/fr/phast/cql/services/loaders/TranslatingLibraryLoader.kt:116-151 | no contract of its own; translate on values, stated by CompilerFailureOutcome, ErrorDiagnosticAborts, WarningsDoNotAbort and the ensures of TranslatingLibraryLoader.Translate |
| `TranslatingLoader.MapToEngineOutcomes` | src/main/kotlin/fr/phast/cql/services/loaders/TranslatingLibraryLoader.kt:140-150 | no compiled library gives null; otherwise success exactly when rendering and reading back both succeed, and any failure is "Mapping of library %s failed" |
| `TranslatingLoader.TranslatedOrThrow` | src/main/kotlin/fr/phast/cql/services/loaders/TranslatingLibraryLoader.kt:71 | a null translation is `throw Exception()`; a library passes through |
| `TranslatingLoader.LoadChoice` | src/main/kotlin/fr/phast/cql/services/loaders/TranslatingLibraryLoader.kt:64-71 | no contract of its own; the choice between the ELM found and the translation, stated by LoadReusesMatchingElm, LoadTranslatesOtherwise and LoadResultSource |
| `TranslatingLoader.LoadOutcome` | src/main/kotlin/fr/phast/cql/services/loaders/TranslatingLibraryLoader.kt:64-72 | no contract of its own; load on values, stated by LoadReusesMatchingElm, LoadTranslatesOtherwise, LoadResultSource, AsInnerLoader and the ensures of TranslatingLibraryLoader.Load |
| `TranslatingLoader.LoadReusesMatchingElm` | src/main/kotlin/fr/phast/cql/services/loaders/TranslatingLibraryLoader.kt:64-69 | precompiled ELM whose fingerprint is exactly the loader's options is returned as it is |
| `TranslatingLoader.LoadTranslatesOtherwise` | src/main/kotlin/fr/phast/cql/services/loaders/TranslatingLibraryLoader.kt:71 | without ELM, or with a fingerprint that is null or names other options, load translates, and a null translation throws |
| `TranslatingLoader.LoadResultSource` | src/main/kotlin/fr/phast/cql/services/loaders/TranslatingLibraryLoader.kt:64-72 | a loaded library is the matching ELM or the translation |
| `TranslatingLoader.AsInnerLoader` | src/main/kotlin/fr/phast/cql/services/loaders/TranslatingLibraryLoader.kt:48-72 | seen through the decorator's interface, load never answers null, and it succeeds exactly when the loader's load does |
| `TranslatingLoader.TranslatingLibraryLoader.constructor` | src/main/kotlin/fr/phast/cql/services/loaders/TranslatingLibraryLoader.kt:48-54 | null options become the default options |
| `TranslatingLoader.TranslatingLibraryLoader.GetLibraryContent` | src/main/kotlin/fr/phast/cql/services/loaders/TranslatingLibraryLoader.kt:103-114 | the provider loop gives the first content or failure and asks exactly the providers up to it |
| `TranslatingLoader.TranslatingLibraryLoader.GetLibraryFromElm` | src/main/kotlin/fr/phast/cql/services/loaders/TranslatingLibraryLoader.kt:74-95 | JSON is always asked for first; XML is asked for exactly when JSON was absent or did not read |
| `TranslatingLoader.TranslatingLibraryLoader.TranslatorOptionsMatch` | src/main/kotlin/fr/phast/cql/services/loaders/TranslatingLibraryLoader.kt:97-101 | true exactly when the recovered option set is the loader's |
| `TranslatingLoader.TranslatingLibraryLoader.Translate` | src/main/kotlin/fr/phast/cql/services/loaders/TranslatingLibraryLoader.kt:116-151 | the diagnostics loop and the mapping give the translation outcome |
| `TranslatingLoader.TranslatingLibraryLoader.Load` | src/main/kotlin/fr/phast/cql/services/loaders/TranslatingLibraryLoader.kt:64-72 | the method gives the load outcome |
| `EngineLibraryLoader.MangleIdentifier` | src/main/kotlin/fr/phast/cql/services/loaders/LibraryLoader.kt:67-71 | no contract of its own; the cache key, stated by MangleShape, MangleInjectiveWithoutDash and MangleCollision |
| `EngineLibraryLoader.MangleShape` | src/main/kotlin/fr/phast/cql/services/loaders/LibraryLoader.kt:67-71 | the key is the id without a version, else the id followed by "-" and the version; the system plays no part |
| `EngineLibraryLoader.MangleInjectiveWithoutDash` | src/main/kotlin/fr/phast/cql/services/loaders/LibraryLoader.kt:67-71 | for ids without a dash, the key determines id and version |
| `EngineLibraryLoader.MangleCollision` | src/main/kotlin/fr/phast/cql/services/loaders/LibraryLoader.kt:70 | ("a-b", no version) and ("a", "b") share the key "a-b" |
| `EngineLibraryLoader.TranslatingErrorMessageExamples` | src/main/kotlin/fr/phast/cql/services/loaders/LibraryLoader.kt:94-100 | the JAXB message reads "Errors occurred translating library lib-1.0." with a version and "…library lib." without |
| `EngineLibraryLoader.TranslateAndRead` | src/main/kotlin/fr/phast/cql/services/loaders/LibraryLoader.kt:84-93 | no contract of its own; the inside of the try block, stated by TranslatorErrorsReported, JaxbFailureReported and LoadLibrarySucceeds |
| `EngineLibraryLoader.LoadLibraryOutcome` | src/main/kotlin/fr/phast/cql/services/loaders/LibraryLoader.kt:73-102 | no contract of its own; loadLibrary on values, stated by TranslationErrorsReported, TranslatorErrorsReported, JaxbFailureReported, LoadLibrarySucceeds and the ensures of LibraryLoader.LoadLibrary |
| `EngineLibraryLoader.TranslationErrorsReported` | src/main/kotlin/fr/phast/cql/services/loaders/LibraryLoader.kt:80-82 | Error-severity diagnostics raise IllegalArgumentException with errorsToString of all the diagnostics |
| `EngineLibraryLoader.TranslatorErrorsReported` | src/main/kotlin/fr/phast/cql/services/loaders/LibraryLoader.kt:84-87 | errors of the translator built from empty source are reported the same way |
| `EngineLibraryLoader.JaxbFailureReported` | src/main/kotlin/fr/phast/cql/services/loaders/LibraryLoader.kt:94-100 | a JAXB failure becomes "Errors occurred translating library id[-version]." |
| `EngineLibraryLoader.LoadLibrarySucceeds` | src/main/kotlin/fr/phast/cql/services/loaders/LibraryLoader.kt:83-93 | when every step succeeds the library is the XML rendering read back |
| `EngineLibraryLoader.ResolveOutcome` | src/main/kotlin/fr/phast/cql/services/loaders/LibraryLoader.kt:55-65 | no contract of its own; resolveLibrary on the map's value, stated by NullIdentifierRefused, CacheHit, CacheMiss, SameKeyServedFromMap, CollidingIdentifierServedOtherLibrary and the ensures of LibraryLoader.ResolveLibrary |
| `EngineLibraryLoader.NullIdentifierRefused` | src/main/kotlin/fr/phast/cql/services/loaders/LibraryLoader.kt:56-57 | a null identifier or a null id fails with its message before anything is looked up |
| `EngineLibraryLoader.CacheHit` | src/main/kotlin/fr/phast/cql/services/loaders/LibraryLoader.kt:59-64 | a key in the map is served without loading |
| `EngineLibraryLoader.CacheMiss` | src/main/kotlin/fr/phast/cql/services/loaders/LibraryLoader.kt:60-63 | a miss loads; a loaded library is stored under the key and nothing else changes; a failure stores nothing |
| `EngineLibraryLoader.SameKeyServedFromMap` | src/main/kotlin/fr/phast/cql/services/loaders/LibraryLoader.kt:58-64 | after a successful call any identifier with the same key is served the same library without loading |
| `EngineLibraryLoader.CollidingIdentifierServedOtherLibrary` | src/main/kotlin/fr/phast/cql/services/loaders/LibraryLoader.kt:58-70 | once ("a-b", no version) is loaded, ("a", "b") is served that library |
| `EngineLibraryLoader.LibraryLoader.constructor` | src/main/kotlin/fr/phast/cql/services/loaders/LibraryLoader.kt:38-41 | the map starts empty |
| `EngineLibraryLoader.LibraryLoader.Load` | src/main/kotlin/fr/phast/cql/services/loaders/LibraryLoader.kt:51-53 | load is resolveLibrary |
| `EngineLibraryLoader.LibraryLoader.ResolveLibrary` | src/main/kotlin/fr/phast/cql/services/loaders/LibraryLoader.kt:55-65 | result, new map and loads are those of ResolveOutcome on the old map |
| `EngineLibraryLoader.LibraryLoader.LoadLibrary` | src/main/kotlin/fr/phast/cql/services/loaders/LibraryLoader.kt:73-102 | the method gives the load outcome, with the JAXB catch around the try block |
| `TerminologyDecorator.ExpandOutcome` | src/main/kotlin/fr/phast/cql/services/decorators/CacheAwareTerminologyDecorator.kt:46-53 | no contract of its own; expand on the cache's value, stated by ExpandHit, ExpandMiss, ExpandMissFails, SameIdSharesEntry and the ensures of CacheAwareTerminologyDecorator.Expand |
| `TerminologyDecorator.ExpandHit` | src/main/kotlin/fr/phast/cql/services/decorators/CacheAwareTerminologyDecorator.kt:47-49 | a hit returns the cached codes without asking the wrapped provider; nothing changes |
| `TerminologyDecorator.ExpandMiss` | src/main/kotlin/fr/phast/cql/services/decorators/CacheAwareTerminologyDecorator.kt:50-52 | a miss asks once, stores the codes under the value set's id and returns them; no other key changes |
| `TerminologyDecorator.ExpandMissFails` | src/main/kotlin/fr/phast/cql/services/decorators/CacheAwareTerminologyDecorator.kt:50 | a null or failing inner expansion fails and stores nothing |
| `TerminologyDecorator.SameIdSharesEntry` | src/main/kotlin/fr/phast/cql/services/decorators/CacheAwareTerminologyDecorator.kt:47-51 | value sets with equal ids share an entry, whatever their versions |
| `TerminologyDecorator.InOutcome` | src/main/kotlin/fr/phast/cql/services/decorators/CacheAwareTerminologyDecorator.kt:36-44 | a null expansion gives false, a failure propagates, otherwise true exactly when some code is equivalent |
| `TerminologyDecorator.CacheAwareTerminologyDecorator.constructor` | src/main/kotlin/fr/phast/cql/services/decorators/CacheAwareTerminologyDecorator.kt:32-34 | the given cache is shared |
| `TerminologyDecorator.CacheAwareTerminologyDecorator.Expand` | src/main/kotlin/fr/phast/cql/services/decorators/CacheAwareTerminologyDecorator.kt:46-53 | result, new cache and inner calls are those of ExpandOutcome on the old cache |
| `TerminologyDecorator.CacheAwareTerminologyDecorator.ScanCodes` | src/main/kotlin/fr/phast/cql/services/decorators/CacheAwareTerminologyDecorator.kt:38-43 | true exactly when some code is equivalent; the scan stops at the first match |
| `TerminologyDecorator.CacheAwareTerminologyDecorator.In` | src/main/kotlin/fr/phast/cql/services/decorators/CacheAwareTerminologyDecorator.kt:36-44 | membership in the expansion, filling the cache through expand |
| `TerminologyDecorator.CacheAwareTerminologyDecorator.Lookup` | src/main/kotlin/fr/phast/cql/services/decorators/CacheAwareTerminologyDecorator.kt:55-57 | always the wrapped provider's answer; the cache is not touched |
| `LibrarySources.FirstCql` | src/main/kotlin/fr/phast/cql/services/providers/LibrarySourceProvider.kt:52-58 | no contract of its own; the attachment scan, stated by FirstCqlMeaning, NullCqlContentFallsBack and the ensures of FindCqlAttachment |
| `LibrarySources.Attempt` | src/main/kotlin/fr/phast/cql/services/providers/LibrarySourceProvider.kt:46-59 | no contract of its own; the try block, stated by FoundContentComesFromLibrary and the ensures of AttemptLookup |
| `LibrarySources.SourceOutcome` | src/main/kotlin/fr/phast/cql/services/providers/LibrarySourceProvider.kt:44-64 | no contract of its own; getLibrarySource on values, stated by FoundContentComesFromLibrary, FallsBack, ExceptionsSwallowed, NullCqlContentFallsBack and the ensures of LibrarySourceProvider.GetLibrarySource |
| `LibrarySources.FirstCqlMeaning` | src/main/kotlin/fr/phast/cql/services/providers/LibrarySourceProvider.kt:52-58 | content is found exactly from the first "text/cql" attachment after passed-over ones; nothing is found exactly when every attachment is passed over |
| `LibrarySources.FoundContentComesFromLibrary` | src/main/kotlin/fr/phast/cql/services/providers/LibrarySourceProvider.kt:47-58 | found content comes from the attachments of the library resolved by (id, version) and is returned |
| `LibrarySources.FallsBack` | src/main/kotlin/fr/phast/cql/services/providers/LibrarySourceProvider.kt:60-63 | no library, no attachments, no "text/cql" attachment, or any exception: the inner provider answers |
| `LibrarySources.ExceptionsSwallowed` | src/main/kotlin/fr/phast/cql/services/providers/LibrarySourceProvider.kt:60-63 | only the inner provider's own exceptions surface |
| `LibrarySources.NullCqlContentFallsBack` | src/main/kotlin/fr/phast/cql/services/providers/LibrarySourceProvider.kt:55-63 | null content of a "text/cql" attachment fails inside the try and falls back |
| `LibrarySources.FindCqlAttachment` | src/main/kotlin/fr/phast/cql/services/providers/LibrarySourceProvider.kt:52-58 | the attachment loop gives the scan's result; attachments after a match or an exception are never inspected |
| `LibrarySources.AttemptLookup` | src/main/kotlin/fr/phast/cql/services/providers/LibrarySourceProvider.kt:46-59 | the try block as statements gives the lookup's attempt |
| `LibrarySources.LibrarySourceProvider.constructor` | src/main/kotlin/fr/phast/cql/services/providers/LibrarySourceProvider.kt:35-42 | the collaborators are kept |
| `LibrarySources.LibrarySourceProvider.GetLibrarySource` | src/main/kotlin/fr/phast/cql/services/providers/LibrarySourceProvider.kt:44-64 | the method gives the source outcome |
| `ContentProviders.ContentOutcome` | src/main/kotlin/fr/phast/cql/services/providers/LibraryContentProviderImpl.kt:43-74 | no contract of its own; getLibraryContent on values, stated by NonCqlKindIsNull, LibrarySourceIsCqlContent and the ensures of LibraryContentProviderImpl.GetLibraryContent |
| `ContentProviders.DefaultLibrarySource` | src/main/kotlin/fr/phast/cql/services/providers/LibraryContentProvider.kt:10-12 | no contract of its own; the interface's default getLibrarySource, stated by LibrarySourceIsCqlContent |
| `ContentProviders.NonCqlKindIsNull` | src/main/kotlin/fr/phast/cql/services/providers/LibraryContentProviderImpl.kt:48-50 | any kind other than CQL gives null |
| `ContentProviders.LibrarySourceIsCqlContent` | src/main/kotlin/fr/phast/cql/services/providers/LibraryContentProvider.kt:10-12 | getLibrarySource is getLibraryContent for CQL, which is the attachment lookup with its fallback |
| `ContentProviders.AsContentProvider` | src/main/kotlin/fr/phast/cql/services/providers/LibraryContentProviderImpl.kt:43-50 | as a provider of a translating loader it gives null for every non-CQL kind |
| `ContentProviders.NoPrecompiledElm` | src/main/kotlin/fr/phast/cql/services/providers/LibraryContentProviderImpl.kt:47-50 | a translating loader whose providers are all such implementations finds no ELM |
| `ContentProviders.LibraryContentProviderImpl.constructor` | src/main/kotlin/fr/phast/cql/services/providers/LibraryContentProviderImpl.kt:34-41 | the collaborators are kept |
| `ContentProviders.LibraryContentProviderImpl.GetLibraryContent` | src/main/kotlin/fr/phast/cql/services/providers/LibraryContentProviderImpl.kt:43-74 | the content outcome; the resolution provider is contacted exactly for CQL |
| `ContentProviders.LibraryContentProviderImpl.GetLibrarySource` | src/main/kotlin/fr/phast/cql/services/providers/LibraryContentProvider.kt:10-12 | getLibraryContent for CQL |
| `TranslatorHelper.ReadLibrary` | src/main/kotlin/fr/phast/cql/services/helpers/TranslatorHelper.kt:44-63 | success exactly when XML reads with the XML reader or JXSON with the JSON reader, giving that reader's library; any other type is "unsupported format" |
| `TranslatorHelper.ReadLibraryFailures` | src/main/kotlin/fr/phast/cql/services/helpers/TranslatorHelper.kt:45-62 | a failure is the reader's own exception passed through, or an IllegalArgumentException whose message starts with the format's prefix after an IO (or, for XML, JAXB) failure, or "unsupported format" |
| `TranslatorHelper.TranslatorFlagsAreDefaultsAndMethodInvocation` | src/main/kotlin/fr/phast/cql/services/helpers/TranslatorHelper.kt:74-80 | the five fixed options are the default options plus DisableMethodInvocation |
| `TranslatorHelper.GetTranslator` | src/main/kotlin/fr/phast/cql/services/helpers/TranslatorHelper.kt:72-91 | the translator is built with the fixed options; an IOException with message m becomes an IllegalArgumentException "Errors occurred translating library: m"; a success and every other failure pass through unchanged |
| `TranslatorHelper.LocatorText` | src/main/kotlin/fr/phast/cql/services/helpers/TranslatorHelper.kt:105-110 | no contract of its own; the `%s[%d:%d, %d:%d]` rendering of a locator, stated by EntryExample and EntryWithoutLibraryExample |
| `TranslatorHelper.Entry` | src/main/kotlin/fr/phast/cql/services/helpers/TranslatorHelper.kt:104-111 | without a locator the entry is "[n/a]" followed by the message |
| `TranslatorHelper.Entries` | src/main/kotlin/fr/phast/cql/services/helpers/TranslatorHelper.kt:102-112 | one entry per diagnostic, in order |
| `TranslatorHelper.ErrorsToString` | src/main/kotlin/fr/phast/cql/services/helpers/TranslatorHelper.kt:101-114 | the loop renders "[e1, e2, …]" of the entries: "[]" without diagnostics, "[e]" for one |
| `TranslatorHelper.ErrorsToStringAppend` | src/main/kotlin/fr/phast/cql/services/helpers/TranslatorHelper.kt:111-113 | for every non-empty list, one more diagnostic replaces the closing "]" by ", ", its entry and "]", so the rendering is "[e1, e2, …]" for lists of every length |
| `TranslatorHelper.EntryExample` | src/main/kotlin/fr/phast/cql/services/helpers/TranslatorHelper.kt:105-111 | a versioned locator renders as "lib-1.0[1:2, 3:4]" directly followed by the message |
| `TranslatorHelper.EntryWithoutLibraryExample` | src/main/kotlin/fr/phast/cql/services/helpers/TranslatorHelper.kt:105-111 | a locator without a library has an empty prefix, and a null message renders as "null" |

## Left out

- Concurrency: the `@Synchronized` readers and shared maps touched by several threads. One sequential caller is modelled.
- Logging, `printStackTrace` and the log messages in the catch blocks. Only the control flow around them is modelled.
- The external translator, the ELM readers, the model-info loader, the resolution provider, the attachment accessors, `FhirLibrarySourceProvider` and `Code.equivalent`.
  - Each is a deterministic function of its arguments: the same call always has the same answer.
  - The LibraryManager's own caching and its use of the model manager are not modelled.
- Managers.BuildModel, Managers.ResolveOnlyAdds and Managers.FullMiss: `Model(modelInfo, this)` (CacheAwareModelManager.kt:69) hands the manager to the translator's Model constructor, which may call `resolveModel` back to load the models it requires. In the model, building a model is a pure wrap of the loaded model info that cannot re-enter `resolveModel`. So "only the requested id and identifier are added" holds without those nested resolutions. A ClassNotFoundException is attributed to the model-info loader alone, not to the Model constructor.
- TranslatingLoader.Translation, EngineLibraryLoader.LoadLibraryOutcome and the loaders' GetCqlTranslatorOptions: `CqlTranslatorOptions` is modelled as its option set, the `.options` that the fingerprint comparison reads (TranslatingLibraryLoader.kt:100, CacheAwareLibraryLoaderDecorator.kt:62). The whole options object reaches `resolveLibrary` (TranslatingLibraryLoader.kt:120-121, and `CqlTranslatorOptions.defaultOptions()` at LibraryLoader.kt:79), but its other settings are not modelled. In the model, two loaders whose options have the same set always get the same translation.
- The model manager that `LibraryLoader` receives, `getModelManager`, and the model manager passed to `getTranslator`. Nothing in the modelled logic reads them.
- `getTranslator(String, …)`. `loadLibrary` calls it only with the empty string, and the model uses the stream overload with empty content.
- UTF-8 encoding of strings to bytes. Content is a byte sequence that the renderers produce directly.
- `translateLibrary`, `toJxson`, `readJxson`'s Jackson mapping and `convertToJxson`. JSON ELM reading is the JSON reader function.
- The reflection on `ElementNSImpl`. It is an annotation variant holding the element's attributes, and a reflection failure is not modelled.
- A JSON map entry that is not a string is skipped by the scan. The cast's lazy failure is not modelled further.
- Null elements inside the annotation, attachment, code, diagnostic and `usings.def` lists are not modelled, because a list holds values here. A null element of `usings.def` would make `def.localIdentifier` throw a NullPointerException (UsingHelper.kt:39-40); `UsingHelper.GetUsingUrlAndVersion` does not capture that.
- CanonicalHelper.GetId, CanonicalHelper.GetResourceNameAsWritten and CanonicalHelper.GetResourceName take the canonical's value as a non-null string. A null `canonical.value` makes `contains`/`lastIndexOf` throw a NullPointerException (CanonicalHelper.kt:32, 38); the model does not capture that path.
- `String.toInt` accepts only ASCII digits here. Unicode digit characters, which Java also accepts, are left out.
- The files LibraryResourceProvider.kt, ProviderFactory.kt, LibraryService.kt and LibraryHelper.kt are not part of this model. They are REST clients, object wiring and remote lookups; their failures reach the model only as `Err` answers of the resolution provider.

## Findings

| source | as written | input that shows it | evidently intended | confidence | as-written member | corrected member |
|---|---|---|---|---|---|---|
| src/main/kotlin/fr/phast/cql/services/helpers/CanonicalHelper.kt:40 | `id.replace(id.substring(id.lastIndexOf("/")), "")` removes every occurrence of the final "/segment", including occurrences inside earlier segments | "a/Library/Lib" gives "arary" | the segment before the last one, "Library" | not executed | `CanonicalHelper.ResourceNameOfRepeatedSegment` (on `CanonicalHelper.GetResourceNameAsWritten`) | `CanonicalHelper.GetResourceNameIsPenultimateSegment` (on `CanonicalHelper.GetResourceName`) |
