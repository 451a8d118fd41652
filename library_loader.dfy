/**
 * LibraryLoader: the engine-facing loader that translates a library through
 * the library manager with the default options, maps it into the engine's
 * form through XML, and keeps every loaded library in a map under a key made
 * of the id and the version.
 */
module EngineLibraryLoader {
  import opened Common
  import opened VersionedIdentifierConverter
  import opened TranslatorHelper

  const NullIdentifierMessage: string := "Library identifier is null."
  const NullIdMessage: string := "Library identifier id is null."

  /** mangleIdentifier: the id alone without a version, else `id-version`; the system plays no part. */
  function MangleIdentifier(id: string, version: Option<string>): (r: string)
  {
    if version.None? then id else id + "-" + version.value
  }

  /** The key keeps the id as its prefix, followed by `-version` exactly when there is a version. */
  lemma MangleShape(id: string, version: Option<string>)
    ensures StartsWith(MangleIdentifier(id, version), id)
    ensures version.None? ==> |MangleIdentifier(id, version)| == |id|
    ensures version.Some? ==> MangleIdentifier(id, version)[|id|..] == "-" + version.value
  {
  }

  /** For ids without a dash the key determines the id and the version. */
  lemma MangleInjectiveWithoutDash(id1: string, v1: Option<string>, id2: string, v2: Option<string>)
    requires '-' !in id1 && '-' !in id2
    requires MangleIdentifier(id1, v1) == MangleIdentifier(id2, v2)
    ensures id1 == id2 && v1 == v2
  {
    if v1.Some? {
      DashAfterId(id1, v1.value);
    }
    if v2.Some? {
      DashAfterId(id2, v2.value);
    }
  }

  /** In `id-version`, with no dash in the id, the first dash sits right after the id. */
  lemma DashAfterId(id: string, version: string)
    requires '-' !in id
    ensures forall i :: 0 <= i < |id| ==> (id + "-" + version)[i] != '-'
    ensures (id + "-" + version)[|id|] == '-'
    ensures (id + "-" + version)[..|id|] == id && (id + "-" + version)[|id| + 1..] == version
  {
    forall i | 0 <= i < |id|
      ensures (id + "-" + version)[i] != '-'
    {
      assert (id + "-" + version)[i] == id[i];
    }
  }

  /** With a dash in the id, keys collide: ("a-b", no version) and ("a", "b") share a key. */
  lemma MangleCollision()
    ensures MangleIdentifier("a-b", None) == MangleIdentifier("a", Some("b")) == "a-b"
  {
  }

  function TranslatingErrorMessage(identifier: ElmIdentifier): string
  {
    "Errors occurred translating library " + Str(identifier.id)
      + (if identifier.version.Some? then "-" + identifier.version.value else "") + "."
  }

  /** The JAXB failure message for a versioned and an unversioned library. */
  lemma TranslatingErrorMessageExamples()
    ensures TranslatingErrorMessage(ElmIdentifier(None, Some("lib"), Some("1.0"))) == "Errors occurred translating library lib-1.0."
    ensures TranslatingErrorMessage(ElmIdentifier(None, Some("lib"), None)) == "Errors occurred translating library lib."
  {
  }

  /** The inside of loadLibrary's try: the translator's errors, then the XML rendering read back. */
  function TranslateAndRead(tools: Toolchain, translated: Option<ElmLibrary>): Result<Library>
  {
    match GetTranslator(tools, [])
    case Err(e) => Err(e)
    case Ok(errors) =>
      if |errors| > 0 then Err(IllegalArgument(ListToString(Entries(errors))))
      else
        match tools.convertToXml(translated)
        case Err(e) => Err(e)
        case Ok(xml) => ReadLibrary(tools, xml, Xml)
  }

  /** loadLibrary. */
  function LoadLibraryOutcome(tools: Toolchain, libraryIdentifier: EngineIdentifier): Result<Library>
  {
    var identifier := ToElmIdentifier(libraryIdentifier);
    match tools.resolveLibrary(identifier, DefaultOptions)
    case Err(e) => Err(e)
    case Ok(resolution) =>
      if resolution.compiled.None? then Err(NullPointer)
      else if HasErrors(resolution.diagnostics) then Err(IllegalArgument(ListToString(Entries(resolution.diagnostics))))
      else
        match TranslateAndRead(tools, resolution.compiled.value.library)
        case Err(JAXBError(_)) => Err(IllegalArgument(TranslatingErrorMessage(identifier)))
        case other => other
  }

  /** Error-severity diagnostics of the translation are reported as the rendering of all the diagnostics. */
  lemma TranslationErrorsReported(tools: Toolchain, libraryIdentifier: EngineIdentifier, res: Resolution)
    requires tools.resolveLibrary(ToElmIdentifier(libraryIdentifier), DefaultOptions) == Ok(res)
    requires res.compiled.Some? && HasErrors(res.diagnostics)
    ensures LoadLibraryOutcome(tools, libraryIdentifier) == Err(IllegalArgument(ListToString(Entries(res.diagnostics))))
  {
  }

  /** Without such errors, a translator built from empty source that reports errors is reported the same way. */
  lemma TranslatorErrorsReported(tools: Toolchain, libraryIdentifier: EngineIdentifier, res: Resolution, errors: seq<Diagnostic>)
    requires tools.resolveLibrary(ToElmIdentifier(libraryIdentifier), DefaultOptions) == Ok(res)
    requires res.compiled.Some? && !HasErrors(res.diagnostics)
    requires tools.fromStream([], TranslatorFlags) == Ok(errors) && |errors| > 0
    ensures LoadLibraryOutcome(tools, libraryIdentifier) == Err(IllegalArgument(ListToString(Entries(errors))))
  {
  }

  /** A JAXB failure of the XML rendering is reported as "Errors occurred translating library id[-version].". */
  lemma JaxbFailureReported(tools: Toolchain, libraryIdentifier: EngineIdentifier, res: Resolution, m: Option<string>)
    requires tools.resolveLibrary(ToElmIdentifier(libraryIdentifier), DefaultOptions) == Ok(res)
    requires res.compiled.Some? && !HasErrors(res.diagnostics)
    requires tools.fromStream([], TranslatorFlags) == Ok([])
    requires tools.convertToXml(res.compiled.value.library) == Err(JAXBError(m))
    ensures LoadLibraryOutcome(tools, libraryIdentifier) == Err(IllegalArgument(TranslatingErrorMessage(ToElmIdentifier(libraryIdentifier))))
  {
  }

  /** When every step succeeds, the library is the XML rendering read back by the XML reader. */
  lemma LoadLibrarySucceeds(tools: Toolchain, libraryIdentifier: EngineIdentifier, res: Resolution, xml: Content)
    requires tools.resolveLibrary(ToElmIdentifier(libraryIdentifier), DefaultOptions) == Ok(res)
    requires res.compiled.Some? && !HasErrors(res.diagnostics)
    requires tools.fromStream([], TranslatorFlags) == Ok([])
    requires tools.convertToXml(res.compiled.value.library) == Ok(xml) && tools.readXml(xml).Ok?
    ensures LoadLibraryOutcome(tools, libraryIdentifier) == tools.readXml(xml)
  {
  }

  /** The outcome of one resolveLibrary call: its result, the new map, and whether loadLibrary ran. */
  datatype Resolved = Resolved(result: Result<Library>, libraries: map<string, Library>, loaded: bool)

  /** resolveLibrary on the map's value. */
  function ResolveOutcome(libraries: map<string, Library>, tools: Toolchain, libraryIdentifier: Option<EngineIdentifier>): Resolved
  {
    if libraryIdentifier.None? then Resolved(Err(IllegalArgument(NullIdentifierMessage)), libraries, false)
    else if libraryIdentifier.value.id.None? then Resolved(Err(IllegalArgument(NullIdMessage)), libraries, false)
    else
      var key := MangleIdentifier(libraryIdentifier.value.id.value, libraryIdentifier.value.version);
      if key in libraries then Resolved(Ok(libraries[key]), libraries, false)
      else
        match LoadLibraryOutcome(tools, libraryIdentifier.value)
        case Err(e) => Resolved(Err(e), libraries, true)
        case Ok(library) => Resolved(Ok(library), libraries[key := library], true)
  }

  /** A null identifier, or one with a null id, is refused before anything is looked up. */
  lemma NullIdentifierRefused(libraries: map<string, Library>, tools: Toolchain, libraryIdentifier: Option<EngineIdentifier>)
    requires libraryIdentifier.None? || libraryIdentifier.value.id.None?
    ensures var s := ResolveOutcome(libraries, tools, libraryIdentifier);
      s.libraries == libraries && !s.loaded
      && s.result == Err(IllegalArgument(if libraryIdentifier.None? then NullIdentifierMessage else NullIdMessage))
  {
  }

  /** A key already in the map is served without loading. */
  lemma CacheHit(libraries: map<string, Library>, tools: Toolchain, i: EngineIdentifier)
    requires i.id.Some? && MangleIdentifier(i.id.value, i.version) in libraries
    ensures ResolveOutcome(libraries, tools, Some(i)) == Resolved(Ok(libraries[MangleIdentifier(i.id.value, i.version)]), libraries, false)
  {
  }

  /** A miss loads; a loaded library is stored under the key and nothing else changes; a failure stores nothing. */
  lemma CacheMiss(libraries: map<string, Library>, tools: Toolchain, i: EngineIdentifier)
    requires i.id.Some? && MangleIdentifier(i.id.value, i.version) !in libraries
    ensures var s := ResolveOutcome(libraries, tools, Some(i));
      s.loaded && s.result == LoadLibraryOutcome(tools, i)
      && s.libraries == if s.result.Ok? then libraries[MangleIdentifier(i.id.value, i.version) := s.result.value] else libraries
  {
  }

  /**
   * After a successful call, every identifier with the same key, whatever its
   * system and however its id and version split the key, is served the same
   * library without loading.
   */
  lemma SameKeyServedFromMap(libraries: map<string, Library>, tools: Toolchain, i: EngineIdentifier, j: EngineIdentifier)
    requires i.id.Some? && j.id.Some? && MangleIdentifier(i.id.value, i.version) == MangleIdentifier(j.id.value, j.version)
    requires ResolveOutcome(libraries, tools, Some(i)).result.Ok?
    ensures var first := ResolveOutcome(libraries, tools, Some(i));
      ResolveOutcome(first.libraries, tools, Some(j)) == Resolved(first.result, first.libraries, false)
  {
  }

  /** The colliding pair: once ("a-b", no version) is loaded, ("a", "b") is served that library without loading. */
  lemma CollidingIdentifierServedOtherLibrary(libraries: map<string, Library>, tools: Toolchain, system: Option<string>)
    requires ResolveOutcome(libraries, tools, Some(EngineIdentifier(system, Some("a-b"), None))).result.Ok?
    ensures var first := ResolveOutcome(libraries, tools, Some(EngineIdentifier(system, Some("a-b"), None)));
      ResolveOutcome(first.libraries, tools, Some(EngineIdentifier(None, Some("a"), Some("b"))))
        == Resolved(first.result, first.libraries, false)
  {
    MangleCollision();
    SameKeyServedFromMap(libraries, tools, EngineIdentifier(system, Some("a-b"), None), EngineIdentifier(None, Some("a"), Some("b")));
  }

  class LibraryLoader {
    const libraryManager: Toolchain
    /** The loaded libraries, by mangled key. */
    var libraries: map<string, Library>
    /** The identifiers loadLibrary ran for, in order. */
    ghost var loads: seq<EngineIdentifier>

    constructor (libraryManager: Toolchain)
      ensures this.libraryManager == libraryManager && libraries == map[] && loads == []
    {
      this.libraryManager := libraryManager;
      libraries := map[];
      loads := [];
    }

    function GetLibraryManager(): Toolchain
    {
      libraryManager
    }

    /** load, which is resolveLibrary. */
    method Load(libraryIdentifier: Option<EngineIdentifier>) returns (r: Result<Library>)
      modifies this
      ensures var s := ResolveOutcome(old(libraries), libraryManager, libraryIdentifier);
        r == s.result && libraries == s.libraries && loads == old(loads) + (if s.loaded then [libraryIdentifier.value] else [])
    {
      r := ResolveLibrary(libraryIdentifier);
    }

    method ResolveLibrary(libraryIdentifier: Option<EngineIdentifier>) returns (r: Result<Library>)
      modifies this
      ensures var s := ResolveOutcome(old(libraries), libraryManager, libraryIdentifier);
        r == s.result && libraries == s.libraries && loads == old(loads) + (if s.loaded then [libraryIdentifier.value] else [])
    {
      if libraryIdentifier.None? {
        return Err(IllegalArgument(NullIdentifierMessage));
      }
      if libraryIdentifier.value.id.None? {
        return Err(IllegalArgument(NullIdMessage));
      }
      var mangledId := MangleIdentifier(libraryIdentifier.value.id.value, libraryIdentifier.value.version);
      if mangledId in libraries {
        return Ok(libraries[mangledId]);
      }
      loads := loads + [libraryIdentifier.value];
      var library := LoadLibrary(libraryIdentifier.value);
      if library.Err? {
        return library;
      }
      libraries := libraries[mangledId := library.value];
      return library;
    }

    /** loadLibrary. */
    method LoadLibrary(libraryIdentifier: EngineIdentifier) returns (r: Result<Library>)
      ensures r == LoadLibraryOutcome(libraryManager, libraryIdentifier)
    {
      var identifier := ToElmIdentifier(libraryIdentifier);
      var resolved := libraryManager.resolveLibrary(identifier, DefaultOptions);
      if resolved.Err? {
        return Err(resolved.error);
      }
      if resolved.value.compiled.None? {
        return Err(NullPointer);
      }
      var translatedLibrary := resolved.value.compiled.value.library;
      var errors := resolved.value.diagnostics;
      if HasErrors(errors) {
        var message := ErrorsToString(errors);
        return Err(IllegalArgument(message));
      }
      var translator := GetTranslator(libraryManager, []);
      if translator.Err? {
        return CatchJaxb(identifier, Err(translator.error));
      }
      if |translator.value| > 0 {
        var message := ErrorsToString(translator.value);
        return Err(IllegalArgument(message));
      }
      var xml := libraryManager.convertToXml(translatedLibrary);
      if xml.Err? {
        return CatchJaxb(identifier, Err(xml.error));
      }
      r := CatchJaxb(identifier, ReadLibrary(libraryManager, xml.value, Xml));
    }

    /** The `catch (e: JAXBException)` around the try block. */
    static function CatchJaxb(identifier: ElmIdentifier, attempt: Result<Library>): Result<Library>
    {
      if attempt.Err? && attempt.error.JAXBError? then Err(IllegalArgument(TranslatingErrorMessage(identifier))) else attempt
    }
  }
}
