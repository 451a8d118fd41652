/**
 * TranslatingLibraryLoader: loads an engine library by first looking for
 * precompiled ELM (JSON, then XML) across an ordered list of content
 * providers, reusing it only when its option fingerprint equals the loader's
 * options, and otherwise translating the CQL source through the library
 * manager and mapping the result into the engine's form.
 */
module TranslatingLoader {
  import opened Common
  import opened VersionedIdentifierConverter
  import opened TranslatorOptionUtil
  import LibraryLoaderDecorator

  /** A LibraryContentProvider's getLibraryContent; it may throw or return null. */
  type ContentProvider = (ElmIdentifier, LibraryContentType) -> Result<Option<Content>>

  // ---------------------------------------------------------------------------
  // getLibraryContent: the first provider, in list order, with content wins
  // ---------------------------------------------------------------------------

  function FirstContent(providers: seq<ContentProvider>, id: ElmIdentifier, kind: LibraryContentType): Result<Option<Content>>
    decreases |providers|
  {
    if |providers| == 0 then Ok(None)
    else
      match providers[0](id, kind)
      case Err(e) => Err(e)
      case Ok(Some(content)) => Ok(Some(content))
      case Ok(None) => FirstContent(providers[1..], id, kind)
  }

  /** How many providers getLibraryContent asks before it returns. */
  function Queried(providers: seq<ContentProvider>, id: ElmIdentifier, kind: LibraryContentType): nat
    decreases |providers|
  {
    if |providers| == 0 then 0
    else if providers[0](id, kind) != Ok(None) then 1
    else 1 + Queried(providers[1..], id, kind)
  }

  /**
   * The providers are asked in order up to the first one that answers with
   * content or throws; that answer is the result and no later provider is
   * asked. The result is null exactly when every provider answers null.
   */
  lemma {:induction false} FirstContentMeaning(providers: seq<ContentProvider>, id: ElmIdentifier, kind: LibraryContentType)
    ensures Queried(providers, id, kind) <= |providers|
    ensures forall j :: 0 <= j < Queried(providers, id, kind) - 1 ==> providers[j](id, kind) == Ok(None)
    ensures FirstContent(providers, id, kind) == Ok(None) <==> forall j :: 0 <= j < |providers| ==> providers[j](id, kind) == Ok(None)
    ensures FirstContent(providers, id, kind) != Ok(None) ==>
      Queried(providers, id, kind) >= 1 && FirstContent(providers, id, kind) == providers[Queried(providers, id, kind) - 1](id, kind)
    decreases |providers|
  {
    if |providers| > 0 && providers[0](id, kind) == Ok(None) {
      var rest := providers[1..];
      FirstContentMeaning(rest, id, kind);
      assert forall j :: 0 <= j < |rest| ==> rest[j] == providers[j + 1];
      if FirstContent(providers, id, kind) == Ok(None) {
        forall j | 0 <= j < |providers|
          ensures providers[j](id, kind) == Ok(None)
        {
          if j > 0 {
            assert providers[j] == rest[j - 1];
          }
        }
      }
    }
  }

  // ---------------------------------------------------------------------------
  // getLibraryFromElm: JSON ELM first, then XML ELM; reader failures swallowed
  // ---------------------------------------------------------------------------

  /** Whether getLibraryFromElm goes on to ask for XML: JSON content was absent or did not read. */
  predicate XmlRequested(manager: Toolchain, providers: seq<ContentProvider>, id: EngineIdentifier)
  {
    var json := FirstContent(providers, ToElmIdentifier(id), Jxson);
    json.Ok? && !(json.value.Some? && manager.readJson(json.value.value).Ok?)
  }

  function LibraryFromElm(manager: Toolchain, providers: seq<ContentProvider>, id: EngineIdentifier): Result<Option<Library>>
  {
    var elmId := ToElmIdentifier(id);
    match FirstContent(providers, elmId, Jxson)
    case Err(e) => Err(e)
    case Ok(json) =>
      if json.Some? && manager.readJson(json.value).Ok? then Ok(Some(manager.readJson(json.value).value))
      else
        match FirstContent(providers, elmId, Xml)
        case Err(e) => Err(e)
        case Ok(xml) =>
          if xml.Some? && manager.readXml(xml.value).Ok? then Ok(Some(manager.readXml(xml.value).value)) else Ok(None)
  }

  /** JSON ELM that reads is returned, and XML is then never asked for. */
  lemma JsonElmWins(manager: Toolchain, providers: seq<ContentProvider>, id: EngineIdentifier, json: Content)
    requires FirstContent(providers, ToElmIdentifier(id), Jxson) == Ok(Some(json)) && manager.readJson(json).Ok?
    ensures LibraryFromElm(manager, providers, id) == Ok(Some(manager.readJson(json).value))
    ensures !XmlRequested(manager, providers, id)
  {
  }

  /** With JSON ELM absent or unreadable, the answer is the readable XML ELM, or null. */
  lemma XmlElmAfterJson(manager: Toolchain, providers: seq<ContentProvider>, id: EngineIdentifier)
    requires XmlRequested(manager, providers, id)
    ensures var xml := FirstContent(providers, ToElmIdentifier(id), Xml);
      LibraryFromElm(manager, providers, id) ==
        if xml.Err? then Err(xml.error)
        else if xml.value.Some? && manager.readXml(xml.value.value).Ok? then Ok(Some(manager.readXml(xml.value.value).value))
        else Ok(None)
  {
  }

  /** Reader failures never surface: getLibraryFromElm fails only with a provider's own failure. */
  lemma ElmReadFailuresSwallowed(manager: Toolchain, providers: seq<ContentProvider>, id: EngineIdentifier)
    ensures var json := FirstContent(providers, ToElmIdentifier(id), Jxson);
      var xml := FirstContent(providers, ToElmIdentifier(id), Xml);
      LibraryFromElm(manager, providers, id).Err? ==>
        (json.Err? && LibraryFromElm(manager, providers, id).error == json.error)
        || (xml.Err? && LibraryFromElm(manager, providers, id).error == xml.error)
    ensures FirstContent(providers, ToElmIdentifier(id), Jxson).Ok? && FirstContent(providers, ToElmIdentifier(id), Xml).Ok?
      ==> LibraryFromElm(manager, providers, id).Ok?
  {
  }

  // ---------------------------------------------------------------------------
  // translate
  // ---------------------------------------------------------------------------

  const UnableTranslate: string := "Unable translate library "

  function TranslationFailedMessage(id: Option<string>, message: Option<string>): string
  {
    "Translation of library " + Str(id) + " failed with the following message: " + Str(message)
  }

  function MappingFailedMessage(id: Option<string>): string
  {
    "Mapping of library " + Str(id) + " failed"
  }

  /** The position of the first Error-severity diagnostic, or -1 when there is none. */
  function FirstErrorIndex(diagnostics: seq<Diagnostic>): (r: int)
    ensures -1 <= r < |diagnostics|
    ensures r >= 0 ==> diagnostics[r].severity == Error && forall j :: 0 <= j < r ==> diagnostics[j].severity != Error
    ensures r == -1 <==> !HasErrors(diagnostics)
    decreases |diagnostics|
  {
    if |diagnostics| == 0 then -1
    else if diagnostics[0].severity == Error then 0
    else
      var k := FirstErrorIndex(diagnostics[1..]);
      assert forall j :: 0 <= j < |diagnostics| - 1 ==> diagnostics[1..][j] == diagnostics[j + 1];
      if k < 0 then -1 else k + 1
  }

  /** Mapping a compiled library into the engine's form through its XML rendering. */
  function MapToEngine(manager: Toolchain, id: EngineIdentifier, compiled: Option<CompiledLibrary>): Result<Option<Library>>
  {
    if compiled.None? then Ok(None)
    else
      match manager.convertToXml(compiled.value.library)
      case Err(_) => Err(CqlError(MappingFailedMessage(id.id)))
      case Ok(xml) =>
        match manager.readXml(xml)
        case Err(_) => Err(CqlError(MappingFailedMessage(id.id)))
        case Ok(library) => Ok(Some(library))
  }

  function Translation(manager: Toolchain, options: set<TranslatorOption>, id: EngineIdentifier): Result<Option<Library>>
  {
    match manager.resolveLibrary(ToElmIdentifier(id), options)
    case Err(_) => Err(CqlError(UnableTranslate + Str(id.id)))
    case Ok(resolution) =>
      var k := FirstErrorIndex(resolution.diagnostics);
      if k >= 0 then Err(CqlError(TranslationFailedMessage(id.id, resolution.diagnostics[k].message)))
      else MapToEngine(manager, id, resolution.compiled)
  }

  /** A compiler exception becomes "Unable translate library" with the library id. */
  lemma CompilerFailureOutcome(manager: Toolchain, options: set<TranslatorOption>, id: EngineIdentifier)
    requires manager.resolveLibrary(ToElmIdentifier(id), options).Err?
    ensures Translation(manager, options, id) == Err(CqlError(UnableTranslate + Str(id.id)))
  {
  }

  /** An Error-severity diagnostic aborts translate with the id and the message of the first such diagnostic. */
  lemma ErrorDiagnosticAborts(manager: Toolchain, options: set<TranslatorOption>, id: EngineIdentifier, res: Resolution)
    requires manager.resolveLibrary(ToElmIdentifier(id), options) == Ok(res) && HasErrors(res.diagnostics)
    ensures exists k :: (0 <= k < |res.diagnostics| && res.diagnostics[k].severity == Error
      && (forall j :: 0 <= j < k ==> res.diagnostics[j].severity != Error)
      && Translation(manager, options, id) == Err(CqlError(TranslationFailedMessage(id.id, res.diagnostics[k].message))))
  {
    var k := FirstErrorIndex(res.diagnostics);
    assert Translation(manager, options, id) == Err(CqlError(TranslationFailedMessage(id.id, res.diagnostics[k].message)));
  }

  /** Warnings and other non-error diagnostics do not abort: the compiled library is mapped. */
  lemma WarningsDoNotAbort(manager: Toolchain, options: set<TranslatorOption>, id: EngineIdentifier, res: Resolution)
    requires manager.resolveLibrary(ToElmIdentifier(id), options) == Ok(res) && !HasErrors(res.diagnostics)
    ensures Translation(manager, options, id) == MapToEngine(manager, id, res.compiled)
  {
  }

  /**
   * Mapping: null without a compiled library; the library read back from the
   * XML when rendering and reading both succeed; the mapping error otherwise.
   */
  lemma MapToEngineOutcomes(manager: Toolchain, id: EngineIdentifier, compiled: Option<CompiledLibrary>)
    ensures compiled.None? ==> MapToEngine(manager, id, compiled) == Ok(None)
    ensures compiled.Some? ==>
      (MapToEngine(manager, id, compiled).Ok? <==>
        manager.convertToXml(compiled.value.library).Ok? && manager.readXml(manager.convertToXml(compiled.value.library).value).Ok?)
    ensures compiled.Some? && MapToEngine(manager, id, compiled).Ok? ==>
      MapToEngine(manager, id, compiled) == Ok(Some(manager.readXml(manager.convertToXml(compiled.value.library).value).value))
    ensures MapToEngine(manager, id, compiled).Err? ==> MapToEngine(manager, id, compiled) == Err(CqlError(MappingFailedMessage(id.id)))
  {
  }

  // ---------------------------------------------------------------------------
  // load
  // ---------------------------------------------------------------------------

  /** The translating half of load: a null translation is `throw Exception()`. */
  function TranslatedOrThrow(t: Result<Option<Library>>): (r: Result<Library>)
    ensures r.Ok? <==> t.Ok? && t.value.Some?
    ensures r.Ok? ==> t == Ok(Some(r.value))
    ensures t == Ok(None) ==> r == Err(Unnamed)
  {
    match t
    case Err(e) => Err(e)
    case Ok(None) => Err(Unnamed)
    case Ok(Some(library)) => Ok(library)
  }

  /**
   * load, given what the ELM lookup found and what translating would give:
   * precompiled ELM is kept when its fingerprint is the loader's option set.
   */
  function LoadChoice(elm: Result<Option<Library>>, options: set<TranslatorOption>, translation: Result<Option<Library>>): Result<Library>
  {
    match elm
    case Err(e) => Err(e)
    case Ok(None) => TranslatedOrThrow(translation)
    case Ok(Some(library)) =>
      match OptionsMatch(library, options)
      case Err(e) => Err(e)
      case Ok(matches) => if matches then Ok(library) else TranslatedOrThrow(translation)
  }

  /** load; the translation is attempted only when the ELM is not kept. */
  function LoadOutcome(manager: Toolchain, providers: seq<ContentProvider>, options: set<TranslatorOption>, id: EngineIdentifier): Result<Library>
  {
    LoadChoice(LibraryFromElm(manager, providers, id), options, Translation(manager, options, id))
  }

  /** Precompiled ELM whose fingerprint is exactly the loader's option set is returned as it is. */
  lemma LoadReusesMatchingElm(manager: Toolchain, providers: seq<ContentProvider>, options: set<TranslatorOption>, id: EngineIdentifier, l: Library)
    requires LibraryFromElm(manager, providers, id) == Ok(Some(l)) && LibraryOptions(l) == Ok(Some(options))
    ensures LoadOutcome(manager, providers, options, id) == Ok(l)
  {
    ChoiceKeepsMatchingElm(LibraryFromElm(manager, providers, id), options, Translation(manager, options, id), l);
  }

  lemma ChoiceKeepsMatchingElm(elm: Result<Option<Library>>, options: set<TranslatorOption>, translation: Result<Option<Library>>, l: Library)
    requires elm == Ok(Some(l)) && LibraryOptions(l) == Ok(Some(options))
    ensures LoadChoice(elm, options, translation) == Ok(l)
  {
  }

  /**
   * Without precompiled ELM, or with ELM whose fingerprint is absent or names
   * other options, load translates; a null translation becomes an exception.
   */
  lemma LoadTranslatesOtherwise(manager: Toolchain, providers: seq<ContentProvider>, options: set<TranslatorOption>, id: EngineIdentifier)
    requires var elm := LibraryFromElm(manager, providers, id);
      elm == Ok(None)
      || (elm.Ok? && elm.value.Some? && LibraryOptions(elm.value.value).Ok? && LibraryOptions(elm.value.value).value != Some(options))
    ensures var t := Translation(manager, options, id);
      LoadOutcome(manager, providers, options, id) ==
        if t.Err? then Err(t.error) else if t.value.None? then Err(Unnamed) else Ok(t.value.value)
  {
    ChoiceTranslatesOtherwise(LibraryFromElm(manager, providers, id), options, Translation(manager, options, id));
  }

  lemma ChoiceTranslatesOtherwise(elm: Result<Option<Library>>, options: set<TranslatorOption>, translation: Result<Option<Library>>)
    requires elm == Ok(None)
      || (elm.Ok? && elm.value.Some? && LibraryOptions(elm.value.value).Ok? && LibraryOptions(elm.value.value).value != Some(options))
    ensures LoadChoice(elm, options, translation) ==
      if translation.Err? then Err(translation.error) else if translation.value.None? then Err(Unnamed) else Ok(translation.value.value)
  {
  }

  /** A successful load is either the matching precompiled ELM or a translation. */
  lemma LoadResultSource(manager: Toolchain, providers: seq<ContentProvider>, options: set<TranslatorOption>, id: EngineIdentifier)
    requires LoadOutcome(manager, providers, options, id).Ok?
    ensures var l := LoadOutcome(manager, providers, options, id).value;
      (LibraryFromElm(manager, providers, id) == Ok(Some(l)) && LibraryOptions(l) == Ok(Some(options)))
      || Translation(manager, options, id) == Ok(Some(l))
  {
    ChoiceSource(LibraryFromElm(manager, providers, id), options, Translation(manager, options, id));
  }

  lemma ChoiceSource(elm: Result<Option<Library>>, options: set<TranslatorOption>, translation: Result<Option<Library>>)
    requires LoadChoice(elm, options, translation).Ok?
    ensures var l := LoadChoice(elm, options, translation).value;
      (elm == Ok(Some(l)) && LibraryOptions(l) == Ok(Some(options))) || translation == Ok(Some(l))
  {
    match elm
    case Err(_) =>
    case Ok(None) =>
      assert LoadChoice(elm, options, translation) == TranslatedOrThrow(translation);
    case Ok(Some(library)) =>
      var matched := OptionsMatch(library, options);
      if matched == Ok(true) {
        assert LoadChoice(elm, options, translation) == Ok(library);
      } else {
        assert LoadChoice(elm, options, translation) == TranslatedOrThrow(translation);
      }
  }


  /**
   * The loader seen through the interface the caching decorator wraps: its load
   * never answers null, so a decorated load either fails or caches a library.
   */
  function AsInnerLoader(manager: Toolchain, providers: seq<ContentProvider>, options: set<TranslatorOption>): (r: LibraryLoaderDecorator.InnerLoader)
    ensures r.cqlTranslatorOptions == options && r.libraryManager == manager
    ensures forall id :: r.load(id) != Ok(None)
    ensures forall id :: r.load(id).Ok? <==> LoadOutcome(manager, providers, options, id).Ok?
  {
    LibraryLoaderDecorator.InnerLoader(
      (id: EngineIdentifier) =>
        match LoadOutcome(manager, providers, options, id)
        case Err(e) => Err(e)
        case Ok(library) => Ok(Some(library)),
      options, manager)
  }

  class TranslatingLibraryLoader {
    const libraryManager: Toolchain
    const libraryContentProviders: seq<ContentProvider>
    const cqlTranslatorOptions: set<TranslatorOption>

    /** Null translator options stand for the translator's default options. */
    constructor (libraryManager: Toolchain, libraryContentProviders: seq<ContentProvider>, translatorOptions: Option<set<TranslatorOption>>)
      ensures this.libraryManager == libraryManager && this.libraryContentProviders == libraryContentProviders
      ensures translatorOptions.Some? ==> cqlTranslatorOptions == translatorOptions.value
      ensures translatorOptions.None? ==> cqlTranslatorOptions == DefaultOptions
    {
      this.libraryManager := libraryManager;
      this.libraryContentProviders := libraryContentProviders;
      cqlTranslatorOptions := if translatorOptions.Some? then translatorOptions.value else DefaultOptions;
    }

    function GetCqlTranslatorOptions(): set<TranslatorOption>
    {
      cqlTranslatorOptions
    }

    function GetLibraryManager(): Toolchain
    {
      libraryManager
    }

    /** getLibraryContent, with the number of providers it asked. */
    method GetLibraryContent(libraryIdentifier: ElmIdentifier, libraryContentType: LibraryContentType)
      returns (r: Result<Option<Content>>, ghost queried: nat)
      ensures r == FirstContent(libraryContentProviders, libraryIdentifier, libraryContentType)
      ensures queried == Queried(libraryContentProviders, libraryIdentifier, libraryContentType)
    {
      var providers := libraryContentProviders;
      var i := 0;
      while i < |providers|
        invariant 0 <= i <= |providers|
        invariant FirstContent(providers, libraryIdentifier, libraryContentType)
          == FirstContent(providers[i..], libraryIdentifier, libraryContentType)
        invariant Queried(providers, libraryIdentifier, libraryContentType)
          == i + Queried(providers[i..], libraryIdentifier, libraryContentType)
      {
        assert providers[i..][1..] == providers[i + 1..];
        var content := providers[i](libraryIdentifier, libraryContentType);
        if content.Err? || content.value.Some? {
          return content, i + 1;
        }
        i := i + 1;
      }
      return Ok(None), i;
    }

    /** getLibraryFromElm, with the content kinds it asked the providers for. */
    method GetLibraryFromElm(libraryIdentifier: EngineIdentifier)
      returns (r: Result<Option<Library>>, ghost kinds: seq<LibraryContentType>)
      ensures r == LibraryFromElm(libraryManager, libraryContentProviders, libraryIdentifier)
      ensures kinds == [Jxson] + if XmlRequested(libraryManager, libraryContentProviders, libraryIdentifier) then [Xml] else []
    {
      var versionedIdentifier := ToElmIdentifier(libraryIdentifier);
      var content, _ := GetLibraryContent(versionedIdentifier, Jxson);
      kinds := [Jxson];
      if content.Err? {
        return Err(content.error), kinds;
      }
      if content.value.Some? {
        var library := libraryManager.readJson(content.value.value);
        if library.Ok? {
          return Ok(Some(library.value)), kinds;
        }
      }
      var xmlContent, _ := GetLibraryContent(versionedIdentifier, Xml);
      kinds := kinds + [Xml];
      if xmlContent.Err? {
        return Err(xmlContent.error), kinds;
      }
      if xmlContent.value.Some? {
        var library := libraryManager.readXml(xmlContent.value.value);
        if library.Ok? {
          return Ok(Some(library.value)), kinds;
        }
      }
      return Ok(None), kinds;
    }

    /** translatorOptionsMatch against this loader's options. */
    method TranslatorOptionsMatch(library: Library) returns (r: Result<bool>)
      ensures r == OptionsMatch(library, cqlTranslatorOptions)
      ensures r == Ok(true) <==> LibraryOptions(library) == Ok(Some(cqlTranslatorOptions))
    {
      var options := GetTranslatorOptions(library);
      if options.Err? {
        return Err(options.error);
      }
      if options.value.None? {
        return Ok(false);
      }
      return Ok(options.value.value == cqlTranslatorOptions);
    }

    /** translate. */
    method Translate(libraryIdentifier: EngineIdentifier) returns (r: Result<Option<Library>>)
      ensures r == Translation(libraryManager, cqlTranslatorOptions, libraryIdentifier)
    {
      var resolved := libraryManager.resolveLibrary(ToElmIdentifier(libraryIdentifier), cqlTranslatorOptions);
      if resolved.Err? {
        return Err(CqlError(UnableTranslate + Str(libraryIdentifier.id)));
      }
      var errors := resolved.value.diagnostics;
      var i := 0;
      while i < |errors|
        invariant 0 <= i <= |errors|
        invariant forall j :: 0 <= j < i ==> errors[j].severity != Error
      {
        if errors[i].severity == Error {
          return Err(CqlError(TranslationFailedMessage(libraryIdentifier.id, errors[i].message)));
        }
        i := i + 1;
      }
      var library := resolved.value.compiled;
      if library.Some? {
        var xml := libraryManager.convertToXml(library.value.library);
        if xml.Err? {
          return Err(CqlError(MappingFailedMessage(libraryIdentifier.id)));
        }
        var engineLibrary := libraryManager.readXml(xml.value);
        if engineLibrary.Err? {
          return Err(CqlError(MappingFailedMessage(libraryIdentifier.id)));
        }
        return Ok(Some(engineLibrary.value));
      }
      return Ok(None);
    }

    /** load. */
    method Load(libraryIdentifier: EngineIdentifier) returns (r: Result<Library>)
      ensures r == LoadOutcome(libraryManager, libraryContentProviders, cqlTranslatorOptions, libraryIdentifier)
    {
      var library, _ := GetLibraryFromElm(libraryIdentifier);
      if library.Err? {
        return Err(library.error);
      }
      if library.value.Some? {
        var matches := TranslatorOptionsMatch(library.value.value);
        if matches.Err? {
          return Err(matches.error);
        }
        if matches.value {
          return Ok(library.value.value);
        }
      }
      var translated := Translate(libraryIdentifier);
      if translated.Err? {
        return Err(translated.error);
      }
      if translated.value.None? {
        return Err(Unnamed);
      }
      return Ok(translated.value.value);
    }
  }
}
