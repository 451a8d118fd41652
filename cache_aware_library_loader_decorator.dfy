/**
 * CacheAwareLibraryLoaderDecorator: a library loader that keeps the libraries
 * its inner loader returned in a map keyed by the engine identifier, and
 * serves a cached library only while the option fingerprint it carries equals
 * the options the inner loader is configured with.
 */
module LibraryLoaderDecorator {
  import opened Common
  import opened TranslatorOptionUtil

  /**
   * The inner TranslatorOptionAwareLibraryLoader: its load (which may throw or
   * return null), its configured translator options and its library manager.
   */
  datatype InnerLoader = InnerLoader(
    load: EngineIdentifier -> Result<Option<Library>>,
    cqlTranslatorOptions: set<TranslatorOption>,
    libraryManager: Toolchain)

  /** The outcome of one load: the result, the new cache, and whether the inner loader was called. */
  datatype Loaded = Loaded(result: Result<Option<Library>>, cache: map<EngineIdentifier, Library>, innerCalled: bool)

  /** The delegating half of load: ask the inner loader and cache a non-null answer. */
  function Delegate(cache: map<EngineIdentifier, Library>, inner: InnerLoader, id: EngineIdentifier): Loaded
  {
    match inner.load(id)
    case Err(e) => Loaded(Err(e), cache, true)
    case Ok(None) => Loaded(Ok(None), cache, true)
    case Ok(Some(library)) => Loaded(Ok(Some(library)), cache[id := library], true)
  }

  /** load on the cache's value: a fresh hit is served, a stale entry or a miss delegates. */
  function CachedLoad(cache: map<EngineIdentifier, Library>, inner: InnerLoader, id: EngineIdentifier): Loaded
  {
    if id in cache then
      match OptionsMatch(cache[id], inner.cqlTranslatorOptions)
      case Err(e) => Loaded(Err(e), cache, false)
      case Ok(matches) =>
        if matches then Loaded(Ok(Some(cache[id])), cache, false) else Delegate(cache, inner, id)
    else Delegate(cache, inner, id)
  }

  /** A cached library carrying exactly the configured option set is served without calling the inner loader. */
  lemma FreshHit(cache: map<EngineIdentifier, Library>, inner: InnerLoader, id: EngineIdentifier)
    requires id in cache && LibraryOptions(cache[id]) == Ok(Some(inner.cqlTranslatorOptions))
    ensures CachedLoad(cache, inner, id) == Loaded(Ok(Some(cache[id])), cache, false)
  {
  }

  /**
   * A miss, or a cached library whose fingerprint is absent or names another
   * option set, is stale: the answer is the inner loader's, a library it
   * returns replaces the entry, and a null or a failure leaves the cache alone.
   */
  lemma StaleDelegates(cache: map<EngineIdentifier, Library>, inner: InnerLoader, id: EngineIdentifier)
    requires id in cache ==> LibraryOptions(cache[id]).Ok? && LibraryOptions(cache[id]).value != Some(inner.cqlTranslatorOptions)
    ensures var s := CachedLoad(cache, inner, id);
      s.innerCalled && s.result == inner.load(id)
      && s.cache == (if inner.load(id).Ok? && inner.load(id).value.Some? then cache[id := inner.load(id).value.value] else cache)
  {
  }

  /** A fingerprint that does not parse makes load fail at once, before the inner loader is asked. */
  lemma UnparsableFingerprintFails(cache: map<EngineIdentifier, Library>, inner: InnerLoader, id: EngineIdentifier)
    requires id in cache && LibraryOptions(cache[id]).Err?
    ensures CachedLoad(cache, inner, id) == Loaded(Err(LibraryOptions(cache[id]).error), cache, false)
  {
  }

  /**
   * Only the requested key can change; a returned library is what the cache
   * then holds under it; a null answer or a failure changes nothing.
   */
  lemma OnlyRequestedKeyChanges(cache: map<EngineIdentifier, Library>, inner: InnerLoader, id: EngineIdentifier)
    ensures var s := CachedLoad(cache, inner, id);
      (forall k :: k != id ==> (k in s.cache <==> k in cache))
      && (forall k :: k != id && k in cache ==> s.cache[k] == cache[k])
      && (s.result.Ok? && s.result.value.Some? ==> id in s.cache && s.cache[id] == s.result.value.value)
      && (s.result.Err? || s.result == Ok(None) ==> s.cache == cache)
  {
    if id in cache {
      var matched := OptionsMatch(cache[id], inner.cqlTranslatorOptions);
      if matched.Err? || matched == Ok(true) {
        assert CachedLoad(cache, inner, id).cache == cache;
      } else {
        assert CachedLoad(cache, inner, id) == Delegate(cache, inner, id);
      }
    }
  }

  /**
   * After a load that returned a library, loading the same identifier again
   * skips the inner loader exactly when that library's fingerprint is the
   * configured option set (served again) or does not parse (a failure).
   */
  lemma {:induction false} SecondLoad(cache: map<EngineIdentifier, Library>, inner: InnerLoader, id: EngineIdentifier)
    requires CachedLoad(cache, inner, id).result.Ok? && CachedLoad(cache, inner, id).result.value.Some?
    ensures var first := CachedLoad(cache, inner, id);
      var l := first.result.value.value;
      var second := CachedLoad(first.cache, inner, id);
      (!second.innerCalled <==> LibraryOptions(l) == Ok(Some(inner.cqlTranslatorOptions)) || LibraryOptions(l).Err?)
      && (LibraryOptions(l) == Ok(Some(inner.cqlTranslatorOptions)) ==> second == Loaded(Ok(Some(l)), first.cache, false))
  {
    OnlyRequestedKeyChanges(cache, inner, id);
  }

  /**
   * A library without annotations (as XML-read ELM is) never matches: while the
   * entry for an identifier is such a library, every load of it reaches the
   * inner loader, and so does the next one.
   */
  lemma UnannotatedLibraryIsAlwaysReloaded(cache: map<EngineIdentifier, Library>, inner: InnerLoader, id: EngineIdentifier, l: Library)
    requires inner.load(id) == Ok(Some(l)) && l.annotation.None?
    requires id in cache ==> cache[id].annotation.None?
    ensures CachedLoad(cache, inner, id).innerCalled
    ensures CachedLoad(CachedLoad(cache, inner, id).cache, inner, id).innerCalled
  {
    assert LibraryOptions(l) == Ok(None);
    if id in cache {
      assert LibraryOptions(cache[id]) == Ok(None);
    }
    assert CachedLoad(cache, inner, id).cache == cache[id := l];
  }

  class CacheAwareLibraryLoaderDecorator {
    const innerLoader: InnerLoader
    const libraryCache: SharedMap<EngineIdentifier, Library>
    /** The identifiers the inner loader was asked for, in order. */
    ghost var innerLoads: seq<EngineIdentifier>

    /** The primary constructor: a null cache argument gives a fresh private map. */
    constructor (innerLoader: InnerLoader, libraryCache: Option<SharedMap<EngineIdentifier, Library>>)
      ensures this.innerLoader == innerLoader && innerLoads == []
      ensures libraryCache.Some? ==> this.libraryCache == libraryCache.value
      ensures libraryCache.None? ==> fresh(this.libraryCache) && this.libraryCache.contents == map[]
      ensures GetCqlTranslatorOptions() == innerLoader.cqlTranslatorOptions
      ensures GetLibraryManager() == innerLoader.libraryManager
    {
      this.innerLoader := innerLoader;
      if libraryCache.Some? {
        this.libraryCache := libraryCache.value;
      } else {
        this.libraryCache := new SharedMap<EngineIdentifier, Library>(map[]);
      }
      innerLoads := [];
    }

    /** The secondary constructor, which passes a null cache. */
    constructor WithoutCache(innerLoader: InnerLoader)
      ensures this.innerLoader == innerLoader && innerLoads == []
      ensures fresh(this.libraryCache) && this.libraryCache.contents == map[]
    {
      this.innerLoader := innerLoader;
      this.libraryCache := new SharedMap<EngineIdentifier, Library>(map[]);
      innerLoads := [];
    }

    /** getCqlTranslatorOptions: the inner loader's options. */
    function GetCqlTranslatorOptions(): set<TranslatorOption>
    {
      innerLoader.cqlTranslatorOptions
    }

    /** getLibraryManager: the inner loader's library manager. */
    function GetLibraryManager(): Toolchain
    {
      innerLoader.libraryManager
    }

    /** getLibraryCache. */
    function GetLibraryCache(): map<EngineIdentifier, Library>
      reads libraryCache
    {
      libraryCache.contents
    }

    /** translatorOptionsMatch: the library's recovered options equal the inner loader's. */
    method TranslatorOptionsMatch(library: Library) returns (r: Result<bool>)
      ensures r == OptionsMatch(library, GetCqlTranslatorOptions())
      ensures r == Ok(true) <==> LibraryOptions(library) == Ok(Some(innerLoader.cqlTranslatorOptions))
    {
      var options := GetTranslatorOptions(library);
      if options.Err? {
        return Err(options.error);
      }
      if options.value.None? {
        return Ok(false);
      }
      return Ok(options.value.value == GetCqlTranslatorOptions());
    }

    /** load. */
    method Load(libraryIdentifier: EngineIdentifier) returns (r: Result<Option<Library>>)
      modifies this, libraryCache
      ensures var s := CachedLoad(old(libraryCache.contents), innerLoader, libraryIdentifier);
        r == s.result && libraryCache.contents == s.cache
        && innerLoads == old(innerLoads) + (if s.innerCalled then [libraryIdentifier] else [])
    {
      if libraryIdentifier in libraryCache.contents {
        var library := libraryCache.contents[libraryIdentifier];
        var matches := TranslatorOptionsMatch(library);
        if matches.Err? {
          return Err(matches.error);
        }
        if matches.value {
          return Ok(Some(library));
        }
      }
      innerLoads := innerLoads + [libraryIdentifier];
      var library := innerLoader.load(libraryIdentifier);
      if library.Err? || library.value.None? {
        return library;
      }
      libraryCache.contents := libraryCache.contents[libraryIdentifier := library.value.value];
      return library;
    }
  }
}
