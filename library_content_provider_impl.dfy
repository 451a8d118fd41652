/**
 * LibraryContentProviderImpl: the attachment-based source lookup offered as a
 * LibraryContentProvider. Only CQL content is served; every other kind is
 * null at once. The interface's default getLibrarySource asks for CQL.
 */
module ContentProviders {
  import opened Common
  import opened LibrarySources
  import TranslatingLoader
  import VersionedIdentifierConverter

  /** getLibraryContent: null for any kind but CQL, else the attachment lookup with its fallback. */
  function ContentOutcome<L, A>(src: AttachmentSource<L, A>, id: ElmIdentifier, kind: LibraryContentType): Result<Option<Content>>
  {
    if kind != Cql then Ok(None) else SourceOutcome(src, id)
  }

  /** The default getLibrarySource of LibraryContentProvider, over any getLibraryContent. */
  function DefaultLibrarySource(getLibraryContent: (ElmIdentifier, LibraryContentType) -> Result<Option<Content>>, id: ElmIdentifier): Result<Option<Content>>
  {
    getLibraryContent(id, Cql)
  }

  /** Any kind other than CQL is null. */
  lemma NonCqlKindIsNull<L, A>(src: AttachmentSource<L, A>, id: ElmIdentifier, kind: LibraryContentType)
    requires kind != Cql
    ensures ContentOutcome(src, id, kind) == Ok(None)
  {
  }

  /**
   * The implementation's getLibrarySource is its getLibraryContent for CQL,
   * which is what LibrarySourceProvider answers for the same collaborators.
   */
  lemma LibrarySourceIsCqlContent<L, A>(src: AttachmentSource<L, A>, id: ElmIdentifier)
    ensures DefaultLibrarySource((i: ElmIdentifier, k: LibraryContentType) => ContentOutcome(src, i, k), id)
      == ContentOutcome(src, id, Cql)
    ensures ContentOutcome(src, id, Cql) == SourceOutcome(src, id)
  {
  }

  /** The implementation as one entry of a TranslatingLibraryLoader's provider list. */
  function AsContentProvider<L, A>(src: AttachmentSource<L, A>): (p: TranslatingLoader.ContentProvider)
    ensures forall id, kind :: kind != Cql ==> p(id, kind) == Ok(None)
  {
    (id: ElmIdentifier, kind: LibraryContentType) => ContentOutcome(src, id, kind)
  }

  /**
   * Since only CQL is served, a translating loader whose providers are all such
   * implementations finds no precompiled ELM and always translates.
   */
  lemma {:induction false} NoPrecompiledElm<L, A>(manager: Toolchain, sources: seq<AttachmentSource<L, A>>,
                                                   providers: seq<TranslatingLoader.ContentProvider>, id: EngineIdentifier)
    requires |providers| == |sources| && forall i :: 0 <= i < |sources| ==> providers[i] == AsContentProvider(sources[i])
    ensures TranslatingLoader.LibraryFromElm(manager, providers, id) == Ok(None)
  {
    var elmId := VersionedIdentifierConverter.ToElmIdentifier(id);
    TranslatingLoader.FirstContentMeaning(providers, elmId, Jxson);
    TranslatingLoader.FirstContentMeaning(providers, elmId, Xml);
    assert forall i :: 0 <= i < |providers| ==> providers[i](elmId, Jxson) == Ok(None);
    assert forall i :: 0 <= i < |providers| ==> providers[i](elmId, Xml) == Ok(None);
  }

  class LibraryContentProviderImpl<L, A> {
    const source: AttachmentSource<L, A>

    constructor (source: AttachmentSource<L, A>)
      ensures this.source == source
    {
      this.source := source;
    }

    /** getLibraryContent; `contacted` says whether the resolution provider was asked. */
    method GetLibraryContent(versionedIdentifier: ElmIdentifier, libraryContentType: LibraryContentType)
      returns (r: Result<Option<Content>>, ghost contacted: bool)
      ensures r == ContentOutcome(source, versionedIdentifier, libraryContentType)
      ensures contacted <==> libraryContentType == Cql
    {
      if libraryContentType != Cql {
        return Ok(None), false;
      }
      contacted := true;
      var found := AttemptLookup(source, versionedIdentifier);
      if found.Ok? && found.value.Some? {
        return found, contacted;
      }
      r := source.fallback(versionedIdentifier);
    }

    /** getLibrarySource, the interface's default method. */
    method GetLibrarySource(libraryIdentifier: ElmIdentifier) returns (r: Result<Option<Content>>)
      ensures r == ContentOutcome(source, libraryIdentifier, Cql)
    {
      var content, _ := GetLibraryContent(libraryIdentifier, Cql);
      r := content;
    }
  }
}
