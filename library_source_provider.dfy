/**
 * LibrarySourceProvider: CQL source for a library identifier, taken from the
 * first attachment of content type "text/cql" of the library that a
 * resolution provider finds by name and version; when there is none, or
 * anything on the way throws, the answer comes from an inner source provider.
 */
module LibrarySources {
  import opened Common

  const CqlContentType: string := "text/cql"

  /**
   * The collaborators of an attachment-based provider: the resolution
   * provider's lookup by (id, version), the three attachment accessors passed
   * to the constructor, and the inner FhirLibrarySourceProvider that answers
   * when nothing else does. Every one of them may throw; the lookup, the
   * accessors and the inner provider may return null.
   */
  datatype AttachmentSource<!L, !A> = AttachmentSource(
    resolveLibraryByName: (Option<string>, Option<string>) -> Result<Option<L>>,
    getAttachments: L -> Result<Option<seq<A>>>,
    getContentType: A -> Result<Option<string>>,
    getContent: A -> Result<Option<Content>>,
    fallback: ElmIdentifier -> Result<Option<Content>>)

  /** Whether an attachment's content type is exactly "text/cql" (it may throw). */
  predicate IsCql<L, A>(src: AttachmentSource<L, A>, a: A)
  {
    src.getContentType(a) == Ok(Some(CqlContentType))
  }

  /** Whether an attachment is passed over: its content type is read and is not "text/cql". */
  predicate Skipped<L, A>(src: AttachmentSource<L, A>, a: A)
  {
    src.getContentType(a).Ok? && src.getContentType(a).value != Some(CqlContentType)
  }

  /**
   * The scan inside the try block: the content of the first "text/cql"
   * attachment. Null content fails inside `ByteArrayInputStream`, as a
   * NullPointerException.
   */
  function FirstCql<L, A>(src: AttachmentSource<L, A>, attachments: seq<A>): Result<Option<Content>>
    decreases |attachments|
  {
    if |attachments| == 0 then Ok(None)
    else
      match src.getContentType(attachments[0])
      case Err(e) => Err(e)
      case Ok(contentType) =>
        if contentType == Some(CqlContentType) then
          match src.getContent(attachments[0])
          case Err(e) => Err(e)
          case Ok(None) => Err(NullPointer)
          case Ok(Some(content)) => Ok(Some(content))
        else FirstCql(src, attachments[1..])
  }

  /**
   * The scan finds content exactly when the attachments before some
   * "text/cql" attachment are all passed over and that attachment has
   * content; it finds nothing exactly when every attachment is passed over.
   */
  lemma {:induction false} FirstCqlMeaning<L, A>(src: AttachmentSource<L, A>, attachments: seq<A>)
    ensures FirstCql(src, attachments).Ok? && FirstCql(src, attachments).value.Some? <==>
      exists k :: (0 <= k < |attachments| && IsCql(src, attachments[k]) && src.getContent(attachments[k]).Ok?
        && src.getContent(attachments[k]).value.Some?
        && FirstCql(src, attachments) == src.getContent(attachments[k])
        && forall j :: 0 <= j < k ==> Skipped(src, attachments[j]))
    ensures FirstCql(src, attachments) == Ok(None) <==> forall j :: 0 <= j < |attachments| ==> Skipped(src, attachments[j])
    decreases |attachments|
  {
    if |attachments| > 0 {
      var rest := attachments[1..];
      FirstCqlMeaning(src, rest);
      assert forall j :: 0 <= j < |rest| ==> rest[j] == attachments[j + 1];
      if Skipped(src, attachments[0]) {
        if FirstCql(src, rest).Ok? && FirstCql(src, rest).value.Some? {
          var k :| 0 <= k < |rest| && IsCql(src, rest[k]) && src.getContent(rest[k]).Ok? && src.getContent(rest[k]).value.Some?
            && FirstCql(src, rest) == src.getContent(rest[k]) && forall j :: 0 <= j < k ==> Skipped(src, rest[j]);
          assert forall j :: 0 <= j < k + 1 ==> Skipped(src, attachments[j]);
        }
        if FirstCql(src, attachments) == Ok(None) {
          forall j | 0 <= j < |attachments|
            ensures Skipped(src, attachments[j])
          {
            if j > 0 {
              assert attachments[j] == rest[j - 1];
            }
          }
        }
      }
    }
  }

  /** The try block: look the library up by (id, version), then scan its attachments. */
  function Attempt<L, A>(src: AttachmentSource<L, A>, id: ElmIdentifier): Result<Option<Content>>
  {
    match src.resolveLibraryByName(id.id, id.version)
    case Err(e) => Err(e)
    case Ok(None) => Ok(None)
    case Ok(Some(library)) =>
      match src.getAttachments(library)
      case Err(e) => Err(e)
      case Ok(None) => Ok(None)
      case Ok(Some(attachments)) => FirstCql(src, attachments)
  }

  /** getLibrarySource: the content found, or else the inner provider's answer. */
  function SourceOutcome<L, A>(src: AttachmentSource<L, A>, id: ElmIdentifier): Result<Option<Content>>
  {
    match Attempt(src, id)
    case Ok(Some(content)) => Ok(Some(content))
    case _ => src.fallback(id)
  }

  /**
   * Content is returned only from an attachment of the library found under
   * the identifier's own id and version.
   */
  lemma FoundContentComesFromLibrary<L, A>(src: AttachmentSource<L, A>, id: ElmIdentifier)
    requires Attempt(src, id).Ok? && Attempt(src, id).value.Some?
    ensures var library := src.resolveLibraryByName(id.id, id.version);
      library.Ok? && library.value.Some?
      && src.getAttachments(library.value.value).Ok? && src.getAttachments(library.value.value).value.Some?
      && FirstCql(src, src.getAttachments(library.value.value).value.value) == Attempt(src, id)
    ensures SourceOutcome(src, id) == Attempt(src, id)
  {
  }

  /**
   * No library, no attachment list, no "text/cql" attachment, or any exception
   * in the lookup or the accessors: the answer is the inner provider's.
   */
  lemma FallsBack<L, A>(src: AttachmentSource<L, A>, id: ElmIdentifier)
    requires Attempt(src, id).Err? || Attempt(src, id) == Ok(None)
    ensures SourceOutcome(src, id) == src.fallback(id)
  {
  }

  /** The exceptions of the try block never surface; only the inner provider's own can. */
  lemma ExceptionsSwallowed<L, A>(src: AttachmentSource<L, A>, id: ElmIdentifier)
    ensures SourceOutcome(src, id).Err? ==> Attempt(src, id).Err? || Attempt(src, id) == Ok(None)
    ensures SourceOutcome(src, id).Err? ==> SourceOutcome(src, id) == src.fallback(id)
  {
  }

  /** A "text/cql" attachment whose content is null fails inside the try block, so the inner provider answers. */
  lemma NullCqlContentFallsBack<L, A>(src: AttachmentSource<L, A>, id: ElmIdentifier, l: L, a: A)
    requires src.resolveLibraryByName(id.id, id.version) == Ok(Some(l)) && src.getAttachments(l) == Ok(Some([a]))
    requires IsCql(src, a) && src.getContent(a) == Ok(None)
    ensures Attempt(src, id) == Err(NullPointer)
    ensures SourceOutcome(src, id) == src.fallback(id)
  {
    assert [a][1..] == [];
  }

  /**
   * The loop of the try block: the attachments in order until the first
   * "text/cql" one, whose content it returns. `inspected` counts the
   * attachments whose content type was read: all but the last were passed
   * over, and none after a match or an exception is read.
   */
  method FindCqlAttachment<L, A>(src: AttachmentSource<L, A>, attachments: seq<A>)
    returns (r: Result<Option<Content>>, ghost inspected: nat)
    ensures r == FirstCql(src, attachments)
    ensures inspected <= |attachments|
    ensures forall j :: 0 <= j < inspected - 1 ==> Skipped(src, attachments[j])
    ensures r == Ok(None) ==> inspected == |attachments| && forall j :: 0 <= j < inspected ==> Skipped(src, attachments[j])
    ensures r != Ok(None) ==> inspected >= 1 && !Skipped(src, attachments[inspected - 1])
  {
    var i := 0;
    while i < |attachments|
      invariant 0 <= i <= |attachments|
      invariant FirstCql(src, attachments) == FirstCql(src, attachments[i..])
      invariant forall j :: 0 <= j < i ==> Skipped(src, attachments[j])
    {
      assert attachments[i..][1..] == attachments[i + 1..];
      var contentType := src.getContentType(attachments[i]);
      if contentType.Err? {
        return Err(contentType.error), i + 1;
      }
      if contentType.value == Some(CqlContentType) {
        var content := src.getContent(attachments[i]);
        if content.Err? {
          return Err(content.error), i + 1;
        }
        if content.value.None? {
          return Err(NullPointer), i + 1;
        }
        return Ok(Some(content.value.value)), i + 1;
      }
      i := i + 1;
    }
    return Ok(None), i;
  }

  /** The try block as statements. */
  method AttemptLookup<L, A>(src: AttachmentSource<L, A>, id: ElmIdentifier) returns (r: Result<Option<Content>>)
    ensures r == Attempt(src, id)
  {
    var library := src.resolveLibraryByName(id.id, id.version);
    if library.Err? {
      return Err(library.error);
    }
    if library.value.None? {
      return Ok(None);
    }
    var attachments := src.getAttachments(library.value.value);
    if attachments.Err? {
      return Err(attachments.error);
    }
    if attachments.value.None? {
      return Ok(None);
    }
    var found, _ := FindCqlAttachment(src, attachments.value.value);
    r := found;
  }

  class LibrarySourceProvider<L, A> {
    const source: AttachmentSource<L, A>

    constructor (source: AttachmentSource<L, A>)
      ensures this.source == source
    {
      this.source := source;
    }

    /** getLibrarySource. */
    method GetLibrarySource(versionedIdentifier: ElmIdentifier) returns (r: Result<Option<Content>>)
      ensures r == SourceOutcome(source, versionedIdentifier)
    {
      var found := AttemptLookup(source, versionedIdentifier);
      if found.Ok? && found.value.Some? {
        return found;
      }
      r := source.fallback(versionedIdentifier);
    }
  }
}
