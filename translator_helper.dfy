/**
 * TranslatorHelper: reading ELM content into an engine library by format,
 * obtaining a translator with a fixed option list, and rendering translator
 * diagnostics as one string.
 */
module TranslatorHelper {
  import opened Common

  const XmlReadError: string := "Error encountered while reading ELM xml: "
  const JsonReadError: string := "Error encountered while reading ELM json: "
  const UnsupportedFormat: string := "Error encountered: unsupported format !"
  const TranslationIOError: string := "Errors occurred translating library: "

  /**
   * readLibrary: XML goes to the XML reader and JXSON to the JSON reader; their
   * IO (and, for XML, JAXB) failures become IllegalArgumentException with a
   * prefix naming the format; any other type is unsupported.
   */
  function ReadLibrary(tools: Toolchain, content: Content, contentType: LibraryContentType): (r: Result<Library>)
    ensures r.Ok? <==> (contentType == Xml && tools.readXml(content).Ok?) || (contentType == Jxson && tools.readJson(content).Ok?)
    ensures r.Ok? ==> r == if contentType == Xml then tools.readXml(content) else tools.readJson(content)
    ensures contentType != Xml && contentType != Jxson ==> r == Err(IllegalArgument(UnsupportedFormat))
  {
    if contentType == Xml then
      match tools.readXml(content)
      case Ok(library) => Ok(library)
      case Err(IOError(m)) => Err(IllegalArgument(XmlReadError + Str(m)))
      case Err(JAXBError(m)) => Err(IllegalArgument(XmlReadError + Str(m)))
      case Err(e) => Err(e)
    else if contentType == Jxson then
      match tools.readJson(content)
      case Ok(library) => Ok(library)
      case Err(IOError(m)) => Err(IllegalArgument(JsonReadError + Str(m)))
      case Err(e) => Err(e)
    else Err(IllegalArgument(UnsupportedFormat))
  }

  /**
   * A failure of readLibrary is either the reader's own failure passed through
   * or an IllegalArgumentException whose message names the format: an IO
   * failure of either reader, an XML-binding failure of the XML reader, or an
   * unsupported type.
   */
  lemma ReadLibraryFailures(tools: Toolchain, content: Content, contentType: LibraryContentType)
    requires ReadLibrary(tools, content, contentType).Err?
    ensures var e := ReadLibrary(tools, content, contentType).error;
      || (contentType == Xml && tools.readXml(content) == Err(e) && !e.IOError? && !e.JAXBError?)
      || (contentType == Jxson && tools.readJson(content) == Err(e) && !e.IOError?)
      || (contentType == Xml && e.IllegalArgument? && StartsWith(e.message, XmlReadError)
          && (tools.readXml(content).error.IOError? || tools.readXml(content).error.JAXBError?))
      || (contentType == Jxson && e.IllegalArgument? && StartsWith(e.message, JsonReadError)
          && tools.readJson(content).error.IOError?)
      || (contentType != Xml && contentType != Jxson && e == IllegalArgument(UnsupportedFormat))
  {
    var e := ReadLibrary(tools, content, contentType).error;
    if contentType == Xml {
      var m := tools.readXml(content).error;
      if m.IOError? {
        assert (XmlReadError + Str(m.ioMessage))[..|XmlReadError|] == XmlReadError;
      } else if m.JAXBError? {
        assert (XmlReadError + Str(m.jaxbMessage))[..|XmlReadError|] == XmlReadError;
      }
    } else if contentType == Jxson {
      var m := tools.readJson(content).error;
      if m.IOError? {
        assert (JsonReadError + Str(m.ioMessage))[..|JsonReadError|] == JsonReadError;
      }
    }
  }

  /** The options getTranslator always passes to the translator, in this order. */
  const TranslatorFlags: seq<TranslatorOption> :=
    [EnableAnnotations, EnableLocators, DisableListDemotion, DisableListPromotion, DisableMethodInvocation]

  lemma TranslatorFlagsAreDefaultsAndMethodInvocation()
    ensures forall o :: o in TranslatorFlags <==> o in DefaultOptions + {DisableMethodInvocation}
    ensures |TranslatorFlags| == 5
  {
  }

  /**
   * getTranslator on a stream: the translator reduced to the diagnostics it
   * reports; an IOException becomes an IllegalArgumentException.
   */
  function GetTranslator(tools: Toolchain, cqlStream: Content): (r: Result<seq<Diagnostic>>)
    ensures tools.fromStream(cqlStream, TranslatorFlags).Ok? ==> r == tools.fromStream(cqlStream, TranslatorFlags)
    ensures r.Err? && !r.error.IllegalArgument? ==> r == tools.fromStream(cqlStream, TranslatorFlags)
    ensures var t := tools.fromStream(cqlStream, TranslatorFlags);
      t.Err? && t.error.IOError? ==> r == Err(IllegalArgument(TranslationIOError + Str(t.error.ioMessage)))
    ensures tools.fromStream(cqlStream, TranslatorFlags).Err? && !tools.fromStream(cqlStream, TranslatorFlags).error.IOError?
      ==> r == tools.fromStream(cqlStream, TranslatorFlags)
  {
    match tools.fromStream(cqlStream, TranslatorFlags)
    case Ok(errors) => Ok(errors)
    case Err(IOError(m)) => Err(IllegalArgument(TranslationIOError + Str(m)))
    case Err(e) => Err(e)
  }

  // ---------------------------------------------------------------------------
  // errorsToString
  // ---------------------------------------------------------------------------

  /** `id` then `-version` when there is a version, or nothing without a library. */
  function LocatorLibrary(library: Option<ElmIdentifier>): string
  {
    match library
    case None => ""
    case Some(l) => Str(l.id) + (if l.version.Some? then "-" + l.version.value else "")
  }

  /** `String.format("%s[%d:%d, %d:%d]", …)` of a locator. */
  function LocatorText(tb: TrackBack): string
  {
    LocatorLibrary(tb.library) + "[" + IntToString(tb.startLine) + ":" + IntToString(tb.startChar)
      + ", " + IntToString(tb.endLine) + ":" + IntToString(tb.endChar) + "]"
  }

  /** One entry: the location, or "[n/a]" without a locator, directly followed by the message. */
  function Entry(d: Diagnostic): (r: string)
    ensures d.locator.None? ==> r == "[n/a]" + Str(d.message)
  {
    (if d.locator.None? then "[n/a]" else LocatorText(d.locator.value)) + Str(d.message)
  }

  function Entries(diagnostics: seq<Diagnostic>): (r: seq<string>)
    ensures |r| == |diagnostics|
    ensures forall i :: 0 <= i < |diagnostics| ==> r[i] == Entry(diagnostics[i])
  {
    MapEach(diagnostics, Entry)
  }

  /** `f` applied to each element, in order. */
  function MapEach<T, U>(s: seq<T>, f: T -> U): (r: seq<U>)
    ensures |r| == |s|
    ensures forall i :: 0 <= i < |s| ==> r[i] == f(s[i])
    decreases |s|
  {
    if |s| == 0 then [] else MapEach(s[..|s| - 1], f) + [f(s[|s| - 1])]
  }

  lemma MapEachSnoc<T, U>(s: seq<T>, f: T -> U, i: int)
    requires 0 <= i < |s|
    ensures MapEach(s[..i + 1], f) == MapEach(s[..i], f) + [f(s[i])]
  {
    assert s[..i + 1][..i] == s[..i];
  }

  /** errorsToString: the entries collected in a list, rendered as the list's toString. */
  method ErrorsToString(exceptions: seq<Diagnostic>) returns (r: string)
    ensures r == ListToString(Entries(exceptions))
    ensures |exceptions| == 0 ==> r == "[]"
    ensures |exceptions| == 1 ==> r == "[" + Entry(exceptions[0]) + "]"
  {
    var errors: seq<string> := [];
    var i := 0;
    while i < |exceptions|
      invariant 0 <= i <= |exceptions|
      invariant errors == Entries(exceptions[..i])
    {
      var error := exceptions[i];
      var tb := error.locator;
      var lines := if tb.None? then "[n/a]" else LocatorText(tb.value);
      assert lines + Str(error.message) == Entry(error);
      EntriesSnoc(exceptions, i);
      errors := errors + [lines + Str(error.message)];
      i := i + 1;
    }
    assert exceptions[..i] == exceptions;
    return ListToString(errors);
  }

  lemma EntriesSnoc(diagnostics: seq<Diagnostic>, i: int)
    requires 0 <= i < |diagnostics|
    ensures Entries(diagnostics[..i + 1]) == Entries(diagnostics[..i]) + [Entry(diagnostics[i])]
  {
    MapEachSnoc(diagnostics, Entry, i);
  }

  /**
   * One more diagnostic extends the rendering: the closing "]" of the shorter
   * list becomes ", " followed by the new entry and "]". With the empty and
   * one-element cases of ErrorsToString, this fixes "[e1, e2, …]" for every list.
   */
  lemma {:induction false} ErrorsToStringAppend(diagnostics: seq<Diagnostic>, d: Diagnostic)
    requires |diagnostics| >= 1
    ensures var before := ListToString(Entries(diagnostics));
      |before| >= 2 && before[|before| - 1] == ']'
      && ListToString(Entries(diagnostics + [d])) == before[..|before| - 1] + ", " + Entry(d) + "]"
  {
    var es := Entries(diagnostics);
    assert Entries(diagnostics + [d]) == es + [Entry(d)];
    JoinSnoc(es, Entry(d), ", ");
    var before := ListToString(es);
    assert before[..|before| - 1] == "[" + Join(es, ", ");
  }

  /** The rendering of a diagnostic with a versioned library in its locator. */
  lemma EntryExample()
    ensures Entry(Diagnostic(Some("boom"), Error,
      Some(TrackBack(Some(ElmIdentifier(None, Some("lib"), Some("1.0"))), 1, 2, 3, 4))))
      == "lib-1.0[1:2, 3:4]boom"
  {
    SingleDigit(1);
    SingleDigit(2);
    SingleDigit(3);
    SingleDigit(4);
    var tb := TrackBack(Some(ElmIdentifier(None, Some("lib"), Some("1.0"))), 1, 2, 3, 4);
    assert LocatorLibrary(tb.library) == "lib-1.0";
    assert LocatorText(tb) == "lib-1.0[1:2, 3:4]";
  }

  /** Without a library in the locator, and without a message, the entry is the bare position and "null". */
  lemma EntryWithoutLibraryExample()
    ensures Entry(Diagnostic(None, Warning, Some(TrackBack(None, 10, 0, 10, 5)))) == "[10:0, 10:5]null"
  {
    SingleDigit(0);
    SingleDigit(5);
    assert IntToString(10) == "10" by {
      SingleDigit(1);
      assert NatToString(10) == NatToString(1) + [DigitChar(0)];
    }
  }

  lemma SingleDigit(n: int)
    requires 0 <= n < 10
    ensures IntToString(n) == [DigitChar(n)]
  {
  }
}
