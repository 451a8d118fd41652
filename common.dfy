/**
 * Values shared by every component: optional values and results, the
 * exceptions the modelled code raises or catches, byte content, the two
 * flavours of versioned identifier, the translator's option enumeration and
 * diagnostics, the engine's library value, and the string functions of the
 * Kotlin/Java runtime that the code relies on (literal split, join, `%d`,
 * `String.toInt`, rendering of a null string).
 */
module Common {

  /** A Java reference that may be null. */
  datatype Option<+T> = None | Some(value: T)

  /** Either a value or the exception that was thrown instead. */
  datatype Result<+T> = Ok(value: T) | Err(error: Exception)

  /** The exceptions of the modelled code, by the class the code throws or catches. */
  datatype Exception =
    | IllegalArgument(message: string)   // IllegalArgumentException, `require`, `requireNotNull`
    | NumberFormat(input: string)        // NumberFormatException from `String.toInt`
    | NoEnumConstant(name: string)       // IllegalArgumentException from `Enum.valueOf`
    | CqlError(message: string)          // the engine's CqlException
    | IOError(ioMessage: Option<string>)   // java.io.IOException
    | JAXBError(jaxbMessage: Option<string>) // javax.xml.bind.JAXBException
    | ClassNotFound                      // java.lang.ClassNotFoundException
    | NullPointer                        // a Kotlin null check or a null dereference
    | Unnamed                            // `throw Exception()`
    | Other(otherMessage: Option<string>)   // anything else a collaborator throws

  newtype byte = x: int | 0 <= x < 256

  /** The bytes behind an InputStream or a ByteArray. */
  type Content = seq<byte>

  /** A mutable map that several objects may share (a Kotlin MutableMap passed by reference). */
  class SharedMap<K(==), V> {
    var contents: map<K, V>

    constructor (initial: map<K, V>)
      ensures contents == initial
    {
      contents := initial;
    }
  }

  /** org.hl7.elm.r1.VersionedIdentifier: the translator's identifier. */
  datatype ElmIdentifier = ElmIdentifier(system: Option<string>, id: Option<string>, version: Option<string>)

  /** org.cqframework.cql.elm.execution.VersionedIdentifier: the engine's identifier. */
  datatype EngineIdentifier = EngineIdentifier(system: Option<string>, id: Option<string>, version: Option<string>)

  /** The kinds of content a content provider is asked for (LibraryContentType). */
  datatype LibraryContentType = Cql | Xml | Json | Jxson

  /** CqlTranslator.Options, the translator's option enumeration. */
  datatype TranslatorOption =
    | EnableDateRangeOptimization
    | EnableAnnotations
    | EnableLocators
    | EnableResultTypes
    | EnableDetailedErrors
    | DisableListTraversal
    | DisableListDemotion
    | DisableListPromotion
    | EnableIntervalDemotion
    | EnableIntervalPromotion
    | DisableMethodInvocation
    | RequireFromKeyword
    | DisableDefaultModelInfoLoad

  /** The option set of CqlTranslatorOptions.defaultOptions(). */
  const DefaultOptions: set<TranslatorOption> :=
    {EnableAnnotations, EnableLocators, DisableListDemotion, DisableListPromotion}

  /** The name of an enumeration constant (`Enum.name()`). */
  function OptionName(o: TranslatorOption): string
  {
    match o
    case EnableDateRangeOptimization => "EnableDateRangeOptimization"
    case EnableAnnotations => "EnableAnnotations"
    case EnableLocators => "EnableLocators"
    case EnableResultTypes => "EnableResultTypes"
    case EnableDetailedErrors => "EnableDetailedErrors"
    case DisableListTraversal => "DisableListTraversal"
    case DisableListDemotion => "DisableListDemotion"
    case DisableListPromotion => "DisableListPromotion"
    case EnableIntervalDemotion => "EnableIntervalDemotion"
    case EnableIntervalPromotion => "EnableIntervalPromotion"
    case DisableMethodInvocation => "DisableMethodInvocation"
    case RequireFromKeyword => "RequireFromKeyword"
    case DisableDefaultModelInfoLoad => "DisableDefaultModelInfoLoad"
  }

  /** The constants by name, as `Enum.valueOf` looks them up. */
  const OptionsByName: map<string, TranslatorOption> := map[
    "EnableDateRangeOptimization" := EnableDateRangeOptimization,
    "EnableAnnotations" := EnableAnnotations,
    "EnableLocators" := EnableLocators,
    "EnableResultTypes" := EnableResultTypes,
    "EnableDetailedErrors" := EnableDetailedErrors,
    "DisableListTraversal" := DisableListTraversal,
    "DisableListDemotion" := DisableListDemotion,
    "DisableListPromotion" := DisableListPromotion,
    "EnableIntervalDemotion" := EnableIntervalDemotion,
    "EnableIntervalPromotion" := EnableIntervalPromotion,
    "DisableMethodInvocation" := DisableMethodInvocation,
    "RequireFromKeyword" := RequireFromKeyword,
    "DisableDefaultModelInfoLoad" := DisableDefaultModelInfoLoad]

  /** The table holds each constant under its own name, and nothing else. */
  lemma OptionsByNameIsNames()
    ensures forall name :: name in OptionsByName ==> OptionName(OptionsByName[name]) == name
    ensures forall o :: OptionName(o) in OptionsByName && OptionsByName[OptionName(o)] == o
  {
  }

  /** `Options.valueOf(name)`: the constant with exactly that name, or the exception. */
  function OptionValueOf(name: string): (r: Result<TranslatorOption>)
    ensures r.Ok? ==> OptionName(r.value) == name
    ensures r.Err? ==> r.error == NoEnumConstant(name)
  {
    OptionsByNameIsNames();
    if name in OptionsByName then Ok(OptionsByName[name]) else Err(NoEnumConstant(name))
  }

  /** Every constant is found under its own name. */
  lemma OptionValueOfName(o: TranslatorOption)
    ensures OptionValueOf(OptionName(o)) == Ok(o)
  {
    OptionsByNameIsNames();
  }

  /** CqlTranslatorException.ErrorSeverity. */
  datatype Severity = Info | Warning | Error

  /** A TrackBack: where in which library a diagnostic was raised. */
  datatype TrackBack = TrackBack(
    library: Option<ElmIdentifier>,
    startLine: int, startChar: int, endLine: int, endChar: int)

  /** A CqlTranslatorException as a diagnostic of the translator. */
  datatype Diagnostic = Diagnostic(message: Option<string>, severity: Severity, locator: Option<TrackBack>)

  /** CqlTranslatorException.HasErrors: some diagnostic has Error severity. */
  predicate HasErrors(diagnostics: seq<Diagnostic>)
  {
    exists i :: 0 <= i < |diagnostics| && diagnostics[i].severity == Error
  }

  /** The reflective or deserialised shapes an annotation of an engine Library can take. */
  datatype MapValue = Text(text: string) | NullValue | NonText

  datatype Annotation =
    | CqlToElmInfo(translatorOptions: Option<string>)       // the translator's own annotation type
    | JsonMap(entries: map<string, MapValue>)               // a LinkedHashMap from a JSON reader
    | XmlElement(attributes: map<string, string>)           // an ElementNSImpl from an XML reader
    | OtherAnnotation

  /** An engine Library; its ELM body is opaque here. */
  datatype Library = Library(identifier: Option<EngineIdentifier>, annotation: Option<seq<Annotation>>, elm: Content)

  /** A translator-side org.hl7.elm.r1.Library, opaque. */
  datatype ElmLibrary = ElmLibrary(identifier: Option<ElmIdentifier>, elm: Content)

  /** The translator's CompiledLibrary wrapper; its `library` may be null. */
  datatype CompiledLibrary = CompiledLibrary(library: Option<ElmLibrary>)

  /** What LibraryManager.resolveLibrary returns, with the diagnostics it adds to the caller's list. */
  datatype Resolution = Resolution(compiled: Option<CompiledLibrary>, diagnostics: seq<Diagnostic>)

  /**
   * The translator and ELM readers, external to this code, as functions that may
   * throw (an `Err` result). The LibraryManager's own caching is not modelled.
   */
  datatype Toolchain = Toolchain(
    resolveLibrary: (ElmIdentifier, set<TranslatorOption>) -> Result<Resolution>,  // LibraryManager.resolveLibrary
    fromStream: (Content, seq<TranslatorOption>) -> Result<seq<Diagnostic>>,       // CqlTranslator.fromStream, then .errors
    convertToXml: Option<ElmLibrary> -> Result<Content>,                           // CqlTranslator.convertToXml, as UTF-8
    readXml: Content -> Result<Library>,                                           // CqlLibraryReader.read
    readJson: Content -> Result<Library>)                                          // JsonCqlLibraryReader.read

  // ---------------------------------------------------------------------------
  // Strings as the Java runtime renders and splits them
  // ---------------------------------------------------------------------------

  /** A possibly-null string as `String.format("%s", …)` and string concatenation render it. */
  function Str(s: Option<string>): (r: string)
    ensures s.Some? ==> r == s.value
    ensures s.None? ==> r == "null"
  {
    match s
    case None => "null"
    case Some(v) => v
  }

  predicate StartsWith(s: string, prefix: string)
  {
    |prefix| <= |s| && s[..|prefix|] == prefix
  }

  /** Whether `d` occurs in `s` as a contiguous piece. */
  predicate Occurs(s: string, d: string)
  {
    exists i | 0 <= i <= |s| - |d| :: OccursAt(s, d, i)
  }

  predicate OccursAt(s: string, d: string, i: int)
  {
    0 <= i <= |s| - |d| && s[i..i + |d|] == d
  }

  /**
   * Kotlin's split on a literal, non-empty delimiter (and Regex.split on a
   * pattern matching exactly that text): leftmost non-overlapping occurrences,
   * empty pieces kept, including trailing ones.
   */
  function Split(s: string, d: string): (r: seq<string>)
    requires |d| > 0
    ensures |r| >= 1
    decreases |s|
  {
    if |s| < |d| then [s]
    else if s[..|d|] == d then [""] + Split(s[|d|..], d)
    else
      var rest := Split(s[1..], d);
      [[s[0]] + rest[0]] + rest[1..]
  }

  /** The pieces glued back with the delimiter between them (Java's String.join). */
  function Join(parts: seq<string>, d: string): string
  {
    if |parts| == 0 then ""
    else if |parts| == 1 then parts[0]
    else parts[0] + d + Join(parts[1..], d)
  }

  lemma JoinCons(p: string, rest: seq<string>, d: string)
    requires |rest| >= 1
    ensures Join([p] + rest, d) == p + d + Join(rest, d)
  {
    assert ([p] + rest)[1..] == rest;
  }

  /** Joining one more piece appends the delimiter and that piece. */
  lemma {:induction false} JoinSnoc(parts: seq<string>, p: string, d: string)
    requires |parts| >= 1
    ensures Join(parts + [p], d) == Join(parts, d) + d + p
  {
    if |parts| == 1 {
      assert (parts + [p])[1..] == [p];
    } else {
      assert (parts + [p])[1..] == parts[1..] + [p];
      JoinSnoc(parts[1..], p, d);
    }
  }

  /** Splitting and joining again gives the original string back. */
  lemma {:induction false} JoinSplit(s: string, d: string)
    requires |d| > 0
    ensures Join(Split(s, d), d) == s
    decreases |s|
  {
    if |s| < |d| {
    } else if s[..|d|] == d {
      var t := s[|d|..];
      JoinSplit(t, d);
      SplitAtDelimiter(s, d);
      JoinCons("", Split(t, d), d);
      assert s == d + t;
    } else {
      var t := s[1..];
      JoinSplit(t, d);
      SplitElsewhere(s, d);
      JoinPrependChar(s[0], Split(t, d), d);
      assert s == [s[0]] + t;
    }
  }

  lemma SplitAtDelimiter(s: string, d: string)
    requires |d| > 0 && |s| >= |d| && s[..|d|] == d
    ensures Split(s, d) == [""] + Split(s[|d|..], d)
  {
  }

  lemma SplitElsewhere(s: string, d: string)
    requires |d| > 0 && |s| >= |d| && s[..|d|] != d
    ensures Split(s, d) == [[s[0]] + Split(s[1..], d)[0]] + Split(s[1..], d)[1..]
  {
  }

  /** A character put in front of the first piece comes out in front of the joined text. */
  lemma JoinPrependChar(c: char, parts: seq<string>, d: string)
    requires |parts| >= 1
    ensures Join([[c] + parts[0]] + parts[1..], d) == [c] + Join(parts, d)
  {
    if |parts| > 1 {
      assert ([[c] + parts[0]] + parts[1..])[1..] == parts[1..];
      assert parts == [parts[0]] + parts[1..];
      JoinCons(parts[0], parts[1..], d);
      JoinCons([c] + parts[0], parts[1..], d);
    }
  }

  /** A string in which the delimiter does not occur splits into itself alone. */
  lemma {:induction false} SplitWithoutDelimiter(s: string, d: string)
    requires |d| > 0
    requires !Occurs(s, d)
    ensures Split(s, d) == [s]
    decreases |s|
  {
    if |s| >= |d| {
      assert !OccursAt(s, d, 0);
      assert !Occurs(s[1..], d) by {
        forall i | 0 <= i <= |s[1..]| - |d|
          ensures !OccursAt(s[1..], d, i)
        {
          assert s[1..][i..i + |d|] == s[i + 1..i + 1 + |d|];
          assert !OccursAt(s, d, i + 1);
        }
      }
      SplitWithoutDelimiter(s[1..], d);
      assert [s[0]] + s[1..] == s;
    }
  }

  /** A one-character delimiter occurs exactly where its character does. */
  lemma NoCharNoOccurrence(s: string, c: char)
    requires c !in s
    ensures !Occurs(s, [c])
  {
    forall i | 0 <= i <= |s| - 1
      ensures !OccursAt(s, [c], i)
    {
      assert s[i..i + 1][0] == s[i];
    }
  }

  /** Splitting on a character at its first occurrence. */
  lemma {:induction false} SplitAtFirst(a: string, c: char, b: string)
    requires c !in a
    ensures Split(a + [c] + b, [c]) == [a] + Split(b, [c])
    decreases |a|
  {
    var s := a + [c] + b;
    if |a| == 0 {
      assert s == [c] + b;
      assert s[..1] == [c] && s[1..] == b;
    } else {
      assert s[0] == a[0] && s[0] != c;
      assert s[1..] == a[1..] + [c] + b;
      SplitAtFirst(a[1..], c, b);
      assert [a[0]] + a[1..] == a;
    }
  }

  /** `"[" + join(", ") + "]"`: how a Java list renders its elements. */
  function ListToString(items: seq<string>): string
  {
    "[" + Join(items, ", ") + "]"
  }

  // ---------------------------------------------------------------------------
  // Integers as `%d` prints them and `String.toInt` reads them
  // ---------------------------------------------------------------------------

  const IntMin: int := -0x8000_0000
  const IntMax: int := 0x7FFF_FFFF

  predicate IsDigit(c: char)
  {
    '0' <= c <= '9'
  }

  predicate AllDigits(s: string)
  {
    forall i :: 0 <= i < |s| ==> IsDigit(s[i])
  }

  function DigitChar(d: nat): char
    requires d < 10
  {
    ('0' as int + d) as char
  }

  /** The value of a string of decimal digits. */
  function DigitsValue(s: string): nat
    requires AllDigits(s)
  {
    if |s| == 0 then 0
    else DigitsValue(s[..|s| - 1]) * 10 + (s[|s| - 1] as int - '0' as int)
  }

  /** Decimal digits of a natural number, without leading zeros. */
  function NatToString(n: nat): (r: string)
    ensures |r| > 0 && AllDigits(r)
  {
    if n < 10 then [DigitChar(n)]
    else NatToString(n / 10) + [DigitChar(n % 10)]
  }

  /** `String.format("%d", n)`. */
  function IntToString(n: int): string
  {
    if n < 0 then "-" + NatToString(-n) else NatToString(n)
  }

  /**
   * `String.toInt` (Integer.parseInt): an optional sign, then at least one
   * decimal digit, with a value within the 32-bit range; anything else throws
   * NumberFormatException.
   */
  function ParseInt(s: string): (r: Result<int>)
    ensures r.Ok? ==> IntMin <= r.value <= IntMax
    ensures r.Err? ==> r.error == NumberFormat(s)
  {
    var negative := |s| > 0 && s[0] == '-';
    var digits := if |s| > 0 && (s[0] == '-' || s[0] == '+') then s[1..] else s;
    if |digits| == 0 || !AllDigits(digits) then Err(NumberFormat(s))
    else
      var v: int := if negative then 0 - DigitsValue(digits) else DigitsValue(digits);
      if IntMin <= v <= IntMax then Ok(v) else Err(NumberFormat(s))
  }

  lemma {:induction false} DigitsOfNat(n: nat)
    ensures DigitsValue(NatToString(n)) == n
  {
    if n >= 10 {
      var s := NatToString(n);
      DigitsOfNat(n / 10);
      assert s[..|s| - 1] == NatToString(n / 10);
    }
  }

  /** What `%d` prints, `String.toInt` reads back, for every 32-bit value. */
  lemma ParseIntOfIntToString(n: int)
    requires IntMin <= n <= IntMax
    ensures ParseInt(IntToString(n)) == Ok(n)
  {
    var s := IntToString(n);
    if n < 0 {
      var m: nat := -n;
      DigitsOfNat(m);
      assert s == "-" + NatToString(m);
      assert s[0] == '-';
      assert s[1..] == NatToString(m);
    } else {
      DigitsOfNat(n);
      assert s == NatToString(n);
      assert IsDigit(s[0]);
    }
  }
}
