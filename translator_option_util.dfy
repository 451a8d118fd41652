/**
 * TranslatorOptionUtil: recovering the option set a library was translated
 * with from the annotations of its ELM, and parsing the comma-separated form
 * into a set of CqlTranslator options.
 *
 * An annotation can be the translator's own CqlToElmInfo (a library mapped
 * from the translator's types), a string map (a library read from JSON) or an
 * XML element (a library read from XML); the first annotation that yields an
 * option string decides.
 */
module TranslatorOptionUtil {
  import opened Common

  const TranslatorOptionsKey: string := "translatorOptions"

  // ---------------------------------------------------------------------------
  // The scan over annotations
  // ---------------------------------------------------------------------------

  /**
   * What one annotation contributes to the scan: `None` to go on to the next
   * one, `Some(v)` to end the scan with `v` (which may itself be null).
   * A map entry that is not a string, or a missing key or attribute, goes on.
   */
  function Decision(a: Annotation): Option<Option<string>>
  {
    match a
    case CqlToElmInfo(t) => Some(t)
    case JsonMap(entries) =>
      if TranslatorOptionsKey in entries && entries[TranslatorOptionsKey].Text?
      then Some(Some(entries[TranslatorOptionsKey].text))
      else None
    case XmlElement(attributes) =>
      if TranslatorOptionsKey in attributes then Some(Some(attributes[TranslatorOptionsKey])) else None
    case OtherAnnotation => None
  }

  /** The option string of an annotation list: the first decision in list order, or null. */
  function AnnotationOptions(annotations: seq<Annotation>): Option<string>
    decreases |annotations|
  {
    if |annotations| == 0 then None
    else
      match Decision(annotations[0])
      case Some(v) => v
      case None => AnnotationOptions(annotations[1..])
  }

  /** The first annotation that decides gives the result; the ones after it are not looked at. */
  lemma {:induction false} FirstDecisionWins(annotations: seq<Annotation>, k: int)
    requires 0 <= k < |annotations| && Decision(annotations[k]).Some?
    requires forall j :: 0 <= j < k ==> Decision(annotations[j]).None?
    ensures AnnotationOptions(annotations) == Decision(annotations[k]).value
    decreases k
  {
    if k > 0 {
      assert Decision(annotations[0]).None?;
      FirstDecisionWins(annotations[1..], k - 1);
    }
  }

  /** With no annotation deciding, the result is null. */
  lemma {:induction false} NoDecisionIsNull(annotations: seq<Annotation>)
    requires forall j :: 0 <= j < |annotations| ==> Decision(annotations[j]).None?
    ensures AnnotationOptions(annotations) == None
    decreases |annotations|
  {
    if |annotations| > 0 {
      assert Decision(annotations[0]).None?;
      NoDecisionIsNull(annotations[1..]);
    }
  }

  /** A CqlToElmInfo annotation without options ends the scan with null, whatever follows. */
  lemma InfoWithoutOptionsEndsScan(rest: seq<Annotation>)
    ensures AnnotationOptions([CqlToElmInfo(None)] + rest) == None
  {
    FirstDecisionWins([CqlToElmInfo(None)] + rest, 0);
  }

  /** A map without the key and an element without the attribute are skipped. */
  lemma SkipsWhatDoesNotDecide(m: map<string, MapValue>, attributes: map<string, string>, rest: seq<Annotation>)
    requires TranslatorOptionsKey !in m && TranslatorOptionsKey !in attributes
    ensures AnnotationOptions([JsonMap(m), XmlElement(attributes)] + rest) == AnnotationOptions(rest)
  {
    var s := [JsonMap(m), XmlElement(attributes)] + rest;
    assert s[1..][1..] == rest;
  }

  /** The private getTranslatorOptions(annotations): the loop with its early returns and continues. */
  method ScanAnnotations(annotations: seq<Annotation>) returns (r: Option<string>)
    ensures r == AnnotationOptions(annotations)
    ensures (forall j :: 0 <= j < |annotations| ==> Decision(annotations[j]).None?) ==> r.None?
  {
    var i := 0;
    while i < |annotations|
      invariant 0 <= i <= |annotations|
      invariant AnnotationOptions(annotations) == AnnotationOptions(annotations[i..])
      invariant forall j :: 0 <= j < i ==> Decision(annotations[j]).None?
    {
      assert annotations[i..][1..] == annotations[i + 1..];
      var o := annotations[i];
      match o {
        case CqlToElmInfo(t) =>
          return t;
        case JsonMap(lhm) =>
          if TranslatorOptionsKey in lhm {
            var options := lhm[TranslatorOptionsKey];
            if options.Text? {
              return Some(options.text);
            }
          }
        case XmlElement(nodeMap) =>
          if TranslatorOptionsKey in nodeMap {
            return Some(nodeMap[TranslatorOptionsKey]);
          }
        case OtherAnnotation =>
      }
      i := i + 1;
    }
    return None;
  }

  // ---------------------------------------------------------------------------
  // Parsing the option string
  // ---------------------------------------------------------------------------

  predicate IsBlank(c: char)
  {
    c <= ' '
  }

  /** Every character of the text is blank. */
  predicate AllBlank(s: string)
    decreases |s|
  {
    |s| == 0 || (IsBlank(s[0]) && AllBlank(s[1..]))
  }

  /** A blank appended to blanks keeps them blank. */
  lemma {:induction false} AllBlankAppend(s: string, c: char)
    requires AllBlank(s) && IsBlank(c)
    ensures AllBlank(s + [c])
    decreases |s|
  {
    if |s| > 0 {
      assert (s + [c])[1..] == s[1..] + [c];
      AllBlankAppend(s[1..], c);
    } else {
      assert (s + [c])[1..] == [];
    }
  }

  /** The leading blanks removed: what is kept is a suffix that does not start with a blank. */
  function TrimStart(s: string): (r: string)
    ensures |r| <= |s| && r == s[|s| - |r|..]
    ensures |r| == 0 || !IsBlank(r[0])
    decreases |s|
  {
    if |s| > 0 && IsBlank(s[0]) then TrimStart(s[1..]) else s
  }

  /** The trailing blanks removed: what is kept is a prefix that does not end with a blank. */
  function TrimEnd(s: string): (r: string)
    ensures |r| <= |s| && r == s[..|r|]
    ensures |r| == 0 || !IsBlank(r[|r| - 1])
    decreases |s|
  {
    if |s| > 0 && IsBlank(s[|s| - 1]) then TrimEnd(s[..|s| - 1]) else s
  }

  /** Only blanks are removed from the front. */
  lemma {:induction false} TrimStartRemovesBlanks(s: string)
    ensures AllBlank(s[..|s| - |TrimStart(s)|])
    decreases |s|
  {
    if |s| > 0 && IsBlank(s[0]) {
      TrimStartRemovesBlanks(s[1..]);
      assert s[..|s| - |TrimStart(s)|][1..] == s[1..][..|s| - 1 - |TrimStart(s[1..])|];
    }
  }

  /** Only blanks are removed from the back. */
  lemma {:induction false} TrimEndRemovesBlanks(s: string)
    ensures AllBlank(s[|TrimEnd(s)|..])
    decreases |s|
  {
    if |s| > 0 && IsBlank(s[|s| - 1]) {
      var r := TrimEnd(s[..|s| - 1]);
      TrimEndRemovesBlanks(s[..|s| - 1]);
      assert s[|r|..] == s[..|s| - 1][|r|..] + [s[|s| - 1]];
      AllBlankAppend(s[..|s| - 1][|r|..], s[|s| - 1]);
    }
  }

  /** `r` sits at index `i` of `s`, and everything before and after it is blank. */
  predicate TrimmedAt(s: string, r: string, i: int)
  {
    OccursAt(s, r, i) && AllBlank(s[..i]) && AllBlank(s[i + |r|..])
  }

  /** Blanks cut from the front, then from the back, leave the rest at the index of the first cut. */
  lemma TrimmedAtOfParts(s: string, t: string, r: string)
    requires |t| <= |s| && t == s[|s| - |t|..] && AllBlank(s[..|s| - |t|])
    requires |r| <= |t| && r == t[..|r|] && AllBlank(t[|r|..])
    ensures TrimmedAt(s, r, |s| - |t|)
  {
    var i := |s| - |t|;
    assert s[i..i + |r|] == r;
    assert s[i + |r|..] == t[|r|..];
  }

  /** `trim { it <= ' ' }`: the text without its leading and trailing blanks. */
  function Trim(s: string): (r: string)
    ensures exists i :: TrimmedAt(s, r, i)
    ensures |r| == 0 || (!IsBlank(r[0]) && !IsBlank(r[|r| - 1]))
  {
    var t := TrimStart(s);
    var r := TrimEnd(t);
    TrimStartRemovesBlanks(s);
    TrimEndRemovesBlanks(t);
    TrimmedAtOfParts(s, t, r);
    assert |r| == 0 || r[0] == t[0];
    r
  }

  /** A text without leading or trailing blanks is its own trim. */
  lemma TrimOfTrimmed(s: string)
    requires |s| == 0 || (!IsBlank(s[0]) && !IsBlank(s[|s| - 1]))
    ensures Trim(s) == s
  {
  }

  /** The option names parsed one by one, in order; the first piece that is not a name fails. */
  function ParseAll(pieces: seq<string>): Result<set<TranslatorOption>>
    decreases |pieces|
  {
    if |pieces| == 0 then Ok({})
    else
      match ParseAll(pieces[..|pieces| - 1])
      case Err(e) => Err(e)
      case Ok(optionSet) =>
        match OptionValueOf(pieces[|pieces| - 1])
        case Err(e) => Err(e)
        case Ok(o) => Ok(optionSet + {o})
  }

  /**
   * Parsing succeeds exactly when every piece is an option name, and then the
   * set holds the options named; otherwise the error names the first piece
   * that is not a name.
   */
  lemma {:induction false} ParseAllMeaning(pieces: seq<string>)
    ensures ParseAll(pieces).Ok? <==> forall k :: 0 <= k < |pieces| ==> OptionValueOf(pieces[k]).Ok?
    ensures ParseAll(pieces).Ok? ==> forall o :: o in ParseAll(pieces).value <==> OptionName(o) in pieces
    ensures ParseAll(pieces).Err? ==> exists k :: (0 <= k < |pieces| && ParseAll(pieces).error == NoEnumConstant(pieces[k])
      && OptionValueOf(pieces[k]).Err? && forall j :: 0 <= j < k ==> OptionValueOf(pieces[j]).Ok?)
  {
    ParseAllSucceeds(pieces);
    if ParseAll(pieces).Ok? {
      ParseAllMembers(pieces);
    } else {
      ParseAllFirstFailure(pieces);
    }
  }

  lemma {:induction false} ParseAllSucceeds(pieces: seq<string>)
    ensures ParseAll(pieces).Ok? <==> forall k :: 0 <= k < |pieces| ==> OptionValueOf(pieces[k]).Ok?
    decreases |pieces|
  {
    if |pieces| > 0 {
      var n := |pieces| - 1;
      var front := pieces[..n];
      ParseAllSucceeds(front);
      assert forall k :: 0 <= k < n ==> front[k] == pieces[k];
    }
  }

  lemma {:induction false} ParseAllMembers(pieces: seq<string>)
    requires ParseAll(pieces).Ok?
    ensures forall o :: o in ParseAll(pieces).value <==> OptionName(o) in pieces
    decreases |pieces|
  {
    if |pieces| > 0 {
      var n := |pieces| - 1;
      var front := pieces[..n];
      ParseAllMembers(front);
      assert pieces == front + [pieces[n]];
      var last := OptionValueOf(pieces[n]);
      assert ParseAll(pieces).value == ParseAll(front).value + {last.value};
      forall o
        ensures o in ParseAll(pieces).value <==> OptionName(o) in pieces
      {
        if OptionName(o) in pieces {
          var k :| 0 <= k < |pieces| && pieces[k] == OptionName(o);
          if k < n {
            assert front[k] == OptionName(o);
          } else {
            OptionValueOfName(o);
          }
        }
        if o == last.value {
          assert OptionName(o) == pieces[n];
        }
      }
    }
  }

  lemma {:induction false} ParseAllFirstFailure(pieces: seq<string>)
    requires ParseAll(pieces).Err?
    ensures exists k :: (0 <= k < |pieces| && ParseAll(pieces).error == NoEnumConstant(pieces[k])
      && OptionValueOf(pieces[k]).Err? && forall j :: 0 <= j < k ==> OptionValueOf(pieces[j]).Ok?)
    decreases |pieces|
  {
    var n := |pieces| - 1;
    var front := pieces[..n];
    assert forall k :: 0 <= k < n ==> front[k] == pieces[k];
    if ParseAll(front).Err? {
      ParseAllFirstFailure(front);
      var k :| 0 <= k < |front| && ParseAll(front).error == NoEnumConstant(front[k])
        && OptionValueOf(front[k]).Err? && forall j :: 0 <= j < k ==> OptionValueOf(front[j]).Ok?;
      assert pieces[k] == front[k];
    } else {
      ParseAllSucceeds(front);
      assert OptionValueOf(pieces[n]).Err?;
    }
  }

  /** A failure on a prefix is the failure of the whole. */
  lemma {:induction false} ParseAllPrefixError(pieces: seq<string>, i: int)
    requires 0 <= i <= |pieces| && ParseAll(pieces[..i]).Err?
    ensures ParseAll(pieces) == ParseAll(pieces[..i])
    decreases |pieces| - i
  {
    if i < |pieces| {
      assert pieces[..i + 1][..i] == pieces[..i];
      ParseAllPrefixError(pieces, i + 1);
    } else {
      assert pieces[..i] == pieces;
    }
  }

  /** Neither order nor repetition of the names matters. */
  lemma ParseAllIgnoresOrder(p: seq<string>, q: seq<string>)
    requires forall x :: x in p <==> x in q
    requires ParseAll(p).Ok?
    ensures ParseAll(q) == ParseAll(p)
  {
    ParseAllMeaning(p);
    ParseAllMeaning(q);
    forall k | 0 <= k < |q|
      ensures OptionValueOf(q[k]).Ok?
    {
      assert q[k] in p;
    }
    assert ParseAll(q).value == ParseAll(p).value;
  }

  /** parseTranslatorOptions: null stays null; otherwise the trimmed text split on ",". */
  function ParsedOptions(translatorOptions: Option<string>): Result<Option<set<TranslatorOption>>>
  {
    match translatorOptions
    case None => Ok(None)
    case Some(t) =>
      match ParseAll(Split(Trim(t), ","))
      case Err(e) => Err(e)
      case Ok(optionSet) => Ok(Some(optionSet))
  }

  /** parseTranslatorOptions. */
  method ParseTranslatorOptions(translatorOptions: Option<string>) returns (r: Result<Option<set<TranslatorOption>>>)
    ensures r == ParsedOptions(translatorOptions)
    ensures translatorOptions.None? ==> r == Ok(None)
    ensures r.Ok? && r.value.Some? ==>
      forall o :: o in r.value.value <==> OptionName(o) in Split(Trim(translatorOptions.value), ",")
  {
    if translatorOptions.None? {
      return Ok(None);
    }
    var options := Split(Trim(translatorOptions.value), ",");
    var optionSet := ParsePieces(options);
    if optionSet.Err? {
      return Err(optionSet.error);
    }
    ParseAllMembers(options);
    return Ok(Some(optionSet.value));
  }

  /** The loop of parseTranslatorOptions: each piece's option added to the set, the first failure thrown. */
  method ParsePieces(options: seq<string>) returns (r: Result<set<TranslatorOption>>)
    ensures r == ParseAll(options)
  {
    var optionSet: set<TranslatorOption> := {};
    var i := 0;
    while i < |options|
      invariant 0 <= i <= |options|
      invariant ParseAll(options[..i]) == Ok(optionSet)
    {
      var option := OptionValueOf(options[i]);
      ParseAllStep(options, i);
      if option.Err? {
        ParseAllPrefixError(options, i + 1);
        return Err(option.error);
      }
      optionSet := optionSet + {option.value};
      i := i + 1;
    }
    assert options[..i] == options;
    return Ok(optionSet);
  }

  /** One more piece: its option joins the set, or its failure is the result. */
  lemma ParseAllStep(pieces: seq<string>, i: int)
    requires 0 <= i < |pieces|
    ensures ParseAll(pieces[..i + 1]) ==
      match ParseAll(pieces[..i])
      case Err(e) => Err(e)
      case Ok(optionSet) =>
        match OptionValueOf(pieces[i])
        case Err(e) => Err(e)
        case Ok(o) => Ok(optionSet + {o})
  {
    assert pieces[..i + 1][..i] == pieces[..i];
  }

  lemma SplitTwo(a: string, b: string)
    requires ',' !in a && ',' !in b
    ensures Split(a + "," + b, ",") == [a, b]
  {
    assert "," == [','];
    SplitAtFirst(a, ',', b);
    NoCharNoOccurrence(b, ',');
    SplitWithoutDelimiter(b, ",");
  }

  /** A two-name option string without blanks at its ends parses as its two pieces. */
  lemma ParsedPair(a: string, b: string)
    requires ',' !in a && ',' !in b && |a| > 0 && |b| > 0 && !IsBlank(a[0]) && !IsBlank(b[|b| - 1])
    ensures ParsedOptions(Some(a + "," + b)) ==
      match ParseAll([a, b]) case Err(e) => Err(e) case Ok(optionSet) => Ok(Some(optionSet))
  {
    var s := a + "," + b;
    assert s[0] == a[0] && s[|s| - 1] == b[|b| - 1];
    SplitTwo(a, b);
    ParsedUnpadded(s, [a, b]);
  }

  lemma ParseOneName(x: string, a: TranslatorOption)
    requires OptionValueOf(x) == Ok(a)
    ensures ParseAll([x]) == Ok({a})
  {
    assert [x][..0] == [];
    assert ParseAll([]) == Ok({});
    assert [x][|[x]| - 1] == x;
    var e: set<TranslatorOption> := {};
    assert e + {a} == {a};
  }

  lemma ParseTwoNames(x: string, y: string, a: TranslatorOption, b: TranslatorOption)
    requires OptionValueOf(x) == Ok(a) && OptionValueOf(y) == Ok(b)
    ensures ParseAll([x, y]) == Ok({a, b})
  {
    ParseOneName(x, a);
    var p := [x, y];
    assert p[..|p| - 1] == [x];
    assert p[|p| - 1] == y;
    assert ParseAll(p) == Ok({a} + {b});
    assert {a} + {b} == {a, b};
  }

  /** Three comma-separated pieces without blanks at the ends. */
  lemma SplitThree(x: string, y: string, z: string)
    requires ',' !in x && ',' !in y && ',' !in z
    ensures Split(x + "," + y + "," + z, ",") == [x, y, z]
  {
    assert "," == [','];
    assert x + "," + y + "," + z == x + [','] + (y + "," + z);
    SplitAtFirst(x, ',', y + "," + z);
    SplitTwo(y, z);
  }

  /** Two names in either order, one of them repeated, give the same set. */
  lemma OrderAndRepetition(x: string, y: string, a: TranslatorOption, b: TranslatorOption)
    requires OptionValueOf(x) == Ok(a) && OptionValueOf(y) == Ok(b)
    requires ',' !in x && ',' !in y && |x| > 0 && |y| > 0
    requires !IsBlank(x[0]) && !IsBlank(y[0]) && !IsBlank(y[|y| - 1])
    ensures ParsedOptions(Some(x + "," + y)) == Ok(Some({a, b}))
    ensures ParsedOptions(Some(y + "," + x + "," + y)) == Ok(Some({a, b}))
  {
    ParsedPair(x, y);
    ParseTwoNames(x, y, a, b);
    ParsedTriple(y, x, y);
    ParseAllIgnoresOrder([x, y], [y, x, y]);
  }

  /** A three-name option string without blanks at its ends parses as its three pieces. */
  lemma ParsedTriple(x: string, y: string, z: string)
    requires ',' !in x && ',' !in y && ',' !in z && |x| > 0 && |z| > 0 && !IsBlank(x[0]) && !IsBlank(z[|z| - 1])
    ensures ParsedOptions(Some(x + "," + y + "," + z)) ==
      match ParseAll([x, y, z]) case Err(e) => Err(e) case Ok(optionSet) => Ok(Some(optionSet))
  {
    var s := x + "," + y + "," + z;
    assert s[0] == x[0] && s[|s| - 1] == z[|z| - 1];
    SplitThree(x, y, z);
    ParsedUnpadded(s, [x, y, z]);
  }

  /** An option string without blanks at its ends parses as its pieces. */
  lemma ParsedUnpadded(s: string, pieces: seq<string>)
    requires |s| > 0 && !IsBlank(s[0]) && !IsBlank(s[|s| - 1]) && Split(s, ",") == pieces
    ensures ParsedOptions(Some(s)) == match ParseAll(pieces) case Err(e) => Err(e) case Ok(optionSet) => Ok(Some(optionSet))
  {
    TrimOfTrimmed(s);
    ParsedTrimmed(s, pieces);
  }

  /** An option string that is its own trim parses as its pieces. */
  lemma ParsedTrimmed(s: string, pieces: seq<string>)
    requires Trim(s) == s && Split(s, ",") == pieces
    ensures ParsedOptions(Some(s)) == match ParseAll(pieces) case Err(e) => Err(e) case Ok(optionSet) => Ok(Some(optionSet))
  {
  }


  /** "EnableAnnotations,EnableLocators" and "EnableLocators,EnableAnnotations,EnableLocators" parse alike. */
  lemma OrderAndRepetitionExample()
    ensures var x, y := OptionName(EnableAnnotations), OptionName(EnableLocators);
      ParsedOptions(Some(x + "," + y)) == Ok(Some({EnableAnnotations, EnableLocators}))
      && ParsedOptions(Some(y + "," + x + "," + y)) == ParsedOptions(Some(x + "," + y))
  {
    var x, y := OptionName(EnableAnnotations), OptionName(EnableLocators);
    OptionValueOfName(EnableAnnotations);
    OptionValueOfName(EnableLocators);
    assert ',' !in x && ',' !in y;
    assert !IsBlank(x[0]) && !IsBlank(y[0]) && !IsBlank(y[|y| - 1]);
    OrderAndRepetition(x, y, EnableAnnotations, EnableLocators);
  }

  /** "EnableAnnotations, EnableLocators": the space after the comma is part of the second name, which then does not exist. */
  lemma SpaceAfterCommaFails()
    ensures var x, y := OptionName(EnableAnnotations), OptionName(EnableLocators);
      ParsedOptions(Some(x + ", " + y)) == Err(NoEnumConstant(" " + y))
  {
    var x, y := OptionName(EnableAnnotations), " " + OptionName(EnableLocators);
    OptionValueOfName(EnableAnnotations);
    assert x + ", " + OptionName(EnableLocators) == x + "," + y;
    ParsedPair(x, y);
    ParseNameThenNonName(x, EnableAnnotations, y);
  }

  lemma ParseNameThenNonName(x: string, a: TranslatorOption, y: string)
    requires OptionValueOf(x) == Ok(a) && |y| > 0 && y[0] == ' '
    ensures ParseAll([x, y]) == Err(NoEnumConstant(y))
  {
    ParseOneName(x, a);
    assert [x, y][..1] == [x];
    NotAName(y);
  }

  /** No option name starts with a space. */
  lemma NotAName(s: string)
    requires |s| > 0 && s[0] == ' '
    ensures OptionValueOf(s) == Err(NoEnumConstant(s))
  {
    forall o
      ensures OptionName(o) != s
    {
      assert OptionName(o)[0] != ' ';
    }
  }

  /** An empty option string is one empty name, which fails. */
  lemma EmptyStringFails()
    ensures ParsedOptions(Some("")) == Err(NoEnumConstant(""))
  {
    assert [""][..0] == [];
  }

  // ---------------------------------------------------------------------------
  // The option set of a library, and the comparison both loaders make
  // ---------------------------------------------------------------------------

  /** getTranslatorOptions(library): null without annotations, otherwise the parsed option string of the scan. */
  function LibraryOptions(library: Library): Result<Option<set<TranslatorOption>>>
  {
    if library.annotation.None? || |library.annotation.value| == 0 then Ok(None)
    else ParsedOptions(AnnotationOptions(library.annotation.value))
  }

  method GetTranslatorOptions(library: Library) returns (r: Result<Option<set<TranslatorOption>>>)
    ensures r == LibraryOptions(library)
    ensures library.annotation.None? || |library.annotation.value| == 0 ==> r == Ok(None)
  {
    if library.annotation.None? || |library.annotation.value| == 0 {
      return Ok(None);
    }
    var translatorOptions := ScanAnnotations(library.annotation.value);
    r := ParseTranslatorOptions(translatorOptions);
  }

  /**
   * translatorOptionsMatch of both loaders: true exactly when the library's
   * recovered option set equals the configured one; a library without one does
   * not match; a parse failure of the recovered string propagates.
   */
  function OptionsMatch(library: Library, configured: set<TranslatorOption>): (r: Result<bool>)
    ensures r == Ok(true) <==> LibraryOptions(library) == Ok(Some(configured))
    ensures r.Err? <==> LibraryOptions(library).Err?
    ensures r.Err? ==> r.error == LibraryOptions(library).error
  {
    match LibraryOptions(library)
    case Err(e) => Err(e)
    case Ok(None) => Ok(false)
    case Ok(Some(options)) => Ok(options == configured)
  }
}
