/**
 * The two default methods of LibraryResolutionProvider: the comparison of
 * optional version strings and the selection of one candidate among
 * same-named libraries.
 *
 * The code splits a version on the two-character literal `\.` (Kotlin's
 * `split(String)` does not read a regular expression), so an ordinary
 * "1.2.0" is one segment and `toInt` rejects it; the segments of a version
 * are parsed only as far as the comparison gets. The selection returns the
 * last exact match; the running maximum it computes is never returned, but a
 * failing comparison while computing it aborts the selection.
 */
module LibraryResolution {
  import opened Common

  /** The delimiter as written in the code: a backslash followed by a dot. */
  const VersionDelimiter: string := "\\."

  function Segments(version: string): seq<string>
  {
    Split(version, VersionDelimiter)
  }

  /** Segment `i` of a split version as an integer; a missing segment reads as 0. */
  function SegmentValue(segments: seq<string>, i: nat): Result<int>
  {
    if i < |segments| then ParseInt(segments[i]) else Ok(0)
  }

  /**
   * The comparison loop from index `i` on: the first segment pair that
   * differs decides; a segment is parsed only when the loop reaches it, the
   * first version's before the second's.
   */
  function CompareFrom(a: seq<string>, b: seq<string>, i: nat): (r: Result<int>)
    ensures r.Ok? ==> -1 <= r.value <= 1
    decreases |a| + |b| - i
  {
    if i >= |a| && i >= |b| then Ok(0)
    else
      match SegmentValue(a, i)
      case Err(e) => Err(e)
      case Ok(v1) =>
        match SegmentValue(b, i)
        case Err(e) => Err(e)
        case Ok(v2) =>
          if v1 > v2 then Ok(1)
          else if v1 < v2 then Ok(-1)
          else CompareFrom(a, b, i + 1)
  }

  /** compareVersions: a null version is the greatest of all. */
  function VersionOrder(version1: Option<string>, version2: Option<string>): Result<int>
  {
    if version1.None? && version2.None? then Ok(0)
    else if version1.Some? && version2.None? then Ok(-1)
    else if version1.None? && version2.Some? then Ok(1)
    else CompareFrom(Segments(version1.value), Segments(version2.value), 0)
  }

  /** compareVersions, with its loop over segment indices and its early returns. */
  method CompareVersions(version1: Option<string>, version2: Option<string>) returns (r: Result<int>)
    ensures r == VersionOrder(version1, version2)
    ensures version1.None? && version2.None? ==> r == Ok(0)
    ensures version1.Some? && version2.None? ==> r == Ok(-1)
    ensures version1.None? && version2.Some? ==> r == Ok(1)
    ensures r.Ok? ==> -1 <= r.value <= 1
  {
    if version1.None? && version2.None? {
      return Ok(0);
    }
    if version1.Some? && version2.None? {
      return Ok(-1);
    }
    if version1.None? && version2.Some? {
      return Ok(1);
    }
    var string1Vals := Segments(version1.value);
    var string2Vals := Segments(version2.value);
    var length := if |string1Vals| >= |string2Vals| then |string1Vals| else |string2Vals|;
    var i := 0;
    while i < length
      invariant 0 <= i <= length
      invariant CompareFrom(string1Vals, string2Vals, 0) == CompareFrom(string1Vals, string2Vals, i)
      decreases length - i
    {
      var v1 := SegmentValue(string1Vals, i);
      if v1.Err? {
        return Err(v1.error);
      }
      var v2 := SegmentValue(string2Vals, i);
      if v2.Err? {
        return Err(v2.error);
      }
      CompareFromStep(string1Vals, string2Vals, i, v1.value, v2.value);
      if v1.value > v2.value {
        return Ok(1);
      } else if v1.value < v2.value {
        return Ok(-1);
      }
      i := i + 1;
    }
    return Ok(0);
  }

  // ---------------------------------------------------------------------------
  // The order on parsed segments
  // ---------------------------------------------------------------------------

  function Head0(x: seq<int>): int
  {
    if |x| == 0 then 0 else x[0]
  }

  function Tail(x: seq<int>): seq<int>
  {
    if |x| == 0 then [] else x[1..]
  }

  /** Lexicographic order on integer sequences, a missing element reading as 0. */
  function LexOrder(x: seq<int>, y: seq<int>): int
    decreases |x| + |y|
  {
    if |x| == 0 && |y| == 0 then 0
    else if Head0(x) > Head0(y) then 1
    else if Head0(x) < Head0(y) then -1
    else LexOrder(Tail(x), Tail(y))
  }

  function Drop(x: seq<int>, i: nat): seq<int>
  {
    if i <= |x| then x[i..] else []
  }

  /** Every segment parses, to the corresponding value. */
  predicate ParsesTo(segments: seq<string>, values: seq<int>)
  {
    |segments| == |values| && forall k :: 0 <= k < |segments| ==> ParseInt(segments[k]) == Ok(values[k])
  }

  /** On versions whose segments all parse, the comparison is the lexicographic order of their values. */
  lemma {:induction false} CompareFromIsLexOrder(a: seq<string>, b: seq<string>, x: seq<int>, y: seq<int>, i: nat)
    requires ParsesTo(a, x) && ParsesTo(b, y)
    ensures CompareFrom(a, b, i) == Ok(LexOrder(Drop(x, i), Drop(y, i)))
    decreases |a| + |b| - i
  {
    if i >= |a| && i >= |b| {
      assert Drop(x, i) == [] && Drop(y, i) == [];
    } else {
      SegmentValueIsHead(a, x, i);
      SegmentValueIsHead(b, y, i);
      CompareFromIsLexOrder(a, b, x, y, i + 1);
      CompareFromCombine(a, b, i, Drop(x, i), Drop(y, i));
    }
  }

  /** The step case: the segments at `i` head the value sequences and the rest compare lexicographically. */
  lemma CompareFromCombine(a: seq<string>, b: seq<string>, i: nat, x: seq<int>, y: seq<int>)
    requires i < |a| || i < |b|
    requires |x| + |y| > 0
    requires SegmentValue(a, i) == Ok(Head0(x)) && SegmentValue(b, i) == Ok(Head0(y))
    requires CompareFrom(a, b, i + 1) == Ok(LexOrder(Tail(x), Tail(y)))
    ensures CompareFrom(a, b, i) == Ok(LexOrder(x, y))
  {
    CompareFromStep(a, b, i, Head0(x), Head0(y));
    LexOrderStep(x, y);
  }

  /** One step of the comparison loop, once both segments have parsed. */
  lemma CompareFromStep(a: seq<string>, b: seq<string>, i: nat, v1: int, v2: int)
    requires i < |a| || i < |b|
    requires SegmentValue(a, i) == Ok(v1) && SegmentValue(b, i) == Ok(v2)
    ensures CompareFrom(a, b, i) == if v1 > v2 then Ok(1) else if v1 < v2 then Ok(-1) else CompareFrom(a, b, i + 1)
  {
  }

  /** One step of the lexicographic order on non-empty pairs. */
  lemma LexOrderStep(x: seq<int>, y: seq<int>)
    requires |x| + |y| > 0
    ensures LexOrder(x, y) ==
      if Head0(x) > Head0(y) then 1 else if Head0(x) < Head0(y) then -1 else LexOrder(Tail(x), Tail(y))
  {
  }

  /** On segments that parse to `x`, segment `i` is the `i`-th value, and 0 past the end. */
  lemma SegmentValueIsHead(a: seq<string>, x: seq<int>, i: nat)
    requires ParsesTo(a, x)
    ensures SegmentValue(a, i) == Ok(Head0(Drop(x, i)))
    ensures Tail(Drop(x, i)) == Drop(x, i + 1)
  {
  }

  lemma VersionOrderIsLexOrder(v1: string, v2: string, x: seq<int>, y: seq<int>)
    requires ParsesTo(Segments(v1), x) && ParsesTo(Segments(v2), y)
    ensures VersionOrder(Some(v1), Some(v2)) == Ok(LexOrder(x, y))
  {
    CompareFromIsLexOrder(Segments(v1), Segments(v2), x, y, 0);
    assert Drop(x, 0) == x && Drop(y, 0) == y;
  }

  /** Trailing zero segments change nothing: [1] and [1, 0] are equal. */
  lemma {:induction false} LexOrderIgnoresTrailingZero(x: seq<int>, y: seq<int>)
    ensures LexOrder(x + [0], y) == LexOrder(x, y)
    decreases |x| + |y|
  {
    if |x| == 0 {
      assert Head0([0]) == 0 && Tail([0]) == [];
      if |y| > 0 {
        LexOrderOfZeros(y);
      }
    } else {
      assert Head0(x + [0]) == Head0(x);
      assert Tail(x + [0]) == Tail(x) + [0];
      LexOrderIgnoresTrailingZero(Tail(x), Tail(y));
    }
  }

  lemma {:induction false} LexOrderOfZeros(y: seq<int>)
    ensures LexOrder([0], y) == LexOrder([], y)
    decreases |y|
  {
    assert Head0([0]) == 0 && Tail([0]) == [];
    if |y| > 0 {
      assert Tail([]) == [] && Head0([]) == 0;
    }
  }

  lemma OneEqualsOneZero()
    ensures LexOrder([1], [1, 0]) == 0
  {
    LexOrderIgnoresTrailingZero([1], [1]);
    assert [1] + [0] == [1, 0];
    LexOrderSymmetricZero([1, 0], [1]);
  }

  lemma {:induction false} LexOrderAntisymmetric(x: seq<int>, y: seq<int>)
    ensures LexOrder(y, x) == -LexOrder(x, y)
    decreases |x| + |y|
  {
    if |x| == 0 && |y| == 0 {
    } else if Head0(x) == Head0(y) {
      LexOrderAntisymmetric(Tail(x), Tail(y));
    }
  }

  lemma LexOrderSymmetricZero(x: seq<int>, y: seq<int>)
    requires LexOrder(x, y) == 0
    ensures LexOrder(y, x) == 0
  {
    LexOrderAntisymmetric(x, y);
  }

  /** Swapping the operands negates a successful comparison, and a successful one stays successful. */
  lemma {:induction false} CompareFromAntisymmetric(a: seq<string>, b: seq<string>, i: nat)
    requires CompareFrom(a, b, i).Ok?
    ensures CompareFrom(b, a, i) == Ok(-CompareFrom(a, b, i).value)
    decreases |a| + |b| - i
  {
    if i < |a| || i < |b| {
      CompareFromParsed(a, b, i);
      var v1, v2 := SegmentValue(a, i).value, SegmentValue(b, i).value;
      CompareFromStep(a, b, i, v1, v2);
      CompareFromStep(b, a, i, v2, v1);
      if v1 == v2 {
        CompareFromAntisymmetric(a, b, i + 1);
      }
    }
  }

  /** A comparison that succeeds has parsed both segments at its first index. */
  lemma CompareFromParsed(a: seq<string>, b: seq<string>, i: nat)
    requires i < |a| || i < |b|
    requires CompareFrom(a, b, i).Ok?
    ensures SegmentValue(a, i).Ok? && SegmentValue(b, i).Ok?
  {
  }

  /** compareVersions is antisymmetric wherever it is defined. */
  lemma VersionOrderAntisymmetric(version1: Option<string>, version2: Option<string>)
    requires VersionOrder(version1, version2).Ok?
    ensures VersionOrder(version2, version1) == Ok(-VersionOrder(version1, version2).value)
  {
    if version1.Some? && version2.Some? {
      CompareFromAntisymmetric(Segments(version1.value), Segments(version2.value), 0);
    }
  }

  /** A version without a backslash is a single segment. */
  lemma SingleSegment(v: string)
    requires '\\' !in v
    ensures Segments(v) == [v]
  {
    assert !Occurs(v, VersionDelimiter) by {
      forall i | 0 <= i <= |v| - |VersionDelimiter|
        ensures !OccursAt(v, VersionDelimiter, i)
      {
        assert v[i] != '\\';
        assert v[i..i + 2][0] == v[i];
      }
    }
    SplitWithoutDelimiter(v, VersionDelimiter);
  }

  /**
   * With the literal delimiter, a version written the ordinary way ("1.2.0",
   * no backslash) that is not a plain integer makes every comparison with it fail.
   */
  lemma OrdinaryDottedVersionFails(v: string, other: string)
    requires '\\' !in v && ParseInt(v).Err?
    ensures VersionOrder(Some(v), Some(other)).Err?
    ensures VersionOrder(Some(other), Some(v)).Err?
  {
    SingleSegment(v);
    var b := Segments(other);
    if |b| >= 2 || SegmentValue(b, 0).Err? {
    } else {
      assert SegmentValue(b, 0).Ok?;
    }
  }

  lemma DottedExample()
    ensures VersionOrder(Some("1.2"), Some("1.2.0")) == Err(NumberFormat("1.2"))
  {
    SingleSegment("1.2");
    assert !AllDigits("1.2") by {
      assert !IsDigit("1.2"[1]);
    }
  }

  // ---------------------------------------------------------------------------
  // Selecting a candidate
  // ---------------------------------------------------------------------------

  /** The running maximum of the loop, or the first comparison failure. */
  function RunningMax<T>(libraries: seq<T>, getVersion: T -> Option<string>, maxVersion: Option<T>): Result<Option<T>>
    decreases |libraries|
  {
    if |libraries| == 0 then Ok(maxVersion)
    else
      var l := libraries[0];
      if maxVersion.None? then RunningMax(libraries[1..], getVersion, Some(l))
      else
        match VersionOrder(getVersion(maxVersion.value), getVersion(l))
        case Err(e) => Err(e)
        case Ok(c) => RunningMax(libraries[1..], getVersion, if c < 0 then Some(l) else maxVersion)
  }

  /** The last candidate, from the end, whose version is exactly the requested one. */
  function LastMatch<T>(libraries: seq<T>, getVersion: T -> Option<string>, libraryVersion: string): Option<T>
    decreases |libraries|
  {
    if |libraries| == 0 then None
    else if getVersion(libraries[|libraries| - 1]) == Some(libraryVersion) then Some(libraries[|libraries| - 1])
    else LastMatch(libraries[..|libraries| - 1], getVersion, libraryVersion)
  }

  /** What selectFromList computes: the last exact match, unless computing the maximum failed. */
  function Selection<T>(libraries: seq<T>, getVersion: T -> Option<string>, libraryVersion: string): Result<Option<T>>
  {
    match RunningMax(libraries, getVersion, None)
    case Err(e) => Err(e)
    case Ok(_) => Ok(LastMatch(libraries, getVersion, libraryVersion))
  }

  /** The last exact match is a match, later elements do not match, and there is none only when nothing matches. */
  lemma {:induction false} LastMatchIsLast<T>(libraries: seq<T>, getVersion: T -> Option<string>, libraryVersion: string)
    ensures LastMatch(libraries, getVersion, libraryVersion).None? <==>
      forall j :: 0 <= j < |libraries| ==> getVersion(libraries[j]) != Some(libraryVersion)
    ensures LastMatch(libraries, getVersion, libraryVersion).Some? ==>
      exists k :: 0 <= k < |libraries| && libraries[k] == LastMatch(libraries, getVersion, libraryVersion).value
        && getVersion(libraries[k]) == Some(libraryVersion)
        && forall j :: k < j < |libraries| ==> getVersion(libraries[j]) != Some(libraryVersion)
    decreases |libraries|
  {
    if |libraries| > 0 {
      var n := |libraries| - 1;
      var prefix := libraries[..n];
      LastMatchIsLast(prefix, getVersion, libraryVersion);
      if getVersion(libraries[n]) != Some(libraryVersion) {
        assert forall j :: 0 <= j < n ==> prefix[j] == libraries[j];
      }
    }
  }

  /** selectFromList, as the single pass of the code. */
  method SelectFromList<T>(libraries: seq<T>, libraryVersion: string, getVersion: T -> Option<string>)
    returns (r: Result<Option<T>>)
    ensures r == Selection(libraries, getVersion, libraryVersion)
    ensures |libraries| == 0 ==> r == Ok(None)
    ensures r.Ok? && r.value.Some? ==>
      exists k :: 0 <= k < |libraries| && libraries[k] == r.value.value
        && getVersion(libraries[k]) == Some(libraryVersion)
        && forall j :: k < j < |libraries| ==> getVersion(libraries[j]) != Some(libraryVersion)
    ensures r.Ok? ==>
      (r.value.None? <==> forall j :: 0 <= j < |libraries| ==> getVersion(libraries[j]) != Some(libraryVersion))
  {
    LastMatchIsLast(libraries, getVersion, libraryVersion);
    var library: Option<T> := None;
    var maxVersion: Option<T> := None;
    var i := 0;
    while i < |libraries|
      invariant 0 <= i <= |libraries|
      invariant library == LastMatch(libraries[..i], getVersion, libraryVersion)
      invariant RunningMax(libraries, getVersion, None) == RunningMax(libraries[i..], getVersion, maxVersion)
    {
      var l := libraries[i];
      assert libraries[..i + 1][..i] == libraries[..i];
      var currentVersion := getVersion(l);
      if currentVersion == Some(libraryVersion) {
        library := Some(l);
      }
      if maxVersion.None? {
        maxVersion := Some(l);
      } else {
        var c := CompareVersions(getVersion(maxVersion.value), getVersion(l));
        if c.Err? {
          return Err(c.error);
        }
        if c.value < 0 {
          maxVersion := Some(l);
        }
      }
      assert libraries[i..][1..] == libraries[i + 1..];
      i := i + 1;
    }
    assert libraries[..i] == libraries;
    return Ok(library);
  }

  /** Requesting a version that no candidate has gives null, although a maximum exists. */
  lemma MaximumIsNotReturned()
    ensures RunningMax(["1", "2"], (s: string) => Some(s), None) == Ok(Some("2"))
    ensures Selection(["1", "2"], (s: string) => Some(s), "3") == Ok(None)
  {
    var gv := (s: string) => Some(s);
    SingleSegment("1");
    SingleSegment("2");
    assert ParseInt("1") == Ok(1) && ParseInt("2") == Ok(2);
    assert VersionOrder(gv("1"), gv("2")) == Ok(-1);
    assert ["1", "2"][1..] == ["2"];
    assert ["1", "2"][..1] == ["1"];
  }

  /** An exact match is present, but the first comparison of ordinary dotted versions fails. */
  lemma DottedCandidatesFail()
    ensures Selection(["1.0", "2.0", "1.5"], (s: string) => Some(s), "1.5") == Err(NumberFormat("1.0"))
  {
    var gv := (s: string) => Some(s);
    var libs := ["1.0", "2.0", "1.5"];
    SingleSegment("1.0");
    assert !AllDigits("1.0") by {
      assert !IsDigit("1.0"[1]);
    }
    assert libs[1..] == ["2.0", "1.5"];
    assert RunningMax(libs, gv, None) == RunningMax(["2.0", "1.5"], gv, Some("1.0"));
  }
}
