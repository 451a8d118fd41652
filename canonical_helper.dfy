/**
 * CanonicalHelper: reading a library's id and its resource type out of a
 * canonical URL such as "http://example.org/fhir/Library/abc|1.0".
 *
 * getId keeps the text after the last '/' and before the first '|' that
 * follows it. getResourceName means to return the segment before the last
 * one, but it removes the last segment with a replace-all, which also removes
 * every earlier occurrence of the same text; GetResourceNameAsWritten models
 * the code and GetResourceName the intended reading.
 */
module CanonicalHelper {
  import opened Common

  /** `String.lastIndexOf(c)`: the last position holding `c`, or -1. */
  function LastIndexOf(s: string, c: char): (r: int)
    ensures -1 <= r < |s|
    ensures r >= 0 ==> s[r] == c && c !in s[r + 1..]
    ensures r < 0 <==> c !in s
    decreases |s|
  {
    if |s| == 0 then -1
    else if s[|s| - 1] == c then |s| - 1
    else
      var k := LastIndexOf(s[..|s| - 1], c);
      assert k >= 0 ==> s[k + 1..] == s[..|s| - 1][k + 1..] + [s[|s| - 1]];
      assert k < 0 ==> s == s[..|s| - 1] + [s[|s| - 1]];
      k
  }

  /** A position holding `c` with no `c` after it is the last index of `c`. */
  lemma LastIndexOfAt(s: string, c: char, k: int)
    requires 0 <= k < |s| && s[k] == c && c !in s[k + 1..]
    ensures LastIndexOf(s, c) == k
  {
    assert s[k] in s;
  }

  /** The text after the last '/', or all of it when there is none. */
  function AfterLastSlash(s: string): (r: string)
    ensures '/' !in r
  {
    if '/' in s then s[LastIndexOf(s, '/') + 1..] else s
  }

  /** getId. */
  function GetId(canonical: string): (r: string)
  {
    Split(AfterLastSlash(canonical), "|")[0]
  }

  /** The first piece of a split on a one-character delimiter is the text before its first occurrence. */
  lemma {:induction false} SplitHead(s: string, c: char)
    ensures var h := Split(s, [c])[0];
      |h| <= |s| && h == s[..|h|] && c !in h && (|h| < |s| ==> s[|h|] == c)
    decreases |s|
  {
    if |s| < 1 {
    } else if s[..1] == [c] {
      assert s[0] == c;
    } else {
      SplitHead(s[1..], c);
      assert s[0] != c;
    }
  }

  /** The id is the text after the last '/' of the canonical, up to the first '|' that follows. */
  lemma GetIdIsLastSegment(canonical: string)
    ensures '/' !in GetId(canonical) && '|' !in GetId(canonical)
    ensures exists k :: (0 <= k <= |canonical| && (k == 0 || canonical[k - 1] == '/') && '/' !in canonical[k..]
      && StartsWith(canonical[k..], GetId(canonical))
      && (|GetId(canonical)| == |canonical| - k || canonical[k + |GetId(canonical)|] == '|'))
  {
    var k := if '/' in canonical then LastIndexOf(canonical, '/') + 1 else 0;
    assert canonical[k..] == AfterLastSlash(canonical);
    SplitHead(canonical[k..], '|');
    assert "|" == ['|'];
    var r := GetId(canonical);
    assert forall i :: 0 <= i < |r| ==> r[i] == canonical[k..][i];
  }

  /** A value with neither '/' nor '|' is its own id. */
  lemma GetIdWithoutSeparators(s: string)
    requires '/' !in s && '|' !in s
    ensures GetId(s) == s
  {
    assert AfterLastSlash(s) == s;
    NoCharNoOccurrence(s, '|');
    assert "|" == ['|'];
    SplitWithoutDelimiter(s, "|");
  }

  /** Applying getId to an id changes nothing. */
  lemma GetIdIdempotent(canonical: string)
    ensures GetId(GetId(canonical)) == GetId(canonical)
  {
    GetIdIsLastSegment(canonical);
    GetIdWithoutSeparators(GetId(canonical));
  }

  lemma GetIdExample()
    ensures GetId("http://a/Library/abc|1.0") == "abc"
  {
    assert "http://a/Library/abc|1.0" == "http://a/Library" + "/" + "abc" + "|" + "1.0";
    GetIdOfParts("http://a/Library", "abc", "1.0");
  }

  /** A canonical built from a base, an id and a version gives back the id. */
  lemma GetIdOfParts(base: string, id: string, version: string)
    requires '/' !in id && '|' !in id && '/' !in version
    ensures GetId(base + "/" + id + "|" + version) == id
  {
    var s := base + "/" + id + "|" + version;
    var tail := id + "|" + version;
    assert s == base + "/" + tail;
    assert '/' !in tail;
    assert s[|base| + 1..] == tail;
    LastIndexOfAt(s, '/', |base|);
    assert AfterLastSlash(s) == tail;
    assert "|" == ['|'];
    SplitAtFirst(id, '|', version);
  }


  // ---------------------------------------------------------------------------
  // getResourceName
  // ---------------------------------------------------------------------------

  /** `String.replace(pattern, "")`: every non-overlapping occurrence, from the left, removed. */
  function RemoveAll(s: string, pattern: string): string
    requires |pattern| > 0
    decreases |s|
  {
    if |s| < |pattern| then s
    else if s[..|pattern|] == pattern then RemoveAll(s[|pattern|..], pattern)
    else [s[0]] + RemoveAll(s[1..], pattern)
  }

  /** Removing every occurrence is splitting at them and joining the pieces with nothing between. */
  lemma {:induction false} RemoveAllIsSplitJoin(s: string, pattern: string)
    requires |pattern| > 0
    ensures RemoveAll(s, pattern) == Join(Split(s, pattern), "")
    decreases |s|
  {
    if |s| < |pattern| {
    } else if s[..|pattern|] == pattern {
      RemoveAllIsSplitJoin(s[|pattern|..], pattern);
      JoinCons("", Split(s[|pattern|..], pattern), "");
    } else {
      var rest := Split(s[1..], pattern);
      RemoveAllIsSplitJoin(s[1..], pattern);
      if |rest| == 1 {
      } else {
        JoinCons(rest[0], rest[1..], "");
        assert [rest[0]] + rest[1..] == rest;
        JoinCons([s[0]] + rest[0], rest[1..], "");
      }
    }
  }

  /** Moving one character into the text: an occurrence at i in the tail is one at i + 1 in the whole. */
  lemma OccursAtTail(s: string, pattern: string, i: int)
    requires |s| > 0 && 0 <= i
    ensures OccursAt(s[1..], pattern, i) <==> OccursAt(s, pattern, i + 1)
  {
    if 0 <= i <= |s| - 1 - |pattern| {
      assert s[1..][i..i + |pattern|] == s[i + 1..i + 1 + |pattern|];
    }
  }

  /** A prefix in which no occurrence starts is kept as it is. */
  lemma {:induction false} RemoveAllKeepsPrefix(pre: string, t: string, pattern: string)
    requires |pattern| > 0
    requires forall i :: 0 <= i < |pre| ==> !OccursAt(pre + t, pattern, i)
    ensures RemoveAll(pre + t, pattern) == pre + RemoveAll(t, pattern)
    decreases |pre|
  {
    var s := pre + t;
    if |pre| == 0 {
      assert s == t;
    } else if |s| < |pattern| {
      assert RemoveAll(t, pattern) == t;
    } else {
      assert !OccursAt(s, pattern, 0);
      assert s[..|pattern|] != pattern;
      assert s[1..] == pre[1..] + t;
      forall i | 0 <= i < |pre| - 1
        ensures !OccursAt(pre[1..] + t, pattern, i)
      {
        OccursAtTail(s, pattern, i);
      }
      RemoveAllKeepsPrefix(pre[1..], t, pattern);
      assert s[0] == pre[0];
      assert [pre[0]] + pre[1..] == pre;
    }
  }

  lemma RemoveAllOfSelf(pattern: string, rest: string)
    requires |pattern| > 0
    ensures RemoveAll(pattern + rest, pattern) == RemoveAll(rest, pattern)
  {
    var s := pattern + rest;
    assert s[..|pattern|] == pattern;
    assert s[|pattern|..] == rest;
  }

  /** When the pattern first occurs at the very end, removing all occurrences removes just that one. */
  lemma RemoveAllOfUniqueSuffix(pre: string, suffix: string)
    requires |suffix| > 0
    requires forall i :: 0 <= i < |pre| ==> !OccursAt(pre + suffix, suffix, i)
    ensures RemoveAll(pre + suffix, suffix) == pre
  {
    RemoveAllKeepsPrefix(pre, suffix, suffix);
    RemoveAllOfSelf(suffix, "");
    assert suffix + "" == suffix;
  }

  /** The last segment of a text, as the code's final step takes it. */
  function LastSegment(id: string): (r: string)
    ensures '/' !in r
  {
    AfterLastSlash(id)
  }

  /** getResourceName as written: the last segment (from its '/') is removed everywhere, then the last segment is taken. */
  function GetResourceNameAsWritten(canonical: string): (r: Option<string>)
    ensures r.None? <==> '/' !in canonical
    ensures r.Some? ==> '/' !in r.value
  {
    if '/' in canonical then
      var k := LastIndexOf(canonical, '/');
      Some(LastSegment(RemoveAll(canonical, canonical[k..])))
    else None
  }

  /** getResourceName as intended: the segment before the last one. */
  function GetResourceName(canonical: string): (r: Option<string>)
    ensures r.None? <==> '/' !in canonical
    ensures r.Some? ==> '/' !in r.value
  {
    if '/' in canonical then
      Some(LastSegment(canonical[..LastIndexOf(canonical, '/')]))
    else None
  }

  /** The intended name is the segment between the last two slashes (or from the start). */
  lemma GetResourceNameIsPenultimateSegment(canonical: string)
    requires '/' in canonical
    ensures exists p, t :: (canonical == p + GetResourceName(canonical).value + "/" + t
      && '/' !in t && (|p| == 0 || p[|p| - 1] == '/'))
  {
    var k := LastIndexOf(canonical, '/');
    var id := canonical[..k];
    var t := canonical[k + 1..];
    assert GetResourceName(canonical).value == AfterLastSlash(id);
    var p := SplitAtLastSlash(id);
    assert canonical == p + AfterLastSlash(id) + "/" + t by {
      RejoinAtSlash(canonical, k, p, AfterLastSlash(id));
    }
    assert canonical == p + GetResourceName(canonical).value + "/" + t && '/' !in t && (|p| == 0 || p[|p| - 1] == '/');
  }

  /** The text before a '/' at k, the '/' and the text after make up the whole. */
  lemma RejoinAtSlash(s: string, k: int, p: string, r: string)
    requires 0 <= k < |s| && s[k] == '/' && s[..k] == p + r
    ensures s == p + r + "/" + s[k + 1..]
  {
    SplitAround(s, k);
    assert [s[k]] == "/";
  }

  lemma SplitAround(s: string, k: int)
    requires 0 <= k < |s|
    ensures s == s[..k] + [s[k]] + s[k + 1..]
  {
  }


  /** The text up to and including the last '/', so that it and AfterLastSlash make up the whole. */
  lemma SplitAtLastSlash(id: string) returns (p: string)
    ensures id == p + AfterLastSlash(id)
    ensures |p| == 0 || p[|p| - 1] == '/'
  {
    if '/' in id {
      var j := LastIndexOf(id, '/');
      p := id[..j + 1];
      assert id == id[..j + 1] + id[j + 1..];
    } else {
      p := "";
    }
  }

  /** The code and the intended reading agree when the last segment occurs nowhere earlier. */
  lemma AsWrittenAgreesWithoutRepeat(canonical: string)
    requires '/' in canonical
    requires forall i :: 0 <= i < LastIndexOf(canonical, '/') ==>
      !OccursAt(canonical, canonical[LastIndexOf(canonical, '/')..], i)
    ensures GetResourceNameAsWritten(canonical) == GetResourceName(canonical)
  {
    var k := LastIndexOf(canonical, '/');
    assert canonical == canonical[..k] + canonical[k..];
    RemoveAllOfUniqueSuffix(canonical[..k], canonical[k..]);
  }

  /** No occurrence can start inside a prefix that lacks the pattern's first character. */
  lemma NoOccurrenceInPrefix(pre: string, t: string, pattern: string)
    requires |pattern| > 0 && pattern[0] !in pre
    ensures forall i :: 0 <= i < |pre| ==> !OccursAt(pre + t, pattern, i)
  {
    forall i | 0 <= i < |pre|
      ensures !OccursAt(pre + t, pattern, i)
    {
      var s := pre + t;
      assert s[i] == pre[i];
    }
  }

  lemma ResourceNameExample()
    ensures GetResourceNameAsWritten("Library/abc") == Some("Library")
    ensures GetResourceName("Library/abc") == Some("Library")
  {
    var s := "Library/abc";
    assert s[8..] == "abc";
    LastIndexOfAt(s, '/', 7);
    assert s[..7] == "Library";
    assert s[7..] == "/abc";
    assert s == "Library" + "/abc";
    NoOccurrenceInPrefix("Library", "/abc", "/abc");
    AsWrittenAgreesWithoutRepeat(s);
  }

  /** A last segment that also begins the resource segment is removed from it too. */
  lemma ResourceNameOfRepeatedSegment()
    ensures GetResourceNameAsWritten("a/Library/Lib") == Some("arary")
    ensures GetResourceName("a/Library/Lib") == Some("Library")
  {
    var s := "a/Library/Lib";
    assert LastIndexOf(s, '/') == 9 by {
      assert s[10..] == "Lib";
      LastIndexOfAt(s, '/', 9);
    }
    assert GetResourceNameAsWritten(s) == Some("arary") by {
      assert s[9..] == "/Lib";
      RemoveRepeatedSegment();
      assert '/' !in "arary";
    }
    assert GetResourceName(s) == Some("Library") by {
      assert s[..9] == "a/Library";
      assert "a/Library"[2..] == "Library";
      LastIndexOfAt("a/Library", '/', 1);
    }
  }


  lemma RemoveRepeatedSegment()
    ensures RemoveAll("a/Library/Lib", "/Lib") == "arary"
  {
    assert "a/Library/Lib" == "a" + "/Lib" + "rary" + "/Lib";
    RemoveBothOccurrences("a", "/Lib", "rary");
    assert "a" + "rary" == "arary";
  }

  /** A pattern whose first character appears nowhere else is removed at both places it occurs. */
  lemma RemoveBothOccurrences(pre: string, pattern: string, mid: string)
    requires |pattern| > 0 && pattern[0] !in pre && pattern[0] !in mid
    ensures RemoveAll(pre + pattern + mid + pattern, pattern) == pre + mid
  {
    var rest := mid + pattern;
    assert pre + pattern + mid + pattern == pre + (pattern + rest);
    assert RemoveAll(pre + (pattern + rest), pattern) == pre + RemoveAll(pattern + rest, pattern) by {
      NoOccurrenceInPrefix(pre, pattern + rest, pattern);
      RemoveAllKeepsPrefix(pre, pattern + rest, pattern);
    }
    assert RemoveAll(pattern + rest, pattern) == RemoveAll(rest, pattern) by {
      RemoveAllOfSelf(pattern, rest);
    }
    assert RemoveAll(rest, pattern) == mid by {
      NoOccurrenceInPrefix(mid, pattern, pattern);
      RemoveAllOfUniqueSuffix(mid, pattern);
    }
  }


}
