/**
 * CacheAwareTerminologyDecorator: a terminology provider that remembers value
 * set expansions in a map shared between decorators, keyed by the value set's
 * id alone, answers membership from the (cached) expansion, and passes code
 * lookups straight to the provider it wraps.
 */
module TerminologyDecorator {
  import opened Common

  /** The engine's Code; its equivalence is the engine's own and is a parameter here. */
  datatype Code = Code(code: Option<string>, system: Option<string>, version: Option<string>, display: Option<string>)

  datatype ValueSetInfo = ValueSetInfo(id: Option<string>, version: Option<string>)

  datatype CodeSystemInfo = CodeSystemInfo(id: Option<string>, version: Option<string>)

  /** The wrapped TerminologyProvider; each operation may throw, expand and lookup may return null. */
  datatype TerminologyProvider = TerminologyProvider(
    expand: ValueSetInfo -> Result<Option<seq<Code>>>,
    lookup: (Option<Code>, Option<CodeSystemInfo>) -> Result<Option<Code>>)

  /** The code cache: expansions by value set id; a Java caller sharing the map may have stored null. */
  type CodeCache = map<Option<string>, Option<seq<Code>>>

  /** The outcome of one expand: its result, the new cache, and whether the wrapped provider was asked. */
  datatype Expanded = Expanded(result: Result<Option<seq<Code>>>, cache: CodeCache, innerCalled: bool)

  /**
   * expand on the cache's value. The wrapped provider's answer is stored in a
   * variable declared non-null, so a null answer is a NullPointerException and
   * nothing is stored.
   */
  function ExpandOutcome(cache: CodeCache, inner: TerminologyProvider, valueSet: ValueSetInfo): Expanded
  {
    if valueSet.id in cache then Expanded(Ok(cache[valueSet.id]), cache, false)
    else
      match inner.expand(valueSet)
      case Err(e) => Expanded(Err(e), cache, true)
      case Ok(None) => Expanded(Err(NullPointer), cache, true)
      case Ok(Some(codes)) => Expanded(Ok(Some(codes)), cache[valueSet.id := Some(codes)], true)
  }

  /** A hit returns the cached codes without asking the wrapped provider and changes nothing. */
  lemma ExpandHit(cache: CodeCache, inner: TerminologyProvider, valueSet: ValueSetInfo)
    requires valueSet.id in cache
    ensures ExpandOutcome(cache, inner, valueSet) == Expanded(Ok(cache[valueSet.id]), cache, false)
  {
  }

  /**
   * A miss asks the wrapped provider once; codes it returns are stored under
   * the value set's id and returned; only that key changes.
   */
  lemma ExpandMiss(cache: CodeCache, inner: TerminologyProvider, valueSet: ValueSetInfo, codes: seq<Code>)
    requires valueSet.id !in cache && inner.expand(valueSet) == Ok(Some(codes))
    ensures var s := ExpandOutcome(cache, inner, valueSet);
      s.innerCalled && s.result == Ok(Some(codes))
      && s.cache == cache[valueSet.id := Some(codes)]
      && (forall k :: k != valueSet.id ==> (k in s.cache <==> k in cache))
  {
  }

  /** A miss the wrapped provider answers with null or an exception fails and stores nothing. */
  lemma ExpandMissFails(cache: CodeCache, inner: TerminologyProvider, valueSet: ValueSetInfo)
    requires valueSet.id !in cache && (inner.expand(valueSet).Err? || inner.expand(valueSet) == Ok(None))
    ensures var s := ExpandOutcome(cache, inner, valueSet);
      s.innerCalled && s.cache == cache && s.result.Err?
      && s.result.error == (if inner.expand(valueSet).Err? then inner.expand(valueSet).error else NullPointer)
  {
  }

  /**
   * The key is the bare id: after value set `a` is expanded, any value set with
   * the same id, whatever its version, gets the same codes without a call.
   */
  lemma {:induction false} SameIdSharesEntry(cache: CodeCache, inner: TerminologyProvider, a: ValueSetInfo, b: ValueSetInfo)
    requires a.id == b.id && ExpandOutcome(cache, inner, a).result.Ok?
    ensures var first := ExpandOutcome(cache, inner, a);
      ExpandOutcome(first.cache, inner, b) == Expanded(first.result, first.cache, false)
  {
    if a.id !in cache {
      assert ExpandOutcome(cache, inner, a).cache[a.id] == ExpandOutcome(cache, inner, a).result.value;
    }
  }

  /** Whether some code of the expansion is equivalent to the given code. */
  predicate AnyEquivalent(codes: seq<Code>, code: Option<Code>, equivalent: (Code, Option<Code>) -> bool)
  {
    exists i :: 0 <= i < |codes| && equivalent(codes[i], code)
  }

  /** `in` on the expansion's outcome: a failure propagates, a null expansion is false. */
  function InOutcome(expanded: Result<Option<seq<Code>>>, code: Option<Code>, equivalent: (Code, Option<Code>) -> bool): (r: Result<bool>)
    ensures expanded == Ok(None) ==> r == Ok(false)
    ensures expanded.Err? ==> r == Err(expanded.error)
    ensures expanded.Ok? && expanded.value.Some? ==> (r == Ok(true) <==> AnyEquivalent(expanded.value.value, code, equivalent))
    ensures expanded.Ok? ==> r.Ok?
  {
    match expanded
    case Err(e) => Err(e)
    case Ok(None) => Ok(false)
    case Ok(Some(codes)) => Ok(AnyEquivalent(codes, code, equivalent))
  }

  class CacheAwareTerminologyDecorator {
    const innerTerminologyProvider: TerminologyProvider
    const globalCodeCache: SharedMap<Option<string>, Option<seq<Code>>>
    /** Code.equivalent. */
    const equivalent: (Code, Option<Code>) -> bool
    /** The value sets the wrapped provider was asked to expand, in order. */
    ghost var innerExpansions: seq<ValueSetInfo>

    constructor (innerTerminologyProvider: TerminologyProvider, globalCodeCache: SharedMap<Option<string>, Option<seq<Code>>>,
                 equivalent: (Code, Option<Code>) -> bool)
      ensures this.innerTerminologyProvider == innerTerminologyProvider && this.globalCodeCache == globalCodeCache
      ensures this.equivalent == equivalent && innerExpansions == []
    {
      this.innerTerminologyProvider := innerTerminologyProvider;
      this.globalCodeCache := globalCodeCache;
      this.equivalent := equivalent;
      innerExpansions := [];
    }

    /** expand. */
    method Expand(valueSet: ValueSetInfo) returns (r: Result<Option<seq<Code>>>)
      modifies this, globalCodeCache
      ensures var s := ExpandOutcome(old(globalCodeCache.contents), innerTerminologyProvider, valueSet);
        r == s.result && globalCodeCache.contents == s.cache
        && innerExpansions == old(innerExpansions) + (if s.innerCalled then [valueSet] else [])
    {
      if valueSet.id in globalCodeCache.contents {
        return Ok(globalCodeCache.contents[valueSet.id]);
      }
      innerExpansions := innerExpansions + [valueSet];
      var codes := innerTerminologyProvider.expand(valueSet);
      if codes.Err? {
        return codes;
      }
      if codes.value.None? {
        return Err(NullPointer);
      }
      globalCodeCache.contents := globalCodeCache.contents[valueSet.id := codes.value];
      return codes;
    }

    /**
     * The scan of `in`: the codes in order until the first equivalent one;
     * `stoppedAt` is where it stopped, the match or the end.
     */
    method ScanCodes(codes: seq<Code>, code: Option<Code>) returns (found: bool, ghost stoppedAt: nat)
      ensures found <==> AnyEquivalent(codes, code, equivalent)
      ensures found ==> stoppedAt < |codes| && equivalent(codes[stoppedAt], code)
      ensures !found ==> stoppedAt == |codes|
      ensures forall j :: 0 <= j < stoppedAt ==> !equivalent(codes[j], code)
    {
      var i := 0;
      while i < |codes|
        invariant 0 <= i <= |codes|
        invariant forall j :: 0 <= j < i ==> !equivalent(codes[j], code)
      {
        if equivalent(codes[i], code) {
          return true, i;
        }
        i := i + 1;
      }
      return false, i;
    }

    /** in: membership in the expansion, filling the cache through expand. */
    method In(code: Option<Code>, valueSet: ValueSetInfo) returns (r: Result<bool>)
      modifies this, globalCodeCache
      ensures var s := ExpandOutcome(old(globalCodeCache.contents), innerTerminologyProvider, valueSet);
        r == InOutcome(s.result, code, equivalent) && globalCodeCache.contents == s.cache
        && innerExpansions == old(innerExpansions) + (if s.innerCalled then [valueSet] else [])
    {
      var codes := Expand(valueSet);
      if codes.Err? {
        return Err(codes.error);
      }
      if codes.value.None? {
        return Ok(false);
      }
      var found, _ := ScanCodes(codes.value.value, code);
      return Ok(found);
    }

    /** lookup: always the wrapped provider's answer; the cache is not touched. */
    method Lookup(code: Option<Code>, codeSystem: Option<CodeSystemInfo>) returns (r: Result<Option<Code>>)
      ensures r == innerTerminologyProvider.lookup(code, codeSystem)
    {
      r := innerTerminologyProvider.lookup(code, codeSystem);
    }
  }
}
