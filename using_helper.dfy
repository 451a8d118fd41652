/**
 * UsingHelper: the (model, version, url) triples of a library's `using`
 * definitions, without the implicit "System" model.
 */
module UsingHelper {
  import opened Common

  /** A `using` definition of an engine library. */
  datatype UsingDef = UsingDef(localIdentifier: Option<string>, version: Option<string>)

  /** Library.Usings: its list of definitions may be null. */
  datatype Usings = Usings(def: Option<seq<UsingDef>>)

  datatype UsingTriple = UsingTriple(model: Option<string>, version: Option<string>, url: Option<string>)

  const SystemModelName: string := "System"

  /** urlsByModelName. */
  const UrlsByModelName: map<string, string> :=
    map["FHIR" := "http://hl7.org/fhir", "QDM" := "urn:healthit-gov:qdm:v5_4"]

  /** `urlsByModelName[name]`: null for a null name or a name without an entry. */
  function Url(name: Option<string>): (r: Option<string>)
    ensures r.Some? <==> name.Some? && name.value in UrlsByModelName
  {
    if name.Some? && name.value in UrlsByModelName then Some(UrlsByModelName[name.value]) else None
  }

  lemma KnownUrls(name: Option<string>)
    ensures Url(Some("FHIR")) == Some("http://hl7.org/fhir")
    ensures Url(Some("QDM")) == Some("urn:healthit-gov:qdm:v5_4")
    ensures Url(None) == None
    ensures name != Some("FHIR") && name != Some("QDM") ==> Url(name) == None
  {
  }

  predicate IsSystem(d: UsingDef)
  {
    d.localIdentifier == Some(SystemModelName)
  }

  function TripleOf(d: UsingDef): UsingTriple
  {
    UsingTriple(d.localIdentifier, d.version, Url(d.localIdentifier))
  }

  /** The triples of the non-System definitions, in order. */
  function TriplesOf(defs: seq<UsingDef>): seq<UsingTriple>
    decreases |defs|
  {
    if |defs| == 0 then []
    else
      var front := TriplesOf(defs[..|defs| - 1]);
      if IsSystem(defs[|defs| - 1]) then front else front + [TripleOf(defs[|defs| - 1])]
  }

  /** What getUsingUrlAndVersion returns: no triples for null usings or null definitions. */
  function UsingUrlAndVersion(usings: Option<Usings>): seq<UsingTriple>
  {
    if usings.None? || usings.value.def.None? then [] else TriplesOf(usings.value.def.value)
  }

  /** The number of definitions that are not System. */
  function CountNonSystem(defs: seq<UsingDef>): nat
    decreases |defs|
  {
    if |defs| == 0 then 0 else (if IsSystem(defs[0]) then 0 else 1) + CountNonSystem(defs[1..])
  }

  lemma {:induction false} CountNonSystemSnoc(defs: seq<UsingDef>, d: UsingDef)
    ensures CountNonSystem(defs + [d]) == CountNonSystem(defs) + (if IsSystem(d) then 0 else 1)
    decreases |defs|
  {
    if |defs| == 0 {
      assert defs + [d] == [d];
      assert [d][1..] == [];
    } else {
      assert (defs + [d])[1..] == defs[1..] + [d];
      CountNonSystemSnoc(defs[1..], d);
    }
  }

  /**
   * One triple per non-System definition, in input order: the triple of the
   * definition at index j, when it is not System, sits at the position given by
   * the number of non-System definitions before it; nothing else is there.
   */
  lemma {:induction false} TriplesInOrder(defs: seq<UsingDef>)
    ensures |TriplesOf(defs)| == CountNonSystem(defs)
    ensures forall j :: 0 <= j < |defs| && !IsSystem(defs[j]) ==>
      CountNonSystem(defs[..j]) < |TriplesOf(defs)| && TriplesOf(defs)[CountNonSystem(defs[..j])] == TripleOf(defs[j])
    ensures forall t :: t in TriplesOf(defs) ==> exists j :: 0 <= j < |defs| && !IsSystem(defs[j]) && t == TripleOf(defs[j])
    decreases |defs|
  {
    if |defs| > 0 {
      var n := |defs| - 1;
      var front := defs[..n];
      TriplesInOrder(front);
      CountNonSystemSnoc(front, defs[n]);
      assert defs == front + [defs[n]];
      assert front == defs[..n];
      forall j | 0 <= j < n
        ensures defs[..j] == front[..j] && defs[j] == front[j]
      {
      }
    }
  }

  /** getUsingUrlAndVersion, appending to a list in a loop that skips System. */
  method GetUsingUrlAndVersion(usings: Option<Usings>) returns (r: seq<UsingTriple>)
    ensures r == UsingUrlAndVersion(usings)
    ensures usings.None? || usings.value.def.None? ==> r == []
    ensures forall t :: t in r ==> t.model != Some(SystemModelName)
  {
    if usings.None? || usings.value.def.None? {
      return [];
    }
    var defs := usings.value.def.value;
    var usingDefs: seq<UsingTriple> := [];
    var i := 0;
    while i < |defs|
      invariant 0 <= i <= |defs|
      invariant usingDefs == TriplesOf(defs[..i])
      invariant forall t :: t in usingDefs ==> t.model != Some(SystemModelName)
    {
      var def := defs[i];
      assert defs[..i + 1][..i] == defs[..i];
      if def.localIdentifier == Some(SystemModelName) {
        i := i + 1;
        continue;
      }
      usingDefs := usingDefs + [UsingTriple(def.localIdentifier, def.version, Url(def.localIdentifier))];
      i := i + 1;
    }
    assert defs[..i] == defs;
    return usingDefs;
  }

  lemma UsingExample()
    ensures UsingUrlAndVersion(Some(Usings(Some([
      UsingDef(Some("System"), None), UsingDef(Some("FHIR"), Some("4.0.1")), UsingDef(Some("Other"), Some("1"))]))))
      == [UsingTriple(Some("FHIR"), Some("4.0.1"), Some("http://hl7.org/fhir")), UsingTriple(Some("Other"), Some("1"), None)]
  {
    var defs := [UsingDef(Some("System"), None), UsingDef(Some("FHIR"), Some("4.0.1")), UsingDef(Some("Other"), Some("1"))];
    assert defs[..1][..0] == [];
    assert TriplesOf(defs[..1]) == [];
    assert defs[..2][..1] == defs[..1];
    assert Url(Some("FHIR")) == Some("http://hl7.org/fhir");
    assert TriplesOf(defs[..2]) == [TripleOf(defs[1])];
    assert defs[..3][..2] == defs[..2];
    assert "Other" != "FHIR" && "Other" != "QDM";
    assert Url(Some("Other")) == None;
    assert defs[..3] == defs;
  }
}
