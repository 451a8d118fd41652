/**
 * VersionedIdentifierConverter: copies an identifier between the engine's and
 * the translator's representation, field by field.
 */
module VersionedIdentifierConverter {
  import opened Common

  /** Engine identifier to translator identifier. */
  function ToElmIdentifier(x: EngineIdentifier): (r: ElmIdentifier)
    ensures r.system == x.system && r.id == x.id && r.version == x.version
  {
    ElmIdentifier(x.system, x.id, x.version)
  }

  /** Translator identifier to engine identifier. */
  function ToEngineIdentifier(y: ElmIdentifier): (r: EngineIdentifier)
    ensures r.system == y.system && r.id == y.id && r.version == y.version
  {
    EngineIdentifier(y.system, y.id, y.version)
  }

  /** Converting to the translator's form and back loses nothing. */
  lemma EngineRoundTrip(x: EngineIdentifier)
    ensures ToEngineIdentifier(ToElmIdentifier(x)) == x
  {
  }

  /** Converting to the engine's form and back loses nothing. */
  lemma ElmRoundTrip(y: ElmIdentifier)
    ensures ToElmIdentifier(ToEngineIdentifier(y)) == y
  {
  }
}
