/**
 * CacheAwareModelManager: a model manager with two caches. The global cache,
 * shared between managers, maps exact model identifiers to models; the local
 * cache of one manager maps a model name to the single model it has bound to
 * that name. A second version of an already bound model name is refused.
 *
 * Resolve below states a call's outcome on the values of both caches; the
 * class method follows the code step by step and is proved to produce it.
 */
module Managers {
  import opened Common

  /** The parts of a translator ModelInfo this code reads. */
  datatype ModelInfo = ModelInfo(name: Option<string>, version: Option<string>)

  /** The translator's Model, and its SystemModel subclass. */
  datatype Model = SystemModel(info: ModelInfo) | OrdinaryModel(info: ModelInfo)

  const SystemModelId: string := "System"

  function NotLoadedMessage(identifier: ElmIdentifier): string
  {
    "Could not load model information for model " + Str(identifier.id) + ", version " + Str(identifier.version) + "."
  }

  function ConflictMessage(identifier: ElmIdentifier, loaded: Option<string>): string
  {
    "Could not load model information for model " + Str(identifier.id) + ", version " + Str(identifier.version)
      + " because version " + Str(loaded) + " is already loaded."
  }

  /**
   * buildModel: the loaded model information wrapped as a SystemModel for the
   * id "System" and as an ordinary model otherwise; a missing model-info class
   * becomes an IllegalArgumentException naming id and version, any other
   * failure of the loader passes through.
   */
  function BuildModel(identifier: ElmIdentifier, modelInfoLoader: ElmIdentifier -> Result<ModelInfo>): (r: Result<Model>)
    ensures r.Ok? <==> modelInfoLoader(identifier).Ok?
    ensures r.Ok? ==> r.value.info == modelInfoLoader(identifier).value
    ensures r.Ok? ==> (r.value.SystemModel? <==> identifier.id == Some(SystemModelId))
    ensures modelInfoLoader(identifier) == Err(ClassNotFound) ==> r == Err(IllegalArgument(NotLoadedMessage(identifier)))
    ensures r.Err? && modelInfoLoader(identifier) != Err(ClassNotFound) ==> r.error == modelInfoLoader(identifier).error
  {
    match modelInfoLoader(identifier)
    case Err(ClassNotFound) => Err(IllegalArgument(NotLoadedMessage(identifier)))
    case Err(e) => Err(e)
    case Ok(modelInfo) =>
      if identifier.id == Some(SystemModelId) then Ok(SystemModel(modelInfo)) else Ok(OrdinaryModel(modelInfo))
  }

  /** The contents of the two caches. */
  datatype Caches = Caches(local: map<Option<string>, Model>, global: map<ElmIdentifier, Model>)

  /** The outcome of one resolveModel call: its result, the new caches, and whether it built a model. */
  datatype Resolved = Resolved(result: Result<Model>, caches: Caches, built: bool)

  /** resolveModel on cache values. */
  function Resolve(c: Caches, modelInfoLoader: ElmIdentifier -> Result<ModelInfo>, modelIdentifier: ElmIdentifier): Resolved
  {
    if modelIdentifier.id in c.local then
      var model := c.local[modelIdentifier.id];
      if modelIdentifier.version.Some? && modelIdentifier.version != model.info.version
      then Resolved(Err(IllegalArgument(ConflictMessage(modelIdentifier, model.info.version))), c, false)
      else Resolved(Ok(model), c, false)
    else if modelIdentifier in c.global then
      var model := c.global[modelIdentifier];
      Resolved(Ok(model), Caches(c.local[modelIdentifier.id := model], c.global), false)
    else
      match BuildModel(modelIdentifier, modelInfoLoader)
      case Err(e) => Resolved(Err(e), c, true)
      case Ok(model) =>
        Resolved(Ok(model), Caches(c.local[modelIdentifier.id := model], c.global[modelIdentifier := model]), true)
  }

  /** After a successful call the local cache binds the requested name to the returned model. */
  lemma ResolveBindsName(c: Caches, loader: ElmIdentifier -> Result<ModelInfo>, mid: ElmIdentifier)
    requires Resolve(c, loader, mid).result.Ok?
    ensures mid.id in Resolve(c, loader, mid).caches.local
    ensures Resolve(c, loader, mid).caches.local[mid.id] == Resolve(c, loader, mid).result.value
  {
  }

  /**
   * Nothing is ever replaced or removed: existing local and global entries keep
   * their values; the only keys added are the requested name and identifier;
   * the global cache changes only when a model was built.
   */
  lemma ResolveOnlyAdds(c: Caches, loader: ElmIdentifier -> Result<ModelInfo>, mid: ElmIdentifier)
    ensures var c' := Resolve(c, loader, mid).caches;
      (forall k :: k in c.local ==> k in c'.local && c'.local[k] == c.local[k])
      && (forall k :: k in c.global ==> k in c'.global && c'.global[k] == c.global[k])
      && c'.local.Keys <= c.local.Keys + {mid.id}
      && c'.global.Keys <= c.global.Keys + {mid}
      && (c'.global != c.global ==> Resolve(c, loader, mid).built && mid !in c.global)
  {
  }

  /** A bound name requested without a version gives the bound model; nothing changes and nothing is built. */
  lemma LocalHitWithoutVersion(c: Caches, loader: ElmIdentifier -> Result<ModelInfo>, mid: ElmIdentifier)
    requires mid.id in c.local && mid.version.None?
    ensures Resolve(c, loader, mid) == Resolved(Ok(c.local[mid.id]), c, false)
  {
  }

  /** A bound name requested with another version is refused with both versions named; nothing changes. */
  lemma LocalHitOtherVersion(c: Caches, loader: ElmIdentifier -> Result<ModelInfo>, mid: ElmIdentifier)
    requires mid.id in c.local && mid.version.Some? && mid.version != c.local[mid.id].info.version
    ensures Resolve(c, loader, mid) ==
      Resolved(Err(IllegalArgument(ConflictMessage(mid, c.local[mid.id].info.version))), c, false)
  {
  }

  /** An unbound name with a global entry for the exact identifier takes that model and binds it locally. */
  lemma GlobalHit(c: Caches, loader: ElmIdentifier -> Result<ModelInfo>, mid: ElmIdentifier)
    requires mid.id !in c.local && mid in c.global
    ensures Resolve(c, loader, mid) == Resolved(Ok(c.global[mid]), Caches(c.local[mid.id := c.global[mid]], c.global), false)
  {
  }

  /** On a full miss the model is built once and stored in both caches. */
  lemma FullMiss(c: Caches, loader: ElmIdentifier -> Result<ModelInfo>, mid: ElmIdentifier)
    requires mid.id !in c.local && mid !in c.global && loader(mid).Ok?
    ensures var r := Resolve(c, loader, mid);
      r.built && r.result == BuildModel(mid, loader)
      && r.caches == Caches(c.local[mid.id := r.result.value], c.global[mid := r.result.value])
  {
  }

  /**
   * A second call with the same identifier never builds again; it returns the
   * same model, with the caches as the first call left them, unless the request
   * carries a version that differs from the one in the model's information.
   */
  lemma {:induction false} SecondCall(c: Caches, loader: ElmIdentifier -> Result<ModelInfo>, mid: ElmIdentifier)
    requires Resolve(c, loader, mid).result.Ok?
    ensures var first := Resolve(c, loader, mid);
      var second := Resolve(first.caches, loader, mid);
      !second.built && second.caches == first.caches
      && (mid.version.None? || mid.version == first.result.value.info.version ==> second.result == first.result)
      && (mid.version.Some? && mid.version != first.result.value.info.version ==> second.result.Err?)
  {
    ResolveBindsName(c, loader, mid);
  }

  /** A model whose information has another version than the one requested cannot be requested again. */
  lemma SecondCallRefusedExample()
    ensures var mid := ElmIdentifier(None, Some("FHIR"), Some("4.0.0"));
      var loader := (i: ElmIdentifier) => Ok(ModelInfo(Some("FHIR"), Some("4.0.1")));
      var first := Resolve(Caches(map[], map[]), loader, mid);
      first.result == Ok(OrdinaryModel(ModelInfo(Some("FHIR"), Some("4.0.1"))))
      && Resolve(first.caches, loader, mid).result.Err?
  {
  }

  /** The manager: a shared global cache, a private local cache, and the model-info loader it builds with. */
  class CacheAwareModelManager {
    const globalCache: SharedMap<ElmIdentifier, Model>
    const modelInfoLoader: ElmIdentifier -> Result<ModelInfo>
    var localCache: map<Option<string>, Model>
    /** The identifiers buildModel was called for, in order. */
    ghost var builds: seq<ElmIdentifier>

    constructor (globalCache: SharedMap<ElmIdentifier, Model>, modelInfoLoader: ElmIdentifier -> Result<ModelInfo>)
      ensures this.globalCache == globalCache && this.modelInfoLoader == modelInfoLoader
      ensures localCache == map[] && builds == []
    {
      this.globalCache := globalCache;
      this.modelInfoLoader := modelInfoLoader;
      localCache := map[];
      builds := [];
    }

    /** resolveModel. */
    method ResolveModel(modelIdentifier: ElmIdentifier) returns (r: Result<Model>)
      modifies this, globalCache
      ensures var s := Resolve(Caches(old(localCache), old(globalCache.contents)), modelInfoLoader, modelIdentifier);
        r == s.result && localCache == s.caches.local && globalCache.contents == s.caches.global
        && builds == old(builds) + (if s.built then [modelIdentifier] else [])
    {
      var model: Option<Model> := None;
      if modelIdentifier.id in localCache {
        model := Some(localCache[modelIdentifier.id]);
        if modelIdentifier.version.Some? && modelIdentifier.version != model.value.info.version {
          return Err(IllegalArgument(ConflictMessage(modelIdentifier, model.value.info.version)));
        }
      }
      if model.None? && modelIdentifier in globalCache.contents {
        model := Some(globalCache.contents[modelIdentifier]);
        localCache := localCache[modelIdentifier.id := model.value];
      }
      if model.None? {
        var built := BuildModel(modelIdentifier, modelInfoLoader);
        builds := builds + [modelIdentifier];
        if built.Err? {
          return Err(built.error);
        }
        model := Some(built.value);
        globalCache.contents := globalCache.contents[modelIdentifier := model.value];
        localCache := localCache[modelIdentifier.id := model.value];
      }
      return Ok(model.value);
    }
  }
}
