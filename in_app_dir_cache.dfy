/** The layer that keeps a directory of the application (compiled assets, say)
    between deploys. It is tied to the application path it was created for. */
module InAppDirCache {
  import opened Cnb
  import opened Errors

  datatype InAppDirCacheLayer = InAppDirCacheLayer(appDirPath: string)

  datatype InAppDirCacheLayerMetadata = InAppDirCacheLayerMetadata(appDirPath: string)

  type LayerOutcome = Result<LayerResult<InAppDirCacheLayerMetadata>, RubyBuildpackError>

  function Types(layer: InAppDirCacheLayer): (t: LayerTypes)
    ensures t.build && t.launch && t.cache
  {
    LayerTypes(build := true, launch := true, cache := true)
  }

  /** `create`: records the layer's path in the metadata; it sets no environment and cannot fail. */
  function Create(layer: InAppDirCacheLayer): (r: LayerOutcome)
    ensures r.Ok?
    ensures r.value.metadata.appDirPath == layer.appDirPath
    ensures r.value.env == []
  {
    Ok(LayerResult(InAppDirCacheLayerMetadata(layer.appDirPath), []))
  }

  /** Keep the cache made for the same path; a cache made for another path is recreated.
      The layer has no `update`, and this never asks for one. */
  function ExistingLayerStrategy(layer: InAppDirCacheLayer, cached: InAppDirCacheLayerMetadata): (r: Result<Cnb.ExistingLayerStrategy, RubyBuildpackError>)
    ensures r.Ok?
    ensures r.value == Cnb.Keep <==> layer.appDirPath == cached.appDirPath
    ensures r.value == Cnb.Recreate <==> layer.appDirPath != cached.appDirPath
    ensures r.value != Cnb.Update
  {
    if layer.appDirPath == cached.appDirPath then Ok(Cnb.Keep) else Ok(Cnb.Recreate)
  }

  /** A cache just created for a path is kept by the next build for that path. */
  lemma CreateThenKeep(layer: InAppDirCacheLayer)
    ensures ExistingLayerStrategy(layer, Create(layer).value.metadata) == Ok(Cnb.Keep)
  {
  }
}
