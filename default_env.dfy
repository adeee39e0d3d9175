/** A layer that only sets default values for environment variables, given as
    ordered (name, value) pairs. */
module DefaultEnv {
  import opened Cnb

  datatype DefaultEnvLayer = DefaultEnvLayer(data: seq<(string, string)>)

  /** `DefaultEnvLayer::new`: the layer holds the given pairs as they are. */
  function New(pairs: seq<(string, string)>): (layer: DefaultEnvLayer)
    ensures layer.data == pairs
  {
    DefaultEnvLayer(pairs)
  }

  /** Visible to build steps and at launch, never cached: libcnb recreates it on every build. */
  function Types(layer: DefaultEnvLayer): (t: LayerTypes)
    ensures t.build && t.launch && !t.cache
  {
    LayerTypes(build := true, launch := true, cache := false)
  }

  /** `create`: one `All`-scope `Default` modification per pair, in the pairs' order,
      with generic (empty) metadata. It has no failing step. */
  method Create<E>(layer: DefaultEnvLayer) returns (r: Result<LayerResult<GenericMetadata>, E>)
    ensures r.Ok? && r.value.metadata == GenericMetadata
    ensures |r.value.env| == |layer.data|
    ensures forall i :: 0 <= i < |layer.data| ==>
              r.value.env[i] == Modification(All, Default, layer.data[i].0, layer.data[i].1)
  {
    var layerEnv: LayerEnv := [];
    var i := 0;
    while i < |layer.data|
      invariant 0 <= i <= |layer.data|
      invariant |layerEnv| == i
      invariant forall j :: 0 <= j < i ==> layerEnv[j] == Modification(All, Default, layer.data[j].0, layer.data[j].1)
    {
      var (key, value) := layer.data[i];
      layerEnv := ChainableInsert(layerEnv, All, Default, key, value);
      i := i + 1;
    }
    r := Ok(LayerResult(GenericMetadata, layerEnv));
  }
}
