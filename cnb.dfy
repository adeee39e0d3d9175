/** The vocabulary the buildpack borrows from libcnb: environment modifications,
    layer types, the existing-layer strategy, layer results, and process
    environments. Only the shapes are modelled; how libcnb applies them is not. */
module Cnb {

  datatype Option<+T> = None | Some(value: T) {
    function GetOr(default: T): T {
      match this
      case Some(v) => v
      case None => default
    }
  }

  datatype Result<+T, +E> = Ok(value: T) | Err(error: E)

  /** `libcnb::Error`: an error of the buildpack itself, or one libcnb raised while
      handling a layer (reading or writing it on disk). */
  datatype CnbError<+E> = BuildpackError(error: E) | HandleLayerError(message: string)

  /** A process environment: variable name to value. */
  type Env = map<string, string>

  /** Which later stages see a modification. */
  datatype Scope = Build | Launch | All

  /** How a modification merges with an existing value. */
  datatype ModificationBehavior = Override | Default | Prepend | Append | Delimiter

  datatype Modification = Modification(scope: Scope, behavior: ModificationBehavior, key: string, value: string)

  /** A layer's environment, as the ordered list of `chainable_insert` calls that built it. */
  type LayerEnv = seq<Modification>

  /** `LayerEnv::chainable_insert`: one more modification, after the existing ones. */
  function ChainableInsert(env: LayerEnv, scope: Scope, behavior: ModificationBehavior, key: string, value: string): (r: LayerEnv)
    ensures |r| == |env| + 1 && r[..|env|] == env
    ensures r[|env|] == Modification(scope, behavior, key, value)
  {
    env + [Modification(scope, behavior, key, value)]
  }

  datatype LayerTypes = LayerTypes(build: bool, launch: bool, cache: bool)

  /** What libcnb does with a layer found on disk from an earlier build. */
  datatype ExistingLayerStrategy = Keep | Update | Recreate

  /** What a layer's `create` or `update` hands back: its metadata and its environment. */
  datatype LayerResult<+M> = LayerResult(metadata: M, env: LayerEnv)

  /** `GenericMetadata::default()`: a metadata record with nothing in it. */
  datatype GenericMetadata = GenericMetadata
}
