/** The layer that installs the requested version of Bundler with `gem install`,
    reinstalls it with `gem uninstall` + `gem install` when the cached version is
    different, and sets the bundler environment for later build steps and for launch. */
module DownloadBundler {
  import opened Cnb
  import opened Errors
  import opened Lockfile
  import Text

  /** The version installed when the Gemfile.lock names none. */
  const DefaultBundlerVersion: string := "2.3.7"

  datatype DownloadBundlerLayer = DownloadBundlerLayer(version: BundlerVersion, env: Env)

  datatype DownloadBundlerLayerMetadata = DownloadBundlerLayerMetadata(version: string)

  /** An external command: program, arguments and the environment it runs in. */
  datatype Command = Command(program: string, args: seq<string>, env: Env)

  /** How an external command ended: it could not be started, or it exited with a code. */
  datatype CommandStatus = SpawnFailed(cause: EnvCommandError) | Exited(code: int)

  /** A result together with the external commands that were run to get it, in order. */
  datatype Effect<+T> = Effect(result: T, commands: seq<Command>)

  type LayerOutcome = Result<LayerResult<DownloadBundlerLayerMetadata>, RubyBuildpackError>

  function VersionString(layer: DownloadBundlerLayer): (v: string)
    ensures layer.version.Explicit? ==> v == layer.version.v
    ensures layer.version.Default? ==> v == DefaultBundlerVersion
  {
    match layer.version
    case Explicit(v) => v
    case Default => DefaultBundlerVersion
  }

  function Types(layer: DownloadBundlerLayer): (t: LayerTypes)
    ensures t.build && t.launch && t.cache
  {
    LayerTypes(build := true, launch := true, cache := true)
  }

  /** `util::run_simple_command` with the two bundler-install error kinds: a command
      that cannot be started and one that exits with a non-zero status are errors. */
  function RunSimpleCommand(status: CommandStatus): (r: Result<(), RubyBuildpackError>)
    ensures r.Ok? <==> status == Exited(0)
    ensures status.SpawnFailed? ==> r == Err(GemInstallBundlerCommandError(status.cause))
    ensures status.Exited? && status.code != 0 ==> r == Err(GemInstallBundlerUnexpectedExitStatus(status.code))
  {
    match status
    case SpawnFailed(e) => Err(GemInstallBundlerCommandError(e))
    case Exited(code) => if code == 0 then Ok(()) else Err(GemInstallBundlerUnexpectedExitStatus(code))
  }

  /** `gem install bundler` of the requested version into GEM_PATH, in the layer's environment. */
  function InstallCommand(layer: DownloadBundlerLayer): Command
    requires "GEM_PATH" in layer.env
  {
    Command("gem", ["install", "bundler", "--force", "--no-document", "-v", VersionString(layer),
                    "--install-dir", layer.env["GEM_PATH"]], layer.env)
  }

  /** `gem uninstall bundler` of the given (old) version from GEM_PATH, in the layer's environment. */
  function UninstallCommand(layer: DownloadBundlerLayer, oldVersion: string): Command
    requires "GEM_PATH" in layer.env
  {
    Command("gem", ["uninstall", "bundler", "--force", "-v", oldVersion,
                    "--install-dir", layer.env["GEM_PATH"]], layer.env)
  }

  /** The switches the layer turns on (to "1") for build steps and at launch, in the order it sets them. */
  const FlagKeys: seq<string> :=
    ["BUNDLE_CLEAN", "BUNDLE_DEPLOYMENT", "BUNDLE_GLOBAL_PATH_APPENDS_RUBY_SCOPE", "NOKOGIRI_USE_SYSTEM_LIBRARIES"]

  /** The environment the layer sets: gems without the development and test groups
      (joined with `:`), the app's Gemfile for build steps, and four bundler/nokogiri
      switches turned on everywhere. */
  function BundlerEnv(appDir: string): (e: LayerEnv)
    ensures |e| == 7
    ensures e[0] == Modification(Build, Delimiter, "BUNDLE_WITHOUT", ":")
    ensures e[1] == Modification(All, Prepend, "BUNDLE_WITHOUT", "development:test")
    ensures forall i :: 0 <= i < |e| && e[i].key == "BUNDLE_WITHOUT" ==> i < 2
    ensures e[2] == Modification(Build, Override, "BUNDLE_GEMFILE", Text.JoinPath(appDir, "Gemfile"))
    ensures forall i :: 0 <= i < |e| && i != 2 ==> e[i].key != "BUNDLE_GEMFILE"
    ensures forall i :: 3 <= i < |e| ==> e[i] == Modification(All, Override, FlagKeys[i - 3], "1")
    ensures forall i :: 0 <= i < |e| ==> e[i].scope != Launch
  {
    var e := [];
    var e := ChainableInsert(e, Build, Delimiter, "BUNDLE_WITHOUT", ":");
    var e := ChainableInsert(e, All, Prepend, "BUNDLE_WITHOUT", "development:test");
    var e := ChainableInsert(e, Build, Override, "BUNDLE_GEMFILE", Text.JoinPath(appDir, "Gemfile"));
    var e := ChainableInsert(e, All, Override, "BUNDLE_CLEAN", "1");
    var e := ChainableInsert(e, All, Override, "BUNDLE_DEPLOYMENT", "1");
    var e := ChainableInsert(e, All, Override, "BUNDLE_GLOBAL_PATH_APPENDS_RUBY_SCOPE", "1");
    ChainableInsert(e, All, Override, "NOKOGIRI_USE_SYSTEM_LIBRARIES", "1")
  }

  /** `create`: install the requested version; on success the metadata records that
      version and the environment is `BundlerEnv`. A failing install is the layer's error. */
  function Create(layer: DownloadBundlerLayer, appDir: string, run: Command -> CommandStatus): (r: Effect<LayerOutcome>)
    requires "GEM_PATH" in layer.env
    ensures r.commands == [InstallCommand(layer)]
    ensures r.result.Ok? <==> run(InstallCommand(layer)) == Exited(0)
    ensures r.result.Ok? ==> r.result.value == LayerResult(DownloadBundlerLayerMetadata(VersionString(layer)), BundlerEnv(appDir))
    ensures r.result.Err? ==> r.result.error.GemInstallBundlerCommandError? || r.result.error.GemInstallBundlerUnexpectedExitStatus?
    ensures r.result.Err? ==> r.result == Err(RunSimpleCommand(run(InstallCommand(layer))).error)
  {
    var install := InstallCommand(layer);
    match RunSimpleCommand(run(install))
    case Err(e) => Effect(Err(e), [install])
    case Ok(_) => Effect(Ok(LayerResult(DownloadBundlerLayerMetadata(VersionString(layer)), BundlerEnv(appDir))), [install])
  }

  /** `update`: uninstall the version recorded in the cached metadata, then `create`.
      A failing uninstall is returned as is and nothing is installed. */
  function Update(layer: DownloadBundlerLayer, appDir: string, cached: DownloadBundlerLayerMetadata,
                  run: Command -> CommandStatus): (r: Effect<LayerOutcome>)
    requires "GEM_PATH" in layer.env
    ensures |r.commands| >= 1 && r.commands[0] == UninstallCommand(layer, cached.version)
    ensures run(UninstallCommand(layer, cached.version)) != Exited(0) ==>
              r.result == Err(RunSimpleCommand(run(UninstallCommand(layer, cached.version))).error) &&
              r.commands == [UninstallCommand(layer, cached.version)]
    ensures run(UninstallCommand(layer, cached.version)) == Exited(0) ==>
              r.result == Create(layer, appDir, run).result &&
              r.commands == [UninstallCommand(layer, cached.version)] + Create(layer, appDir, run).commands
  {
    var uninstall := UninstallCommand(layer, cached.version);
    match RunSimpleCommand(run(uninstall))
    case Err(e) => Effect(Err(e), [uninstall])
    case Ok(_) =>
      var created := Create(layer, appDir, run);
      Effect(created.result, [uninstall] + created.commands)
  }

  /** Keep the cached layer when it holds the requested version, otherwise update it. */
  function ExistingLayerStrategy(layer: DownloadBundlerLayer, cached: DownloadBundlerLayerMetadata): (r: Result<Cnb.ExistingLayerStrategy, RubyBuildpackError>)
    ensures r.Ok?
    ensures r.value == Cnb.Keep <==> VersionString(layer) == cached.version
    ensures r.value != Cnb.Recreate
  {
    if VersionString(layer) == cached.version then Ok(Cnb.Keep) else Ok(Cnb.Update)
  }

  /** A layer just created holds the requested version, so the next build keeps it. */
  lemma CreateThenKeep(layer: DownloadBundlerLayer, appDir: string, run: Command -> CommandStatus)
    requires "GEM_PATH" in layer.env
    requires Create(layer, appDir, run).result.Ok?
    ensures ExistingLayerStrategy(layer, Create(layer, appDir, run).result.value.metadata) == Ok(Cnb.Keep)
  {
  }

  /** A stale layer that is updated successfully is kept by the next build with the same request. */
  lemma UpdateThenKeep(layer: DownloadBundlerLayer, appDir: string, cached: DownloadBundlerLayerMetadata,
                       run: Command -> CommandStatus)
    requires "GEM_PATH" in layer.env
    requires ExistingLayerStrategy(layer, cached) == Ok(Cnb.Update)
    requires Update(layer, appDir, cached, run).result.Ok?
    ensures Update(layer, appDir, cached, run).result.value.metadata != cached
    ensures ExistingLayerStrategy(layer, Update(layer, appDir, cached, run).result.value.metadata) == Ok(Cnb.Keep)
  {
  }
}
