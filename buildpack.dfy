/** The buildpack's entry points: `detect`, which decides the build plan from the files
    present in the app, and `build`, which overlays the platform's environment on the
    system's, then handles seven layers in a fixed order, threading one build
    environment through them, runs the app's rake tasks and declares the web process. */
module RubyBuildpack {
  import opened Cnb
  import opened Errors
  import opened Lockfile
  import DownloadBundler

  /** A build plan: what the buildpack provides and what it requires, in order. */
  datatype BuildPlan = BuildPlan(provided: seq<string>, required: seq<string>)

  datatype DetectResult = Pass(plan: BuildPlan) | Fail

  /** `BuildPlanBuilder::provides`. */
  function Provides(plan: BuildPlan, name: string): (p: BuildPlan)
    ensures p.provided == plan.provided + [name] && p.required == plan.required
  {
    plan.(provided := plan.provided + [name])
  }

  /** `BuildPlanBuilder::requires`. */
  function Requires(plan: BuildPlan, name: string): (p: BuildPlan)
    ensures p.required == plan.required + [name] && p.provided == plan.provided
  {
    plan.(required := plan.required + [name])
  }

  /** `detect`: always passes and provides ruby; requires ruby when the app has a
      Gemfile.lock, and node as well when it also has a package.json. The two
      existence checks are inputs. */
  method Detect(gemfileLockExists: bool, packageJsonExists: bool) returns (r: DetectResult)
    ensures r.Pass?
    ensures r.plan.provided == ["ruby"]
    ensures "ruby" in r.plan.required <==> gemfileLockExists
    ensures "node" in r.plan.required <==> gemfileLockExists && packageJsonExists
    ensures |r.plan.required| <= 2
    ensures gemfileLockExists ==> r.plan.required[0] == "ruby"
    ensures r.plan.required == if gemfileLockExists then (if packageJsonExists then ["ruby", "node"] else ["ruby"]) else []
  {
    var planBuilder := Provides(BuildPlan([], []), "ruby");
    if gemfileLockExists {
      planBuilder := Requires(planBuilder, "ruby");
      if packageJsonExists {
        planBuilder := Requires(planBuilder, "node");
      }
    }
    r := Pass(planBuilder);
  }

  /** Inserts every platform variable into the system environment, one at a time: the
      result is the system environment overridden by the platform's (see `Overlay`). */
  method OverlayPlatformEnv(system: Env, platform: Env) returns (env: Env)
    ensures env == system + platform
  {
    env := system;
    var todo := platform.Keys;
    while todo != {}
      invariant todo <= platform.Keys
      invariant env.Keys == system.Keys + (platform.Keys - todo)
      invariant forall k :: k in platform && k !in todo ==> env[k] == platform[k]
      invariant forall k :: k in system && (k !in platform || k in todo) ==> env[k] == system[k]
      decreases todo
    {
      var k :| k in todo;
      env := env[k := platform[k]];
      todo := todo - {k};
    }
  }

  /** In the overlaid environment every variable of either environment is set, platform
      values replace system ones, and every other system variable stays as it was. */
  lemma Overlay(system: Env, platform: Env)
    ensures (system + platform).Keys == system.Keys + platform.Keys
    ensures forall k :: k in platform ==> (system + platform)[k] == platform[k]
    ensures forall k :: k in system && k !in platform ==> (system + platform)[k] == system[k]
  {
  }

  /** The layers `build` asks libcnb to handle. Those other than the bundler layer are
      not part of this model; each carries the values `build` gives it. */
  datatype LayerSpec =
    | EnvDefaultsSetSecretKeyBaseLayer
    | EnvDefaultsSetStaticVarsLayer
    | RubyVersionInstallLayer(version: RubyVersion)
    | BundleInstallCreatePathLayer(rubyVersion: string)
    | BundleInstallConfigureEnvLayer
    | BundleInstallDownloadBundlerLayer(bundler: DownloadBundler.DownloadBundlerLayer)
    | BundleInstallExecuteLayer(env: Env)

  /** One `handle_layer` call: the layer's name and the layer. */
  datatype LayerCall = LayerCall(name: string, spec: LayerSpec)

  /** What `handle_layer` hands back: the layer's environment and the `version` field
      of its metadata (read only from the ruby layer). */
  datatype HandledLayer = HandledLayer(env: LayerEnv, version: string)

  /** A launch process: its type, command and arguments, and whether it is the default. */
  datatype Process = Process(processType: string, command: string, args: seq<string>, isDefault: bool)

  datatype LaunchConfig = LaunchConfig(processes: seq<Process>)

  datatype BuildResult = BuildResult(launch: LaunchConfig)

  /** The number of layers `build` handles. */
  const LayerCount: nat := 7

  /** The name of the k-th layer `build` handles (counting from 0; positions past the
      last name it again). */
  function LayerName(k: nat): string
  {
    match k
    case 0 => "secret_key_base"
    case 1 => "env_defaults"
    case 2 => "ruby"
    case 3 => "gems"
    case 4 => "bundle_configure_env"
    case 5 => "bundler"
    case _ => "execute_bundle_install"
  }

  type Handler = LayerCall -> Result<HandledLayer, CnbError<RubyBuildpackError>>

  type Applier = (LayerEnv, Scope, Env) -> Env

  type Rake = Env -> Result<(), CnbError<RubyBuildpackError>>

  /** The call a build makes at a position, given the calls made before it and the
      build environment at that point. */
  type Plan = (nat, seq<LayerCall>, Env) -> LayerCall

  /** Every call in `calls` was handled successfully. */
  predicate AllHandled(handle: Handler, calls: seq<LayerCall>) {
    forall i :: 0 <= i < |calls| ==> handle(calls[i]).Ok?
  }

  lemma AllHandledSnoc(handle: Handler, calls: seq<LayerCall>, call: LayerCall)
    requires AllHandled(handle, calls) && handle(call).Ok?
    ensures AllHandled(handle, calls + [call])
  {
    forall i | 0 <= i < |calls| + 1 ensures handle((calls + [call])[i]).Ok? {
      if i < |calls| {
        assert (calls + [call])[i] == calls[i];
      }
    }
  }

  /** The environments of handled layers, in order. */
  function LayerEnvs(handle: Handler, calls: seq<LayerCall>): (envs: seq<LayerEnv>)
    requires AllHandled(handle, calls)
    ensures |envs| == |calls|
    ensures forall i :: 0 <= i < |calls| ==> envs[i] == handle(calls[i]).value.env
  {
    seq(|calls|, i requires 0 <= i < |calls| => handle(calls[i]).value.env)
  }

  /** Applies layer environments to `env` one after another, each in build scope. */
  function ApplyAll(apply: Applier, envs: seq<LayerEnv>, env: Env): Env
    decreases |envs|
  {
    if envs == [] then env else ApplyAll(apply, envs[1..], apply(envs[0], Scope.Build, env))
  }

  /** Applying one more layer environment after a list of them is applying it to the
      environment the list produced. */
  lemma {:induction false} ApplyAllSnoc(apply: Applier, envs: seq<LayerEnv>, last: LayerEnv, env: Env)
    ensures ApplyAll(apply, envs + [last], env) == apply(last, Scope.Build, ApplyAll(apply, envs, env))
    decreases |envs|
  {
    if envs == [] {
      assert envs + [last] == [last];
      assert ApplyAll(apply, [last], env) == ApplyAll(apply, [], apply(last, Scope.Build, env));
    } else {
      assert (envs + [last])[1..] == envs[1..] + [last];
      ApplyAllSnoc(apply, envs[1..], last, apply(envs[0], Scope.Build, env));
    }
  }

  /** Handling one more layer and applying its environment continues the thread. */
  lemma ThreadStep(handle: Handler, apply: Applier, calls: seq<LayerCall>, call: LayerCall, base: Env)
    requires AllHandled(handle, calls) && handle(call).Ok?
    ensures AllHandled(handle, calls + [call])
    ensures ApplyAll(apply, LayerEnvs(handle, calls + [call]), base)
            == apply(handle(call).value.env, Scope.Build, ApplyAll(apply, LayerEnvs(handle, calls), base))
  {
    assert LayerEnvs(handle, calls + [call]) == LayerEnvs(handle, calls) + [handle(call).value.env];
    ApplyAllSnoc(apply, LayerEnvs(handle, calls), handle(call).value.env, base);
  }

  /** The layer `build` hands to `handle_layer` in its k-th call, given the Gemfile.lock
      it read, the version in the ruby layer's metadata (used from the fourth call on)
      and the build environment at that point. */
  function PlannedSpec(k: nat, lock: GemfileLock, rubyVersion: string, env: Env): LayerSpec
  {
    match k
    case 0 => EnvDefaultsSetSecretKeyBaseLayer
    case 1 => EnvDefaultsSetStaticVarsLayer
    case 2 => RubyVersionInstallLayer(lock.rubyVersion)
    case 3 => BundleInstallCreatePathLayer(rubyVersion)
    case 4 => BundleInstallConfigureEnvLayer
    case 5 => BundleInstallDownloadBundlerLayer(DownloadBundler.DownloadBundlerLayer(lock.bundlerVersion, env))
    case _ => BundleInstallExecuteLayer(env)
  }

  /** The version in the ruby layer's metadata, once that layer (the third) has been
      handled successfully. */
  function RubyVersionOf(handle: Handler, done: seq<LayerCall>): string
  {
    if |done| > 2 && handle(done[2]).Ok? then handle(done[2]).value.version else ""
  }

  /** The calls of `build` after it read `lock`: the k-th layer name, and the layer built
      from the Gemfile.lock, the ruby layer's result and the environment at that point. */
  function LayerPlan(lock: GemfileLock, handle: Handler): Plan
  {
    (k: nat, done: seq<LayerCall>, env: Env) => LayerCall(LayerName(k), PlannedSpec(k, lock, RubyVersionOf(handle, done), env))
  }

  /** The planned call at a position names the layer for that position and carries the
      layer built for it. */
  lemma LayerPlanCall(lock: GemfileLock, handle: Handler, k: nat, done: seq<LayerCall>, env: Env)
    ensures LayerPlan(lock, handle)(k, done, env).name == LayerName(k)
    ensures LayerPlan(lock, handle)(k, done, env).spec == PlannedSpec(k, lock, RubyVersionOf(handle, done), env)
  {
  }

  /** Each call made is the one `plan` gives for its position, given the calls before it
      and the base environment with their environments applied, and every call but
      possibly the last was handled successfully. */
  predicate AsPlanned(plan: Plan, handle: Handler, apply: Applier, base: Env, calls: seq<LayerCall>)
    decreases |calls|
  {
    calls == [] ||
    var done := calls[..|calls| - 1];
    && AsPlanned(plan, handle, apply, base, done)
    && AllHandled(handle, done)
    && calls[|calls| - 1] == plan(|done|, done, ApplyAll(apply, LayerEnvs(handle, done), base))
  }

  /** Making the next planned call keeps the calls as planned. */
  lemma AsPlannedSnoc(plan: Plan, handle: Handler, apply: Applier, base: Env, calls: seq<LayerCall>, call: LayerCall)
    requires AsPlanned(plan, handle, apply, base, calls) && AllHandled(handle, calls)
    requires call == plan(|calls|, calls, ApplyAll(apply, LayerEnvs(handle, calls), base))
    ensures AsPlanned(plan, handle, apply, base, calls + [call])
  {
    assert (calls + [call])[..|calls|] == calls;
  }

  /** In calls made as planned, every call is the planned one given the calls before it. */
  lemma {:induction false} AsPlannedAt(plan: Plan, handle: Handler, apply: Applier, base: Env,
                                       calls: seq<LayerCall>, i: nat)
    requires AsPlanned(plan, handle, apply, base, calls) && i < |calls|
    ensures AllHandled(handle, calls[..i])
    ensures calls[i] == plan(i, calls[..i], ApplyAll(apply, LayerEnvs(handle, calls[..i]), base))
    decreases |calls|
  {
    var done := calls[..|calls| - 1];
    if i < |calls| - 1 {
      AsPlannedAt(plan, handle, apply, base, done, i);
      assert done[..i] == calls[..i];
    }
  }

  /** The launch process `build` declares: the default `web` process, serving the app
      with rackup on $PORT on all interfaces. */
  const WebProcess: Process := Process("web", "bundle", ["exec", "rackup", "--port", "$PORT", "--host", "0.0.0.0"], true)

  /** What a build ends with: its result and the `handle_layer` calls it made, in order. */
  datatype BuildRun = BuildRun(result: Result<BuildResult, CnbError<RubyBuildpackError>>, calls: seq<LayerCall>)

  /** The build from its k-th layer on, given the build environment `env` at that point
      and the calls `done` made so far: handle the planned layer, stop with its error or
      apply its environment in build scope and go on; after the last layer run the rake
      tasks and declare the web process. */
  function RunLayers(k: nat, plan: Plan, handle: Handler, apply: Applier, rake: Rake,
                     env: Env, done: seq<LayerCall>): BuildRun
    requires k == |done| <= LayerCount && AllHandled(handle, done)
    decreases LayerCount - k
  {
    if k == LayerCount then
      match rake(env)
      case Err(e) => BuildRun(Err(e), done)
      case Ok(_) => BuildRun(Ok(BuildResult(LaunchConfig([WebProcess]))), done)
    else
      var call := plan(k, done, env);
      match handle(call)
      case Err(e) => BuildRun(Err(e), done + [call])
      case Ok(layer) =>
        AllHandledSnoc(handle, done, call);
        RunLayers(k + 1, plan, handle, apply, rake, apply(layer.env, Scope.Build, env), done + [call])
  }

  /** `build` from the inputs: a Gemfile.lock that does not parse ends it before any
      layer; otherwise the layers run from the overlaid environment. */
  function BuildSpec(systemEnv: Env, platformEnv: Env, gemfileLock: string,
                     parseLock: string -> Result<GemfileLock, GemfileLockError>,
                     handle: Handler, apply: Applier, rake: Rake): BuildRun
  {
    match parseLock(gemfileLock)
    case Err(e) => BuildRun(Err(BuildpackError(GemfileLockParsingError(e))), [])
    case Ok(lock) => RunLayers(0, LayerPlan(lock, handle), handle, apply, rake, systemEnv + platformEnv, [])
  }

  /** One step of `build`: `handle_layer` on the layer built for position k, then, when
      it succeeds, the layer's environment applied to the running one in build scope.
      `goal` is the run from this position on; the step either ends it or leaves the run
      from the next position. */
  method HandleLayer(k: nat, ghost lock: GemfileLock, handle: Handler, apply: Applier, ghost rake: Rake,
                     ghost goal: BuildRun, calls: seq<LayerCall>, env: Env, call: LayerCall)
    returns (handled: Result<HandledLayer, CnbError<RubyBuildpackError>>, calls': seq<LayerCall>, env': Env)
    requires k == |calls| < LayerCount && AllHandled(handle, calls)
    requires goal == RunLayers(k, LayerPlan(lock, handle), handle, apply, rake, env, calls)
    requires call == LayerCall(LayerName(k), PlannedSpec(k, lock, RubyVersionOf(handle, calls), env))
    ensures handled == handle(call) && calls' == calls + [call]
    ensures handled.Err? ==> goal == BuildRun(Err(handled.error), calls')
    ensures handled.Ok? ==> AllHandled(handle, calls') && env' == apply(handled.value.env, Scope.Build, env)
    ensures handled.Ok? ==> goal == RunLayers(k + 1, LayerPlan(lock, handle), handle, apply, rake, env', calls')
  {
    LayerPlanCall(lock, handle, k, calls, env);
    handled := handle(call);
    calls' := calls + [call];
    env' := env;
    if handled.Ok? {
      env' := apply(handled.value.env, Scope.Build, env);
    }
  }

  /** `build`. The system and platform environments, the text of Gemfile.lock, and the
      libcnb and rake operations are inputs; `calls` lists the `handle_layer` calls made,
      in order. A failing step ends the build with its error. */
  method Build(systemEnv: Env, platformEnv: Env, gemfileLock: string,
               parseLock: string -> Result<GemfileLock, GemfileLockError>,
               handle: Handler, apply: Applier, rake: Rake)
    returns (r: Result<BuildResult, CnbError<RubyBuildpackError>>, calls: seq<LayerCall>)
    ensures BuildRun(r, calls) == BuildSpec(systemEnv, platformEnv, gemfileLock, parseLock, handle, apply, rake)
  {
    var env := OverlayPlatformEnv(systemEnv, platformEnv);
    calls := [];
    var lock := parseLock(gemfileLock);
    if lock.Err? {
      r := Err(BuildpackError(GemfileLockParsingError(lock.error)));
      return;
    }
    var bundleInfo := lock.value;
    ghost var goal := BuildSpec(systemEnv, platformEnv, gemfileLock, parseLock, handle, apply, rake);

    var secretKeyBaseLayer;
    secretKeyBaseLayer, calls, env := HandleLayer(0, bundleInfo, handle, apply, rake, goal, calls, env,
      LayerCall("secret_key_base", EnvDefaultsSetSecretKeyBaseLayer));
    if secretKeyBaseLayer.Err? {
      r := Err(secretKeyBaseLayer.error);
      return;
    }

    var envDefaultsLayer;
    envDefaultsLayer, calls, env := HandleLayer(1, bundleInfo, handle, apply, rake, goal, calls, env,
      LayerCall("env_defaults", EnvDefaultsSetStaticVarsLayer));
    if envDefaultsLayer.Err? {
      r := Err(envDefaultsLayer.error);
      return;
    }

    var rubyLayer;
    rubyLayer, calls, env := HandleLayer(2, bundleInfo, handle, apply, rake, goal, calls, env,
      LayerCall("ruby", RubyVersionInstallLayer(bundleInfo.rubyVersion)));
    if rubyLayer.Err? {
      r := Err(rubyLayer.error);
      return;
    }

    var createBundlePathLayer;
    createBundlePathLayer, calls, env := HandleLayer(3, bundleInfo, handle, apply, rake, goal, calls, env,
      LayerCall("gems", BundleInstallCreatePathLayer(rubyLayer.value.version)));
    if createBundlePathLayer.Err? {
      r := Err(createBundlePathLayer.error);
      return;
    }

    var configureEnvLayer;
    configureEnvLayer, calls, env := HandleLayer(4, bundleInfo, handle, apply, rake, goal, calls, env,
      LayerCall("bundle_configure_env", BundleInstallConfigureEnvLayer));
    if configureEnvLayer.Err? {
      r := Err(configureEnvLayer.error);
      return;
    }

    var downloadBundlerLayer;
    downloadBundlerLayer, calls, env := HandleLayer(5, bundleInfo, handle, apply, rake, goal, calls, env,
      LayerCall("bundler", BundleInstallDownloadBundlerLayer(DownloadBundler.DownloadBundlerLayer(bundleInfo.bundlerVersion, env))));
    if downloadBundlerLayer.Err? {
      r := Err(downloadBundlerLayer.error);
      return;
    }

    var executeBundleInstallLayer;
    executeBundleInstallLayer, calls, env := HandleLayer(6, bundleInfo, handle, apply, rake, goal, calls, env,
      LayerCall("execute_bundle_install", BundleInstallExecuteLayer(env)));
    if executeBundleInstallLayer.Err? {
      r := Err(executeBundleInstallLayer.error);
      return;
    }

    var assets := rake(env);
    if assets.Err? {
      r := Err(assets.error);
      return;
    }
    r := Ok(BuildResult(LaunchConfig([WebProcess])));
  }

  /** From position k on, the run keeps the calls made before, makes at least one call
      when a layer is left and never more than seven; every call but possibly the last
      is handled successfully, and the run stops before the seventh layer only at a
      failing call, whose error it ends with. */
  lemma {:induction false} RunLayersCalls(k: nat, plan: Plan, handle: Handler, apply: Applier, rake: Rake,
                                          env: Env, done: seq<LayerCall>)
    requires k == |done| <= LayerCount && AllHandled(handle, done)
    ensures var run := RunLayers(k, plan, handle, apply, rake, env, done);
            && done <= run.calls && |run.calls| <= LayerCount
            && (k < LayerCount ==> k < |run.calls|)
            && (forall i :: 0 <= i < |run.calls| - 1 ==> handle(run.calls[i]).Ok?)
            && (k < |run.calls| < LayerCount ==> handle(run.calls[|run.calls| - 1]).Err?)
            && (k < |run.calls| && handle(run.calls[|run.calls| - 1]).Err? ==>
                  run.result == Err(handle(run.calls[|run.calls| - 1]).error))
    decreases LayerCount - k
  {
    if k < LayerCount {
      var call := plan(k, done, env);
      var next := done + [call];
      if handle(call).Ok? {
        AllHandledSnoc(handle, done, call);
        var env' := apply(handle(call).value.env, Scope.Build, env);
        RunLayersCalls(k + 1, plan, handle, apply, rake, env', next);
        var calls := RunLayers(k + 1, plan, handle, apply, rake, env', next).calls;
        assert calls[k] == next[k];
      }
    }
  }

  /** The run succeeds only after all seven layers were handled, and then declares
      exactly the web process. */
  lemma {:induction false} RunLayersSuccess(k: nat, plan: Plan, handle: Handler, apply: Applier, rake: Rake,
                                            env: Env, done: seq<LayerCall>)
    requires k == |done| <= LayerCount && AllHandled(handle, done)
    ensures var run := RunLayers(k, plan, handle, apply, rake, env, done);
            run.result.Ok? ==> |run.calls| == LayerCount && AllHandled(handle, run.calls)
                               && run.result.value.launch == LaunchConfig([WebProcess])
    decreases LayerCount - k
  {
    if k < LayerCount {
      var call := plan(k, done, env);
      if handle(call).Ok? {
        AllHandledSnoc(handle, done, call);
        RunLayersSuccess(k + 1, plan, handle, apply, rake, apply(handle(call).value.env, Scope.Build, env), done + [call]);
      }
    }
  }

  /** When the environment so far is the base with the handled layers' environments
      applied, every call the run makes is the planned one, and the rake tasks see the
      base with all seven layers' environments applied. */
  lemma {:induction false} RunLayersAsPlanned(k: nat, plan: Plan, handle: Handler, apply: Applier, rake: Rake,
                                              base: Env, env: Env, done: seq<LayerCall>)
    requires k == |done| <= LayerCount && AllHandled(handle, done)
    requires AsPlanned(plan, handle, apply, base, done)
    requires env == ApplyAll(apply, LayerEnvs(handle, done), base)
    ensures var run := RunLayers(k, plan, handle, apply, rake, env, done);
            && AsPlanned(plan, handle, apply, base, run.calls)
            && (|run.calls| == LayerCount && AllHandled(handle, run.calls) ==>
                  var final := ApplyAll(apply, LayerEnvs(handle, run.calls), base);
                  (rake(final).Err? ==> run.result == Err(rake(final).error)) && (rake(final).Ok? ==> run.result.Ok?))
    decreases LayerCount - k
  {
    if k < LayerCount {
      var call := plan(k, done, env);
      AsPlannedSnoc(plan, handle, apply, base, done, call);
      if handle(call).Ok? {
        ThreadStep(handle, apply, done, call, base);
        RunLayersAsPlanned(k + 1, plan, handle, apply, rake, base, apply(handle(call).value.env, Scope.Build, env), done + [call]);
      }
    }
  }

  /** A Gemfile.lock that does not parse ends the build with that error, before any layer. */
  lemma BuildParseFailure(systemEnv: Env, platformEnv: Env, gemfileLock: string,
                          parseLock: string -> Result<GemfileLock, GemfileLockError>,
                          handle: Handler, apply: Applier, rake: Rake)
    requires parseLock(gemfileLock).Err?
    ensures var run := BuildSpec(systemEnv, platformEnv, gemfileLock, parseLock, handle, apply, rake);
            run.result == Err(BuildpackError(GemfileLockParsingError(parseLock(gemfileLock).error))) && run.calls == []
  {
  }

  /** With a parsed Gemfile.lock, the build handles the layers in their fixed order,
      goes on only past layers that were handled successfully, and a failing layer ends
      it with that layer's error. */
  lemma BuildLayerOrder(systemEnv: Env, platformEnv: Env, gemfileLock: string,
                        parseLock: string -> Result<GemfileLock, GemfileLockError>,
                        handle: Handler, apply: Applier, rake: Rake)
    requires parseLock(gemfileLock).Ok?
    ensures var run := BuildSpec(systemEnv, platformEnv, gemfileLock, parseLock, handle, apply, rake);
            && 0 < |run.calls| <= LayerCount
            && (forall i :: 0 <= i < |run.calls| ==> run.calls[i].name == LayerName(i))
            && (forall i :: 0 <= i < |run.calls| - 1 ==> handle(run.calls[i]).Ok?)
            && (|run.calls| < LayerCount ==> handle(run.calls[|run.calls| - 1]).Err?)
            && (handle(run.calls[|run.calls| - 1]).Err? ==> run.result == Err(handle(run.calls[|run.calls| - 1]).error))
  {
    var lock := parseLock(gemfileLock).value;
    var plan := LayerPlan(lock, handle);
    var base := systemEnv + platformEnv;
    RunLayersCalls(0, plan, handle, apply, rake, base, []);
    RunLayersAsPlanned(0, plan, handle, apply, rake, base, base, []);
    var calls := RunLayers(0, plan, handle, apply, rake, base, []).calls;
    forall i | 0 <= i < |calls| ensures calls[i].name == LayerName(i) {
      AsPlannedAt(plan, handle, apply, base, calls, i);
      LayerPlanCall(lock, handle, i, calls[..i], ApplyAll(apply, LayerEnvs(handle, calls[..i]), base));
    }
  }

  /** A build that succeeds handled all seven layers, and its rake tasks ran in the
      overlaid environment with every layer's environment applied; it declares exactly
      the default web process. */
  lemma BuildSuccess(systemEnv: Env, platformEnv: Env, gemfileLock: string,
                     parseLock: string -> Result<GemfileLock, GemfileLockError>,
                     handle: Handler, apply: Applier, rake: Rake)
    requires BuildSpec(systemEnv, platformEnv, gemfileLock, parseLock, handle, apply, rake).result.Ok?
    ensures var run := BuildSpec(systemEnv, platformEnv, gemfileLock, parseLock, handle, apply, rake);
            && parseLock(gemfileLock).Ok?
            && |run.calls| == LayerCount && AllHandled(handle, run.calls)
            && rake(ApplyAll(apply, LayerEnvs(handle, run.calls), systemEnv + platformEnv)).Ok?
            && run.result.value.launch.processes == [Process("web", "bundle", ["exec", "rackup", "--port", "$PORT", "--host", "0.0.0.0"], true)]
  {
    var plan := LayerPlan(parseLock(gemfileLock).value, handle);
    var base := systemEnv + platformEnv;
    RunLayersSuccess(0, plan, handle, apply, rake, base, []);
    RunLayersAsPlanned(0, plan, handle, apply, rake, base, base, []);
  }

  /** The layers receive what `build` gathered before them: the ruby layer the Gemfile.lock's
      ruby version, the gems layer the version in the ruby layer's metadata, the bundler
      layer the Gemfile.lock's bundler version and the environment with the first five
      layers' environments applied, and the bundle-install layer the environment with
      the first six applied. */
  lemma BuildLayerInputs(systemEnv: Env, platformEnv: Env, gemfileLock: string,
                         parseLock: string -> Result<GemfileLock, GemfileLockError>,
                         handle: Handler, apply: Applier, rake: Rake)
    requires parseLock(gemfileLock).Ok?
    ensures var run := BuildSpec(systemEnv, platformEnv, gemfileLock, parseLock, handle, apply, rake);
            var lock := parseLock(gemfileLock).value;
            var base := systemEnv + platformEnv;
            && (forall i :: 0 <= i < |run.calls| - 1 ==> handle(run.calls[i]).Ok?)
            && (|run.calls| > 2 ==> run.calls[2].spec == RubyVersionInstallLayer(lock.rubyVersion))
            && (|run.calls| > 3 ==> run.calls[3].spec == BundleInstallCreatePathLayer(handle(run.calls[2]).value.version))
            && (|run.calls| > 5 ==>
                  run.calls[5].spec == BundleInstallDownloadBundlerLayer(DownloadBundler.DownloadBundlerLayer(
                    lock.bundlerVersion, ApplyAll(apply, LayerEnvs(handle, run.calls[..5]), base))))
            && (|run.calls| > 6 ==>
                  run.calls[6].spec == BundleInstallExecuteLayer(ApplyAll(apply, LayerEnvs(handle, run.calls[..6]), base)))
  {
    var lock := parseLock(gemfileLock).value;
    var plan := LayerPlan(lock, handle);
    var base := systemEnv + platformEnv;
    var calls := RunLayers(0, plan, handle, apply, rake, base, []).calls;
    RunLayersCalls(0, plan, handle, apply, rake, base, []);
    RunLayersAsPlanned(0, plan, handle, apply, rake, base, base, []);
    if |calls| > 2 {
      AsPlannedAt(plan, handle, apply, base, calls, 2);
      LayerPlanCall(lock, handle, 2, calls[..2], ApplyAll(apply, LayerEnvs(handle, calls[..2]), base));
    }
    if |calls| > 3 {
      AsPlannedAt(plan, handle, apply, base, calls, 3);
      LayerPlanCall(lock, handle, 3, calls[..3], ApplyAll(apply, LayerEnvs(handle, calls[..3]), base));
      assert calls[..3][2] == calls[2];
    }
    if |calls| > 5 {
      AsPlannedAt(plan, handle, apply, base, calls, 5);
      LayerPlanCall(lock, handle, 5, calls[..5], ApplyAll(apply, LayerEnvs(handle, calls[..5]), base));
    }
    if |calls| > 6 {
      AsPlannedAt(plan, handle, apply, base, calls, 6);
      LayerPlanCall(lock, handle, 6, calls[..6], ApplyAll(apply, LayerEnvs(handle, calls[..6]), base));
    }
  }
}
