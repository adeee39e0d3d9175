# Ruby Cloud Native Buildpack: layers, gem list and build driver

This project models the core of a Cloud Native Buildpack for Ruby applications, written
in Rust on top of libcnb, and proves properties of the model in Dafny.

- **Detect.** `detect` decides the build plan from two facts: whether the application has
  a `Gemfile.lock`, and whether it has a `package.json`.
- **Build.** `build` does the following, in order:
  - overlays the platform's environment variables on the system's;
  - reads `Gemfile.lock`;
  - asks libcnb to handle seven layers in a fixed order, threading one build environment
    through them (each layer's environment is applied in build scope before the next
    layer runs);
  - runs the application's rake tasks;
  - declares the default `web` launch process.
- **Layers.** The model covers three layers:
  - the bundler layer: installs the requested Bundler version, reinstalls it when the
    cached version differs, and sets the bundler environment;
  - the in-app-directory cache layer: keeps a directory of the application between deploys;
  - the default-environment layer: sets default values for environment variables.
  For each layer the model gives its types, its `create` (metadata and environment
  modification list), its `update` where it has one, and its existing-layer strategy where it defines one.
- **Gem list.** The model also covers the gem list parsed from `bundle list` output, with
  its lookups, and the sample output the gem list's unit test parses.

Modules:

- `Text`: ASCII stand-ins for `str::trim`, `to_lowercase` and `Path::join`.
- `Cnb`: the libcnb vocabulary the buildpack uses.
  - `Scope`, `ModificationBehavior`, and a layer environment as the ordered list of its
    `chainable_insert` calls.
  - `LayerTypes`, `ExistingLayerStrategy`, `LayerResult`, and libcnb's error wrapper.
- `Errors`: the buildpack's error kinds. `Lockfile`: what `build` reads from Gemfile.lock.
- `DownloadBundler`, `InAppDirCache`, `DefaultEnv`: the three layers.
- `Gems`: `GemList`.
  - The entry pattern `  \* (\S+) \(([a-zA-Z0-9\.]+)\)` is matched at each position
    (`MatchAt`), and matches are collected leftmost-first without overlap (`Scan`).
  - Both repetitions are greedy and cannot usefully give characters back, so there is at
    most one match at each position.
  - Entries are collected into a map in which later entries replace earlier ones.
- `GemListSample`: the unit test's `bundle list` output and what parsing it gives.
- `RubyBuildpack`: `detect` and `build`.
  - `Build` is a method written step by step like the source.
  - It is proved equal to `BuildSpec`, which runs the layers through `RunLayers`.
  - `RunLayers` is stated for any `Plan`: the function that gives the call made at each
    position.
  - `LayerPlan` is the plan `build` follows: the layer names in order, and the layer
    values built from the Gemfile.lock, the ruby layer's result and the running
    environment.

The operations that live outside the shown code are parameters of the model:

- libcnb's `handle_layer` and `LayerEnv::apply`;
- the external commands (`gem install`, `gem uninstall`, `bundle list`);
- the Gemfile.lock and gem version parsers;
- the rake tasks.

Everything proved about them holds for every such function.

## Model

Some definitions model a source operation without a contract of their own; the rows for
their lemmas cite the same lines:
- `Gems.Scan` models `captures_iter` (src/gem_list.rs:57);
- `Text.Trim` models `str::trim` (src/gem_list.rs:39);
- `DownloadBundler.InstallCommand` and `DownloadBundler.UninstallCommand` model the two
  `gem` commands (src/layers/download_bundler_layer.rs:98-110 and 67-78);
- `RubyBuildpack.BuildSpec`, `RubyBuildpack.RunLayers` and `RubyBuildpack.LayerPlan`
  model the course of `build` (src/main.rs:83-160).

| member | source | states |
|---|---|---|
| Text.ToLower | src/gem_list.rs:70 | lower-casing keeps the length and maps each character through the ASCII lower-case map |
| Text.ToLowerOfLower | src/gem_list.rs:70 | a string with no upper-case letter is its own lower-case form |
| Text.TrimStart | src/gem_list.rs:39 | the result is a suffix of the input, does not start with white space, and everything dropped was white space |
| Text.TrimEnd | src/gem_list.rs:39 | the result is a prefix of the input, does not end with white space, and everything dropped was white space |
| Text.TrimSlice | src/gem_list.rs:39 | the trimmed string is the contiguous slice of the input between the dropped leading and trailing white space |
| Text.TrimSpec | src/gem_list.rs:39 | `trim` gives a contiguous slice that neither starts nor ends with white space, with only white space cut off on either side |
| Text.TrimOfTrimmed | src/gem_list.rs:39 | trimming a string with no white space at either end changes nothing |
| Text.ToLowerKeepsTrimmed | src/gem_list.rs:39 | lower-casing keeps a trimmed string trimmed |
| Text.NormalizeIdempotent | src/gem_list.rs:39 | `trim().to_lowercase()` applied twice is the same as once |
| Text.JoinPath | src/layers/download_bundler_layer.rs:136 | joining a file name onto a directory is the directory, one `/` when it does not already end in one (and is not empty), then the name |
| Cnb.ChainableInsert | src/layers/download_bundler_layer.rs:119-161 | `chainable_insert` keeps the earlier modifications and appends exactly the new one |
| DownloadBundler.VersionString | src/layers/download_bundler_layer.rs:28-33 | an explicit version is returned as given; no version gives 2.3.7 |
| DownloadBundler.Types | src/layers/download_bundler_layer.rs:40-46 | the layer is visible at build and launch and cached |
| DownloadBundler.RunSimpleCommand | src/layers/download_bundler_layer.rs:98-113 | a command succeeds exactly when it exits with status 0; one that cannot be started is a command error, one with another status an exit-status error |
| DownloadBundler.BundlerEnv | src/layers/download_bundler_layer.rs:118-161 | exactly seven modifications in order: the `:` delimiter for BUNDLE_WITHOUT in build scope, then the `development:test` prepend everywhere; BUNDLE_GEMFILE overridden to the app's Gemfile in build scope only; the four switches overridden to 1 everywhere; nothing launch-only |
| DownloadBundler.Create | src/layers/download_bundler_layer.rs:86-164 | exactly one command is run, `gem install bundler` of the requested version into GEM_PATH; the layer succeeds iff it exits with 0, recording that version and the bundler environment; otherwise the error `run_simple_command` gives for that status: a command error with its cause when it cannot start, an exit-status error with the status otherwise |
| DownloadBundler.Update | src/layers/download_bundler_layer.rs:48-84 | the cached (old) version is uninstalled first; if that fails its error is returned and nothing else runs; otherwise result and commands are exactly those of `create` after the uninstall |
| DownloadBundler.ExistingLayerStrategy | src/layers/download_bundler_layer.rs:166-177 | Keep iff the requested version equals the cached one, otherwise Update; never Recreate; never an error |
| DownloadBundler.CreateThenKeep | src/layers/download_bundler_layer.rs:115-173 | the strategy on the metadata `create` just wrote for the same layer is Keep |
| DownloadBundler.UpdateThenKeep | src/layers/download_bundler_layer.rs:48-177 | a stale layer that is updated successfully gets new metadata, and the next build with the same request keeps it |
| InAppDirCache.Types | src/layers/in_app_dir_cache_layer.rs:43-49 | the layer is visible at build and launch and cached |
| InAppDirCache.Create | src/layers/in_app_dir_cache_layer.rs:51-62 | always succeeds, records the layer's path, sets no environment |
| InAppDirCache.ExistingLayerStrategy | src/layers/in_app_dir_cache_layer.rs:64-78 | Keep iff the paths are equal, Recreate iff they differ, never Update (the layer has no `update`) |
| InAppDirCache.CreateThenKeep | src/layers/in_app_dir_cache_layer.rs:58-72 | the strategy on the metadata `create` wrote for the same layer is Keep |
| DefaultEnv.New | commons/src/layer/default_env_layer.rs:80-85 | the layer holds the given pairs unchanged |
| DefaultEnv.Types | commons/src/layer/default_env_layer.rs:98-104 | visible at build and launch, never cached |
| DefaultEnv.Create | commons/src/layer/default_env_layer.rs:106-120 | always succeeds with generic metadata and one All-scope Default modification per pair, in the pairs' order, carrying that pair's key and value |
| Gems.MatchAt | src/gem_list.rs:53-54 | a match at the start of the text is a well-formed entry whose text is exactly the text's prefix |
| Gems.MatchAtEntry | src/gem_list.rs:53-54 | wherever a well-formed entry's text starts, the pattern matches exactly that entry |
| Gems.ScanSound | src/gem_list.rs:56-57 | every entry found is well formed and its text occurs in the input |
| Gems.ScanComplete | src/gem_list.rs:56-57 | every occurrence of a well-formed entry's text is found, whatever text precedes it |
| Gems.ScanSkip | src/gem_list.rs:56-57 | star-free text followed by text whose first two characters are not `*` contributes no entry |
| Gems.ScanEntryLines | src/gem_list.rs:56-57 | lines of well-formed entries followed by a star-free footer yield exactly those entries, in order |
| Gems.Collect | src/gem_list.rs:75 | the keys of the collected map are exactly the keys of the pairs |
| Gems.CollectLastWins | src/gem_list.rs:75 | a key holds the value of the last pair with that key |
| Gems.CollectDistinctSize | src/gem_list.rs:75 | pairs with distinct keys give a map with one key per pair |
| Gems.VersionOf | src/gem_list.rs:71 | a version that does not parse is stored as the default version, one that parses as its parsed value |
| Gems.KeyedEntries | src/gem_list.rs:58-73 | each entry becomes the pair of its lower-cased name and its version, in order |
| Gems.FromStr | src/gem_list.rs:51-77 | parsing never fails |
| Gems.FromStrKeys | src/gem_list.rs:56-75 | the keys are exactly the lower-cased names of the entries found |
| Gems.FromStrLastWins | src/gem_list.rs:56-75 | a name's key holds the version of the last entry with that lower-cased name |
| Gems.FromStrFindsEntry | src/gem_list.rs:53-75 | every well-formed entry written anywhere in the output is in the list under its lower-cased name |
| Gems.FromStrKeysOccur | src/gem_list.rs:53-75 | every key is the lower-cased name of a well-formed entry whose text occurs in the output |
| Gems.FromBundleList | src/gem_list.rs:29-35 | a failing `bundle list` gives the shell-command error; otherwise its output is parsed |
| Gems.VersionFor | src/gem_list.rs:43-45 | Some exactly when the trimmed, lower-cased query is a key, and then its version |
| Gems.Has | src/gem_list.rs:38-40 | true iff `version_for` gives Some |
| Gems.LookupIgnoresCaseAndPadding | src/gem_list.rs:38-45 | looking up a query and its trimmed, lower-cased form give the same answers |
| GemListSample.SampleScan | src/gem_list.rs:88-107 | the sample output holds exactly its fourteen entries, in order |
| GemListSample.SampleListSize | src/gem_list.rs:119 | the sample gives fourteen gems |
| GemListSample.SampleRailties | src/gem_list.rs:113-116 | railties is stored with the version parsed from 6.1.4.1 |
| GemListSample.SampleNoFoo | src/gem_list.rs:111 | foo is not in the list |
| GemListSample.SampleGemList | src/gem_list.rs:86-120 | fourteen gems; `has` and `version_for` find railties at 6.1.4.1 and do not find foo |
| GemListSample.PlainQuery | src/gem_list.rs:38-45 | a lower-case word is looked up as written |
| RubyBuildpack.Provides | src/main.rs:55 | `provides` appends the name to what is provided and leaves what is required |
| RubyBuildpack.Requires | src/main.rs:58-61 | `requires` appends the name to what is required and leaves what is provided |
| RubyBuildpack.Detect | src/main.rs:54-68 | always passes and provides exactly ruby; requires nothing without a Gemfile.lock, exactly ruby with one, and exactly ruby then node when package.json exists as well |
| RubyBuildpack.OverlayPlatformEnv | src/main.rs:74-80 | inserting every platform variable gives the system environment overridden by the platform's |
| RubyBuildpack.Overlay | src/main.rs:74-80 | after the overlay every variable of either is set, platform values win, and every other system variable is unchanged |
| RubyBuildpack.ApplyAllSnoc | src/main.rs:94-144 | applying one more layer environment continues from the environment the earlier ones produced |
| RubyBuildpack.ThreadStep | src/main.rs:94-144 | handling one more layer and applying its environment in build scope extends the threaded environment by that layer |
| RubyBuildpack.AsPlannedAt | src/main.rs:89-144 | in calls made as planned, every call is the planned one given the calls before it, all handled successfully |
| RubyBuildpack.HandleLayer | src/main.rs:89-144 | one step: the layer is handled; on error the build ends with that error; on success its environment is applied in build scope and the build goes on from the next layer |
| RubyBuildpack.Build | src/main.rs:70-161 | the step-by-step build ends exactly as `BuildSpec` says: same result, same `handle_layer` calls in the same order |
| RubyBuildpack.RunLayersCalls | src/main.rs:89-144 | at most seven calls; every call but the last handled successfully; the run stops early only at a failing call and then ends with its error |
| RubyBuildpack.RunLayersSuccess | src/main.rs:147-160 | a run that succeeds handled all seven layers successfully and declares exactly the web process |
| RubyBuildpack.RunLayersAsPlanned | src/main.rs:89-147 | every call is the planned one given the threaded environment, and the rake tasks see the base environment with all seven layers' environments applied |
| RubyBuildpack.BuildParseFailure | src/main.rs:83-85 | a Gemfile.lock that does not parse ends the build with GemfileLockParsingError before any layer is handled |
| RubyBuildpack.BuildLayerOrder | src/main.rs:89-144 | the layers are handled in the order secret_key_base, env_defaults, ruby, gems, bundle_configure_env, bundler, execute_bundle_install; the build goes past a layer only when it succeeded, and a failing layer ends it with its error |
| RubyBuildpack.BuildSuccess | src/main.rs:147-160 | a successful build handled all seven layers, ran the rake tasks successfully in the overlaid environment with every layer's environment applied, and declares exactly one process: web, default, `bundle exec rackup --port $PORT --host 0.0.0.0` |
| RubyBuildpack.BuildLayerInputs | src/main.rs:104-143 | the ruby layer gets the Gemfile.lock's ruby version; the gems layer gets the version in the ruby layer's metadata; the bundler layer gets the Gemfile.lock's bundler version and the environment with the first five layers applied; the bundle-install layer gets the environment with the first six applied |

## Left out

- libcnb's `handle_layer` is not modelled: dispatching on the existing-layer strategy,
  calling `create` or `update`, and reading and writing layers and metadata on disk.
  - `build` sees it as a function from the layer call to a result.
  - The layers' own `create`, `update` and strategy are modelled separately.
  - `handle_layer` does not depend on earlier calls in this model.
- `LayerEnv::apply` is a function parameter. How modifications merge (override, default,
  prepend, delimiter) is not modelled.
- The six layers of `build` other than the bundler layer (secret_key_base, env_defaults,
  ruby, gems, bundle_configure_env, execute_bundle_install) are not part of this model,
  nor are the rake tasks. Each layer is carried only as the values `build` hands it
  (`RubyBuildpack.LayerSpec`). What `handle_layer` returns for it is a function parameter.
  The `DefaultEnv` module models the shared default-environment layer on its own; it is
  not linked to any of these six.
- The external commands are function parameters that return a status:
  `gem install`, `gem uninstall`, and `bundle list` through `EnvCommand`.
- `util::run_simple_command` is modelled only for the two error kinds the bundler layer
  passes it.
- The Gemfile.lock parser and `GemVersion::from_str` are function parameters.
  `GemVersion` is a type parameter with a default value.
- File-system and process I/O is not modelled: the existence checks in `detect`,
  `Env::from_current`, reading Gemfile.lock, and all `println!` output.
  - The existence checks are boolean inputs.
  - The system environment and the file's text are inputs.
- `build` panics when Gemfile.lock cannot be read (`unwrap`). `detect` passes even
  without that file. `Build` receives the file's text and does not model the panic.
- The `expect` on GEM_PATH in the bundler layer's `create` and `update` becomes a
  `requires` that GEM_PATH is set. The panic itself is not modelled.
- `to_str().unwrap()` on the GEM_PATH value is not modelled. Paths are plain strings
  joined with `/`.
- Unicode is approximated by ASCII:
  - white space for `trim` and the pattern's `\S` is the six ASCII white-space characters;
  - `to_lowercase` lower-cases only A to Z.
- The display strings of the errors are not modelled, nor are the payloads of errors
  raised outside the shown code (kept as plain values).
- In the gem list's sample, each entry line is written as the entry's text built from
  its name and version (`EntryText`), rather than as a literal line.
- InAppDirCache.ExistingLayerStrategy: paths are compared as strings, not component by
  component as `PathBuf` equality does, so `/app/public/assets/` and `/app/public/assets`
  are Recreate in the model but Keep in the source.
- Layer names are plain strings, without the validation `layer_name!` does.
- `RubyBuildpack.OverlayPlatformEnv`: the insertion order of the platform map is not
  modelled. Keys are distinct, so any order gives the same environment.
