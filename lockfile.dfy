/** The values the build reads from Gemfile.lock. The parser itself is not part of
    this model: the versions are carried as given. */
module Lockfile {

  /** The bundler version a Gemfile.lock asks for: an explicit one, or none (use the default). */
  datatype BundlerVersion = Explicit(v: string) | Default

  /** The ruby version a Gemfile.lock asks for, as an opaque value. */
  datatype RubyVersion = RubyVersion(text: string)

  datatype GemfileLock = GemfileLock(rubyVersion: RubyVersion, bundlerVersion: BundlerVersion)
}
