/** The buildpack's error kinds. Payloads of errors raised by code outside this
    model (I/O errors, exit statuses, errors of unseen parsers) are kept as plain
    values; their display strings are not modelled. */
module Errors {

  /** An error reported by `EnvCommand`, which is not part of this model. */
  datatype EnvCommandError = EnvCommandError(message: string)

  /** An error reported by the Gemfile.lock parser, which is not part of this model. */
  datatype GemfileLockError = GemfileLockError(message: string)

  datatype GemListError =
    | RegexError(message: string)
    | BundleListShellCommandError(cause: EnvCommandError)

  datatype RubyBuildpackError =
    | RubyDownloadError(message: string)
    | RubyUntarError(message: string)
    | CouldNotCreateTemporaryFile(message: string)
    | CouldNotGenerateChecksum(message: string)
    | GemInstallBundlerUnexpectedExitStatus(code: int)
    | BundleInstallCommandError(installCause: EnvCommandError)
    | GemInstallBundlerCommandError(commandCause: EnvCommandError)
    | BundleInstallUnexpectedExitStatus(code: int)
    | BundleConfigCommandError(message: string)
    | BundleConfigUnexpectedExitStatus(code: int)
    | UrlParseError(message: string)
    | GemListGetError(listCause: GemListError)
    | RakeDetectError(message: string)
    | GemfileLockParsingError(lockCause: GemfileLockError)
}
