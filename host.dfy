/**
 * The operating-system services that discovery consults, as oracles: the
 * operating system name, PATH lookups, file status, running a command's
 * "version", environment variables, the working directory, opening and reading
 * files and loading a client configuration from its bytes. Where a call can
 * fail and the source prints the error, the printed error is an abstract
 * string: `detail` of an ExecResult, `readError` of a path whose reading
 * failed and `loadError` of bytes that did not parse.
 */
module Host {
  import opened Wrappers
  import opened Types

  /** Why os.Open failed, as os.IsNotExist and os.IsPermission tell it, with the error as printed. */
  datatype OpenError = NotExist(detail: string) | Permission(detail: string) | OtherOpenError(detail: string)

  datatype OpenResult = Opened | OpenFailed(error: OpenError)

  /** How running `<path> version` ended. */
  datatype ExecResult =
    | Ran(output: string)           // exited 0; its combined output
    | ExecError(detail: string)     // could not be started (*exec.Error)
    | ExitError(detail: string, output: string)       // exited non-zero (*exec.ExitError)
    | OtherExecError(detail: string, output: string)

  datatype Host = Host(
    goos: string,
    lookPath: string -> Option<string>,
    statNotExist: string -> bool,
    runVersion: string -> ExecResult,
    getenv: string -> string,
    getwd: string,
    open: string -> OpenResult,
    readAll: string -> Option<string>,
    readError: string -> string,
    load: string -> Option<Kubeconfig>,
    loadError: string -> string)
}
