/**
 * The outside world as the two services see it, reduced to values: the
 * local filesystem, the outcome of one child-process run, the invocation
 * that would be launched, and the HTTP reply a handler produces.
 */
module Environment {
  import Strings

  /** What `os.path.exists`, `os.path.isdir`, `os.listdir`, `open` and `os.path.getsize` find at a path. */
  datatype Node =
    | File(content: string, sizeBytes: nat)
    | UnreadableFile(reason: string)        // exists, but `open` raises with this message
    | Directory(entries: seq<string>)        // `os.listdir` order
    | UnlistableDirectory(reason: string)   // is a directory that cannot be opened: `os.listdir` and `open` raise with this message

  type FileSystem = map<string, Node>

  predicate IsDir(fs: FileSystem, path: string)
  {
    path in fs && (fs[path].Directory? || fs[path].UnlistableDirectory?)
  }

  /** A command line launched without a shell, its working directory and its timeout. */
  datatype Invocation = Invocation(argv: seq<string>, cwd: string, timeoutSeconds: nat)

  /**
   * What `subprocess.run` did: returned, exceeded its timeout, raised a
   * `ValueError` (an argument holding a NUL byte, or captured text output
   * that does not decode in the locale's encoding), or raised any other
   * exception (e.g. the executable is not found).
   */
  datatype ProcessRun =
    | Completed(returncode: int, stdout: string, stderr: string)
    | TimedOut
    | RaisedValueError(message: string)
    | Crashed(message: string)

  /** A handler's reply: a 200 body, or an `HTTPException(status, detail)`. */
  datatype Reply<+T> = Ok(body: T) | HttpError(status: nat, detail: string)

  /** `str(e)` of the `IsADirectoryError` that `open` raises on a directory: the path appears as its `repr`. */
  function IsADirectoryMessage(path: string): string
  {
    "[Errno 21] Is a directory: " + Strings.Repr(path)
  }
}
