/** Values shared by every part of the multirun engine: the decoded
    instructions document, the host facts the engine consults, and the
    abstract behaviour of the operating system for one spawned command. */
module Types {

  datatype Result<+T, +E> = Ok(value: T) | Err(error: E)

  datatype Option<+T> = None | Some(value: T)

  /** One entry of the "commands" array of the instructions document. */
  datatype CommandBlob = CommandBlob(
    path: string,
    tag: string,
    args: seq<string>,
    env: map<string, string>)

  /** The whole instructions document. `jobs == 0` selects parallel mode. */
  datatype Instructions = Instructions(
    commands: seq<CommandBlob>,
    jobs: int,
    printCommand: bool,
    keepGoing: bool,
    bufferOutput: bool,
    forwardStdin: bool,
    workspaceName: string)

  /** The answer of the executable-path lookup for "bash.exe". */
  datatype Lookup = Found(path: string) | LookupFailed(cause: string)

  /** What the engine reads from its host: the operating system name, the
      value of BAZEL_SH ("" when unset) and the result of looking up bash. */
  datatype Host = Host(goos: string, bazelSh: string, bashLookup: Lookup)

  /** What the operating system does with one built command: the process
      cannot be started, it exits with a status code, or waiting for it
      reports an error that is not an exit status. */
  datatype Process = StartFails | Exits(code: int) | WaitFails

  /** The error value of running a command to completion (start, then wait). */
  datatype RunError = NoError | ExitError(code: int) | OtherError

  /** Running a process to completion is starting it and then waiting for
      it: a start failure and a non-status wait failure are plain errors,
      only a nonzero exit status is an ExitError. */
  function RunOutcome(p: Process): (e: RunError)
    ensures e.ExitError? <==> p.Exits? && p.code != 0
    ensures e.NoError? <==> p == Exits(0)
  {
    match p
    case StartFails => OtherError
    case WaitFails => OtherError
    case Exits(code) => if code == 0 then NoError else ExitError(code)
  }
}
