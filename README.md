# multirun: a verified model of the command-execution engine

`multirun` is the small Go program a Bazel rule uses to run a list of
executables, one after another or all at once, and turn their outcomes into a
single exit code. It reads an instructions document (commands with path, tag,
args and env, plus `jobs`, `print_command`, `keep_going`, `buffer_output`,
`forward_stdin` and `workspace_name`) and the extra command-line arguments
that are appended to every command.

This project models the program's decision core in Dafny and proves what it
does:

- `Paths`: how a command's short path becomes a runfiles location.
- `Launch`: how one command is built. This covers the choice between direct
  execution and the bash shim on Windows, the argument vector, the child
  environment and the optional stdin pipe.
- `Serial`: the serial executor, its fail-fast and keep-going policy, and
  what it prints.
- `Parallel`: the parallel executor's launch loop and its aggregate success
  flag.
- `Stdin`: the fan-out of standard-input lines to the children.
- `Multirun`: the path rewrite in `main` and the choice of executor.

The operating system is a parameter:

- `Host` holds the OS name, the value of `BAZEL_SH` and the answer of the
  lookup for `bash.exe`.
- `Process` is the fate of each command: it fails to start, it exits with a
  status code, or waiting for it fails in some other way.
- `environ` is the parent environment.
- The standard-input lines are a sequence of strings.
- The runfiles lookup (`rloc`) and the path join (`join`) are function
  parameters. `join` stands for `filepath.ToSlash(filepath.Join(..))`.

A pipe is two `Handle` objects. Each handle logs the writes and counts the
closes the parent makes through it. The child reads the read end and receives
what is written to the write end.

Where the code departs from the engine's documented design, the model follows
the code:

- With keep-going on, `runSerial` always returns true
  (internal/multirun.go:168-185). The comment at line 179 says to mark an
  overall failure, but nothing is marked. The design says the result is a
  failure if any command failed.
- With keep-going off, only a launch error or an `ExitError` stops the run. A
  start failure or another wait error, as reported by `cmd.Run`, does not
  stop it.
- `scriptPath` never returns an error, so the fatal resolution error in
  `main` cannot happen.
- Any nonzero `jobs` selects serial mode, negative values included.
- In parallel mode a tag is printed only when `buffer_output` is also set
  (lines 252-254). The buffered path is not modelled (see below).

## Model

| member | source | states |
|---|---|---|
| Types.RunOutcome | internal/multirun.go:173-182 | `cmd.Run` is start then wait. Only a nonzero exit status is an `ExitError`. A start failure or another wait error is a plain error. Status 0 means no error. |
| Paths.ScriptPath | internal/multirun.go:71-77 | `scriptPath` always gives a runfiles location and never an error. A path with the leading `../` marker is looked up with the marker removed. Any other path is looked up after joining it under the workspace name. |
| Paths.ExternalPathStripsMarker | internal/multirun.go:73-74 | A path `"../" + q` resolves to `Rlocation(q)`: exactly the three marker characters are removed. |
| Paths.WorkspacePathIsJoined | internal/multirun.go:76 | Any path not starting with `../` resolves to `Rlocation(Join(workspace, p))`. |
| Paths.MarkerDecidesCase | internal/multirun.go:73 | A path takes the external branch iff it is `"../"` followed by something. |
| Paths.Resolved | internal/multirun.go:303-310 | Rewriting the commands keeps their number and order. Each path becomes `scriptPath` of the old path. Tag, args and env are unchanged. |
| Launch.BashOnWindows | internal/multirun.go:61-69 | Off Windows the answer is `""` with no error. On Windows a non-empty `BAZEL_SH` is the answer. Otherwise the answer is the path the lookup of `bash.exe` found, or its error. Only that lookup can fail. |
| Launch.Interpreter | internal/multirun.go:61-69 | No interpreter off Windows. On Windows a non-empty `BAZEL_SH` wins over the lookup of `bash.exe`. Otherwise the interpreter is the path the lookup found. |
| Launch.Argv | internal/multirun.go:94-95 | The child arguments are the declared args followed by the extra args, each kept in order. The blob's own args are a value and stay unchanged. |
| Launch.FlattenEnv | internal/multirun.go:124-130 | The result is one `k=v` string per entry of the map, listed in some order that has every key exactly once. So its length is the number of entries. |
| Launch.KeyOrderLength | internal/multirun.go:124-130 | Any listing of the keys without repeats is as long as the map. |
| Launch.FlatteningEntries | internal/multirun.go:124-130 | Any flattening has exactly `len(env)` strings. Every entry's `k=v` string is among them, and every string is some entry's `k=v`. |
| Launch.LaunchCommand | internal/multirun.go:84-122 | Building fails iff the host is Windows and `bashOnWindows` fails. The error then carries the lookup's cause. On success there are two cases. With an interpreter, the program is bash with `["-c", path + " \"$@\"", "--"] ++ argv`. Otherwise the program is the blob path with argv. The env is the parent environment followed by a flattening of the blob env. Stdout goes to the parent iff output is not piped. A requested stdin pipe is fresh, the child reads its read end, and the writer comes back. |
| Stdin.ForwardStdin | internal/multirun.go:137-153 | Every handle that is not null must be open. It receives every line with `"\n"` appended, in input order, and is then closed exactly once. No write happens after a close, because `Handle.Write` requires an open handle. Null handles and all other objects are untouched. |
| Serial.FirstHalt | internal/multirun.go:165-177 | Gives the index of the first command whose launch fails or whose run yields an `ExitError`, or the number of commands if none does. No earlier command halts. |
| Serial.SerialSpecClosedForm | internal/multirun.go:159-186 | The step-by-step serial state machine attempts exactly the first `AttemptCount` commands, in declared order. It prints exactly their tags, if and only if `print_command` is set. Its answer is `SerialOk`. |
| Serial.FailFast | internal/multirun.go:165-177 | With keep-going off, the first halting command is the last one attempted and the answer is false. |
| Serial.KeepGoingRunsAll | internal/multirun.go:168-185 | With keep-going on, every command is attempted and the answer is true. |
| Serial.RunSerial | internal/multirun.go:159-186 | The loop attempts the declared prefix up to and including the first halting command (all commands with keep-going), printing the tag of every attempted command, the halting one included. Each attempted command is built by `launchCommand` for its own blob, with the extra args appended, the parent environment followed by its own env, stdout to the parent and no stdin pipe; these built commands are returned. When the launch fails on the host, none is built. It returns `keep_going \|\| no command halts`. It agrees with the state machine. |
| Parallel.ParallelFoldAll | internal/multirun.go:195-214 | The folded success flag is true iff every command launches, starts and is waited for without error. |
| Parallel.StartedCommandsSplit | internal/multirun.go:203-220 | Which later commands get a process record does not depend on earlier failures: the launch loop never stops early. |
| Parallel.LaunchOne | internal/multirun.go:204-219 | One launch turn records the command iff it builds and starts. The record holds the built command. When stdin is forwarded, it holds a fresh, untouched writer. This follows the corrected line 217 (`ProcStdin`, see Findings); as written, line 217 stores the read end. |
| Parallel.LaunchAll | internal/multirun.go:200-220 | One record per started command, in declared order, each built for its blob. With forwarding on, each record holds its pipe's fresh, untouched writer, and no two records share a handle. This follows the corrected line 217 (`ProcStdin`, see Findings); as written, line 217 stores the read end. The success flag together with the pending wait results is true iff every command succeeds. |
| Parallel.RunParallel | internal/multirun.go:192-268 | `success` is true iff every command builds, starts and exits with 0; it equals the fold. Records go to the started commands in declared order, each with a command built for it. With forwarding on, each child's pipe receives all lines with newlines and is closed once. With forwarding off, no record has a stdin handle. |
| Parallel.StdinLostAsWritten | internal/multirun.go:215-217 | As written, the record's stdin is the pipe's read end. All forwarded lines go there. The child's write end receives nothing and is never closed. |
| Multirun.ResolvePaths | internal/multirun.go:303-310 | The array of commands is rewritten in place to `Resolved` of its old contents. |
| Multirun.RunMain | internal/multirun.go:302-322 | Paths are resolved before any command runs. If `jobs == 0` the parallel executor runs, otherwise the serial one runs. The exit code is 0 iff that executor succeeds, and 1 otherwise. The commands it reaches carry resolved paths, and the commands it returns as run are the ones built for those resolved blobs, one each and in order. In serial mode none is built when the launch fails on the host. |

## Findings

| source | as written | input that shows it | evidently intended | confidence | as-written member | corrected member |
|---|---|---|---|---|---|---|
| internal/multirun.go:215-217 | With `forward_stdin`, the record's stdin is replaced by `cmd.Stdin.(io.WriteCloser)`. `StdinPipe` sets that to the read end of the pipe, so forwarded lines and the final close go to the read end. | `forward_stdin: true` with any command and the input line `x` | Forward lines to the writer that `launchCommand` returns, so each child reads every line and then sees end of input | medium: depends on how `os/exec` implements `StdinPipe`; not executed | Parallel.StdinLostAsWritten | Parallel.RunParallel |

`Parallel.ProcStdinAsWritten` is line 217 as written. `Parallel.ProcStdin` is
the corrected choice, and `RunParallel` uses it.

## Left out

- Decoding the instructions file, `runfiles.New`, opening the file and the
  usage check on the argument count (lines 275-300): plain I/O and foreign
  library code. `RunMain` starts from decoded instructions.
- `os.Exit` (lines 319-322): `RunMain` returns the exit code.
- Messages written to stderr: not modelled.
- Signal forwarding (lines 228-236): concurrency and OS signals.
- Goroutines, the `WaitGroup`, the mutex and the `done` channel: in the model,
  the stdin fan-out runs to end of input and the waits then run in declared
  order. In the source, `runParallel` can return while the forwarder is
  still running.
- Buffered output (`StdoutPipe`, the copy into a `strings.Builder`,
  `TrimSpace`, and printing tags in parallel mode, lines 243-257): I/O racing a
  goroutine. Also, the pipe is requested after `Start`, so the behaviour
  rests on `os/exec` error paths.
- RunParallel, RunMain: the exit-code contracts describe unbuffered mode.
  With `buffer_output` set, line 245 calls `StdoutPipe` after `Start` and
  drops its error. Line 248 may then copy from a nil reader, which would end
  the program with a panic instead of exit code 0 or 1. That path is not
  modelled.
- Line splitting of standard input (`bufio.Scanner`): the model takes the
  scanned lines as given. The scanner drops a trailing carriage return and
  stops at overlong lines. Write and close errors are ignored by the source
  and are not modelled.
- LaunchCommand: does not model a failure of `StdinPipe` (an operating-system
  pipe failure), so with the host fixed, building never fails for that reason.
- LaunchCommand: the lookup of `bash.exe` is taken once per run as part of
  `Host`. The source looks it up again for each command, so a file-system
  change between commands is not modelled. For the same reason, a launch
  failure affects every command of a run or none of them.
- `exec.Command`'s own lookup of a program name and its handling of duplicate
  environment keys: library behaviour. `Cmd` keeps the program and
  environment exactly as built.
- The unused `blocking` parameter of `launchCommand` and the unused `stop`
  channel of `forwardStdin`.
