/** The invocation builder: chooses between running a command directly and
    running it through bash (on Windows), builds its argument vector and its
    environment, and optionally gives it a standard-input pipe. */
module Launch {
  import opened Types

  /** One end of an operating-system pipe as the parent holds it: the lines
      the parent has written through it, and how often it closed it. */
  class Handle {
    var log: seq<string>
    var closes: nat

    constructor ()
      ensures log == [] && closes == 0
    {
      log, closes := [], 0;
    }

    /** Writing through a closed handle fails on a real pipe, so the model
        writes only while the handle is open. */
    method Write(s: string)
      requires closes == 0
      modifies this
      ensures log == old(log) + [s] && closes == old(closes)
    {
      log := log + [s];
    }

    method Close()
      modifies this
      ensures log == old(log) && closes == old(closes) + 1
    {
      closes := closes + 1;
    }
  }

  /** A pipe feeding a child's standard input. The child reads `readEnd`;
      what it receives is what the parent writes into `writeEnd`, and it
      sees end-of-input once `writeEnd` is closed. */
  datatype Pipe = Pipe(readEnd: Handle, writeEnd: Handle)

  /** A built, not yet started, command: the program, its arguments (after
      the program name), its environment, whether its output goes straight
      to the parent's stdout and stderr, and its standard-input pipe. */
  datatype Cmd = Cmd(
    program: string,
    args: seq<string>,
    env: seq<string>,
    stdoutToParent: bool,
    stdin: Option<Pipe>)

  /** launchCommand's result: the command and the writer it hands back
      (null unless a stdin pipe was requested). */
  datatype Launched = Launched(cmd: Cmd, stdinWriter: Handle?)

  datatype LaunchError = BashNotFound(cause: string)

  const Windows: string := "windows"

  /** bashOnWindows: no interpreter off Windows, BAZEL_SH when it is set,
      and otherwise whatever the lookup of bash.exe answers. */
  function BashOnWindows(host: Host): (r: Result<string, string>)
    ensures host.goos != Windows ==> r == Ok("")
    ensures host.goos == Windows && host.bazelSh != "" ==> r == Ok(host.bazelSh)
    ensures host.goos == Windows && host.bazelSh == "" ==>
      (r.Ok? <==> host.bashLookup.Found?) &&
      (r.Ok? ==> r.value == host.bashLookup.path) &&
      (r.Err? ==> r.error == host.bashLookup.cause)
    ensures r.Err? ==> host.goos == Windows && host.bazelSh == ""
  {
    if host.goos != Windows then Ok("")
    else if host.bazelSh != "" then Ok(host.bazelSh)
    else match host.bashLookup
      case Found(p) => Ok(p)
      case LookupFailed(cause) => Err(cause)
  }

  /** launchCommand consults bashOnWindows only on Windows and fails when it does. */
  predicate LaunchFails(host: Host)
  {
    host.goos == Windows && BashOnWindows(host).Err?
  }

  /** The interpreter launchCommand settles on; "" means direct execution. */
  function Interpreter(host: Host): (bash: string)
    requires !LaunchFails(host)
    ensures host.goos != Windows ==> bash == ""
    ensures host.goos == Windows && host.bazelSh != "" ==> bash == host.bazelSh
    ensures host.goos == Windows && host.bazelSh == "" ==> host.bashLookup == Found(bash)
  {
    if host.goos == Windows then BashOnWindows(host).value else ""
  }

  /** The child's arguments: the declared ones, then the extra ones. */
  function Argv(blob: CommandBlob, extraArgs: seq<string>): (argv: seq<string>)
    ensures |argv| == |blob.args| + |extraArgs|
    ensures argv[..|blob.args|] == blob.args && argv[|blob.args|..] == extraArgs
  {
    blob.args + extraArgs
  }

  /** The bash argument vector `-c '<path> "$@"' -- args...`: bash runs the
      script with `--` as $0 and the arguments as "$@". */
  function ShimArgs(path: string, argv: seq<string>): seq<string>
  {
    ["-c", path + " \"$@\"", "--"] + argv
  }

  function Entry(k: string, v: string): string
  {
    k + "=" + v
  }

  /** `order` lists every key of `env` exactly once. */
  ghost predicate IsKeyOrder(order: seq<string>, env: map<string, string>)
  {
    (forall i, j :: 0 <= i < j < |order| ==> order[i] != order[j]) &&
    (forall k :: k in order <==> k in env)
  }

  /** The `k=v` strings of `env`, taken in the key order `order`. */
  function Entries(order: seq<string>, env: map<string, string>): (r: seq<string>)
    requires forall k :: k in order ==> k in env
    ensures |r| == |order|
    ensures forall i :: 0 <= i < |order| ==> r[i] == Entry(order[i], env[order[i]])
  {
    seq(|order|, i requires 0 <= i < |order| => Entry(order[i], env[order[i]]))
  }

  /** `out` is one `k=v` string per entry of `env`, in some order. */
  ghost predicate IsFlattening(out: seq<string>, env: map<string, string>)
  {
    exists order :: IsKeyOrder(order, env) && out == Entries(order, env)
  }

  /** flattenEnv: the map is walked in an order the language leaves open,
      so the result is pinned down up to the order of its keys. */
  method FlattenEnv(env: map<string, string>) returns (out: seq<string>, ghost order: seq<string>)
    ensures IsKeyOrder(order, env)
    ensures out == Entries(order, env)
    ensures |out| == |env|
  {
    out, order := [], [];
    var rest := env.Keys;
    while rest != {}
      invariant forall k :: k in rest ==> k in env && k !in order
      invariant forall k :: k in env ==> k in rest || k in order
      invariant forall k :: k in order ==> k in env
      invariant forall i, j :: 0 <= i < j < |order| ==> order[i] != order[j]
      invariant |order| + |rest| == |env|
      invariant out == Entries(order, env)
      decreases rest
    {
      var k :| k in rest;
      out := out + [Entry(k, env[k])];
      order := order + [k];
      rest := rest - {k};
    }
  }

  lemma {:induction false} DistinctCard(s: seq<string>)
    requires forall i, j :: 0 <= i < j < |s| ==> s[i] != s[j]
    ensures |set x | x in s| == |s|
  {
    if |s| > 0 {
      var init := s[..|s| - 1];
      DistinctCard(init);
      assert (set x | x in s) == (set x | x in init) + {s[|s| - 1]};
      assert s[|s| - 1] !in (set x | x in init);
    }
  }

  /** A key order of `env` is as long as `env` has entries. */
  lemma KeyOrderLength(order: seq<string>, env: map<string, string>)
    requires IsKeyOrder(order, env)
    ensures |order| == |env|
  {
    DistinctCard(order);
    assert (set x | x in order) == env.Keys;
  }

  lemma EntriesCover(order: seq<string>, env: map<string, string>, k: string)
    requires IsKeyOrder(order, env) && k in env
    ensures Entry(k, env[k]) in Entries(order, env)
  {
    var i :| 0 <= i < |order| && order[i] == k;
    assert Entries(order, env)[i] == Entry(k, env[k]);
  }

  lemma EntriesSound(order: seq<string>, env: map<string, string>, s: string)
    requires IsKeyOrder(order, env) && s in Entries(order, env)
    ensures exists k :: k in env && s == Entry(k, env[k])
  {
    var out := Entries(order, env);
    var i :| 0 <= i < |out| && out[i] == s;
    var k := order[i];
    assert k in env && s == Entry(k, env[k]);
  }

  /** Any flattening has exactly one string per entry and holds each
      entry's `k=v` string. */
  lemma FlatteningEntries(out: seq<string>, env: map<string, string>)
    requires IsFlattening(out, env)
    ensures |out| == |env|
    ensures forall k :: k in env ==> Entry(k, env[k]) in out
    ensures forall s :: s in out ==> exists k :: k in env && s == Entry(k, env[k])
  {
    var order :| IsKeyOrder(order, env) && out == Entries(order, env);
    KeyOrderLength(order, env);
    forall k | k in env ensures Entry(k, env[k]) in out {
      EntriesCover(order, env, k);
    }
    forall s | s in out ensures exists k :: k in env && s == Entry(k, env[k]) {
      EntriesSound(order, env, s);
    }
  }

  /** The command launchCommand builds for `blob` once `bash` is chosen. */
  ghost predicate Builds(cmd: Cmd, blob: CommandBlob, bash: string, extraArgs: seq<string>,
                         environ: seq<string>, pipeStdout: bool)
  {
    (if bash != "" then cmd.program == bash && cmd.args == ShimArgs(blob.path, Argv(blob, extraArgs))
     else cmd.program == blob.path && cmd.args == Argv(blob, extraArgs)) &&
    |cmd.env| >= |environ| && cmd.env[..|environ|] == environ &&
    IsFlattening(cmd.env[|environ|..], blob.env) &&
    cmd.stdoutToParent == !pipeStdout
  }

  /** launchCommand without starting anything. `environ` is the parent's
      environment. A requested stdin pipe is fresh: the child reads its
      read end and the writer is handed back. */
  method LaunchCommand(blob: CommandBlob, host: Host, extraArgs: seq<string>,
                       environ: seq<string>, pipeStdout: bool, pipeStdin: bool)
    returns (r: Result<Launched, LaunchError>)
    ensures r.Err? <==> LaunchFails(host)
    ensures r.Err? ==> r.error == BashNotFound(BashOnWindows(host).error)
    ensures r.Ok? ==> Builds(r.value.cmd, blob, Interpreter(host), extraArgs, environ, pipeStdout)
    ensures r.Ok? && !pipeStdin ==> r.value.cmd.stdin == None && r.value.stdinWriter == null
    ensures r.Ok? && pipeStdin ==>
      r.value.cmd.stdin.Some? &&
      r.value.stdinWriter == r.value.cmd.stdin.value.writeEnd &&
      fresh(r.value.cmd.stdin.value.readEnd) && fresh(r.value.cmd.stdin.value.writeEnd) &&
      r.value.cmd.stdin.value.readEnd != r.value.cmd.stdin.value.writeEnd &&
      r.value.cmd.stdin.value.writeEnd.log == [] && r.value.cmd.stdin.value.writeEnd.closes == 0 &&
      r.value.cmd.stdin.value.readEnd.log == [] && r.value.cmd.stdin.value.readEnd.closes == 0
  {
    var bash := "";
    if host.goos == Windows {
      var found := BashOnWindows(host);
      if found.Err? {
        return Err(BashNotFound(found.error));
      }
      bash := found.value;
    }

    var argv := Argv(blob, extraArgs);

    var program, args;
    if bash != "" {
      program, args := bash, ShimArgs(blob.path, argv);
    } else {
      program, args := blob.path, argv;
    }

    var flat, order := FlattenEnv(blob.env);
    var env := environ + flat;
    assert env[..|environ|] == environ && env[|environ|..] == flat;

    var stdin: Option<Pipe> := None;
    var stdinWriter: Handle? := null;
    if pipeStdin {
      var readEnd := new Handle();
      var writeEnd := new Handle();
      stdin := Some(Pipe(readEnd, writeEnd));
      stdinWriter := writeEnd;
    }

    r := Ok(Launched(Cmd(program, args, env, !pipeStdout, stdin), stdinWriter));
  }
}
