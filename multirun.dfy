/** main: every command path is rewritten to its runfiles location, then
    exactly one executor runs and its answer becomes the exit code. */
module Multirun {
  import opened Types
  import opened Paths
  import Launch
  import Serial
  import Parallel

  /** main's in-place rewrite of every command's path. */
  method ResolvePaths(commands: array<CommandBlob>, rloc: string -> string,
                      join: (string, string) -> string, workspace: string)
    modifies commands
    ensures commands[..] == Resolved(old(commands[..]), rloc, join, workspace)
  {
    for i := 0 to commands.Length
      invariant forall j :: 0 <= j < i ==>
        commands[j] == old(commands[j]).(path := ScriptPath(rloc, join, workspace, old(commands[j]).path))
      invariant forall j :: i <= j < commands.Length ==> commands[j] == old(commands[j])
    {
      var p := ScriptPath(rloc, join, workspace, commands[i].path);
      commands[i] := commands[i].(path := p);
    }
  }

  /** The exit code of a run: 0 for success, 1 otherwise. */
  function ExitCode(ok: bool): int
  {
    if ok then 0 else 1
  }

  /** main after the instructions are decoded. `ran` is what the chosen
      executor got to: the attempted commands in serial mode, the started
      ones in parallel mode, in both cases with their paths resolved. `run`
      is the commands built for them: in parallel mode one per started
      command, in serial mode one per attempted command unless no launch
      can succeed on this host. */
  method RunMain(instr: Instructions, rloc: string -> string, join: (string, string) -> string,
                 host: Host, extraArgs: seq<string>, environ: seq<string>,
                 behaviour: seq<Process>, stdinLines: seq<string>)
    returns (exitCode: int, ran: seq<CommandBlob>, run: seq<Launch.Cmd>)
    requires |behaviour| == |instr.commands|
    ensures exitCode == 0 || exitCode == 1
    ensures var resolved := Resolved(instr.commands, rloc, join, instr.workspaceName);
      if instr.jobs == 0 then
        (exitCode == 0 <==> forall i :: 0 <= i < |behaviour| ==> Parallel.Succeeds(host, behaviour[i])) &&
        ran == Parallel.StartedCommands(resolved, host, behaviour) &&
        |run| == |ran| &&
        (|run| > 0 ==> !Launch.LaunchFails(host) && forall k :: 0 <= k < |run| ==>
          Launch.Builds(run[k], ran[k], Launch.Interpreter(host), extraArgs, environ, instr.bufferOutput))
      else
        (exitCode == 0 <==> Serial.SerialOk(host, behaviour, instr.keepGoing)) &&
        ran == resolved[..Serial.AttemptCount(host, behaviour, instr.keepGoing)] &&
        Serial.BuiltSerially(run, ran, host, extraArgs, environ)
  {
    var cs := instr.commands;
    var commands := new CommandBlob[|cs|](i requires 0 <= i < |cs| => cs[i]);
    assert commands[..] == cs;
    ResolvePaths(commands, rloc, join, instr.workspaceName);
    var resolved := instr.(commands := commands[..]);

    var ok;
    if instr.jobs == 0 {
      var procs;
      procs, ok := Parallel.RunParallel(resolved, host, extraArgs, environ, behaviour, stdinLines);
      ran := Parallel.Blobs(procs);
      run := seq(|procs|, k requires 0 <= k < |procs| => procs[k].cmd);
      forall k | 0 <= k < |run|
        ensures Launch.Builds(run[k], ran[k], Launch.Interpreter(host), extraArgs, environ, instr.bufferOutput)
      {
        assert Parallel.Built(procs[k], host, extraArgs, environ, resolved.bufferOutput);
      }
      if |run| > 0 {
        assert Parallel.Built(procs[0], host, extraArgs, environ, resolved.bufferOutput);
      }
    } else {
      var printed;
      ran, run, printed, ok := Serial.RunSerial(resolved, host, extraArgs, environ, behaviour);
    }
    exitCode := ExitCode(ok);
  }
}
