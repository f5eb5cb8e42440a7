/** The parallel executor: every command is launched, then every started
    process is waited for, and one success flag aggregates the outcomes. */
module Parallel {
  import opened Types
  import opened Launch
  import opened Stdin

  /** A command counts as a success: it launches and exits with status 0. */
  predicate Succeeds(host: Host, p: Process)
  {
    !LaunchFails(host) && RunOutcome(p).NoError?
  }

  /** A command gets a process record: it launches and its process starts. */
  predicate Starts(host: Host, p: Process)
  {
    !LaunchFails(host) && !p.StartFails?
  }

  /** The success flag as a fold over the commands in declared order. */
  function ParallelFold(host: Host, behaviour: seq<Process>): bool
  {
    if |behaviour| == 0 then true
    else Succeeds(host, behaviour[0]) && ParallelFold(host, behaviour[1..])
  }

  /** The flag is true iff every command launched, started and exited with 0. */
  lemma {:induction false} ParallelFoldAll(host: Host, behaviour: seq<Process>)
    ensures ParallelFold(host, behaviour) <==>
      forall i :: 0 <= i < |behaviour| ==> Succeeds(host, behaviour[i])
  {
    if |behaviour| > 0 {
      ParallelFoldAll(host, behaviour[1..]);
      assert forall i :: 1 <= i < |behaviour| ==> behaviour[i] == behaviour[1..][i - 1];
    }
  }

  /** The commands that get a process record, in declared order. */
  function StartedCommands(cmds: seq<CommandBlob>, host: Host, behaviour: seq<Process>): seq<CommandBlob>
    requires |behaviour| == |cmds|
  {
    if |cmds| == 0 then []
    else
      var n := |cmds| - 1;
      StartedCommands(cmds[..n], host, behaviour[..n]) +
      (if Starts(host, behaviour[n]) then [cmds[n]] else [])
  }

  /** Whether a later command is started never depends on what happened to
      the earlier ones: the launch loop does not stop at a failure. */
  lemma {:induction false} StartedCommandsSplit(c1: seq<CommandBlob>, b1: seq<Process>,
                                                c2: seq<CommandBlob>, b2: seq<Process>, host: Host)
    requires |b1| == |c1| && |b2| == |c2|
    ensures StartedCommands(c1 + c2, host, b1 + b2) ==
            StartedCommands(c1, host, b1) + StartedCommands(c2, host, b2)
  {
    if |c2| > 0 {
      var n := |c2| - 1;
      StartedCommandsSplit(c1, b1, c2[..n], b2[..n], host);
      assert (c1 + c2)[..|c1| + n] == c1 + c2[..n];
      assert (b1 + b2)[..|b1| + n] == b1 + b2[..n];
    } else {
      assert c1 + c2 == c1 && b1 + b2 == b1;
    }
  }

  function Blobs(procs: seq<RunningProc>): (r: seq<CommandBlob>)
    ensures |r| == |procs|
    ensures forall k :: 0 <= k < |procs| ==> r[k] == procs[k].blob
  {
    seq(|procs|, k requires 0 <= k < |procs| => procs[k].blob)
  }

  /** The stdin handle a record should carry: the writer launchCommand
      handed back. */
  function ProcStdin(launched: Launched): Handle?
  {
    launched.stdinWriter
  }

  /** The stdin handle runParallel stores as written: when stdin is
      forwarded it replaces the writer with the command's own standard
      input, which is the read end of the pipe. */
  function ProcStdinAsWritten(launched: Launched, pipeStdin: bool): Handle?
  {
    if pipeStdin && launched.cmd.stdin.Some? then launched.cmd.stdin.value.readEnd
    else launched.stdinWriter
  }

  /** As written, forwarded lines all go to the read end of the child's
      pipe: the child receives none of them and its input is never closed. */
  method StdinLostAsWritten(blob: CommandBlob, host: Host, extraArgs: seq<string>,
                            environ: seq<string>, lines: seq<string>)
    returns (rp: RunningProc)
    requires !LaunchFails(host)
    ensures rp.cmd.stdin.Some? && rp.stdin == rp.cmd.stdin.value.readEnd
    ensures rp.stdin.log == Newlined(lines)
    ensures rp.cmd.stdin.value.writeEnd.log == [] && rp.cmd.stdin.value.writeEnd.closes == 0
  {
    var r := LaunchCommand(blob, host, extraArgs, environ, false, true);
    var launched := r.value;
    rp := RunningProc(launched.cmd, blob, ProcStdinAsWritten(launched, true));
    assert [rp][0] == rp;
    ForwardStdin(lines, [rp]);
  }

  predicate AllTrue(s: seq<bool>)
  {
    forall k :: 0 <= k < |s| ==> s[k]
  }

  lemma AllTrueSnoc(s: seq<bool>, w: bool)
    ensures AllTrue(s + [w]) <==> AllTrue(s) && w
  {
    if AllTrue(s) && w {
      forall k | 0 <= k < |s| + 1 ensures (s + [w])[k] {
        if k < |s| { assert (s + [w])[k] == s[k]; }
      }
    }
    if AllTrue(s + [w]) {
      assert (s + [w])[|s|] == w;
      forall k | 0 <= k < |s| ensures s[k] {
        assert (s + [w])[k] == s[k];
      }
    }
  }

  /** The record `p` holds a command launchCommand built for its blob. */
  ghost predicate Built(p: RunningProc, host: Host, extraArgs: seq<string>, environ: seq<string>,
                        pipeStdout: bool)
  {
    !LaunchFails(host) && Builds(p.cmd, p.blob, Interpreter(host), extraArgs, environ, pipeStdout)
  }

  lemma StartedCommandsSnoc(cmds: seq<CommandBlob>, host: Host, behaviour: seq<Process>, i: nat)
    requires |behaviour| == |cmds| && i < |cmds|
    ensures StartedCommands(cmds[..i + 1], host, behaviour[..i + 1]) ==
            StartedCommands(cmds[..i], host, behaviour[..i]) +
            (if Starts(host, behaviour[i]) then [cmds[i]] else [])
  {
    assert cmds[..i + 1][..i] == cmds[..i] && behaviour[..i + 1][..i] == behaviour[..i];
  }

  /** Record `p` is as the launch loop leaves it: built for its blob, with a
      stdin pipe iff stdin is forwarded, and then holding the pipe's
      untouched writer. */
  ghost predicate Recorded(p: RunningProc, host: Host, extraArgs: seq<string>, environ: seq<string>,
                           pipeStdout: bool, pipeStdin: bool)
    reads p.stdin
  {
    Built(p, host, extraArgs, environ, pipeStdout) &&
    (pipeStdin <==> p.cmd.stdin.Some?) &&
    if pipeStdin then p.stdin == p.cmd.stdin.value.writeEnd && p.stdin.log == [] && p.stdin.closes == 0
    else p.stdin == null
  }

  /** Appending a record that is as the launch loop leaves it, with a
      handle no earlier record holds, keeps the records so. */
  lemma RecordsSnoc(procs: seq<RunningProc>, p: RunningProc, host: Host, extraArgs: seq<string>,
                    environ: seq<string>, pipeStdout: bool, pipeStdin: bool)
    requires forall k :: 0 <= k < |procs| ==> Recorded(procs[k], host, extraArgs, environ, pipeStdout, pipeStdin)
    requires Recorded(p, host, extraArgs, environ, pipeStdout, pipeStdin)
    requires DistinctStdins(procs)
    requires p.stdin != null ==> forall k :: 0 <= k < |procs| ==> procs[k].stdin != p.stdin
    ensures forall k :: 0 <= k < |procs + [p]| ==>
      Recorded((procs + [p])[k], host, extraArgs, environ, pipeStdout, pipeStdin)
    ensures DistinctStdins(procs + [p])
    ensures Blobs(procs + [p]) == Blobs(procs) + [p.blob]
  {
    var l := procs + [p];
    forall k | 0 <= k < |l| ensures Recorded(l[k], host, extraArgs, environ, pipeStdout, pipeStdin) {
      if k < |procs| { assert l[k] == procs[k]; }
    }
    forall i, j | 0 <= i < j < |l| && l[i].stdin != null ensures l[i].stdin != l[j].stdin {
      assert l[i] == procs[i];
      if j < |procs| { assert l[j] == procs[j]; }
    }
  }

  /** One turn of runParallel's launch loop: a record for `blob` when it
      launches and starts, none otherwise. */
  method LaunchOne(blob: CommandBlob, p: Process, host: Host, extraArgs: seq<string>,
                   environ: seq<string>, pipeStdout: bool, pipeStdin: bool)
    returns (rp: Option<RunningProc>)
    ensures rp.Some? <==> Starts(host, p)
    ensures rp.Some? ==>
      rp.value.blob == blob && Recorded(rp.value, host, extraArgs, environ, pipeStdout, pipeStdin) &&
      (rp.value.stdin != null ==> fresh(rp.value.stdin))
  {
    var launched := LaunchCommand(blob, host, extraArgs, environ, pipeStdout, pipeStdin);
    if launched.Err? {
      return None;
    }
    if p.StartFails? {
      return None;
    }
    rp := Some(RunningProc(launched.value.cmd, blob, ProcStdin(launched.value)));
  }

  /** The launch loop of runParallel: one record per started command, each
      holding its own fresh, untouched stdin writer when stdin is forwarded.
      `waitOk[k]` is whether waiting for record k reports no error. */
  method LaunchAll(instr: Instructions, host: Host, extraArgs: seq<string>, environ: seq<string>,
                   behaviour: seq<Process>)
    returns (procs: seq<RunningProc>, waitOk: seq<bool>, success: bool)
    requires |behaviour| == |instr.commands|
    ensures |waitOk| == |procs|
    ensures (success && AllTrue(waitOk)) <==>
      forall j :: 0 <= j < |behaviour| ==> Succeeds(host, behaviour[j])
    ensures Blobs(procs) == StartedCommands(instr.commands, host, behaviour)
    ensures forall k :: 0 <= k < |procs| ==>
      Recorded(procs[k], host, extraArgs, environ, instr.bufferOutput, instr.forwardStdin)
    ensures forall k :: 0 <= k < |procs| && procs[k].stdin != null ==> fresh(procs[k].stdin)
    ensures DistinctStdins(procs)
  {
    var cmds := instr.commands;
    var pipeStdout, pipeStdin := instr.bufferOutput, instr.forwardStdin;
    success := true;
    procs, waitOk := [], [];

    for i := 0 to |cmds|
      invariant |waitOk| == |procs|
      invariant (success && AllTrue(waitOk)) <==> forall j :: 0 <= j < i ==> Succeeds(host, behaviour[j])
      invariant Blobs(procs) == StartedCommands(cmds[..i], host, behaviour[..i])
      invariant forall k :: 0 <= k < |procs| ==>
        Recorded(procs[k], host, extraArgs, environ, pipeStdout, pipeStdin)
      invariant forall k :: 0 <= k < |procs| && procs[k].stdin != null ==> fresh(procs[k].stdin)
      invariant DistinctStdins(procs)
    {
      StartedCommandsSnoc(cmds, host, behaviour, i);
      var rp := LaunchOne(cmds[i], behaviour[i], host, extraArgs, environ, pipeStdout, pipeStdin);
      if rp.None? {
        success := false;
        continue;
      }
      var w := RunOutcome(behaviour[i]).NoError?;
      AllTrueSnoc(waitOk, w);
      RecordsSnoc(procs, rp.value, host, extraArgs, environ, pipeStdout, pipeStdin);
      procs := procs + [rp.value];
      waitOk := waitOk + [w];
    }
    assert cmds[..|cmds|] == cmds && behaviour[..|behaviour|] == behaviour;
  }

  /** runParallel, with every started process run to completion and the
      stdin fan-out (when on) taken to end of input before the waits. The
      record's stdin handle is the writer (see ProcStdinAsWritten). */
  method RunParallel(instr: Instructions, host: Host, extraArgs: seq<string>, environ: seq<string>,
                     behaviour: seq<Process>, stdinLines: seq<string>)
    returns (procs: seq<RunningProc>, success: bool)
    requires |behaviour| == |instr.commands|
    ensures success <==> forall i :: 0 <= i < |behaviour| ==> Succeeds(host, behaviour[i])
    ensures success == ParallelFold(host, behaviour)
    ensures Blobs(procs) == StartedCommands(instr.commands, host, behaviour)
    ensures forall k :: 0 <= k < |procs| ==> Built(procs[k], host, extraArgs, environ, instr.bufferOutput)
    ensures forall k :: 0 <= k < |procs| ==> (instr.forwardStdin <==> procs[k].cmd.stdin.Some?)
    ensures instr.forwardStdin ==> forall k :: 0 <= k < |procs| ==>
      procs[k].stdin == procs[k].cmd.stdin.value.writeEnd &&
      procs[k].stdin.log == Newlined(stdinLines) && procs[k].stdin.closes == 1
    ensures !instr.forwardStdin ==> forall k :: 0 <= k < |procs| ==> procs[k].stdin == null
  {
    ParallelFoldAll(host, behaviour);
    var waitOk;
    procs, waitOk, success := LaunchAll(instr, host, extraArgs, environ, behaviour);

    if instr.forwardStdin {
      ForwardStdin(stdinLines, procs);
    }

    ghost var launchedOk := success;
    for k := 0 to |procs|
      invariant success <==> launchedOk && forall k' :: 0 <= k' < k ==> waitOk[k']
    {
      if !waitOk[k] {
        success := false;
      }
    }
  }
}
