/** Records of started processes and the fan-out of the parent's standard
    input to them. Lines are what the line scanner yields, without their
    line terminator. */
module Stdin {
  import opened Types
  import opened Launch

  /** runningProc: the built command, its instructions entry, and the handle
      the fan-out writes to (null unless stdin is forwarded). */
  datatype RunningProc = RunningProc(cmd: Cmd, blob: CommandBlob, stdin: Handle?)

  /** Every line with its newline put back. */
  function Newlined(lines: seq<string>): (r: seq<string>)
    ensures |r| == |lines|
    ensures forall i :: 0 <= i < |lines| ==> r[i] == lines[i] + "\n"
  {
    seq(|lines|, i requires 0 <= i < |lines| => lines[i] + "\n")
  }

  lemma NewlinedSnoc(lines: seq<string>, k: nat)
    requires k < |lines|
    ensures Newlined(lines[..k + 1]) == Newlined(lines[..k]) + [lines[k] + "\n"]
  {
  }

  /** The non-null stdin handles of `procs`. */
  function Stdins(procs: seq<RunningProc>): set<Handle>
  {
    set i | 0 <= i < |procs| && procs[i].stdin != null :: procs[i].stdin
  }

  /** No two records share a stdin handle (each comes from its own pipe). */
  predicate DistinctStdins(procs: seq<RunningProc>)
  {
    forall i, j :: 0 <= i < j < |procs| && procs[i].stdin != null ==> procs[i].stdin != procs[j].stdin
  }

  /** forwardStdin: every line, newline appended, goes to every record with a
      stdin handle, line after line; once input ends each such handle is
      closed once. A record without a handle is left alone. */
  method ForwardStdin(lines: seq<string>, procs: seq<RunningProc>)
    requires DistinctStdins(procs)
    requires forall i :: 0 <= i < |procs| && procs[i].stdin != null ==> procs[i].stdin.closes == 0
    modifies Stdins(procs)
    ensures forall i :: 0 <= i < |procs| && procs[i].stdin != null ==>
      procs[i].stdin.log == old(procs[i].stdin.log) + Newlined(lines) &&
      procs[i].stdin.closes == old(procs[i].stdin.closes) + 1
  {
    var k := 0;
    while k < |lines|
      invariant 0 <= k <= |lines|
      invariant forall i :: 0 <= i < |procs| && procs[i].stdin != null ==>
        procs[i].stdin.log == old(procs[i].stdin.log) + Newlined(lines[..k]) &&
        procs[i].stdin.closes == old(procs[i].stdin.closes)
    {
      var line := lines[k] + "\n";
      NewlinedSnoc(lines, k);
      for j := 0 to |procs|
        invariant forall i :: 0 <= i < j && procs[i].stdin != null ==>
          procs[i].stdin.log == old(procs[i].stdin.log) + Newlined(lines[..k + 1]) &&
          procs[i].stdin.closes == old(procs[i].stdin.closes)
        invariant forall i :: j <= i < |procs| && procs[i].stdin != null ==>
          procs[i].stdin.log == old(procs[i].stdin.log) + Newlined(lines[..k]) &&
          procs[i].stdin.closes == old(procs[i].stdin.closes)
      {
        if procs[j].stdin != null {
          assert procs[j].stdin in Stdins(procs);
          procs[j].stdin.Write(line);
        }
      }
      k := k + 1;
    }
    assert lines[..k] == lines;
    for j := 0 to |procs|
      invariant forall i :: 0 <= i < j && procs[i].stdin != null ==>
        procs[i].stdin.log == old(procs[i].stdin.log) + Newlined(lines) &&
        procs[i].stdin.closes == old(procs[i].stdin.closes) + 1
      invariant forall i :: j <= i < |procs| && procs[i].stdin != null ==>
        procs[i].stdin.log == old(procs[i].stdin.log) + Newlined(lines) &&
        procs[i].stdin.closes == old(procs[i].stdin.closes)
    {
      if procs[j].stdin != null {
        assert procs[j].stdin in Stdins(procs);
        procs[j].stdin.Close();
      }
    }
  }
}
