/** The serial executor: commands run one after another in declared order. */
module Serial {
  import opened Types
  import opened Launch

  /** With keep-going off, this command ends the run with failure: its
      launch fails, or running it yields an ExitError. A start failure or
      another wait error does not. */
  predicate Halts(host: Host, p: Process)
  {
    LaunchFails(host) || RunOutcome(p).ExitError?
  }

  /** The index of the first command that halts the run, or |behaviour|. */
  function FirstHalt(host: Host, behaviour: seq<Process>): (n: nat)
    ensures n <= |behaviour|
    ensures forall j :: 0 <= j < n ==> !Halts(host, behaviour[j])
    ensures n < |behaviour| ==> Halts(host, behaviour[n])
  {
    if |behaviour| == 0 then 0
    else if Halts(host, behaviour[0]) then 0
    else 1 + FirstHalt(host, behaviour[1..])
  }

  /** How many commands are attempted (their tag printed and their launch tried). */
  function AttemptCount(host: Host, behaviour: seq<Process>, keepGoing: bool): nat
  {
    if keepGoing then |behaviour|
    else var h := FirstHalt(host, behaviour); if h < |behaviour| then h + 1 else h
  }

  /** runSerial's answer: always true with keep-going, otherwise true iff no command halts. */
  predicate SerialOk(host: Host, behaviour: seq<Process>, keepGoing: bool)
  {
    keepGoing || FirstHalt(host, behaviour) == |behaviour|
  }

  /** What the executor prints for the attempted commands `cmds`. */
  function Shown(printCommand: bool, cmds: seq<CommandBlob>): (r: seq<string>)
    ensures |r| == if printCommand then |cmds| else 0
    ensures printCommand ==> forall i :: 0 <= i < |cmds| ==> r[i] == cmds[i].tag
  {
    if printCommand then seq(|cmds|, i requires 0 <= i < |cmds| => cmds[i].tag) else []
  }

  lemma ShownCons(printCommand: bool, c: CommandBlob, cmds: seq<CommandBlob>)
    ensures Shown(printCommand, [c] + cmds) ==
            (if printCommand then [c.tag] else []) + Shown(printCommand, cmds)
  {
    if printCommand {
      var l, r := Shown(true, [c] + cmds), [c.tag] + Shown(true, cmds);
      forall i | 0 <= i < |l| ensures l[i] == r[i] {
        if i > 0 { assert ([c] + cmds)[i] == cmds[i - 1]; }
      }
      assert l == r;
    }
  }

  lemma ShownSnoc(printCommand: bool, cmds: seq<CommandBlob>, c: CommandBlob)
    ensures Shown(printCommand, cmds + [c]) ==
            Shown(printCommand, cmds) + (if printCommand then [c.tag] else [])
  {
    if printCommand {
      var l, r := Shown(true, cmds + [c]), Shown(true, cmds) + [c.tag];
      forall i | 0 <= i < |l| ensures l[i] == r[i] {
        if i < |cmds| { assert (cmds + [c])[i] == cmds[i]; }
      }
      assert l == r;
    }
  }

  datatype SerialResult = SerialResult(attempted: seq<CommandBlob>, printed: seq<string>, ok: bool)

  /** The executor as a state machine, one command per step: Running(i)
      goes on to Running(i + 1), or is Aborted, or the run is Completed. */
  function SerialSpec(cmds: seq<CommandBlob>, host: Host, behaviour: seq<Process>,
                      printCommand: bool, keepGoing: bool): SerialResult
    requires |behaviour| == |cmds|
  {
    if |cmds| == 0 then SerialResult([], [], true)
    else
      var shown := if printCommand then [cmds[0].tag] else [];
      if !keepGoing && Halts(host, behaviour[0]) then SerialResult([cmds[0]], shown, false)
      else
        var rest := SerialSpec(cmds[1..], host, behaviour[1..], printCommand, keepGoing);
        SerialResult([cmds[0]] + rest.attempted, shown + rest.printed, rest.ok)
  }

  /** The state machine attempts a prefix of the commands, prints exactly
      their tags, and answers SerialOk. */
  lemma {:induction false} SerialSpecClosedForm(cmds: seq<CommandBlob>, host: Host, behaviour: seq<Process>,
                                                printCommand: bool, keepGoing: bool)
    requires |behaviour| == |cmds|
    ensures SerialSpec(cmds, host, behaviour, printCommand, keepGoing) ==
      SerialResult(cmds[..AttemptCount(host, behaviour, keepGoing)],
                   Shown(printCommand, cmds[..AttemptCount(host, behaviour, keepGoing)]),
                   SerialOk(host, behaviour, keepGoing))
  {
    if |cmds| == 0 {
    } else if !keepGoing && Halts(host, behaviour[0]) {
      assert AttemptCount(host, behaviour, keepGoing) == 1;
      assert cmds[..1] == [cmds[0]];
      ShownCons(printCommand, cmds[0], []);
    } else {
      var tail, btail := cmds[1..], behaviour[1..];
      SerialSpecClosedForm(tail, host, btail, printCommand, keepGoing);
      var m := AttemptCount(host, btail, keepGoing);
      assert AttemptCount(host, behaviour, keepGoing) == m + 1;
      assert SerialOk(host, behaviour, keepGoing) == SerialOk(host, btail, keepGoing);
      assert cmds[..m + 1] == [cmds[0]] + tail[..m];
      ShownCons(printCommand, cmds[0], tail[..m]);
    }
  }

  /** With keep-going off, the run stops at the first halting command: it
      and every command before it are attempted, none after it, and the
      answer is false. */
  lemma FailFast(host: Host, behaviour: seq<Process>, i: nat)
    requires i < |behaviour| && Halts(host, behaviour[i])
    requires forall j :: 0 <= j < i ==> !Halts(host, behaviour[j])
    ensures AttemptCount(host, behaviour, false) == i + 1
    ensures !SerialOk(host, behaviour, false)
  {
  }

  /** With keep-going on, every command is attempted and the answer is true,
      whatever the commands do. */
  lemma KeepGoingRunsAll(host: Host, behaviour: seq<Process>)
    ensures AttemptCount(host, behaviour, true) == |behaviour|
    ensures SerialOk(host, behaviour, true)
  {
  }

  /** The commands `launched` were built for the blobs `attempted`, one
      each, in order, with the extra args, the parent environment and the
      child's stdout and stdin left to the parent; or no command was built
      because the launch fails on this host. */
  ghost predicate BuiltSerially(launched: seq<Cmd>, attempted: seq<CommandBlob>, host: Host,
                                extraArgs: seq<string>, environ: seq<string>)
  {
    if LaunchFails(host) then launched == []
    else
      |launched| == |attempted| &&
      forall k :: 0 <= k < |launched| ==>
        Builds(launched[k], attempted[k], Interpreter(host), extraArgs, environ, false) &&
        launched[k].stdin == None
  }

  /** One more attempted command, built as launchCommand promises. */
  lemma BuiltSeriallySnoc(launched: seq<Cmd>, attempted: seq<CommandBlob>, c: Cmd, b: CommandBlob,
                          host: Host, extraArgs: seq<string>, environ: seq<string>)
    requires BuiltSerially(launched, attempted, host, extraArgs, environ)
    requires !LaunchFails(host)
    requires Builds(c, b, Interpreter(host), extraArgs, environ, false) && c.stdin == None
    ensures BuiltSerially(launched + [c], attempted + [b], host, extraArgs, environ)
  {
    var l, a := launched + [c], attempted + [b];
    forall k | 0 <= k < |l|
      ensures Builds(l[k], a[k], Interpreter(host), extraArgs, environ, false) && l[k].stdin == None
    {
      if k < |launched| { assert l[k] == launched[k] && a[k] == attempted[k]; }
    }
  }

  /** runSerial. Only the launch error of each command is taken from
      launchCommand; the rest of its fate is `behaviour`. `launched` holds
      the commands that were built and handed to `cmd.Run`. */
  method RunSerial(instr: Instructions, host: Host, extraArgs: seq<string>,
                   environ: seq<string>, behaviour: seq<Process>)
    returns (attempted: seq<CommandBlob>, launched: seq<Cmd>, printed: seq<string>, ok: bool)
    requires |behaviour| == |instr.commands|
    ensures attempted == instr.commands[..AttemptCount(host, behaviour, instr.keepGoing)]
    ensures BuiltSerially(launched, attempted, host, extraArgs, environ)
    ensures printed == Shown(instr.printCommand, attempted)
    ensures ok == SerialOk(host, behaviour, instr.keepGoing)
    ensures SerialResult(attempted, printed, ok) ==
            SerialSpec(instr.commands, host, behaviour, instr.printCommand, instr.keepGoing)
  {
    SerialSpecClosedForm(instr.commands, host, behaviour, instr.printCommand, instr.keepGoing);
    var cmds := instr.commands;
    attempted, launched, printed := [], [], [];
    for i := 0 to |cmds|
      invariant attempted == cmds[..i]
      invariant BuiltSerially(launched, attempted, host, extraArgs, environ)
      invariant printed == Shown(instr.printCommand, cmds[..i])
      invariant !instr.keepGoing ==> forall j :: 0 <= j < i ==> !Halts(host, behaviour[j])
    {
      var blob := cmds[i];
      assert cmds[..i + 1] == cmds[..i] + [blob];
      ShownSnoc(instr.printCommand, cmds[..i], blob);
      if instr.printCommand {
        printed := printed + [blob.tag];
      }
      var built := LaunchCommand(blob, host, extraArgs, environ, false, false);
      if built.Err? {
        attempted := attempted + [blob];
        if !instr.keepGoing {
          ok := false;
          return;
        }
        continue;
      }
      BuiltSeriallySnoc(launched, attempted, built.value.cmd, blob, host, extraArgs, environ);
      launched, attempted := launched + [built.value.cmd], attempted + [blob];
      var err := RunOutcome(behaviour[i]);
      if err.ExitError? {
        if !instr.keepGoing {
          ok := false;
          return;
        }
        if err.code != 0 {
          continue;
        }
      }
    }
    ok := true;
  }
}
