/** What `fwexec` computes: fork with `vfork`, replace the child's image
    with `execvp` (or end the child with `_exit(EXIT_FAILURE)`), wait for
    the child, and turn what happened into a process id or -1. */
module Spawn {
  import opened Mach
  import opened WaitStatusWord

  /** The value `fwexec` returns, what it stores through its `wstatus`
      pointer (None: nothing stored, or no pointer), and its effects. */
  datatype Spawned = Spawned(pid: int, stored: Option<nat>, effects: seq<Effect>)

  /** How the child ends: a failed `execvp` is followed by
      `_exit(EXIT_FAILURE)`; otherwise the new image ends as it ends. */
  function ChildStatus(k: Kernel, argv: seq<string>): (ws: WaitStatus)
    ensures k.exec(argv).ExecFails? ==> ws == Exited(ExitFailure)
  {
    match k.exec(argv)
    case ExecFails => Exited(ExitFailure)
    case Runs(status) => status
  }

  /** `fwexec(argv, wstatus)` with `wantStatus` telling whether `wstatus` is
      a real pointer; `c` is the process state the child inherits. The child
      does nothing but call `execvp` and, if that fails, `_exit`. */
  function ForkExecWait(k: Kernel, argv: seq<string>, wantStatus: bool, c: TaskState): Spawned
    requires |argv| > 0
  {
    match k.vfork
    case ForkFails => Spawned(-1, None, [VFork])
    case Forked(child) =>
      var effects :=
        if k.exec(argv).ExecFails? then [VFork, Exec(argv, c), ChildExit(ExitFailure), WaitPid(child)]
        else [VFork, Exec(argv, c), WaitPid(child)];
      if !k.waitOk then Spawned(-1, None, effects)
      else Reaped(child, Encode(ChildStatus(k, argv)), wantStatus, effects)
  }

  /** What `fwexec` returns and stores once `waitpid` has reaped `child`
      with status `word`. */
  function Reaped(child: ChildPid, word: nat, wantStatus: bool, effects: seq<Effect>): Spawned {
    if wantStatus then Spawned(child, Some(word), effects)
    else if WIfExited(word) && WExitStatus(word) == ExitSuccess then Spawned(child, None, effects)
    else Spawned(-1, None, effects)
  }

  /** With a NULL status pointer (as `bsexec` calls it), `fwexec` returns
      the child's id exactly when the fork and the wait succeeded and the
      child exited with status 0; otherwise -1. A failed `execvp`, a
      non-zero exit and a signal all give -1. */
  lemma ForkExecWaitWithoutStatus(k: Kernel, argv: seq<string>, c: TaskState)
    requires |argv| > 0
    ensures var r := ForkExecWait(k, argv, false, c);
      && (r.pid != -1 <==> k.vfork.Forked? && k.waitOk && ChildStatus(k, argv) == Exited(ExitSuccess))
      && (r.pid != -1 ==> r.pid == k.vfork.child)
      && r.stored == None
      && (k.exec(argv).ExecFails? ==> r.pid == -1)
  {
    ExitedSuccessfully(ChildStatus(k, argv));
  }

  /** With a status pointer, `fwexec` returns the child's id for any child
      it reaped, and the word it stores reads back, through the wait macros,
      as exactly how the child ended. */
  lemma ForkExecWaitWithStatus(k: Kernel, argv: seq<string>, c: TaskState)
    requires |argv| > 0
    ensures var r := ForkExecWait(k, argv, true, c);
      && (r.pid != -1 <==> k.vfork.Forked? && k.waitOk)
      && (r.pid != -1 ==>
            && r.pid == k.vfork.child && r.stored.Some?
            && (WIfExited(r.stored.value) || WIfSignaled(r.stored.value))
            && Decode(r.stored.value) == ChildStatus(k, argv))
      && (r.pid == -1 ==> r.stored == None)
  {
    DecodeEncode(ChildStatus(k, argv));
  }

  /** Between the fork and the wait the child only replaces its image, with
      the arguments and state it was given, or exits with the failure code;
      the parent waits for exactly the child it forked. */
  lemma ChildOnlyExecsOrExits(k: Kernel, argv: seq<string>, wantStatus: bool, c: TaskState)
    requires |argv| > 0
    ensures var e := ForkExecWait(k, argv, wantStatus, c).effects;
      && e[0] == VFork
      && (k.vfork.ForkFails? ==> e == [VFork])
      && (k.vfork.Forked? ==>
            |e| >= 3 && e[1] == Exec(argv, c) && e[|e| - 1] == WaitPid(k.vfork.child) &&
            (forall i :: 2 <= i < |e| - 1 ==> e[i] == ChildExit(ExitFailure)))
  {
  }
}
