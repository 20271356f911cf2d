/** `launchctl bsexec <token> prog...`: resolve the token to a bootstrap
    port, install it as its Mach task's own, drop group and then user privilege,
    then run the program and wait for it. The process is a `Process` object
    whose methods follow the C code step by step; `RunBsExec` is what the
    whole command computes, and the lemmas below state what it promises. */
module Bsexec {
  import opened Mach
  import opened CLib
  import opened WaitStatusWord
  import opened Resolver
  import opened Spawn

  /** The exit code of `bsexec`, the process state it leaves, and its effects. */
  datatype Run = Run(rc: int, state: TaskState, effects: seq<Effect>)

  /** The command's precondition: when it walks to the root, the chain of
      parents from the caller's bootstrap port is finite. */
  ghost predicate RootWalkEnds(k: Kernel, bootstrap: Port, argv: seq<string>) {
    |argv| >= 3 && argv[1] == "/" ==> RootReachable(k.parent, bootstrap)
  }

  /** `bsexec(argc, argv)` with `argc == |argv|`, run by a process whose
      `bootstrap_port` is `bootstrap`, whose real group and user ids are
      `rgid` and `ruid`, and whose changeable state is `c`. */
  ghost function RunBsExec(k: Kernel, bootstrap: Port, rgid: int, ruid: int, c: TaskState, argv: seq<string>): Run
    requires RootWalkEnds(k, bootstrap, argv)
  {
    if |argv| < 3 then Run(1, c, [Diagnostic(Usage)])
    else SwitchAndRun(k, rgid, ruid, c, argv[2..], Resolve(k, bootstrap, argv[1]))
  }

  /** The rest of `bsexec` once `str2bsport` has produced `res`: install
      its port whatever it is; if that works, drop privilege and run `prog`. */
  function SwitchAndRun(k: Kernel, rgid: int, ruid: int, c: TaskState, prog: seq<string>, res: Resolution): Run
    requires |prog| > 0
  {
    var installing := res.effects + [InstallBootstrap(res.port)];
    var kr := k.setBootstrap(res.port);
    if kr != KernSuccess then Run(1, c, installing + [Diagnostic(SwitchFailed(kr))])
    else
      var ran := DropAndRun(k, rgid, ruid, c.(bootstrap := res.port), prog);
      Run(ran.rc, ran.state, installing + ran.effects)
  }

  /** The resolution's effects come first; the rest does not depend on them. */
  lemma SwitchAndRunAfter(k: Kernel, rgid: int, ruid: int, c: TaskState, prog: seq<string>, res: Resolution)
    requires |prog| > 0
    ensures var r := SwitchAndRun(k, rgid, ruid, c, prog, Resolution(res.port, []));
      SwitchAndRun(k, rgid, ruid, c, prog, res) == Run(r.rc, r.state, res.effects + r.effects)
  {
  }

  /** With enough arguments, `bsexec` is `str2bsport` followed by the rest,
      which sees only the port it produced. */
  lemma RunBsExecSplit(k: Kernel, bootstrap: Port, rgid: int, ruid: int, c: TaskState, argv: seq<string>)
    requires RootWalkEnds(k, bootstrap, argv) && |argv| >= 3
    ensures var res := Resolve(k, bootstrap, argv[1]);
      var r := SwitchAndRun(k, rgid, ruid, c, argv[2..], Resolution(res.port, []));
      RunBsExec(k, bootstrap, rgid, ruid, c, argv) == Run(r.rc, r.state, res.effects + r.effects)
  {
    SwitchAndRunAfter(k, rgid, ruid, c, argv[2..], Resolve(k, bootstrap, argv[1]));
  }

  /** The end of `bsexec`: `setgid(getgid())`, `setuid(getuid())`, then
      `fwexec` with a NULL status pointer, whose -1 becomes exit code 1. */
  function DropAndRun(k: Kernel, rgid: int, ruid: int, c: TaskState, prog: seq<string>): Run
    requires |prog| > 0
  {
    var started := Dropped(k, rgid, ruid, c);
    var spawned := ForkExecWait(k, prog, false, started);
    var ran := [SetGid(rgid), SetUid(ruid)] + spawned.effects;
    if spawned.pid == -1 then Run(1, started, ran + [Diagnostic(BsexecFailed)])
    else Run(0, started, ran)
  }

  /** The state after `setgid(getgid())` and then `setuid(getuid())`: each
      effective id becomes the real one when its call succeeds. */
  function Dropped(k: Kernel, rgid: int, ruid: int, c: TaskState): (d: TaskState)
    ensures d.bootstrap == c.bootstrap
    ensures d.egid == (if k.setgidOk then rgid else c.egid)
    ensures d.euid == (if k.setuidOk then ruid else c.euid)
  {
    var groupDropped := if k.setgidOk then c.(egid := rgid) else c;
    if k.setuidOk then groupDropped.(euid := ruid) else groupDropped
  }

  /** After the install: the group id is dropped, then the user id, then the
      process forks, and the program starts with the state the drops left.
      The exit code is 0 exactly when the child was reaped after exiting with
      status 0; a failure ends with its diagnostic, a success with the wait. */
  lemma DropAndRunShape(k: Kernel, rgid: int, ruid: int, c: TaskState, prog: seq<string>)
    requires |prog| > 0
    ensures var r := DropAndRun(k, rgid, ruid, c, prog);
      var started := Dropped(k, rgid, ruid, c);
      && r.state == started
      && |r.effects| >= 3
      && r.effects[0] == SetGid(rgid) && r.effects[1] == SetUid(ruid) && r.effects[2] == VFork
      && (k.vfork.Forked? ==> |r.effects| > 3 && r.effects[3] == Exec(prog, started))
      && (forall i :: 0 <= i < |r.effects| && r.effects[i].Exec? ==> r.effects[i] == Exec(prog, started))
      && (r.rc == 0 || r.rc == 1)
      && (r.rc == 0 <==> k.vfork.Forked? && k.waitOk && ChildStatus(k, prog) == Exited(ExitSuccess))
      && (r.rc == 1 <==> r.effects[|r.effects| - 1].Diagnostic?)
      && (r.rc == 0 ==> r.effects[|r.effects| - 1] == WaitPid(k.vfork.child))
  {
    ForkExecWaitWithoutStatus(k, prog, Dropped(k, rgid, ruid, c));
  }

  /** Whatever `str2bsport` produced, its port is installed right after its
      effects. */
  lemma InstallsAfterResolution(k: Kernel, rgid: int, ruid: int, c: TaskState, prog: seq<string>, res: Resolution)
    requires |prog| > 0
    ensures var e := SwitchAndRun(k, rgid, ruid, c, prog, res).effects;
      && |e| > |res.effects|
      && e[..|res.effects|] == res.effects
      && e[|res.effects|] == InstallBootstrap(res.port)
  {
  }

  /** A failed install ends the run with exit code 1, before any privilege
      change or fork, and leaves the state as it was. */
  lemma StopsWhenInstallFails(k: Kernel, rgid: int, ruid: int, c: TaskState, prog: seq<string>, res: Resolution)
    requires |prog| > 0 && OnlyResolution(res.effects)
    requires k.setBootstrap(res.port) != KernSuccess
    ensures var r := SwitchAndRun(k, rgid, ruid, c, prog, res);
      && r.rc == 1 && r.state == c
      && forall i :: 0 <= i < |r.effects| ==> !IsPrivilegeOrSpawnEffect(r.effects[i])
  {
  }

  /** After a successful install: group, then user, then fork. */
  lemma DropsAfterInstall(k: Kernel, rgid: int, ruid: int, c: TaskState, prog: seq<string>, res: Resolution)
    requires |prog| > 0 && OnlyResolution(res.effects)
    requires k.setBootstrap(res.port) == KernSuccess
    ensures var e := SwitchAndRun(k, rgid, ruid, c, prog, res).effects;
      var i := |res.effects|;
      && i + 3 < |e|
      && e[i] == InstallBootstrap(res.port)
      && e[i + 1] == SetGid(rgid)
      && e[i + 2] == SetUid(ruid)
      && e[i + 3] == VFork
      && forall j :: 0 <= j < i ==> !IsPrivilegeOrSpawnEffect(e[j])
  {
  }

  /** After a successful install, the program starts with the installed port
      and the ids the drops left, and with nothing else. */
  lemma StartsWithDroppedState(k: Kernel, rgid: int, ruid: int, c: TaskState, prog: seq<string>, res: Resolution)
    requires |prog| > 0 && OnlyResolution(res.effects)
    requires k.setBootstrap(res.port) == KernSuccess
    ensures var r := SwitchAndRun(k, rgid, ruid, c, prog, res);
      var started := TaskState(res.port, if k.setgidOk then rgid else c.egid, if k.setuidOk then ruid else c.euid);
      && r.state == started
      && (k.vfork.Forked? ==> Exec(prog, started) in r.effects)
      && (forall i :: 0 <= i < |r.effects| && r.effects[i].Exec? ==> r.effects[i] == Exec(prog, started))
  {
  }

  /** Fewer than two arguments after the subcommand: exit code 1, a usage
      message, and no resolution, install, privilege change or fork. */
  lemma UsageError(k: Kernel, bootstrap: Port, rgid: int, ruid: int, c: TaskState, argv: seq<string>)
    requires |argv| < 3
    ensures RunBsExec(k, bootstrap, rgid, ruid, c, argv) == Run(1, c, [Diagnostic(Usage)])
  {
  }

  /** Whatever the token resolved to, failure port included, is handed to
      `task_set_bootstrap_port` right after the resolution's own effects:
      a failed resolution does not stop the command. */
  lemma InstallsResolvedPort(k: Kernel, bootstrap: Port, rgid: int, ruid: int, c: TaskState, argv: seq<string>)
    requires RootWalkEnds(k, bootstrap, argv) && |argv| >= 3
    ensures var res := Resolve(k, bootstrap, argv[1]);
      var e := RunBsExec(k, bootstrap, rgid, ruid, c, argv).effects;
      && |e| > |res.effects|
      && e[..|res.effects|] == res.effects
      && e[|res.effects|] == InstallBootstrap(res.port)
  {
    InstallsAfterResolution(k, rgid, ruid, c, argv[2..], Resolve(k, bootstrap, argv[1]));
  }

  /** If `task_set_bootstrap_port` fails, the command exits with 1 and
      neither changes privilege nor forks; the state is untouched. */
  lemma SwitchFailure(k: Kernel, bootstrap: Port, rgid: int, ruid: int, c: TaskState, argv: seq<string>)
    requires RootWalkEnds(k, bootstrap, argv) && |argv| >= 3
    requires k.setBootstrap(Resolve(k, bootstrap, argv[1]).port) != KernSuccess
    ensures var r := RunBsExec(k, bootstrap, rgid, ruid, c, argv);
      && r.rc == 1 && r.state == c
      && forall i :: 0 <= i < |r.effects| ==> !IsPrivilegeOrSpawnEffect(r.effects[i])
  {
    ResolveFailure(k, bootstrap, argv[1]);
    StopsWhenInstallFails(k, rgid, ruid, c, argv[2..], Resolve(k, bootstrap, argv[1]));
  }

  /** Once the port is installed, the group id is dropped, then the user id,
      then the process forks; nothing before the install changes privilege or
      forks. The results of `setgid` and `setuid` are not looked at. */
  lemma PrivilegeDropOrder(k: Kernel, bootstrap: Port, rgid: int, ruid: int, c: TaskState, argv: seq<string>)
    requires RootWalkEnds(k, bootstrap, argv) && |argv| >= 3
    requires k.setBootstrap(Resolve(k, bootstrap, argv[1]).port) == KernSuccess
    ensures var res := Resolve(k, bootstrap, argv[1]);
      var e := RunBsExec(k, bootstrap, rgid, ruid, c, argv).effects;
      var i := |res.effects|;
      && i + 3 < |e|
      && e[i] == InstallBootstrap(res.port)
      && e[i + 1] == SetGid(rgid)
      && e[i + 2] == SetUid(ruid)
      && e[i + 3] == VFork
      && forall j :: 0 <= j < i ==> !IsPrivilegeOrSpawnEffect(e[j])
  {
    ResolveFailure(k, bootstrap, argv[1]);
    DropsAfterInstall(k, rgid, ruid, c, argv[2..], Resolve(k, bootstrap, argv[1]));
  }

  /** The program starts (its `execvp` happens) with the installed port as
      its bootstrap port and with the effective ids the two drops left: the
      real ids when the calls succeeded, the old ones when they failed. */
  lemma ProgramStartsWithDroppedPrivilege(k: Kernel, bootstrap: Port, rgid: int, ruid: int, c: TaskState, argv: seq<string>)
    requires RootWalkEnds(k, bootstrap, argv) && |argv| >= 3
    requires k.setBootstrap(Resolve(k, bootstrap, argv[1]).port) == KernSuccess
    ensures var r := RunBsExec(k, bootstrap, rgid, ruid, c, argv);
      var started := TaskState(Resolve(k, bootstrap, argv[1]).port,
                           if k.setgidOk then rgid else c.egid,
                           if k.setuidOk then ruid else c.euid);
      && r.state == started
      && (k.vfork.Forked? ==> Exec(argv[2..], started) in r.effects)
      && (forall i :: 0 <= i < |r.effects| && r.effects[i].Exec? ==>
            r.effects[i] == Exec(argv[2..], started))
  {
    ResolveFailure(k, bootstrap, argv[1]);
    StartsWithDroppedState(k, rgid, ruid, c, argv[2..], Resolve(k, bootstrap, argv[1]));
  }

  /** `bsexec` exits with 0 or 1, and with 0 exactly when it installed the
      port, forked, reaped the child, and the child exited with status 0. */
  lemma ExitCode(k: Kernel, bootstrap: Port, rgid: int, ruid: int, c: TaskState, argv: seq<string>)
    requires RootWalkEnds(k, bootstrap, argv)
    ensures var r := RunBsExec(k, bootstrap, rgid, ruid, c, argv);
      && (r.rc == 0 || r.rc == 1)
      && (r.rc == 0 <==>
            && |argv| >= 3
            && k.setBootstrap(Resolve(k, bootstrap, argv[1]).port) == KernSuccess
            && k.vfork.Forked? && k.waitOk
            && ChildStatus(k, argv[2..]) == Exited(ExitSuccess))
  {
    if |argv| >= 3 {
      var res := Resolve(k, bootstrap, argv[1]);
      DropAndRunShape(k, rgid, ruid, c.(bootstrap := res.port), argv[2..]);
    }
  }

  /** A run with exit code 1 ends with the diagnostic that decided it and
      does nothing after it; a successful one ends by reaping the child. A
      failed `str2bsport` leaves a diagnostic earlier, and the run goes on. */
  lemma FailureIsLast(k: Kernel, bootstrap: Port, rgid: int, ruid: int, c: TaskState, argv: seq<string>)
    requires RootWalkEnds(k, bootstrap, argv)
    ensures var r := RunBsExec(k, bootstrap, rgid, ruid, c, argv);
      && r.effects != []
      && (r.rc == 1 <==> r.effects[|r.effects| - 1].Diagnostic?)
      && (r.rc == 0 ==> r.effects[|r.effects| - 1] == WaitPid(k.vfork.child))
  {
    if |argv| >= 3 {
      var res := Resolve(k, bootstrap, argv[1]);
      SwitchAndRunAfter(k, rgid, ruid, c, argv[2..], res);
      DropAndRunShape(k, rgid, ruid, c.(bootstrap := res.port), argv[2..]);
    }
  }

  /** A process running `bsexec`: the answers its kernel gives, its
      `bootstrap_port` and real ids (which nothing here changes), the state
      `bsexec` changes, and the trace of everything it has done. */
  class Process {
    const kernel: Kernel
    const bootstrapPort: Port
    const rgid: int
    const ruid: int
    var taskBootstrap: Port
    var egid: int
    var euid: int
    var trace: seq<Effect>

    function State(): TaskState
      reads this
    {
      TaskState(taskBootstrap, egid, euid)
    }

    constructor (kernel: Kernel, bootstrapPort: Port, rgid: int, ruid: int, egid: int, euid: int)
      ensures this.kernel == kernel && this.bootstrapPort == bootstrapPort
      ensures this.rgid == rgid && this.ruid == ruid
      ensures State() == TaskState(bootstrapPort, egid, euid) && trace == []
    {
      this.kernel := kernel;
      this.bootstrapPort := bootstrapPort;
      this.rgid := rgid;
      this.ruid := ruid;
      taskBootstrap := bootstrapPort;
      this.egid := egid;
      this.euid := euid;
      trace := [];
    }

    /** `str2bsport`. */
    method Str2BsPort(s: string) returns (port: Port)
      requires s == "/" ==> RootReachable(kernel.parent, bootstrapPort)
      modifies this`trace
      ensures port == Resolve(kernel, bootstrapPort, s).port
      ensures trace == old(trace) + Resolve(kernel, bootstrapPort, s).effects
    {
      var getRoot := s == "/";
      if s == ".." || getRoot {
        ghost var fuel: nat := 1;
        if getRoot {
          fuel :| ParentWalk(kernel.parent, bootstrapPort, true, fuel).Some?;
        }
        assert Resolve(kernel, bootstrapPort, s) == ParentWalk(kernel.parent, bootstrapPort, getRoot, fuel).value;
        port := WalkParents(getRoot, fuel, ParentWalk(kernel.parent, bootstrapPort, getRoot, fuel).value);
      } else if s == "0" || s == "NULL" {
        port := PortNull;
      } else {
        var pid := Atoi(s);
        assert Resolve(kernel, bootstrapPort, s) == PidPort(kernel, pid);
        port := PidBootstrapPort(pid);
      }
    }

    /** The last branch of `str2bsport`: the bootstrap port of the Mach task of
        process `pid`, through `task_for_pid` and `task_get_bootstrap_port`. */
    method PidBootstrapPort(pid: int) returns (port: Port)
      modifies this`trace
      ensures port == PidPort(kernel, pid).port
      ensures trace == old(trace) + PidPort(kernel, pid).effects
    {
      trace := trace + [TaskForPid(pid)];
      var task := kernel.taskForPid(pid);
      if task.kr != KernSuccess {
        trace := trace + [Diagnostic(TaskForPidFailed(task.kr))];
        return FailurePort;
      }
      trace := trace + [GetTaskBootstrap(task.out)];
      var reply := kernel.taskBootstrap(task.out);
      if reply.kr != KernSuccess {
        trace := trace + [Diagnostic(NoBootstrapPort(reply.kr))];
        return FailurePort;
      }
      port := reply.out;
    }

    /** The do-while loop of `str2bsport` for `".."` (one round) and `"/"`
        (rounds until a query returns the port it was asked about), started
        at `bootstrap_port`; `fuel` is any number of rounds that suffices. */
    method WalkParents(getRoot: bool, ghost fuel: nat, ghost walk: Resolution) returns (port: Port)
      requires WalkContinues(kernel.parent, bootstrapPort, getRoot, fuel, [], walk)
      modifies this`trace
      ensures port == walk.port && trace == old(trace) + walk.effects
    {
      ghost var left := fuel;
      ghost var done: seq<Effect> := [];
      var bport := bootstrapPort;
      var more := true;
      while more
        invariant trace == old(trace) + done
        invariant more ==> WalkContinues(kernel.parent, bport, getRoot, left, done, walk)
        invariant !more ==> walk == Resolution(bport, done)
        decreases left
      {
        var lastPort := bport;
        WalkAdvance(kernel.parent, lastPort, getRoot, left, done, walk);
        var ok;
        ok, bport := AskParent(lastPort);
        if !ok {
          return FailurePort;
        }
        more := getRoot && lastPort != bport;
        done := done + [QueryParent(lastPort)];
        left := left - 1;
      }
      return bport;
    }

    /** `bootstrap_parent(p, &bport)` and, when it fails, the complaint
        about it; `ok` tells whether `bport` holds the answer. */
    method AskParent(p: Port) returns (ok: bool, bport: Port)
      modifies this`trace
      ensures var reply := kernel.parent(p);
        && ok == (reply.kr == BootstrapSuccess)
        && (ok ==> bport == reply.out)
        && trace == old(trace) + [QueryParent(p)] + ParentComplaint(reply.kr)
    {
      trace := trace + [QueryParent(p)];
      var reply := kernel.parent(p);
      bport := reply.out;
      ok := reply.kr == BootstrapSuccess;
      if reply.kr == BootstrapNotPrivileged {
        trace := trace + [Diagnostic(PermissionDenied)];
      } else if reply.kr != BootstrapSuccess {
        trace := trace + [Diagnostic(ParentFailed(reply.kr))];
      }
    }

    /** `fwexec(argv, wstatus)`; `wantStatus` says whether `wstatus` is a
        real pointer, and `stored` is what ends up behind it. */
    method FwExec(argv: seq<string>, wantStatus: bool) returns (pid: int, stored: Option<nat>)
      requires |argv| > 0
      modifies this`trace
      ensures var r := ForkExecWait(kernel, argv, wantStatus, State());
        pid == r.pid && stored == r.stored && trace == old(trace) + r.effects
    {
      trace := trace + [VFork];
      match kernel.vfork {
        case ForkFails =>
          return -1, None;
        case Forked(child) =>
          // In the child: replace the image, or leave at once.
          trace := trace + [Exec(argv, State())];
          if kernel.exec(argv).ExecFails? {
            trace := trace + [ChildExit(ExitFailure)];
          }
          // In the parent, resumed once the child has exec'd or exited.
          trace := trace + [WaitPid(child)];
          if !kernel.waitOk {
            return -1, None;
          }
          var word := Encode(ChildStatus(kernel, argv));
          if wantStatus {
            return child, Some(word);
          } else if WIfExited(word) && WExitStatus(word) == ExitSuccess {
            return child, None;
          }
          return -1, None;
      }
    }

    /** `bsexec(argc, argv)`. */
    method BsExec(argv: seq<string>) returns (rc: int)
      requires RootWalkEnds(kernel, bootstrapPort, argv)
      modifies this
      ensures var r := RunBsExec(kernel, bootstrapPort, rgid, ruid, old(State()), argv);
        Run(rc, State(), trace) == Run(r.rc, r.state, old(trace) + r.effects)
    {
      if |argv| < 3 {
        trace := trace + [Diagnostic(Usage)];
        return 1;
      }
      RunBsExecSplit(kernel, bootstrapPort, rgid, ruid, State(), argv);
      rc := ResolveAndRun(argv[1], argv[2..]);
    }

    /** `bsexec` once the argument count is known to be enough: resolve
        `token`, then install the port and run `prog`. */
    method ResolveAndRun(token: string, prog: seq<string>) returns (rc: int)
      requires token == "/" ==> RootReachable(kernel.parent, bootstrapPort)
      requires |prog| > 0
      modifies this
      ensures var res := Resolve(kernel, bootstrapPort, token);
        var r := SwitchAndRun(kernel, rgid, ruid, old(State()), prog, Resolution(res.port, []));
        Run(rc, State(), trace) == Run(r.rc, r.state, old(trace) + res.effects + r.effects)
    {
      var bport := Str2BsPort(token);
      rc := InstallAndRun(bport, prog);
    }

    /** The lines of `bsexec` after `str2bsport`: install `port` as its Mach task's
        bootstrap port; if that works, drop privilege and run `prog`. */
    method InstallAndRun(port: Port, prog: seq<string>) returns (rc: int)
      requires |prog| > 0
      modifies this
      ensures var r := SwitchAndRun(kernel, rgid, ruid, old(State()), prog, Resolution(port, []));
        rc == r.rc && State() == r.state && trace == old(trace) + r.effects
    {
      trace := trace + [InstallBootstrap(port)];
      var result := kernel.setBootstrap(port);
      if result != KernSuccess {
        trace := trace + [Diagnostic(SwitchFailed(result))];
        return 1;
      }
      taskBootstrap := port;
      rc := DropPrivilegeAndRun(prog);
    }

    /** Lines of `bsexec` after the install: drop the group id, then the
        user id, ignoring both results, then run the program. */
    method DropPrivilegeAndRun(prog: seq<string>) returns (rc: int)
      requires |prog| > 0
      modifies this
      ensures var r := DropAndRun(kernel, rgid, ruid, old(State()), prog);
        rc == r.rc && State() == r.state && trace == old(trace) + r.effects
    {
      ghost var started := Dropped(kernel, rgid, ruid, State());
      ghost var spawned := ForkExecWait(kernel, prog, false, started);
      assert DropAndRun(kernel, rgid, ruid, State(), prog) ==
        Run(if spawned.pid == -1 then 1 else 0, started,
            [SetGid(rgid), SetUid(ruid)] + spawned.effects + (if spawned.pid == -1 then [Diagnostic(BsexecFailed)] else []));
      DropPrivilege();
      var pid, _ := FwExec(prog, false);
      if pid == -1 {
        trace := trace + [Diagnostic(BsexecFailed)];
      }
      rc := if pid == -1 then 1 else 0;
    }

    /** `setgid(getgid())` then `setuid(getuid())`, whose results `bsexec`
        does not look at. */
    method DropPrivilege()
      modifies this
      ensures State() == Dropped(kernel, rgid, ruid, old(State()))
      ensures trace == old(trace) + [SetGid(rgid), SetUid(ruid)]
    {
      trace := trace + [SetGid(rgid)];
      if kernel.setgidOk {
        egid := rgid;
      }
      trace := trace + [SetUid(ruid)];
      if kernel.setuidOk {
        euid := ruid;
      }
    }
  }
}
