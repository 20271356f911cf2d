/** What `str2bsport` computes: the bootstrap port a token names, and the
    queries it makes to find it. Every failure gives `FailurePort` after one
    diagnostic. */
module Resolver {
  import opened Mach
  import opened CLib

  /** The port `str2bsport` returns, and the effects it leaves, in order. */
  datatype Resolution = Resolution(port: Port, effects: seq<Effect>)

  function Prepend(e: seq<Effect>, r: Option<Resolution>): Option<Resolution> {
    match r
    case None => None
    case Some(res) => Some(Resolution(res.port, e + res.effects))
  }

  /** The diagnostic `str2bsport` prints when `bootstrap_parent` answers
      `kr`: none on success. */
  function ParentComplaint(kr: KernReturn): (d: seq<Effect>)
    ensures |d| <= 1 && (d == [] <==> kr == BootstrapSuccess)
  {
    if kr == BootstrapNotPrivileged then [Diagnostic(PermissionDenied)]
    else if kr != BootstrapSuccess then [Diagnostic(ParentFailed(kr))]
    else []
  }

  /** The do-while loop of `str2bsport` started at port `p`, allowed at most
      `fuel` queries: None when the fuel runs out before the loop ends. Each
      round asks for the parent of the last result, and a failed query ends
      the walk with its complaint. With
      `toRoot` the loop goes on until a query hands back the port it was
      asked about; without it, it stops after one query. */
  function ParentWalk(parent: Port -> Reply<Port>, p: Port, toRoot: bool, fuel: nat): Option<Resolution>
    decreases fuel
  {
    if fuel == 0 then None
    else
      var reply := parent(p);
      if reply.kr != BootstrapSuccess then
        Some(Resolution(FailurePort, [QueryParent(p)] + ParentComplaint(reply.kr)))
      else if toRoot && p != reply.out then
        Prepend([QueryParent(p)], ParentWalk(parent, reply.out, toRoot, fuel - 1))
      else
        Some(Resolution(reply.out, [QueryParent(p)]))
  }

  /** The walk to the root ends: the chain of parents from `p` is finite (it
      reaches a port that is its own parent, or a query that fails). */
  ghost predicate RootReachable(parent: Port -> Reply<Port>, p: Port) {
    exists fuel: nat :: ParentWalk(parent, p, true, fuel).Some?
  }

  /** The walk `walk` is under way: `done` has been asked already, and the
      rest is the walk from `p` with `fuel` rounds left. */
  ghost predicate WalkContinues(parent: Port -> Reply<Port>, p: Port, toRoot: bool, fuel: nat,
                                done: seq<Effect>, walk: Resolution) {
    var rest := ParentWalk(parent, p, toRoot, fuel);
    rest.Some? && walk == Resolution(rest.value.port, done + rest.value.effects)
  }

  /** One round of the walk: ask about `p`, then stop with a diagnostic,
      go on from the answer, or stop at the answer. */
  lemma WalkAdvance(parent: Port -> Reply<Port>, p: Port, toRoot: bool, fuel: nat,
                    done: seq<Effect>, walk: Resolution)
    requires WalkContinues(parent, p, toRoot, fuel, done, walk)
    ensures fuel > 0
    ensures var reply := parent(p);
      var asked := done + [QueryParent(p)];
      && (reply.kr != BootstrapSuccess ==>
            walk == Resolution(FailurePort, asked + ParentComplaint(reply.kr)))
      && (reply.kr == BootstrapSuccess && toRoot && p != reply.out ==>
            WalkContinues(parent, reply.out, toRoot, fuel - 1, asked, walk))
      && (reply.kr == BootstrapSuccess && !(toRoot && p != reply.out) ==>
            walk == Resolution(reply.out, asked))
  {
    var reply := parent(p);
    if reply.kr == BootstrapSuccess && toRoot && p != reply.out {
      var rest := ParentWalk(parent, reply.out, toRoot, fuel - 1).value;
      assert done + ([QueryParent(p)] + rest.effects) == done + [QueryParent(p)] + rest.effects;
    }
  }

  /** Once the walk has ended, more fuel changes nothing. */
  lemma {:induction false} WalkFuelMonotone(parent: Port -> Reply<Port>, p: Port, toRoot: bool, n: nat, m: nat)
    requires n <= m && ParentWalk(parent, p, toRoot, n).Some?
    ensures ParentWalk(parent, p, toRoot, m) == ParentWalk(parent, p, toRoot, n)
    decreases n
  {
    var reply := parent(p);
    if reply.kr == BootstrapSuccess && toRoot && p != reply.out {
      WalkFuelMonotone(parent, reply.out, toRoot, n - 1, m - 1);
    }
  }

  /** Every amount of fuel that suffices gives the same walk. */
  lemma WalksAgree(parent: Port -> Reply<Port>, p: Port, toRoot: bool, n: nat)
    requires ParentWalk(parent, p, toRoot, n).Some?
    ensures forall m: nat :: ParentWalk(parent, p, toRoot, m).Some? ==>
      ParentWalk(parent, p, toRoot, m) == ParentWalk(parent, p, toRoot, n)
  {
    forall m: nat | ParentWalk(parent, p, toRoot, m).Some?
      ensures ParentWalk(parent, p, toRoot, m) == ParentWalk(parent, p, toRoot, n)
    {
      if n <= m {
        WalkFuelMonotone(parent, p, toRoot, n, m);
      } else {
        WalkFuelMonotone(parent, p, toRoot, m, n);
      }
    }
  }

  /** The walk from `p` to the root, on a finite chain. */
  ghost function RootWalk(parent: Port -> Reply<Port>, p: Port): (r: Resolution)
    requires RootReachable(parent, p)
    ensures forall fuel: nat :: ParentWalk(parent, p, true, fuel).Some? ==>
      ParentWalk(parent, p, true, fuel) == Some(r)
  {
    var fuel: nat :| ParentWalk(parent, p, true, fuel).Some?;
    WalksAgree(parent, p, true, fuel);
    ParentWalk(parent, p, true, fuel).value
  }

  /** The effects of a finished walk: a run of parent queries, each asking
      about the port the previous one returned, ended either by a diagnostic
      (then the result is `FailurePort`) or by a successful query. When
      walking to the root, the last successful query returned the port it
      was asked about, and that fixed point is the result; otherwise there is
      exactly one query. */
  lemma {:induction false} WalkShape(parent: Port -> Reply<Port>, p: Port, toRoot: bool, fuel: nat)
    requires ParentWalk(parent, p, toRoot, fuel).Some?
    ensures var r := ParentWalk(parent, p, toRoot, fuel).value;
      var e := r.effects;
      && |e| >= 1 && e[0] == QueryParent(p)
      && (forall i :: 0 <= i < |e| - 1 ==> e[i].QueryParent?)
      && (forall i :: 1 <= i < |e| && e[i].QueryParent? ==>
            toRoot && e[i - 1].QueryParent? && e[i - 1].port != e[i].port &&
            parent(e[i - 1].port) == Reply(BootstrapSuccess, e[i].port))
      && (e[|e| - 1].Diagnostic? ==>
            r.port == FailurePort && |e| >= 2 && parent(e[|e| - 2].port).kr != BootstrapSuccess)
      && (!e[|e| - 1].Diagnostic? ==>
            e[|e| - 1].QueryParent? && parent(e[|e| - 1].port) == Reply(BootstrapSuccess, r.port) &&
            (toRoot ==> r.port == e[|e| - 1].port))
      && (!toRoot ==> |e| <= 2)
    decreases fuel
  {
    var reply := parent(p);
    if reply.kr == BootstrapSuccess && toRoot && p != reply.out {
      WalkShape(parent, reply.out, toRoot, fuel - 1);
      var tail := ParentWalk(parent, reply.out, toRoot, fuel - 1).value.effects;
      var e := ParentWalk(parent, p, toRoot, fuel).value.effects;
      assert e == [QueryParent(p)] + tail;
      forall i | 1 <= i < |e| && e[i].QueryParent?
        ensures toRoot && e[i - 1].QueryParent? && e[i - 1].port != e[i].port &&
          parent(e[i - 1].port) == Reply(BootstrapSuccess, e[i].port)
      {
        assert e[i] == tail[i - 1];
        if i >= 2 {
          assert e[i - 1] == tail[i - 2];
        }
      }
    }
  }

  /** Walking from a port whose parent is a different port reaches the same
      root as walking from that parent, one query later. */
  lemma RootWalkStep(parent: Port -> Reply<Port>, p: Port)
    requires RootReachable(parent, p)
    requires parent(p).kr == BootstrapSuccess && parent(p).out != p
    ensures RootReachable(parent, parent(p).out)
    ensures RootWalk(parent, p) ==
      Resolution(RootWalk(parent, parent(p).out).port, [QueryParent(p)] + RootWalk(parent, parent(p).out).effects)
  {
    var fuel: nat :| ParentWalk(parent, p, true, fuel).Some?;
    assert ParentWalk(parent, parent(p).out, true, fuel - 1).Some?;
  }

  /** At the root the walk costs one query and returns the root itself. */
  lemma RootWalkAtRoot(parent: Port -> Reply<Port>, p: Port)
    requires parent(p) == Reply(BootstrapSuccess, p)
    ensures RootReachable(parent, p)
    ensures RootWalk(parent, p) == Resolution(p, [QueryParent(p)])
  {
    assert ParentWalk(parent, p, true, 1).Some?;
  }

  /** Walking to the root is idempotent: walking again from the port the
      walk found returns that same port, after a single query. */
  lemma RootWalkIdempotent(parent: Port -> Reply<Port>, p: Port)
    requires RootReachable(parent, p)
    requires !RootWalk(parent, p).effects[|RootWalk(parent, p).effects| - 1].Diagnostic?
    ensures var root := RootWalk(parent, p).port;
      RootReachable(parent, root) && RootWalk(parent, root) == Resolution(root, [QueryParent(root)])
  {
    var fuel: nat :| ParentWalk(parent, p, true, fuel).Some?;
    WalkShape(parent, p, true, fuel);
    RootWalkAtRoot(parent, RootWalk(parent, p).port);
  }

  /** On two ports that are each other's parent the walk to the root never
      ends, whatever the fuel: the loop of `str2bsport` spins forever. */
  lemma {:induction false} CycleNeverEnds(parent: Port -> Reply<Port>, a: Port, b: Port, fuel: nat)
    requires a != b
    requires parent(a) == Reply(BootstrapSuccess, b) && parent(b) == Reply(BootstrapSuccess, a)
    ensures ParentWalk(parent, a, true, fuel) == None
    decreases fuel
  {
    if fuel > 1 {
      CycleNeverEnds(parent, a, b, fuel - 2);
    }
  }

  /** So the walk to the root ends only under an assumption about the
      chain of parents, which `RootReachable` states. */
  lemma CycleUnreachable(parent: Port -> Reply<Port>, a: Port, b: Port)
    requires a != b
    requires parent(a) == Reply(BootstrapSuccess, b) && parent(b) == Reply(BootstrapSuccess, a)
    ensures !RootReachable(parent, a)
  {
    forall fuel: nat
      ensures ParentWalk(parent, a, true, fuel) == None
    {
      CycleNeverEnds(parent, a, b, fuel);
    }
  }

  /** The port `task_get_bootstrap_port` reports for the Mach task of process
      `pid`, after `task_for_pid` has given that task. */
  function PidPort(k: Kernel, pid: int): (r: Resolution)
    ensures |r.effects| >= 1 && r.effects[0] == TaskForPid(pid)
  {
    var task := k.taskForPid(pid);
    if task.kr != KernSuccess then
      Resolution(FailurePort, [TaskForPid(pid), Diagnostic(TaskForPidFailed(task.kr))])
    else
      var port := k.taskBootstrap(task.out);
      if port.kr != KernSuccess then
        Resolution(FailurePort, [TaskForPid(pid), GetTaskBootstrap(task.out), Diagnostic(NoBootstrapPort(port.kr))])
      else
        Resolution(port.out, [TaskForPid(pid), GetTaskBootstrap(task.out)])
  }

  /** `str2bsport(s)` run by a process whose `bootstrap_port` is `start`. */
  ghost function Resolve(k: Kernel, start: Port, s: string): Resolution
    requires s == "/" ==> RootReachable(k.parent, start)
  {
    if s == "/" then RootWalk(k.parent, start)
    else if s == ".." then ParentWalk(k.parent, start, false, 1).value
    else if s == "0" || s == "NULL" then Resolution(PortNull, [])
    else PidPort(k, Atoi(s))
  }

  /** `".."` makes exactly one parent query, about the caller's own
      bootstrap port, and returns its answer, or the failure port. */
  lemma ResolveParent(k: Kernel, start: Port)
    ensures var r := Resolve(k, start, "..");
      var reply := k.parent(start);
      && r.effects[0] == QueryParent(start)
      && (forall i :: 1 <= i < |r.effects| ==> !r.effects[i].QueryParent?)
      && r.port == (if reply.kr == BootstrapSuccess then reply.out else FailurePort)
      && (reply.kr == BootstrapSuccess ==> r.effects == [QueryParent(start)])
      && (reply.kr == BootstrapNotPrivileged ==>
            r.effects == [QueryParent(start), Diagnostic(PermissionDenied)])
      && (reply.kr != BootstrapSuccess && reply.kr != BootstrapNotPrivileged ==>
            r.effects == [QueryParent(start), Diagnostic(ParentFailed(reply.kr))])
  {
  }

  /** `"/"` ends at a port that is its own parent, reached by asking each
      port in turn for its parent, starting with the caller's own; every
      query but the last returned a different port, so the root is asked
      about once. Or a query fails, and the walk ends right after it with
      the failure port and a diagnostic. */
  lemma ResolveRoot(k: Kernel, start: Port)
    requires RootReachable(k.parent, start)
    ensures var r := Resolve(k, start, "/");
      var e := r.effects;
      && |e| >= 1 && e[0] == QueryParent(start)
      && (forall i :: 1 <= i < |e| && e[i].QueryParent? ==>
            e[i - 1].QueryParent? && e[i - 1].port != e[i].port &&
            k.parent(e[i - 1].port) == Reply(BootstrapSuccess, e[i].port))
      && (e[|e| - 1].Diagnostic? ==>
            r.port == FailurePort && |e| >= 2 && e[|e| - 2].QueryParent? &&
            k.parent(e[|e| - 2].port).kr != BootstrapSuccess)
      && (!e[|e| - 1].Diagnostic? ==>
            k.parent(r.port) == Reply(BootstrapSuccess, r.port) && e[|e| - 1] == QueryParent(r.port))
  {
    var fuel: nat :| ParentWalk(k.parent, start, true, fuel).Some?;
    WalkShape(k.parent, start, true, fuel);
  }

  /** `"0"` and `"NULL"` give the null port without any query. */
  lemma ResolveNull(k: Kernel, start: Port, s: string)
    requires s == "0" || s == "NULL"
    ensures Resolve(k, start, s) == Resolution(PortNull, [])
  {
  }

  /** Any other token is read with `atoi` and looked up as a process id; a
      token that does not start like a number is process id 0. */
  lemma ResolvePid(k: Kernel, start: Port, s: string)
    requires s != "/" && s != ".." && s != "0" && s != "NULL"
    ensures Resolve(k, start, s) == PidPort(k, Atoi(s))
    ensures Resolve(k, start, s).effects[0] == TaskForPid(Atoi(s))
    ensures s != [] && !IsSpace(s[0]) && !IsDigit(s[0]) && s[0] != '-' && s[0] != '+' ==>
      Resolve(k, start, s) == PidPort(k, 0)
  {
  }

  /** What the process-id lookup yields: the bootstrap port of the task of
      `pid`, or the failure port, after the matching diagnostic, when
      `task_for_pid` or `task_get_bootstrap_port` refuses. */
  lemma PidPortOutcome(k: Kernel, pid: int)
    ensures var r := PidPort(k, pid);
      var task := k.taskForPid(pid);
      var port := k.taskBootstrap(task.out);
      && (task.kr != KernSuccess ==>
            r == Resolution(FailurePort, [TaskForPid(pid), Diagnostic(TaskForPidFailed(task.kr))]))
      && (task.kr == KernSuccess && port.kr != KernSuccess ==>
            r == Resolution(FailurePort, [TaskForPid(pid), GetTaskBootstrap(task.out),
                                          Diagnostic(NoBootstrapPort(port.kr))]))
      && (task.kr == KernSuccess && port.kr == KernSuccess ==>
            r == Resolution(port.out, [TaskForPid(pid), GetTaskBootstrap(task.out)]))
  {
  }

  /** For every token that is not a marker, `"+5"`, `" 5"`, `"5x"`, `"-3"`
      and `"abc"` included, the result is what the lookup of the process id
      `atoi` reads yields: the task's bootstrap port after two calls, or the
      failure port after the diagnostic of the call that was refused. */
  lemma ResolveToken(k: Kernel, start: Port, s: string)
    requires s != "/" && s != ".." && s != "0" && s != "NULL"
    ensures var r := Resolve(k, start, s);
      var task := k.taskForPid(Atoi(s));
      var port := k.taskBootstrap(task.out);
      && (task.kr != KernSuccess ==>
            r == Resolution(FailurePort, [TaskForPid(Atoi(s)), Diagnostic(TaskForPidFailed(task.kr))]))
      && (task.kr == KernSuccess && port.kr != KernSuccess ==>
            r == Resolution(FailurePort, [TaskForPid(Atoi(s)), GetTaskBootstrap(task.out),
                                          Diagnostic(NoBootstrapPort(port.kr))]))
      && (task.kr == KernSuccess && port.kr == KernSuccess ==>
            r == Resolution(port.out, [TaskForPid(Atoi(s)), GetTaskBootstrap(task.out)]))
  {
    var pid := Atoi(s);
    ResolvePid(k, start, s);
    PidPortOutcome(k, pid);
  }

  /** The numeral of a positive process id resolves to the bootstrap port
      of that process's task, or to the failure port when either kernel
      call is refused. */
  lemma ResolveProcess(k: Kernel, start: Port, pid: nat)
    requires pid > 0
    ensures var r := Resolve(k, start, Decimal(pid));
      var task := k.taskForPid(pid);
      && r.effects[0] == TaskForPid(pid)
      && (task.kr != KernSuccess ==> r.port == FailurePort)
      && (task.kr == KernSuccess ==>
            var port := k.taskBootstrap(task.out);
            r.port == if port.kr == KernSuccess then port.out else FailurePort)
  {
    var s := Decimal(pid);
    assert IsDigit(s[0]);
    assert s != "/" && s != ".." && s != "NULL";
    AtoiDecimal(pid);
  }

  /** Effects that `str2bsport` alone may produce. */
  predicate OnlyResolution(effects: seq<Effect>) {
    forall i :: 0 <= i < |effects| ==> IsResolutionEffect(effects[i])
  }

  /** The form of every resolution: only queries and diagnostics, at most
      one diagnostic and only as the last effect, and a resolution that ends
      with a diagnostic has the failure port. */
  predicate Shaped(r: Resolution) {
    && OnlyResolution(r.effects)
    && (forall i :: 0 <= i < |r.effects| - 1 ==> !r.effects[i].Diagnostic?)
    && (r.effects != [] && r.effects[|r.effects| - 1].Diagnostic? ==> r.port == FailurePort)
  }

  lemma WalkShaped(parent: Port -> Reply<Port>, p: Port, toRoot: bool, fuel: nat)
    requires ParentWalk(parent, p, toRoot, fuel).Some?
    ensures Shaped(ParentWalk(parent, p, toRoot, fuel).value)
  {
    WalkShape(parent, p, toRoot, fuel);
  }

  lemma PidPortShaped(k: Kernel, pid: int)
    ensures Shaped(PidPort(k, pid))
  {
    PidPortOutcome(k, pid);
  }

  /** Every failure of `str2bsport` gives the failure port, after exactly
      one diagnostic, which is its last effect. Its effects are only
      queries and that diagnostic. */
  lemma ResolveFailure(k: Kernel, start: Port, s: string)
    requires s == "/" ==> RootReachable(k.parent, start)
    ensures Shaped(Resolve(k, start, s))
  {
    var r := Resolve(k, start, s);
    if s == "/" {
      var fuel: nat :| ParentWalk(k.parent, start, true, fuel).Some?;
      WalkShaped(k.parent, start, true, fuel);
      assert r == ParentWalk(k.parent, start, true, fuel).value;
    } else if s == ".." {
      WalkShaped(k.parent, start, false, 1);
    } else if s != "0" && s != "NULL" {
      ResolvePid(k, start, s);
      PidPortShaped(k, Atoi(s));
    }
  }

  /** The failure port is also a port a successful query can return: the
      caller cannot tell the two apart from the value alone. */
  lemma FailurePortIsAmbiguous(k: Kernel, start: Port)
    requires k.parent(start) == Reply(BootstrapSuccess, FailurePort)
    ensures Resolve(k, start, "..").port == FailurePort
    ensures forall i :: 0 <= i < |Resolve(k, start, "..").effects| ==> !Resolve(k, start, "..").effects[i].Diagnostic?
  {
  }
}
