# bsexec, modelled in Dafny

`launchctl bsexec <token> prog...` runs a program under the bootstrap
(service-registry) port of another scope. The work happens in three functions
of `bsexec.c`:

- `str2bsport` turns the token into a port:
  - `".."` asks once for the parent of the caller's bootstrap port;
  - `"/"` keeps asking for parents until a port is its own parent;
  - `"0"` and `"NULL"` give `MACH_PORT_NULL`;
  - anything else is read with `atoi` as a process id and looked up through
    `task_for_pid` and `task_get_bootstrap_port`;
  - every failure prints a diagnostic and returns the port name 1.
- `fwexec` forks with `vfork`. The child calls `execvp`, or `_exit(EXIT_FAILURE)`
  when that fails. The parent waits for the child and turns the outcome into a
  process id or -1.
- `bsexec` runs the whole command:
  - it checks the argument count;
  - it installs the resolved port with `task_set_bootstrap_port`;
  - it drops the effective group id, then the effective user id;
  - it runs the program with `fwexec` and maps the result to exit code 0 or 1.

The model is imperative, like the C code. A `Process` object holds:

- the answers its kernel gives (a `Kernel` record of oracle functions, one per
  Mach or POSIX call);
- the state `bsexec` changes: its Mach task's bootstrap port and the effective
  group and user ids;
- a `trace` of every kernel call, child action and diagnostic, in order.

Each C function is a method of `Process`, with a loop where the C code has
one. Each method is proved against a specification function:

| method | specification function |
|---|---|
| `Str2BsPort` | `Resolve` |
| `FwExec` | `ForkExecWait` |
| `BsExec` | `RunBsExec` |

The lemmas state what the command promises, as properties of those functions:

- which queries each token makes and which port it yields;
- that every failure yields the failure port after a single diagnostic;
- how `fwexec` reads the wait status;
- the order of install, privilege drop and fork;
- that nothing follows the diagnostic that makes the exit code 1;
- the exit code.

Files:

- `mach.dfy` holds the shared vocabulary: ports, return codes, the kernel
  oracle, effects.
- `wait_status.dfy` holds the wait-status word and the `WIFEXITED`-family
  macros.
- `atoi.dfy` holds the C library's `atoi`.
- `resolver.dfy` holds `str2bsport` as a function.
- `spawn.dfy` holds `fwexec` as a function.
- `bsexec.dfy` holds `bsexec` as a function, the `Process` class with its
  methods, and the lemmas about the whole command.

Three behaviours of the code are easy to miss, and the model keeps them:

- A failed resolution does not abort the command. The C code returns the
  port name 1 and `bsexec` hands it to `task_set_bootstrap_port` unchecked.
  `InstallsResolvedPort` and `FailurePortIsAmbiguous` state this.
- The walk to the root is not guaranteed to end. It stops at the first failed
  query, and on success only at a port that is its own parent, so on a cycle
  of two ports it runs forever.
  `CycleUnreachable` shows this. The model assumes a finite chain
  (`RootReachable`) instead of proving termination.
- A token that is not a marker is never used as a handle directly. It always
  goes through `atoi`, so a non-numeric token becomes process id 0.

## Model

| member | source | states |
|---|---|---|
| WaitStatusWord.Encode | bsexec.c:132 | the status word `waitpid` stores: the exit code times 256 for a child that exited, the signal number for one that was killed; it fits in sixteen bits |
| WaitStatusWord.WIfExited | bsexec.c:138 | `WIFEXITED`: the low seven bits of the word are zero |
| WaitStatusWord.WExitStatus | bsexec.c:138 | `WEXITSTATUS`: the eight bits above the low byte, so the low sixteen bits of the word are the exit code above the low byte |
| WaitStatusWord.WIfSignaled | bsexec.c:132-137 | `WIFSIGNALED`: the low seven bits are neither 0 nor 0177; no word reads both as exited and as killed |
| WaitStatusWord.WTermSig | bsexec.c:132-137 | `WTERMSIG`: the signal number in the low seven bits of the word |
| WaitStatusWord.Decode | bsexec.c:132-138 | how a caller of `fwexec` reads a stored word back: an exit with `WEXITSTATUS`, or a kill with `WTERMSIG` |
| WaitStatusWord.DecodeEncode | bsexec.c:132-138 | the status word `waitpid` stores for an exited or killed child satisfies exactly the matching `WIFEXITED`/`WIFSIGNALED` test, and the macros read it back as the same outcome |
| WaitStatusWord.ExitedSuccessfully | bsexec.c:138 | the test `WIFEXITED(s) && WEXITSTATUS(s) == EXIT_SUCCESS` holds exactly for a child that exited with code 0 |
| CLib.SkipSpace | bsexec.c:169 | `atoi` first drops a prefix of white space, the whole of it, and the rest does not start with white space |
| CLib.DigitPrefix | bsexec.c:169 | `atoi` reads the longest prefix of decimal digits |
| CLib.DigitsValue | bsexec.c:169 | the value of a run of decimal digits, most significant first; it is 0 exactly when every digit is `0` |
| CLib.Atoi | bsexec.c:169 | `atoi`: skip white space, read one optional sign, then the longest run of digits; only a minus sign gives a negative number, and a string whose first non-space character is not a sign or digit reads as 0 |
| CLib.Decimal | bsexec.c:169 | the decimal numeral of a number is non-empty, all digits, and has no leading zero |
| CLib.DigitPrefixOfDigits | bsexec.c:169 | a run of digits is read by `atoi` in full |
| CLib.DigitsValueOfDecimal | bsexec.c:169 | the digits of a numeral are worth the number it was written from |
| CLib.AtoiDecimal | bsexec.c:169 | `atoi` of the numeral of a process id is that process id |
| CLib.AtoiNegativeDecimal | bsexec.c:169 | `atoi` of a minus sign and a numeral is the negated number |
| CLib.AtoiNonNumeric | bsexec.c:169 | a token that does not start with white space, a sign or a digit reads as 0 |
| Resolver.ParentComplaint | bsexec.c:158-163 | a failed `bootstrap_parent` leaves exactly one diagnostic, a successful one none |
| Resolver.ParentWalk | bsexec.c:153-165 | the do-while loop with a bound on its rounds: ask for the parent of the current port; on failure end with the failure port and the complaint; when walking to the root and the answer is a different port, go on from it; otherwise end with the answer; nothing when the bound runs out |
| Resolver.WalkAdvance | bsexec.c:154-165 | one round of the do-while loop: after the query about the last port, the walk ends with the failure port and the complaint, continues from the answer, or ends at the answer |
| Resolver.WalkFuelMonotone | bsexec.c:154-165 | once the loop has ended within some number of rounds, allowing more rounds gives the same result |
| Resolver.WalksAgree | bsexec.c:154-165 | every bound on the number of rounds that lets the loop end gives the same walk |
| Resolver.RootWalk | bsexec.c:153-165 | the walk to the root is the walk of any sufficient bound on the rounds |
| Resolver.WalkShape | bsexec.c:153-165 | the loop's effects: a run of parent queries, each about the port the previous one returned, starting at the caller's port; it ends either with a diagnostic and the failure port, or with a successful query whose answer is the result, a fixed point when walking to the root; `".."` makes one query |
| Resolver.CycleNeverEnds | bsexec.c:154-165 | on two ports that are each other's parent, no bound on the rounds lets the walk to the root end |
| Resolver.CycleUnreachable | bsexec.c:154-165 | such a cycle is not a finite chain, so the walk's termination needs an assumption |
| Resolver.RootWalkStep | bsexec.c:154-165 | walking from a port whose parent is another port is one query followed by the walk from that parent |
| Resolver.RootWalkAtRoot | bsexec.c:154-165 | at a port that is its own parent the walk makes one query and returns that port |
| Resolver.RootWalkIdempotent | bsexec.c:153-165 | walking to the root again from the root found returns the same root after a single query |
| Resolver.PidPort | bsexec.c:168-183 | the process-id branch always starts with `task_for_pid` on the parsed id |
| Resolver.Resolve | bsexec.c:145-187 | `str2bsport`: `"/"` is the walk to the root from the caller's bootstrap port, `".."` one round of that walk, `"0"` and `"NULL"` `MACH_PORT_NULL` with no call, anything else the process-id lookup of `atoi` of the token |
| Resolver.PidPortOutcome | bsexec.c:168-183 | the process-id lookup returns the task's bootstrap port after two calls, or the failure port after the diagnostic of whichever of `task_for_pid` and `task_get_bootstrap_port` refused first |
| Resolver.ResolveParent | bsexec.c:153-165 | `".."` makes exactly one parent query, about the caller's bootstrap port, and returns its answer or the failure port; a refusal leaves "Permission denied" for `BOOTSTRAP_NOT_PRIVILEGED` and the generic complaint with the code otherwise, success no diagnostic |
| Resolver.ResolveRoot | bsexec.c:153-165 | `"/"` starts at the caller's bootstrap port and follows successful parent answers, each a different port from the one asked about, so it stops at the first fixed point and asks about the root once; it returns that root, or the failure port with a diagnostic right after the first failed query |
| Resolver.ResolveNull | bsexec.c:166-167 | `"0"` and `"NULL"` give `MACH_PORT_NULL` without any query |
| Resolver.ResolvePid | bsexec.c:168-171 | any other token resolves exactly as the process-id lookup of `atoi` of the token, starting with `task_for_pid`; a non-numeric token becomes process id 0 |
| Resolver.ResolveToken | bsexec.c:168-183 | for every other token (`"+5"`, `" 5"`, `"5x"`, `"-3"`, `"abc"` alike): the bootstrap port of the task of `atoi`'s process id, or the failure port after the matching diagnostic when `task_for_pid` or `task_get_bootstrap_port` is refused |
| Resolver.ResolveProcess | bsexec.c:168-183 | the numeral of a process id resolves to that process's bootstrap port, or to the failure port when `task_for_pid` or `task_get_bootstrap_port` fails |
| Resolver.ResolveFailure | bsexec.c:153-186 | every resolution is `Shaped`: `str2bsport` only queries and complains; at most one diagnostic, always last; a run that ends with a diagnostic returns the failure port |
| Resolver.FailurePortIsAmbiguous | bsexec.c:158-163 | a successful query can return the same value 1 as a failure, with no diagnostic, so callers cannot tell them apart |
| Spawn.ChildStatus | bsexec.c:127-130 | a child whose `execvp` fails exits with `EXIT_FAILURE` |
| Spawn.ForkExecWait | bsexec.c:117-143 | `fwexec`: -1 when `vfork` fails; otherwise the child's `execvp` (and `_exit(EXIT_FAILURE)` if it fails) and the wait for it; -1 when the wait fails, else the status decision of `Reaped` |
| Spawn.Reaped | bsexec.c:136-142 | after a successful wait: with a status pointer, the child's pid and the stored word; without one, the pid when the word shows an exit with 0, else -1 |
| Spawn.ForkExecWaitWithoutStatus | bsexec.c:125-142 | with a NULL status pointer, `fwexec` returns the child's pid exactly when the fork and the wait succeeded and the child exited with code 0, and -1 otherwise (a failed exec included) |
| Spawn.ForkExecWaitWithStatus | bsexec.c:125-142 | with a status pointer, `fwexec` returns the pid of any reaped child and stores a word that decodes to how the child ended; -1 and nothing stored when the fork or wait fails |
| Spawn.ChildOnlyExecsOrExits | bsexec.c:125-134 | the fork comes first; in between, the child only calls `execvp` with the given arguments and state, then possibly `_exit(EXIT_FAILURE)`; the parent waits for the very child it forked |
| Bsexec.RunBsExec | bsexec.c:189-218 | `bsexec`: fewer than three arguments give exit code 1 and the usage diagnostic; otherwise `str2bsport` of the token followed by `SwitchAndRun` for the program's arguments |
| Bsexec.SwitchAndRun | bsexec.c:200-217 | install the resolved port whatever it is; a refused install gives exit code 1 and its diagnostic; otherwise `DropAndRun` with that port installed |
| Bsexec.DropAndRun | bsexec.c:209-217 | `setgid`, `setuid`, then `fwexec` without a status pointer; -1 gives exit code 1 and a diagnostic, anything else exit code 0 |
| Bsexec.SwitchAndRunAfter | bsexec.c:200-217 | after `str2bsport`, `bsexec` depends only on the port, not on the resolution's effects |
| Bsexec.RunBsExecSplit | bsexec.c:195-217 | with enough arguments, `bsexec` is `str2bsport` followed by the steps that see only its port |
| Bsexec.Dropped | bsexec.c:209-210 | each effective id becomes the real one when its `setgid`/`setuid` succeeds and stays as it was otherwise; the bootstrap port is unchanged |
| Bsexec.DropAndRunShape | bsexec.c:209-217 | group drop, user drop, fork, in that order; the program starts with the state the drops left; the exit code is 0 exactly when the child was reaped after exiting with 0; a failure ends with a diagnostic, a success with the wait |
| Bsexec.InstallsAfterResolution | bsexec.c:200-202 | whatever port `str2bsport` produced is installed right after its effects |
| Bsexec.StopsWhenInstallFails | bsexec.c:202-207 | a failed install gives exit code 1, leaves the state untouched, and comes before any privilege change or fork |
| Bsexec.DropsAfterInstall | bsexec.c:202-212 | after a successful install come the group drop, the user drop and the fork, and nothing before the install changes privilege or forks |
| Bsexec.StartsWithDroppedState | bsexec.c:202-212 | after a successful install, the program starts with the installed port and the ids the drops left |
| Bsexec.UsageError | bsexec.c:195-198 | fewer than three arguments give exit code 1, a usage diagnostic, and no other effect or state change |
| Bsexec.InstallsResolvedPort | bsexec.c:200-202 | the port `str2bsport` returned, failure port included, is passed to `task_set_bootstrap_port` right after the resolution |
| Bsexec.SwitchFailure | bsexec.c:202-207 | a failed install gives exit code 1, no privilege change, no fork, and an unchanged state |
| Bsexec.PrivilegeDropOrder | bsexec.c:200-212 | install, then `setgid`, then `setuid`, then `vfork`, whatever the `setgid`/`setuid` results; nothing before the install changes privilege or forks |
| Bsexec.ProgramStartsWithDroppedPrivilege | bsexec.c:200-212 | the final state and the state every `execvp` receives are the installed port with the effective ids the drops left |
| Bsexec.ExitCode | bsexec.c:195-217 | the exit code is 0 or 1, and 0 exactly when there were enough arguments, the install succeeded, the fork and wait succeeded, and the child exited with 0 |
| Bsexec.FailureIsLast | bsexec.c:195-217 | exit code 1 exactly when the trace ends with a diagnostic, so nothing follows the diagnostic that makes the exit code 1 (a failed `str2bsport` leaves one earlier, and the run goes on); exit code 0 ends with the wait for the child |
| Bsexec.Process.constructor | bsexec.c:149 | a process starts with its `bootstrap_port` installed and an empty trace |
| Bsexec.Process.Str2BsPort | bsexec.c:145-187 | returns the port `Resolve` gives for the token and appends exactly its effects |
| Bsexec.Process.PidBootstrapPort | bsexec.c:168-183 | `task_for_pid` then `task_get_bootstrap_port`, stopping with the failure port after the first failure, as `PidPort` says |
| Bsexec.Process.WalkParents | bsexec.c:153-165 | the do-while loop computes the walk the specification describes, port and effects |
| Bsexec.Process.AskParent | bsexec.c:155-163 | one `bootstrap_parent` query and its complaint on failure; reports whether the answer can be used |
| Bsexec.Process.FwExec | bsexec.c:117-143 | returns, stores and appends what `ForkExecWait` says for the kernel's answers and the current state |
| Bsexec.Process.BsExec | bsexec.c:189-218 | exit code, final state and trace are those `RunBsExec` gives for the initial state |
| Bsexec.Process.ResolveAndRun | bsexec.c:200-217 | `str2bsport` and then the steps after it: exit code, state and trace are the resolution's effects followed by what `SwitchAndRun` gives for its port |
| Bsexec.Process.InstallAndRun | bsexec.c:202-217 | the steps after `str2bsport` for a given port, as `SwitchAndRun` says |
| Bsexec.Process.DropPrivilegeAndRun | bsexec.c:209-217 | the steps after the install, as `DropAndRun` says |
| Bsexec.Process.DropPrivilege | bsexec.c:209-210 | `setgid(getgid())` then `setuid(getuid())`, leaving the state `Dropped` gives |

## Left out

- Mach and POSIX semantics: `bootstrap_parent`, `task_for_pid`,
  `task_get_bootstrap_port`, `task_set_bootstrap_port`, `setgid`, `setuid`,
  `vfork`, `execvp` and `waitpid` are uninterpreted oracle fields of `Kernel`.
  Only their results are modelled, not what the kernel does.
- `mach_task_self()` has no counterpart: the `Kernel` oracles `taskForPid`
  and `setBootstrap` answer for the process's own task. `getgid()` and
  `getuid()` are the constant fields `rgid` and `ruid` of a `Process`.
- Parent/child concurrency and the restricted environment of a `vfork` child
  are not modelled. The child's two possible actions appear in the trace
  between the fork and the wait.
- Diagnostics are tags without their text. `fprintf`, `getprogname`,
  `strerror`, `mach_error_string` and `errno` are I/O and formatting.
- Integer widths are not modelled: `atoi` overflow (undefined in C), the width
  of `pid_t` and `int`. Values are unbounded integers. Port names are 32-bit.
- Wait status: the core-dump bit and stopped children are not modelled.
  `waitpid` is called without `WUNTRACED`, so it only reports exited or
  killed children.
- Signal and exit codes are modelled only through the oracle. The program's
  outcome depends only on its arguments, not on the installed port or the ids.
- Bsexec.Process.BsExec: requires the chain of parents to be finite when the
  token is `"/"`, because the C loop never ends otherwise (`CycleUnreachable`).
- Bsexec.Process.Str2BsPort: has the same finite-chain precondition for
  `"/"`, for the same reason.
- The `#include` block, the `assumes`/`CFTypeCheck` macros, the unused
  constants and the version string carry no behaviour.
