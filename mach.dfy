/** The vocabulary shared by the model of `launchctl bsexec`: Mach port names,
    kernel return codes, the answers the kernel and libc give (as an oracle
    record), and the effects a run leaves in its trace. */
module Mach {

  /** A Mach port name (`mach_port_t`, an unsigned 32-bit integer). Task
      ports and bootstrap ports are both port names. */
  newtype Port = x: int | 0 <= x < 0x1_0000_0000

  /** `MACH_PORT_NULL` */
  const PortNull: Port := 0
  /** The value `str2bsport` returns for every failure. It is an ordinary port
      name: nothing in its type tells it apart from a real bootstrap port. */
  const FailurePort: Port := 1

  /** `kern_return_t` */
  type KernReturn = int

  const KernSuccess: KernReturn := 0
  const BootstrapSuccess: KernReturn := 0
  const BootstrapNotPrivileged: KernReturn := 1100

  const ExitSuccess: int := 0
  const ExitFailure: int := 1

  /** A process id that `vfork` hands back to the parent: always positive. */
  type ChildPid = p: int | p > 0 witness 1

  /** An exit code as `_exit` and `exit` truncate it: eight bits. */
  type ExitCode = c: int | 0 <= c < 256

  /** A terminating signal number (0 is no signal, 0x7f marks a stopped child). */
  type SignalNumber = s: int | 1 <= s < 0x7f witness 1

  /** How a reaped child ended. */
  datatype WaitStatus = Exited(code: ExitCode) | Signaled(signal: SignalNumber)

  datatype Option<T> = None | Some(value: T)

  /** A kernel call that returns a status code and writes one out-parameter.
      `out` means something only when `kr` is the success code. */
  datatype Reply<T> = Reply(kr: KernReturn, out: T)

  /** What `vfork` returns in the parent. */
  datatype ForkReply = ForkFails | Forked(child: ChildPid)

  /** What becomes of `execvp` in the child: it fails (and the child calls
      `_exit(EXIT_FAILURE)`), or the new image runs and ends with a status. */
  datatype ExecReply = ExecFails | Runs(status: WaitStatus)

  /** The answers of every foreign call `bsexec` makes. Nothing here is
      interpreted; each field is whatever the kernel or libc would answer. */
  datatype Kernel = Kernel(
    parent: Port -> Reply<Port>,        // bootstrap_parent(port, &parent)
    taskForPid: int -> Reply<Port>,     // task_for_pid(mach_task_self(), pid, &task)
    taskBootstrap: Port -> Reply<Port>, // task_get_bootstrap_port(task, &port)
    setBootstrap: Port -> KernReturn,   // task_set_bootstrap_port(mach_task_self(), port)
    setgidOk: bool,                     // setgid(getgid()) returns 0
    setuidOk: bool,                     // setuid(getuid()) returns 0
    vfork: ForkReply,
    exec: seq<string> -> ExecReply,     // execvp(argv[0], argv) in the child
    waitOk: bool)                       // waitpid(child, ..., 0) does not return -1

  /** The part of the process state that `bsexec` changes: its Mach task's
      bootstrap special port and the effective group and user ids. */
  datatype TaskState = TaskState(bootstrap: Port, egid: int, euid: int)

  /** What a diagnostic on the error stream says, without its text. */
  datatype Message =
    | Usage
    | PermissionDenied
    | ParentFailed(status: KernReturn)
    | TaskForPidFailed(status: KernReturn)
    | NoBootstrapPort(status: KernReturn)
    | SwitchFailed(status: KernReturn)
    | BsexecFailed

  /** One observable step of a run, in the order it happens. */
  datatype Effect =
    | QueryParent(port: Port)                  // bootstrap_parent
    | TaskForPid(pid: int)                     // task_for_pid
    | GetTaskBootstrap(task: Port)             // task_get_bootstrap_port
    | InstallBootstrap(port: Port)             // task_set_bootstrap_port on the own task
    | SetGid(gid: int)
    | SetUid(uid: int)
    | VFork
    | Exec(argv: seq<string>, state: TaskState) // execvp in the child, with the state the image inherits
    | ChildExit(code: ExitCode)                // _exit in the child
    | WaitPid(pid: int)
    | Diagnostic(message: Message)

  /** The effects `str2bsport` may produce. */
  predicate IsResolutionEffect(e: Effect) {
    e.QueryParent? || e.TaskForPid? || e.GetTaskBootstrap? || e.Diagnostic?
  }

  /** The effects that change privilege or start the program. */
  predicate IsPrivilegeOrSpawnEffect(e: Effect) {
    e.SetGid? || e.SetUid? || e.VFork? || e.Exec? || e.ChildExit? || e.WaitPid?
  }
}
