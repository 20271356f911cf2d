/** The status word `waitpid` stores, in the BSD layout that the `WIFEXITED`
    and `WEXITSTATUS` macros read: the exit code in bits 8 to 15 for a child
    that exited, the signal number in bits 0 to 6 for one that was killed.
    Status words here are non-negative, so `x & 0177` is `x % 128` and
    `(x >> 8) & 0xff` is `(x / 256) % 256`. */
module WaitStatusWord {
  import opened Mach

  /** The word the kernel stores for a reaped child. */
  function Encode(ws: WaitStatus): (x: nat)
    ensures x < 0x1_0000
  {
    match ws
    case Exited(code) => code * 256
    case Signaled(signal) => signal
  }

  /** `WIFEXITED(x)`: the low seven bits are zero. */
  predicate WIfExited(x: nat) {
    x % 128 == 0
  }

  /** `WEXITSTATUS(x)`: bits 8 to 15, so the low sixteen bits of `x` are
      `c` shifted left by eight above the low byte. */
  function WExitStatus(x: nat): (c: ExitCode)
    ensures x % 0x1_0000 == c * 256 + x % 256
  {
    (x / 256) % 256
  }

  /** `WIFSIGNALED(x)`: the low seven bits are neither 0 nor 0177. A word
      never reads both as exited and as killed. */
  predicate WIfSignaled(x: nat)
    ensures WIfSignaled(x) ==> !WIfExited(x)
  {
    x % 128 != 0 && x % 128 != 0x7f
  }

  /** `WTERMSIG(x)`: the low seven bits, so `x` and `s` differ only in
      bits 7 and above. */
  function WTermSig(x: nat): (s: SignalNumber)
    requires WIfSignaled(x)
    ensures (x - s) % 128 == 0
  {
    x % 128
  }

  /** Reads a status word back as the macros do. */
  function Decode(x: nat): (ws: WaitStatus)
    requires WIfExited(x) || WIfSignaled(x)
  {
    if WIfExited(x) then Exited(WExitStatus(x)) else Signaled(WTermSig(x))
  }

  /** The macros recover exactly how the child ended. */
  lemma DecodeEncode(ws: WaitStatus)
    ensures WIfExited(Encode(ws)) <==> ws.Exited?
    ensures WIfSignaled(Encode(ws)) <==> ws.Signaled?
    ensures Decode(Encode(ws)) == ws
  {
  }

  /** The test `fwexec` makes with a NULL status pointer holds exactly for a
      child that exited with status 0. */
  lemma ExitedSuccessfully(ws: WaitStatus)
    ensures (WIfExited(Encode(ws)) && WExitStatus(Encode(ws)) == ExitSuccess) <==> ws == Exited(ExitSuccess)
  {
    DecodeEncode(ws);
  }
}
