/**
  The status word that `waitpid` fills in, decoded with the <sys/wait.h>
  macros, and the convention the intermediary uses to turn it into its own
  exit code.

  Linux and macOS share one layout for the word: the low seven bits hold the
  terminating signal (0 for a normal exit, 0x7f for a stopped process), bit 7
  is the core-dump flag and bits 8..15 hold the exit code.  The bit
  operations `s & 0x7f`, `(s >> 8) & 0xff` are written with Dafny's Euclidean
  `%` and `/`, which agree with them on two's complement integers because
  every divisor is a positive power of two.
*/
module WaitStatus {

  /** What the WIFEXITED / WIFSIGNALED tests say about a status word. */
  datatype Status =
    | Exited(code: int)      // WIFEXITED, carrying WEXITSTATUS
    | Signaled(signal: int)  // WIFSIGNALED, carrying WTERMSIG
    | Unrecognised           // neither (a stopped process)

  /** The statuses a status word can actually decode to. */
  predicate WellFormed(st: Status) {
    match st
    case Exited(c) => 0 <= c < 256
    case Signaled(s) => 1 <= s <= 126
    case Unrecognised => true
  }

  /** Decodes a status word.  WIFSIGNALED is true exactly when the low seven
      bits are neither 0 (exited) nor 0x7f (stopped). */
  function Classify(raw: int): (st: Status)
    ensures WellFormed(st)
    ensures st.Signaled? ==> raw % 128 == st.signal
  {
    var low := raw % 128;
    if low == 0 then Exited(raw / 256 % 256)
    else if low != 127 then Signaled(low)
    else Unrecognised
  }

  /** The low byte of an exit code: `exit(code)` and `return code` from
      `main` both hand only `code & 0xff` to the parent. */
  function ExitByte(code: int): (b: int)
    ensures 0 <= b < 256
    ensures 0 <= code < 256 ==> b == code
    ensures (b - code) % 256 == 0
  {
    code % 256
  }

  /** The status word a parent collects from a child that called
      `exit(code)`. */
  function ExitRaw(code: int): (raw: int)
    ensures 0 <= raw < 65536
    ensures Classify(raw) == Exited(ExitByte(code))
  {
    ExitByte(code) * 256
  }

  /** The status word a parent collects from a child killed by `signal`,
      with or without a core dump. */
  function SignalRaw(signal: int, coreDumped: bool): (raw: int)
    requires 1 <= signal <= 126
    ensures 0 <= raw < 256
    ensures Classify(raw) == Signaled(signal)
  {
    signal + (if coreDumped then 128 else 0)
  }

  /** The intermediary's exit code for a reaped child: the child's own exit
      code after a normal exit, 128 plus the signal number after death by a
      signal, and 1 otherwise.  Section 2.8.2, Exit Status for Commands, of
      the POSIX Shell Command Language asks only that a death by signal be
      reported as greater than 128; 128 plus the signal is what common shells
      use. */
  function ExitCode(st: Status): (c: int)
    ensures WellFormed(st) ==> 0 <= c < 256
    ensures WellFormed(st) ==> (c == 0 <==> st == Exited(0))
    ensures st.Signaled? ==> c == 128 + st.signal
    ensures st.Exited? ==> c == st.code
    ensures st.Unrecognised? ==> c == 1
  {
    match st
    case Exited(code) => code
    case Signaled(signal) => 128 + signal
    case Unrecognised => 1
  }

  /** Exit code reported for a child that ended with status word `raw`. */
  function CodeOf(raw: int): (c: int)
    ensures 0 <= c < 256
    ensures c == 0 <==> Classify(raw) == Exited(0)
  {
    ExitCode(Classify(raw))
  }

  /** A supervisor that exits with code `c` is seen by its own parent as a
      normal exit carrying `c` truncated to a byte. */
  lemma {:induction false} MirrorTruncates(c: int)
    ensures CodeOf(ExitRaw(c)) == ExitByte(c)
  {
  }

  /** The encoding composes: a code that is passed on by exiting with it is
      decoded again to itself.  This is what lets a chain of supervisors
      report the target's own status. */
  lemma {:induction false} MirrorComposes(raw: int)
    ensures CodeOf(ExitRaw(CodeOf(raw))) == CodeOf(raw)
  {
    MirrorTruncates(CodeOf(raw));
  }

  /** A normal exit is reported verbatim. */
  lemma {:induction false} NormalExitMirrored(code: int)
    requires 0 <= code < 256
    ensures CodeOf(ExitRaw(code)) == code
  {
    MirrorTruncates(code);
  }

  /** A death by signal is reported as 128 plus the signal number. */
  lemma {:induction false} SignalDeathMirrored(signal: int, coreDumped: bool)
    requires 1 <= signal <= 126
    ensures CodeOf(SignalRaw(signal, coreDumped)) == 128 + signal
  {
  }
}
