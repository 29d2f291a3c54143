/**
  The wiring of the intermediary program: `main` creates a process group
  and forks once, the first child forks again, and the final child execs
  the target.  The original process watches the first child, the first
  child watches the original process, and every level mirrors the status of
  the level below it.  Whether `setpgrp`, `fork` and `execvp` succeed, and
  which pids they hand out, are inputs.
*/
module Launcher {
  import opened Common
  import opened WaitStatus
  import opened GroupKill
  import opened Watchdog

  /** What `fork` returned in the parent. */
  datatype Fork = ForkFailed | Forked(child: int)

  /** A process either ends before it starts watching, with the given exit
      status byte, or becomes the watchdog described by `s`. */
  datatype Launch = Aborted(code: int) | Watching(s: Supervisor)

  /** The final child either becomes the target program, with the given file
      and argument vector, or exits with `code`. */
  datatype FinalChild = Image(file: string, argv: seq<string>) | Died(code: int)

  /** `exec_program`: with fewer than two arguments it prints a usage line
      and exits 1; otherwise it hands `argv[1..]` to `execvp` unchanged, and
      exits 1 if that fails. */
  function ExecProgram(argv: seq<string>, execSucceeds: bool): (f: FinalChild)
    ensures f.Image? <==> |argv| >= 2 && execSucceeds
    ensures f.Died? ==> f.code == 1
    ensures f.Image? ==> |f.argv| >= 1 && f.file == f.argv[0] && [argv[0]] + f.argv == argv
  {
    if |argv| < 2 then Died(1)
    else if execSucceeds then Image(argv[1], argv[1..])
    else Died(1)
  }

  /** `main` followed by the parent side of `first_fork`.  The parent pid is
      captured before anything else; after a successful `setpgrp` the
      process leads its own group (its pgid is its pid).  A failed `setpgrp`
      returns 1 before any fork, and a failed fork makes `main` return -1,
      which the parent sees as 255. */
  function Start(ppid: int, selfPid: int, groupCreated: bool, fork: Fork): (l: Launch)
    ensures !groupCreated ==> l == Aborted(1)
    ensures groupCreated && fork.ForkFailed? ==> l == Aborted(ExitByte(-1))
    ensures l.Aborted? ==> l.code != 0 && ExitByte(l.code) == l.code
    ensures l.Watching? <==> groupCreated && fork.Forked?
    ensures l.Watching? ==> l.s.pid == selfPid && l.s.parent == ppid && l.s.child == fork.child
    ensures l.Watching? ==> forall t, k :: KillProcessGroup(l.s.pid, l.s.pgid, t, k) == NoCleanup
  {
    if !groupCreated then Aborted(1)
    else match fork
      case ForkFailed => Aborted(ExitByte(-1))
      case Forked(child) => Watching(Supervisor(selfPid, selfPid, ppid, child))
  }

  /** The first child: `second_fork`, called with the pid of the original
      process.  It inherited the original process's group, so its pgid is
      `topPid`; it watches `topPid` for liveness and its own child for
      status.  A failed fork returns -1 all the way out of `main`. */
  function SecondFork(topPid: int, selfPid: int, fork: Fork): (l: Launch)
    ensures l.Aborted? <==> fork.ForkFailed?
    ensures l.Aborted? ==> l.code == ExitByte(-1)
    ensures l.Watching? ==> l.s.pid == selfPid && l.s.parent == topPid && l.s.child == fork.child
    ensures l.Watching? && selfPid != topPid ==>
              forall t, k :: KillProcessGroup(l.s.pid, l.s.pgid, t, k).attempts
                             == [Kill(topPid, SIGTERM), Kill(topPid, SIGKILL)]
  {
    match fork
    case ForkFailed => Aborted(ExitByte(-1))
    case Forked(child) => Watching(Supervisor(selfPid, topPid, topPid, child))
  }

  /** The status word the first child's watchdog collects from the final
      child: the target's own status once it runs, or `exit(1)`. */
  function FinalStatus(f: FinalChild, targetStatus: int): (raw: int)
    ensures f.Died? ==> raw == ExitRaw(f.code) && CodeOf(raw) == ExitByte(f.code)
    ensures f.Image? ==> raw == targetStatus
  {
    match f
    case Image(_, _) => targetStatus
    case Died(code) => MirrorTruncates(code); ExitRaw(code)
  }

  /** Mirroring through both levels: whatever code the first child's
      watchdog exits with, the original process reports the same code once
      it reaps the first child. */
  lemma {:induction false} ChainMirrorsRun(top: Supervisor, mid: Supervisor, rounds: seq<Observation>, o: Observation)
    requires Run(mid, rounds).Terminated?
    requires o.parentAlive && o.poll == Reaped(ExitRaw(Run(mid, rounds).code))
    ensures Step(top, o) == Exit(Run(mid, rounds).code, NoCleanup)
  {
    NormalExitMirrored(Run(mid, rounds).code);
  }

  /** End to end with both parents alive: the final child ends with status
      `raw`, the first child reaps it, and the original process reaps the
      first child; the original process then reports exactly what a direct
      parent of the target would have computed from `raw`. */
  lemma {:induction false} ChainMirrorsTarget(top: Supervisor, mid: Supervisor, raw: int, below: Observation, above: Observation)
    requires below.parentAlive && below.poll == Reaped(raw)
    requires above.parentAlive && above.poll == Reaped(ExitRaw(Step(mid, below).code))
    ensures Step(top, above) == Exit(CodeOf(raw), NoCleanup)
  {
    MirrorComposes(raw);
  }

  /** A missing target or too few arguments surfaces at the top as exit
      code 1. */
  lemma {:induction false} LaunchFailureSurfacesAsOne(
    top: Supervisor, mid: Supervisor, argv: seq<string>, execSucceeds: bool,
    targetStatus: int, below: Observation, above: Observation)
    requires ExecProgram(argv, execSucceeds).Died?
    requires below.parentAlive && below.poll == Reaped(FinalStatus(ExecProgram(argv, execSucceeds), targetStatus))
    requires above.parentAlive && above.poll == Reaped(ExitRaw(Step(mid, below).code))
    ensures Step(top, above) == Exit(1, NoCleanup)
  {
    ChainMirrorsTarget(top, mid, FinalStatus(ExecProgram(argv, execSucceeds), targetStatus), below, above);
  }

  /** If the first child cannot fork, the original process reports 255. */
  lemma {:induction false} SecondForkFailureSurfaces(top: Supervisor, topPid: int, selfPid: int, o: Observation)
    requires o.parentAlive && o.poll == Reaped(ExitRaw(SecondFork(topPid, selfPid, ForkFailed).code))
    ensures Step(top, o) == Exit(255, NoCleanup)
  {
    NormalExitMirrored(255);
  }

  /** Who is meant to clean up after the launching process dies: the
      original process leads the group and so sends nothing, then exits 1;
      the first child, which watches the original process, is the one whose
      `kill_process_group` would send SIGTERM and SIGKILL to the original
      process's group, which the final child inherited.  The cleanup is the
      intended one; `FirstChildKilledByOwnSigterm` states what the source
      does instead. */
  lemma {:induction false} OnlyFirstChildKillsGroup(
    ppid: int, topPid: int, midPid: int, finalPid: int, o: Observation)
    requires topPid != midPid && !o.parentAlive
    ensures Start(ppid, topPid, true, Forked(midPid)).Watching?
    ensures SecondFork(topPid, midPid, Forked(finalPid)).Watching?
    ensures Step(Start(ppid, topPid, true, Forked(midPid)).s, o) == Exit(1, NoCleanup)
    ensures Step(SecondFork(topPid, midPid, Forked(finalPid)).s, o).cleanup.attempts
            == [Kill(topPid, SIGTERM), Kill(topPid, SIGKILL)]
    ensures SecondFork(topPid, midPid, Forked(finalPid)).s.parent == topPid
  {
    var top := Start(ppid, topPid, true, Forked(midPid)).s;
    assert KillProcessGroup(top.pid, top.pgid, o.term, o.kill) == NoCleanup;
  }

  /** As written, the first child is a member of the group it signals: its
      own SIGTERM terminates it, no SIGKILL follows, and a final child that
      ignores SIGTERM keeps running after the launching process died. */
  lemma {:induction false} FirstChildKilledByOwnSigterm(topPid: int, midPid: int, finalPid: int)
    requires topPid != midPid
    ensures SecondFork(topPid, midPid, Forked(finalPid)).Watching?
    ensures var mid := SecondFork(topPid, midPid, Forked(finalPid)).s;
            && KillProcessGroupAsWritten(mid.pid, mid.pgid) == Ending([Kill(topPid, SIGTERM)], Some(SIGTERM))
            && Survives(Member(true), KillProcessGroupAsWritten(mid.pid, mid.pgid).attempts)
  {
    var mid := SecondFork(topPid, midPid, Forked(finalPid)).s;
    SigtermIgnorerSurvives(mid.pid, mid.pgid);
  }
}
