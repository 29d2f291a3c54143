/**
  `run_watchdog`: the polling loop a supervisor runs over its one direct
  child.  Each round makes three observations in a fixed order (is the
  watched parent alive, has the child changed state, which other children
  can be reaped) and then either goes round again or exits.  The system
  calls are replaced by these observations; the 50ms sleep between rounds is
  not modelled.
*/
module Watchdog {
  import opened Common
  import opened WaitStatus
  import opened GroupKill

  /** "No child processes": the watched child is gone. */
  const ECHILD: int := 10

  /** The values a supervisor works with: its own pid, its process group,
      the pid it watches for liveness and the pid of its direct child. */
  datatype Supervisor = Supervisor(pid: int, pgid: int, parent: int, child: int)

  /** What `waitpid(child, &status, WNOHANG)` returned. */
  datatype Poll =
    | Reaped(status: int)      // returned the child's pid
    | NoChange                 // returned 0
    | WaitFailed(errno: int)   // returned -1

  /** One result of `waitpid(-1, &status, WNOHANG)`: the pid returned
      (0 or -1 end the reaping loop) and the status word. */
  datatype Reap = Reap(pid: int, status: int)

  /** Everything one round of the loop learns from the system. */
  datatype Observation = Observation(
    parentAlive: bool,
    poll: Poll,
    drained: seq<Reap>,
    term: Reply,
    kill: Reply)

  datatype Decision = Continue | Exit(code: int, cleanup: Cleanup)

  /** The reaping loop stops at entry `i` because it is the watched child:
      every earlier entry was another, positive pid. */
  ghost predicate StopsAt(drained: seq<Reap>, child: int, i: int) {
    && 0 <= i < |drained|
    && drained[i].pid > 0
    && drained[i].pid == child
    && forall j :: 0 <= j < i ==> drained[j].pid > 0 && drained[j].pid != child
  }

  /** The reaping loop of one round: reaps children until `waitpid` returns
      0 or -1, and exits with the usual mapping if the watched child is among
      them.  Any other reaped pid is simply discarded. */
  function Drain(drained: seq<Reap>, child: int): (r: Option<int>)
    ensures r.Some? <==> exists i :: StopsAt(drained, child, i)
    ensures forall i :: StopsAt(drained, child, i) ==> r == Some(CodeOf(drained[i].status))
    decreases |drained|
  {
    if drained == [] || drained[0].pid <= 0 then
      assert forall i :: !StopsAt(drained, child, i);
      None
    else if drained[0].pid == child then
      assert forall i :: StopsAt(drained, child, i) ==> i == 0;
      assert StopsAt(drained, child, 0);
      Some(CodeOf(drained[0].status))
    else
      var rest := Drain(drained[1..], child);
      assert forall i :: StopsAt(drained, child, i) ==> StopsAt(drained[1..], child, i - 1);
      assert forall i :: StopsAt(drained[1..], child, i) ==> StopsAt(drained, child, i + 1);
      rest
  }

  /** The watched child's fate is settled this round by the reaping loop. */
  ghost predicate ReapedInDrain(drained: seq<Reap>, child: int) {
    exists i :: StopsAt(drained, child, i)
  }

  /** One round of the loop.  A dead parent wins over everything the child
      reports in the same round: the group is killed and the supervisor exits
      1.  Otherwise a reaped child is mirrored, ECHILD exits 0, any other
      `waitpid` error exits 1, and an unchanged child leaves the decision to
      the reaping loop. */
  function Step(s: Supervisor, o: Observation): (d: Decision)
    ensures !o.parentAlive ==> d == Exit(1, KillProcessGroup(s.pid, s.pgid, o.term, o.kill))
    ensures o.parentAlive && d.Exit? ==> d.cleanup == NoCleanup
    ensures d.Exit? ==> 0 <= d.code < 256
    ensures d.Continue? <==> o.parentAlive && o.poll == NoChange && !ReapedInDrain(o.drained, s.child)
    ensures o.parentAlive && o.poll.Reaped? ==> d == Exit(CodeOf(o.poll.status), NoCleanup)
    ensures o.parentAlive && o.poll.WaitFailed? ==> d.Exit? && (d.code == 0 <==> o.poll.errno == ECHILD)
    ensures o.parentAlive && o.poll.WaitFailed? && o.poll.errno != ECHILD ==> d == Exit(1, NoCleanup)
    ensures o.parentAlive && o.poll == NoChange ==>
              forall i :: StopsAt(o.drained, s.child, i) ==> d == Exit(CodeOf(o.drained[i].status), NoCleanup)
  {
    if !o.parentAlive then
      Exit(1, KillProcessGroup(s.pid, s.pgid, o.term, o.kill))
    else
      match o.poll
      case Reaped(raw) => Exit(CodeOf(raw), NoCleanup)
      case WaitFailed(errno) => if errno == ECHILD then Exit(0, NoCleanup) else Exit(1, NoCleanup)
      case NoChange =>
        match Drain(o.drained, s.child)
        case Some(code) => Exit(code, NoCleanup)
        case None => Continue
  }

  /** How a finite run of the loop ends: still polling after every round, or
      exited in round `round`. */
  datatype Verdict = Running | Terminated(round: nat, code: int, cleanup: Cleanup)

  /** The loop over a finite sequence of rounds: the first round whose step
      exits decides the outcome, and no later round is looked at. */
  function Run(s: Supervisor, rounds: seq<Observation>): (v: Verdict)
    ensures v.Running? <==> forall j :: 0 <= j < |rounds| ==> Step(s, rounds[j]).Continue?
    ensures v.Terminated? ==> v.round < |rounds| && Step(s, rounds[v.round]) == Exit(v.code, v.cleanup)
    ensures v.Terminated? ==> forall j :: 0 <= j < v.round ==> Step(s, rounds[j]).Continue?
    ensures v.Terminated? ==> 0 <= v.code < 256
    decreases |rounds|
  {
    if rounds == [] then Running
    else
      match Step(s, rounds[0])
      case Exit(code, cleanup) => Terminated(0, code, cleanup)
      case Continue =>
        match Run(s, rounds[1..])
        case Running => Running
        case Terminated(r, code, cleanup) => Terminated(r + 1, code, cleanup)
  }

  /** The `while (1)` loop itself, over the rounds it gets to see. */
  method RunWatchdog(s: Supervisor, rounds: seq<Observation>) returns (v: Verdict)
    ensures v.Running? <==> forall j :: 0 <= j < |rounds| ==> Step(s, rounds[j]).Continue?
    ensures v.Terminated? ==> v.round < |rounds| && Step(s, rounds[v.round]) == Exit(v.code, v.cleanup)
    ensures v.Terminated? ==> forall j :: 0 <= j < v.round ==> Step(s, rounds[j]).Continue?
    ensures v == Run(s, rounds)
  {
    var i := 0;
    while i < |rounds|
      invariant 0 <= i <= |rounds|
      invariant forall j :: 0 <= j < i ==> Step(s, rounds[j]).Continue?
    {
      var d := Step(s, rounds[i]);
      if d.Exit? {
        v := Terminated(i, d.code, d.cleanup);
        FirstExitIsRun(s, rounds, v);
        return;
      }
      i := i + 1;
    }
    v := Running;
  }

  /** The first exiting round determines the verdict of `Run`. */
  lemma {:induction false} FirstExitIsRun(s: Supervisor, rounds: seq<Observation>, v: Verdict)
    requires v.Terminated? && v.round < |rounds| && Step(s, rounds[v.round]) == Exit(v.code, v.cleanup)
    requires forall j :: 0 <= j < v.round ==> Step(s, rounds[j]).Continue?
    ensures Run(s, rounds) == v
  {
    var w := Run(s, rounds);
    assert !Step(s, rounds[v.round]).Continue?;
    assert w.Terminated?;
  }

  /** Once the loop has exited, later rounds change nothing: a run reaches
      exactly one terminal decision. */
  lemma {:induction false} ExitIsFinal(s: Supervisor, rounds: seq<Observation>, later: seq<Observation>)
    requires Run(s, rounds).Terminated?
    ensures Run(s, rounds + later) == Run(s, rounds)
    decreases |rounds|
  {
    assert rounds != [];
    assert (rounds + later)[0] == rounds[0];
    if Step(s, rounds[0]).Continue? {
      assert (rounds + later)[1..] == rounds[1..] + later;
      ExitIsFinal(s, rounds[1..], later);
    }
  }

  /** A parent found dead in some round ends the run no later than that
      round, with exit code 1. */
  lemma {:induction false} ParentDeathEndsRun(s: Supervisor, rounds: seq<Observation>, i: int)
    requires 0 <= i < |rounds| && !rounds[i].parentAlive
    ensures Run(s, rounds).Terminated? && Run(s, rounds).round <= i
    ensures Run(s, rounds).round == i ==> Run(s, rounds).code == 1
  {
    assert !Step(s, rounds[i]).Continue?;
  }

  /** Reaping some other child never ends the loop: a round in which the
      parent is alive, the watched child is unchanged and only other pids are
      reaped goes round again. */
  lemma {:induction false} OtherChildrenIgnored(s: Supervisor, o: Observation)
    requires o.parentAlive && o.poll == NoChange
    requires forall j :: 0 <= j < |o.drained| ==> o.drained[j].pid != s.child
    ensures Step(s, o) == Continue
  {
    assert forall i :: !StopsAt(o.drained, s.child, i);
  }
}
