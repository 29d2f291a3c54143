/**
  `kill_process_group`: the two-phase termination of the supervisor's
  process group.  The replies of the two `killpg` calls are inputs; the
  100ms pause between them is not modelled.
*/
module GroupKill {
  import opened Common

  const SIGKILL: int := 9
  const SIGTERM: int := 15
  /** "No such process": the group is already empty. */
  const ESRCH: int := 3

  /** What one `killpg` call returned. */
  datatype Reply = Delivered | Refused(errno: int)

  /** One `killpg(pgid, signal)` call. */
  datatype Kill = Kill(pgid: int, signal: int)

  /** The calls made and the error numbers reported on the error stream. */
  datatype Cleanup = Cleanup(attempts: seq<Kill>, reported: seq<int>)

  const NoCleanup: Cleanup := Cleanup([], [])

  /** A reply that leaves nothing to report. */
  predicate Quiet(r: Reply) {
    r.Delivered? || r.errno == ESRCH
  }

  /** The error numbers a reply puts on the error stream. */
  function Complaint(r: Reply): (e: seq<int>)
    ensures e == [] <==> Quiet(r)
    ensures !Quiet(r) ==> e == [r.errno]
    ensures ESRCH !in e
  {
    if Quiet(r) then [] else [r.errno]
  }

  /** A process of the group, as far as the two signals matter: whether it
      keeps running when it receives SIGTERM (it ignores or handles it).
      Nothing keeps running after SIGKILL. */
  datatype Member = Member(keepsRunningOnTerm: bool)

  /** `m` is still running after the group received the signals of
      `attempts`, in order. */
  predicate Survives(m: Member, attempts: seq<Kill>) {
    forall i :: 0 <= i < |attempts| ==>
      attempts[i].signal != SIGKILL && (attempts[i].signal == SIGTERM ==> m.keepsRunningOnTerm)
  }

  /** Terminates the group `pgid` on behalf of process `pid`: nothing when
      the caller leads the group, otherwise SIGTERM followed by SIGKILL to
      the same group, whatever the first call returned, so that no member
      of the group keeps running, even one that ignores SIGTERM.  An empty
      group (ESRCH) is not an error.  This is the intended behaviour: the
      caller is taken to survive its own SIGTERM (see
      `KillProcessGroupAsWritten` for what the source does). */
  function KillProcessGroup(pid: int, pgid: int, term: Reply, kill: Reply): (c: Cleanup)
    ensures c.attempts == [] <==> pgid == pid
    ensures pgid != pid ==> c.attempts == [Kill(pgid, SIGTERM), Kill(pgid, SIGKILL)]
    ensures pgid != pid ==> forall m :: !Survives(m, c.attempts)
    ensures ESRCH !in c.reported
    ensures c.reported == [] <==> pgid == pid || (Quiet(term) && Quiet(kill))
    ensures |c.reported| <= |c.attempts|
  {
    if pgid == pid then NoCleanup
    else
      var c := Cleanup([Kill(pgid, SIGTERM), Kill(pgid, SIGKILL)], Complaint(term) + Complaint(kill));
      assert forall m :: !Survives(m, c.attempts) by {
        forall m ensures !Survives(m, c.attempts) {
          assert c.attempts[1].signal == SIGKILL;
        }
      }
      c
  }

  /** How a call of `kill_process_group` ends for its caller: the calls it
      made and the signal that terminated the caller meanwhile, if any. */
  datatype Ending = Ending(attempts: seq<Kill>, callerKilledBy: Option<int>)

  /** `kill_process_group` as the source runs it.  The group it signals is
      the caller's own (`getpgrp()`), so a caller that does not lead it
      receives its own SIGTERM; no handler is installed, so the caller is
      terminated by it before the pause, and the SIGKILL is never sent. */
  function KillProcessGroupAsWritten(pid: int, pgid: int): (e: Ending)
    ensures e.attempts == [] <==> pgid == pid
    ensures e.callerKilledBy.Some? <==> pgid != pid
    ensures pgid != pid ==> e.callerKilledBy == Some(SIGTERM)
    ensures forall t, k ::
              && |e.attempts| <= |KillProcessGroup(pid, pgid, t, k).attempts|
              && e.attempts == KillProcessGroup(pid, pgid, t, k).attempts[..|e.attempts|]
    ensures forall i :: 0 <= i < |e.attempts| ==> e.attempts[i].signal != SIGKILL
  {
    if pgid == pid then Ending([], None)
    else Ending([Kill(pgid, SIGTERM)], Some(SIGTERM))
  }

  /** The escalation is lost as written: a group member that ignores
      SIGTERM keeps running after a caller that does not lead the group
      runs `kill_process_group`, while the intended cleanup stops it. */
  lemma {:induction false} SigtermIgnorerSurvives(pid: int, pgid: int)
    requires pgid != pid
    ensures KillProcessGroupAsWritten(pid, pgid).callerKilledBy == Some(SIGTERM)
    ensures Survives(Member(true), KillProcessGroupAsWritten(pid, pgid).attempts)
    ensures !Survives(Member(true), KillProcessGroup(pid, pgid, Delivered, Delivered).attempts)
  {
  }

  /** Repeating the cleanup on a group that is already gone makes the same
      two calls and reports nothing. */
  lemma {:induction false} CleanupIdempotent(pid: int, pgid: int, term: Reply, kill: Reply)
    requires pgid != pid
    ensures KillProcessGroup(pid, pgid, Refused(ESRCH), Refused(ESRCH)).attempts
            == KillProcessGroup(pid, pgid, term, kill).attempts
    ensures KillProcessGroup(pid, pgid, Refused(ESRCH), Refused(ESRCH)).reported == []
  {
  }
}
