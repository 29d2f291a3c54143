# exec intermediary — a Dafny model

The `exec` Go package runs subprocesses through a small C supervisor, the
*intermediary*, so that a subprocess and everything it spawns die when the
launching process dies.  This project models the decision logic of that
supervisor and the small pure parts of the Go wrapper that feed it, with
every system call replaced by the value it returned:

- `wait_status.dfy` (module `WaitStatus`): the `waitpid` status word, decoded
  as the `<sys/wait.h>` macros of Linux and macOS do, and the supervisor's
  exit-code convention: a normal exit N is reported as N, a death by signal S
  as a value greater than 128 (section 2.8.2, Exit Status for Commands, of the
  POSIX Shell Command Language), namely 128+S as common shells do, anything
  else as 1.  `exit(code)` passes only the low byte.
- `group_kill.dfy` (module `GroupKill`): `kill_process_group`, the SIGTERM then
  SIGKILL to the supervisor's process group, skipped by the group leader.
- `watchdog.dfy` (module `Watchdog`): one round of `run_watchdog` as a pure
  `Step` over an observation (parent alive?, result of the non-blocking wait on
  the child, the children reaped afterwards, the replies of the group kill),
  the reaping loop `Drain`, and the loop itself as `Run` (recursive) and
  `RunWatchdog` (a `while` loop) over a finite sequence of rounds.
- `launcher.dfy` (module `Launcher`): `exec_program`, and the wiring of `main`,
  `first_fork` and `second_fork`: who watches whom, which process group each
  level belongs to, and how the final status climbs the double fork.
- `exec_go.dfy` (module `Exec`): the argument vector built by
  `CommandContext`/`Command`, the `targetMap` platform table, the embedded
  asset name and the error and success paths of `extractBinary`.
- `common.dfy` (module `Common`): `Option` and `Result`.

Behaviour of the supervisor worth knowing when reading the model:

- The supervisor installs no signal handlers.
- After the group kill it exits 1 without reaping again.
- The usage check (`argc < 2`) runs in the final child, after both forks, so a
  usage error reaches the caller as an ordinary exit 1 mirrored up the chain.
- A failed `fork` makes `main` return -1, which the parent sees as 255.
- The top-level process leads its own group after `setpgrp`, so its
  `kill_process_group` does nothing; the group kill falls to the first child,
  which watches the top-level process (`Launcher.OnlyFirstChildKillsGroup`).
- The first child is itself a member of the group it signals, and its own
  SIGTERM terminates it before it can send SIGKILL (see "## Findings").  The
  watchdog uses the intended two-phase cleanup, `GroupKill.KillProcessGroup`.

Constants are those of Linux and macOS, which agree: SIGKILL 9, SIGTERM 15,
ESRCH 3, ECHILD 10.

## Model

| member | source | states |
|---|---|---|
| `WaitStatus.Classify` | intermediary/intermediary.c:102-113 | decoding a status word yields an exit code in 0..255, a signal in 1..126 (WIFSIGNALED excludes 0 and the stop marker 0x7f), or neither |
| `WaitStatus.ExitCode` | intermediary/intermediary.c:102-113 | the mapping exit N to N, signal S to 128+S, other to 1; for decodable statuses the code is a byte and is 0 exactly for a clean exit 0 |
| `WaitStatus.CodeOf` | intermediary/intermediary.c:126-132 | the reaping loop's mapping of a raw status word: always a byte, 0 exactly for a clean exit 0 |
| `WaitStatus.ExitByte` | intermediary/intermediary.c:193-198 | a process's exit status is its exit value truncated to a byte, agreeing with the value modulo 256 |
| `WaitStatus.ExitRaw` | intermediary/intermediary.c:102-105 | the status word of a process that called `exit(code)` decodes to a normal exit with the code's low byte |
| `WaitStatus.SignalRaw` | intermediary/intermediary.c:106-109 | the status word of a process killed by a signal, with or without core dump, decodes back to that signal |
| `WaitStatus.MirrorTruncates` | intermediary/intermediary.c:102-105 | a parent observing a supervisor that exits with c reports c's low byte |
| `WaitStatus.MirrorComposes` | intermediary/intermediary.c:102-113 | mirroring composes: exiting with the code computed for a status and decoding that exit again gives the same code |
| `WaitStatus.NormalExitMirrored` | intermediary/intermediary.c:102-105 | a normal exit code in 0..255 passes through one level unchanged |
| `WaitStatus.SignalDeathMirrored` | intermediary/intermediary.c:106-109 | death by signal S is reported as 128+S |
| `GroupKill.Complaint` | intermediary/intermediary.c:44-47 | a failed `killpg` reports its own error number unless it failed with ESRCH |
| `GroupKill.KillProcessGroup` | intermediary/intermediary.c:33-63 | the calls `kill_process_group` is meant to issue: none when the caller leads the group, otherwise exactly SIGTERM then SIGKILL to the same group, whatever the first reply, so that no member survives, even one ignoring SIGTERM; ESRCH never reported (corrected definition, see Findings) |
| `GroupKill.KillProcessGroupAsWritten` | intermediary/intermediary.c:34-56 | as the source runs it: the calls made are the intended calls cut short; a caller that does not lead the group is terminated by its own SIGTERM and never sends SIGKILL; a leader sends nothing |
| `GroupKill.SigtermIgnorerSurvives` | intermediary/intermediary.c:43-56 | as written a member ignoring SIGTERM keeps running and the caller dies of SIGTERM; the intended cleanup stops that member |
| `GroupKill.CleanupIdempotent` | intermediary/intermediary.c:43-62 | killing an already empty group makes the same calls and reports nothing |
| `Watchdog.Drain` | intermediary/intermediary.c:122-136 | the reaping loop exits exactly when the watched child appears before the first result of 0 or -1, with the same code mapping; other pids are discarded |
| `Watchdog.Step` | intermediary/intermediary.c:87-136 | a dead parent wins: group kill and exit 1 whatever the child did; otherwise reaped child mirrored, ECHILD exits 0, other wait errors exit 1, and the round continues exactly when the child is unchanged and not reaped by the loop; only a dead parent triggers a group kill; every exit code is a byte |
| `Watchdog.Run` | intermediary/intermediary.c:84-141 | over a finite run, the verdict is the first exiting round, every earlier round continued, and the run is still polling exactly when every round continued |
| `Watchdog.RunWatchdog` | intermediary/intermediary.c:87-140 | the polling loop stops at the first exiting round and agrees with `Run` |
| `Watchdog.FirstExitIsRun` | intermediary/intermediary.c:87-140 | the first exiting round determines the run's verdict uniquely |
| `Watchdog.ExitIsFinal` | intermediary/intermediary.c:92-136 | once the loop has exited, later rounds change nothing: one terminal decision per run |
| `Watchdog.ParentDeathEndsRun` | intermediary/intermediary.c:91-96 | a round with a dead parent ends the run by that round at the latest |
| `Watchdog.OtherChildrenIgnored` | intermediary/intermediary.c:133-135 | reaping only other pids never ends the loop |
| `Launcher.ExecProgram` | intermediary/intermediary.c:71-81 | fewer than two arguments or an exec failure end the final child with 1; otherwise the target runs `argv[1]` with `argv[1..]` unchanged |
| `Launcher.Start` | intermediary/intermediary.c:166-198 | a failed `setpgrp` returns 1 before any fork, a failed fork 255; otherwise the top process watches the pid captured by `getppid` and its first child, and its group kill is a no-op because it leads the group |
| `Launcher.SecondFork` | intermediary/intermediary.c:143-163 | the first child watches the top process and the final child; a failed fork gives 255; its group kill targets the top process's group |
| `Launcher.FinalStatus` | intermediary/intermediary.c:153-157 | the status word collected from the final child is the target's own word, or the word of `exit(code)`, whose mapped code is the low byte of the exit value |
| `Launcher.ChainMirrorsRun` | intermediary/intermediary.c:180-184 | whatever code the first child's watchdog exits with, the top process reports the same code |
| `Launcher.ChainMirrorsTarget` | intermediary/intermediary.c:144-185 | through both levels the top process reports exactly the code a direct parent of the target would compute |
| `Launcher.LaunchFailureSurfacesAsOne` | intermediary/intermediary.c:72-80 | a usage error or exec failure in the final child surfaces at the top as exit 1 |
| `Launcher.SecondForkFailureSurfaces` | intermediary/intermediary.c:148-151 | a failed second fork surfaces at the top as exit 255 |
| `Launcher.OnlyFirstChildKillsGroup` | intermediary/intermediary.c:176-184 | when the launching process dies the top process exits 1 without signalling, and the first child is the one whose `kill_process_group` would issue SIGTERM and SIGKILL to the top process's group (intended cleanup) |
| `Launcher.FirstChildKilledByOwnSigterm` | intermediary/intermediary.c:176-179 | as written the first child sends only SIGTERM to the top process's group, is terminated by it, and a final child ignoring SIGTERM keeps running |
| `Exec.CommandContext` | exec.go:46-54 | on the call that runs the extraction: the intermediary is launched with argument vector `path, name, arg...` under the caller's context, and an extraction error panics |
| `Exec.Command` | exec.go:56-58 | `Command` is `CommandContext` with the background context |
| `Exec.ArgumentsReachTarget` | exec.go:53 | the target receives exactly `name, arg...`, or the final child exits 1 if exec fails |
| `Exec.PlatformKey` | exec.go:71 | the lookup key is `GOARCH`, a dash, then `GOOS`, and splits back into the two at that dash |
| `Exec.UnsupportedError` | exec.go:73 | the error text is "unsupported architecture " followed by the platform's `GOARCH-GOOS` key |
| `Exec.LookupTarget` | exec.go:71-74 | a platform is supported exactly when its `GOARCH-GOOS` key is in the table |
| `Exec.KeySplitsUniquely` | exec.go:71 | a `GOARCH-GOOS` key of dash-free names determines both names |
| `Exec.TargetMapIsProduct` | exec.go:33-38 | the table holds exactly amd64 and arm64 on linux and darwin, mapped to `x86_64`/`aarch64` and `linux`/`macos` |
| `Exec.TableEntryIsNamed` | exec.go:33-38 | every key of the table is a supported CPU and system, and its value joins their reference names with a dash |
| `Exec.NamedPlatformInTable` | exec.go:33-38 | every supported CPU and system pair has an entry in the table |
| `Exec.AssetPath` | exec.go:76 | the asset name is `intermediary/intermediary-` + target + `.gz` |
| `Exec.AssetPathRoundTrip` | exec.go:76 | asset names and targets correspond one to one |
| `Exec.ExtractBinary` | exec.go:64-96 | succeeds exactly when every step succeeds; otherwise returns the error of the first failing step; only then is `extractedPath` set, to the temporary file; an unsupported platform gives the "unsupported architecture" error and opens no asset; the opened asset is the platform's |

## Left out

- System calls (`fork`, `execvp`, `waitpid`, `kill`, `killpg`, `setpgrp`, `getpid`, `getppid`): their results are inputs; process semantics and races between processes are not modelled.
- Launcher.OnlyFirstChildKillsGroup: states the calls the intended cleanup makes; in the source the first child belongs to the group it signals (inherited from the `setpgrp` before the first fork) and installs no handler, so its own SIGTERM at intermediary.c:44 terminates it and the SIGKILL at :56 and the `exit(1)` at :95 are never reached.  What the source does is `Launcher.FirstChildKilledByOwnSigterm`.
- Watchdog.Step: on parent death it exits 1 after the intended cleanup; a caller that does not lead its group would still be hit by the group's SIGKILL, so for the first child that exit 1 is not observed.  Its parent has already exited, so nothing reads that code.
- `kill(parent, 0)` failing with EPERM for a live parent owned by another user reads as a dead parent in the source; the model takes the probe's boolean as given.
- Timing: the 50ms polling sleep and the 100ms grace between SIGTERM and SIGKILL; termination of the loop depends on the environment, so properties are stated over finite sequences of rounds and liveness is not proved.
- `debug_log` and the text of `perror` and the usage message: output only (for the two `killpg` calls, the model keeps which error numbers would be reported; the `perror` calls after `waitpid`, `execvp`, both forks and `setpgrp` leave no trace in the model).
- Signal handlers: the source installs none.
- `sync.Once`: not modelled; `Exec.CommandContext` is modelled as the call that runs the extraction. In the source, a later call after a recovered panic skips the extraction and returns a command for the empty path instead of panicking.
- Gzip decompression, temporary-file creation and `Chmod`: their outcomes are inputs to `ExtractBinary`.
- Deferred `Close` calls: the source discards their errors, so they have no effect on the result.
- `os/exec.Cmd` behaviour (context cancellation, `Output`, `ExitError`) and the path resolution `exec.CommandContext` does for the program path, which is taken as given.
- `LookPath`: pure delegation to `os/exec`.
- The integration driver `testdata/main.go` and the Go tests.

## Findings

| source | as written | input that shows it | evidently intended | confidence | as-written member | corrected member |
|---|---|---|---|---|---|---|
| intermediary/intermediary.c:43-62 | `killpg(getpgrp(), SIGTERM)` also reaches the caller, which has no handler, so a caller that does not lead the group (the first child) dies before the pause and never sends SIGKILL | launching process killed while the target ignores SIGTERM (for example `sh -c "trap '' TERM; sleep 60"`): the target keeps running | SIGTERM, a grace period, then SIGKILL to the whole group, so that members ignoring SIGTERM are killed too | high, not executed | `GroupKill.KillProcessGroupAsWritten`, `GroupKill.SigtermIgnorerSurvives` | `GroupKill.KillProcessGroup` |
