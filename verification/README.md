# Verification of the agent runtime's stateful cores

Clayrune runs command-line agents under a small supervisor, the *shim*, so that a server
restart does not end them. This project models the parts of that machinery, and of a few
other stateful parts of the server, whose correctness depends on the order in which
threads, processes and crashes interleave, and proves what they promise.
`dafny verify dfyconfig.toml` checks all of it.

| files | subject |
|---|---|
| `ShimCore`, `ShimProtocol`, `ShimShape`, `ShimOrder`, `ShimTakeover`, `ShimExactlyOnce`, `ShimReuse`, `ShimProgress` | payloads from servers to a CLI's stdin, over connections that drop, with owners that reconnect, die and are displaced |
| `LogTail`, `LogTailProofs` | an incremental universal-newline splitter over a growing log |
| `Checkpoint`, `CheckpointProofs` | checkpoints taken beside a running reader; crash, adoption and resumption |
| `Projection` | which values of a session survive the checkpoint |
| `Completion`, `LineEffects` | the write-ahead record of a completion that is owed; one effect per log line over crashes and adoptions |
| `Lifetime` | the timers of a shim without a server |
| `Launch`, `LaunchProgress` | when a session directory may be reused and when a spawn is refused |
| `Cycle`, `Ledger`, `Gate`, `Prices` | billing cycles, the spend ledger, the check-then-act gate in front of it, rate cards |
| `Sever` | removing every link of a worktree before it is deleted |
| `Allowance`, `Requests`, `RequestHistory`, `Pass` | trial runs against exhaustion records, page-read requests, attended passes |

How it is built. Each source class or dictionary that is changed in place is a class whose
methods are proved against a specification function on values; the theorems are about those
functions, over all sequences of calls or all interleavings of atomic steps. A step is one
critical section of the source, or one action of the world: a reply is lost, a process dies,
a write fails, a clock is read. What the operating system, a socket or another module answers
is a parameter or an event, so the theorems hold for every answer. Beside what never happens
stands what does: which HELLO gets the shim, which call is served, let through or turned away, and
which call comes back are each given by the history of calls and answers alone. Automatic induction
is switched off at every lemma, so each proof shows its own.

Several promises hold only under a condition. Each of those is stated as an equivalence: over
all runs the promise holds if and only if the condition does, with concrete runs for the other
direction.

- A returned `send` has been written in every run exactly if a process sends nothing more to
  the shim, by this client or a new one, once a `send` of its own has raised during its retry: a
  retry that lost its connection, could not reconnect, or was answered `not_owner` leaves a
  number that the next payload may take (`ShimReuse.ExactlyOnceIffCareful`). A caller cannot tell
  these from harmless errors by what is raised: a displacement raises `ShimRefused` and a failed
  connect `ShimUnavailable` on the first attempt too, so a caller that is to be sure stops sending
  after either. That no payload is
  written twice holds regardless, and so does takeover safety: above the number its HELLO was
  answered with, a connection is acknowledged payloads of its own process only
  (`ShimTakeover.AcksAreOwn`).
- A resumed session equals the uninterrupted one in every run, and every whole checkpoint is
  consistent until the session is wound up at the end of its log, exactly if checkpoints with a
  line in flight are not adopted, or are only taken once that line is done, with a stamp or
  without. `assess` does not look at `inflight_included`, the Mode B reader goes on with the line
  after `ack`, and a replay clears the stamp of a `begin` that was taken in the middle of one
  (`CheckpointProofs.ResumeExactIff`, `CheckpointProofs.SnapshotsConsistentIff`).
- The offset on disk never goes back in any run exactly if nothing lands between a replay's read of
  a checkpoint and its write of it: that write takes neither the boundary nor the lock
  (`CheckpointProofs.DiskNeverGoesBackIff`).
- A completion that is owed stays on record exactly if nothing stamps over a stamp, writes a
  checkpoint over a stamp on disk that is not the session's own, or replays the record of a
  session that carries a stamp (`Completion.KeptIffCareful`). The retry looks for that stamp, but
  some time before it reads the record; the replay at boot does not look.
- Each log line has its effect exactly once, over crashes, adoptions and replays, exactly if effects
  wait for their stamp to be on disk, nothing stamps over a stamp, and nothing is written while a
  replay is under way: `begin` only logs that its checkpoint did not land, and a replay may put the
  checkpoint back to before a line that has had its effect; either way the line is read again
  under another stamp (`LineEffects.ExactlyOncePerLineIff`).
- No CLI is started beside a launch whose fate is open, no directory is cleared under a live
  shim, and what is declared over is over, exactly if none of seven things can happen
  (`Launch.SafeIffCareful`): the server dies or leaves by an exception between launch and marker;
  a detached start is reported as failed although it succeeds (`spawn_detached` does so with a
  trampoline that outlives its wait); a manifest that is there is not read; nor a marker (`read_json`
  answers None either way); a marker cannot be written (`resolve` then raises and leaves none); an
  exit record is believed although the manifest came after the last look for it; a manifest cannot
  be written, which the shim only logs, so that the exit record of a CLI that ran stands alone.
- What the ledger has for a billing cycle keeps to its bound exactly if the gate reads the ledger
  and the clock is not set back (`Gate.BookBoundedIff`). What the calls sent in a cycle cost does
  so exactly if, besides, none is recorded after one of the next cycle (`record` computes its cycle
  before it takes the lock, and then prunes the newer one), every call that was sent is recorded,
  and at its cost, and nothing saves a ledger it could not read, be it `record`, `halt` or the
  `note_error` after any plain failure (`Gate.BoundedIff`). A timeout is never recorded, though the
  call may be billed. The ledger's totals are those of all calls, in every history with time going
  forward, exactly if every call can read it (`Ledger.ConservesIffRead`).
- The gate asks for the price of an empty prompt; every call has a price exactly if some tier is
  unbounded, and calls without one are recorded at no cost (`Prices.EveryCallPricedIff`,
  `Prices.UnpricedCallsAreFree`).
- A failed read after `finished()` held is taken for the end of the file. On any schedule on which
  the file has stopped growing by then, the lines handed out are the file's, and a tail that ends on
  its own has handed out all, exactly if each such read comes when nothing is left to read or the
  buffer ends in a CR that no LF follows (`LogTailProofs.TailRefinesIff`).
- A value comes back from a checkpoint unchanged exactly if it has no tuple, no dictionary with a
  key that is not a string or that is just a tagged list, and only scalars in its sets
  (`Projection.RoundTripIff`).
- The walk before a worktree is deleted answers yes exactly if everything was listed and no link is
  left, in every tree, if and only if no test of an entry of a listed directory fails
  (`Sever.OkIffNoLinkLeft`). Both tests take a failed lookup for a no, so in a directory that can be
  listed and not searched a symlink is passed over.

Where the code and its documentation differ, the code is modelled. The adoption module's
documentation says that a forced checkpoint is taken ahead of a completion's effect; `ack`
takes one after it, with the line still in flight. `SpawnResult.ok == False` is documented as
"nothing was left running", which a trampoline timeout does not establish.

## Model

| member | source | states |
|---|---|---|
| ShimCore.Shim.constructor | mc/agent_shim.py:515-536 | a shim starts at number 0, owned by the process its spec names, if any |
| ShimCore.Shim.ClaimOwner | mc/agent_shim.py:648-663 | a live owner with another pid blocks; if the owner is dead, of the claimant's own pid, or nobody, the claimant's connection owns the shim; nothing else changes |
| ShimCore.Shim.ReleaseOwner | mc/agent_shim.py:665-672 | only the owning connection gives up ownership, its process stays recorded, and the run counts as collected from then on exactly if the CLI has exited |
| ShimCore.Shim.SampleSender | mc/agent_shim.py:771-773 | the process a payload is accounted to is the owner's, sampled before the payload is read |
| ShimCore.Shim.DecideSend | mc/agent_shim.py:777-794 | under the send lock: not owner, duplicate, gap, stdin closed or write, in that order; only a write changes the state |
| ShimCore.Shim.WriteReturns | mc/agent_shim.py:795-801 | a write that returns puts the payload at the end of the CLI's input; one that fails closes stdin and frees the lock |
| ShimCore.Shim.FinishSend | mc/agent_shim.py:802-816 | the number is taken only if the sender's process still owns the shim, compared by pid |
| ShimCore.Shim.CloseCliStdin | mc/agent_shim.py:602-611 | waits for the send lock and closes stdin, changing nothing else |
| ShimCore.Shim.CliExits | mc/agent_shim.py:840-845 | the exit is recorded, so that a release from now on collects the run; nothing else changes |
| ShimShape.ShapeStep | mc/agent_shim.py:699-816 | every step of threads, clients and world keeps the structural invariant, in particular that a writer's frame carries the next number and that the numbers given out are those of payloads written |
| ShimOrder.OrderStep | mc/agent_shim.py:761-816 | every step keeps the order invariant: what waits at the owner's connection is newer than all written, or will be answered as a duplicate |
| ShimOrder.AtMostOnceInOrder | mc/agent_shim_client.py:373-405 | over every run, whatever callers do after errors: no payload is written twice, one process's payloads are written in call order, numbers go one each to written payloads |
| ShimTakeover.OwnerTakesNumbers | mc/agent_shim.py:771-816 | over every run, whatever happens in between: if a connection owns the shim now and later, every number given out meanwhile went to a payload of its process |
| ShimTakeover.AcksAreOwn | mc/agent_shim.py:777-816 | over every run: a connection whose HELLO was answered with n never gets an ACK above n but for a number given to a payload of its own process |
| ShimTakeover.ClaimExact | mc/agent_shim.py:648-663 | in every reachable world: a HELLO makes its connection the owner, and cuts the one before it, if and only if no other live process owns the shim; otherwise it is refused and nothing else happens |
| ShimTakeover.RestartTakesOver | mc/agent_shim.py:648-663 | in every reachable world whose owner is dead, a server that starts takes the shim over with its first call |
| ShimExactlyOnce.ExactlyOnce | mc/agent_shim_client.py:373-405 | over every run in which a process sends nothing more once in doubt: each `send` that returned has its payload in the CLI's input exactly once, under its number and in call order |
| ShimExactlyOnce.NumbersGoToTheOwner | mc/agent_shim.py:771-816 | a number is taken only by a finished write of the present owner's process, one at a time; a displaced owner's late write takes none and is not acknowledged |
| ShimReuse.BrokenByReuse | mc/agent_shim_client.py:380-405 | going on after any one of the three doubtful errors, with the same client or with a new one each time, admits a run in which a returned `send` was never written |
| ShimReuse.ExactlyOnceIffCareful | mc/agent_shim_client.py:373-405 | every returned `send` is written in every run if and only if no process goes on sending after a doubtful error, whether it renews its client or not |
| ShimProgress.UndisturbedCallReturns | mc/agent_shim_client.py:373-405 | a call that nothing disturbs returns with the next number and its payload at the end of the CLI's input, and the next one can follow in the same way |
| ShimProgress.RetryReturns | mc/agent_shim_client.py:380-393 | the retry recovers: a call whose answer was lost returns its number without a second write, one whose payload was lost has it written once and returns |
| ShimProgress.GapHeals | mc/agent_shim_client.py:402-404 | a number that is ahead of the shim's is refused without a write, and leaves the client with the shim's number and without a doubt |
| ShimProgress.RefusalsLeaveNoDoubt | mc/agent_shim_client.py:397-404 | a call that is told why it was not written (closed stdin, gap, displaced at the first attempt) raises without a doubt; only displacement drops the connection |
| ShimProgress.NothingAfterClose | mc/agent_shim.py:602-611 | once stdin is closed with no write under way it stays closed, and over any run nothing is written and no number is given out |
| ShimProgress.CloseIsFinal | mc/agent_shim.py:795-801 | closing stdin, and a write that fails, both lead there, with nothing written |
| LogTail.FirstEndIsFirstLine | mc/agent_shim_client.py:473-492 | the specification's first line ends at the first line break (LF, CRLF as one, lone CR) or at the end |
| LogTail.SplitConcat | mc/agent_shim_client.py:430-443 | the lines of a file, put together, give the file |
| LogTail.LinesAreNotEmpty | mc/agent_shim_client.py:473-492 | no line is empty |
| LogTail.LinesAreUniversalNewlines | mc/agent_shim_client.py:494-501 | the texts of the lines, put together, are the universal-newline translation of the file |
| LogTail.Reader.constructor | mc/agent_shim_client.py:445-465 | a tail starts with offset and committed offset at the given place and an empty buffer |
| LogTail.Reader.Cut | mc/agent_shim_client.py:473-492 | takes the first complete line off the buffer, holding back a CR that comes last unless final, and otherwise leaves the buffer alone |
| LogTail.Reader.PollOnce | mc/agent_shim_client.py:522-537 | one turn of the polling loop: closed, then read, then the end if finished was sampled before the read |
| LogTail.Reader.Attempt | mc/agent_shim_client.py:518-537 | one pass of the loop goes round, or ends with the outcome, exactly as the specification's does |
| LogTail.Reader.NextLine | mc/agent_shim_client.py:510-537 | asking for a line commits all before it, releases the boundary, and hands out what the specification says with the boundary held; the offset moves by just that line |
| LogTailProofs.CutIsStable | mc/agent_shim_client.py:473-492 | a line cut early is the line whatever bytes follow, so no CRLF is cut in two |
| LogTailProofs.TurnRefines | mc/agent_shim_client.py:522-537 | a turn keeps the buffer equal to the stretch of the file after the offset, or hands out the file's next line |
| LogTailProofs.TailRefinesSplit | mc/agent_shim_client.py:510-537 | over any arrival and polling in which no read fails after finished, the lines handed out followed by the lines of the rest are the lines of the file; a tail that ends has handed out all |
| LogTailProofs.PollingDoesNotMatter | mc/agent_shim_client.py:510-537 | two schedules that run to the end hand out the same lines |
| LogTailProofs.TailEnds | mc/agent_shim_client.py:531-536 | once finished, with the file no longer growing and readable, iteration ends within the remaining work |
| LogTailProofs.FailedReadExact | mc/agent_shim_client.py:522-547 | a failed read after finished stops a tail with an empty buffer, with everything handed out if and only if nothing was left; otherwise it hands out the buffer, which is the next line if and only if nothing was left or it ends in a CR that no LF follows |
| LogTailProofs.TailRefinesIff | mc/agent_shim_client.py:510-547 | on any schedule on which the file has stopped growing once finished: the lines handed out are the file's and a tail that ends on its own has handed out all, if and only if every failed read after finished is harmless in that way |
| LogTailProofs.FailedReadCutsCrlf | mc/agent_shim_client.py:539-547 | a concrete schedule with such a read cuts a CRLF in two |
| LogTailProofs.SplitComposes | mc/agent_shim_client.py:430-443 | after the first lines, the rest of the file splits into the rest of the lines |
| LogTailProofs.CommittedIsDone | mc/agent_shim_client.py:503-518 | over any calls and any polling: the offset is the start plus all lines handed out, and the committed offset the start plus those handed out before the last call |
| LogTailProofs.ClosedStops | mc/agent_shim_client.py:522-524 | a closed tail with no complete line stops at once and moves nothing |
| Checkpoint.Checkpoints.constructor | mc/agent_shim_adopt.py:264-269 | a new process knows of no offset on disk, whatever the disk holds |
| Checkpoint.Checkpoints.WriteCheckpoint | mc/agent_shim_adopt.py:277-321 | writes exactly if the boundary came in time, the offset is not stale and the write works; then disk and registry hold session, stamp and the offset, past the line in flight if it was forced; otherwise both are as they were |
| Checkpoint.WriteIsItsSteps | mc/agent_shim_adopt.py:277-321 | a call by another thread is start, build, then drop, or replace and record, in the transition system; a call that fails is start and failure, with or without a build, and leaves everything as it was |
| Checkpoint.BusyBoundaryRefuses | mc/agent_shim_adopt.py:296-299 | while the boundary is held no such call can start in the transition system, and one that did not get it leaves disk and registry as they were |
| CheckpointProofs.FirstNextIsItsSteps | mc/agent_shim_client.py:510-537 | asking a tail for its first line is cut and hand-out in the transition system, with the tail's line and both of its offsets |
| CheckpointProofs.NextIsItsSteps | mc/agent_shim_client.py:510-537 | asking for the line after one that has been handled is ask, release, cut and hand-out there, with the tail's line and both of its offsets |
| CheckpointProofs.AdoptedAsSaved | mc/agent_shim_adopt.py:640-663 | a session comes back from a checkpoint that owes nothing, as it was saved, with the reader at its offset |
| CheckpointProofs.ReachedOnce | mc/agent_shim_adopt.py:10-19 | at one offset of the log there is one uninterrupted state |
| CheckpointProofs.SoundStep | mc/agent_shim_client.py:503-518 | under a policy that adopts no in-flight checkpoint, or has forced ones taken only once the line is done: every step of reader, writers, replay, crash and adoption keeps the reader on the uninterrupted run and every whole checkpoint sound |
| CheckpointProofs.SnapshotsConsistent | mc/agent_shim_adopt.py:277-321 | in every run of the source in which only whole checkpoints are adopted, a checkpoint on disk that was not forced pairs its offset with exactly the session that the lines before it make, short of a session that is being wound up at the end of its log |
| CheckpointProofs.CheckpointCoversHandedOut | mc/agent_shim_client.py:445-461 | in every run, whatever is adopted: when such a checkpoint lands no line is being applied, and it covers every line handed out |
| CheckpointProofs.DiskNeverGoesBack | mc/agent_shim_adopt.py:301-314 | along any run in which nothing lands while a replay is under way, over any number of processes and whatever is adopted, the offset on disk never decreases |
| CheckpointProofs.OverlapGoesBack | mc/agent_shim_completion.py:165-190 | for any log of two lines, a run in which the replay of the first line's completion writes its checkpoint over the second's |
| CheckpointProofs.DiskNeverGoesBackIff | mc/agent_shim_completion.py:187-190 | over all runs the offset on disk never decreases if and only if nothing lands between a replay's read and its write |
| CheckpointProofs.NeverStale | mc/agent_shim_adopt.py:304-308 | with one tail per launch no snapshot is ever behind the disk: the boundary alone orders them |
| CheckpointProofs.ResumeEquivalent | mc/agent_shim_adopt.py:640-663 | under the policies of `SoundStep`: a session that crashed and was adopted any number of times is at every line boundary where one that never stopped is, and ends as it ends |
| CheckpointProofs.NoLineLostOrRepeated | mc/agent_shim_adopt.py:10-19 | under the same policies a session that collects its lines ends with exactly the file's lines |
| CheckpointProofs.WholeAdoptionsAreExact | mc/agent_shim_adopt.py:457-536 | a run of the source's rules in which only whole checkpoints are adopted resumes exactly |
| CheckpointProofs.EarlyAckLosesTheRest | mc/agent_shim_completion.py:73-83 | an `ack` before the line is done, a crash and an adoption (of a session that is in flight, as `assess` asks) lose the rest of the line's handling, whatever else the policy forbids |
| CheckpointProofs.ReplayedBeginLosesTheRest | mc/agent_shim_completion.py:187-190 | so do a `begin` before the line is done, a crash, a replay that clears its stamp, and an adoption |
| CheckpointProofs.HalfSpoilsTheNext | mc/agent_shim_adopt.py:457-536 | and the next whole checkpoint pairs an offset with a session that no uninterrupted run has there |
| CheckpointProofs.WindUpSpoils | mc/blueprints/agent_routes.py:6204-6234 | a whole checkpoint taken while the session is wound up, which does not wait for the boundary, may hold any session |
| CheckpointProofs.SnapshotsConsistentIff | mc/agent_shim_adopt.py:457-536 | whole checkpoints are consistent in every run, short of the winding up, if and only if in-flight checkpoints are not adopted or are only taken once the line is done |
| CheckpointProofs.ResumeExactIff | mc/agent_shim_adopt.py:457-536 | all runs resume exactly if and only if in-flight checkpoints are not adopted or are only taken once the line is done, stamped or not |
| Projection.SetReturns | mc/agent_shim_adopt.py:132-147 | a set comes back if and only if its elements are scalars |
| Projection.RoundTripIff | mc/agent_shim_adopt.py:132-159 | decoding the encoding of a value gives the value if and only if it is faithful at every depth: no tuple, no key that is not a string, no dictionary that is just a tagged list, no set of anything but scalars |
| Projection.KeyReturnsAsText | mc/agent_shim_adopt.py:132-159 | a key that is no string comes back as the string it is written as |
| Projection.SessionReturnsIff | mc/agent_shim_adopt.py:163-205 | all carried values come back under their names if and only if they are faithful; the others are named as skipped, and those denied by name are neither |
| Projection.LogTailReturns | mc/agent_shim_adopt.py:183-205 | the restored log has exactly the last lines, with their own times if those were kept, and the rest are counted |
| Completion.Completions.Begin | mc/agent_shim_completion.py:58-70 | stamps the session and, if the checkpoint lands, the disk; nothing at all when the session is not shim-run |
| Completion.Completions.Ack | mc/agent_shim_completion.py:73-83 | clears session and disk only if nothing is owed, and says whether that landed |
| Completion.ReplayPending | mc/agent_shim_completion.py:149-196 | one pass clears exactly the stamps whose known runner reported success and whose write landed, reports those and the retained ones, and touches no other directory |
| Completion.ObligationsKept | mc/agent_shim_completion.py:1-27 | without a lapse, over any crashes and failed replays, an obligation that was ever on disk is on disk or its effect is durable |
| Completion.BootDischarges | mc/agent_shim_completion.py:149-190 | in every reachable state of a server that is down: what is owed on disk is met by the next boot's replay, if its runner succeeds and its write lands, and the stamp is off |
| Completion.TurnDischarges | mc/agent_shim_completion.py:58-83 | without a crash, begin, effect and ack leave the effect durable and no stamp behind |
| Completion.FailedReplayRetains | mc/agent_shim_completion.py:165-196 | a replay whose runner fails, or whose write does not land, leaves session and disk as they were |
| Completion.BeginOverStampLoses | mc/agent_shim_completion.py:58-70 | stamping a session that carries a stamp loses the first wake |
| Completion.WriteOverOwedLoses | mc/agent_shim_adopt.py:277-321 | a later launch's checkpoint over an owed record loses it |
| Completion.WriteDuringReplayLoses | mc/agent_shim_completion.py:184-190 | so does one while that record is replayed: clearing it from the checkpoint as read wipes the new stamp |
| Completion.ReplayOverStampLoses | mc/agent_shim_completion_retry.py:76-84 | a replay that reads the record of a session stamped since it was looked at wipes the stamp of the session's next completion |
| Completion.KeptIffCareful | mc/agent_shim_completion.py:58-83 | obligations are kept over all runs if and only if none of the three lapses can happen, each a test of the session's stamp and the one on disk |
| LineEffects.UnlandedEffectRepeats | mc/agent_shim_completion.py:66-70 | an effect whose stamp did not reach the disk is repeated under another stamp when the line is read again |
| LineEffects.SecondStampLoses | mc/agent_shim_completion.py:58-83 | a line whose wake stays owed is on no record any more once the next line is stamped |
| LineEffects.WriteDuringReplayRepeats | mc/agent_shim_completion.py:165-190 | a replay that writes its checkpoint back over that of a later line has that line's effect repeated |
| LineEffects.SoundRun | mc/agent_shim_completion.py:1-27 | every run without lapses, replays in steps beside the reader included, keeps: at most one effect a line, none for a line that would be read again, one or a stamp on disk for every other |
| LineEffects.ExactlyOncePerLineIff | mc/agent_shim_completion.py:1-27 | over any crashes, adoptions and replays each line has its effect exactly once, or is still stamped on disk, if and only if effects wait for their stamp to land, nothing stamps over a stamp, and nothing is written while a replay is under way |
| LineEffects.LineIsDone | mc/agent_shim_completion.py:58-83 | in every careful run a line that nothing disturbs has its effect, and the checkpoint is behind it |
| LineEffects.RestartFinishes | mc/agent_shim_completion.py:149-190 | so has the line that was stamped on disk at a crash, once it is replayed, and the adopted reader goes on behind it |
| Lifetime.LifetimePolicy.constructor | mc/agent_shim.py:427-438 | the timers start unset |
| Lifetime.LifetimePolicy.Tick | mc/agent_shim.py:440-464 | one tick is one step of the specification, fields and answer |
| Lifetime.ActionExact | mc/agent_shim.py:411-464 | every tick of every history answers exactly: nothing while attached, expiry on an ownerless run of `orphan_max`, stdin closed on the first tick ownerless and silent for `grace` with the tree idle, after the exit the end once collected or past `exit_grace` |
| Lifetime.ClosesOnce | mc/agent_shim.py:460-463 | stdin is closed at most once |
| Launch.PriorGone | mc/agent_spawn.py:245-261 | true exactly if some look found shim and CLI both positively gone |
| Launch.AwaitPrior | mc/agent_spawn_interactive.py:88-113 | free exactly if some look found no manifest or both gone; a lingering shim is collected exactly if seen before that |
| Launch.ConfirmGone | mc/agent_uncertain_launch.py:64-78 | confirmed exactly if the first pass that sees anything of the launch finds its teardown confirmed, or no manifest but its exit record |
| Launch.ConfirmedIsFinished | mc/agent_uncertain_launch.py:64-78 | without a lapse, a launch confirmed over, by teardown or by its exit record read after a look that found no manifest, has no running CLI, will start none, and its shim writes nothing more |
| Launch.ServerStep | mc/agent_spawn.py:330-378 | without a lapse every action of the server keeps safety: each start, reuse, attach, look, report, teardown, marker and refusal |
| Launch.ProcessStep | mc/agent_shim.py:626-637 | without a lapse every step of any launch's processes, at any time, keeps it too; in particular manifests that can be written stand before exit records |
| Launch.CrashDoubles | mc/agent_spawn.py:369-394 | a server that dies, or leaves by an exception, before writing the marker lets the next spawn start beside the launch |
| Launch.TimeoutDoubles | mc/agent_shim_client.py:148-152 | a trampoline that outlives its wait has its shim running beside the fallback |
| Launch.MissedManifestReuses | mc/agent_shim_client.py:253-260 | a manifest that is not read is discarded with its shim still running |
| Launch.MissedMarkerDoubles | mc/agent_uncertain_launch.py:46-48 | a marker that is there and not read lets the next spawn start beside the launch |
| Launch.UnwrittenMarkerDoubles | mc/agent_uncertain_launch.py:51-54 | so does a marker that could not be written |
| Launch.ExitAloneSettlesEarly | mc/agent_shim_client.py:775-783 | the exit record of a CLI that ran, read after a look that came before its manifest, settles the launch with its shim still running |
| Launch.UnwrittenManifestSettlesEarly | mc/agent_shim.py:633-637 | a manifest that cannot be written leaves the exit record of a CLI that ran alone, and the launch is settled and its prompt sent again with its shim still running |
| Launch.SafeIffCareful | mc/agent_uncertain_launch.py:81-110 | over all runs no CLI starts beside an open launch, no directory is cleared under a live shim and what is settled is over, if and only if none of the seven lapses can happen |
| LaunchProgress.AttachedWhenItComes | mc/agent_shim_client.py:776-816 | from any state a run can reach: a launch whose CLI starts and whose manifest comes is attached to |
| LaunchProgress.FailedStartFallsBack | mc/agent_shim_client.py:777-783 | one that reports that it could not start is settled, and a CLI is started without a shim |
| LaunchProgress.TornDownFallsBack | mc/agent_shim_client.py:789-796 | one whose manifest came and whose processes are found gone is settled, and a CLI is started without a shim |
| LaunchProgress.EndedMakesRoom | mc/agent_spawn.py:330-348 | one that has ended, shim and CLI, leaves a directory that the next spawn may clear |
| LaunchProgress.UncertainStopsAll | mc/agent_uncertain_launch.py:46-54 | one that is given up on is marked, and then no spawn goes ahead unless the marker is missed |
| LaunchProgress.ConfirmedMakesRoom | mc/agent_uncertain_launch.py:81-110 | until it has come and ended: it is confirmed over, and the next spawn goes ahead |
| Cycle.DayBeforeIsAdjacent | mc/api_credits_budget.py:298-302 | the day before a date is the latest earlier date |
| Cycle.CalendarIsGregorian | mc/api_credits_budget.py:258-261 | the twelve months have the lengths of the Gregorian calendar in every year |
| Cycle.BoundsAreNearestResets | mc/api_credits_budget.py:264-276 | the bounds are the last reset date not after today and the first after it, for every date and reset day |
| Cycle.CycleHoldsExactlyItsDays | mc/api_credits_budget.py:264-276 | today is in its cycle, and another day has the same bounds exactly if it is in it too |
| Cycle.NextCycleStartsAtReset | mc/api_credits_budget.py:264-276 | the next reset starts the following cycle |
| Cycle.PreviousCycleEndsAtStart | mc/api_credits_budget.py:298-302 | the day before the start is in the cycle that ends there |
| Cycle.CyclesAreOrdered | mc/api_credits_budget.py:264-276 | cycles are ordered like their days |
| Cycle.PreviousIsAdjacent | mc/api_credits_budget.py:298-302 | no cycle starts between a cycle and its previous one |
| Ledger.Charge | mc/api_credits_budget.py:308-343 | the cycle's totals with the call counted, its entries capped |
| Ledger.Prune | mc/api_credits_budget.py:298-305 | keeps the current and the previous cycle, unchanged, and no other |
| Ledger.Credits.constructor | mc/api_credits_budget.py:286-290 | an empty ledger |
| Ledger.Credits.Record | mc/api_credits_budget.py:315-352 | the whole new ledger, from the old one or from nothing if that could not be read, and whether the notice is sent |
| Ledger.Credits.RecordIn | mc/api_credits_budget.py:328-350 | the part under the lock, for a cycle computed before it, from what was loaded |
| Ledger.Credits.Halt | mc/api_credits_budget.py:384-400 | the halt is of this cycle, and a notice goes out unless the loaded ledger's cycle had one |
| Ledger.Credits.ClearHalt | mc/api_credits_budget.py:403-407 | only the halt goes; a ledger that could not be read is not saved |
| Ledger.Credits.NoteError | mc/api_credits_budget.py:410-416 | saves what was loaded, and so forgets all if the ledger could not be read |
| Ledger.LedgerConserves | mc/api_credits_budget.py:298-343 | with time going forward and the ledger read by every call, a retained cycle's totals are those of every call ever recorded in it, and exactly the current and the previous recorded cycle are retained |
| Ledger.ConservesSince | mc/api_credits_budget.py:286-296 | with time going forward and any calls made on a ledger that could not be read: the same for the calls since the last such save |
| Ledger.UnreadNoteLoses | mc/api_credits_budget.py:410-416 | a failure noted on a ledger that could not be read leaves nothing of the calls before |
| Ledger.ConservesIffRead | mc/api_credits_budget.py:286-343 | all calls are in the totals, in every history with time going forward, if and only if every call can read the ledger |
| Ledger.OneNoticePerCycle | mc/api_credits_budget.py:355-365 | for calls in the order of their cycles, on a ledger that is read each time, crossing and halt together send at most one notice per cycle |
| Ledger.NoticeExactly | mc/api_credits_budget.py:355-365 | on such a ledger a cycle gets its notice if and only if it was halted, or some call that is no estimate was recorded in it that left the sum of all recorded in it at the stop point or above |
| Ledger.HaltedExactly | mc/api_credits_budget.py:384-407 | the ledger names a cycle as halted if and only if it was, with no clear and no halt of another cycle since |
| Ledger.SpentExactly | mc/api_credits_budget.py:328-345 | the amount of a cycle that no recorded one comes after is the sum of all calls recorded in it, kept or not |
| Ledger.LateRecordDropsLaterCycles | mc/api_credits_budget.py:315-345 | a record drops every later cycle, and keeps all from its previous one on if and only if there is no later one |
| Gate.StepHolds | mc/api_credits_offload.py:100-132 | every step of every call keeps the bound, on the booked side and on the spent side, with one maximal cost reserved per call that got through |
| Gate.OvershootBounded | mc/api_credits_offload.py:100-132 | over every interleaving of k calls, a cycle's recorded amount stays below the stop point plus k maximal costs, whatever is recorded late, low or not at all |
| Gate.UnreadGateOvershoots | mc/api_credits_budget.py:115-123 | a gate that takes an unreadable ledger for empty lets both amounts pass the bound |
| Gate.ClockBackOvershoots | mc/api_credits_budget.py:440-460 | so does a clock set back into the cycle before |
| Gate.BookBoundedIff | mc/api_credits_budget.py:440-460 | for any number of calls, the recorded amount is bounded over all runs if and only if the gate reads the ledger and the clock is not set back |
| Gate.LagStep | mc/api_credits_offload.py:112-118 | without lapses the ledger lags behind the cost of the calls sent in the present cycle by no more than those still to be recorded |
| Gate.CheckHolds | mc/api_credits_budget.py:440-460 | so a call the gate lets through leaves room for the costs of all that are under way |
| Gate.TotalBounded | mc/api_credits_offload.py:100-132 | without lapses the cost of the calls sent in a cycle, counted as they are sent, keeps to the same bound |
| Gate.LateRecordOvershoots | mc/api_credits_budget.py:315-345 | a call recorded after one of the next cycle wipes that from the ledger and lets its cost pass the bound |
| Gate.LostLedgerOvershoots | mc/api_credits_budget.py:384-417 | so does any call that saves a ledger it could not read: `record`, `halt` or the `note_error` after a plain failure |
| Gate.UnrecordedOvershoots | mc/api_credits_transport.py:106-113 | so do calls that are sent and not recorded, or recorded at less than their cost |
| Gate.BoundedIff | mc/api_credits_offload.py:100-132 | for any number of calls, the cost of the calls sent in a cycle is bounded over all runs if and only if none of the six lapses can happen |
| Gate.RecordsAsTheLedger | mc/api_credits_budget.py:298-343 | recording a call in the ledger changes the cycles' totals as recording does in the gate's model, with cycles numbered by month |
| Prices.CleanIsSorted | mc/api_credits_budget.py:173-192 | the cleaned tiers are the given ones, bounded by their bound and unbounded last |
| Prices.PriceIsTightest | mc/api_credits_budget.py:220-231 | a prompt has a price exactly if some tier admits it, and it is that of an admitting tier with the least bound |
| Prices.GateNeedsOneTier | mc/api_credits_budget.py:253-255 | the gate counts a model as priced exactly if it has a tier |
| Prices.EveryCallPricedIff | mc/api_credits_budget.py:239-250 | every call has a cost if and only if some tier is unbounded |
| Prices.UnpricedCallsAreFree | mc/api_credits_offload.py:113-118 | calls without a price leave the spent amount and the gate as they were, however many go out |
| Prices.TryOffload | mc/api_credits_offload.py:100-136 | gate, key, send, record and halt or note in that order, each with the cycle its own reading of the clock gives and on what it could load of the ledger: the whole new ledger and whether the call was served |
| Prices.ServedExactly | mc/api_credits_offload.py:100-136 | over every history of the ledger, read or not: a call is served if and only if what is known of the history lets it out (no halt of its cycle stands, less than the stop point was recorded in it, some tier is there, the settings are on), there is a key and the reply is ok; one that is not let out leaves the ledger as it was, one that is leaves exactly its record and the halt or note its reply asks for |
| Prices.EachTokenAtItsRate | mc/api_credits_budget.py:239-250 | one more token of a kind costs that kind's rate, nothing costs nothing, and all but output counts for the tier |
| Sever.FileSystem.Entry | mc/agent_worktree.py:350-365 | a link that is told as one is removed unless that fails or it is back at once, a directory is to be walked, anything else is left; a failed test counts as a no |
| Sever.FileSystem.Entries | mc/agent_worktree.py:350-365 | all entries of a listing are dealt with, nothing else changes, and failures are told |
| Sever.FileSystem.Visit | mc/agent_worktree.py:342-365 | a directory that cannot be listed changes nothing and is told |
| Sever.FileSystem.SeverLinks | mc/agent_worktree.py:322-366 | the walk ends; exactly the removable links reachable through listable directories are gone; the answer is whether everything was listed and every link told as one removed |
| Sever.FileSystem.Remove | mc/agent_worktree.py:789-821 | a refusal has removed links at most; after a walk that answered yes what the delete took is gone, be it all or not, and yes is the answer unless the last attempt raised; with no link overlooked nothing outside the root is lost |
| Sever.OnlyLinksGo | mc/agent_worktree.py:322-333 | only links strictly below the root are removed |
| Sever.OkExact | mc/agent_worktree.py:322-366 | in any tree: yes if and only if every directory was listed and each link left was overlooked |
| Sever.OverlookedIsWrong | mc/agent_worktree.py:286-306 | for every path whose test can fail in a listed directory there is a tree with a link there and a wrong yes |
| Sever.OkIffNoLinkLeft | mc/agent_worktree.py:286-333 | the answer is yes exactly if every directory was listed and no link is left, in every tree, if and only if no test of an entry of a listed directory fails |
| Sever.DeleteStaysInsideIff | mc/agent_worktree.py:322-333 | a delete that follows links, through any number of them, stays inside the root if and only if every link there points inside |
| Sever.DeleteReachesOnlyTheTree | mc/agent_worktree.py:369-376 | after a yes with no link overlooked, even a delete that follows links reaches nothing outside the root |
| Sever.LeftLinkReachesItsTarget | mc/agent_worktree.py:327-333 | a link left behind would let such a delete out |
| Allowance.Allowances.RecordExhaustion | mc/allowance_state.py:94-117 | a fresh record replaces the vendor's, others unchanged; an empty vendor records nothing |
| Allowance.Allowances.ClearExhaustion | mc/allowance_state.py:120-127 | the vendor's record goes, others unchanged |
| Allowance.Allowances.Get | mc/allowance_state.py:204-232 | an expired record goes, a stale one without a reset time is marked, others unchanged |
| Allowance.Allowances.ClaimTrial | mc/allowance_state.py:235-255 | a run is granted if and only if the record stands, is or becomes unverified, and no trial is active |
| Allowance.GrantsApart | mc/allowance_unverified.py:93-112 | over any interleaving of claims, records, clears and reads, two grants are at least the lesser of TTL and lapse apart |
| Allowance.GrantsOnlyStale | mc/allowance_unverified.py:93-99 | every grant is against a record without a reset time at least a TTL old |
| Allowance.NeverRefusesForEver | mc/allowance_state.py:235-255 | past its TTL and past the last grant's lapse, a claim on a standing record is granted |
| Allowance.StandsExactly | mc/allowance_state.py:204-232 | over every run: a record with a reset time stands unchanged until the first look at or after that time and is gone then; one without stays, and is unverified if and only if it was looked at a TTL after it was made |
| Allowance.GrantedExactly | mc/allowance_state.py:235-255 | over every run: a claim is granted if and only if the last record has no reset time, was looked at a TTL after it was made, and no run was granted on it less than the lapse ago |
| Requests.Board.CountPending | mc/browser_agent_read_requests.py:67-68 | the number of the session's open requests |
| Requests.Board.OpenRequest | mc/browser_agent_read_requests.py:57-80 | the answer, and the whole new store of requests and stamps |
| Requests.Board.Settle | mc/browser_agent_read_requests.py:95-102 | succeeds exactly on a pending request, and that one is settled |
| Requests.Board.GrantOnce | mc/browser_agent_read_requests.py:105-117 | expired passes go, the oldest go to make room, the new pass is last |
| Requests.Board.ConsumeOnce | mc/browser_agent_read_requests.py:136-139 | succeeds exactly if the pass is there, and it is not there afterwards |
| Requests.StoresAreBounded | mc/browser_agent_read_requests.py:34-39 | over any run both stores and each session's open requests stay within their bounds |
| Requests.OpeningsAreSpaced | mc/browser_agent_read_requests.py:57-80 | over any run, whatever the clocks: two openings for one key are an interval apart unless one with a clock an interval later came in between |
| Requests.OneCardPerInterval | mc/browser_agent_read_requests.py:21-23 | with a clock that does not go back, two requests for one key are an interval apart, though stamps are pruned and records evicted |
| Requests.StaleClockOpensEarly | mc/browser_agent_read_requests.py:61-79 | a call that read its clock before one that overtook it opens a second request too soon |
| Requests.OnceEach | mc/browser_agent_read_requests.py:95-139 | over any run each request is settled and each pass spent at most once |
| RequestHistory.RequestsAreTheLastAsked | mc/browser_agent_read_requests.py:57-80 | over every run the store holds the last openings, up to its size, in order, and a request in it is open if and only if it was not settled |
| RequestHistory.SettledExactly | mc/browser_agent_read_requests.py:95-102 | settling succeeds if and only if the request is in the store and was not settled before |
| RequestHistory.AnsweredExactly | mc/browser_agent_read_requests.py:57-80 | with a clock that does not go back: a request is limited if and only if one for its key was opened less than the interval ago, turned away if and only if besides its session has five open, and opened otherwise |
| RequestHistory.HeldExactly | mc/browser_agent_read_requests.py:105-117 | over every run a pass is held if and only if it was granted and no call since has spent it, found it expired at another grant, or pushed it out with 49 newer ones in time |
| RequestHistory.ReadExactly | mc/browser_agent_read_requests.py:136-139 | a read succeeds if and only if such a pass with its id is held |
| Pass.Session.Evict | mc/attend_once_pass.py:75-86 | an expired pass goes, an open one stays |
| Pass.Session.GrantPass | mc/attend_once_pass.py:94-116 | an open pass is kept unless a `once` is asked to become a window; a new one is bound to the session it is granted to; the status says which |
| Pass.Session.Revoke | mc/attend_once_pass.py:129-134 | any pass goes, and the one that was open is returned |
| Pass.Session.Consume | mc/blueprints/agent_routes.py:7168-7191 | replay first, then the open pass: one bound to another session is refused, a `once` is spent and its call remembered, a window stays |
| Pass.EpisodesAreBounded | mc/attend_once_pass.py:94-134 | between one grant and the next the pass is open for less than two TTLs, upgraded at most once, bound to the session it was last granted to, and spent by at most one call, of that session |
| Pass.PassIsLastOpening | mc/attend_once_pass.py:75-116 | over every run the open pass is what the last click that opened or upgraded one made, if it was not revoked or spent since and is in time |
| Pass.ConsumeExactly | mc/blueprints/agent_routes.py:7168-7191 | over every run, what a call is told by the history alone: let through as the repeat of the last spender, or for the session that the open pass was granted to; misbound for any other session, and then nothing changes; a `once` pass is gone and its call remembered, a window stays |
| Pass.GrantExactly | mc/attend_once_pass.py:94-116 | over every run, what a click is told by the history alone, and the pass it leaves: its own unless one was open that it does not upgrade |
| Pass.RemembersTheLast | mc/attend_once_replay.py:74-82 | over every run the session remembers exactly the last identified call that spent a pass, and when |
| Pass.RepeatSpendsNothing | mc/attend_once_replay.py:56-82 | over every run: after a call has spent a pass, and with no other identified call having spent one since, its repeat within the TTL is let through and changes nothing |
| Pass.OthersAreRefused | mc/attend_once_replay.py:56-82 | over every run: with no pass open a call is let through if and only if it is the last to have spent one, in time; any other is refused |

## Left out

- ShimClient.send: its loop is modelled as phases of the transition system, not as a class, because other threads act between any two of its steps; distinct processes have distinct pids; `connect`, `close_stdin` and `status` called on their own are not modelled.
- ShimOrder.AtMostOnceInOrder: a process may replace its client but has one at a time for a shim; two at once are not modelled.
- ShimExactlyOnce.ExactlyOnce: the same; a doubtful error counts for the process and all its later clients.
- ShimCore.Shim.WriteReturns: a write that fails is taken to have put nothing into the CLI's input; it may have put a part of the payload there, after which stdin is closed.
- Bytes of a payload: a payload is named by the call it belongs to; frames that are malformed or over the size limit are not sent.
- Liveness lookups of the shim: an owner is found alive exactly while its process lives; the tolerance on creation times and reuse of a pid within it are not modelled.
- Progress of the shim protocol is stated for calls and retries that nothing disturbs (`ShimProgress`); nothing is said about a `send` that never returns because something always does.
- Text decoding, JSON syntax and rounding of amounts: bytes, value trees and integers are used instead; frozen sets, which come back as sets, count as sets. Sets are written in some order, not that of their representations. Values that no JSON writer accepts are not encoded but named.
- LineEffects.ExactlyOncePerLineIff: the completion at the end of a session (`exit`) is not one of a line and is not covered; that a finished session is not adopted keeps it from being repeated.
- Sessions changed by other threads while a reader holds a line; a checkpoint's projection is taken to restore the session (`Projection.SessionReturnsIff` says when it does).
- Checkpointer.run_once, its signatures and heartbeat, and the rest of `assess` (schemas, engines, liveness, the list of restorable readers, which is empty today): adoption may happen or not, at any time after a crash. What adoption itself sets on the session (status, process, times) is left out.
- The write lock of `write_checkpoint`: with one tail per launch every writer holds the tail's boundary, which already excludes the others.
- What completions do: a runner is a black box that is idempotent per stamp, and an `ack` with nothing owed is only made when the effect is durable.
- `_wait_cli`, `_expire_cli`, `TreeProbe` and process kills: whether the tree is busy and whether a process is gone are inputs.
- Launches of one session from two threads at once, the trampolines, prompt delivery (`_CaptureStdin`), collection of a finished CLI: spawns of a session follow one another.
- Ledger files and their atomic replacement, `status`, the texts that `note_error` keeps, settings validation; the key test's own spend is outside the bound.
- Gate.OvershootBounded: calls are bounded by their number and a largest cost, no call is recorded above its cost, settings are fixed for the run, and one server process uses the ledger. A halt shuts the gate further and is left out; that it saves the ledger is not.
- The known shared-runtime links that `unlink_runtime` removes first, scratch archiving, and a tree changed by others during the walk. A link that is removed but back at once is kept in the tree; the list of severed links is not returned. The worklist is a set here, so any order of the stack is covered.
- Sever.FileSystem.SeverLinks: a root that is a link is refused, though its own test might fail; and a Windows junction whose test fails, which the source would walk into, is passed over like any other link.
- `ShimProc.poll` and the identity checks `same_process` and `process_state`: what they answer is an input, and a process answered to be gone is gone.
- Vendor names are taken as already normalised, and stored times as readable.
- `heal`, and parsing of vendor messages: a probe that clears a record is a clear.
- `find_once` and its match of hosts, and the search for the one session of a conversation: the route is modelled from the point where it is found, with one reading of the clock per request.
- Web routes, installers, workflow runs and user interface: plumbing around these parts.
