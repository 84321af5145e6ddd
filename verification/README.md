# The device lab, verified

This project models a lab that leases a pool of Android devices to browser clients: a queue, leases with
fencing numbers, cleanup between owners, recovery from crashes, and the ordered input of each session. It
proves what the lab is meant to guarantee over every run.

**The store.** `Scripts.dfy` gives each atomic script of the store as a function from contents to contents and
reply; `LabStore.dfy` holds the imperative class whose methods are shown to compute those functions. `Lab.dfy` turns the
scripts into a state machine: any number of activities issue commands in any order, the clock never goes
back, anybody may write anything into the pool index, records of ended sessions may vanish, and a log
records what happened. `Ownership.dfy` and `Transitions.dfy` prove the invariant and what each command can do to
each object; `Claims.dfy`, `Stories.dfy`, `History.dfy`, `Gate.dfy`, `Fifo.dfy` and `Tenure.dfy` draw the conclusions, and
`Entitlement.dfy` says, over a run, who gets what: which claims, reconnects, heartbeats, terminations and withdrawals are
honoured by what was granted, detached and asked for before.

**The server.** `Server.dfy` cuts the allocator, the cleanup workers, the reaper and the restart sequence at every
`await` into steps that interleave freely, with a `Crash` step that drops the process and keeps the store.
`ServerInv.dfy` proves that every run of it is a run of the lab. `Wakeup.dfy` and `Repair.dfy` prove that no wakeup is lost
while the pool index is exact, and exactly when a restart's repair keeps it so; `Recovery.dfy`, `Workers.dfy` and
`Doubling.dfy` what a restart leaves behind and which device a cleanup worker is at work on; `Reaping.dfy` and
`Detaching.dfy` what a reaper pass achieves and when its verdicts still hold; `Health.dfy` what a report on a device does and
whom it ends; `Registry.dfy` what a restart makes of the list of devices. `Scenarios.dfy` spells out runs that reach
the states these warn about.
`LabCore.dfy` has the same loops as methods that run undisturbed, proved against `Loops.dfy` and `Health.dfy`.

**Input.** `Executor.dfy` is a session's input queue, `InputOrder.dfy` its behaviour over all interleavings,
`GuardedInput.dfy` the queue beside a store in which everything else goes on, and `Late.dfy` what still gets through after a
session's end. `ClientSequence.dfy` and `Bursts.dfy` are about the viewer's sequence counter, `Resume.dfy` and `Replay.dfy` about
what is lost or repeated when either side goes on from the number saved.

**Streams.** `JpegStream.dfy` (markers: sections B.1.1.2, B.1.1.3 and B.1.1.5 of ITU-T T.81), `FrameBuffer.dfy` and
`Mapping.dfy`.

Ids are integers whose order stands for the bytewise order of the strings; which member `SPOP` takes is a
parameter; clocks, adapter outcomes, socket buffer levels and timers are inputs.

## Where the code and its documentation differ

The model follows the code. Each of these is a lemma.

- `docs/DESIGN.md:32-34` says that an OFFLINE device is recoverable only through a health check. A device that is
  dropped from the configuration by one restart and put back by another becomes AVAILABLE without one
  (`History.ReuseWithoutCheck`). What lies between two owners is stated exactly by `History.RestBetweenOwners`, and when
  the next owner gets a device that was neither cleaned nor found healthy by `History.CheckedBetweenOwners`.
- `docs/DESIGN.md:34-35` says that a device is never AVAILABLE while cleanup runs. The repair loop of a restart can start a
  second worker for a session, and one of the two then cleans a device in the pool or of the next owner
  (`Scenarios.CleanedWhileOwned`). It starts a second worker if and only if the session was on the list of sessions
  that the same restart had read before (`Doubling.DoublesExactly`); throughout a run every worker keeps to a CLEANING
  device of its own session, one worker to a session, if and only if no restart does that
  (`Doubling.NeverCleanedWhileAvailable`).
- `docs/DESIGN.md:79-81` says that a client that reconnects resumes the same input sequence. It resumes from the
  number saved, which can lag behind the number admitted; the commands in between are then taken for
  duplicates. `Resume.ResumesInStep` says exactly when that happens, `Resume.LagHappens` that it does.
- The last check before the device does not look at the device's state, so a command whose session record was
  read before termination can still reach a device that is already being cleaned
  (`Gate.StaleSessionPassesDuringCleanup`, `Late.TouchedAfterTheEnd`). At most one does (`GuardedInput.AtMostOneLate`), and
  `Late.LateExactly` says exactly when.
- At-most-once execution holds for one executor; after a crash a command that the device has had can be executed again
  (`Replay.ExecutedTwice`), if and only if its number is above the saved one (`Replay.ReplayAfterCrash`).
- Work is conserved only while the pool index is exact. The repair loop of a restart races with the cleanup workers and
  the allocator, and can drop a free device from the pool or put a reserved one into it; in both cases a client can
  be left waiting for a free device (`Scenarios.WakeupIsLost`, `Scenarios.WakeupIsLostToAReservedDevice`). The repair of
  a device is right if and only if `Repair.RepairWritesTruth`'s condition on what ran meanwhile holds.
- The comment at `apps/server/src/core.ts:832-833` keeps the health loop from acting on a stale reading. That is so for the
  report, but the termination that follows goes by a second reading: if the device has been granted anew before it, and
  only then, the session of the new owner is ended (`Health.SickSessionEnds`, `Scenarios.SuccessorIsEnded`).
- The repair loop does not remove ids of devices that are not registered (`Loops.RepairIsExact`).
- A client can be detached although it has just been heard of (`Scenarios.DetachedWhileHeard`);
  `Detaching.DetachVerdictHolds` says exactly when the reaper's verdict is still right.

## Model

The main results come first, then the step lemmas and partial results they rest on, and last the methods that mirror
the source's own operations.

| member | source | states |
|---|---|---|
| Transitions.ExclusiveOwnership | apps/server/src/scheduler/store.ts:101-163 | after any run, live sessions and devices that are reserved or in use are in one-to-one correspondence with matching states and equal, newest fences; no two live sessions share a device or a client |
| Claims.OneClaimPerClient | apps/server/src/scheduler/store.ts:58-87 | after any run a client has at most one live session or one waiting entry and never both, and each index names exactly that one |
| Claims.JoinIsIdempotent | apps/server/src/scheduler/store.ts:49-88 | a second join, under any id and at any time, changes nothing and returns what the first returned |
| Stories.EveryRunIsTold | apps/server/src/scheduler/store.ts:54-424 | after any run the log is accepted by a device automaton and a session automaton whose states agree with the stored records |
| History.FencesIncrease | apps/server/src/scheduler/store.ts:129-136 | of two grants of one device the later has the larger fence, also across unregistering and re-registering |
| History.TerminatedOnce | apps/server/src/scheduler/store.ts:213-229 | of any number of terminators exactly one wins, and its reason stands ever after |
| History.FailuresBounded | apps/server/src/core.ts:676-732 | all cleanup workers of a session together, over any number of server lives, fail at most `maxFailures` times (at least once is always allowed) |
| History.CleaningHolds | apps/server/src/scheduler/store.ts:262-282 | while CLEANING a device's failures are short of the limit, and only the cleanup call of its own session moves it out of that state or unbinds it |
| History.RestBetweenOwners | apps/server/src/scheduler/store.ts:262-282 | between two successive owners of a device exactly one of two things happens: the earlier one's cleanup succeeds, or the device is written off and after that comes back, by a healthy check or by being registered anew as online |
| History.CheckedBetweenOwners | apps/server/src/scheduler/store.ts:371-378 | the next owner's device has been cleaned or found healthy in between, except exactly when it was written off, registered anew as online, and not found healthy |
| History.ReuseWithoutCheck | apps/server/src/core.ts:125-134 | a reachable run in which a device is reused though neither a cleanup nor a check of it ever succeeded: written off, unregistered, registered again |
| Gate.PassesExactly | apps/server/src/input/executor.ts:124-136 | on one state of the store the check passes exactly for the active, unexpired session bound to that device under its own fence |
| Gate.PassProvesBinding | apps/server/src/input/executor.ts:124-136 | a pass on any stale session record proves that, when the device was read, it was bound to that session under the newest fence ever issued for it |
| Gate.StaleFenceNeverPasses | apps/server/src/input/executor.ts:124-141 | once a device has been granted again, no command under the older fence passes, whatever session record it read |
| Gate.StaleSessionPassesDuringCleanup | apps/server/src/input/executor.ts:124-136 | the check does not look at the device's state: with a session record read before termination it passes while the device is already CLEANING |
| Fifo.RankStep | apps/server/src/scheduler/store.ts:76-157 | once the clock has passed its enqueue time, a waiter's rank never rises, falls by exactly one with every grant to another, and at rank zero the next grant is its own |
| Fifo.ServedInTurn | apps/server/src/scheduler/store.ts:110-157 | a waiter with k others ahead that does not withdraw is served by the (k+1)-st grant |
| Tenure.StaleVerdictHolds | apps/server/src/core.ts:741-787 | an expiry decided on an old read only ever ends a session that is still overdue, and for a reason that is still the right one: nothing that runs in between can rescue it |
| Tenure.TenureRun | apps/server/src/scheduler/store.ts:138-190 | a reserved session's claim deadline is its creation plus the claim window; an active or detached one expires within claim window plus session time of its creation, whatever reconnects and restarts occur |
| Entitlement.ClaimIsEarned | apps/server/src/scheduler/store.ts:171-201 | over any run after a grant: a claim makes the reserved session active if and only if the client granted it claims, with no token or the one granted, within the claim window of the grant; the reply is the session just then or when that client has it active already, and every other claim changes nothing |
| Entitlement.GraceIsHonoured | apps/server/src/scheduler/store.ts:328-352 | over any run after a detachment: a reconnect makes the session active again if and only if its client reconnects within the grace, with device, fence and saved number as they were, and the reply says so |
| Entitlement.EndsOnDemand | apps/server/src/scheduler/store.ts:208-237 | over any run after a grant: a termination ends the session, with the outcome and reason asked for, if and only if it is live and no other fence than the granted one is presented; otherwise nothing changes |
| Entitlement.WithdrawsOnDemand | apps/server/src/scheduler/store.ts:412-424 | over any run after a client has joined: a withdrawal cancels or times out the request, as asked, if and only if it still waits and is withdrawn by that client or the server; otherwise nothing changes |
| Entitlement.HeartbeatIsEarned | apps/server/src/scheduler/store.ts:290-302 | over any run after a grant: a heartbeat counts if and only if the session is not over and comes from the client granted it, whose record alone is stamped, or from the server |
| Entitlement.ClaimTimeoutIsEarned | apps/server/src/core.ts:741-751 | over any run after a grant: the reaper gives the claim window as its reason if and only if the session is still reserved and the window since the grant has passed |
| Entitlement.AbandonedIsEarned | apps/server/src/core.ts:774-787 | over any run after a detachment: it gives abandonment as its reason if and only if the session is still detached, within its session time, and the grace has passed |
| Health.ReportIsAnswered | apps/server/src/scheduler/store.ts:359-390 | a report is answered by what it finds: `SESSION_UNHEALTHY` if and only if the device is sick and a live session is on it, and then nothing is written; each other reply by the device's state and health, with what it does to device and pool |
| Health.SickSessionEnds | apps/server/src/core.ts:849-858 | report, second reading of the device and termination with anything in between: the session that the report was about is not live afterwards, and the session asked to end is that one if and only if the device has not been granted anew between report and reading |
| Scenarios.SuccessorIsEnded | apps/server/src/core.ts:849-858 | a run from an empty store in which a report of a sick device leads to the end of the next owner's session with reason device error |
| Registry.RegistryIsConfigured | apps/server/src/core.ts:125-134 | over any run of a restart after any life of the server: once registration is through, the registry consists of exactly the configured devices and those others that had an owner at boot, and no binding has changed |
| ServerInv.ServerRunsAreLabRuns | apps/server/src/core.ts:463-806 | every run of the server, crashes and restarts included, is a run of the store's commands, so all properties of such runs hold of it |
| ServerInv.StrayCleanerGivesUp | apps/server/src/core.ts:708-719 | a cleanup worker left behind by a later allocation ends without changing any device or the pool |
| Wakeup.ExactStep | apps/server/src/core.ts:246-265 | a step of the server keeps the pool exact if and only if it is not a repair that writes an outdated record |
| Repair.RepairWritesTruth | apps/server/src/core.ts:247-264 | what runs between the repair loop's read of a device and its write decides whether an exact pool stays exact: a device read as available must not have been granted; any other must not have been freed by a cleanup, unless it was granted again |
| Wakeup.NoLostWakeup | apps/server/src/core.ts:463-509 | while the pool stays exact, a free device and a waiter mean that an allocation is still to come; at rest no device is free or nobody waits |
| Wakeup.PendingDelivers | apps/server/src/core.ts:463-509 | a pending allocator grants a device to a waiter within three steps of its own |
| Scenarios.WakeupIsLost | apps/server/src/core.ts:246-265 | a run from an empty store that ends up with the allocator at rest, no call outstanding, a free device and a waiter; the health loop then makes the pool exact and they still do not meet |
| Scenarios.WakeupIsLostToAReservedDevice | apps/server/src/core.ts:246-265 | another such run, through a reserved device that the repair loop has put back into the pool |
| Workers.RightfulUntilSettled | apps/server/src/core.ts:676-732 | a cleanup worker's device is CLEANING and bound to the worker's session exactly until some worker has settled that session |
| Doubling.DoublesExactly | apps/server/src/core.ts:191-266 | the check of a restart's repair loop starts a worker for a session that has one already, or is settled, if and only if the session was on the list of sessions that this restart read when it began to adopt |
| Doubling.DoubledGoesAstray | apps/server/src/core.ts:246-258 | and a worker started so ends up on a device that is not its own: at once, or as soon as the other worker succeeds |
| Doubling.NeverCleanedWhileAvailable | apps/server/src/core.ts:191-258 | that holds throughout a run if and only if no restart starts, in its repair loop, a worker for a session on the list it has read |
| Scenarios.CleanedWhileOwned | apps/server/src/core.ts:246-258 | a run from an empty store at whose end a worker is cleaning a device that is reserved for the next owner |
| Recovery.NothingStaysDirty | apps/server/src/core.ts:191-266 | while the server is up, in whatever life, every CLEANING device has a worker for the session it is bound to |
| Recovery.RestartRecovers | apps/server/src/core.ts:191-266 | when a restart after a crash at any point completes, no session is ACTIVE, every device caught in cleanup has a worker, every live session still holds its device |
| Recovery.WorkersEnd | apps/server/src/core.ts:676-732 | one worker retries fewer times than the failure limit, and all workers of a session together fail at most that often |
| Reaping.PassEndsOverdue | apps/server/src/core.ts:736-795 | a reaper pass with anything interleaved: a session that was overdue when the pass began, by its claim window, its session time or its reconnect grace, or that was older than claim window plus session time, is not live when the pass is done |
| Reaping.ReaperIsNeverWrong | apps/server/src/core.ts:741-787 | whenever a pass is about to expire a session that is still live, that session is at that very moment overdue, and the reason given is the one its record then calls for |
| Reaping.PassGivesGrace | apps/server/src/core.ts:736-766 | over any run of the server: a session that a reaper pass detaches can be taken back for the whole grace, counted from the start of the pass |
| Reaping.AdoptionGivesGrace | apps/server/src/core.ts:191-218 | and one that a restart finds active for the whole grace, counted from the moment at which it begins to adopt |
| Detaching.DetachVerdictHolds | apps/server/src/core.ts:760-766 | a verdict to detach, decided on an old read, is still right for a session that is active when it is carried out if and only if no heartbeat of its owner and no other detachment ran in between |
| Scenarios.DetachedWhileHeard | apps/server/src/core.ts:755-766 | a run from an empty store at whose end a session is detached although its client was heard of at that very moment |
| Loops.RepairIsExact | apps/server/src/core.ts:246-265 | the repair makes the pool exact if and only if it held no unregistered id |
| InputOrder.InputIsOrdered | apps/server/src/input/executor.ts:56-217 | for any interleaving: admitted numbers are contiguous, commands reach the adapter in strictly increasing order and in order of arrival, pending is the last number admitted less the last begun and within the limit |
| InputOrder.OneAckEach | apps/server/src/input/executor.ts:56-217 | no command is answered twice, and once nothing is queued or running each has been answered once |
| InputOrder.ChainDrains | apps/server/src/input/executor.ts:95-98 | execution can always go on while work is left, and every step of it leaves less |
| InputOrder.AnswersAreHonest | apps/server/src/input/executor.ts:109-217 | only commands the adapter has had are reported as applied, and no text over the limit reaches it |
| InputOrder.OutcomesAreTold | apps/server/src/input/executor.ts:149-217 | over any interleaving: once no call is unanswered, the commands answered as applied are exactly those whose call of the adapter succeeded, those answered as failed exactly those whose call failed, and both together those it was given |
| InputOrder.AnswersHaveCauses | apps/server/src/input/executor.ts:56-217 | after any run each move answers the command it is about by its cause: a stop, another fence, a used number, a gap, a full queue, an overlong text, a check refused or failed, the adapter's success or failure |
| InputOrder.StopHolds | apps/server/src/input/executor.ts:52-64 | after a stop nothing is admitted or begun, and at most the one command under check still gets through |
| GuardedInput.SequenceChain | apps/server/src/input/executor.ts:93-191 | whatever else happens in the lab: number saved <= number applied <= number last begun <= number admitted |
| GuardedInput.FencedOff | apps/server/src/input/executor.ts:122-141 | from the moment the device is no longer bound to the session under this fence, or the session has been terminated, neither a command that had not yet read the record in question nor any later one reaches the device, over any run of everything else |
| GuardedInput.AtMostOneLate | apps/server/src/input/executor.ts:122-160 | at most one command gets through after that moment: the one under check, if it had read that record before it |
| Late.LateExactly | apps/server/src/input/executor.ts:122-160 | and some continuation lets that one through if and only if its session record had been read by then and authorizes it, and its device record, read or still to be read, shows the session under its fence |
| Late.TouchedAfterTheEnd | apps/server/src/input/executor.ts:122-160 | a run in which a session is ended between the two reads and its command reaches the device after that |
| GuardedInput.OwnerGetsThrough | apps/server/src/input/executor.ts:122-141 | a check made on one state lets the command through if and only if its session is active, unexpired and bound to the device |
| Replay.ReplayAfterCrash | apps/server/src/input/executor.ts:122-191 | when the session commands its device again after a crash, a command that the device has had can be handed to it a second time by the next executor if and only if its number is above the saved one |
| Replay.ExecutedTwice | apps/server/src/input/executor.ts:122-191 | two executors, with a detachment and a reconnect between them, that both hand the same command to the device |
| ClientSequence.AgreementIsReached | apps/web/src/lib/connection.ts:387-402 | from any pair of counters, one command at a time: exactly the first so many are refused and the next is queued, after which the counters agree |
| Bursts.BurstOutcome | apps/web/src/lib/connection.ts:256-269 | several commands sent before any is answered: how many are admitted, and that the counters agree afterwards unless the burst stops short of the executor's number or its last command alone met a full queue |
| Resume.ResumesInStep | apps/server/src/core.ts:306-314 | over any run beside the lab: a client that resumes from the saved number loses exactly the commands admitted after it, and loses none if and only if nothing was admitted or the command last admitted was applied and its save reached the store |
| Resume.FirstIsAdmitted | apps/server/src/core.ts:306-314 | and a running executor with room admits the resumed client's first command, which carries the number after the saved one, if and only if nothing is lost |
| ClientSequence.SendsAsTold | apps/web/src/lib/connection.ts:223-317 | whatever a client did before, after a message that puts it into a session its next command is for that session, fence and next number; after one that tells it otherwise it sends nothing; an acknowledgement leaves session and fence alone |
| Resume.LagHappens | apps/server/src/input/executor.ts:109-119 | a run after which the next command of a client that resumes is lost |
| JpegStream.SplitIsTheDecomposition | packages/device-adapter/src/adb.ts:555-580 | however a stream is made up of pieces that end with their only end-of-image marker and a tail without one, the frames are the pieces that start an image and the tail is kept |
| JpegStream.ChunkingIsIrrelevant | packages/device-adapter/src/adb.ts:565-583 | the incremental parse agrees with the one-shot parse at every point if and only if no residue on the way exceeds 8 MiB |
| JpegStream.BufferIsBounded | packages/device-adapter/src/adb.ts:581-582 | after every push the buffer holds no end-of-image marker and at most 8 MiB |
| JpegStream.ImagesComeOutExactly | packages/device-adapter/src/adb.ts:555-583 | complete images without an inner end-of-image marker come out exactly, however they are chunked, and nothing is left over |
| FrameBuffer.FramesAreConserved | apps/server/src/realtime/hub.ts:183-226 | on an open socket offered = sent + dropped + pending as multisets, sent frames are in order, a timer runs exactly while one is pending, and the newest frame is never the one lost |
| FrameBuffer.OnlyTheNewestGoesOut | apps/server/src/realtime/hub.ts:183-226 | whatever goes out is the newest frame offered so far |
| Mapping.PointerDenotes | packages/protocol/src/mapping.ts:8-37 | a pointer yields a normalized point if and only if the sizes are positive, the point is in the unit square, and the viewer draws it at the pointer |
| Mapping.EveryPixelIsReachable | packages/protocol/src/mapping.ts:50-65 | every pixel is the image of a point of the unit square, under every rotation |
| Mapping.TapLandsUnderPointer | packages/protocol/src/mapping.ts:8-66 | under each rotation, pointer to pixel, turned back and drawn, ends within the drawn size of one pixel of the pointer, measured on each axis of the screen |
| Ownership.StoreStep | apps/server/src/scheduler/store.ts:54-424 | every script called as the server calls it keeps sessions, devices, queue and both client indexes consistent |
| Ownership.PoolIsFree | apps/server/src/scheduler/store.ts:101-108 | nothing in that consistency depends on what the pool index holds, so arbitrary ids in it do no harm |
| Ownership.NothingToPrune | apps/server/src/scheduler/store.ts:110-127 | in a consistent store the queue consists of exactly the waiting entries |
| Transitions.SoundStep | apps/server/src/scheduler/store.ts:54-424 | consistency, and that every id in use was issued, is kept by every command, environment writes to the pool included |
| Transitions.SoundRun | apps/server/src/scheduler/store.ts:54-424 | the same over whole runs |
| Transitions.DeviceMoves | apps/server/src/scheduler/store.ts:101-390 | what any command does to any device record: exactly the move its logged event stands for, and otherwise no change of binding, fence or failure count |
| Transitions.SessionMoves | apps/server/src/scheduler/store.ts:101-405 | session states move only along RESERVED, ACTIVE/DISCONNECTED, ENDING/EXPIRED, ENDED; client, device and fence never change; the end reason is written once, when the state stops being live |
| Transitions.EntryMoves | apps/server/src/scheduler/store.ts:54-424 | a queue entry leaves WAITING only by the grant or the withdrawal that is logged |
| Transitions.FenceMoves | apps/server/src/scheduler/store.ts:129-136 | a fence counter changes only by a grant of its device, and then by exactly one |
| Claims.JoinFindsClaim | apps/server/src/scheduler/store.ts:54-88 | joining changes nothing for a client with a claim and returns that claim; without one it queues a new entry and changes nothing else about entries and sessions |
| Stories.ToldStep | apps/server/src/scheduler/store.ts:101-390 | every command keeps that agreement |
| Stories.EventLegal | apps/server/src/scheduler/store.ts:101-390 | every event a command logs is one the automata accept at that point |
| Gate.OneCommanderPerDevice | apps/server/src/input/executor.ts:124-136 | in any one state at most one session per device passes |
| Fifo.GrantServesHead | apps/server/src/scheduler/store.ts:110-127 | a grant serves the least waiter by (enqueue time, request id) |
| Fifo.NoStarvation | apps/server/src/core.ts:901-905 | over any run the rank of a waiter plus the grants made since is at most its rank at the start |
| Tenure.TimesMoves | apps/server/src/scheduler/store.ts:138-345 | how each command moves the three deadlines; a claim or reconnect past its deadline cannot happen |
| Tenure.TenureIsBounded | apps/server/src/core.ts:736-795 | a session older than both together is one that any reaper ends |
| Entitlement.GrantMakes | apps/server/src/scheduler/store.ts:129-163 | a grant hands the waiter's client a reserved session on the device and under the fence logged, with nothing applied, and replies with what the store then holds |
| ServerInv.SysStep | apps/server/src/core.ts:463-806 | every step of the server, cut at its awaits and crashes included, keeps the combined invariant of store, log, deadlines, workers and restart |
| ServerInv.CallsAreAllowed | apps/server/src/core.ts:125-266 | the guards of the server code establish what each script asks of its callers |
| Wakeup.AvailStep | apps/server/src/scheduler/store.ts:706-712 | every script keeps the pool index exact; a direct write keeps it exact if and only if it writes what the device record says at that moment |
| Wakeup.WorkIsAnnounced | apps/server/src/core.ts:278-286 | free devices and waiters appear only with an event that calls the allocator |
| Wakeup.StalePopRests | apps/server/src/scheduler/store.ts:104-108 | an allocator called for the last time that pops a device that is not free goes to rest, whatever other device is free and whoever waits |
| Wakeup.HealedWithoutWakeup | apps/server/src/scheduler/store.ts:385-389 | the health loop puts a free device back into the pool, and who waits in vain still does |
| Doubling.OneEachStep | apps/server/src/core.ts:246-258 | every session keeps to one worker, and that to a CLEANING device of its own, across a step if and only if the step is not a check that starts a worker for a listed session |
| Reaping.ExpiresTheOverdue | apps/server/src/core.ts:741-787 | the reaper's verdict on a record is to expire it exactly if it is overdue by one of the three deadlines, with the reason of that deadline, and to detach it exactly if it is active, not overdue and silent |
| Reaping.DetachedDespiteHeartbeat | apps/server/src/core.ts:755-766 | in any state with a verdict to detach, a heartbeat before the reaper's call does not keep the session active |
| Loops.EmptyHanded | apps/server/src/core.ts:482 | with an exact pool an allocation comes back empty only if no device is free or nobody waits |
| Loops.AllocationServes | apps/server/src/scheduler/store.ts:101-163 | one allocation serves the front of the queue, and each device taken by a grant goes to one waiter |
| Loops.AttemptOutcome | apps/server/src/scheduler/store.ts:245-283 | what the store holds after any number of failed attempts and one more |
| Loops.ReapedIsNotOverdue | apps/server/src/core.ts:741-793 | after a pass nothing is overdue, exactly the overdue have ended, and a session it detached stays so for the whole grace |
| Loops.OrphansAreDirty | apps/server/src/core.ts:246-258 | the bindings for which the repair starts a cleanup are those of CLEANING devices with no session left in ENDING; no live session loses its device |
| InputOrder.CounterIsTheLastUsed | apps/server/src/input/executor.ts:109-217 | over any run the counter of applied commands is the largest number of a command that the adapter has answered for, well or not, or whose text was too long |
| InputOrder.TraceStep | apps/server/src/input/executor.ts:56-217 | every step keeps the invariant behind these |
| GuardedInput.OthersLeaveSeq | apps/server/src/scheduler/store.ts:396-405 | no other command changes a session's saved number while its record exists, and none raises it |
| GuardedInput.GoneWhenSuperseded | apps/server/src/scheduler/store.ts:129-136 | a later grant of the device, or a binding to anybody else, is such a moment |
| Replay.SavedSurvives | apps/server/src/scheduler/store.ts:396-405 | whatever runs between two executors leaves the saved number as it is while the record exists |
| ClientSequence.RoundConverges | apps/web/src/lib/connection.ts:256-269 | a command is admitted exactly when the counters agree; otherwise the distance between them shrinks |
| ClientSequence.RoundTripMeasured | apps/web/src/lib/connection.ts:256-269 | the round trip shown is that of the last command acknowledged as applied, measured from its own sending |
| ClientSequence.EndIsShown | apps/web/src/lib/connection.ts:278-290 | the end of a session stays on show through snapshots without a session and late answers |
| ClientSequence.ActivationForgets | apps/web/src/lib/connection.ts:232-247 | an answer to a command sent before the session became active changes no round trip |
| JpegStream.Decompose | packages/device-adapter/src/adb.ts:555-580 | every stream is made up in that way |
| JpegStream.SplitResumes | packages/device-adapter/src/adb.ts:565-580 | parsing can stop anywhere and go on from the residue |
| JpegStream.ImageBytes | packages/device-adapter/src/adb.ts:555-583 | such images, in bytes: 0xFF 0xD8, data without the pair 0xFF 0xD9, then that pair, at most 8388608 bytes in all |
| FrameBuffer.LedgerStep | apps/server/src/realtime/hub.ts:183-226 | every offer and every firing of the timer keeps that account, closed sockets included |
| Mapping.ContentFits | apps/web/src/components/DeviceViewport.tsx:65-80 | the content is drawn inside the container, at its aspect ratio, and fills one axis |
| Mapping.PixelsAreInBounds | packages/protocol/src/mapping.ts:50-65 | pixels are in bounds for any point at all if and only if the device has pixels |
| Mapping.PixelsAreClose | packages/protocol/src/mapping.ts:50-65 | under each rotation a pixel is within half a pixel of the exact place, halves upward, and within one at the far edge |
| Mapping.RotationsCompose | packages/protocol/src/mapping.ts:52-64 | the rotations compose as multiples of a quarter turn and keep the unit square |
| Mapping.RotationsAreTurns | packages/protocol/src/mapping.ts:52-64 | each rotation keeps inner and outer products about the centre |
| Mapping.CornersTurn | packages/protocol/src/mapping.ts:50-65 | each quarter turn takes every corner of the screen to the corner pixel before it, clockwise, on the device |
| Mapping.UprightTapLandsUnderPointer | packages/protocol/src/mapping.ts:8-66 | without rotation it ends within half a pixel on one side and one on the other |
| LabStoreModule.LabStore.JoinQueue | apps/server/src/scheduler/store.ts:54-88 | the new contents and reply are `Scripts.JoinQueue` of the old: an existing session or waiting entry is handed out, stale index entries are dropped, otherwise a new entry is queued |
| LabStoreModule.LabStore.NextWaiter | apps/server/src/scheduler/store.ts:110-127 | the loop over the queue finds the least waiting member and removes exactly the dead members ahead of it |
| LabStoreModule.LabStore.Allocate | apps/server/src/scheduler/store.ts:101-163 | for whichever member `SPOP` takes: a stale member is dropped and nothing granted, a device without a waiter goes back, otherwise the head waiter gets it under the next fence |
| LabStoreModule.LabStore.Claim | apps/server/src/scheduler/store.ts:171-201 | new contents and reply of a claim: owner, state, token and deadline checks in that order, then session and device become active; who passes them is `Entitlement.ClaimIsEarned` |
| LabStoreModule.LabStore.BeginTermination | apps/server/src/scheduler/store.ts:208-237 | new contents and reply: only a live session with the expected fence is ended; its device, if still bound to it, goes to CLEANING |
| LabStoreModule.LabStore.FinishCleanup | apps/server/src/scheduler/store.ts:245-283 | new contents and reply: the session is ended first in every case; the device is freed, retried or written off only if still bound to it |
| LabStoreModule.LabStore.Heartbeat | apps/server/src/scheduler/store.ts:290-302 | new contents and reply; a heartbeat without a client leaves the record alone |
| LabStoreModule.LabStore.MarkDisconnected | apps/server/src/scheduler/store.ts:309-321 | only an ACTIVE session is detached, with the given deadline |
| LabStoreModule.LabStore.Reconnect | apps/server/src/scheduler/store.ts:328-352 | only the owner, inside the grace period, gets a DISCONNECTED session back |
| LabStoreModule.LabStore.HealthUpdate | apps/server/src/scheduler/store.ts:359-390 | the reply and the writes of a report, the self-healing of the pool index included; what they mean is `Health.ReportIsAnswered` |
| LabStoreModule.LabStore.UpdateInputSeq | apps/server/src/scheduler/store.ts:396-405 | the saved number only rises, and only while the session is not over |
| LabStoreModule.LabStore.CancelRequest | apps/server/src/scheduler/store.ts:412-424 | only a waiting entry of that client is withdrawn; entry, queue and index change together |
| LabStoreModule.LabStore.RegisterDevice | apps/server/src/scheduler/store.ts:689-696 | the record, the device list and the pool after a registration |
| LabStoreModule.LabStore.UnregisterDevice | apps/server/src/scheduler/store.ts:698-704 | the record, the device list and the pool afterwards; the fence counter stays |
| LabStoreModule.LabStore.SetDeviceAvailability | apps/server/src/scheduler/store.ts:706-712 | only the pool index changes |
| LabCoreModule.LabCore.Pump | apps/server/src/core.ts:463-509 | a call while pumping only asks for another round; otherwise waiters have been served from the front, and with an exact pool no device is left or nobody waits and each device taken has gone to a waiter |
| LabCoreModule.LabCore.AllocateAll | apps/server/src/core.ts:470-499 | the same for the inner loop, which always ends |
| LabCoreModule.LabCore.TerminateSession | apps/server/src/core.ts:643-673 | the store's termination, and a cleanup started exactly when this call won |
| LabCoreModule.LabCore.CleanupDevice | apps/server/src/core.ts:676-732 | the loop ends with the first good attempt or the last one the failure limit allows, and leaves exactly the store of a freed or a written-off device; a device bound to somebody else is left alone after one call |
| LabCoreModule.LabCore.ReaperRunOnce | apps/server/src/core.ts:736-795 | an undisturbed pass rewrites each session record as its deadlines demand and starts cleanups for exactly those it expired |
| LabCoreModule.LabCore.ReapOne | apps/server/src/core.ts:741-793 | the branches for one session |
| LabCoreModule.LabCore.HealthRunOnce | apps/server/src/core.ts:822-867 | an undisturbed pass expires, as device errors, exactly the live sessions on devices found sick and starts their cleanups; takes sick free devices out of service and healthy ones back in, with the pool to match; the allocator is called for exactly those that came back |
| LabCoreModule.LabCore.ReportOne | apps/server/src/core.ts:826-863 | one device's share of that: its report, and the end of the session on it if it is sick |
| LabCoreModule.LabCore.RepairPool | apps/server/src/core.ts:246-265 | the repair rewrites the pool from the device records and starts a cleanup for exactly the bindings whose session is missing or over |
| Executor.InputExecutor.constructor | apps/server/src/input/executor.ts:30-48 | a new executor starts from the given number with nothing queued |
| Executor.InputExecutor.Submit | apps/server/src/input/executor.ts:56-96 | the checks in order (stopped, fence, duplicate, gap, overload), each with its answer, or admission |
| Executor.InputExecutor.Stop | apps/server/src/input/executor.ts:52-54 | only the flag changes |
| Executor.InputExecutor.Begin | apps/server/src/input/executor.ts:98-119 | `pending` falls; a stopped executor and an overlong text answer at once, the latter using up its number |
| Executor.InputExecutor.ReceiveSession | apps/server/src/input/executor.ts:126-129 | only the session record read is filled in |
| Executor.InputExecutor.ReceiveDevice | apps/server/src/input/executor.ts:126-130 | only the device record read is filled in |
| Executor.InputExecutor.Decide | apps/server/src/input/executor.ts:124-160 | the command goes to the adapter exactly if both records authorize it, and is refused otherwise |
| Executor.InputExecutor.FailCheck | apps/server/src/input/executor.ts:142-147 | a failed read refuses the command |
| Executor.InputExecutor.Act | apps/server/src/input/executor.ts:149-217 | success and failure both use up the number; only failure answers here |
| Executor.InputExecutor.Save | apps/server/src/input/executor.ts:189-204 | the command is answered as applied whether or not the number was saved |
| ClientSequence.LabConnection.HandleMessage | apps/web/src/lib/connection.ts:210-276 | what each message does to the counter, the send times and the phase |
| ClientSequence.LabConnection.ApplySnapshot | apps/web/src/lib/connection.ts:278-317 | what each snapshot does; only an active one resets the counter |
| ClientSequence.LabConnection.SendInput | apps/web/src/lib/connection.ts:387-402 | a command carries the counter's value, which moves on at once; without an active session nothing is sent |
| JpegStream.JpegStreamParser.Push | packages/device-adapter/src/adb.ts:565-583 | frames emitted and bytes kept are those of the one-shot parse of buffer and chunk, cut off at 8 MiB |
| FrameBuffer.WsHub.SendFrame | apps/server/src/realtime/hub.ts:183-206 | an idle open socket with fewer bytes buffered than the limit gets the frame at once; any other open one gets nothing and holds this frame; the counters grow by exactly the frames sent and replaced |
| FrameBuffer.WsHub.OfferTo | apps/server/src/realtime/hub.ts:187-205 | one socket's share of that: with nothing pending and fewer bytes buffered than the limit it sends at once, otherwise the frame replaces the pending one and the timer runs |
| FrameBuffer.WsHub.Flush | apps/server/src/realtime/hub.ts:208-226 | a pending frame leaves if and only if the socket is open with fewer bytes buffered than the limit; a closed socket discards it; the timer stops when nothing is pending |

## Left out

- The Redis client, script loading, connection errors and JSON encoding: each script is one atomic step that
  succeeds. In the input queue, where the code handles a failing store, reads and the saved number may fail.
- Lease keys, the event stream, stream process ids, metrics, logging and messages to clients: nothing decides on them.
- Expiry of records: only ended sessions and settled queue entries vanish, at any time after; their actual lifetimes
  are not modelled.
- Device descriptions (serial, kind, size) in the store. The record written back when a screen size has changed during registration is left out with them: nothing else changes the record at that moment.
- The device adapter, ADB, video capture and subprocesses: the adapter is an arbitrary success or failure.
- HTTP routes, socket handling, schema validation, rate limits, random ids and token hashing: fresh ids are assumed.
- The natural-language front end, React components, benchmarks, demos and deployment files.
- A second reaper pass that overlaps the first: its terminations are among those that `Server.Terminate` allows at any time.
- Runtimes: `GuardedInput` has one executor per session; a second one that a claim still in flight could start
  for a session already ended is not modelled.
- Removing or adopting one device or session during a restart reads and writes in one step; no other step of that phase
  can change what was read.
- The configuration is the same in every life of the server.
- The health loop's own pacing: in `Server` its reports and the terminations it asks for can come at any time, from any number of passes.
- LabCoreModule.LabCore.Pump: the method runs undisturbed; calls that arrive while it runs are the steps of `Server`.
- LabCoreModule.LabCore.AllocateAll: the method runs undisturbed; the interleaved loop is `Server`'s, and `Wakeup.NoLostWakeup` is about that one.
- LabCoreModule.LabCore.CleanupDevice: the method runs undisturbed, with the outcomes of its attempts given; interleaved workers are `Server`'s, and `Recovery` and `Workers` are about those.
- LabCoreModule.LabCore.ReaperRunOnce: the method runs undisturbed; what happens between its reads and its calls is proved of `Server` in `Reaping`.
- LabCoreModule.LabCore.HealthRunOnce: the method runs undisturbed, with the adapter's findings given, and only names the devices for which it calls the allocator; what comes between its calls is `Health.SickSessionEnds`.
- LabCoreModule.LabCore.RepairPool: the method runs undisturbed; what it does with cleanup workers and the allocator running is `Repair.RepairWritesTruth`.
- FrameBuffer.FramesAreConserved: speaks of one socket that stays open; a closed socket discards its pending frame, which the account in `LedgerStep` covers.
- Bursts.BurstOutcome: the executor begins no command while the burst arrives; what it begins meanwhile only makes more room.
- Mapping.TapLandsUnderPointer: arithmetic is over the reals, not IEEE 754 numbers.
