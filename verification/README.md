# A verified model of vmocs

vmocs boots virtual machines inside batch jobs.  This project models the parts
of it where order, concurrency or failure matter, in Dafny 4.11, and proves what
they keep.  `dafny verify dfyconfig.toml` checks all of it.

| file | what it models |
|---|---|
| `Prelude.dfy` | options, bytes, splitting and joining text, YAML values |
| `Storage.dfy` | directories and files that may lose what was not synced |
| `Checkpoint.dfy`, `CheckpointInvariant.dfy`, `CheckpointSafety.dfy`, `CheckpointCallers.dfy`, `CheckpointRefusals.dfy` | publication of a checkpoint by any number of savers, what the program's own callers get of it, and what is refused |
| `SparseCopy.dfy` | the sparse disk copy, with short reads, short writes and the fallback |
| `Metadata.dfy` | the atomic replacement of `vm.json`, on the same file system |
| `Handoff.dfy`, `HandoffSafety.dfy`, `HandoffEvidence.dfy` | the Windows SSH key rotation, its proof steps and the staging gates |
| `Monitor.dfy` | the QMP monitor: framing, the callback queue and what one thread does with them |
| `MonitorThreads.dfy`, `MonitorSafety.dfy`, `MonitorBarrier.dfy`, `MonitorCalls.dfy`, `MonitorWaiters.dfy` | its threads interleaved: which reply answers which command, what a handler has seen by then, who was in fact called, and who may wait for ever |
| `Processes.dfy`, `Sidecars.dfy`, `Launch.dfy` | processes and signals, the sidecar manager, and launching all or nothing |
| `FrontEnds.dfy`, `Session.dfy` | the three front ends that stop and save a VM, and the attached session's loop |
| `ForwardEnv.dfy`, `ForwardEnvTransport.dfy` | the SPANK plugin's table of names, its transport through Slurm contexts, and the Python side |
| `SshDiagnostics.dfy` | the scan of an ssh log for a rejected key |
| `Templates.dfy` | template loading and inheritance |
| `Network.dfy`, `NetworkBackends.dfy` | option lists, and the `-netdev` builders that print them |
| `Examples.dfy` | the small definitions that both sides of a theorem use, against values of their own |

The protocols in which processes, threads, a guest or a power loss take turns
(checkpoint publication, `vm.json`, the key handoff, the monitor's threads) are
step machines: a total `Step` function, and theorems over every sequence of
actions.  Code that one process runs by itself is imperative: classes whose
methods are proved against a specification, with the outcome of every system
call left open.  A failing call, a clock, a random name and a reply from QEMU or
the guest are always free choices.

What the imperative code did is read off logs of the world outside it, and not off
its own results: the signals that were sent, the calls that were made with their
outcomes, the looks and the waits (`Processes.Kernel`), the overlay reads and
removals (`FrontEnds.FrontEnd`), the session's deeds (`Session.AttachedSession`), and
the places of a file that were written (`SparseCopy.Descriptors`).  Only the methods
that stand for a system call or for the guest append to them.

## What the code does not do

These are properties that a reader of the code or of its comments could expect
and that fail.  Each is stated with a run or an input that shows it, and with
the exact condition under which the code is right.

* A parent directory that `create_checkpoint` has to make is never synced into
  its own parent.  A published and returned bundle survives every power loss
  if and only if the parent's entry was on disk when the machine last started
  (`CheckpointSafety.PublishedIsDurableIff`).
* A second call with the id of the standing bundle can return before the first
  has synced the parent directory, and the bundle can then still be lost
  (`CheckpointSafety.RetryCanReturnTooEarly`).  If the first call's sync fails, or its
  rename is reported as failed after it took effect, this stays so until a power loss
  decides it: the call raises, later ones return, and none repairs it
  (`CheckpointSafety.RetryAfterFailedSync`, `CheckpointSafety.FailedSyncIsNotRepaired`).
  What a call has returned is durable if and only if the parent's entry was on disk
  when the machine last started, and the bundle stood there then or the call that
  published it has returned (`CheckpointSafety.ReturnIsDurableIff`).
* A power loss between the rename of `vm.json.tmp` and the directory's sync may
  leave both names on one file, and the next write then truncates `vm.json` when it
  opens its temporary file (`Metadata.BothNamesCanSurvive`).  Every power loss
  leaves a whole version, and it survives the next open if and only if the two names
  are apart (`Metadata.NextOpenKeepsWholeIff`).
* In the monitor, a drain that races the reader gives a command another
  command's reply.  The exact shift is in `MonitorSafety.ReplyMatching`, a run
  that shows it in `MonitorWaiters.DrainCanShiftReplies`; everything delivered
  while the closed flag is clear is right (`MonitorSafety.OpenRepliesMatch`).
* A waiter can be left in the monitor's queue for good: by a disconnect before
  the greeting, by a reader that ends without its end-of-file branch, and by a
  `close()` that falls between a thread's look at the flag and its queueing
  (`MonitorWaiters.HelloCanStrand`, `DeathCanStrand`, `CloseCanStrand`).  The
  end-of-file branch leaves none (`MonitorWaiters.NoStrandedWaiter`).  After any
  drain that emptied the queue at most one is left, and none exactly if no thread
  was caught between look and queueing, or the one that was had its reply
  (`MonitorWaiters.AtMostOneWaits`).
* `Template.validate` describes itself as checking that the inheritance chain is
  acyclic (`lib/vmocs/templates.py:118`), and does not: a template that inherits
  from itself is accepted, and a lookup of a key it does not set recurses without
  bound, which Python ends with a `RecursionError`
  (`Templates.CyclesAreAccepted`, with the exact condition in
  `Templates.AnswersWithin` and `Templates.SettledIff`).
* The check that raw network options cannot override managed ones looks for the
  name with its equals sign, so a bare `restrict` passes
  (`NetworkBackends.BareRestrictPasses`, exactly when in
  `NetworkBackends.UserOnlyManagedIff`).
* A sidecar whose log file cannot be closed after the process was spawned is
  running but not recorded, so no later cleanup knows of it.
  `Sidecars.SidecarManager.StartGiven` ends so whenever the close fails, and only
  then; in `Launch.LaunchVm` it is the `lost` process, of which there is never more
  than one, and which nobody signals.

## Model

| member | source | states |
|---|---|---|
| Text.SplitJoined | lib/vmocs/hypervisor.py:387-390 | splitting a comma-joined option list gives back the pieces of its elements |
| CheckpointSafety.CompleteLineReadsBack | lib/vmocs/checkpoint.py:79-90 | an id written with a newline and read in text mode and stripped is unchanged iff it is not empty, has no carriage return and no white space at its edges |
| CheckpointSafety.SealedLoads | lib/vmocs/checkpoint.py:72-98 | a finished private directory holds the overlay's bytes and the written manifest, and loads as that manifest iff its id reads back and the expected template matches |
| CheckpointSafety.LoadsIff | lib/vmocs/checkpoint.py:72-98 | a directory loads as a manifest iff its manifest file holds it with the right schema, version and mode, its completion file holds its non-empty id, its disk is a qcow2 image that checks, and the expected template matches |
| CheckpointInvariant.InitInv | lib/vmocs/checkpoint.py:171-194 | the invariant of the savers holds before any of them begins |
| CheckpointInvariant.StepKeeps | lib/vmocs/checkpoint.py:187-285 | every step of a saver leaves the destination a candidate bundle, keeps a standing destination, and leaves every other saver's private files and name alone |
| CheckpointInvariant.PowerLossInv | lib/vmocs/checkpoint.py:101-111 | a power loss, with any subset of the unsynced effects, keeps the invariant |
| CheckpointInvariant.ExecInv | lib/vmocs/checkpoint.py:171-285 | the invariant holds after every run of any number of savers and power losses |
| CheckpointSafety.CrashSafety | lib/vmocs/checkpoint.py:204-285 | for every start, with the destination absent or something standing there, in either case on disk or not: after every run, power losses included, it is absent, or a bundle whose disk is one saver's overlay, whose manifest is the one that saver wrote, and which loads iff its id reads back, or what stood or could come back there at the start, and then no living saver is beyond its first look |
| CheckpointSafety.OnePublisher | lib/vmocs/checkpoint.py:276-280 | of the savers that no power loss ended, at most one has put its directory at the destination |
| CheckpointSafety.ReturnsStandingManifest | lib/vmocs/checkpoint.py:187-194 | a run that has returned normally returned the manifest that stands at the destination |
| CheckpointSafety.StandingStays | lib/vmocs/checkpoint.py:276-285 | until a power loss, no step changes the standing bundle's place, disk, manifest or completion record |
| CheckpointSafety.RetryReturnsStanding | lib/vmocs/checkpoint.py:187-194 | a call that finds anything at the destination changes no file; over another run's bundle it returns the standing manifest iff the ids are equal and the id reads back, and raises otherwise; `CheckpointCallers.FirstLook` has the condition for what stood before |
| CheckpointSafety.SurvivesIffCommitted | lib/vmocs/checkpoint.py:276-285 | a standing bundle survives every power loss iff the parent's entry and the destination's entry are on disk |
| CheckpointSafety.CommittedStays | lib/vmocs/checkpoint.py:187-285 | what stands on a path that is on disk stays there through every later step and power loss; a bundle keeps its disk, manifest and completion record |
| CheckpointSafety.StandingDurableIff | lib/vmocs/checkpoint.py:276-285 | after every run, a standing bundle survives every power loss iff the parent's own entry was on disk when the machine last started and either the bundle stood then or the run that published it has returned |
| CheckpointSafety.ReturnIsDurableIff | lib/vmocs/checkpoint.py:187-194 | the same of every call that has returned, whether it published the bundle or found it |
| CheckpointSafety.PublishedIsDurableIff | lib/vmocs/checkpoint.py:201-285 | in every run, one that published and returned left a bundle that survives every power loss iff the parent's own entry was on disk when the machine last started, which without a power loss is when the runs began |
| CheckpointSafety.FailedSyncIsNotRepaired | lib/vmocs/checkpoint.py:276-285 | a bundle whose run failed after its rename took effect stands, and no later step without a power loss makes it durable |
| CheckpointSafety.UndisturbedRunPublishes | lib/vmocs/checkpoint.py:171-285 | a run that is not disabled, with a sound overlay, a free name and no failing call, publishes its directory and returns |
| CheckpointRefusals.BlockedIsRefused | lib/vmocs/checkpoint.py:181-183 | in every run a saver whose checkpoint is disabled never gets beyond its first look, publishes and returns nothing, and no entry comes to name anything of its making, whether or not the destination is free |
| CheckpointRefusals.PublishedWasAllowed | lib/vmocs/checkpoint.py:178-202 | in every run, a saver that published or returned was not disabled, and one that published had an overlay that is a qcow2 image and checks |
| CheckpointRefusals.PublishedAfterChecks | lib/vmocs/checkpoint.py:212-280 | in every run, a saver that published had found its copy on the volume to be a sound image, and after that, with its directory synced, the destination free |
| CheckpointRefusals.CleanUpLeavesNothing | lib/vmocs/checkpoint.py:282-285 | in every run, a failed saver whose cleanup meets no error leaves nothing under its temporary name, and a bundle it had put in place stays |
| CheckpointSafety.RetryCanReturnTooEarly | lib/vmocs/checkpoint.py:187-194 | a second call may return while a power loss can still remove the bundle |
| CheckpointSafety.RetryAfterFailedSync | lib/vmocs/checkpoint.py:276-285 | a run whose last sync fails raises, a retry then returns, and what it returned never becomes durable |
| CheckpointCallers.UuidReadsBack | lib/vmocs/checkpoint.py:219-224 | an id of hexadecimal digits and dashes, which is all that the program makes, is read back as it was written |
| CheckpointCallers.OwnBundlesLoad | lib/vmocs/checkpoint.py:204-285 | with such ids, after every run, power losses included, whatever stands at the destination and did not stand there before loads, with the manifest and the disk of one saver |
| CheckpointCallers.FirstLook | lib/vmocs/checkpoint.py:187-194 | a call that finds anything at the destination changes no file, and returns its manifest iff it loads and has the caller's id |
| CheckpointCallers.EarlierUntouched | lib/vmocs/checkpoint.py:187-194 | whatever stood at the destination before, a bundle or not, no run of savers without a power loss changes the volume at all |
| CheckpointCallers.EarlierStays | lib/vmocs/checkpoint.py:187-194 | if its path was on disk it also stands after every power loss; if it was on disk itself, all its files read as before, and it loads or is refused as before |
| CheckpointCallers.OthersKept | lib/vmocs/checkpoint.py:187-285 | whatever others had put on disk, at the destination or beside it, reads and loads as before after every run of the savers, power losses included |
| SparseCopy.WriteAtPrefix | lib/vmocs/checkpoint.py:116-122 | writing at an offset extends what is already copied by exactly the written bytes, holes reading as zero |
| SparseCopy.Descriptors.WriteAll | lib/vmocs/checkpoint.py:116-122 | however short the writes, all bytes are written in order, or it fails |
| SparseCopy.Descriptors.CopyRegion | lib/vmocs/checkpoint.py:143-153 | however short the reads, the target's prefix up to the end of the region equals the source's, and nothing outside of the region is written |
| SparseCopy.Descriptors.CopySparse | lib/vmocs/checkpoint.py:129-153 | over every layout of data and holes it copies all data and writes into no hole, or fails; it asks for the fallback iff a seek is not supported |
| SparseCopy.Descriptors.CopyPlain | lib/vmocs/checkpoint.py:154-161 | the fallback restarts at zero over whatever was copied and makes the prefix equal |
| SparseCopy.Descriptors.CopyDisk | lib/vmocs/checkpoint.py:114-168 | a copy succeeds iff no call failed, and then the target is the source, byte for byte and in length, and synced; where the seeks are supported no hole of the source is written |
| SparseCopy.Copied | lib/vmocs/checkpoint.py:114-168 | a copy of any source with any layout that returns has the source's bytes |
| Metadata.ReaderSeesWholeVersion | lib/vmocs/launch.py:62-88 | in every run of writes that fail, die or lose power at any step, as long as no power loss leaves both names on one file, the file is absent or one whole version, none older than the last that returned |
| Metadata.ReturnedIsDurable | lib/vmocs/launch.py:73-80 | a write that returned is unchanged by a power loss right after it |
| Metadata.NextOpenKeepsWholeIff | lib/vmocs/launch.py:70-73 | every power loss leaves the file absent or a whole version, which survives the next write's open of the temporary name iff the two names are not on one file |
| Metadata.BothNamesCanSurvive | lib/vmocs/launch.py:70-80 | between the rename and the directory sync a power loss can undo the write, or leave both names on the new file |
| HandoffSafety.StepInv | lib/vmocs/launch.py:402-494 | every step of host, guest and QMP stream keeps the handoff's invariant |
| HandoffSafety.StagedOnlyAfterHandover | lib/vmocs/session.py:393-425 | in every run, once a record has been staged the guest accepts only the per-launch key, also after any reset, and no session opened with the bootstrap key is alive |
| HandoffEvidence.VerifiedOnProof | lib/vmocs/launch.py:233-257 | in every run, before a handoff is called verified the host has witnessed, in order, everything of the marker path or of the lost-marker path, two logins with the new key, and then, with no other probe result between them, the new key accepted, the bootstrap key rejected, and the new key accepted |
| HandoffEvidence.FlagsAreObserved | lib/vmocs/launch.py:402-494 | a reset counts as observed only by the delivery of such an event |
| HandoffEvidence.StagingIsGated | lib/vmocs/session.py:393-404 | a record is staged only with a per-launch key, a pinned host key and a verified handoff |
| HandoffEvidence.StagedBehindGates | lib/vmocs/session.py:393-404 | in every run, if anything was staged the launch had a per-launch key and a pinned host key, and its handoff is verified |
| HandoffSafety.MarkerPathStages | lib/vmocs/launch.py:424-454 | the path through the marker can be completed up to a staged record |
| HandoffSafety.LoginProvesTooLittle | lib/vmocs/launch.py:456-494 | after a lost marker, a login with the new key does not yet prove that old sessions are gone: a run where one is alive |
| HandoffSafety.LostMarkerPathStages | lib/vmocs/launch.py:456-494 | the lost-marker path, with its forced reset, can be completed from there up to a staged record |
| Framing.MessagesAppend | lib/vmocs/monitor.py:189-209 | the messages of two chunks are those of the first, then those of its rest with the second |
| Framing.ChunkingDoesNotMatter | lib/vmocs/monitor.py:186-209 | for every split of a stream into reads, the dispatched messages are its complete, non-blank, decodable lines in order, and the buffer is the text after the last newline |
| Monitor.DrainResolvesAll | lib/vmocs/monitor.py:211-220 | a drain that does not raise empties the queue and calls every queued callback once, in order, with nothing |
| Monitor.QemuMonitor.DispatchMessages | lib/vmocs/monitor.py:189-209 | the loop over the buffer dispatches the complete lines in order and keeps the remainder |
| Monitor.QemuMonitor.Receive | lib/vmocs/monitor.py:182-209 | receiving one chunk is dispatching the messages of the buffered text |
| Monitor.QemuMonitor.DrainCallbacks | lib/vmocs/monitor.py:211-220 | the two loops of a drain are the drain of the specification |
| Monitor.QemuMonitor.ExecAsync | lib/vmocs/monitor.py:151-165 | queue, send, and on a failed send drain; on a closed monitor call back at once |
| MonitorSafety.ReplyMatching | lib/vmocs/monitor.py:142-209 | in every interleaving of commands, reader, registrations, drains and `close()`, the reply that answered the k-th callback has number k, less the callbacks that drains took before, plus the replies dropped before |
| MonitorSafety.OpenRepliesMatch | lib/vmocs/monitor.py:151-156 | every callback that was resolved while the closed flag was clear was given its own reply, and keeps it whatever happens later |
| MonitorSafety.RepliesAreNotShared | lib/vmocs/monitor.py:189-209 | no reply answers two callbacks, and callbacks are resolved once each, oldest first |
| MonitorBarrier.HandlersSeeEverything | lib/vmocs/monitor.py:104-106 | in every run, a handler on the list has been run on exactly the events the reader passed since the handler was added, in order |
| MonitorBarrier.Barrier | lib/vmocs/monitor.py:77-84 | for a handler added at any time to a new monitor: when a command's own reply has been delivered, and the handler is on the list at any later time, it had been run on every event between its registration and the reply, and is run from then on exactly on the events after |
| MonitorCalls.CallsMatchBooks | lib/vmocs/monitor.py:142-220 | in every run the calls of callbacks are, in order, one for each resolved callback, with its own message if it was answered and with nothing if a drain took it, merged with one call with nothing for each thread that found the flag set |
| MonitorCalls.EachCalledOnce | lib/vmocs/monitor.py:142-220 | once everything queued is resolved, each callback was called exactly as often as it was queued or refused |
| MonitorCalls.HandlersToldOfEnd | lib/vmocs/monitor.py:211-215 | in every run a handler that was added leaves the list only after a drain called it with nothing |
| MonitorWaiters.BarrierHappens | lib/vmocs/monitor.py:77-84 | a run from a new monitor in which a handler is added and sees an event, and a command's own reply then comes |
| MonitorWaiters.NoStrandedWaiter | lib/vmocs/monitor.py:182-185 | past the hello, once the reader has left through its end-of-file branch and no thread is inside a send, the queue is empty and every callback that was queued was called exactly once, with its message or with nothing, as was every refused thread, whether or not `close()` was called |
| MonitorWaiters.DrainsEnd | lib/vmocs/monitor.py:211-220 | once the flag is set and no drain runs, some drain has found the queue empty, unless a drain took the hello callback |
| MonitorWaiters.AtMostOneWaits | lib/vmocs/monitor.py:108-165 | after a drain that emptied the queue, with no drain running and no thread inside a send, everything resolved was called as it is booked and at most one callback is queued: that of a thread that looked at the flag before the last drain ended and queued after it; none iff there is no such thread or it had its reply, and, if the reader had stopped by then, none iff there is no such thread |
| MonitorWaiters.CloseWakesReader | lib/vmocs/monitor.py:108-115 | in every run the reader is told to stop only by a `close()`, after its drain, and by every one that comes to its end, unless a drain took the hello callback |
| MonitorWaiters.OpenQueueWaits | lib/vmocs/monitor.py:151-158 | while the flag is clear, exactly as many callbacks are resolved as replies were read, so the queue is empty iff every callback's reply was read |
| MonitorWaiters.HelloCanStrand | lib/vmocs/monitor.py:121-126 | a disconnect before the greeting leaves a waiter in the queue for good |
| MonitorWaiters.DeathCanStrand | lib/vmocs/monitor.py:170-187 | a reader that ends without its end-of-file branch leaves a waiter in the queue with the flag clear |
| MonitorWaiters.CloseCanStrand | lib/vmocs/monitor.py:108-115 | a close between a thread's look at the flag and its queueing leaves its waiter in the queue for good |
| MonitorWaiters.DrainCanShiftReplies | lib/vmocs/monitor.py:151-165 | a failed send's drain that races the reader gives a callback an earlier command's reply |
| Sidecars.SidecarManager.StopAll | lib/vmocs/sidecars.py:466-489 | SIGTERM goes to exactly the processes found running, last first, then SIGKILL to those of them still running, and at last each is waited for; nothing is sent to a reaped process; afterwards each is reaped or was sent SIGKILL; nothing is sent iff none was found running, so a second call after all were reaped sends nothing |
| Sidecars.SidecarManager.Start | lib/vmocs/sidecars.py:390-413 | a started process is new and recorded last, and every call was made and succeeded; a refusal starts nothing; a log that cannot be closed leaves one new process that is not recorded |
| Sidecars.SidecarManager.StartGiven | lib/vmocs/sidecars.py:390-413 | which of these happens for each way the calls can go: started iff none fails, after the preparation, the spawn and the closing of the log in this order; the process is left running and unrecorded iff closing the log fails after the spawn |
| Sidecars.SidecarManager.WaitReady | lib/vmocs/sidecars.py:415-441 | readiness is reported iff no process was found exited and the deadline did not pass, and the last thing that was seen is then one round in which every recorded process, in order, was found running and its sockets answering |
| Sidecars.SidecarManager.StartAll | lib/vmocs/sidecars.py:380-388 | after the preflight it succeeds iff no call, look or deadline failed; then every plan has its process, the last thing seen is the round of `WaitReady`, and nothing was signalled; otherwise every recorded process has ended |
| Sidecars.StoppingEnds | lib/vmocs/sidecars.py:466-489 | the two rounds of signals leave no process without an end, and reach nobody else |
| Sidecars.StoppingNothing | lib/vmocs/sidecars.py:466-489 | stopping sends nothing iff no process was found running |
| Launch.KillQemu | lib/vmocs/launch.py:898-910 | SIGTERM first, SIGKILL only after the process was looked at as often as the wait asks for; QEMU is then gone or was sent SIGKILL, nobody else is signalled, and nothing is sent once it is gone |
| Launch.GracefulShutdown | lib/vmocs/launch.py:913-939 | a powerdown is asked for, and the result is clean iff QEMU was then seen to be gone, with no signal sent; otherwise as `KillQemu`, with ten looks between the signals |
| Launch.ForkQemu | lib/vmocs/launch.py:767-895 | QEMU is forked iff nothing failed before, and then right after the metadata was written following the round in which every sidecar answered |
| Launch.LaunchVm | lib/vmocs/launch.py:767-895 | it returns iff nothing failed, with QEMU and every planned sidecar started and unsignalled; else it raises with QEMU, if it was forked, signalled and reaped and every recorded sidecar reaped or sent SIGKILL; QEMU is only ever forked right after all sidecars answered; older children are left alone; at most one further process was started, by a failed start, and it was never signalled |
| FrontEnds.FrontEnd.SaveAndRemove | lib/vmocs/session.py:665-684 | its calls are made in turn up to the first that fails (the sidecars stopped, the metadata, the checkpoint, the metadata), then the sidecars are stopped once more, and it raises iff one failed; whatever fails, the overlay is read only from a stopped QEMU and after the sidecars were told to stop, with the given consistency; the runtime directory is removed iff nothing raised |
| FrontEnds.FrontEnd.StopQemu | lib/vmocs/session.py:650-663 | a running QEMU is asked to power down; it is asked to quit iff it did not go, and only then may it be sent SIGTERM, and SIGKILL last |
| FrontEnds.FrontEnd.FinishAttached | lib/vmocs/session.py:643-686 | the same for the end of an attached session, for every failure point: it raises iff one of its own calls failed, and a return has made all of them in order; unless the first metadata write fails, QEMU is stopped and the sidecars are told to stop; the manifest says clean shutdown iff the guest had shut itself down or QEMU went on the powerdown without being asked to quit |
| FrontEnds.FrontEnd.BlockUntilExit | lib/vmocs/cli.py:50-138 | whenever it finds QEMU running it looks at the sidecars and reports one that failed; it raises iff a sidecar or a call of its own failed, and only then is QEMU signalled; it comes back only when QEMU has exited and was reaped, unless the report of a failed sidecar itself raised |
| FrontEnds.FrontEnd.RunUnattached | lib/vmocs/cli.py:289-309 | the same order for an unattached run, which raises iff a call or a sidecar failed and in either case tells the sidecars to stop |
| FrontEnds.FrontEnd.Teardown | lib/vmocs/launch.py:942-1017 | the same order for a teardown by another process, which raises iff a call failed, and returns with QEMU stopped; clean shutdown is said iff a save was requested and QEMU was seen to be gone after the powerdown; it looks whether the runtime directory has vanished, and if so nothing is read, removed or signalled, and it raises iff a save was requested |
| Session.AttachedSession.StageWindows | lib/vmocs/session.py:393-425 | nothing is staged behind a closed gate; a record is returned iff its staging succeeded, and a failed one is asked for at once and is pending unless its removal was confirmed |
| Session.AttachedSession.CleanPending | lib/vmocs/session.py:638-646 | the guest is asked exactly once for each pending record and for nothing else, and exactly those whose removal it confirmed are no longer pending |
| Session.AttachedSession.ServeWindows | lib/vmocs/session.py:599-617 | the command runs only right after its record was staged, and the guest is asked for that record right after it, whatever the command's status; nothing runs if the staging failed or a gate is closed |
| Session.AttachedSession.Round | lib/vmocs/session.py:597-642 | a round runs one command or raises, and raises iff a step of it failed or a gate is closed; it goes round again iff the run lost its transport on a terminal with QEMU alive, no stop, no shutdown and the guest back, and then every pending record was asked for; otherwise it returns what the run means |
| Session.AttachedSession.Loop | lib/vmocs/session.py:597-642 | over any number of rounds the pending records are exactly those that may be in the guest and were not confirmed removed, each command was served as in `ServeWindows`, every further round follows a lost transport as in `Round`, and the result is what the last run means |
| Session.AttachedSession.Attend | lib/vmocs/session.py:596-686 | on every way out the guest is asked exactly once more for each record that was pending when the loop was left; without a terminal the command runs at most once; the status returned is the last run's, 0 after a guest shutdown, or 128 plus the signal; it raises iff a step failed or a gate is closed, or the end of `FinishAttached` does, whose order it keeps, with clean shutdown claimed without a wait iff the last run saw the guest shut down and no stop |
| ForwardEnv.NameTable.AddName | plugins/slurm/spank_vmocs.c:108-130 | the array operation adds a valid new name at the end, ignores a known one and refuses the rest without a change |
| ForwardEnv.NameTable.Serialize | plugins/slurm/spank_vmocs.c:137-160 | the buffer holds the names joined with commas and terminated, if they fit |
| ForwardEnv.NameTable.RecoverNames | plugins/slurm/spank_vmocs.c:168-209 | the in-place parser with its scratch copy computes the recovery function, for replace and for merge |
| ForwardEnvTransport.AddAllIsUnion | plugins/slurm/spank_vmocs.c:108-130 | adding names in order succeeds iff each is usable and together they fit, and then gives their ordered union |
| ForwardEnvTransport.PrintedTable | plugins/slurm/spank_vmocs.c:137-160 | every non-empty table fits the 2048-byte buffer with its terminator and splits back into its names |
| ForwardEnvTransport.RoundTrip | plugins/slurm/spank_vmocs.c:168-209 | recovering a printed table over any other gives the same names in the same order |
| ForwardEnvTransport.MergeIsUnion | plugins/slurm/spank_vmocs.c:168-209 | a merge gives the inherited names, then the new local ones, or clears the table and fails when they are more than 16 |
| ForwardEnvTransport.PostOptIsUnion | plugins/slurm/spank_vmocs.c:413-458 | one context's options are merged behind the inherited variable, exactly when all are usable and fit |
| ForwardEnvTransport.ChainIsUnion | plugins/slurm/spank_vmocs.c:413-458 | through any chain of contexts the variable carries the ordered union of all options, or the chain fails |
| ForwardEnvTransport.SelectIsUnion | lib/vmocs/session.py:56-94 | the loop over the names selects each different name once, in order, exactly when all are acceptable |
| ForwardEnvTransport.ResolveForwardedEnv | lib/vmocs/session.py:56-94 | the Python loop succeeds exactly on such names within the byte limit, and returns them with their values |
| ForwardEnvTransport.TransportEndToEnd | plugins/slurm/spank_vmocs.c:466-546 | a chain that leaves a list hands the job step exactly the ordered union of all options; for a POSIX guest Python accepts it iff every name is set and the record is within the byte limit |
| ForwardEnvTransport.RunInTask | lib/vmocs/session.py:56-94 | the job step's resolution then returns exactly those names with their values, or refuses |
| SshDiagnostics.ScanOffer | lib/vmocs/launch.py:211-219 | the inner loop finds a failure reply to a request after this offer and before any other offer, iff there is one |
| SshDiagnostics.Classify | lib/vmocs/launch.py:166-220 | a log is rejected iff the status is 255, the last line is the exact denial and some offer of this key was answered with a failure before any other offer |
| Templates.NearestIsUnique | lib/vmocs/templates.py:96-115 | at most one ancestor is the nearest that sets a key |
| Templates.GetIsMeaning | lib/vmocs/templates.py:96-115 | whatever the recursive lookup returns is the nearest setting on the chain, null standing for the default, or else the default |
| Templates.EndsIff | lib/vmocs/templates.py:117-140 | a chain of parents ends iff it ends within as many steps as there are templates |
| Templates.AnswersWithin | lib/vmocs/templates.py:96-115 | a lookup ends within a number of calls iff the key is not inherited or the chain sets it or stops within them |
| Templates.SettledIff | lib/vmocs/templates.py:96-115 | a lookup that ends at all ends within as many calls as there are templates |
| Templates.EndsSettled | lib/vmocs/templates.py:96-115 | on a chain of parents that ends every lookup ends |
| Templates.UnresolvableNeverAnswers | lib/vmocs/templates.py:96-115 | a lookup that is not settled within that bound needs more calls than any bound |
| Templates.CyclesAreAccepted | lib/vmocs/templates.py:117-140 | a self-inheriting template passes validation and its lookups need more calls than any bound |
| Templates.Resolved | lib/vmocs/templates.py:142-151 | where every lookup ends, also on a cyclic chain, the loop returns exactly the settings that have a meaning, each with it |
| Templates.MeaningIsUnique | lib/vmocs/templates.py:96-115 | a setting means at most one thing |
| Templates.TemplateConfig.Load | lib/vmocs/templates.py:59-85 | a load succeeds iff no entry is reserved, duplicate or unknown and all templates then validate; a failure names the first bad entry and keeps the entries before it |
| Templates.LoadKeepsAncestors | lib/vmocs/templates.py:59-85 | a further load changes no ancestor of an earlier template |
| Templates.LoadKeepsResolution | lib/vmocs/templates.py:59-85 | a further load changes no setting of an earlier template and makes no ending chain endless |
| NetworkBackends.BoolOptions | lib/vmocs/hypervisor.py:323-332 | boolean settings are printed in order iff each configured one is a boolean |
| NetworkBackends.RawOptions | lib/vmocs/hypervisor.py:335-342 | raw options pass iff no comma-separated part starts with a managed option |
| Network.PrintedPolicy | lib/vmocs/hypervisor.py:387-390 | splitting a printed list on commas gives each managed option exactly the values the managed code gave it, and otherwise exactly the raw parts |
| NetworkBackends.UserNetworkCmdline | lib/vmocs/hypervisor.py:345-390 | it accepts exactly the well-formed mappings; the printed argument gives each managed option its policy: the id, the configured switches, the SSH forward before the configured forwards |
| NetworkBackends.PasstNetworkCmdline | lib/vmocs/hypervisor.py:393-440 | the same for passt, with the SSH port on the bind address and `udp-ports=none` when no UDP port is configured |
| NetworkBackends.NetworkCmdline | lib/vmocs/hypervisor.py:443-450 | the mode chooses the back end, and every other mode is refused |
| NetworkBackends.UserOnlyManagedIff | lib/vmocs/hypervisor.py:335-342 | every mention of a managed option in an accepted user network has the managed value iff no raw part is its bare name |
| NetworkBackends.PasstOnlyManagedIff | lib/vmocs/hypervisor.py:335-342 | the same for passt |
| NetworkBackends.BareRestrictPasses | lib/vmocs/hypervisor.py:335-342 | a mapping with `restrict` off and a raw bare `restrict` is accepted |
| Examples.NamesAre | plugins/slurm/spank_vmocs.c:90-100 | a name is usable iff it is not empty, consists of letters, digits and underscores, and does not begin with a digit |
| Examples.RefusedLogProves | tests/test_launch.py:140-160 | the log of which the test expects a rejection proves the refusal |
| Examples.UnsentLogDoesNot | tests/test_launch.py:163-187 | the same log without the request proves nothing |
| Examples.DenialIs | tests/test_launch.py:140-160 | the denial of the test is one, and one without a method is not |
| Examples.DecimalReads | lib/vmocs/hypervisor.py:345-390 | a port is printed as digits that read as it, without a leading zero |
| Examples.PasstExample | tests/test_hypervisor_cmdline.py:172-198 | the test's passt mapping: the SSH forward on its bind address, its ports, and `ipv6=off` |
| Examples.PasstDefaults | tests/test_hypervisor_cmdline.py:201-217 | a bare passt mapping: the SSH forward on the loopback address and no UDP port |
| Examples.PasstAccepted | tests/test_hypervisor_cmdline.py:172-198 | the test's mapping is accepted in passt mode, and one with a setting of user mode is refused there |
| Examples.UserExample | tests/test_hypervisor_cmdline.py:119-168 | a user mapping: `restrict=on`, `ipv6=off`, and the SSH forward before the configured one |
| Examples.UserAccepted | tests/test_hypervisor_cmdline.py:119-146 | the same in user mode, with a setting of passt mode |
| Examples.OverridesRefused | lib/vmocs/hypervisor.py:335-342 | a raw option with a part that begins with any of the managed names, spelled out, is refused in each mode |
| Examples.ForwardsRefused | lib/vmocs/hypervisor.py:363-385 | a forward with a comma is refused, and so is a guest forward in which neither `-tcp:` nor `-cmd:` occurs |
| Examples.BindRefused | lib/vmocs/hypervisor.py:410-415 | an address to bind to that is no text, is empty or has a comma or a slash is refused |
| Examples.ValidationExamples | lib/vmocs/templates.py:117-140 | what validation refuses, setting by setting, and two templates that it lets pass |

## Left out

* Checkpoint publication and `vm.json` are step machines on values and not
  imperative code, since other savers and power losses come between the steps.
  What they do not capture is the update of local variables in place; the copy
  loop itself is imperative in `SparseCopy.dfy`, and one successful call of it is
  one step here.
* `load_checkpoint` reads several files; in the publication model it is one
  atomic read.  `CheckpointSafety.StandingStays` is why that loses nothing
  before a power loss.
* JSON, YAML, regular expressions and shell quoting are library code: a manifest
  is written and read as the same value.  The image checks are functions of the
  bytes.
* Copying file times and owners, the file modes, and loading without an image check.
* The time a wait takes: every deadline is a free choice.  `_kill_qemu` counts its
  looks, and so does `Launch.KillQemu`.
* `BaseException`s that are not `Exception`s, such as a keyboard interrupt in a
  thread that has no handler for it.
* The monitor dispatches one event in one step: the handlers run without another
  thread in between, except that a registration or a drain which overlaps them may be
  undone by the list they store.  Handlers in the thread model ask to be kept, as the
  two that the source registers do.  A handler is added at most once.
* The monitor's five-second limit on a wait: a stranded waiter is one that is never
  called back, and its thread then raises when the time is over.
* One reset of the guest is one QMP event.  Guest code that rewrites the key
  file by itself is outside the model.
* The Windows and POSIX script texts, and what the guest does with a staged
  record.
* Two owners of `vm.json` at a time share one temporary name; `Metadata.dfy` is
  about one owner, and about writes that do not allow the directory to be missing.
* The third-signal timer of `_block_until_exit`, which sends SIGKILL to a bare
  process number, and the recovery of sidecars from persisted metadata: in the
  front ends both are calls that may raise.
* The child's side of the fork in `launch_vm`, host key capture, and what QMP
  commands do between the monitor's connection and the SSH checks: each is a
  step that may raise.
* Error texts.  Failures are told apart only where a caller can react to them.
* QEMU's own reading of the `-netdev` argument, such as a doubled comma.
* `launch` under a supervisor at the same time as `stop --save`, port search, PCI
  scanning, cloud-init text, snapshots, images and packaging.
* Session.AttachedSession.Attend: it speaks about loops that end within a given
  number of rounds, for every number, and says of a longer run only that it is
  still accounted for.
* Python's recursion limit: a chain of parents about a thousand long would raise
  where `Templates.Resolved` returns.
* Launch.LaunchVm: a sidecar whose last bounded wait ran out was sent SIGKILL
  but need not be reaped yet.
