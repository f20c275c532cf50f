# PC-Check: a verified model of the crash-tolerant test session

PC-Check boots a machine from a USB stick, stresses it for hours or days, and ends in one verdict.
The machine may reset at any moment: between two steps or inside a write. The next boot reads two
alternating files, decides what happened, and goes on. This project models that session and proves
what its verdict can be trusted to mean.

The model has four layers, each resting on the one before it.

1. **The two-slot store** (`RotatingStore.dfy`). Writes alternate between two files; a reset leaves
   the file being written old, unreadable or new. Over any history of saves, resets and reopens the
   store refines an atomic register.
2. **The session** (`Session.dfy`, `Config.dfy`, `Keys.dfy`, `Orchestrator.dfy`, `Invariant.dfy`,
   `Calm.dfy`, `Theorems.dfy`, `DiskProgress.dfy`, `Scenarios.dfy`, `Outcomes.dfy`, `MainThread.dfy`).
   `Orchestrator` is a transition system over memory, scan threads, both stores and boots. `Invariant`
   proves what every turn keeps, `Calm` what every turn keeps as long as no reset went unannounced,
   `Theorems` and `DiskProgress` draw the conclusions over all runs, and `Scenarios` gives a concrete run
   that shows where one of them ends. `MainThread` has the imperative code over session and findings
   objects. Each method stays inside every set of machine states that legal turns do not leave, and does
   what `Outcomes` says of it: `BootOutcomes` tells, step by step up to the verdict, what becomes of the
   findings, exceptions and aborts of the workloads and of what the disks answer.
3. **Findings and verdict** (`Findings.dfy`, `Report.dfy`). The deduplicating store as a class over
   its durable file, its closed form over any calls, and the verdict with its coverage gaps.
4. **Evidence producers** (`SurfaceScan.dfy`, `Disks.dfy`, `Monitors.dfy`, `Kmsg.dfy`, `Ras.dfy`,
   `YCruncher.dfy`, `Storage.dfy`). Each loop against a simple statement about its input, under any
   schedule or resume point. `Producers.dfy` proves that what they add keeps to the rule on which
   runs of the session rest: one key informs always or never.

`dafny verify dfyconfig.toml` checks everything; no file needs another library.

## Where the code falls short of its own promise

Each of these is a proved statement with a concrete run or input, and the condition under which the
promise does hold.

- *"An interrupted write costs at most the newest save"* (`src/pccheck/util.py:149-150`). A save that
  fails still consumes a sequence number, so the next write lands on the newest copy.
  `LaggingCutIsSafeIffEven` gives the exact condition for one write, `FailedAttemptCanLoseNewestSave`
  a history, `RefinesAtomicRegister` the whole-history guarantee.
- *Planned reboots resume.* The reboot marker is saved before the phase is pending again. A reset
  between these two saves is taken for the planned one, but the phase is still `running` and is never
  run again: the remaining cycles are lost (`Scenarios.RebootRequestCanTear`), and the session cannot
  pass (`TornRebootRequestCannotPass`). `PlannedRebootResumesIff` gives the exact condition for every
  run: the second save was durable. Once the reboot is actually issued, either slot may be lost
  (`PlannedRebootSurvivesLosingASlot`).
- *The kernel log holds each record once.* A restart on the same boot can write a record again, either
  because a stop wrote the waiting batch without moving the cursor (`LastBatchCanRepeat`) or because no
  session save covered the last flush (`UnsavedFlushCanRepeat`). `LoggedOnceIff` gives the exact
  condition over any lives of the watcher. Nothing is ever missing (`RestartMissesNothing`).
- *The evidence caps never matter.* A fault line beyond the 25th is listed as an error, so "incomplete"
  can be recorded besides "fail": `CapsCanAddIncomplete` has an output, `CapsMatterOnlyIf` the exact
  condition. The verdict never changes (`CapsNeverChangeVerdict`).
- *1 MiB alignment.* It holds for every table exactly when the sector size divides 1 MiB
  (`AlignedForAllIffDivides`).

One weakness of the findings store is made good by its callers. Raising a known informational finding
to a warning waits in memory, where a reset forgets it (`WarningsAgreeIffNotRaisedQuietly` is the exact
condition per call). But the producers add under one key with one kind of severity (`Producers`), except
for the historic BMC log, so as long as every reset is announced no such raise touches what a PASS rests
on (`Calm.RunKeepsCalm`, `PassMeansClean`).

## Model

| member | source | states |
|---|---|---|
| RotatingStore.RotatingFile.WriteRotating | src/pccheck/util.py:148-155 | a write changes only the slot of its number's parity |
| RotatingStore.RotatingFile.ReadRotating | src/pccheck/util.py:158-167 | the result is in some slot, no readable slot has a greater number, and nothing is found only if every slot is unreadable |
| RotatingStore.WriteIsRead | src/pccheck/util.py:148-167 | a completed write with a greater number is what reading returns next |
| RotatingStore.CutIsOldOrNew | src/pccheck/util.py:142-167 | a cut write leaves the old reading or the new one, whether its slot is old, unreadable or new |
| RotatingStore.LaggingCutIsSafeIffEven | src/pccheck/session.py:203-215 | after failed attempts a torn write keeps the newest save if and only if their number is even or that save is the legacy file |
| StoreHistory.RefinesAtomicRegister | src/pccheck/util.py:142-167 | over any history of saves, failures, resets and reopens reading gives the last completed save or the one in progress, never an older one, if no torn write follows an odd number of failures |
| StoreHistory.RefinesWithoutFailures | src/pccheck/util.py:142-167 | the same with no further condition when no attempt fails |
| StoreHistory.FailedAttemptCanLoseNewestSave | src/pccheck/session.py:203-215 | a failed attempt before a torn write can bring back an older document |
| TestSession.Session.Open | src/pccheck/session.py:106-147 | a new session starts fresh with number 1; a found one is classified, saved under the next number, and knows the phase that was running |
| TestSession.Session.Classify | src/pccheck/session.py:172-198 | same boot is a restart, a marker a planned reboot to that cycle, anything else an unexpected reset; the marker is consumed in every case |
| TestSession.ResumeTells | src/pccheck/session.py:172-198 | each way to resume holds exactly under its condition, counts exactly its own kind of boot, consumes the marker and keeps phases, disk tests and plan |
| TestSession.Session.Save | src/pccheck/session.py:203-215 | every attempt takes a number, only serialization errors are retried, at most five times, and only the last attempt can write |
| TestSession.FindRunning | src/pccheck/session.py:150-170 | the first of at most fifty candidates whose newest readable state is of this machine and neither complete nor cancelled |
| TestSession.PointerComesFirst | src/pccheck/session.py:150-170 | the pointed session comes first, then every other directory as often and in the order listed |
| TestSession.LostPointerHidesNothing | src/pccheck/session.py:150-170 | any of the newest 49 directories is among the candidates whatever the active pointer says |
| Config.Validate | src/pccheck/config.py:142-152 | every value comes out finite and in its range; exactly the values that were not are reported and replaced by the default, no other one changed |
| Config.BuildPlan | src/pccheck/config.py:160-171 | the plan is inventory, the unskipped stress phases in the order of their weights with their rounded shares, then power cycling only when asked for; no phase twice, exactly the unskipped ones, and the shares fill the budget up to rounding |
| Config.PlanIsOrdered | src/pccheck/config.py:160-171 | stress phases come in the order of their weights, each with the share of its own weight |
| Config.Share | src/pccheck/config.py:160-171 | a share is the weighted part of the total rounded down, and 60 seconds where that is less |
| Config.Budget | src/pccheck/config.py:160-171 | the rounded shares of the seven weights lose less than a second each of the total |
| FindingStore.Findings.Add | src/pccheck/findings.py:61-103 | the call as its effect on memory and both slots: new findings and failures are written at once |
| FindingStore.Findings.Escalate | src/pccheck/findings.py:105-115 | severity only rises, and pending changes are written |
| FindingStore.Findings.Flush | src/pccheck/findings.py:136-150 | nothing is written unless something changed or it is forced, each write takes the next number, and one that fails has taken its number and cleared the flag without changing the file |
| FindingStore.Findings.constructor | src/pccheck/findings.py:43-59 | memory starts from the newest readable copy and its number |
| FindingStore.ClosedForm | src/pccheck/findings.py:61-103 | for any calls a finding has the maximum severity, the title of the first event reaching it, the summed count (plus one if the first was 0), the disjunction of incompleteness and the first 25 distinct non-empty lines |
| FindingStore.VerdictIsMonotone | src/pccheck/findings.py:61-115 | over any interleaving of add and escalate the verdict only worsens |
| FindingStore.CallsKeepSynced | src/pccheck/findings.py:61-150 | between any calls disk has the same keys as memory and exactly the same failures |
| FindingStore.ResetLosesNoFailure | src/pccheck/findings.py:92-103 | a reset inside the write of a further call loses no key and no failure |
| FindingStore.AddIsDurableIff | src/pccheck/findings.py:61-103 | one add is fully durable if and only if it is urgent or changes nothing |
| FindingStore.WarningsAgreeIffNotRaisedQuietly | src/pccheck/findings.py:61-103 | disk and memory keep agreeing on which findings are warnings exactly when the call does not raise an informational one to a warning |
| Report.CoverageGaps | src/pccheck/report.py:21-39 | every gap of the state or the findings is listed, each once, and nothing else |
| Report.Build | src/pccheck/report.py:42-46 | from the re-read durable copies: FAIL if and only if some finding is a failure; PASS if and only if every finding informs, none is incomplete, there is no gap and nothing more is asked for; PASS WITH WARNINGS if and only if the same holds but for warnings, of which there is one |
| Report.ResultJudges | src/pccheck/findings.py:153-161 | the same of the verdict of any two stores, as a statement about their newest readable copies |
| Report.CoveredIffNoGap | src/pccheck/report.py:21-39 | no gap exists exactly when the session is complete, fully planned, fully run and all scans and self-tests succeeded |
| Invariant.TurnKeeps | src/pccheck/orchestrator.py:208-386 | boots, saves, actions and resets at any point, torn writes included, keep the invariant of machine and disk |
| Invariant.RunKeeps | src/pccheck/orchestrator.py:208-466 | the invariant holds after every run |
| Invariant.ActionsKeepUp | src/pccheck/orchestrator.py:330-386 | every step of the test process keeps memory and disk in agreement, the reset accounts, the bounds on starts and the evidence for bad phases |
| Invariant.CutActionIsDown | src/pccheck/orchestrator.py:330-386 | the same for a step cut inside its write, seen from the next boot |
| Invariant.BootIsUp | src/pccheck/session.py:106-201 | whatever a reset left, the next boot opens it into a sound process |
| Invariant.CutBootIsDown | src/pccheck/session.py:172-201 | a reset inside the save of a resume is counted once more and hidden by nothing |
| Calm.TurnKeepsCalm | src/pccheck/orchestrator.py:208-449 | every turn keeps, while no reset went unannounced: disk and memory agree on what is only information, phases are settled in order and borne out by findings on disk, every scan began at the start of its disk and its errors are on disk before the tests count as finished |
| Calm.RunKeepsCalm | src/pccheck/orchestrator.py:208-466 | that holds after every run |
| Theorems.PassMeansClean | src/pccheck/orchestrator.py:330-386 | PASS implies a complete session, no unannounced reset, every planned phase exactly done, one boot plus one per reboot cycle, and all disk tests and self-tests successful |
| Theorems.PassMeansDisksWereRead | src/pccheck/disks.py:439-540 | PASS implies that every listed disk was tested and every byte of a disk to be read was read successfully by one scan that began at its start |
| Theorems.UnplannedResetForcesFail | src/pccheck/session.py:182-201 | every reset of a running session without a marker makes every later final verdict FAIL, whatever resets hit before the finding is written |
| Theorems.UnannouncedResetForcesFail | src/pccheck/session.py:182-201 | the same seen from the run itself: any turn that ends a running process without a saved marker, at any point of the run |
| Theorems.BootsAreAccounted | src/pccheck/session.py:172-201 | in every saved state the boots number one plus unexpected resets plus cycles, boot ids strictly increase, and cycles stay within the clamped target and begin only after the disk tests |
| Theorems.StressPhasesBeginOnce | src/pccheck/orchestrator.py:332-358 | over all boots each stress phase other than inventory and power cycling begins at most once |
| Theorems.NoStressPhaseBeginsTwice | src/pccheck/orchestrator.py:332-358 | no two turns of a run, in whatever boots, begin the same stress phase |
| Theorems.TotalStartsBounded | src/pccheck/orchestrator.py:332-371 | all starts over all boots are at most the stress phases plus the reset limit plus the cycles plus one |
| Theorems.AlwaysArmed | src/pccheck/orchestrator.py:304-312 | whenever the reboot has been issued both slots hold the marker and the pending phase |
| Theorems.PlannedRebootSurvivesLosingASlot | src/pccheck/orchestrator.py:368-371 | then losing either slot still resumes as planned, counts no reset, advances the cycle by one and finds the phase pending |
| Theorems.PlannedRebootResumesIff | src/pccheck/orchestrator.py:368-371 | for every run that ends with the machine off and a marker on disk: the next boot is taken for the planned one and finds the power cycle phase pending if and only if the save that made it pending again was durable, running otherwise |
| Theorems.ReportedFailureForcesFail | src/pccheck/findings.py:92-103 | a failure added by anyone at any time makes every later verdict FAIL across all resets |
| Theorems.TornRebootRequestCannotPass | src/pccheck/orchestrator.py:62-68 | a session resumed from between marker and re-armed phase can never PASS |
| Theorems.EndStatusTells | src/pccheck/orchestrator.py:371-386 | a phase ends aborted, as an error, failed, warned or done exactly by the worst of the findings attributed to it, incomplete ones first |
| Theorems.NoRebootWithoutStorage | src/pccheck/phases.py:573-579 | in no run is a machine without persistent storage told to reboot |
| DiskProgress.RecordIsEarned | src/pccheck/disks.py:439-540 | in every run, whatever resets and torn writes, each byte below a saved offset was read or given up by some scan of some boot, and a write test is on record as done only if a save found it finished |
| DiskProgress.PassMeansDisksWereWritten | src/pccheck/disks.py:465-490 | PASS implies of every disk to be written that some save of the run found its write test finished |
| DiskProgress.InterruptedScanGoesOn | src/pccheck/disks.py:439-490 | from every sound state: a reset after a save of progress lets the next boot go on at exactly the offset the thread had then |
| Scenarios.SetupIsPlanned | src/pccheck/config.py:160-171 | the session of the scenario has the plan that is built when the seven stress phases are skipped |
| Scenarios.RebootRequestCanTear | src/pccheck/orchestrator.py:62-68 | a run of such a session into the torn reboot request, with no reset counted |
| BootOutcomes.FoundIffOffered | src/pccheck/findings.py:61-103 | of any events added to no findings: there is a failure, or an incomplete finding, if and only if one was offered, and a warning is never lost except in a failure |
| BootOutcomes.VerdictHeedsAll | src/pccheck/orchestrator.py:330-449 | if all that workloads and checks offered is on record, the verdict is FAIL after an offered failure, no better than INCOMPLETE after an incomplete one, an exception or an abort, and never PASS after a warning |
| BootOutcomes.VerdictOfWholeRun | src/pccheck/orchestrator.py:330-449 | the verdict of a session with nothing left open is decided by the events offered alone, each verdict under exactly its condition |
| BootOutcomes.EndsWell | src/pccheck/orchestrator.py:389-449 | phases, disks and checks with nothing in the way leave such a session |
| MainThread.Context.AddAs | src/pccheck/findings.py:61-103 | an add on the real objects is the machine's step and has its effect on memory |
| MainThread.Context.Observations | src/pccheck/orchestrator.py:407-449 | every finding offered is added, in order, and nothing else changes |
| MainThread.Context.RunBody | src/pccheck/orchestrator.py:354-370 | a workload leaves all its findings, its abort, its exception as an incomplete finding, and after inventory every disk on record with those to be read under way from their saved offsets |
| MainThread.Context.RunPhase | src/pccheck/orchestrator.py:343-386 | one phase, with its error branch, its reboot branch and its final status, takes only turns of the machine; all its workload showed is on record, only power cycling adds a finding of its own, and its status is what its findings say |
| MainThread.Context.RunPhases | src/pccheck/orchestrator.py:330-386 | so does the loop over the plan: every pending phase runs with all that it showed on record, unless too many resets came before, the operator aborted or the machine reboots first; with nothing in the way it ends with exactly the findings offered |
| MainThread.Context.RecordIncident | src/pccheck/orchestrator.py:208-246 | so does the incident report: the finding of its cause, the interrupted phase marked, the inventory pending again |
| MainThread.Context.PowerCycleRun | src/pccheck/phases.py:559-585 | so does one turn of the power cycle phase |
| MainThread.Context.PerformReboot | src/pccheck/orchestrator.py:304-312 | so does the preparation of a reboot |
| MainThread.Context.StartDiskTests | src/pccheck/orchestrator.py:280-301 | so does the start of the disk tests, in the inventory phase and after a resume: every listed disk is then on record, to be written or read as chosen, and each one to be read has a thread from its saved offset |
| MainThread.Context.FinishDiskTests | src/pccheck/orchestrator.py:389-404 | so does their end: every scan ends as its device and stop request say, its errors and its being partial are among the findings, and nothing is added when all went well |
| MainThread.Context.Finalize | src/pccheck/orchestrator.py:407-449 | so does the end of the session: the disk tests are over, every finding of the last polls and checks is added, all is written, and the session is complete or, after an abort, cancelled |
| MainThread.PassIsClean | src/pccheck/report.py:42-46 | a PASS of a machine that runs lead to promises no unannounced reset, all phases done, all reboots made, and all bytes of the disks to be read read |
| MainThread.RunBoot | src/pccheck/orchestrator.py:467-520 | one whole boot from opening to report or reboot is a run of the machine. If the boots before it were runs too, a reported PASS means all that; any reported verdict heeds every finding, exception and abort of the phases that ran and of the checks, and every pending phase ran unless the reset limit or an abort kept it; and from a new directory, with nothing in the way and sound disks, the verdict is decided by the findings offered, so it is PASS exactly if all inform, none is incomplete and no phase was left out |
| SurfaceScanning.SurfaceScan.Run | src/pccheck/disks.py:243-274 | the thread's fields end as the scan over this device and stop request leaves them, with the bytes read counted |
| SurfaceScanning.ScannedIsSound | src/pccheck/disks.py:243-274 | such a scan tiles the disk from start to offset, gives up at most 63 regions and counts them, and done and aborted mean what they say |
| SurfaceScanning.EveryByteInOneExtent | src/pccheck/disks.py:243-274 | tiling puts every byte into exactly one region |
| SurfaceScanning.CleanScanReadEverything | src/pccheck/disks.py:243-274 | a reported scan that is done without errors has successfully read every byte from its start |
| SurfaceScanning.QuietScanWasStopped | src/pccheck/disks.py:243-274 | a scan that added no error and is not done was stopped, and each of its reads returned something: an early end of the device is always an error |
| SurfaceScanning.AnsweringDeviceIsRead | src/pccheck/disks.py:243-274 | a device that always returns something is read to its end without an error if there is time |
| SurfaceScanning.ResumedScanCoversDisk | src/pccheck/disks.py:439-490 | over any resumes from saved offsets a finished scan tiles the whole disk with at most 63 given-up regions per boot |
| DestructiveTests.BusyIffAnyNodeInUse | src/pccheck/disks.py:421-424 | the recursive test finds a mount or holder anywhere in the device tree |
| DestructiveTests.EligibleIffExpendable | src/pccheck/disks.py:414-437 | a disk is eligible if and only if it is fully discovered, not the boot disk or excluded, unused at every node, and either carries no signature and no discovered node below it or force is set |
| DestructiveTests.IdentitySurvivesRenamingIff | src/pccheck/disks.py:51-52 | a disk is known by the same identity under every kernel name if and only if it has a serial number or a WWN |
| DestructiveTests.DiskManager.DestructiveCandidates | src/pccheck/disks.py:414-437 | every disk is a candidate if it is expendable in that sense and skipped if it is not, in the order of the disks |
| DestructiveTests.DiskManager.StartScans | src/pccheck/disks.py:439-463 | a disk is written only where chosen by name, expendable now (so blank unless forced), and identifiable after a resume; every disk is finished, written, refused or scanned from its saved offset |
| DestructiveTests.DiskManager.StartDiskTests | src/pccheck/orchestrator.py:280-301 | a call makes the choice only if none was saved and then only as confirmed, and writes only disks of the chosen identity and size that are expendable now |
| DestructiveTests.WrittenDiskWasConfirmed | src/pccheck/orchestrator.py:280-301 | over any boots and resets of a session, a disk that is written has the identity and size of one the operator confirmed in that boot or an earlier one, and held no data both when it was chosen and when writing began unless force was set |
| DestructiveTests.OneChoiceForAllWrites | src/pccheck/orchestrator.py:280-301 | all disks written in a session come from one choice; no boot chooses after another has written |
| DestructiveTests.ReadDiskIsNeverWritten | src/pccheck/disks.py:439-463 | a disk on record to be read is not written in that boot or any later one |
| CounterMonitors.CounterMonitor.Poll | src/pccheck/monitors.py:133-156 | a poll compares every counter once and remembers every reading |
| CounterMonitors.CounterMonitor.Compare | src/pccheck/monitors.py:142-156 | an increase is added, escalated at the limit, and the reading remembered |
| CounterMonitors.CountIsScheduleIndependent | src/pccheck/monitors.py:133-156 | for a counter that never decreases within a boot the count is what earlier boots left plus the last reading, or without an earlier finding the reading plus one exactly when kernel text came first, and severity follows from that |
| CounterMonitors.SchedulesAgree | src/pccheck/monitors.py:133-156 | any two polling schedules with the same last reading give the same count and severity |
| CounterMonitors.PollTracksEachCounter | src/pccheck/monitors.py:133-156 | a counter with its own name and finding is not disturbed by the others of a poll |
| CounterMonitors.StepsTrackEachCounter | src/pccheck/monitors.py:133-156 | nor by any interleaving of polls and kernel log lines about all counters: it ends as its own history says |
| KernelLog.KmsgMonitor.Process | src/pccheck/kmsg.py:169-211 | the finding a classified message adds to, with boot, boot-disk, BERT and ownership rules |
| KernelLog.IgnoredIsSilent | src/pccheck/kmsg.py:178-201 | a message that is normal at boot, or one of memory errors that sysfs reports, changes nothing |
| KernelLog.PlainMessage | src/pccheck/kmsg.py:169-211 | from record and rule alone: a message that is neither silent, left from the boot nor about the boot disk adds one to the finding of its rule and device, or nothing where sysfs counts, touches no other, and gives a new one its rule's severity |
| KernelLog.FailingRuleFailsIff | src/pccheck/kmsg.py:169-211 | a message of a rule that fails does fail its finding, if and only if it is not normal at boot, left from the boot, or about the boot disk |
| KernelLog.WarningFailsIff | src/pccheck/kmsg.py:201-211 | a plain warning fails its finding if and only if the count has reached the limit of its own rule, named rule by rule |
| KernelLog.WarningFailsOnlyByNumber | src/pccheck/kmsg.py:201-211 | no warning of whatever kind fails any finding otherwise |
| KernelLog.LimitIsReachedIff | src/pccheck/kmsg.py:206-211 | which option limits which rule, with no limit for the others and for PCIe where sysfs counts |
| KernelLog.InformingRuleNeverFails | src/pccheck/kmsg.py:169-211 | a rule that only informs makes no finding worse |
| KernelLog.BootDiskMessage | src/pccheck/kmsg.py:193-195 | a finding about the boot disk is touched only by messages that name it under a disk rule, and these touch no other and fail only by number |
| KernelLog.BertFailsAfterReset | src/pccheck/kmsg.py:190-192 | a record the firmware kept fails its finding if and only if the boot came from an unexpected reset |
| KernelLog.BootMessage | src/pccheck/kmsg.py:186-189 | a message left from the boot touches only its rule's finding for the boot, as a warning under the boot title |
| KernelLog.ThrottlingMessage | src/pccheck/kmsg.py:197-203 | throttling that sysfs counts is one finding for all CPUs, to whose count text adds nothing |
| KernelLog.UnmatchedMessage | src/pccheck/kmsg.py:172-179 | a message that no rule knows is a warning if and only if it is critical or worse |
| KernelLog.TextCountsAtMostOnce | src/pccheck/kmsg.py:169-211 | a message adds at most one to one finding and nothing to a count that sysfs owns |
| KernelLog.MessageFailsIff | src/pccheck/kmsg.py:201-211 | a finding fails exactly through its own or the message's severity, or through a warning outside the boot that reached its limit |
| KernelLog.OwnedTextIsMention | src/pccheck/kmsg.py:197-211 | text about an owned PCIe counter is exactly the mention the counter monitor allows for |
| KernelLog.KmsgMonitor.Handle | src/pccheck/kmsg.py:231-273 | one read: what is accepted, written, and where the cursor goes |
| KernelLog.KmsgMonitor.Run | src/pccheck/kmsg.py:213-278 | one life writes exactly the accepted records, or those flushed if the process dies, and classifies each once |
| KernelLog.StreamIsFaithful | src/pccheck/kmsg.py:231-273 | whatever is read, accepted records strictly increase, fewer than 200 wait, and the cursor is exactly the last record written |
| KernelLog.NothingIsSkipped | src/pccheck/kmsg.py:231-273 | a record still in the kernel's buffer that was read past has been accepted, unless it lies behind the starting cursor |
| KernelLog.CursorNeverAheadOfLog | src/pccheck/kmsg.py:213-279 | over any lives of one boot the saved cursor never runs ahead of the log |
| KernelLog.RestartMissesNothing | src/pccheck/kmsg.py:213-279 | after a stop no record read past and still in the buffer is missing from the log, however often the watcher died before |
| KernelLog.LoggedOnceIff | src/pccheck/kmsg.py:213-279 | over any lives of one boot no record is in the log twice if and only if no life reads for good a record that is in the log already but above the saved cursor |
| KernelLog.LastBatchCanRepeat | src/pccheck/kmsg.py:274-278 | after a stop with a batch waiting a restart writes a record a second time |
| KernelLog.UnsavedFlushCanRepeat | src/pccheck/kmsg.py:260-272 | so it does after a flush that no session save covered, whether the watcher died or was stopped |
| KernelLog.AcceptedFailureFails | src/pccheck/kmsg.py:213-278 | whatever else is read, every accepted record of a failing rule has failed its finding at the end |
| KernelLog.OverrunLeavesIncomplete | src/pccheck/kmsg.py:231-240 | an overrun at any time leaves an incomplete finding |
| RasEvents.RasMonitor.Record | src/pccheck/ras.py:46-78 | a row is refused before any finding changes, ignored as informational, or added and escalated at its table's limit |
| RasEvents.RasMonitor.Poll | src/pccheck/ras.py:22-44 | tables and rows in order, the cursor after each row, stopping at the first complaint |
| RasEvents.RasMonitor.Sample | src/pccheck/monitors.py:39-49 | a complaint becomes an incomplete finding unless it repeats the last one |
| RasEvents.RowsAreRecordedOnceInOrder | src/pccheck/ras.py:33-44 | over any polls of growing tables exactly the rows at or below the cursor were recorded, once each, in key order |
| RasEvents.CompleteOrIncomplete | src/pccheck/ras.py:22-44 | after any poll either every row of every table is recorded or the verdict is no better than INCOMPLETE |
| RasEvents.ComplaintsStay | src/pccheck/monitors.py:39-49 | one complaint of any poll keeps the verdict from ever being better than INCOMPLETE |
| RasEvents.ResetIsNoticed | src/pccheck/ras.py:36-39 | a table whose greatest id fell behind the cursor always ends the poll with a complaint |
| RasEvents.CountsAreExact | src/pccheck/ras.py:46-78 | over any polls a finding counts exactly the errors its recorded rows report, told from their columns, and fails exactly when these were uncorrected or have reached the option of their own table |
| RasEvents.JudgedTells | src/pccheck/ras.py:46-78 | which rows are refused, ignored, corrected or not, from the columns alone: neither corrected nor informational mc events, MCEs without a status or with bit 61, PCIe errors not corrected, CPER severities other than 2 and 3 |
| RasEvents.UncorrectedRowForcesFail | src/pccheck/ras.py:46-78 | however polls are scheduled or fail, one recorded row whose columns say so makes the verdict FAIL |
| RasEvents.CorrectedFailsAtItsOption | src/pccheck/ras.py:71-78 | findings of corrected errors stay warnings until the option of their own table is reached, table by table |
| YCruncher.ReadEvidence | src/pccheck/ycruncher.py:38-68 | the result tells of the non-blank lines: passes per test, cores, nodes, marker, version, the first 25 faults and errors, the last 12 lines |
| YCruncher.CoverageGaps | src/pccheck/ycruncher.py:71-86 | the list holds exactly the gaps of exit, marker, tests, cores and time, each with its text, and the listed errors |
| YCruncher.CheckResult | src/pccheck/phases.py:258-281 | failure, incompleteness and success are added under exactly their conditions |
| YCruncher.OkIffProven | src/pccheck/phases.py:258-281 | success if and only if the output shows no fault or error, a pass of each of the six tests under either of its names, all cores and the marker, and the run exited with 0 after nine tenths of its time unaborted |
| YCruncher.FailIffFault | src/pccheck/phases.py:258-270 | failure if and only if a fault line occurs, or an exit code of one of five signals, plain or as a launcher reports it, that no abort explains |
| YCruncher.OneOutcome | src/pccheck/phases.py:258-281 | there is always a finding, and success excludes the other two |
| YCruncher.RunVerdict | src/pccheck/phases.py:258-281 | the verdict of a run without earlier findings: FAIL after a failure, else INCOMPLETE while anything is unfinished, else PASS |
| YCruncher.CapsCanAddIncomplete | src/pccheck/ycruncher.py:58-63 | an output of 26 faults and a full pass that is incomplete with the caps and not without them |
| YCruncher.CapsMatterOnlyIf | src/pccheck/ycruncher.py:58-63 | the caps change the set of findings exactly when complete output overflows the fault list |
| YCruncher.CapsNeverChangeVerdict | src/pccheck/ycruncher.py:58-63 | with or without caps the verdict is the same |
| Producers.KernelMessagesFit | src/pccheck/kmsg.py:47-119 | every finding from a message matched by the rule table, with or without a device, at boot, about the boot disk or a throttled CPU, informs exactly if its key is an informational one |
| Producers.OtherKernelFindingsFit | src/pccheck/kmsg.py:172-240 | so does every unmatched critical message and an overrun |
| Producers.RasFindingsFit | src/pccheck/ras.py:46-78 | so does every finding of the rasdaemon monitor |
| Producers.CountersFit | src/pccheck/monitors.py:84-191 | so does every finding of the memory, PCIe and throttling counters |
| Producers.YCruncherFindingsFit | src/pccheck/phases.py:258-281 | so do the three outcomes of y-cruncher |
| PartitionPlanning.PlanIsLeastStart | src/pccheck/storage.py:159-174 | the plan is the least start on a 1 MiB boundary behind every partition and the ISO image with at least 256 MiB behind it |
| PartitionPlanning.NoPlanIff | src/pccheck/storage.py:159-174 | no plan exactly when a dos table is full or no such start has room |
| PartitionPlanning.AlignedForAllIffDivides | src/pccheck/storage.py:168-174 | every plan is on a 1 MiB boundary if and only if the sector size divides 1 MiB |

## Left out

- Process restarts on the same boot: the session's restart branch is in `TestSession.Session.Classify`,
  but runs of `Orchestrator` have machine resets only, each boot with an id never seen before.
- Changed options between boots: the reset limit and the number of cycles stay as at the start, as
  with an unchanged command line.
- Thread interleaving: steps are atomic. In particular `flush` is atomic apart from resets, although
  it releases its lock before writing.
- Failed writes in whole runs: `StoreHistory`, `TestSession.Session.Save` and `FindingStore.Findings.Flush`
  have them, runs of `Orchestrator` do not.
- A damaged session whose every copy is unreadable: the next boot begins a new one, as in the code;
  what the lost one had found is not carried over.
- Findings of producers that are not modelled: `Orchestrator` admits those whose severity fits their key,
  as the table in `FindingKeys` says; `Producers` proves this for the modelled ones only.
- The BMC log from before the session: reading it is two steps that may come in either order, and what is
  in it is a parameter; a first boot that is reset between them leaves them to a later boot.
- Two disks with the same serial number share one entry in the code, and so they do in `DestructiveTests`;
  the disks of `Orchestrator` runs have distinct identities.
- A scan that does not end within the two minutes `stop` waits for it: in the model it ends and reports.
- Write tests: only that they begin, and that a save finds them finished or not, is part of a run.
- MainThread.Context.RecordIncident: leaves out the branch for a restarted process, as runs do.
- MainThread.Context.FinishDiskTests: the wait, the threads running beside the main thread and the SMART
  reading are represented by the number of reads each scan gets and by its results.
- MainThread.RunBoot: findings that `main` adds before the incident report (options out of range, logs kept
  in RAM), that monitor threads add meanwhile, and scans that run on while phases do, are part of
  `Orchestrator` runs, not of this method.
- SurfaceScanning.ResumedScanCoversDisk: is about coverage over unannounced resets; errors stay in memory
  until a scan reports, so claims about errors are for one boot, which is all that a PASS can have.
- SurfaceScanning.SurfaceScan.Run: a pause is no step, the stop request comes after a given number of
  rounds, and `report_scan` is a step of `Orchestrator`.
- CounterMonitors.PollTracksEachCounter: two counters that share one finding (nonfatal and fatal PCIe
  errors) are outside it.
- FindingStore.ClosedForm: says nothing about the recommendation; timestamps, listeners and the
  optional title and recommendation of `escalate`, which no caller passes, are left out; evidence
  lines come stripped.
- KernelLog.KmsgMonitor.Run: the log's header line, time formatting and the list of error lines are
  left out; a file that cannot be opened ends the watcher before this loop.
- KernelLog.KmsgMonitor.Process: pattern matching and device extraction are inputs.
- RasEvents.RasMonitor.Poll: the tables of SQLite are rows in key order; wording apart from the cause
  of a complaint is left out.
- YCruncher.ReadEvidence: patterns are flags on a line; starting the program, the phase's files and the
  numbers in its wording are left out.
- Rational arithmetic stands for floating point in budgets and in the nine-tenths rule.
- Process handling, stress-ng, stressapptest, mprime, fio, iperf3 and SMART rules: external effects or
  flat tables.
- EDAC label building, throttle sums, sensors, IPMI, network and heartbeat monitors: more of the kind of
  `CounterMonitors`.
- File system, mounting, partition creation and flushing of block devices: represented only by what a
  reset leaves in a slot.
- Dashboard, HTTP server, keys, text and HTML reports, command line and configuration parsing.
