# Hostel: a verified model of its protocols

Hostel is a daemon that keeps many Beds alive behind a few locks. This project models the protocols
between those locks in Dafny 4.11 and proves what every interleaving of them keeps. `dafny verify
dfyconfig.toml` checks the whole project.

A section under a lock is one atomic step. Slow work between two sections is a pair of steps with a free
outcome. Where the code updates fields in place, a class carries those fields. Each of its methods is proved
to take the step that the machine gives it or to refuse, and to keep the invariant of the machine's runs;
the run-level claims are then about the machine. What a machine's steps do is in turn proved against the
history of its runs: the modules called outcomes, holders and learning read each field off the sequence of
steps alone, without the functions that apply a step, and show that every run's state agrees. Admission is
stated by the same history, and progress lemmas show that the steps a caller waits for can be taken.

| file | models |
|---|---|
| `lifecycle.dfy`, `lifecycle_safety.dfy`, `lifecycle_exact.dfy`, `lifecycle_races.dfy`, `lifecycle_outcomes.dfy`, `lifecycle_holders.dfy`, `lifecycle_admission.dfy`, `lifecycle_progress.dfy`, `bed_names.dfy` | which maps a Bed name occupies during creation, eviction, retirement, purge and cleanup; capacity |
| `activity.dfy`, `activity_safety.dfy`, `activity_outcomes.dfy`, `bed_manager.dfy` | operations, sessions, persists, evictions and renewals of resident Beds; the two counters; retention |
| `persistence.dfy`, `late_persists.dfy`, `persistence_outcomes.dfy`, `stage.dfy` | generations across crashes and uploads; staging a directory in |
| `policy.dfy`, `policy_mutation.dfy`, `policy_chain.dfy`, `policy_names.dfy`, `policy_dns.dfy`, `policy_learning.dfy`, `policy_control.dfy` | egress policies, their filter chain, and DNS learning under revisions |
| `cpu_window.dfy` | the CPU usage window |
| `execution_output.dfy`, `execution_stop.dfy` | an execution's bounded output and its termination |
| `ports.dfy`, `port_manager.dfy` | port reservations |
| `bed_users.dfy`, `local_identity.dfy`, `identity_recovery.dfy`, `identity_safety.dfy`, `identity_overlap.dfy`, `identity_outcomes.dfy` | Unix users of Beds, the trees they own, and recovery |
| `mcp_pool.dfy`, `mcp_pool_safety.dfy`, `mcp_pool_outcomes.dfy`, `mcp_proxy.dfy` | the pool of remote connections |
| `readiness.dfy`, `supervision.dfy`, `supervision_outcomes.dfy` | readiness thresholds and supervision of Pillows |

## Where the code does less than it promises

Six promises are false of the code as it stands. Each has a concrete run or input and the condition that is missing.

- **Retirements and capacity.** A creation that fails to publish rolls back, releases its cleanup
  semaphore and only then deletes whatever its name has in the retirements
  (`internal/bed/manager/initialization.go:363-372`). An eviction can enter that retirement in between
  and go on to clean the identity of a later creation of the same name. Then destructive cleanup overlaps
  a creation (`CleanupCanOverlapCreation`), the occupied count can exceed the limit
  (`CapacityCanBeExceeded`), a name can be resident and retiring at once (`ResidentNameCanBeRetiring`),
  and an old rollback can drop a later retirement whose runtime is not released
  (`UnreleasedRetirementCanBeDropped`). `docs/bed.md:171-175` promises the opposite. The missing guard is
  that the retirement found is released and, if an eviction holds it, that no creation can follow: the
  daemon is closed, the identity is forgotten, or its fence claims the directory. `LifecycleExact.GuardIsExact`
  shows that this is exactly what is missing, against the promises themselves: every unguarded drop loses an
  unreleased retirement or can be continued to removal of the directory under a live creation.
- **Users of Beds.** A cleanup attempt sees that no tree is left and gives up the Bed's Unix user in a later
  section (`internal/bed/manager/local_identity.go:255-269`). When the race above lets an eviction clean
  under a retried creation, the creation's own tree appears in between: the user is freed under a tree that
  it owns, the next Bed gets the same user (`BedsCanShareAUser`), and after a crash the daemon refuses to
  start (`DaemonCanBeStranded`; `internal/bed/privilege/bed_user_allocator.go:62-64`).
  `internal/bed/manager/local_identity.go:182` promises the opposite. `IdentityOverlap.GuardIsExact` shows
  that sharing, freeing and recovery all hold exactly when an attempt starts only on an unused identity, and
  `AttemptsFindNoUse` that the manager provides this in its guarded runs.
- **Late persists.** An eviction does not join a persist queued behind its own
  (`internal/bed/manager/eviction.go:76-94`; a purge does, `internal/bed/manager/purge.go:163-167`). Such
  a persist can save its old metadata into the directory of the Bed's successor (`GenerationCanFall`), or
  upload a snapshot newer than the metadata its successor then writes (`LateUploadReplacesNewerData`).
  Either way a later stage-in replaces newer local data with an older snapshot. `JoinIsExact` shows that
  the join is exactly what is missing: a step after which no guarded continuation loses data is a guarded
  one, and every guarded step is such a step.
- **Port zero.** `Reserve` counts its attempts by the spelling "0" and chooses from the pool by the value,
  so "00" can report exhaustion beside a free port (`internal/host/network/ports.go:52-55`), see
  `SpellingMatters`.
- **Wildcard IPv6 hosts.** A wildcard IPv6 host is meant to count as dual-stack
  (`internal/host/network/ports.go:129-131`), but only the text "::" does; another spelling of the same
  address does not overlap an IPv4 address, see `SpelledWildcardIsMissed`.
- **Replace with merge.** A merge compares its normalized targets with the replacement's targets as they
  are written, so a replacement in capitals keeps a second rule for a merged target
  (`internal/host/network/policy.go:145-165`), see `MergeIsUniqueExactly`. A removal beside a merge
  starts again from the current rules and discards the merged ones.

## Model

| member | source | states |
|---|---|---|
| `LifecycleExact.GuardIsExact` | internal/bed/manager/initialization.go:363-372 | a step from an invariant state keeps every retirement it must, and no guarded continuation removes a directory under a live creation, if and only if the step meets the missing guard |
| `LifecycleExact.UnguardedHarms` | internal/bed/manager/initialization.go:363-372 | every unguarded drop loses an unreleased retirement or can be continued, by guarded steps only, to removal of the directory under a live creation |
| `LifecycleExact.InvNeverDestroys` | internal/bed/manager/manager.go:477-503 | from an invariant state no guarded continuation removes a directory under a live creation |
| `LifecycleSafety.GuardMatchesInvariant` | internal/bed/manager/initialization.go:343-453 | a step from a sound state reaches a sound state and drops no retirement whose runtime is still held, if and only if it meets the missing guard |
| `LifecycleSafety.StepKeeps` | internal/bed/manager/initialization.go:225-453 | every other step of creations, evictions, retirements, purges, cleanups and luggage keeps the whole invariant |
| `LifecycleSafety.BeginKeeps` | internal/bed/manager/initialization.go:240-341 | an accepted creation owns its identity: nothing is cleaning it and its name is neither resident nor retiring |
| `LifecycleSafety.RunKeeps` | internal/bed/manager/initialization.go:343-453 | publication, failed preparation, rollback and completion of one creation, in any interleaving |
| `LifecycleSafety.HoldKeeps` | internal/bed/manager/eviction.go:14-95 | eviction, retirement and shutdown, which tears down without asking for residence, keep the invariant in any interleaving |
| `LifecycleSafety.PurgeKeeps` | internal/bed/manager/purge.go:67-185 | a purge that has claimed its name leaves no run that could publish it, and its target is the only retirement of the name |
| `LifecycleSafety.CleanKeeps` | internal/bed/manager/local_identity.go:183-281 | a cleanup attempt keeps the invariant when it starts on an identity that nobody uses |
| `LifecycleSafety.AttemptIsSafe` | internal/bed/manager/local_identity.go:183-231 | each caller of the identity cleanup reaches it only when its name has no resident Bed and no live creation |
| `LifecycleSafety.LuggageKeeps` | internal/bed/manager/luggage.go:176-191 | a luggage claim on a cold name keeps the invariant |
| `LifecycleSafety.UnguardedDropBreaks` | internal/bed/manager/initialization.go:363-372 | dropping a retirement that is unreleased, or that an eviction holds while a creation can follow, always leaves the invariant or a retirement broken |
| `LifecycleSafety.SweepKeeps` | internal/bed/manager/local_identity.go:285-293 | what a sweep selects is fenced and has no unfinished run |
| `LifecycleSafety.SweepsStayCold` | internal/bed/manager/local_identity.go:283-302 | in every guarded run what the sweep under way has selected stays fenced, not resident and without an unfinished run until it is settled |
| `LifecycleSafety.AttemptsFindNoUse` | internal/bed/manager/local_identity.go:183-215 | in every guarded run each cleanup attempt, whoever makes it, finds no resident Bed and no live creation of the name |
| `LifecycleSafety.StepRetains` | internal/bed/manager/manager.go:480-503 | a retirement leaves its map only after its runtime is released |
| `LifecycleSafety.OccupiedCountsNames` | internal/bed/manager/manager.go:404-412 | the occupied count is the number of names that hold a slot: no Bed is counted twice |
| `LifecycleSafety.StepSlot` | internal/bed/manager/initialization.go:354-416 | only an accepted creation takes a slot that its name did not hold before |
| `LifecycleSafety.StepWithinCapacity` | internal/bed/manager/initialization.go:302-313 | every step stays within the bed limit |
| `LifecycleSafety.GuardedTraceInv` | internal/bed/manager/manager.go:453-503 | the invariant holds in every state of every guarded run |
| `LifecycleSafety.CapacityHolds` | internal/bed/manager/manager.go:401-412 | with a bed limit, the occupied count of every guarded run stays within it |
| `LifecycleSafety.NamesStayApart` | internal/bed/manager/initialization.go:391-416 | in every guarded run a resident name is never retiring and never initializing; ResidentNameCanBeRetiring is the run without the guard |
| `LifecycleSafety.CleanupNeverOverlapsUse` | internal/bed/manager/manager.go:477-503 | while an identity is fenced for cleanup, its name has no resident Bed and no creation that could still publish |
| `LifecycleSafety.RetirementsOutliveTheirRuntime` | internal/bed/manager/manager.go:485-502 | in every guarded run a retirement stays until its runtime is released; UnreleasedRetirementCanBeDropped is the run without the guard |
| `LifecycleRaces.CleanupCanOverlapCreation` | internal/bed/manager/initialization.go:360-372 | for every name, an unguarded run in which the directory removal of an earlier Bed overlaps the creation that took its name |
| `LifecycleRaces.CapacityCanBeExceeded` | internal/bed/manager/manager.go:480-502 | for every two names, an unguarded run of a one-Bed daemon that reaches an occupied count of two |
| `LifecycleRaces.ResidentNameCanBeRetiring` | internal/bed/manager/initialization.go:360-372 | for every name, an unguarded run that makes it resident and retiring at once, with two allocations |
| `LifecycleRaces.UnreleasedRetirementCanBeDropped` | internal/bed/manager/initialization.go:368-372 | for every name, an unguarded run in which an old rollback drops the retirement of a later creation whose runtime is not released |
| `BedNames.Names.constructor` | internal/bed/manager/manager.go:103-118 | a new manager holds no name and meets the invariant and the limit |
| `BedNames.Names.OccupiedBeds` | internal/bed/manager/manager.go:404-412 | the counting loop gives the resident, the retiring and the initializing names that are not retiring |
| `BedNames.Names.LocalIdentity` | internal/bed/manager/local_identity.go:35-44 | the registered identity, or a new one with a fresh serial |
| `BedNames.Names.Prune` | internal/bed/manager/initialization.go:540-547 | of the entries exactly those go that are expired and read as failed, and the others are untouched |
| `BedNames.Names.Refusal` | internal/bed/manager/initialization.go:251-277 | after the prune a creation is refused exactly when its name is purging, resident, initializing or retiring |
| `BedNames.Names.Enter` | internal/bed/manager/initialization.go:315-336 | an accepted creation takes the name and keeps the invariant and the bed limit |
| `BedNames.Names.BeginInitialization` | internal/bed/manager/initialization.go:225-341 | acceptance is exactly the step's guard, whatever the prune drops; what each refusal has already dropped; the invariant and the bed limit are kept |
| `BedNames.Names.MakeResident` | internal/bed/manager/initialization.go:403-415 | publication keeps the invariant and the bed limit |
| `BedNames.Names.Publish` | internal/bed/manager/initialization.go:391-416 | publication succeeds exactly for the current initializing entry of an open daemon and a name without resident, and keeps the invariant and the bed limit |
| `BedNames.Names.RetireUnpublished` | internal/bed/manager/initialization.go:360-362 | a rollback's retirement takes no slot beyond the limit and keeps the invariant |
| `BedNames.Names.DropRolledBack` | internal/bed/manager/initialization.go:368-372 | the invariant survives and every retirement that must stay does, if and only if the missing guard holds before the drop |
| `BedNames.Names.FinishFailed` | internal/bed/manager/initialization.go:433-451 | its own entry goes and its identity reads as evicting if the name is retiring, it reads as failed and stays if nobody canceled, and it just goes otherwise; another creation's entry is left alone; invariant and bed limit are kept |
| `BedNames.Names.RetireEvicted` | internal/bed/manager/eviction.go:86-93 | the committed eviction keeps its slot as a retirement, and with it the invariant and the bed limit |
| `BedNames.Names.FinishRetirement` | internal/bed/manager/manager.go:497-501 | the end of a retirement keeps the invariant, also when the name has a newer retirement |
| `BedNames.Names.BeginPurge` | internal/bed/manager/purge.go:67-90 | one purge per name, and a fence on any name keeps the invariant |
| `BedNames.Names.ClaimPurge` | internal/bed/manager/purge.go:141-157 | the claim's target is the only retirement the name then has, by the invariant it keeps |
| `BedNames.Names.StartCleanup` | internal/bed/manager/local_identity.go:183-215 | an attempt starts exactly on a registered identity without a running attempt; then its name has no resident Bed and no live creation, and the invariant is kept |
| `BedNames.Names.BeginAttempt` | internal/bed/manager/local_identity.go:209-215 | the attempt keeps an earlier claim on the root and the invariant |
| `BedNames.Names.FinishCleanup` | internal/bed/manager/local_identity.go:217-226 | a failed attempt keeps its fence, another gives it up, a sweep settles what it attempted, and the invariant is kept |
| `BedNames.Names.Forget` | internal/bed/manager/local_identity.go:273-278 | giving up the identity keeps the invariant and the bed limit |
| `BedNames.Names.BeginSweep` | internal/bed/manager/local_identity.go:285-294 | a sweep that starts after the one before selects exactly the pending identities and keeps the invariant |
| `BedNames.Names.PendingCleanups` | internal/bed/manager/local_identity.go:285-293 | the selection holds exactly the fenced identities with a registered name not in use |
| `BedNames.Names.ClaimLuggage` | internal/bed/manager/luggage.go:176-190 | a luggage claim succeeds exactly on a cold name without a cleanup, keeps the invariant, and a refusal changes nothing |
| `BedNames.PruneIsInvisible` | internal/bed/manager/initialization.go:250-305 | no later test of the admission can tell whether the prune took place |
| `BedNames.PruneKeeps` | internal/bed/manager/initialization.go:540-547 | pruning failed entries keeps the invariant and the bed limit |
| `BedNames.DropIsExact` | internal/bed/manager/initialization.go:368-372 | a rollback's drop keeps invariant and retirements if and only if the guard holds, and then the bed limit |
| `BedNames.AttemptIsKept` | internal/bed/manager/local_identity.go:183-215 | the start of an attempt by any caller keeps the invariant and finds its name unused |
| `LifecycleOutcomes.MapsFollowHistory` | internal/bed/manager/initialization.go:343-453 | in every run, guarded or not, the resident, retirement and creation maps hold for each name what the sequence of publications, evictions, releases, drops and purges says |
| `LifecycleOutcomes.PhasesFollowHistory` | internal/bed/manager/initialization.go:335-447 | in every run an identity's phase is the one it was last given |
| `LifecycleOutcomes.EntriesOutliveOnlyFailures` | internal/bed/manager/initialization.go:433-451 | in every run the run of an entry is over if and only if it ended uncanceled with nothing retiring; a canceled creation leaves no entry |
| `LifecycleOutcomes.FailuresAreReportedExactly` | internal/bed/manager/initialization.go:440-447 | in every run an entry reads as failed if and only if its own run ended uncanceled and its identity was given no other phase since |
| `LifecycleHolders.RecordsFollowHistory` | internal/bed/manager/initialization.go:343-453 | in every run who holds an allocation's semaphore, whether its runtime is released and how far its creation has come are what its own steps say |
| `LifecycleHolders.FencesFollowHistory` | internal/bed/manager/local_identity.go:183-302 | in every run a name's identity and the fence on it are those of the last registration, attempt, end of an attempt or forgetting |
| `LifecycleAdmission.StepsAreAdmittedExactly` | internal/bed/manager/initialization.go:240-313 | in every run, guarded or not, each step of the manager is admitted if and only if the history of the run says so: creations by a cold and unfenced name, publication by the run's own initializing entry, holders by their semaphore, purges and cleanups by how far they have come |
| `LifecycleAdmission.RunsAreAdmittedExactly` | internal/bed/manager/initialization.go:343-453 | in particular a creation publishes if and only if it is prepared, the daemon open, the name's entry its own and still initializing, and nobody resident |
| `LifecycleAdmission.HoldsAreAdmittedExactly` | internal/bed/manager/eviction.go:14-95 | and exactly when an eviction fences and commits and when a retirement is taken up and dropped |
| `LifecycleAdmission.PurgesAreAdmittedExactly` | internal/bed/manager/purge.go:67-185 | exactly when each section of a purge runs, by what it has joined, claimed and released |
| `LifecycleAdmission.CleansAreAdmittedExactly` | internal/bed/manager/local_identity.go:183-281 | exactly when each caller may attempt a cleanup, and how an attempt may end |
| `LifecycleAdmission.PurgesFollowHistory` | internal/bed/manager/purge.go:67-185 | in every run how far a purge has come, the identity it found and the Bed it claimed are what the history says |
| `LifecycleAdmission.SweepsFollowHistory` | internal/bed/manager/local_identity.go:283-302 | in every run what a sweep has still to settle, and whose luggage is claimed, are what the history says |
| `LifecycleProgress.SlotsAreNames` | internal/bed/manager/initialization.go:302-313 | a cold name finds a slot if and only if the names that hold one, with it, are within the limit |
| `LifecycleProgress.CreationCanEnd` | internal/bed/manager/initialization.go:343-453 | from every state of an open daemon's guarded run the creation under way can end, by guarded steps |
| `LifecycleProgress.RetirementCanBeReleased` | internal/bed/manager/manager.go:477-503 | the name's retirement can be released and its semaphore given back |
| `LifecycleProgress.NamesCanAlwaysBeFreed` | internal/bed/manager/purge.go:67-185 | from every state of an open daemon's guarded run every name can be freed and its identity forgotten: no creation, eviction, retirement, cleanup or purge keeps it for good |
| `LifecycleProgress.FreeNamesCanBePublished` | internal/bed/manager/initialization.go:225-416 | a free name with a slot can be created and becomes resident |
| `ActivitySafety.WatermarkAfter` | internal/bed/manager/manager.go:558-623 | while the activity sequence is unchanged since the fence, every captured or committed watermark of the evicted Bed is its last activity |
| `ActivitySafety.QuietBedIsUnpinned` | internal/bed/manager/eviction.go:79-90 | at the eviction's commit an unchanged sequence forces the Bed to be unpinned, which is why the commit need not adjust the counter |
| `ActivitySafety.HoldsAfter` | internal/bed/manager/operation.go:97-133 | in-flight counts, in total and by kind, are exactly the operations begun and not finished |
| `ActivitySafety.ReplaceMoves` | internal/bed/manager/manager.go:377-387 | changing one Bed moves the number of pinned residents by what the counter is adjusted by |
| `ActivitySafety.OnKeeps` | internal/bed/manager/operation.go:45-139 | each section on one Bed keeps the counters exact |
| `ActivitySafety.CommitKeeps` | internal/bed/manager/eviction.go:79-92 | an eviction's commit keeps both counters exact without touching the pinned one |
| `ActivitySafety.ClaimKeeps` | internal/bed/manager/purge.go:141-157 | a purge's claim keeps both counters exact, whatever the Bed is doing |
| `ActivitySafety.PublishKeeps` | internal/bed/manager/initialization.go:406-414 | publication keeps both counters exact |
| `ActivitySafety.CountersStayExact` | internal/bed/manager/manager.go:377-391 | in every reachable state the resident and pinned counters equal the resident Beds and the pinned ones among them |
| `ActivitySafety.CommitLosesNothing` | internal/bed/manager/eviction.go:76-90 | an eviction commits only with nothing in flight and the last activity saved |
| `ActivitySafety.FenceRefuses` | internal/bed/manager/lifecycle_state.go:41-61 | from its fence until it ends, an eviction refuses renewals, operations and other evictions; `ActivityOutcomes.ResumeReopens` is the end of the refusal |
| `ActivityOutcomes.RecordFollowsHistory` | internal/bed/manager/operation.go:45-139 | in every run each field of a Bed's record is what its history says: outstanding operations, last activity, what was saved, the persist and the eviction under way; and a Bed without eviction is closed only by a phase change after its last publication or resumption |
| `ActivityOutcomes.OperationsBeginExactly` | internal/bed/manager/operation.go:65-107 | in every run an operation begins if and only if an open daemon has the Bed, no eviction has it or is reopening it, nothing disturbed its phase since, its processes are ready or it is a control operation, and waking it is admitted |
| `ActivityOutcomes.OperationsFinishExactly` | internal/bed/manager/operation.go:109-137 | in every run an operation finishes if and only if it was begun and has not finished, wherever the Bed is by then |
| `ActivityOutcomes.IdleBedsCanBeEvicted` | internal/bed/manager/eviction.go:24-90 | from every reachable state of an open daemon a Bed that takes work and has none can be evicted, with its last activity saved |
| `ActivityOutcomes.SessionsOpenExactly` | internal/bed/manager/session.go:68-111 | exactly when a session opens: without main processes also under an eviction |
| `ActivityOutcomes.RenewalsAreTakenExactly` | internal/bed/manager/renew.go:15-48 | exactly when a renewal is taken, by the run's history and the requested time |
| `ActivityOutcomes.EvictionsStartExactly` | internal/bed/manager/lifecycle_state.go:44-60 | in every run an explicit eviction starts if and only if the Bed takes work and has none |
| `ActivityOutcomes.EvictionsCommitExactly` | internal/bed/manager/eviction.go:76-92 | in every run an eviction commits if and only if its own persist succeeded and nothing has been active since its fence, on an open daemon that still has the Bed |
| `ActivityOutcomes.ResumeReopens` | internal/bed/manager/eviction.go:38-58 | in every run, once an eviction has reopened its Bed, an open daemon that still has it takes operations, renewals and evictions again |
| `ActivityOutcomes.EvictionsCanGiveUp` | internal/bed/manager/eviction.go:38-78 | from every reachable state of an open daemon an eviction can give up, whatever its persist does, and the Bed takes work again |
| `ActivitySafety.KeepaliveIsLatestBase` | internal/bed/manager/lifecycle_state.go:19-28 | the retention clock equals the latest base in the Bed's whole history: its activity, its operations' clamped timeouts and its renewals' requests less the TTL |
| `ActivitySafety.RetentionNeverRegresses` | internal/bed/manager/lifecycle_state.go:9-39 | no step moves a retention deadline backwards, whatever the phase does |
| `ActivitySafety.PromisesAreRetained` | internal/bed/manager/renew.go:15-48 | every deadline promised lies within the current one: the requested time or now plus the TTL of a renewal, and the activity or clamped timeout of an operation plus the TTL |
| `ActivitySafety.CollectionKeepsPromises` | internal/bed/manager/manager.go:505-527 | no idle collection with a cutoff before a promised deadline starts an eviction |
| `ActivitySafety.CollectionStartsExactlyWhenIdle` | internal/bed/manager/lifecycle_state.go:44-60 | idle collection starts an eviction if and only if the Bed is idle, fenced by nobody and a full TTL past its latest base |
| `BedManager.Manager.constructor` | internal/bed/manager/manager.go:103-118 | a new manager is valid, with both counters zero |
| `BedManager.Manager.AdjustPinned` | internal/bed/manager/manager.go:379-387 | the counter moves by the change of the Bed's pinned state |
| `BedManager.Manager.Keepalive` | internal/bed/manager/lifecycle_state.go:22-28 | the retention clock becomes the later of itself and the base |
| `BedManager.Manager.PublishBed` | internal/bed/manager/initialization.go:391-416 | a Bed becomes resident exactly on an open daemon without a resident of that name |
| `BedManager.Manager.StartOn` | internal/bed/manager/operation.go:65-103 | an admitted operation's clamped timeout, activity, counts and retention on the record |
| `BedManager.Manager.EndOn` | internal/bed/manager/operation.go:109-130 | the end of an operation on the record; a checkpoint leaves its activity alone |
| `BedManager.Manager.BeginOperation` | internal/bed/manager/operation.go:65-107 | admission is exactly the step's guard; success takes that step and refusal changes nothing |
| `BedManager.Manager.FinishOperation` | internal/bed/manager/operation.go:109-137 | the closure takes the finish step, also after the Bed has left the residents |
| `BedManager.Manager.TouchLocked` | internal/bed/manager/bed.go:208-213 | activity, sequence and retention move together |
| `BedManager.Manager.TouchBed` | internal/bed/manager/operation.go:48-59 | a touch counts only while the Bed is resident |
| `BedManager.Manager.OpenSession` | internal/bed/manager/session.go:68-111 | admission of a session, which looks at the phase only with main processes |
| `BedManager.Manager.BeginPersist` | internal/bed/manager/manager.go:544-556 | a persist enters unless the Bed is being purged |
| `BedManager.Manager.CaptureWatermark` | internal/bed/manager/manager.go:576-579 | the watermark is the last activity at capture |
| `BedManager.Manager.CommitWatermark` | internal/bed/manager/manager.go:608-624 | the watermark is committed and the counter adjusted only for a resident Bed |
| `BedManager.Manager.BeginEviction` | internal/bed/manager/eviction.go:24-34 | the fence is exactly the step's guard and records the activity sequence |
| `BedManager.Manager.CommitEviction` | internal/bed/manager/eviction.go:79-92 | the commit is exactly its guard and leaves the pinned counter unchanged and exact |
| `BedManager.Manager.ClaimForPurge` | internal/bed/manager/purge.go:141-157 | after a claim the name is not resident and the counters are exact |
| `BedManager.Manager.RenewExpiration` | internal/bed/manager/renew.go:15-48 | a renewal's deadline is the later of the previous one and the requested time, or now plus the TTL without a request; zero without idle expiration; a refusal changes nothing |
| `BedManager.Manager.GiveUpEviction` | internal/bed/manager/eviction.go:38-44 | an eviction that gives up goes on to reopen exactly a Bed that an open daemon still has, and changes nothing else |
| `BedManager.Manager.ResumeEviction` | internal/bed/manager/eviction.go:56 | the phase is resident again, the eviction over, nothing else changed, and operations are admitted |
| `BedManager.Manager.ExpiredBeds` | internal/bed/manager/manager.go:510-519 | the scan finds every resident Bed past its deadline, each once |
| `LatePersists.JoinIsExact` | internal/bed/manager/eviction.go:76-94 | after a step from an invariant state, every guarded continuation keeps local metadata level with the store, and none loses newer local data, if and only if a persist belongs to the directory's owner and a retirement waits for it |
| `LatePersists.UnguardedHarms` | internal/bed/manager/eviction.go:76-94 | every unguarded step has guarded continuations to a state behind the store and to a stage-in that loses newer data |
| `LatePersists.InvStaysSafe` | internal/bed/manager/manager.go:558-630 | from an invariant state no guarded continuation is ever behind the store or loses newer data |
| `Persistence.StepKeeps` | internal/bed/manager/purge.go:163-180 | every guarded step, a purge that stops between the snapshot and the local copy included, keeps the invariant |
| `Persistence.LocalCoversUploads` | internal/bed/manager/manager.go:558-630 | in every guarded run with crashes, failed and unreported uploads, local metadata covers every uploaded generation |
| `Persistence.StageInLosesNothing` | internal/bed/store/stage.go:80-96 | stage-in keeps a local copy whenever there is one and otherwise restores the latest upload |
| `Persistence.StoreNeverRefuses` | internal/bed/store/sync/tar.go:78-92 | the store's newer-snapshot test never turns the carrier's own persist away |
| `Persistence.LocalDataNeverRegresses` | internal/bed/manager/manager.go:558-630 | no step but the Bed's writers or a removal changes local data, and its generation never falls |
| `LatePersists.LatePersistIsExact` | internal/bed/manager/manager.go:588-627 | for each single step from a safe state, exactly when it breaks the generation order |
| `LatePersists.StoreCanRefuse` | internal/bed/store/sync/tar.go:78-92 | a run in which the store turns away a late persist of a generation that it already has |
| `LatePersists.GenerationCanFall` | internal/bed/manager/manager.go:625-627 | a run in which a retired Bed's queued persist lowers its successor's generation below an uploaded one |
| `LatePersists.NewerDataCanBeReplaced` | internal/bed/manager/eviction.go:76-94 | that run continues to a stage-in that replaces newer local data with an older snapshot |
| `LatePersists.LateUploadReplacesNewerData` | internal/bed/manager/manager.go:588-607 | a run with the same loss from a late upload alone, between a successor's stage-in and its first metadata |
| `PersistenceOutcomes.CopiesFollowHistory` | internal/bed/manager/manager.go:558-630 | in every guarded run, through crashes and failed uploads, directory and store hold exactly the data and the generation of the last write, restoration, persist and upload, and the directory belongs to the last Bed accepted |
| `PersistenceOutcomes.EvictedDataComesBack` | internal/bed/store/stage.go:68-121 | from every state of a guarded run a ready Bed can be persisted and evicted, and the next Bed of the name then finds exactly its data |
| `PersistenceOutcomes.BedsCanBePurged` | internal/bed/manager/purge.go:141-185 | from every state of a guarded run a ready Bed can be purged, which leaves neither directory nor snapshot |
| `PersistenceOutcomes.NextBedRestores` | internal/bed/store/stage.go:80-96 | a free directory can be taken by a new Bed, which finds it as it was left, or else the last upload, or else nothing |
| `PersistenceOutcomes.OwnersCanLeave` | internal/bed/manager/eviction.go:76-94 | from every state of a guarded run whoever has the directory can give it up without a crash |
| `StageIn.PublishStagedBed` | internal/bed/store/stage.go:124-153 | after every primitive the Bed directory is whole or absent and the previous tree is whole until the new one is published |
| `StageIn.StageInBedFS` | internal/bed/store/stage.go:68-121 | source selection, and the same survival of a usable tree through every failure and interruption |
| `Policy.ValidNameChars` | internal/host/network/policy.go:79-93 | a valid name holds only label characters and inner dots |
| `Policy.LabelsMakeNames` | internal/host/network/policy.go:79-92 | a name is a label, a dot and a valid name, of at most 253 letters, and nothing else with a dot is one |
| `Policy.OneLabelIsName` | internal/host/network/policy.go:83-91 | without a dot a name is valid exactly if it has 1 to 63 of the letters a-z, the digits and the hyphen, and no hyphen at either end |
| `Policy.SpellingsAgree` | internal/host/network/policy.go:71-94 | neither the case of a target, nor outer spaces, nor a closing dot changes its normal form |
| `Policy.PrefixHoldsItsInterval` | internal/host/network/policy.go:122-129 | a prefix holds its first and its last address and what lies between, in its own family only |
| `Policy.ValidateName` | internal/host/network/policy.go:79-92 | the label loop accepts exactly the names that satisfy the declarative label and length limits |
| `Policy.NormalizeTarget` | internal/host/network/policy.go:71-94 | the code's target normalization is the specified one, rejections included |
| `Policy.NormalizeIsIdempotent` | internal/host/network/policy.go:71-94 | normalizing an accepted target again changes nothing |
| `Policy.NormalizedIsNormal` | internal/host/network/policy.go:44-70 | an accepted policy is in normal form, and a normal form is left alone |
| `Policy.NormalizePolicy` | internal/host/network/policy.go:44-70 | the loop keeps the rules in order with their actions, each target in its normal form, and rejects exactly an unknown action or target; a missing default is allow without rules and deny with them |
| `PolicyMutation.MergeForm` | internal/host/network/policy.go:149-165 | a merge keeps the other rules in order, then gives each merged target its last rule |
| `PolicyMutation.OneRulePerMergedTarget` | internal/host/network/policy.go:149-165 | each merged target has exactly one rule, the last one given |
| `PolicyMutation.MergeIntoInstalled` | internal/host/network/policy.go:144-183 | the whole result of merging into the installed policy |
| `PolicyMutation.MergeIsUniqueExactly` | internal/host/network/policy.go:145-165 | with a replacement beside the merge, one rule per merged target if and only if no replaced rule collides only after normalization |
| `PolicyMutation.ReplacementCanEscape` | internal/host/network/policy.go:145-165 | a replacement in capitals that keeps a second rule for the merged target |
| `PolicyMutation.MergeRule` | internal/host/network/policy.go:157-163 | the in-place filter leaves the other rules in order followed by the merged one |
| `PolicyMutation.MergeRules` | internal/host/network/policy.go:149-165 | the merge loop works on a private copy and equals the specified merge |
| `PolicyMutation.RemovalKeepsTheOthers` | internal/host/network/policy.go:166-181 | after a removal exactly the current rules are left, in order, that no removed target spells |
| `PolicyMutation.RemoveRules` | internal/host/network/policy.go:166-181 | removal keeps exactly the current rules whose targets are not removed |
| `PolicyMutation.ApplyMutation` | internal/host/network/policy.go:144-183 | replacement, merge and removal together, reading the current rules and never writing them |
| `PolicyChain.PrefixRulesDecide` | internal/host/network/policy_linux.go:26-42 | the prefix rules of one action decide exactly the packets they cover |
| `PolicyChain.ChainMeansPolicy` | internal/host/network/policy_linux.go:19-49 | first-match evaluation of the rendered chain is the declared verdict, for every policy and packet |
| `PolicyChain.VerdictIgnoresOrder` | internal/host/network/policy_linux.go:19-49 | the verdict does not depend on the order or repetition of rules |
| `PolicyChain.RenderPolicy` | internal/host/network/policy_linux.go:19-49 | the nested loops render exactly that chain |
| `PolicyDns.DomainAction` | internal/host/network/policy.go:102-121 | any matching deny beats any matching allow beats the default; `PolicyNames.VerdictIsByTargets` says what matches |
| `PolicyNames.WildcardMatchesUnder` | internal/host/network/policy.go:114-120 | a wildcard rule matches exactly the names that end in a dot and its domain, and not the domain itself |
| `PolicyNames.PlainMatchesItself` | internal/host/network/policy.go:114-120 | any other rule matches exactly its own target |
| `PolicyNames.VerdictIsByTargets` | internal/host/network/policy.go:102-121 | the verdict on every name, by what the targets stand for: a deny rule for it wins, then an allow rule, then the default |
| `PolicyNames.SpellingsGetOneVerdict` | internal/host/network/policy.go:102-121 | neither the case of a name nor its closing dot changes the verdict |
| `PolicyLearning.ExpiryIsByLastRecord` | internal/host/network/policy_dns.go:90-99 | an address of a reply expires by its last record, whose TTL counts as 1 to 300 seconds |
| `PolicyLearning.CandidateKeeps` | internal/host/network/policy_dns.go:86-99 | a reply keeps exactly the entries that have not expired, as they were, beside its own |
| `PolicyLearning.LearnedIsTaught` | internal/host/network/policy_dns.go:50-112 | in every run what is remembered, and until when, is exactly what the confirmed replies since the last update taught |
| `PolicyLearning.TaughtAddressesStay` | internal/host/network/policy_dns.go:86-111 | in every run an address stays, with its expiry, until it has expired at a later reply, a reply has it again or the policy is replaced |
| `PolicyLearning.KernelFollowsReplies` | internal/host/network/policy_dns.go:100-111 | after a confirmed reply the kernel's set is what is remembered, the reply's addresses included |
| `PolicyLearning.ControlFollowsHistory` | internal/host/network/policy.go:185-203 | in every run policy, revision, open queries and closing are what the history says |
| `PolicyLearning.QueriesCanBeAnswered` | internal/host/network/policy_dns.go:24-113 | from every reachable state an allowed name can be asked and its undenied addresses let through, while there is room |
| `PolicyLearning.PoliciesCanBeInstalled` | internal/host/network/policy.go:185-203 | from every reachable state of an open control any policy can be installed, with nothing learned |
| `PolicyDns.DeniesAddress` | internal/host/network/policy.go:122-129 | true exactly when a deny rule covers the address |
| `PolicyDns.CandidateIsLegitimate` | internal/host/network/policy_dns.go:55-99 | everything a passing reply would publish is allowed by name and denied by no prefix |
| `PolicyDns.StepKeeps` | internal/host/network/policy_dns.go:24-113 | asking, answering, updating, expiring and closing keep the learned set legitimate and bounded |
| `PolicyDns.KernelSetIsCurrent` | internal/host/network/policy_dns.go:50-112 | in every interleaving each address in the kernel's set came in a passing reply to a query asked and answered under the current revision; its name is allowed, no rule denies it, and there are at most 4096 |
| `PolicyDns.EveryAddressWasTaught` | internal/host/network/policy_dns.go:86-111 | everything learned or published was in such a reply earlier in the run |
| `PolicyControl.Control.constructor` | internal/host/network/policy.go:131-141 | a new control allows everything and has learned nothing |
| `PolicyControl.Control.Update` | internal/host/network/policy.go:185-203 | an update succeeds exactly when the mutation is accepted and applied; otherwise policy, revision and learned addresses are unchanged |
| `PolicyControl.Control.Install` | internal/host/network/policy.go:200-202 | the accepted policy becomes current under the next revision with nothing learned |
| `PolicyControl.Control.Ask` | internal/host/network/policy_dns.go:32-38 | a name may be asked exactly when the open control allows it |
| `PolicyControl.Control.Judge` | internal/host/network/policy_dns.go:55-79 | a reply is refused exactly for an explicitly denied alias or a denied address |
| `PolicyControl.Control.Gather` | internal/host/network/policy_dns.go:90-99 | exactly the unexpired entries stay as they were and each address of the reply expires by its last record |
| `PolicyControl.Control.Teach` | internal/host/network/policy_dns.go:86-111 | addresses are remembered only after the kernel accepted them and never beyond the limit; then exactly the unexpired entries stay and the reply's expire by their last record, otherwise nothing changes |
| `PolicyControl.Control.Finish` | internal/host/network/policy_dns.go:50-112 | a reply with a denied address or alias is refused and changes nothing; a forwarded one has all its addresses learned, each until its last record expires, and keeps the other unexpired ones |
| `CpuWindow.CurveIsBounded` | internal/bed/resource/cpu_window.go:41-49 | the usage curve lies between the first and the last sample |
| `CpuWindow.PruningKeepsCurve` | internal/bed/resource/cpu_window.go:34-37 | dropping samples before the cutoff does not change the curve from the cutoff on |
| `CpuWindow.UsageIsNonNegative` | internal/bed/resource/cpu_window.go:50-51 | the reported usage is not negative |
| `CpuWindow.CurveIsStraight` | internal/bed/resource/cpu_window.go:41-49 | between two neighbouring samples the usage curve is the straight line through both |
| `CpuWindow.ReportIsLastTenSeconds` | internal/bed/resource/cpu_window.go:41-52 | the report is the CPU time of the last ten seconds, or of what there is, as a percentage of what the limit allows in that time |
| `CpuWindow.Window.Add` | internal/bed/resource/cpu_window.go:20-52 | a pruned window reports what the full history since the last reset gives, and nothing for a single sample; a reset is less CPU time, no later instant or another limit, and a limit that is not positive clears the window |
| `CpuWindow.Window.Restart` | internal/bed/resource/cpu_window.go:25-31 | a decreasing counter, a time that does not advance or a new limit starts a new history |
| `CpuWindow.Window.Observe` | internal/bed/resource/cpu_window.go:32-37 | the history grows by the sample and stays strictly ordered |
| `CpuWindow.Window.Prune` | internal/bed/resource/cpu_window.go:34-37 | the window keeps a suffix that reaches back to the cutoff |
| `CpuWindow.Window.Report` | internal/bed/resource/cpu_window.go:41-51 | interpolating the boundary interval equals the full-history computation |
| `ExecutionOutput.CutIsLeast` | internal/bed/manager/execution.go:226-232 | the retained suffix is the longest that fits both budgets |
| `ExecutionOutput.CutAfterAppend` | internal/bed/manager/execution.go:213-234 | an append may resume eviction where the last one stopped |
| `ExecutionOutput.Output.constructor` | internal/bed/manager/execution.go:162-175 | a new execution has no output |
| `ExecutionOutput.Output.AppendOutput` | internal/bed/manager/execution.go:213-234 | the fragment joins the history under the next sequence number and the window is again the longest suffix within 65536 bytes and 1024 fragments |
| `ExecutionOutput.Output.Retain` | internal/bed/manager/execution.go:216-225 | the fragment is clipped to the byte budget and counted |
| `ExecutionOutput.Output.Evict` | internal/bed/manager/execution.go:226-232 | eviction stops at the first suffix that fits |
| `ExecutionOutput.Output.Poll` | internal/bed/manager/execution.go:380-397 | a poll returns everything retained after the cursor and whether history is incomplete |
| `ExecutionOutput.Output.ReleaseOutput` | internal/bed/manager/execution.go:644-651 | a release empties the window and keeps the numbering |
| `ExecutionOutput.PollingSeesEverything` | internal/bed/manager/execution.go:380-397 | a polling client sees fragments in order and once, and every fragment verbatim unless some poll reported truncation |
| `ExecutionOutput.SmallOutputIsSeenWhole` | internal/bed/manager/execution.go:213-234 | while all output is within 65536 bytes and 1024 fragments and none is released, no poll reports truncation and the client has every fragment it polled for |
| `ExecutionOutput.WindowIsLongest` | internal/bed/manager/execution.go:226-232 | the window keeps to 65536 bytes and 1024 fragments, and with one fragment more it would not |
| `ExecutionOutput.PollIsVerbatimExactly` | internal/bed/manager/execution.go:380-397 | at any cursor a poll returns the rest of the history verbatim if and only if the rest is neither dropped nor clipped, or there is none |
| `ExecutionOutput.TruncationIsExact` | internal/bed/manager/execution.go:387-391 | at any cursor, truncation is reported if and only if the history from its start is not intact; without the report the poll is verbatim |
| `ExecutionStop.OwnCause` | internal/bed/manager/execution.go:249-261 | which cause an end that nobody requested gets |
| `ExecutionStop.AtMostOneWins` | internal/bed/manager/execution.go:185-198 | of any number of stop requests at most one wins and only its stop action is issued |
| `ExecutionStop.WinnersCauseIsPublished` | internal/bed/manager/execution.go:240-286 | the published cause is the winner's, and its stop action has completed by then |
| `ExecutionStop.CompletionFirstRefusesStops` | internal/bed/manager/execution.go:203-211 | once completion has claimed first, every stop request is refused and nothing is killed |
| `ExecutionStop.NaturalEndExactly` | internal/bed/manager/execution.go:240-286 | the process's own cause is published, with nothing killed, if and only if completion claimed first; otherwise the one winner's cause is |
| `ExecutionStop.StopsWinExactly` | internal/bed/manager/execution.go:185-198 | in every run a new stop request wins if and only if no stop action was issued before and completion has not claimed first |
| `ExecutionStop.ResultCanBePublished` | internal/bed/manager/execution.go:203-286 | from every reachable state a result can be published: no stop request can hold completion up for good |
| `ExecutionStop.Execution.RecordStop` | internal/bed/manager/execution.go:185-192 | a winner is the first and only requester whose stop action is issued, and a loser met a result, a claim or an earlier winner; the invariant is kept |
| `ExecutionStop.Execution.CloseStop` | internal/bed/manager/execution.go:193-197 | the only winner closes stopDone, which was open until then, before any result; the invariant is kept |
| `ExecutionStop.Execution.ClaimFinish` | internal/bed/manager/execution.go:203-211 | completion claims the execution exactly when no stop was ever issued and otherwise waits for the winner's cause; the invariant is kept |
| `ExecutionStop.Execution.PublishResult` | internal/bed/manager/execution.go:249-286 | the first and only result is the winner's cause after its stop action, or else the process's own; the invariant is kept |
| `Ports.OverlapMeansSharedAddress` | internal/host/network/ports.go:128-139 | two hosts overlap if and only if some address belongs to both, with only the texts "" and "::" dual-stack |
| `Ports.SpelledWildcardIsMissed` | internal/host/network/ports.go:128-139 | the test never reports a false overlap, and misses a clash of dual-stack wildcards if and only if one host is a spelled-out IPv6 wildcard and the other an IPv4 literal |
| `Ports.LapCovers` | internal/host/network/ports.go:102-110 | the wrapping cursor reaches every port of the range within one lap |
| `Ports.ScanFinds` | internal/host/network/ports.go:102-126 | what the inner loop passes over and finds |
| `Ports.SearchPasses` | internal/host/network/ports.go:56-78 | a search that gives up has passed over one unusable port per attempt |
| `Ports.SearchFinds` | internal/host/network/ports.go:56-79 | any other outcome has found a port of the pool that nobody reserved |
| `Ports.ExhaustionIsExact` | internal/host/network/ports.go:49-79 | with an attempt per port, exhaustion is reported if and only if no port of the pool is usable |
| `Ports.SpellingMatters` | internal/host/network/ports.go:52-55 | with a zero not spelled "0", exhaustion beside a usable port if and only if the first unreserved port is busy |
| `Ports.OddSpellingMissesAFreePort` | internal/host/network/ports.go:52-55 | two ports, the first busy, and a request that finds none |
| `PortManager.ConflictIsSharing` | internal/host/network/ports.go:111-139 | two allocations conflict, which live ones never do, if and only if some address and port of a scope belongs to both |
| `PortManager.RefusalIsExact` | internal/host/network/ports.go:49-126 | exhaustion if and only if every port that may be given out conflicts or is bound by somebody else |
| `PortManager.Manager.constructor` | internal/host/network/ports.go:40-45 | a manager for a valid range starts without allocations |
| `PortManager.Manager.IsTaken` | internal/host/network/ports.go:111-117 | a port is taken exactly when a live allocation of that scope with an overlapping host has it |
| `PortManager.Manager.Choose` | internal/host/network/ports.go:98-126 | the inner loop gives the scan's result and leaves the cursor there |
| `PortManager.Manager.Record` | internal/host/network/ports.go:121-123 | a new allocation conflicts with no live one |
| `PortManager.Manager.Find` | internal/host/network/ports.go:52-79 | the attempts give the search's result |
| `PortManager.Manager.Reserve` | internal/host/network/ports.go:49-79 | live allocations stay pairwise without conflict; a request is invalid exactly without owner, literal host or port from 0 to 65535; outcome and cursor are those of the search; a refusal changes no allocation |
| `PortManager.Manager.Listen` | internal/host/network/ports.go:142-176 | the same for a listener, with failed binds costing attempts only from the pool |
| `PortManager.Manager.Release` | internal/host/network/ports.go:201-215 | the allocation is gone and the others are untouched, unless its listener cannot be closed: then nothing changes |
| `PortManager.Manager.Close` | internal/host/network/ports.go:225-237 | no allocation survives, whether or not its listener can be closed |
| `BedUsers.ProbeReaches` | internal/bed/privilege/bed_user_allocator.go:86-100 | probing from any hash slot reaches every user of the range |
| `BedUsers.UsersAreDistinct` | internal/bed/privilege/bed_user_allocator.go:23-33 | two Beds never share a user |
| `BedUsers.Allocator.PerBed` | internal/bed/privilege/bed_user_allocator.go:39-47 | a per-Bed allocator starts with both maps empty and inverse |
| `BedUsers.Allocator.Fixed` | internal/bed/privilege/bed_user_allocator.go:35-37 | a fixed allocator has one user |
| `BedUsers.Allocator.Assign` | internal/bed/privilege/bed_user_allocator.go:97-98 | both maps grow together and stay inverse |
| `BedUsers.Allocator.Reserve` | internal/bed/privilege/bed_user_allocator.go:49-72 | a reservation fails exactly when it disagrees with an owned user, and users outside the range are left alone |
| `BedUsers.Allocator.Acquire` | internal/bed/privilege/bed_user_allocator.go:74-102 | a Bed keeps its user; otherwise it gets an unowned one and is refused if and only if the whole range is owned |
| `BedUsers.Allocator.Release` | internal/bed/privilege/bed_user_allocator.go:106-116 | a Bed's user and nothing else is freed |
| `BedUsers.Manager.constructor` | internal/bed/privilege/manager.go:24-34 | a new manager holds no user |
| `BedUsers.Manager.Recover` | internal/bed/privilege/manager.go:52-62 | on success every existing tree's owner in the range is reserved for the Bed |
| `BedUsers.Manager.Prepare` | internal/bed/privilege/manager.go:63-83 | a recovered Bed keeps its user; refusal means that the whole range is owned |
| `BedUsers.Manager.Forget` | internal/bed/privilege/manager.go:89-106 | the Bed's user is freed, no other, and a second time nothing |
| `IdentityOutcomes.UsersFollowHistory` | internal/bed/manager/local_identity.go:183-281 | in every run the user a creation works under is the one it was given when it asked |
| `IdentityOutcomes.TreesFollowHistory` | internal/bed/manager/local_identity.go:183-281 | in every run, through crashes, each tree has the owner that staging, handing over, claiming and stripping give it |
| `IdentityOutcomes.IdentitiesFollowHistory` | internal/bed/manager/local_identity.go:35-119 | in every run, through crashes and recoveries, the records on disk and the registered identities are what the history says |
| `IdentityOutcomes.RecordsCanBeSaved` | internal/bed/manager/initialization.go:345-347 | a creation can put down its identity at any time |
| `IdentityOutcomes.AttemptsCanForget` | internal/bed/manager/local_identity.go:217-281 | from every state an attempt under way can forget its identity, which leaves no tree, user, record or fence of it |
| `IdentityOutcomes.TreesCanBeKept` | internal/bed/manager/local_identity.go:183-231 | an attempt that need not remove the tree can leave it as it was, and the name can be used again |
| `IdentityOutcomes.RecoveryCanTidy` | internal/bed/manager/local_identity.go:46-119 | while the daemon is down recovery can give a tree a record or drop a record without a tree, and changes no tree |
| `IdentityRecovery.RecoveryIsExact` | internal/bed/privilege/bed_user_allocator.go:49-72 | in whatever order recovery meets the names, its reservations go through if and only if no user owns trees of two names and no name has trees of two users |
| `IdentityRecovery.StartsExactlyWhenOrderly` | internal/bed/manager/local_identity.go:46-119 | after any run, guarded or not, the daemon starts again if and only if the disk is in that order |
| `IdentitySafety.StepRuns` | internal/bed/manager/local_identity.go:183-281 | each guarded step keeps every tree with a registered identity that holds its owner, and every claimed tree fenced |
| `IdentitySafety.RestartRuns` | internal/bed/manager/local_identity.go:46-119 | recovery from such a disk restores that |
| `IdentitySafety.StepKeeps` | internal/bed/manager/local_identity.go:46-281 | guarded steps, crashes and interrupted recoveries keep the whole invariant |
| `IdentitySafety.TreesNeverShareAUser` | internal/bed/manager/local_identity.go:179-281 | in every guarded run, through failed deletions, crashes and restarts, two trees of one user belong to one name |
| `IdentitySafety.IdentitiesNeverShareAUser` | internal/bed/manager/local_identity.go:35-44 | in every guarded run users are held by registered identities, each by one |
| `IdentitySafety.FreedOnlyWhenGone` | internal/bed/manager/local_identity.go:255-269 | in every guarded run a user is given up only when its Bed has no tree and the user owns none |
| `IdentitySafety.OnlyFreeTakesUsers` | internal/bed/manager/local_identity.go:266-267 | while the daemon runs an identity loses its user in that section and in no other |
| `IdentitySafety.RecoverySucceeds` | internal/bed/manager/local_identity.go:46-119 | after every crash of a guarded run recovery goes through, in every order |
| `IdentitySafety.RecoveryNeverConflicts` | internal/bed/privilege/bed_user_allocator.go:49-72 | in guarded runs the conflicts that recovery tests for do not occur |
| `IdentityOverlap.GuardIsExact` | internal/bed/manager/local_identity.go:183-281 | after a step from an invariant state no guarded continuation shares a user, strands the daemon or frees a user under a tree, each if and only if an attempt starts only on an unused identity |
| `IdentityOverlap.OverlapHarms` | internal/bed/manager/local_identity.go:255-269 | every attempt that starts under a creation has guarded continuations to all three, whatever users are held |
| `IdentityOverlap.BedsCanShareAUser` | internal/bed/manager/local_identity.go:255-281 | for every two names, a run in which an eviction forgets an identity under its retried creation and the next Bed gets the same user |
| `IdentityOverlap.DaemonCanBeStranded` | internal/bed/privilege/bed_user_allocator.go:62-64 | that run continues to a crash after which the daemon refuses to start, for every order of recovery |
| `McpPoolSafety.HoldersCount` | pkg/mcpproxy/proxy.go:195-237 | each step changes a connection's outstanding calls as it changes its references |
| `McpPoolSafety.PoolAfter` | pkg/mcpproxy/proxy.go:195-226 | the pool stays within its limit with one key per connection |
| `McpPoolSafety.HeldStaysInPool` | pkg/mcpproxy/proxy.go:255-278 | a referenced connection stays in an open pool through evictions and sweeps |
| `McpPoolSafety.WatchAfter` | pkg/mcpproxy/proxy.go:126-193 | a call stops watching a connection only with its client closed or in the pool |
| `McpPoolSafety.KeptAfter` | pkg/mcpproxy/proxy.go:228-299 | an open client always has somebody who will close it |
| `McpPoolSafety.StepKeeps` | pkg/mcpproxy/proxy.go:126-299 | every step of calls, reaper and Close keeps the invariant |
| `McpPoolSafety.PoolIsBounded` | pkg/mcpproxy/proxy.go:207-222 | the pool never exceeds its limit |
| `McpPoolSafety.RefsAreCalls` | pkg/mcpproxy/proxy.go:201-205 | references equal outstanding calls |
| `McpPoolSafety.OnlyUnreferencedLeave` | pkg/mcpproxy/proxy.go:206-220 | until Close, only connections without outstanding calls leave the pool |
| `McpPoolOutcomes.PoolFollowsHistory` | pkg/mcpproxy/proxy.go:195-299 | in every run each key's connection, its client and its last use are those of the last connection, return, displacement, sweep or draining |
| `McpPoolOutcomes.DisplacedRestedLongest` | pkg/mcpproxy/proxy.go:206-220 | in every run what a full pool displaces is held by no call, and no other such connection was given back earlier |
| `McpPoolOutcomes.ClientsCanBeReplaced` | pkg/mcpproxy/proxy.go:126-193 | a call that finds its client broken can close it and open another on the same connection |
| `McpPoolOutcomes.CallsCanReturn` | pkg/mcpproxy/proxy.go:126-237 | from every reachable state every call can return |
| `McpPoolOutcomes.PoolCanAlwaysShut` | pkg/mcpproxy/proxy.go:280-299 | from every reachable state all calls can return and Close can finish, and then no client is open |
| `McpPoolOutcomes.CallsCanBeServed` | pkg/mcpproxy/proxy.go:195-226 | an open pool with room serves a call of a new key: it pools a new open client behind that call's gate |
| `McpPoolSafety.NothingStaysOpen` | pkg/mcpproxy/proxy.go:280-299 | once Close and every call have returned, no client is open |
| `McpProxy.Proxy.constructor` | pkg/mcpproxy/proxy.go:53-71 | limits take their defaults and the pool is empty |
| `McpProxy.Proxy.Oldest` | pkg/mcpproxy/proxy.go:207-218 | the victim is the least recently used unreferenced connection, and there is none exactly when all are referenced |
| `McpProxy.Proxy.Acquire` | pkg/mcpproxy/proxy.go:195-226 | capacity is refused exactly when the pool is full of referenced connections; what is displaced is held by no call and the least recently used such; the invariant is kept |
| `McpProxy.Proxy.Reap` | pkg/mcpproxy/proxy.go:263-275 | exactly the stale connections leave the pool and are handed over, no call holds one, and the invariant is kept |
| `McpProxy.Proxy.Release` | pkg/mcpproxy/proxy.go:228-237 | references again equal the calls that hold the connection, the caller closes exactly what a closed pool leaves to it, and the invariant is kept |
| `Readiness.Normalize` | internal/bed/pillow/probe_spec.go:45-63 | negative and excessive thresholds are rejected, zero takes the default of one success and three failures, and others stay |
| `Readiness.TrailingIsRun` | internal/bed/pillow/supervision.go:192-204 | a counter reaches a threshold exactly when the history ends with such a run |
| `Readiness.ReadyAfter` | internal/bed/pillow/supervision.go:187-204 | how one more observation changes readiness, by the definition over the history |
| `Readiness.Tracker.constructor` | internal/bed/pillow/supervision.go:180-185 | a new tracker is not ready |
| `Readiness.Tracker.Observe` | internal/bed/pillow/supervision.go:187-212 | after any history, ready if and only if a run of successes occurred with no later run of failures |
| `Supervision.StepKeeps` | internal/bed/pillow/supervision.go:14-178 | readiness is set after publication and cleared before withdrawal, at every step |
| `Supervision.ReadyMeansListening` | internal/bed/pillow/manager.go:258-276 | while a Pillow is ready its phase is running and each of its ports listens for that execution |
| `Supervision.RunningMeansBound` | internal/bed/network/port_mappings.go:98-102 | in every run, as soon as the phase is running each of the Pillow's mappings is bound to its execution |
| `SupervisionOutcomes.StatusFollowsHistory` | internal/bed/pillow/supervision.go:14-178 | in every run the status shows the last phase announced, the process it was for, and readiness by the last probe after all ports were published |
| `SupervisionOutcomes.MappingsFollow` | internal/bed/network/port_mappings.go:85-170 | in every run, at each stage of an attempt, which of its mappings are reserved, bound to its process, listening, withdrawn or released |
| `SupervisionOutcomes.DecisionsFollowHistory` | internal/bed/pillow/supervision.go:28-79 | in every run an automatic restart is open exactly to an attempt that nobody ended explicitly and within the budget, an explicit one exactly after one asked for, during the backoff or while waiting, and waiting exactly to an attempt not ended explicitly |
| `SupervisionOutcomes.ProbesPreserve` | internal/bed/pillow/supervision.go:83-84 | a failed probe costs a ready Pillow its readiness and nothing else: process, ports and restart budget are kept |
| `SupervisionOutcomes.CanAlwaysBeReady` | internal/bed/pillow/supervision.go:14-178 | from every reachable state but the last the Pillow can be ready again, under any new process |
| `SupervisionOutcomes.NewPillowsGetReady` | internal/bed/pillow/supervision.go:14-178 | a new Pillow can become ready, with any number of ports and any budget |
| `SupervisionOutcomes.CanAlwaysStop` | internal/bed/pillow/supervision.go:14-178 | from every reachable state supervision can be brought to its end with no port left |
| `Supervision.BudgetAfter` | internal/bed/pillow/supervision.go:34-60 | only a scheduled restart consumes the budget and only an explicit one resets it |
| `Supervision.RestartsAreBounded` | internal/bed/pillow/supervision.go:38-61 | automatic restarts between explicit ones never exceed the budget |
| `Supervision.PortMapping.constructor` | internal/bed/network/port_mappings.go:85-87 | a mapping starts reserved and unbound |
| `Supervision.PortMapping.Publish` | internal/bed/network/port_mappings.go:107-130 | a mapping listens exactly from its reservation with its forwarder up; a refusal changes nothing |
| `Supervision.PortMapping.Withdraw` | internal/bed/network/port_mappings.go:134-149 | a mapping stops listening even if its forwarder cannot be closed yet |
| `Supervision.PortMapping.Release` | internal/bed/network/port_mappings.go:150-170 | a mapping is released exactly when its forwarder is gone and its allocation given back, and in no case listens on |

## Left out

- HTTP handlers, API views, event streams and JSON: adapters over the protocols above.
- Browsers, MCP transport, namespaces, mounts, Landlock, cgroups and process groups: an MCP client is open or closed, a process is started or gone.
- Snapshot formats and backends: a store has one snapshot per name, a generation and a refusal of older ones; several formats side by side are not modelled.
- Other carriers: all uploads of a name come from one carrier.
- Parsing of addresses and prefixes, hashing and random identifiers: parameters, with the laws of a canonical printer (`Policy.Lawful`) and fresh identities as assumptions.
- Texts are ASCII: Unicode case folding and spaces in targets are not modelled.
- Floating-point rounding and 64-bit overflow of times, cursors and sequences: reals and unbounded integers instead.
- Time: a clock reading is an argument and need not be monotonic; the retention clock's zero is the zero time.
- Context deadlines: any wait may be abandoned at any step.
- Lifecycle status shared by successive allocations of one identity: the retention clock and phase are kept per allocation, with the inherited clock in its initial value.
- Directories recreated from outside while their cleanup runs, corrupt metadata and leftovers named `.replaced-bed-*`.
- A Bed handle is an allocation number whose record is reached through a map, in place of a reference to a mutable object; aliasing is equality of numbers.
- The persist job, local identities on disk and the supervising goroutine are machines over values: their steps replace a state where the code updates files and status fields in place.
- Kernel timeouts of learned addresses: an address may leave the kernel's set at any time; the seconds written there are not modelled.
- The text of the packet filter: the chain is a list of rules.
- Shells, session framing, transfers, environments, configuration, logging, inventory and host facts.
- ExecutionStop.Execution.RecordStop: a cause is not empty, as the constants that callers pass are not.
- LatePersists.LatePersistIsExact: is about one step from a safe state; `LatePersists.JoinIsExact` is the claim about whole runs.
- PortManager.Manager.Reserve: the probe of each port has one result during the call.
- The name protocol and the trees of an identity are two machines: the guard of the second is the conclusion of `LifecycleSafety.AttemptsFindNoUse` about the first, with live creations and residents as its uses.
- The range of Unix users does not change between restarts, and a Bed's user owns files only inside its tree.
- Retry sweeps run one at a time, as their callers do (`cmd/hostel/main.go:228`, `internal/bed/manager/daemon.go:142-143`, `internal/bed/manager/daemon.go:236`).
