# Concurrency control of the ACS orchestrator, in Dafny

The ACS orchestrator runs tool invocations inside Kubernetes sandboxes. Several orchestrator
processes, crash recovery and late replies share the same sandboxes, and nothing may be lost or
done twice. This project models the parts that carry that promise and proves it over all runs.

| file | part of the system |
|---|---|
| `Text.dfy` | options, splitting and joining |
| `OwnershipState.dfy` | ownership records, writable-path arithmetic, journal validation |
| `OwnershipJournal.dfy` | the ConfigMap journal: reserve, update, compaction, compare-and-swap loop |
| `OwnedOperations.dfy` | one operation's local state machine, remote evidence, admission tests |
| `OwnershipProtocol.dfy` | all of it as a transition system with lost replies and a racing reconciler |
| `OwnershipSafety.dfy`, `OwnershipTheorems.dfy` | the protocol's invariant and its theorems |
| `OwnershipAdmission.dfy` | what admission and reservation decide, and what every new row rests on |
| `OwnershipLaunches.dfy` | what must have happened before a process can run |
| `OwnershipOutcomes.dfy` | where the outcomes and the proved resources of the journal come from |
| `OwnedSharedWork.dfy`, `SharedWorkAnswers.dfy` | singleflight over owned operations; what each caller is told |
| `SandboxResource.dfy` | a sandbox object's annotations and what each fenced write makes of them |
| `SandboxWrites.dfy` | request by request, when a write is refused or needless and what it leaves |
| `SandboxHistory.dfy` | properties of every sequence of such writes |
| `SandboxProtocol.dfy` | any number of clients writing one object by uid and resourceVersion |
| `SandboxDeletionGate.dfy` | every DELETE and finalizer removal traced to the gate its client passed |
| `SandboxCapacity.dfy`, `CapacityReservations.dfy` | capacity admission, eviction, health summary, reservations |
| `PendingRunner.dfy`, `PersistentRunner.dfy` | one wire attempt; the runner's table of attempts |
| `RunnerDelivery.dfy`, `RunnerAttempts.dfy` | which outputs reach the consumer; each attempt of the table by itself |
| `LeaseMonitor.dfy`, `LeaseAlarms.dfy` | the invocation lease monitor over an explicit clock; when it raises its alarm |
| `Cidr.dfy`, `SharedCidrs.dfy` | IPv4 prefixes, overlap and counting |

`dafny verify dfyconfig.toml` checks the whole project.

## How to read it

Code that updates fields step by step is a class whose methods equal a function of the old field
values (`ensures View() == F(old(View()))`); the functions are then the moves of a transition
system, and the theorems speak about every run or every event sequence. A lemma whose name ends in
`Decides` gives the whole answer of an operation as an if-and-only-if in terms of the fields themselves,
without the function it is about; the theorems over runs build on those. Code that loops is a method
with the loop. Thrown errors are `Option` or result datatypes. The API server, the remote side,
timers, clocks and random ids are steps or parameters.

The ownership protocol lets any number of owner processes, their crashes (a process that takes no
further step), conflicts, committed writes whose reply is lost, a reconciler working from rows read
at any earlier time, and forged documents interleave freely. It relies on these facts about the
world:

- a document signed with an attempt's key is true: `stopped` means the process has exited,
  `not_started` is a promise never to launch;
- a sandbox uid that has vanished does not come back, and its processes end with it;
- a caller binds its fence before it dispatches, sends the frame only after dispatch returned, and
  asks for the `never_dispatched` and `coordinator_settled` proofs only after it has finished
  (`ownedInvocation.ts:63-108`); without that order the silent return of `persist` on a terminal
  record (`ownedOperations.ts:183`) would not stop a later dispatch;
- operation ids are fresh.

Admission of a workload descriptor writes lastActiveAt without a maximum
(`sandboxLifecycleMutations.ts:305`), so the claims about lastActiveAt allow leases, touches and
completions only.

The sandbox object relies on the API server: a uid is never given out twice, an object with a
finalizer is not removed, and a write fenced by uid and resourceVersion lands only on that version.

Two promises turn out to need a condition, and the project states it exactly:

- Singleflight fails for a negative owner budget: the range check of the wait rejects it only after
  work() has started, and the failure is settled as never dispatched. `SingleflightIffBudget` proves
  that it holds in all runs exactly for budgets that are not negative, or so negative that the
  deadline is no date and work() never starts.
- A fenced clear of the background protection can be trusted for labelled writers only. An unlabelled
  raise keeps the older label (`UnlabelledRaiseIsCleared`), and a labelled writer that merely repeats
  an unlabelled deadline becomes its label (`EqualDeadlineAdoptsLabel`). `FenceSafeIff` proves for all
  histories, and `FenceSafeOverRuns` for all interleavings, that the fence is sound exactly when the
  last strict raiser was labelled or no label is stored.

## Model

| member | source | states |
|---|---|---|
| `OwnershipState.NormalizeIdempotent` | acs-orchestrator/src/ownershipState.ts:77-84 | normalizing a writable path twice is normalizing it once |
| `OwnershipState.NormalizedSegments` | acs-orchestrator/src/ownershipState.ts:77-84 | a normalized path is the join of the surviving segments and splits back into exactly those |
| `OwnershipState.OverlapIsSharedPath` | acs-orchestrator/src/ownershipState.ts:86-91 | with one storage id the string test holds exactly when some segment path lies under both scopes, and does not depend on the order |
| `OwnershipState.RejectedPaths` | acs-orchestrator/src/ownershipState.ts:77-84 | exactly these paths are rejected: absolute ones, those with a backslash, a control character or a ".." segment, and those with nothing but empty and "." segments |
| `OwnershipState.OverlapDecides` | acs-orchestrator/src/ownershipState.ts:86-91 | the whole answer of the overlap test: none across storage ids, a throw exactly for a rejected path on one storage, and otherwise whether one segment path lies under the other |
| `OwnershipState.ConflictIsClaim` | acs-orchestrator/src/ownershipState.ts:100-103 | where no path is rejected, a record conflicts exactly if it shares the storage, the paths nest, and it is a receiver handoff or names the same sandbox |
| `OwnershipState.WalkAncestors` | acs-orchestrator/src/ownershipState.ts:157-168 | the parent walk ends with a repetition-free ancestry of one owner, or the records are cyclic or cross owners |
| `OwnershipState.ValidateRows` | acs-orchestrator/src/ownershipState.ts:129-156 | the row pass accepts exactly lists of well-formed rows with unique ids |
| `OwnershipState.ValidateOwnershipRecords` | acs-orchestrator/src/ownershipState.ts:121-171 | validation accepts exactly the journals of at most 128 well-formed rows with unique ids, same-owner parents and acyclic ancestry |
| `OwnershipState.AllWalksFinish` | acs-orchestrator/src/ownershipState.ts:157-168 | if the walk from every row ends, no row is its own ancestor by any chain of parents |
| `OwnershipJournal.CompactedMembers` | acs-orchestrator/src/ownershipJournal.ts:44-48 | compaction drops no live row and invents none |
| `OwnershipJournal.NewestStay` | acs-orchestrator/src/ownershipJournal.ts:46-47 | a row survives compaction exactly if it is live or fewer than sixteen terminal rows come after it |
| `OwnershipJournal.OrderStays` | acs-orchestrator/src/ownershipJournal.ts:46-48 | surviving rows keep their order, live ones before terminal ones |
| `OwnershipJournal.CompactedSize` | acs-orchestrator/src/ownershipJournal.ts:46-49 | a compacted journal has all live rows and at most sixteen others |
| `OwnershipJournal.ScanRows` | acs-orchestrator/src/ownershipJournal.ts:42-43 | the scan is clear exactly when every live row is free of conflict; otherwise the first row that is not decides, blocking or, where its test throws, making the journal unavailable |
| `OwnershipJournal.ReserveKnown` | acs-orchestrator/src/ownershipJournal.ts:37-41 | a reservation of a known id answers with its row, and is blocked exactly for another attempt or owner |
| `OwnershipJournal.ReserveDecides` | acs-orchestrator/src/ownershipJournal.ts:42-50 | a new id is appended exactly if every live row is free of conflict and the compacted journal has fewer than 128 rows, and is blocked exactly by the first live row in conflict |
| `OwnershipJournal.ReserveKeepsLive` | acs-orchestrator/src/ownershipJournal.ts:35-52 | a reservation keeps every live row unchanged and adds only the new record |
| `OwnershipJournal.UpdateReplacesOne` | acs-orchestrator/src/ownershipJournal.ts:54-68 | an update replaces exactly one row by the next revision and never revives a terminal one |
| `OwnershipJournal.UpdateDecides` | acs-orchestrator/src/ownershipJournal.ts:54-67 | an update succeeds exactly if the row stands in the journal with the same attempt and owner at the expected revision and is not revived, and is blocked otherwise |
| `OwnershipJournal.JournalClient.ReadSnapshot` | acs-orchestrator/src/ownershipJournal.ts:70-91 | the cache follows a readable, valid journal and is marked unavailable otherwise |
| `OwnershipJournal.JournalClient.Attempt` | acs-orchestrator/src/ownershipJournal.ts:96-120 | one pass asks for another exactly after a lost version race; otherwise it is done exactly when its write was acknowledged, refused exactly when the change was blocked, and distrusts the cache after a write of unknown fate |
| `OwnershipJournal.JournalClient.Mutate` | acs-orchestrator/src/ownershipJournal.ts:93-126 | the first round that does not lose its version race decides; five lost races leave nothing persisted |
| `OwnedOperations.OwnedOperation.Mark` | acs-orchestrator/src/ownedOperations.ts:49-54 | everything but a durable terminal becomes unknown, uncertain and not durable |
| `OwnedOperations.OwnedOperation.Unresolved` | acs-orchestrator/src/ownedOperations.ts:104-110 | there is a persist exactly unless a durable terminal stands; then the operation is unknown, uncertain and not durable, and a pending outcome becomes cancelled exactly if aborted, else timed_out exactly on a timeout, else failed |
| `OwnedOperations.OwnedOperation.RequestCancel` | acs-orchestrator/src/ownedOperations.ts:151-161 | a cancel is taken once, on an operation neither terminal nor background-owned; it aborts and keeps an uncertain record unknown |
| `OwnedOperations.OwnedOperation.Complete` | acs-orchestrator/src/ownedOperations.ts:112-149 | a completion is accepted exactly on proof; then a pending caller outcome becomes exactly the one given and a settled one is kept, and a refused completion changes nothing |
| `OwnedOperations.CompletionDecides` | acs-orchestrator/src/ownedOperations.ts:112-143 | for every resource exactly what it takes: not_started needs no dispatch and no fence or a signed never-launched receipt, stopped a settled coordinator, a vanished sandbox observed late enough or a signed reaper receipt, background_owned a signed inventory |
| `OwnedOperations.ReceiptReads` | acs-orchestrator/src/remoteAttemptProtocol.ts:131-143 | a receipt is read exactly if it is signed for this fence and its proof fits what it reports |
| `OwnedOperations.BindDecides` | acs-orchestrator/src/ownedOperations.ts:74-83 | a fence is bound exactly if it is valid and names this attempt, before dispatch, with nothing in doubt and no other fence |
| `OwnedOperations.DispatchDecides` | acs-orchestrator/src/ownedOperations.ts:85-89 | a dispatch starts exactly while not cancelled, not in doubt, and to the sandbox of the recorded fence if there is one |
| `OwnedOperations.UpdateDecides` | acs-orchestrator/src/ownedOperations.ts:169-177 | an unproved update is refused exactly if it claims an end or a handover, or rebinds or late-binds a fence |
| `OwnedOperations.PersistDecides` | acs-orchestrator/src/ownedOperations.ts:179-186 | persist writes nothing exactly for an unproved patch over an acknowledged terminal; otherwise the next revision carries the caller outcome, the proved or patched resource (unknown if unproved and uncertain) and each patched field |
| `OwnedOperations.OwnedOperation.Committed` | acs-orchestrator/src/ownedOperations.ts:187-205 | what an acknowledged persist does to the local record, its certainty and durability |
| `OwnedOperations.OwnedOperation.BeginFailed` | acs-orchestrator/src/ownedPrepareAdmission.ts:14-42 | only a deterministic conflict that never reached the journal leaves no owner |
| `OwnedOperations.WalkOwners` | acs-orchestrator/src/ownedOperations.ts:261-270 | the walk that stops at a repeated id decides reachability over parent links, on cyclic registries too |
| `OwnedOperations.BeginConflictDecides` | acs-orchestrator/src/ownedOperations.ts:239-287 | the whole answer of the admission test: it throws only on a rejected path, and otherwise blocks exactly on a live claim that is unresolved, or that is neither background-owned nor an ancestor and is not held by this owner for a task of another invocation (and never beside a provision or ensure) |
| `OwnershipSafety.AdmissionChecked` | acs-orchestrator/src/ownedOperations.ts:239-287 | an admitted reservation saw no conflicting unknown or stop-requested row, and of other owners only background-owned ones (the full answer is AdmissionDecides) |
| `OwnershipAdmission.BeginDecides` | acs-orchestrator/src/ownedOperations.ts:223-247 | begin goes ahead locally exactly for a new record with a free slot, an active parent of the same owner if it names one, and nothing held in its way |
| `OwnershipAdmission.AdmissionDecides` | acs-orchestrator/src/ownedOperations.ts:239-255 | against a valid journal a reservation is sent exactly if no row stands in its way and there is room, and blocked exactly if some row does |
| `OwnershipAdmission.ReservationStep` | acs-orchestrator/src/ownedPrepareAdmission.ts:18-42 | what follows: the write goes out over the journal it was checked against, or begin fails, closing the local record as not_started and failed only for a blocked one that was never dispatched |
| `OwnershipAdmission.RowsEnterUnopposed` | acs-orchestrator/src/ownedOperations.ts:239-287 | in every run a row enters only if, when its owner sent the reservation, the very journal it enters had room and nothing in its way |
| `OwnershipAdmission.NoReservationBesideClaim` | acs-orchestrator/src/ownedOperations.ts:239-287 | in every run a live row claiming the scope of a new one is not unresolved, is background-owned if another owner's, and if this owner's is background-owned, an ancestor, or held for an invocation, warmup or receiver of another invocation |
| `OwnershipAdmission.OwnersKeepApart` | acs-orchestrator/src/ownershipState.ts:93-103 | of two owners' rows of which the first claims the other's scope, the earlier is stopped, not started, or was background-owned in one of its versions |
| `OwnershipSafety.SettleNextGood` | acs-orchestrator/src/remoteOwnershipReconciler.ts:69-194 | what a reconciler without the local owner writes is a truthful next version of the row it read |
| `OwnershipTheorems.StepInv` | acs-orchestrator/src/ownedOperations.ts:85-206 | every step of owner, journal, reconciler and remote side keeps the protocol invariant |
| `OwnershipTheorems.TerminalRowsHaveNoProcess` | acs-orchestrator/src/ownedInvocation.ts:63-108 | in every run, once a row is stopped or not_started its attempt has no live process, then and ever after |
| `OwnershipLaunches.ProcessesAreOnRecord` | acs-orchestrator/src/ownedInvocation.ts:63-108 | in every run, before an invoke frame leaves and so before a process runs, a committed version of the row carries the fence of that attempt |
| `OwnershipLaunches.CancelledNeverRuns` | acs-orchestrator/src/ownedOperations.ts:85-96 | in every run an operation cancelled before its dispatch returned is never sent and no process of it runs |
| `OwnershipTheorems.JournalOverRuns` | acs-orchestrator/src/ownershipJournal.ts:35-126 | in every run the journal and every list on its way there is valid, a row seen once is later present or ended terminal, revisions do not fall, outcomes are write-once and terminal is final |
| `OwnershipTheorems.JournalIsValid` | acs-orchestrator/src/ownershipState.ts:121-171 | in every run the stored journal has at most 128 well-formed rows, unique ids, same-owner parents and acyclic ancestry |
| `OwnershipTheorems.OutcomeOverRuns` | acs-orchestrator/src/ownedOperations.ts:144-147 | in every run the outcome an operation has settled on for its caller never changes, whatever receipt, cancel or failure comes later |
| `OwnershipOutcomes.GivenOutcomeSettles` | acs-orchestrator/src/ownedOperations.ts:104-149 | a pending operation settles on exactly the outcome its caller gives, or that of giving up: cancelled, timed_out or failed |
| `OwnershipOutcomes.OnlyGivingSettles` | acs-orchestrator/src/ownedOperations.ts:104-149 | no other step of any process settles an outcome |
| `OwnershipOutcomes.OutcomeIsFirstGiven` | acs-orchestrator/src/ownedOperations.ts:144-147 | in every run a settled outcome is the one the caller gave first |
| `OwnershipOutcomes.VersionsCarryFirstOutcome` | acs-orchestrator/src/ownedOperations.ts:179-206 | in every run each later version of a record was written by its owner, with exactly the outcome first given or pending, or by a reconciler on its evidence, which makes a pending outcome failed and keeps any other |
| `OwnershipOutcomes.SettlingDecides` | acs-orchestrator/src/remoteOwnershipReconciler.ts:69-194 | exactly which version a reconciler writes: from a signed fitting receipt, or stopped from a vanished sandbox observed no earlier than the floor |
| `OwnershipOutcomes.AcknowledgeDecides` | acs-orchestrator/src/ownedOperations.ts:187-205 | an acknowledged persist leaves its version acknowledged, certainty exactly where there was some or a proof came back in time, durability exactly in time and with certainty, and a caller whose wait expired is not resumed |
| `OwnershipOutcomes.ClaimsAreProved` | acs-orchestrator/src/ownedOperations.ts:112-149 | in every run a version saying stopped, not_started or background_owned was preceded by an accepted completion of that resource on proof in the world, or by a reconciler's evidence |
| `OwnershipTheorems.OneRowPerStep` | acs-orchestrator/src/ownershipJournal.ts:54-68 | a step changes at most one row, by exactly one revision, and only by a commit of that write |
| `OwnershipTheorems.NoReservationBesideUnresolved` | acs-orchestrator/src/ownedOperations.ts:239-287 | no row enters the journal while a conflicting row is unknown or stop-requested, or live under another owner and not background-owned |
| `OwnershipTheorems.OwnersExcludeEachOther` | acs-orchestrator/src/ownershipState.ts:93-103 | of two owners' rows on one sandbox and overlapping paths the earlier is terminal or was background-owned |
| `OwnershipTheorems.VersionsAgree` | acs-orchestrator/src/remoteOwnershipReconciler.ts:128-194 | along all versions of a record identity is fixed, the outcome settles once and terminal is final |
| `OwnedSharedWork.SharedWork.Enter` | acs-orchestrator/src/ownedSharedWork.ts:29-62 | the loop on the leaders map is the Look steps of the transition system: it blocks exactly on an unknown leader, follows exactly a beginning or live one, and otherwise leads, replacing an ended one; only leading changes the map |
| `OwnedSharedWork.ResultsMatchFingerprint` | acs-orchestrator/src/ownedSharedWork.ts:41-60 | a caller that gets a result gets one computed for its own key and fingerprint |
| `SharedWorkAnswers.EntryDecides` | acs-orchestrator/src/ownedSharedWork.ts:29-62 | in every run a caller is turned away at entry exactly if its key has a leader whose resource is unknown, follows exactly a beginning or live one, and leads exactly if there is none |
| `SharedWorkAnswers.ObserveDecides` | acs-orchestrator/src/ownedSharedWork.ts:40-60 | a result goes exactly to the leading caller and followers of its fingerprint; a follower starts anew exactly behind a leader that is over |
| `SharedWorkAnswers.StopDecides` | acs-orchestrator/src/ownedSharedWork.ts:45-54 | a caller that stops waiting starts anew exactly as a follower of a leader that is over, and is turned away otherwise |
| `SharedWorkAnswers.SweepDecides` | acs-orchestrator/src/ownedSharedWork.ts:101-104 | a finished task drops its leader exactly if its operation is over and its key still names it |
| `SharedWorkAnswers.ResultsAreSuccesses` | acs-orchestrator/src/ownedSharedWork.ts:74-89 | in every run a caller that holds a result holds that of a returned work() whose operation is terminal and recorded as a success |
| `SharedWorkAnswers.SettlesDecides` | acs-orchestrator/src/ownedSharedWork.ts:79-131 | exactly when a finished work() is settled: returned without a sandbox uid and never dispatched or plainly over, or thrown without dispatch and not by an ended wait |
| `SharedWorkAnswers.ProvesDecides` | acs-orchestrator/src/ownedSharedWork.ts:76-89 | settling in time records success exactly if work() returned, cancelled exactly if it threw under a cancel, and not_started exactly if nothing was dispatched |
| `SharedWorkAnswers.AbandonDecides` | acs-orchestrator/src/ownedSharedWork.ts:90-94 | a task given up on leaves its operation unknown with an outcome, unless it is over |
| `OwnedSharedWork.UnknownLeaderStays` | acs-orchestrator/src/ownedSharedWork.ts:30-38 | an unknown leader keeps its key and turns every caller away |
| `OwnedSharedWork.Singleflight` | acs-orchestrator/src/ownedSharedWork.ts:63-104 | with safe budgets at most one work() per key is unsettled, also after its waiter gave up |
| `OwnedSharedWork.OverlappingRun` | acs-orchestrator/src/ownedSharedWork.ts:113-131 | for every negative budget whose deadline can be a date there is a run with two unsettled work() on one key |
| `OwnedSharedWork.SingleflightIffBudget` | acs-orchestrator/src/ownedSharedWork.ts:63-131 | singleflight holds in all runs exactly when the owner budget is not negative, or so far below zero that no deadline is a date and work() never starts |
| `SandboxResource.PatchedNotes` | acs-orchestrator/src/sandboxLifecycleMutations.ts:338-357 | the value of every annotation after a protected write and its linked updates |
| `SandboxResource.CompletionIsAtomic` | acs-orchestrator/src/sandboxLifecycleMutations.ts:133-168 | one patch removes exactly the completed lease and makes lastActiveAt at least completedAt |
| `SandboxResource.DeletingTakesNoLease` | acs-orchestrator/src/sandboxLifecycleMutations.ts:335-346 | once deletion has begun no write adds or renews a lease |
| `SandboxResource.Mutate` | acs-orchestrator/src/sandboxLifecycleMutations.ts:326-378 | the loop succeeds exactly when, following one uid, every round before lost a version race and the last found the request satisfied or applied its patch to the object it read |
| `SandboxWrites.RenewDecides` | acs-orchestrator/src/sandboxLifecycleMutations.ts:114-131 | a renewal is refused exactly in deletion; otherwise the lease has the later deadline and the stronger state, a named generation is current with no terminal markers, and nothing else moves |
| `SandboxWrites.ClearDecides` | acs-orchestrator/src/sandboxLifecycleMutations.ts:321-378 | a clear is never refused and takes off exactly its lease |
| `SandboxWrites.TouchDecides` | acs-orchestrator/src/sandboxLifecycleMutations.ts:381-393 | a touch is refused exactly in deletion; otherwise lastActiveAt is at least the time given and never falls |
| `SandboxWrites.CompleteDecides` | acs-orchestrator/src/sandboxLifecycleMutations.ts:133-180 | a completion patches exactly where its lease is, is done exactly where an activity time already covers it, and is refused otherwise and in deletion |
| `SandboxWrites.AdmitDecides` | acs-orchestrator/src/sandboxLifecycleMutations.ts:266-319 | an admission is refused exactly in deletion; otherwise it starts a new activity, drops the markers and keeps only a known workload class |
| `SandboxWrites.TerminateDecides` | acs-orchestrator/src/sandboxLifecycleUpdater.ts:48-68 | a terminal update is written exactly for the current activity (or, naming none, one not as new) with no marker as new, and then all four markers are its own |
| `SandboxWrites.ProtectDecides` | acs-orchestrator/src/sandboxLifecycleMutations.ts:338-357 | a protection raises the deadline to at least the one asked for, and its label is the writer's unless the standing deadline is later, or the same and labelled |
| `SandboxWrites.UnprotectDecides` | acs-orchestrator/src/sandboxLifecycleMutations.ts:336-357 | a clear takes deadline and label off together exactly if its fence, if any, is the stored label |
| `SandboxWrites.AdvanceDecides` | acs-orchestrator/src/sandboxDeletionGeneration.ts:37-55 | nothing to do exactly at the target, written exactly without a token or from the named previous one, refused otherwise |
| `SandboxResource.GateDecides` | acs-orchestrator/src/sandboxMutationGate.ts:61-71 | the gate opens exactly if there is no lease annotation, no protection deadline beyond now, and the caller's predicate holds |
| `SandboxHistory.MergeIsJoin` | acs-orchestrator/src/sandboxLifecycleMutations.ts:395-413 | merging leases is the least upper bound in deadline and state rank |
| `SandboxHistory.MergeAllIsJoin` | acs-orchestrator/src/sandboxLifecycleMutations.ts:395-413 | any list of renewals and completion fences merges to the least upper bound of all |
| `SandboxHistory.MergeOrderIrrelevant` | acs-orchestrator/src/sandboxLifecycleMutations.ts:395-413 | their order and repetition do not matter |
| `SandboxHistory.LeaseOnlyGrows` | acs-orchestrator/src/sandboxLifecycleMutations.ts:321-346 | under any writes a lease's deadline and rank only rise until it is removed, and a completion with its time survives every heartbeat |
| `SandboxHistory.CompletionRetrySucceeds` | acs-orchestrator/src/sandboxLifecycleMutations.ts:142-180 | repeating a completion whose reply was lost succeeds after any leases, touches and completions |
| `SandboxHistory.MarkerNamesCurrentActivity` | acs-orchestrator/src/sandboxLifecycleUpdater.ts:26-74 | with fenced terminal updates a terminal marker always belongs to the current activity generation |
| `SandboxHistory.LateUpdateIgnored` | acs-orchestrator/src/sandboxLifecycleUpdater.ts:53-60 | an update for an activity that was replaced never marks the sandbox again |
| `SandboxHistory.TerminalTimesIncrease` | acs-orchestrator/src/sandboxLifecycleUpdater.ts:51-60 | effective terminal updates of one activity carry strictly increasing times |
| `SandboxHistory.MarkersAreOneUpdate` | acs-orchestrator/src/sandboxLifecycleMutations.ts:64-82 | over any events the four terminal markers are those of the newest update of the current activity, never a mixture, or all absent |
| `SandboxHistory.LeaseIsPrivate` | acs-orchestrator/src/sandboxLifecycleMutations.ts:114-180 | over any events a lease is changed only by those that name its invocation |
| `SandboxHistory.KnownWorkloadStays` | acs-orchestrator/src/sandboxLifecycleMutations.ts:288-304 | over any events, later admissions included, a known workload descriptor is never rewritten |
| `SandboxHistory.GenerationIsChain` | acs-orchestrator/src/sandboxDeletionGeneration.ts:33-55 | at every point of any history the deletion generation moves exactly by an advance from the token it stands at, and is never taken back |
| `SandboxHistory.ClaimLapses` | acs-orchestrator/src/sandboxDeletionGeneration.ts:42-44 | a token the chain has left, and nobody advances to again, never matches again |
| `SandboxHistory.LabelNamesLastRaiser` | acs-orchestrator/src/sandboxLifecycleMutations.ts:442-456 | with labelled writers the stored generation is that of the last strict raiser |
| `SandboxHistory.FencedClearIsOwn` | acs-orchestrator/src/sandboxLifecycleMutations.ts:336-337 | a fenced clear removes a deadline exactly when its own generation put it there |
| `SandboxHistory.DeadlineOnlyRises` | acs-orchestrator/src/sandboxLifecycleMutations.ts:415-428 | only a clear lowers or removes the protection deadline |
| `SandboxHistory.FenceSafeIff` | acs-orchestrator/src/sandboxLifecycleMutations.ts:336-345 | over any events from an unprotected object, labelled or not: every fenced clear that removes the deadline is its last strict raiser's exactly when that raiser was labelled or no label is stored |
| `SandboxHistory.EqualDeadlineAdoptsLabel` | acs-orchestrator/src/sandboxLifecycleMutations.ts:341-345 | a writer that only repeats an unlabelled deadline is stored as its label and may clear it |
| `SandboxHistory.UnlabelledRaiseIsCleared` | acs-orchestrator/src/sandboxLifecycleMutations.ts:447-456 | a fenced clear removes a deadline an unlabelled writer raised |
| `SandboxProtocol.StepIsAtomic` | acs-orchestrator/src/sandboxLifecycleMutations.ts:38-62 | a patch computed from a snapshot and fenced by uid and resourceVersion acts on the object as if read and write were one step |
| `SandboxProtocol.RunsAreSerial` | acs-orchestrator/src/sandboxLifecycleMutations.ts:321-378 | every interleaving of clients on one uid equals a sequence of atomic events, one per step |
| `SandboxProtocol.CompletionRetryOverRuns` | acs-orchestrator/src/sandboxLifecycleMutations.ts:133-180 | in every interleaving a completion that committed without a reply can be repeated while others renew, touch and complete |
| `SandboxProtocol.LeaseGrowsOverRuns` | acs-orchestrator/src/sandboxLifecycleMutations.ts:321-413 | in every interleaving a lease only grows in deadline and rank until it is removed, and a completion with its time survives every heartbeat |
| `SandboxProtocol.LeasePrivateOverRuns` | acs-orchestrator/src/sandboxLifecycleMutations.ts:114-180 | in every interleaving a lease is changed only by commits that name its invocation |
| `SandboxProtocol.OneUpdateOverRuns` | acs-orchestrator/src/sandboxLifecycleMutations.ts:64-82 | in every interleaving the four terminal markers are those of one update of the run, or all absent |
| `SandboxProtocol.WorkloadOverRuns` | acs-orchestrator/src/sandboxLifecycleMutations.ts:288-304 | in every interleaving a known workload descriptor stays for as long as the object exists |
| `SandboxProtocol.GenerationOverRuns` | acs-orchestrator/src/sandboxDeletionGeneration.ts:33-55 | in every interleaving a step moves the deletion generation exactly by an advance from the token it stands at |
| `SandboxProtocol.DeadlineOverRuns` | acs-orchestrator/src/sandboxLifecycleMutations.ts:415-456 | in every interleaving without a clear the protection deadline does not fall |
| `SandboxProtocol.MarkerOverRuns` | acs-orchestrator/src/sandboxLifecycleUpdater.ts:26-74 | in every interleaving of fenced updates a terminal marker belongs to the current activity generation, by the events of the run's own steps |
| `SandboxProtocol.FencedClearOverRuns` | acs-orchestrator/src/sandboxLifecycleMutations.ts:442-456 | in every interleaving of labelled writers a fenced clear removes a deadline exactly for its last strict raiser, by the events of the run's own steps |
| `SandboxProtocol.FenceSafeOverRuns` | acs-orchestrator/src/sandboxLifecycleMutations.ts:321-378 | the same exact condition for the fence of a clear, over every interleaving of clients |
| `SandboxProtocol.LateUpdateOverRuns` | acs-orchestrator/src/sandboxLifecycleUpdater.ts:53-74 | in every interleaving an update for a replaced activity sends no patch, and none in flight commits |
| `SandboxProtocol.TerminalTimesOverRuns` | acs-orchestrator/src/sandboxLifecycleUpdater.ts:51-74 | in every interleaving two committed terminal updates of one activity carry strictly increasing times |
| `SandboxProtocol.LapsedClaimOverRuns` | acs-orchestrator/src/sandboxDeletionGeneration.ts:59-88 | in every interleaving a deletion claim the chain has left deletes nothing |
| `SandboxProtocol.DeleteMeetsItsGate` | acs-orchestrator/src/sandboxMutationGate.ts:31-71 | a DELETE lands on exactly the annotations its gate checked: no lease, and the caller's predicate holds |
| `SandboxDeletionGate.DeletesPassTheirGate` | acs-orchestrator/src/sandboxMutationGate.ts:31-71 | in every run a landing DELETE removes an object its client had read at its gate with exactly its present annotations: no lease, no protection beyond the time of that read, and the predicate held |
| `SandboxDeletionGate.RemovalsAreRechecked` | acs-orchestrator/src/sandboxDeletion.ts:88-170 | in every run a finalizer comes off only after the client's own DELETE of that uid and a later read with the same annotations, free of leases and of protection beyond the time of that read |
| `SandboxDeletionGate.ProtectionHolds` | acs-orchestrator/src/sandboxMutationGate.ts:61-67 | while a lease or a later protection deadline stands, no gate opens and no finalizer removal goes on |
| `SandboxDeletionGate.UnprotectedPasses` | acs-orchestrator/src/sandboxMutationGate.ts:61-76 | an unprotected object that meets the predicate passes |
| `SandboxProtocol.DeletedCarriesNoLease` | acs-orchestrator/src/sandboxDeletion.ts:54-143 | from a gated DELETE on, that uid stays in deletion and carries no lease |
| `SandboxProtocol.GenerationFencesDelete` | acs-orchestrator/src/sandboxDeletionGeneration.ts:59-88 | a DELETE whose gate predicate admits only generation g removes an object whose generation is still g |
| `SandboxProtocol.ReclaimHoldsName` | acs-orchestrator/src/sandboxDeletion.ts:94-105 | with one deleter at a time, from its DELETE until its finalizer patch commits the name stays with the old uid, so nothing reclaimed by name belongs to a new incarnation |
| `SandboxCapacity.EnforceSandboxCapacity` | acs-orchestrator/src/sandboxCapacity.ts:34-75 | admits exactly when some prefix of the candidates makes room, stops at the shortest one, and loses nothing to the clamp; an admitted usage is at most every positive limit, and an exhausted one is above some positive limit after every candidate was tried |
| `SandboxCapacity.ExceededDecides` | acs-orchestrator/src/sandboxCapacity.ts:139-143 | the limit test, clamped subtraction included, is the arithmetic: at most every positive limit |
| `SandboxCapacity.RoomDecides` | acs-orchestrator/src/sandboxCapacity.ts:66-72 | a prefix makes room exactly if the demand is at most every positive limit plus what the prefix evicted |
| `SandboxCapacity.DemandDecides` | acs-orchestrator/src/sandboxCapacity.ts:47-50 | the demand in each part is what is pending, what is asked for and every listed sandbox of another name |
| `SandboxCapacity.WhoMayGo` | acs-orchestrator/src/sandboxCapacity.ts:53-65 | exactly paused sandboxes of another name that the caller lets go may be evicted, and they are what counts as reclaimable |
| `SandboxCapacity.SumDemand` | acs-orchestrator/src/sandboxCapacity.ts:47-50 | the running sum is pending, desired and every other listed sandbox |
| `SandboxCapacity.DemandCoversEvicted` | acs-orchestrator/src/sandboxCapacity.ts:89-95 | what is evicted was counted before, so the clamped subtraction is exact |
| `SandboxCapacity.SummarizeSandboxCapacity` | acs-orchestrator/src/sandboxCapacity.ts:156-183 | the summary's sums are the totals of the list and of its reclaimable part, and it is ready exactly if a standard sandbox fits every positive limit once the reclaimable part is freed |
| `SandboxCapacity.ReadyIffAdmissible` | acs-orchestrator/src/sandboxCapacity.ts:145-183 | readiness holds exactly when admission of a new sandbox would succeed if all evictions do, in any order |
| `CapacityReservations.Reservations.Reserve` | acs-orchestrator/src/capacityReservations.ts:7-18 | recording an admitted reservation is the Admit step of the transition system |
| `CapacityReservations.Reservations.Release` | acs-orchestrator/src/capacityReservations.ts:20-22 | dropping a reservation is its Release step |
| `CapacityReservations.Reservations.PendingUsage` | acs-orchestrator/src/capacityReservations.ts:24-30 | the loop sums exactly the reservations of names that neither exist nor are the current one |
| `CapacityReservations.DemandIsSum` | acs-orchestrator/src/sandboxCapacityAdmission.ts:27-51 | list, pending and desired together count every existing or reserved name once |
| `CapacityReservations.NeverOversold` | acs-orchestrator/src/sandboxCapacityAdmission.ts:11-52 | in every interleaving of admit, evict, create, release and delete, count, cpu and memory of what exists or is reserved are each at most their limit where that is positive |
| `CapacityReservations.AdmitDecides` | acs-orchestrator/src/sandboxCapacityAdmission.ts:27-51 | in every interleaving the admission in the gate reserves exactly if everything it still counts, at least all that exists or is reserved and the newcomer, is at most every positive limit |
| `PendingRunner.PendingRunnerInvocation.Receive` | acs-orchestrator/src/pendingRunnerInvocation.ts:33-61 | what an arriving output does, in place, as the step the theorems of RunnerDelivery speak about |
| `PendingRunner.PendingRunnerInvocation.GiveUp` | acs-orchestrator/src/pendingRunnerInvocation.ts:72-82 | a local end replaces the queue by one unresolved final |
| `PendingRunner.PendingRunnerInvocation.SendCancel` | acs-orchestrator/src/pendingRunnerInvocation.ts:63-70 | a cancel goes out once, only between dispatch and terminal |
| `PendingRunner.PendingRunnerInvocation.Next` | acs-orchestrator/src/pendingRunnerInvocation.ts:84-94 | next takes the queue's head, ends, or waits |
| `PendingRunner.PendingRunnerInvocation.Leave` | acs-orchestrator/src/pendingRunnerInvocation.ts:96-103 | a detach cancels and ends a retained attempt and empties the queue |
| `PendingRunner.AlwaysConsistent` | acs-orchestrator/src/pendingRunnerInvocation.ts:25-103 | after every event sequence a terminal was handed over exactly once, chunks precede one final, bytes are exact and the queue is bounded |
| `PendingRunner.RetainedUntilTerminal` | acs-orchestrator/src/pendingRunnerInvocation.ts:25-44 | an attempt is retained exactly from dispatch until a remote terminal arrives |
| `RunnerDelivery.EveryChunkArrives` | acs-orchestrator/src/pendingRunnerInvocation.ts:33-61 | after every event sequence, while the attempt has not ended and its consumer has not quit, what was taken and what is queued are together exactly the chunks that arrived, in order |
| `RunnerDelivery.WhatTheConsumerSees` | acs-orchestrator/src/pendingRunnerInvocation.ts:33-103 | after an end by a remote terminal the consumer sees all chunks that had arrived and then it; after any other end the chunks it had taken, the first of those that arrived, and then one unconfirmed final |
| `RunnerDelivery.EndDecides` | acs-orchestrator/src/pendingRunnerInvocation.ts:33-82 | exactly which event ends an attempt: a response, a chunk that finds 256 untaken ones or goes beyond 8 MiB, a stale transport, or the timer of a cancel that was sent |
| `RunnerDelivery.PullDecides` | acs-orchestrator/src/pendingRunnerInvocation.ts:84-94 | a pull answers with the next untaken chunk that arrived, and waits or ends only when all were taken |
| `RunnerDelivery.TakeDecides` | acs-orchestrator/src/pendingRunnerInvocation.ts:84-90 | taking hands over exactly what the pull answered and loses nothing |
| `RunnerDelivery.CancelDecides` | acs-orchestrator/src/pendingRunnerInvocation.ts:63-70 | one cancel goes out, exactly on the first abort, deadline, overflow or departure of a running attempt |
| `RunnerDelivery.DeadlineDecides` | acs-orchestrator/src/pendingRunnerInvocation.ts:25-29 | the deadline timer runs from dispatch until it fires or the attempt ends |
| `RunnerDelivery.LateDecides` | acs-orchestrator/src/pendingRunnerInvocation.ts:37-43 | the late hook gets exactly a first remote terminal that comes after the local end |
| `RunnerDelivery.LeavingDecides` | acs-orchestrator/src/pendingRunnerInvocation.ts:96-103 | a departure empties the queue and cancels and locally ends exactly a running attempt |
| `PersistentRunner.KeyOwnedUntilTerminal` | acs-orchestrator/src/persistentRunner.ts:79-109 | in every run a retained attempt keeps its key and no other invocation can take it |
| `PersistentRunner.OnlyTerminalReleases` | acs-orchestrator/src/persistentRunner.ts:188-212 | retention ends exactly with a frame carrying a remote terminal for that key |
| `RunnerAttempts.KeyHeldIffWanted` | acs-orchestrator/src/persistentRunner.ts:79-109 | in every run the table names an attempt exactly while it may run remotely or its caller waits for an end; then the key is free |
| `RunnerAttempts.InvokeDecides` | acs-orchestrator/src/persistentRunner.ts:84-85 | an invocation gets the key exactly if no attempt wants it and fewer than 128 keys are taken |
| `RunnerAttempts.AttemptsPlay` | acs-orchestrator/src/persistentRunner.ts:86-206 | in every run each attempt is what its own events make of it: the frames of its key while it wants the key, its caller, its timers and the transport |
| `LeaseMonitor.InvocationLeaseMonitor.Open` | acs-orchestrator/src/invocationLeaseMonitor.ts:21-29 | start arms the expiry or fails at once |
| `LeaseMonitor.InvocationLeaseMonitor.RenewalSettled` | acs-orchestrator/src/invocationLeaseMonitor.ts:49-58 | what a settled renewal does, in place |
| `LeaseMonitor.InvocationLeaseMonitor.Finish` | acs-orchestrator/src/invocationLeaseMonitor.ts:35-44 | finish checks the clock, stops renewals, and awaits exactly a renewal in flight |
| `LeaseMonitor.FinishIsInTime` | acs-orchestrator/src/invocationLeaseMonitor.ts:35-44 | a finish without failure was called, and saw its renewal done, more than the margin before a persisted deadline; onFailure fires at most once |
| `LeaseMonitor.OneAnswer` | acs-orchestrator/src/invocationLeaseMonitor.ts:35-44 | all finish() calls of a run, those after close included, return one answer, and no failure is backed by a call that was in time |
| `LeaseMonitor.ExpiredNeverRearmed` | acs-orchestrator/src/invocationLeaseMonitor.ts:46-69 | the limit moves only by a renewal confirmed before the old limit and before failure or finish |
| `LeaseMonitor.FailureIsFinal` | acs-orchestrator/src/invocationLeaseMonitor.ts:71-80 | over every timed run, once failed or closed no later event changes the failure or reports another |
| `LeaseAlarms.AlarmDecides` | acs-orchestrator/src/invocationLeaseMonitor.ts:21-80 | exactly when a failure is reported and which: a start within five seconds of the deadline, a rejected renewal, one confirmed too late, the expiry timer, or a finish at or after the limit, on a monitor neither failed nor closed |
| `LeaseAlarms.AlwaysOnWatch` | acs-orchestrator/src/invocationLeaseMonitor.ts:26-70 | after every event sequence a started, open monitor that has reported nothing has its expiry armed at its limit and, until finish, its renewals armed |
| `LeaseAlarms.RenewalDecides` | acs-orchestrator/src/invocationLeaseMonitor.ts:46-58 | the renewal timer starts one renewal at a time, for two minutes from now |
| `LeaseAlarms.NoRenewalOffWatch` | acs-orchestrator/src/invocationLeaseMonitor.ts:46-47 | before start and after a failure, finish or close no renewal starts |
| `LeaseAlarms.RenewalEnds` | acs-orchestrator/src/invocationLeaseMonitor.ts:54-57 | a settled renewal, accepted or rejected, is no longer in flight |
| `LeaseAlarms.LimitDecides` | acs-orchestrator/src/invocationLeaseMonitor.ts:49-69 | exactly a start in time and a renewal confirmed before the limit on a monitor on watch move the limit, to five seconds before the new deadline |
| `LeaseAlarms.FinishDecides` | acs-orchestrator/src/invocationLeaseMonitor.ts:35-44 | finish returns at once exactly on a closed monitor or without a renewal in flight, with the failure known then |
| `LeaseAlarms.ResumeDecides` | acs-orchestrator/src/invocationLeaseMonitor.ts:40-43 | a waiting finish returns exactly once the renewal is done or a failure is known, with that failure and the monitor closed |
| `Cidr.ParseIpv4` | acs-orchestrator/src/cidr.ts:17-28 | the loop reads exactly four octets as one 32-bit number or nothing |
| `Cidr.ReadableAddress` | acs-orchestrator/src/cidr.ts:17-28 | exactly four dot-separated groups of one to three digits worth at most 255 are read, most significant first |
| `Cidr.ReadablePrefix` | acs-orchestrator/src/cidr.ts:34-47 | exactly an address, a slash and a length of one or two digits up to 32 are read, and the network is the address rounded down to its block |
| `Cidr.AddressRoundTrip` | acs-orchestrator/src/cidr.ts:17-32 | formatting an address and parsing it gives the address |
| `Cidr.MaskedAddress` | acs-orchestrator/src/cidr.ts:43-45 | the shifted mask rounds an address down to its block |
| `Cidr.ParsedIsCanonical` | acs-orchestrator/src/cidr.ts:34-47 | every parsed prefix is canonical |
| `Cidr.PrefixRoundTrip` | acs-orchestrator/src/cidr.ts:34-47 | the canonical text of a prefix parses to the prefix |
| `Cidr.MatchesIsBlock` | acs-orchestrator/src/cidr.ts:49-60 | a canonical prefix matches exactly the addresses of its block |
| `Cidr.OverlapIsSharedAddress` | acs-orchestrator/src/cidr.ts:62-66 | the overlap test holds exactly when some 32-bit address lies in both prefixes |
| `SharedCidrs.CheckSharedCidrs` | acs-orchestrator/src/config.ts:629-643 | the nested loop accepts exactly lists of prefixes no wider than /24 that do not overlap pairwise |
| `SharedCidrs.AtMostOnePrefix` | acs-orchestrator/src/config.ts:629-643 | an address matches at most one prefix of an accepted list |
| `SharedCidrs.CapacityCountsAddresses` | acs-orchestrator/src/config.ts:501-508 | the sum of 2^(32-p) over an accepted list is the number of distinct addresses it covers |
| `SharedCidrs.RunningSandboxRange` | acs-orchestrator/src/config.ts:501-508 | the range is 0 to 10000 without shared prefixes, and otherwise 1 to the capacity of the readable configured texts, at most 10000 |
| `SharedCidrs.RangeCountsAddresses` | acs-orchestrator/src/config.ts:501-508 | stored as canonical texts and read back, an accepted list bounds the sandbox count by its distinct addresses |

## Left out

- Record fields that decide nothing here: phase, phase deadline, reason code, creation time and the JSON shape checks, and the journal's byte budget.
- HMAC, SHA-256, base64, JSON and date syntax: a document is authentic when its signer is the expected fence, dates are integers, and a lease annotation is identified by its invocation key.
- The answer of `hasUnresolvedChildren` is any boolean at each completion; the theorems hold whichever it is.
- The local registry may forget any terminal operation without live children; that it keeps the newest sixteen is not modelled.
- Finalization after a fenced final frame whose receipt is reserved, running or stop_requested keeps the original metadata (`authenticatedRunnerResult.ts:31-33`); the runner model takes the response after that step, so a terminal there is a response not marked unknown.
- Two-observation absence (`sandboxAbsence.ts`): its conclusion is the step that makes a uid vanish; the function itself is a short case analysis.
- The reconciler's log throttling and its follow-up calls to the sandbox manager after a settlement.
- Singleflight work whose operation is settled by a remote receipt or an absent sandbox; the model's leaders settle only through the proofs of the shared layer.
- The process-local commit lock of the deletion generation: safety does not rest on it.
- Network reclaim by name with several deleters at a time: `ReclaimHoldsName` covers one at a time. Polling until the object is absent.
- `mountSubPath` comparison across storage ids, resource quantity parsing, the MiB conversion of the memory limit and the sort key of eviction candidates: usages are given and the order is arbitrary.
- Capacity: sandboxes created outside the reservations, and limits that change at run time.
- A second `start` on one lease monitor, and the interval of its renewal timer.
- stdout framing, heartbeats and process supervision of the persistent runner.
- Liveness: unknown operations and recovery loops wait or retry without a bound by design.
- HTTP routing, alerts, diagnostics, manifests, background shell workers, web, mobile and scripts.
