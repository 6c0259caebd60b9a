# Durable state of the collaboration knowledge base

This project models the parts of the repository that keep authorization facts, activation
decisions and work queues in files, and proves what those files can and cannot say after any
run. It is a Dafny 4.11 project; `dafny verify dfyconfig.toml` checks all of it.

| files | subject |
|---|---|
| `LedgerTypes`, `AccessLedger`, `LedgerProtocol`, `LedgerSafety`, `LedgerTheorems`, `LedgerRecovery`, `LedgerRefinement`, `LedgerSettlement`, `LedgerReceipts`, `LedgerProgress` | access grants: leases, tenant epochs, the seven-step revocation, crashes and recovery, lock-free queries |
| `Activation`, `ActivationSafety`, `ActivationTheorems`, `ActivationEffects` | the activation wizard: nine phases, three confirmations bound to facts, drift, history |
| `RuntimeContract`, `NightlyRun` | how nightly settings are resolved, by the wizard and by the program it hands off, and what a handoff promises |
| `AtomicFile`, `AtomicProtocol`, `AtomicProgress` | atomic writes, compare-and-swap, leftovers |
| `BindingProtocol`, `BindingProgress`, `BindingRotation`, `RotationProtocol`, `RotationTheorems`, `RotationResolution`, `Credential` | agent bindings, snapshots, secret rotation by one operator and by several, credential references |
| `Collection`, `CollectionRun`, `CollectionOrder`, `Backfill` | incremental selection, its order, queue conservation, round-robin backfill |
| `Clustering`, `ClusteringMeaning` | merging validated batches of events |
| `CatalogProvider` | the double read of the version catalog |
| `Wrappers` | optional values |

How it is built:

- Code that edits a document or a directory in place is a class whose methods are proved
  against a specification function; the theorems are lemmas about those functions.
- Code that several processes run at once is a state machine. One action is one read or one
  atomic write, a run is any sequence of actions, and a theorem about runs is about every
  interleaving with a crash of any process between any two actions.
- SHA-256, HMAC and canonical JSON (section 3.2 of RFC 8785) are taken as injective, so a
  digest is represented by what it digests. Clocks, fresh ids and answers of the operating
  system, the network and the models are parameters. Ids and texts whose content does not
  matter are numbers.

## Where the code does less than its documentation says

Each of these is proved, with the exact condition where there is one.

- Observing a discovered grant again can make it granted although the observation claims only
  discovered (`DiscoveredReobservation`), and it brings a stale active grant back to the
  current epoch without a receipt (`ObservationRevivesStaleGrant`).
- A crash right after a grant is marked loses the revocation's event for ever (`LostEvent`); a
  crash between steps 5 and 6 can leave a receipt whose task digest matches no file
  (`ReceiptNamesTheTask`, `ReceiptOfALaterTime`: exactly when the copy it vouches for was built
  at another time than the task was queued).
- Recovery depends on the order of the journals: one of them can move the epoch past another's
  tombstone, which then never gets its receipt (`RecoveryIsOrderDependent`,
  `DriftIsPermanent`). The grant stays revoked throughout.
- A recorded schedule can carry the handoff of an earlier pilot than the confirmed one
  (`RecordedHandoffPilot`, `HandoffMayNameAnOlderPilot`); a phase that asks for reconfirmation
  can show an enabled task (`DriftLeavesTheTask`); a refused pilot or discovery overwrites its
  artifacts (`RefusedCommands`).
- The handed-off program does not use the contract's values where the configuration has a null,
  where nobody sets a publication id, or where a variable is set to nothing; a blank limit ends
  it, and so does a missing key (`NightlyRun.HandoffDescribesTonight`).
- An atomic write is visible from its rename on, one step before the point that its docstring
  names, also when the caller never gets a receipt (`Directory.WriteAtomic`,
  `Directory.CasWrite`); its exclusive mode is exclusive only under the lock
  (`ExclusiveNeedsTheLock`).
- A snapshot built around a revocation is accepted with the old binding (`TornSnapshot`), and a
  revocation that dies before its bump leaves snapshots accepted after recovery
  (`CrashLeavesSnapshotsAccepted`); `WhenSnapshotsAreRight` gives the exact windows. The label
  of a rebind can land on another entry (`LabelMarksItsOwnBind`).
- A binding call looks for a rotation once, so it can commit during one
  (`WhoChangesResolution`); a rotation does not check that material is new
  (`OldBindingsStopResolving`, `ReusedMaterialCutsOff`); a lookup reads the key state twice, so
  it can miss an agent that is bound throughout (`LookUpAcrossRotation`); a death before the last
  bumps leaves snapshots accepted although nothing resolves (`CutOffButAccepted`).
- Rotation commands take no lock, so with two of them the epoch can fall, a rotation can be
  undone and material can be replaced (`EpochFallsBack`, `RotationUndone`, `MaterialReplaced`):
  exactly when a command writes after it was overtaken (`SecretEpochsOnlyGrow`), and never when
  an operator lets one command run at a time (`OneCommandIsSafe`). Such a write, or a death
  between material and key state, blocks all later rotations (`WhenJammed`, `StuckForever`);
  recovery neither completes nor rolls back a rotation. A credential rotation has a similar gap
  (`HalfFinalizedForever`).
- A queued new report can be dropped unread after being taken for a continuation
  (`LostFromTheQueue`, `QueuedNewReportIsLost`, `TwoDaysThatLoseAReport`), and a backfill report can reach that state
  after a failed read (`BackfillBecomesDaily`).

## Model

| member | source | states |
|---|---|---|
| LedgerTypes.ObserveNeverEscalates | scripts/cwk_access_ledger.py:1105-1222 | An observation keeps the lease, takes the observed access and the tenant's epoch, moves a status only from discovered to granted, never makes a grant active, and is refused exactly for terminal grants |
| LedgerTypes.DiscoveredReobservation | scripts/cwk_access_ledger.py:1148-1177 | A discovered grant observed again as discovered is rewritten exactly when its access changed, and then becomes granted (the docstring promises that only for an observation that claims granted) |
| LedgerTypes.ObservationRevivesStaleGrant | scripts/cwk_access_ledger.py:1153-1188 | An active grant behind its tenant's epoch returns to the current epoch without any receipt exactly when its access changed; its lease stays |
| LedgerTypes.LeaseIsBounded | scripts/cwk_access_ledger.py:997-1005 | A lease is in whole seconds, ends no later than the receipt and within fifteen minutes, and less than a second before the earlier bound |
| LedgerTypes.PromotionIsLegal | scripts/cwk_access_ledger.py:1325-1372 | Promotion starts only from a status the table allows, takes access and source from the receipt, and grants a lease bounded by receipt and cap |
| LedgerTypes.ObservationInShort | scripts/cwk_access_ledger.py:1139-1188 | A live grant is rewritten exactly when it moves from discovered to granted or its access changed; what a rewrite changes, field by field, that it touches neither lease nor creation, and what a first observation creates |
| LedgerTypes.LeaseIsTheLatest | scripts/cwk_access_ledger.py:997-1005 | The lease ends at the last whole second that is neither after the requested time nor after the receipt's own expiry |
| LedgerTypes.PromotionInShort | scripts/cwk_access_ledger.py:1325-1372 | Promotion starts exactly from granted or due, a refresh from active or due, with a ttl of 30 to 900 seconds; what it changes, with the longest lease that was asked for and authorized |
| LedgerTypes.MarkDueInShort | scripts/cwk_access_ledger.py:1430-1449 | Only an active grant is marked due; it stops being active and keeps lease, epoch and access |
| LedgerTypes.RevocationIsAlwaysLegal | scripts/cwk_pr001_contracts.py:1128-1136 | Revocation is legal from exactly the four live statuses, and nothing but purging follows it |
| AccessLedger.Ledger.IntentExistsFor | scripts/cwk_access_ledger.py:1729-1756 | The journal scan finds a pending revocation of a grant exactly when there is one |
| AccessLedger.Ledger.FindCompletedReceipt | scripts/cwk_access_ledger.py:1762-1783 | The receipt scan returns a receipt of the grant, and none exactly when there is none |
| AccessLedger.Ledger.Observe | scripts/cwk_access_ledger.py:1032-1222 | Exactly when observing is refused; otherwise the grant written and the event logged, and nothing else |
| AccessLedger.Ledger.Promote | scripts/cwk_access_ledger.py:1282-1399 | Promotion succeeds exactly under receipt, tenant, journal, tombstone, status and ttl checks; the new grant and event |
| AccessLedger.Ledger.MarkRevalidationDue | scripts/cwk_access_ledger.py:1401-1467 | Succeeds exactly for an active grant with no revocation pending; the new grant and event |
| AccessLedger.Ledger.CompleteRevocation | scripts/cwk_access_ledger.py:1571-1727 | Steps 2 to 7 with a death after any number of durable writes end as the staged specification says |
| AccessLedger.Ledger.Revoke | scripts/cwk_access_ledger.py:1508-1557 | Refused without a write exactly when there is a tombstone, a journal, no grant, or one that is revoked or purged; otherwise the journal is the first write and steps 2 to 7 follow, and eight writes settle it, field by field; a repeated call returns the stored receipt |
| AccessLedger.Ledger.RecoverJournal | scripts/cwk_access_ledger.py:2109-2149 | Recovery of one journal: unlink when the receipt is there, else steps 2 to 7 |
| AccessLedger.Ledger.CheckQueryEligibility | scripts/cwk_access_ledger.py:1912-1957 | Answers with a grant exactly when epochs, tenant status, journals, tombstone, status and lease all allow it |
| AccessLedger.Ledger.AckCleanupTask | scripts/cwk_access_ledger.py:1830-1877 | One consumer leaves the task; the file goes exactly with the last consumer; other tasks stay |
| LedgerSafety.RunKeeps | scripts/cwk_access_ledger.py:1065-1727 | Every interleaving of observe, promote, refresh, mark-due, revoke, recover, query and acknowledgement, with crashes between any two actions, keeps the ledger's invariant |
| LedgerSafety.EmptyLedgerIsOk | scripts/cwk_access_ledger.py:699-714 | A fresh ledger satisfies the invariant |
| LedgerSafety.GrantWriteNeverConflicts | scripts/cwk_access_ledger.py:818-840 | A writer that holds the grant's lock finds the bytes it read: its compare-and-swap cannot fail |
| LedgerTheorems.RunEvolves | scripts/cwk_access_ledger.py:1571-1727 | Over every run tombstones, receipts and revoked grants are never rewritten, a journal disappears only behind a tombstone, and epochs only grow |
| LedgerTheorems.RevocationIsForever | scripts/cwk_access_ledger.py:1508-1557 | Once a revocation is on disk, every later state has a journal or a tombstone for that grant |
| LedgerTheorems.RevokedIsNeverEligible | scripts/cwk_access_ledger.py:1912-1957 | No eligibility check whose scan begins after that point returns the grant, although checks take no lock |
| LedgerTheorems.FactsAreImmutable | scripts/cwk_access_ledger.py:1628-1714 | No run changes a tombstone, a receipt or a tombstoned grant |
| LedgerTheorems.OneCommitPerGrant | scripts/cwk_access_ledger.py:1762-1783 | At most one transaction ever commits a receipt for a grant, and it is the one its tombstone names |
| LedgerTheorems.GrantNeverAhead | scripts/cwk_access_ledger.py:1616-1626 | No grant's epoch ever exceeds its tenant's |
| LedgerTheorems.RevokedIsBehindForever | scripts/cwk_access_ledger.py:1616-1636 | After step 3 a grant is strictly behind its tenant in every later state, whether or not this revocation did the bump |
| LedgerTheorems.EligibilityRestsOnAuthority | scripts/cwk_access_ledger.py:1282-1399 | A grant returned at time t rests on an accepted receipt that expires after t and was accepted less than 900 seconds before t |
| LedgerTheorems.OnlyPromotionExtends | scripts/cwk_access_ledger.py:1139-1467 | Every action but a promotion that holds the lock keeps each lease and makes no grant active |
| LedgerTheorems.MarkDueCommits | scripts/cwk_access_ledger.py:1417-1449 | Marking an active grant due commits exactly that change of its status, and marking any other commits nothing |
| LedgerTheorems.DueIsNotEligible | scripts/cwk_access_ledger.py:1401-1467 | Once a grant is not active, no query that has not read it by then returns it, in any interleaving, until a promotion of it commits |
| LedgerProgress.UndisturbedQuery | scripts/cwk_access_ledger.py:1912-1957 | From every state a query that nobody disturbs is answered exactly under the checks of the source, with the grant on disk |
| LedgerProgress.UndisturbedOperation | scripts/cwk_access_ledger.py:1065-1467 | From every state with the lock free, an undisturbed observation, promotion or downgrade writes what the operation makes of the grant exactly when it is admitted and nothing of a revocation is there |
| LedgerProgress.RevocationAlwaysPossible | scripts/cwk_access_ledger.py:1495-1557 | After any run, a caller who finds the lock free and a grant in any of the four live statuses without a journal revokes it: grant, tombstone, task and receipt are those of a settled revocation, no journal is left, and nothing else changed |
| LedgerProgress.CleanupFinishes | scripts/cwk_access_ledger.py:1830-1877 | A cleanup task is gone exactly when each of its consumers has acknowledged it, in any order and however often; until then it waits for exactly the others |
| LedgerSettlement.RunKeepsExact | scripts/cwk_access_ledger.py:1571-1727 | Over every interleaving each receipt says exactly what its grant and its tombstone say, each queued task bears its tombstone's header, and no tombstone lacks both journal and receipt |
| LedgerSettlement.SettledAsUninterrupted | scripts/cwk_access_ledger.py:1571-1727 | From any moment before the mark, through every interleaving of callers, recoveries, foreign bumps, acknowledgements and crashes: once the journal is gone, grant, tombstone and receipt are exactly those of an uninterrupted revocation at the epoch the tombstone names, and what is left of the task bears its header |
| LedgerSettlement.RecoverySettlesUnlessDrifted | scripts/cwk_access_ledger.py:2074-2150 | From any state of any run an undisturbed recovery settles an unreceipted journal exactly when the tenant's epoch has not moved since its tombstone |
| LedgerRecovery.LostEvent | scripts/cwk_access_ledger.py:1581-1614 | The event is written by the attempt that marks the grant or by none: a crash right after the mark loses it for ever |
| LedgerReceipts.EmptyLedgerTells | scripts/cwk_access_ledger.py:699-714 | A fresh ledger meets what the settlement and receipt theorems start from |
| LedgerReceipts.RunTells | scripts/cwk_access_ledger.py:1653-1702 | Over every run each queued task, each copy under way and each receipt carries the clock reading at which it was made |
| LedgerReceipts.ReceiptNamesTheTask | scripts/cwk_access_ledger.py:1653-1702 | Over every interleaving with acknowledgements and crashes, the copy that a receipt vouches for is the task on disk exactly when the process that wrote the receipt built its copy at the clock reading at which the task was last queued, against the byte-identity promised at 2158-2163 |
| LedgerReceipts.ReceiptOfALaterTime | scripts/cwk_access_ledger.py:1653-1714 | A revoker that dies between the queueing and its receipt, and a recovery at any later time: the receipt vouches for bytes that are not on disk |
| LedgerRecovery.DriftIsTheOnlyFailure | scripts/cwk_access_ledger.py:1616-1650 | Recovery of an unreceipted journal fails exactly when the tenant's epoch moved after its tombstone, and then writes nothing |
| LedgerRecovery.RecoveryIsOrderDependent | scripts/cwk_access_ledger.py:2074-2150 | A recovery leaves a journal exactly when it had drifted before, or when an earlier journal of the same recovery bumps the epoch past its tombstone |
| LedgerRecovery.DriftIsPermanent | scripts/cwk_access_ledger.py:2074-2150 | No later recovery ever settles a drifted journal |
| LedgerRefinement.RevocationIsARun | scripts/cwk_access_ledger.py:1571-1727 | One caller's steps 2 to 7 are a run of the concurrent protocol, failures included |
| LedgerRefinement.ReachableIsSound | scripts/cwk_access_ledger.py:1508-1727 | Every reachable state meets the assumptions of the recovery theorems |
| Activation.Wizard.InvalidateStale | scripts/activation_state.py:509-520 | Drops exactly the confirmations that no longer match the facts, and reports exactly those |
| Activation.Wizard.ApplyTransition | scripts/activation_state.py:762-809 | Refused exactly for pairs outside the table; otherwise one more revision and history entry, truncated at 512 |
| Activation.Wizard.CommitAfterGateLoss | scripts/activation_wizard.py:457-502 | A lost activation is recorded as an event; any other loss only raises the revision |
| Activation.Wizard.RunInit | scripts/activation_wizard.py:522-535 | Creates the state exactly when there is none |
| Activation.Wizard.RunStatus | scripts/activation_wizard.py:538-561 | What a status query stores when confirmations went stale |
| Activation.Wizard.RunConfirmDiscovery | scripts/activation_wizard.py:564-590 | Scope, confirmation and transition, or no change |
| Activation.Wizard.RunRecordDiscovery | scripts/activation_wizard.py:593-637 | The report of exactly the confirmed scope, or no change of the state; the report file is written also when the transition is then refused |
| Activation.Wizard.RunProposeProfile | scripts/activation_wizard.py:640-664 | The profile, after dropping what it makes stale |
| Activation.Wizard.RunConfirm | scripts/activation_wizard.py:667-803 | A gate is confirmed with the binding computed from the current facts |
| Activation.Wizard.RunSimple | scripts/activation_wizard.py:910-934 | Pause and resume, with the task's flag |
| Activation.Wizard.RunRecordPilot | scripts/activation_wizard.py:716-781 | The stored state, contract, rendering and receipt after a pilot, also when the transition is then refused |
| Activation.Wizard.RunScheduleHandoff | scripts/activation_wizard.py:806-868 | The handoff and the revision after all its checks |
| Activation.Wizard.RunRecordSchedule | scripts/activation_wizard.py:871-907 | The recorded task after all its checks |
| Activation.Wizard.RunCheckDrift | scripts/activation_wizard.py:937-1021 | What a drift check stores, in every branch |
| ActivationSafety.PreparingDropsNothing | scripts/activation_wizard.py:431-436 | In every committed state preparing a command drops no confirmation |
| ActivationSafety.RunKeepsGood | scripts/activation_state.py:377-860 | The invariant of facts, phases and history holds after every run of commands |
| ActivationSafety.CommittedStates | scripts/activation_state.py:484-520 | Every confirmation matches the current facts; an activation confirmation exists only in three phases; active and paused have one, a passing pilot and a task of the current contract, enabled exactly when active |
| ActivationSafety.CommittedHistories | scripts/activation_state.py:777-860 | Every history is a walk of the table ending in the current state, with growing revisions and length 1 to 512; the self-loop of a lost activation never occurs |
| ActivationSafety.CommitsAreNumbered | scripts/activation_wizard.py:457-468 | Every commit raises the revision by exactly one |
| ActivationSafety.StatusWritesNothing | scripts/activation_wizard.py:538-561 | The status command never writes in a reachable state |
| ActivationTheorems.RoadToActive | scripts/activation_wizard.py:564-907 | A run that ends active contains the five confirmations and receipts in order, each of exactly the facts now in the state, with a passing pilot of the current contract |
| ActivationTheorems.NoDeadEnd | scripts/activation_state.py:377-402 | From every reachable state some continuation becomes active |
| ActivationTheorems.WhatEachPhaseAllows | scripts/activation_wizard.py:522-1021 | In every reachable state a command is carried out exactly when its phase and facts allow it, command by command |
| ActivationEffects.WhatACommandStores | scripts/activation_wizard.py:522-1003 | In every reachable state a command leaves the state file alone or stores exactly the state of a plain wizard that keeps no books on stale confirmations: every field of every command |
| ActivationEffects.WhatACommandWrites | scripts/activation_wizard.py:593-882 | And the five artifacts: which command writes which, when, and with what |
| ActivationEffects.WhatTheFirstCommandStores | scripts/activation_wizard.py:522-535 | Before anything is installed only init stores anything, and what it stores |
| ActivationEffects.StatusRepairs | scripts/activation_wizard.py:468-561 | Of any state file, edited by hand or not: the status command drops exactly the confirmations that are not of the current facts, writes nothing where it drops none, and puts a lost activation on record |
| ActivationEffects.TheTaskThatRuns | scripts/activation_wizard.py:857-1003 | Of every run that ends active or paused: the recorded task is the one of the last accepted record-schedule; an unchanged drift check that observes it commits nothing, and with any other task it revokes the activation |
| ActivationTheorems.DriftIsFlagged | scripts/activation_wizard.py:983-1012 | Whenever a drift check commits, it moves to reconfirmation and revokes the activation; the silent self-loop is never taken |
| ActivationTheorems.DriftLeavesTheTask | scripts/activation_wizard.py:983-1003 | A drift check never touches the recorded task, so reconfirmation says enabled exactly when the task was enabled |
| ActivationTheorems.ScheduledHandoffHasSomePilot | scripts/activation_wizard.py:878-907 | The recorded handoff names a passing pilot of the current contract |
| ActivationTheorems.RecordedHandoffPilot | scripts/activation_wizard.py:878-907 | Of every run that ends active: the recorded handoff names the pilot that was the last accepted one at the last handoff, and that is the current pilot exactly when the last accepted pilot of the run left the same receipt |
| ActivationTheorems.PilotAtTheLastHandoff | scripts/activation_wizard.py:806-907 | The same with the run split at its last successful handoff |
| ActivationTheorems.HandoffMayNameAnOlderPilot | scripts/activation_wizard.py:878-887 | From every confirmed state a run ends active with the handoff of the pilot before the last |
| ActivationTheorems.RerunPilot | scripts/activation_contract.py:1575-1577 | A rerun pilot keeps the activation confirmed exactly when settings and evidence are the same |
| ActivationTheorems.RefusedCommands | scripts/activation_wizard.py:611-750 | A refused command leaves the state alone but changes the discovery report, the contract, its rendering or the pilot receipt exactly when its confirmation check passes, its phase takes no such result and the file said something else |
| AtomicFile.WriteAll | scripts/cwk_atomic_file.py:333-342 | The write loop stores a prefix through short writes and interruptions, and all of it exactly when the system takes enough |
| AtomicFile.WritableNames | scripts/cwk_atomic_file.py:363-393 | A final name must leave room for the temporary one: at most 102 characters |
| AtomicFile.Directory.CreateTemp | scripts/cwk_atomic_file.py:396-414 | At most eight temporary names are tried; an existing file is never touched |
| AtomicFile.Directory.WriteAtomic | scripts/cwk_atomic_file.py:367-455 | The named file changes at the rename to exactly the new bytes; each ending before it leaves the directory as it was apart from a crash's leftover, each ending after it leaves the new bytes with or without a receipt; when each ending occurs |
| AtomicFile.Directory.CasWrite | scripts/cwk_atomic_file.py:458-498 | Writes exactly over the expected bytes, conflicts otherwise; the new bytes are visible without a receipt exactly when the call stops after the rename |
| AtomicFile.Directory.RecoverOrphans | scripts/cwk_atomic_file.py:548-567 | Removes every leftover and nothing else |
| AtomicFile.SweepUndoesACrash | scripts/cwk_atomic_file.py:548-567 | A write that died and was swept leaves no trace; sweeping is idempotent |
| AtomicProtocol.NoLostUpdate | scripts/cwk_atomic_file.py:458-540 | Among lock-holding writers that read outside the lock, the file always holds the last complete commit, and each commit replaced exactly the bytes its writer read |
| AtomicProtocol.CommitsAreWhole | scripts/cwk_atomic_file.py:416-455 | Each commit stores the whole data of one call |
| AtomicProtocol.ExclusiveCommitsOnce | scripts/cwk_atomic_file.py:389-390 | Of exclusive writers that hold the lock at most one succeeds |
| AtomicProtocol.ExclusiveNeedsTheLock | scripts/cwk_atomic_file.py:389-390 | Without the lock two exclusive writers can both succeed, because check and rename are two steps |
| AtomicProtocol.SweepRemovesOnlyTemps | scripts/cwk_atomic_file.py:548-567 | A sweep at any moment removes the listed leftovers only |
| AtomicProgress.UndisturbedWrite | scripts/cwk_atomic_file.py:367-498 | From any state with the lock free, a writer that nobody disturbs succeeds, through short writes and up to seven taken names, and leaves exactly its bytes and one more commit; an exclusive one does so exactly where no file is |
| AtomicProgress.NoNameLeft | scripts/cwk_atomic_file.py:396-414 | Eight taken names end a call, and nothing is left of it |
| AtomicProgress.WhatAnEndLeaves | scripts/cwk_atomic_file.py:416-455 | A call that fails takes its temporary file with it, one that dies leaves it; either lets go of the lock and leaves the file alone |
| BindingProtocol.RunKeeps | scripts/cwk_agent_binding.py:1318-1405 | Every interleaving of binds, status changes, whole rebinds, credential commits, snapshots, recoveries and crashes keeps the invariant; epochs and the log only grow |
| BindingProtocol.BindsAlternate | scripts/cwk_agent_binding.py:809-956 | Between two successful binds of one agent there is a committed revocation or rebind-out, even under concurrent binders |
| BindingProtocol.BindingEpochIsACount | scripts/cwk_agent_binding.py:1225-1226 | The binding epoch is the number of committed mutations |
| BindingProtocol.WhatACallCommits | scripts/cwk_agent_binding.py:805-1060 | In every run, what a bind, rebind, revocation, suspension or reactivation has committed is what it was asked for: the tenant, the status, one more epoch, from the status it needs |
| BindingProgress.UndisturbedMutation | scripts/cwk_agent_binding.py:1189-1290 | From any state, a revocation, suspension or reactivation that nobody disturbs succeeds exactly from the statuses it needs, and every field and file it leaves; otherwise it changes nothing |
| BindingProgress.UndisturbedBind | scripts/cwk_agent_binding.py:809-956 | From any state, a bind that nobody disturbs succeeds exactly where the agent is unbound or revoked, and binds it to the tenant asked for |
| BindingProgress.UndisturbedRebind | scripts/cwk_agent_binding.py:1009-1061 | From any state, a rebind that nobody disturbs ends bound to the new tenant, two epochs on, labelled, with both tenants' epochs bumped |
| BindingProgress.UndisturbedContext | scripts/cwk_agent_context.py:138-188 | A context that nobody disturbs is granted exactly to a bound agent, with the current epoch and record, and changes nothing |
| BindingProgress.OneRetry | scripts/cwk_agent_binding.py:1383-1405 | A bump overtaken once is tried again and then counts on top of the other; overtaken twice the call dies without a bump of its own, its journal left behind |
| BindingProtocol.SnapshotsGoStale | scripts/cwk_agent_context.py:161-188 | A snapshot complete before a binding or credential mutation began is refused by every check after that mutation returns, through the retry, for both tenants of a rebind |
| BindingProtocol.WhenSnapshotsAreRight | scripts/cwk_agent_context.py:161-188 | A held snapshot is accepted exactly when its tenant was not bumped since the second read, and its binding is current exactly when nothing was committed since the first |
| BindingProtocol.AcceptedMeansNoBumpYet | scripts/cwk_agent_binding.py:1318-1405 | While a snapshot is accepted, a call that changed the record after the second read has not got past its bump, or it died |
| BindingProtocol.HeldSnapshots | scripts/cwk_agent_context.py:170-180 | A held snapshot is never ahead of its tenant |
| BindingProtocol.TornSnapshot | scripts/cwk_agent_context.py:170-171 | A revocation between the two reads of a snapshot leaves the old binding with the new epoch, accepted |
| BindingProtocol.CrashLeavesSnapshotsAccepted | scripts/cwk_agent_binding.py:1160-1183 | A revocation that dies before its bump and is then swept leaves every snapshot accepted |
| BindingProtocol.LabelMarksItsOwnBind | scripts/cwk_agent_binding.py:1009-1061 | In every run, when a rebind commits its label, the entry it marks is that of its own bind exactly when no mutation was committed since that bind |
| BindingProtocol.LabelOnARevocation | scripts/cwk_agent_binding.py:1292-1316 | A revocation between the bind and the label of a rebind ends with a revoked record labelled as rebound |
| BindingRotation.Secrets.Resolve | scripts/cwk_agent_binding.py:749-802 | Resolves exactly an active binding, of a tenant whose status permits the purpose, found under the current or, during a rotation, the next material |
| BindingRotation.Secrets.Mutate | scripts/cwk_agent_binding.py:828-956 | Undisturbed, a bind or a change of status succeeds exactly when no rotation is under way, the tenant permits it and the record allows it; the record it writes |
| BindingRotation.Secrets.RotateBegin | scripts/cwk_agent_binding.py:529-559 | Refused exactly when a rotation is under way or the next epoch has material; what each death leaves; it gets stuck exactly by dying after its first write |
| BindingRotation.Secrets.RotateFinalize | scripts/cwk_agent_binding.py:561-580 | Promotes the next epoch exactly from a rotation under way |
| BindingRotation.Secrets.TombstoneOld | scripts/cwk_agent_binding.py:1407-1427 | Moves exactly the records of the old epoch with two writes each; a death leaves each in place, copied or moved |
| BindingRotation.Secrets.BumpOwners | scripts/cwk_agent_binding.py:1145-1148 | Bumps the listed tenants once each in sorted order; a death after k bumps has done exactly the first k |
| BindingRotation.Secrets.RotateSecret | scripts/cwk_agent_binding.py:1063-1154 | The whole rotation of one operator with a death after any write: what is written, when it is finalized, what is moved, and exactly which tenants are bumped |
| BindingRotation.CutOffButAccepted | scripts/cwk_agent_binding.py:1135-1148 | After a rotation to new material that dies after n writes, an agent that resolved leads nowhere while a snapshot of its tenant is still accepted, exactly when 3 <= n <= 3 + 2 * (records moved) + (owners that sort before the tenant) |
| BindingRotation.UnchangedWhileDual | scripts/cwk_agent_binding.py:749-779 | Beginning changes what an agent leads to exactly when it led nowhere and the new material already has its record |
| RotationResolution.WhatChangesResolution | scripts/cwk_agent_binding.py:749-779 | Between begin and finalize an action of anyone who is not overtaken changes what an agent leads to exactly when it commits, or unlinks, at the place where the agent is looked up |
| RotationResolution.ResolvesAsBeforeWhileDual | scripts/cwk_agent_binding.py:749-779 | Over any such run, what an agent leads to stays the same throughout exactly when nothing touches that place |
| RotationResolution.LookUpAcrossRotation | scripts/cwk_agent_binding.py:699-779 | A lookup reads key state and records at four moments: it answers as at its first or third read, except exactly when the rotation is finalized between them and the agent has a record under the next material only; then it finds nothing, against the single snapshot promised at 1087-1088 |
| RotationResolution.WhoChangesResolution | scripts/cwk_agent_binding.py:727-743 | Only the commit of a call that passed its check before begin, or an earlier rotation's unlink under reused material, ever touches it |
| RotationResolution.LateBindChangesResolution | scripts/cwk_agent_binding.py:828-956 | A call computed before begin commits during the rotation and changes what its agent leads to |
| RotationResolution.ReusedMaterialCutsOff | scripts/cwk_agent_binding.py:1407-1427 | An earlier rotation's unlink cuts off an agent bound again under reused material |
| BindingRotation.OldBindingsStopResolving | scripts/cwk_agent_binding.py:561-580 | After finalize a binding from before resolves exactly when its agent has a record under the same material |
| BindingRotation.FreshMaterialCutsEveryone | scripts/cwk_agent_binding.py:1135-1142 | With unused material nothing resolves after finalize, moved or not |
| BindingRotation.SameMaterialCutsNoOne | scripts/cwk_agent_binding.py:529-559 | With the old material finalize cuts no one off |
| RotationResolution.RotationCutsOff | scripts/cwk_agent_binding.py:1125-1142 | A finalized rotation to new material leaves every agent without a record under the current or the next material |
| RotationResolution.CutOffUntilBoundAgain | scripts/cwk_agent_binding.py:1125-1142 | Such an agent leads nowhere until bound again, through any further rotations to fresh material by operators who do not overtake each other, deaths and late commits of other calls |
| BindingRotation.RecordsAreConserved | scripts/cwk_agent_binding.py:1407-1427 | No record is lost by a rotation that dies while moving |
| RotationProtocol.HarmIsOvertaking | scripts/cwk_agent_binding.py:473-580 | An action moves the rotations back or replaces material exactly when it is a write of an overtaken command: the key state moved twice since the command read it, or another put other material where it saw none; every other action keeps the invariant |
| RotationProtocol.SecretEpochsOnlyGrow | scripts/cwk_agent_binding.py:473-580 | Over every run of rotation commands, lone finalizes and binding calls, the epoch never falls, no rotation is undone and no material is replaced exactly when no command writes after it was overtaken |
| RotationTheorems.NewRegistryIsOk | scripts/cwk_agent_binding.py:529-580 | A new registry with nothing under way meets the invariant |
| RotationTheorems.OneCommandIsSafe | scripts/cwk_tenant_cmd_binding.py:431-489 | An operator who starts a rotation command only while no other is under way is never overtaken, whatever dies |
| RotationTheorems.EpochFallsBack | scripts/cwk_agent_binding.py:561-580 | Two lone finalizes read one rotation; after the next rotation the second write makes the current epoch fall, and the store is stuck although nobody died |
| RotationTheorems.RotationUndone | scripts/cwk_agent_binding.py:561-580 | Landing on a rotation that has begun, that write undoes it, and the store is stuck although nobody died |
| RotationTheorems.MaterialReplaced | scripts/cwk_agent_binding.py:473-477 | Two rotations that begin at once both see no material: the second rename replaces what the first put there and has begun to rotate to |
| RotationTheorems.StuckForever | scripts/cwk_agent_binding.py:541-551 | After any run, a store with material of the next epoch and no rotation never moves its key state again, in any continuation, exactly when no command from before can still move it |
| RotationTheorems.WhenJammed | scripts/cwk_agent_binding.py:529-580 | In any state of any run, a store is jammed exactly when the last command that could still move on dies, or a finalize writes where the next epoch has material already and nobody else can move |
| RotationTheorems.WhenStuck | scripts/cwk_agent_binding.py:529-580 | While nobody has done harm, the second of these is exactly the write of an overtaken finalize |
| Credential.References.Apply | scripts/cwk_credential_broker.py:517-806 | Which requests are allowed and what each stores, with a death after any write |
| Credential.References.Lease | scripts/cwk_credential_broker.py:1163-1204 | A lease needs a purpose that the tenant's status permits, a usable reference with no rotation under way, and a backend that knows it |
| Credential.CommitsAreNumbered | scripts/cwk_credential_broker.py:921-974 | Each commit raises the credential epoch by one and appends its entry; a returned one raised the tenant's epoch |
| Credential.RunOk | scripts/cwk_credential_broker.py:517-892 | Over every run the history numbers the commits 1, 2, 3 and a rotation is under way exactly while the status says so |
| Credential.WhenHalfFinalized | scripts/cwk_credential_broker.py:739-752 | A finalize leaves its old reference filed and the record unmoved exactly when it dies in its first two writes |
| Credential.WhatIsGranted | scripts/cwk_credential_broker.py:517-895 | What each granted request makes of the reference, its rotation, status, epoch and history |
| Credential.WhatADeathLeaves | scripts/cwk_credential_broker.py:921-994 | What is on disk after a request dies at any of its writes; which requests are refused, and that those write nothing |
| Credential.HalfFinalizedForever | scripts/cwk_credential_broker.py:739-752 | From there every request but setting the reference is refused for ever |
| Credential.OffUntilSet | scripts/cwk_credential_broker.py:830-892 | A disabled or revoked reference is not leased until it is set anew |
| Credential.RotationRoundTrip | scripts/cwk_credential_broker.py:639-806 | A completed rotation serves the new reference and files the old one under its epoch |
| Credential.MaterialLease.Install | scripts/cwk_credential_broker.py:1053-1058 | The lease owns a copy of the material and carries it in its environment |
| Credential.MaterialLease.Exit | scripts/cwk_credential_broker.py:1063-1075 | Every byte of the material is overwritten and the environment is emptied |
| Collection.DedupePending | scripts/cwk_collection_state.py:190-202 | Each id once and no missing id, at the place of its first occurrence with the value of its last |
| CollectionRun.ChooseIncremental | scripts/cwk_collection_state.py:205-276 | The selection, the overflow and the four counts |
| CollectionRun.CountsAddUp | scripts/cwk_collection_state.py:232-237 | The counts add up to the reports that were not queued |
| CollectionRun.CapsHold | scripts/cwk_collection_state.py:268-276 | The detail cap and the continuation cap hold |
| CollectionRun.ContinuationsWait | scripts/cwk_collection_state.py:268-272 | A continuation is read only when every new and updated report is |
| CollectionRun.PriorityHolds | scripts/cwk_collection_state.py:242-252 | No fresh report that overflowed sorts before one that was read |
| CollectionOrder.ReadingOrder | scripts/cwk_collection_state.py:241-277 | A run reads replies and workflow changes first, then updates, then new reports, then continuations, those never processed first and then those processed longest ago, ties by id |
| CollectionOrder.UnreadComesLater | scripts/cwk_collection_state.py:241-277 | What is left unread comes later in that order than everything that was read |
| CollectionOrder.HowManyAreRead | scripts/cwk_collection_state.py:268-273 | How many reports a run reads: all new and updated ones and as many continuations as their cap allows, up to the detail cap |
| CollectionOrder.Classes | scripts/cwk_collection_state.py:141-163 | How a report is classified, told from records, cutoff, fingerprint and scopes |
| CollectionOrder.WhatRequeueingKeeps | scripts/cwk_collection_state.py:216-232 | A queued entry is refreshed from the row that the source shows, and keeps its class when nothing changed |
| CollectionRun.FreshIsKept | scripts/cwk_collection_state.py:273-276 | Every fresh report is selected or overflows into the queue |
| CollectionRun.ContinuationIsRead | scripts/cwk_collection_state.py:254-272 | A continuation is read exactly when its rank among the continuations is within the room that the caps leave |
| CollectionRun.LostFromTheQueue | scripts/cwk_collect_live.py:367-449 | After a run a queued daily report is neither recorded nor queued exactly when it was not recorded before, the run takes it for a continuation whose rank is beyond the room, and the backfill page does not bring it |
| CollectionRun.QueuedNewReportIsLost | scripts/cwk_collect_live.py:367-462 | In every two runs of which the first queues a new report for lack of room and the second has no room for it as a continuation, the report is gone, although overflow is meant to persist |
| CollectionRun.TwoDaysThatLoseAReport | scripts/cwk_collect_live.py:367-462 | Two ordinary days do it: two reports and room for one, then one more report |
| CollectionRun.Collector.ChooseBackfill | scripts/cwk_collection_state.py:279-284 | The backfill queue and its split at the cap |
| CollectionRun.Collector.Collect | scripts/cwk_collect_live.py:367-462 | The state file after one run |
| CollectionRun.FreshIsConserved | scripts/cwk_collect_live.py:367-449 | Every report classified new or updated is read now or saved in the queue |
| CollectionRun.BackfillIsConserved | scripts/cwk_collect_live.py:416-449 | Every queued or fetched backfill id is recorded or still queued |
| CollectionRun.ReadAgainOnlyWhenChanged | scripts/cwk_collection_state.py:148-168 | A report that was read is new or updated again exactly when its fingerprint changes |
| CollectionRun.QueueStaysGood | scripts/cwk_collect_live.py:449 | The saved queue has each id once; the caps bound the whole selection |
| CollectionRun.DailyQueueStaysTyped | scripts/cwk_collect_live.py:416-449 | Every daily entry of the queue is new, updated or a continuation |
| CollectionRun.BackfillBecomesDaily | scripts/cwk_collect_live.py:416-449 | An unrecorded backfill report leaves the backfill queue exactly when the daily selection took it and its read failed |
| Backfill.PickLane | scripts/cwk_collect_live.py:378-390 | The first lane with pages left in cyclic order, none exactly when all are exhausted |
| Backfill.Fair | scripts/cwk_collect_live.py:378-412 | A lane with pages left is visited within five backfill runs |
| Backfill.NoGaps | scripts/cwk_collect_live.py:391-411 | From any cursor the fetched pages are consecutive through failures and retries |
| Backfill.PagesFromTheStart | scripts/cwk_collect_live.py:391-411 | A lane's fetched pages are exactly 1 up to its cursor |
| Backfill.WhatAVisitDoes | scripts/cwk_collect_live.py:377-414 | One run touches only the first open lane from the cursor: what a failed, a short and a full page make of it, and where the cursor goes |
| Backfill.AllLanesEnd | scripts/cwk_collect_live.py:404-414 | Finite lanes are all exhausted exactly when as many requests succeeded as there are pages |
| RuntimeContract.ParseProjectEnv | scripts/activation_contract.py:555-588 | The first line that assigns a name wins |
| RuntimeContract.FirstLineWins | scripts/activation_contract.py:575-588 | Each name has the value of its first assignment |
| RuntimeContract.MergeRuntimeEnv | scripts/activation_contract.py:648-668 | The shell wins over the file, and each name's origin is reported |
| RuntimeContract.ResolvesByOrder | scripts/activation_contract.py:420-492 | In all five classes a value comes from the first layer of the class's order that speaks |
| RuntimeContract.WhereAValueComesFrom | scripts/activation_contract.py:555-731 | A resolved value is what its kind makes of the entry or of the variable that its source names, or the setting's default, and the source says truly whether the shell or the file gave it |
| RuntimeContract.WhenARunIsDescribed | scripts/activation_contract.py:690-731 | A contract is built exactly of known keys, no plain application key, settings that all resolve, a lookback of 0 to 31 days, and both publishing switches off |
| RuntimeContract.WhatAContractSays | scripts/activation_contract.py:690-731 | A contract is built exactly when the run is described with the shell and without it; it shows each setting as it resolves now, with its source, and names exactly those that would differ without the shell |
| RuntimeContract.WhatKindsMake | scripts/activation_contract.py:495-540 | What each kind of setting makes of each kind of value |
| RuntimeContract.WhenASettingResolves | scripts/activation_contract.py:447-510 | A setting cannot be resolved exactly when the entry or the text that decides it is of no use to its kind |
| RuntimeContract.ResolvesInTableOrder | scripts/activation_contract.py:671-702 | The settings resolve to the one sequence in which each follows from those before it; there is none exactly when such a sequence stops at a setting that cannot be resolved |
| RuntimeContract.ResolveAll | scripts/activation_contract.py:671-702 | The table is resolved in order; one unusable value stops it |
| RuntimeContract.NightlyTableOk | scripts/activation_contract.py:288-345 | Every derived default of the 41 settings refers to settings before it |
| RuntimeContract.WhichKindEachIs | scripts/activation_contract.py:288-340 | Of each of the 41 settings: its kind, hence how the contract shows it, its class of precedence and its variables |
| RuntimeContract.OnlyRegisteredNamesMatter | scripts/activation_contract.py:420-492 | Environments that agree on the registered names resolve to the same values |
| RuntimeContract.WhatTheContractShows | scripts/activation_contract.py:734-769 | The contract tells two secrets apart only by being set, names and paths only by their fingerprint, and everything else exactly |
| RuntimeContract.ShellIsTheReason | scripts/activation_contract.py:1690-1697 | A shell that sets no registered name but the allowed one never keeps a described run from being handed off |
| RuntimeContract.ShellMayHideTheFile | scripts/activation_contract.py:1119-1128 | A shell variable that hides a value of the file blocks the handoff exactly when its setting, of any class that reads the environment, reads different values from the two |
| NightlyRun.LoadLocalEnv | scripts/cwk_nightly_pipeline.py:26-41 | The program sees the file's first assignments under what the process already has |
| NightlyRun.RowsFit | scripts/cwk_nightly_pipeline.py:485-660 | Each of the 41 assignments of the program has the shape that its class in the contract's table stands for |
| NightlyRun.RunAgrees | scripts/cwk_nightly_pipeline.py:447-660 | The program's assignments, in its own order, end early exactly at a blank limit, and otherwise hold for each setting the wizard's value exactly where the two do not part |
| NightlyRun.HandoffDescribesTonight | scripts/cwk_nightly_pipeline.py:447-680 | After a successful handoff tonight's program starts to collect exactly when a key is given and no limit's variable is blank; it then holds exactly the confirmed value of a setting unless the configuration has a null for a text, nobody sets a publication id, or a model's variable is blank, and there it does not |
| Clustering.DedupeDicts | scripts/cwk_ai_event_clustering.py:41-49 | The first item of each text, in order |
| Clustering.DedupedItems | scripts/cwk_ai_event_clustering.py:41-49 | Deduplication invents no item and repeats no text |
| Clustering.GroupedKeeps | scripts/cwk_ai_event_clustering.py:279-283 | Grouping is a partition by anchor |
| Clustering.TopsAreMembers | scripts/cwk_ai_event_clustering.py:290-291 | Priority and status of a group are the most urgent of its members |
| Clustering.MergedIsValid | scripts/cwk_ai_event_clustering.py:285-316 | A merged group of valid events is valid |
| Clustering.MergedIsTraceable | scripts/cwk_ai_event_clustering.py:244-263 | Its evidence can still be traced to its records |
| ClusteringMeaning.GroupedMeans | scripts/cwk_ai_event_clustering.py:278-283 | Each anchor has one group, of exactly its events in their order |
| ClusteringMeaning.WhatAMergeIs | scripts/cwk_ai_event_clustering.py:285-316 | The merged event of a group, field by field, told from its members |
| ClusteringMeaning.TextsGrow | scripts/cwk_ai_event_clustering.py:293-299 | How the joined summary and reasons grow with each member: empty and repeated ones are skipped |
| ClusteringMeaning.DedupeGrows | scripts/cwk_ai_event_clustering.py:300-312 | An item is kept exactly when it has a text that no item before it had |
| ClusteringMeaning.ItemsGrow | scripts/cwk_ai_event_clustering.py:300-312 | The items of each kind are the members' items of that kind, in their order |
| ClusteringMeaning.TopsMean | scripts/cwk_ai_event_clustering.py:285-292 | The priority and the status of a merge, told from those of its members |
| ClusteringMeaning.TheOutput | scripts/cwk_ai_event_clustering.py:278-317 | The merged list has one event for each anchor, sorted by priority, status and title |
| ClusteringMeaning.ChosenGrows | scripts/cwk_ai_event_clustering.py:318-328 | The next event is chosen exactly when fewer than ten are, and fewer than two of its topic |
| ClusteringMeaning.PicksMean | scripts/cwk_ai_event_clustering.py:328-341 | A pick repeats its event, at its rank from one on |
| ClusteringMeaning.WhatPasses | scripts/cwk_ai_event_clustering.py:413-418 | What a batch must pass, told from events, picks and records |
| ClusteringMeaning.WhichIsTaken | scripts/cwk_ai_event_clustering.py:413-450 | The first of answer, repair and fallback that passes is taken, and no other |
| ClusteringMeaning.WhatTheOutputPasses | scripts/cwk_ai_event_clustering.py:470-480 | What the whole output must pass, with 95 of every 100 records covered |
| Clustering.SelectTop | scripts/cwk_ai_event_clustering.py:318-328 | The selection loop with its counters and its early stop |
| Clustering.ChosenLimits | scripts/cwk_ai_event_clustering.py:318-328 | At most ten events and two of a topic are chosen, all from the merged list |
| Clustering.MergeEventBatches | scripts/cwk_ai_event_clustering.py:279-342 | The merged events and the priorities |
| Clustering.UnionIsPreserved | scripts/cwk_ai_event_clustering.py:289 | Merging preserves the union of record ids, both ways |
| Clustering.MergeIsFinalOk | scripts/cwk_ai_common.py:718-755 | A merge of events that pass every check passes the final checks |
| Clustering.ClusterRun | scripts/cwk_ai_event_clustering.py:387-480 | The last exit is taken exactly when every batch was accepted, its own priorities included, and their merge fails the final checks, and with distinct report ids never; the output is the merge and passes all checks |
| Clustering.RepeatedIdsBreakTheMerge | scripts/cwk_ai_event_clustering.py:244-256 | With a repeated id two batches are accepted and their merge fails the final checks, so the last exit is reached |
| CatalogProvider.ParseEntries | scripts/cwk_canonical_version_provider.py:485-504 | Accepts exactly a terminated, non-empty log of well-formed entries without repeated identities |
| CatalogProvider.Observe | scripts/cwk_canonical_version_provider.py:507-541 | Accepts exactly a head and a log that belong together |
| CatalogProvider.ResolveCurrent | scripts/cwk_canonical_version_provider.py:560-589 | Two equal observations around a verified object, and nothing else, resolve |
| CatalogProvider.AcceptedExactlyWhenUntorn | scripts/cwk_canonical_version_provider.py:507-541 | A head read at one moment and a log read at another are accepted exactly when that log is the one the head was made from, that is, exactly when revision and length agree, whatever the writer did between |
| CatalogProvider.SnapshotWasCurrentThroughout | scripts/cwk_canonical_version_provider.py:560-589 | Against any append-only writer the snapshot was the current head throughout the interval between the head reads |
| CatalogProvider.QuietCatalogResolves | scripts/cwk_canonical_version_provider.py:560-589 | A quiet, consistent catalog resolves |

## Left out

- File descriptors, symbolic links, modes and flushes: behaviour of the operating system; a crash is the death of a process, not a loss of power.
- Directory entries whose names break the leaf grammar: nothing here creates them; of the grammar only the length is modelled.
- Schemas, regular expressions, JSON parsing and number parsing: data is typed, and a text carries what the parsers say about it.
- Several tenants in one ledger: tenants share no ledger file, so one tenant is modelled, and its epoch may be bumped by anyone at any time.
- `list_query_eligible`: it filters by the modelled check but returns the record it read before that check.
- Tenant status in the concurrent ledger: the protocol lets more operations through than the code, and the single-caller class has the status checks.
- Corrupt journals, tombstones and grants: the code stops on them.
- Confirmation ids, authorizations and next-step hints of the activation history: they are functions of the event or the state.
- The sixteen predicates of a pilot: their conjunction is an input.
- Changes to the activation artifacts by anyone but the wizard.
- Discovery reports, contract rendering in Markdown, the doctor and the command-line parsing: text plumbing.
- Receipts of the binding and secret stores: append-only files that no modelled operation reads.
- Journals, receipts, bumps and snapshots in runs of several rotation commands: the commands are interleaved with each other and with the reads and commits of binding calls; the bumps of a rotation are those of the one operator, and the binding protocol has the rest.
- Values of the nightly program that no configuration sets, its command-line switches, and what it does once it collects.
- `TenantRegistry`: only its compare-and-increment of the authorization epoch is modelled.
- `last_seen_at` and the run manifest of a collection: they decide nothing.
- The model's prompts and answers, the normalization of its bundles and the deterministic fallback of clustering: each batch's candidates are inputs.
- Title normalization and the SHA-1 event ids of clustering: an event carries its anchor, and an id is made from it.
- `history_match` of merged events: no check reads it.
- LedgerTheorems.RevokedIsNeverEligible: says nothing of a check that was already past its journal scan when the revocation was written.
- Negative caps of a collection: the command line accepts them, and the code then slices from the other end; caps here are natural numbers.
- RotationResolution.LookUpAcrossRotation: the agent's records stay during the lookup, and no second rotation begins during it; what else a lookup may meet is in `WhatChangesResolution`.
- RotationTheorems.WhenStuck: starts from a state that nobody has harmed; `WhenJammed` and `StuckForever` are about every state.
- BindingRotation.Secrets.RotateSecret: is undisturbed; RotationProtocol has several operators.
- BindingRotation.Secrets.TombstoneOld: is undisturbed; interleaved with commits, a move copies the record as it was listed and unlinks what is there by then.
- Credential.References.Apply: one caller at a time; a commit that meets another's record, and the retried bump, are those of the binding protocol's jobs.
- AtomicProtocol.NoLostUpdate: equal bytes are one value, so a file that was changed and changed back counts as unchanged, as it does for the digest comparison.
