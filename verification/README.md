# pkudisk-sync, modelled and proved in Dafny

pkudisk-sync keeps local directories and PKU Disk directories equal. It plans from complete
snapshots and committed baselines, journals every external change before making it, moves a
local object aside before replacing or deleting it, and recovers from a crash at any moment
by proving what happened. This project models that logic and proves its safety properties.
`dafny verify dfyconfig.toml` checks all of it.

## How the model is built

* **One journaled operation** (`Operation*.dfy`). `OperationWorld` is everything one operation
  can touch: its journal row, the pinned path with its download and recovery slots, the remote
  entry, the baseline, and a log of what happened to user data. `OperationActions` has each
  system call, remote call and transaction as an atomic function on that world, each with a
  proof that it keeps the invariant. `OperationHost` is the machine: before every call a script
  lets everybody else edit the world and draws the fate of the call (it goes through, fails,
  takes effect but loses its reply, or the process dies). `OperationExecutor`, `OperationRemote`,
  `OperationRecovery`, `OperationProof` and `OperationSyncer` are the program, call by call, and
  `OperationRuns` strings together any number of processes. A method's postcondition holds for
  every script, and every prefix of a script is a script, so it holds in every reachable state.
  The machine notes when a call failed by itself or the process died (`balked`); a method that
  does not succeed although nothing of the kind happened and nobody else wrote has a cause that
  its contract names as a condition on the world before the call, so "succeeds" is promised too,
  not only what success means.
* **The plan** (`Paths`, `Domain`, `Planner`, `RootPlan`, `PlanLaws`, `Convergence`, `Order`).
  The pure planner, the loops that apply it to a snapshot, the delete gate, exclusion, the
  content-check loop, the execution order and the initial merge of two trees.
* **Ownership** (`Ownership`, `Registry`). Configured roots, followed claims and operation pins
  as one value with one disjointness invariant; the store's transactions as methods of a class;
  creating a root is two steps with the writer reservation held in between.
* **Filesystem graphs** (`Scan`, `LocalWalk`). The recursive scan over a directory graph with
  link cycles, refined to a set of visits that does not mention an order; the walk from a logical
  path to a mutation target; the resolution of dangling link chains.
* **The cycle and the daemon** (`Conflicts`, `Cycle`, `Runner`, `EndToEnd`). Conflict records; the
  cycle, which recovers its journal and runs every operation and every comparison on the machine
  above; the worker map; the hint loop; and what follows from plan and operation together.

Assumptions, all of them about the world outside the program: a transaction is atomic, though
its reply may be lost; a conditional remote call is atomic; a version token (a size and time of a
local file, an ID and revision of a remote one) names the same bytes for ever, and identities and
the versions of others' edits are fresh, so a version that is gone does not come back; a symbolic
link is another object than the one it leads to; nobody else
creates, replaces or removes the reserved slot names (an object in a slot may be edited in place,
and the directory that holds the slots may be moved away with them, but then does not come back);
removing a staging file succeeds unless the process dies.

## What turned out false

* Recovery looks for the recovery slot at the pinned path only. If the directory was moved away
  after an object was parked in it, recovery finds neither the target nor the slot, takes a delete
  for done and drops the row (`internal/executor/entry_ops.go:1067-1070`), while the object lies in
  the moved directory (`OperationWitnesses.CompletionMayForgetAMovedDirectory`). The slot at the
  path holds the last object moved aside, as long as nothing took it out again, exactly when the
  directory is still the one of that move (`OperationLaws.LastMovedObjectIsInPlace`).
* Recovery checks the identity of the object in the recovery slot with a call that follows links
  (`internal/executor/entry_ops.go:1067-1086`). A symbolic link that was parked in the slot is
  unlinked when it resolves to the pinned object (`OperationWitnesses.RecoveryMayUnlinkALink`); what
  recovery unlinks under an ordinary pin is the pinned object exactly when it is not a link
  (`OperationLaws.RecoveryUnlinksThePinned`). A link that dangles is taken for an empty slot, so
  that the row completes and the slot stays occupied
  (`OperationWitnesses.CompletionMayLeaveADanglingLink`); the cleanup leaves the slot occupied
  exactly when a link dangled at that check (`OperationRecovery.CleanupLocalRecoveryArtifact`), and
  a slot outlives its row exactly then (`OperationLaws.OnlyOverlookedLinksOutliveTheRow`). A moved
  directory and an overlooked link are the only ways in which the object moved aside last is
  forgotten (`OperationLaws.ForgottenExactlyWhenMovedOrOverlooked`).
* After a crash, recovery compares no fingerprint before it unlinks, so an edit in place of the
  parked file is lost (`OperationWitnesses.RecoveryMayUnlinkAnEdit`). Unless somebody writes during
  the cleanup, what goes is what was in the slot, and it is the expected object exactly when a look
  at the slot would have shown it (`OperationRecovery.CleanupLocalRecoveryArtifact`). With no other
  writer it always is (`OperationLaws.QuietRunsAreAtomic`), and an attempt that was not interrupted
  validates the fingerprint in the slot first (`OperationLaws.UnlinkIsJustified`).
* A started row can be completed without any effect (`OperationWitnesses.CompletionMayNeedNoEffect`).
  For every operation that started and did nothing, and with nobody else writing, completion is
  possible exactly when the untouched state already meets the postcondition and can be recorded
  (`OperationWitnesses.CompletionNeedsNoEffectExactlyWhenProven`); and a row that is gone without an
  effect went that way (`OperationLaws.QuietRunsAreAtomic`).
* A followed pin may overlap what it was checked against: the store grants, one after the other, two
  roots, a claimed file and a pin of a directory operation at that file, and the second root lies
  inside the pinned path (`Registry.PinReachesInside`, `Ownership.FollowPinMayReachInside`), because
  neither the claim's own check nor the pin's compares the operation's kind
  (`internal/store/followed_boundaries.go:278-361`). It overlaps exactly when the operation is on a
  directory where a file was claimed, and the other object lies inside the pinned path
  (`Ownership.FollowPinStaysOutside`).
* `ValidateRelPath` accepts `..` although its comment says that a path may not escape the root;
  it is the only such path (`Paths.ValidRelPathDescends`, `Paths.DotDotIsAccepted`).
* The store accepts one-sided baseline rows; two-sidedness is the syncer's doing
  (`Cycle.StoreAloneIsWeaker`, `Cycle.RunCycles`).

## Model

| member | source | states |
|---|---|---|
| `OperationActions.EditsKeepInv` | internal/syncer/cycle.go:450-557 | any edits by others, moving the pinned directory away included, keep the operation's invariant and leave its row and log alone; a slot keeps its object or leaves with its directory; a version that is gone does not return |
| `OperationActions.ParkKeepsInv` | internal/executor/entry_ops.go:342-345 | moving the present object aside keeps the invariant when a pinned attempt is running and, if nobody else wrote, only when the object is the expected one |
| `OperationActions.RestoreKeepsInv` | internal/executor/entry_ops.go:371-381 | putting the object back keeps the invariant, onto an empty path only |
| `OperationActions.UnlinkKeepsInv` | internal/executor/entry_ops.go:327-331 | unlinking the slot keeps the invariant for an object that a running attempt validated there, or that passed recovery's identity check there |
| `OperationActions.InstallKeepsInv` | internal/executor/entry_ops.go:429-451 | a staged file is installed onto an empty path only and then carries the expected revision |
| `OperationActions.UploadKeepsInv` | internal/executor/root.go:92-148 | an upload replaces exactly the expected revision by a new one |
| `OperationActions.DeleteRemoteKeepsInv` | internal/executor/root.go:209-240 | a remote delete removes exactly the expected object |
| `OperationActions.BeginKeepsInv` | internal/store/operations.go:130-149 | an attempt is journaled only with a complete pin and, if nobody else wrote, from the untouched state |
| `OperationActions.OverlookKeepsInv` | internal/executor/entry_ops.go:1067-1070 | a stat that finds nothing in an occupied slot keeps the invariant, which from then on tells that the slot was overlooked |
| `OperationActions.CompleteKeepsInv` | internal/store/entries.go:108-166 | the row goes together with a sound baseline or its removal, with an empty slot or one just overlooked, and, if nobody else wrote, with the present state as the result |
| `OperationExecutor.Resolve` | internal/executor/entry_ops.go:556-588 | a resolved pin carries the anchor identity that is there; if nobody else writes, it names the expected object under it, and resolution fails only when a call does or the path leads to nothing that can be pinned |
| `OperationExecutor.PinnedPreconditionHolds` | internal/executor/entry_ops.go:887-932 | if nobody else writes and no call fails by itself, the answer is exact: the expected object, or the pinned link with its projected state, stands at the pinned path under its pinned anchor |
| `OperationExecutor.CheckLocal` | internal/executor/entry_ops.go:225-249 | after the checks the pinned anchor is in place and an undisturbed path holds the expected object or nothing; an operation that has not started must still be led to its pin, one that has started is judged at its pinned path alone; in quiet they fail only when a call does or one of the two conditions fails |
| `OperationExecutor.PreserveEntry` | internal/executor/entry_ops.go:342-375 | success means that the slot holds the object of the pinned identity, validated there; a failure puts it back unless the path was taken or a call failed; if nobody else writes and no call fails, the pinned object in its expected state is always preserved |
| `OperationExecutor.PreserveCopySymlink` | internal/executor/entry_ops.go:383-427 | the same for a copied symlink, by its text and projected state |
| `OperationExecutor.DeleteLocal` | internal/executor/entry_ops.go:264-332 | success unlinks the validated object as the last event, empties the slot and is the one effect; without the confirmed start the log is the same or longer by the start alone, and undisturbed data is unchanged; if nobody else writes and no call fails, it fails only when the path is not as it was pinned or the directory is not empty |
| `OperationExecutor.EnsureLocalDir` | internal/executor/entry_ops.go:134-181 | success is one mkdir onto a path where nothing was; without the confirmed start nothing changed; if nobody else writes and no call fails, it fails only when something is there or was expected, or the path cannot be resolved to its pin |
| `OperationExecutor.InstallDownloaded` | internal/executor/entry_ops.go:429-451 | success moved exactly the staged file to the target, by an event of this call, and leaves no prior object in the slot; in quiet the target then is the staged file, and without a failing call it fails only when the path is not as it was pinned or its directory is not empty |
| `OperationExecutor.CommitDownloaded` | internal/executor/entry_ops.go:470-536 | the returned fingerprint names a version with the bytes of the expected revision and in quiet is the one at the path; it fails only for a named cause |
| `OperationExecutor.EnsureLocalFile` | internal/executor/entry_ops.go:212-259 | the same for the whole download; the staging slot is empty afterwards; without the confirmed start the log is the same or longer by the start alone, and undisturbed data is unchanged |
| `OperationRemote.Upload` | internal/executor/root.go:92-148 | success carries the bytes of the version now at the path, as the one effect; if nobody else writes and no call fails, it fails only when a side is not as the plan expects it |
| `OperationRemote.EnsureRemoteDir` | internal/executor/entry_ops.go:186-206 | only an expected absence is turned into a directory, which stands there on success; in quiet without a failing call it fails only when something is there or was expected |
| `OperationRemote.DeleteRemote` | internal/executor/root.go:209-240 | success took away exactly the expected object, and nothing is there afterwards; in quiet without a failing call it fails only when the object is not the expected one or a directory is not empty |
| `OperationRemote.NeverReturns` | internal/executor/entry_ops.go:1282-1327 | a version seen before and after a read was there all the time |
| `OperationRemote.CompareFileContent` | internal/executor/entry_ops.go:1274-1328 | the answer is the truth about the two named versions, whatever others do during the read; in quiet without a failing call there is an answer whenever both sides are the planned files of one size |
| `OperationRemote.ComparePinnedFileContent` | internal/executor/entry_ops.go:1334-1380 | the answer is the truth about the version at the pinned path at one moment during the call |
| `OperationRecovery.CleanupLocalDownloadArtifact` | internal/executor/entry_ops.go:992-1007 | a planned download's staging slot is empty afterwards |
| `OperationRecovery.CleanupLocalRecoveryArtifact` | internal/executor/entry_ops.go:1036-1088 | success leaves the slot occupied exactly when a link dangled at the check; with no edit meanwhile, what is unlinked is what was in the slot, expected exactly when a look would have shown it; if nobody else wrote, the effect is in place, and without a failing call it fails only on an object that fails the identity check or a directory that is not empty |
| `OperationRecovery.RestoreArtifact` | internal/executor/entry_ops.go:1104-1216 | the operator's restore puts the object of the pinned identity, or the link of the pinned text, back onto an empty path; with no edit meanwhile it moves something only when the slot holds the pinned object in its expected state and the path is free, and then, without a failing call, succeeds; otherwise what arrived at the path goes to the slot |
| `OperationProof.ProveUpload` | internal/syncer/cycle.go:753-772 | a proven upload is a sound baseline; if nobody else writes the verdict is exact |
| `OperationProof.ProveDownload` | internal/syncer/cycle.go:773-787 | the same for a download |
| `OperationProof.Prove` | internal/syncer/cycle.go:733-791 | the verdict is sound always and, if nobody else writes, holds exactly when the postcondition does |
| `OperationSyncer.CommitCompleted` | internal/syncer/cycle.go:857-870 | success records exactly the observed pair, well-formed, two-sided and of one kind, or drops the row for an absent one |
| `OperationSyncer.ExactIsSound` | internal/syncer/cycle.go:665-695 | the observed pair that agrees with the call's exact result and the postcondition is a sound baseline |
| `OperationSyncer.Finish` | internal/syncer/cycle.go:665-695 | success records a sound pair that meets the postcondition; in quiet without a failing call it succeeds whenever the present state agrees with the call's report, is the postcondition and can be recorded; a failure leaves the row to recovery |
| `OperationSyncer.ExecuteLocal` | internal/syncer/cycle.go:569-663 | success records a sound pair that meets the postcondition; if nobody else writes and no call fails, an operation that the world allows succeeds; after any other failure without a failing call the row is recovering, or running with its effect in place, or was discarded before it started |
| `OperationSyncer.Execute` | internal/syncer/cycle.go:569-696 | the same for both kinds of mutation: undisturbed, it fails only when a side is not as expected, something is in the way of the effect, or the result cannot be recorded |
| `OperationSyncer.PinTarget` | internal/syncer/cycle.go:390-448 | a local mutation gets its pin once, while planned; a failed resolution or a refusal discards the intent; a feasible operation that is pinned in quiet stays feasible under its pin, and is pinned unless a call fails |
| `OperationSyncer.PreconditionsHold` | internal/syncer/cycle.go:698-708 | if nobody else writes, the answer is exact about both sides |
| `OperationSyncer.RetryPreconditionsHold` | internal/syncer/cycle.go:710-723 | if nobody else writes and no call fails by itself, the answer is exact about both sides |
| `OperationSyncer.RetryIsUntouched` | internal/syncer/cycle.go:528-551 | a retry starts only from the untouched state: an effect always passes the proof or fails the check |
| `OperationSyncer.ProvenIsDue` | internal/syncer/cycle.go:511-527 | a proven postcondition means that the effect happened, that its last step is the slot's removal, or that none was needed |
| `OperationSyncer.RecoverPlanned` | internal/syncer/cycle.go:455-493 | success means that the row is gone; with nobody else writing the operation is executed, with one effect, exactly when both sides still are as the intent expects them (and a copying root has not lost the evidence of an unpinned intent), and discarded without effect otherwise; without a failing call it fails only when the intent holds and cannot be carried out |
| `OperationSyncer.RecoverStarted` | internal/syncer/cycle.go:494-552 | the row ends with a completion or blocked; with nobody else writing a completion adds no effect exactly when the postcondition held before and no object to be deleted was parked, and, if no call fails either, it blocks only on a parked object or a failed retry check and fails only when what is proven cannot be cleaned up and recorded or a due retry cannot be made |
| `OperationSyncer.RecoverOne` | internal/syncer/cycle.go:450-557 | one row of recovery: gone, or reported as blocked, with the exact conditions of the two above; a blocked row is left as it is |
| `OperationRuns.RecoverAll` | internal/syncer/cycle.go:450-557 | unless a row blocks or a call fails, all rows are gone and no artifact is left at the pinned paths but an overlooked link; it stops only at a blocked row, a disturbed one, or one that cannot be settled |
| `OperationRuns.Attempt` | internal/syncer/cycle.go:569-663 | the first attempt at a fresh intent: if nobody else writes, every call goes through and the world allows the operation, it completes |
| `OperationRuns.RunSession` | internal/cli/app.go:355-403 | the operator's commands move only a blocked row back to recovery, a restore only after the object was put back |
| `OperationRuns.Run` | internal/syncer/cycle.go:61-157 | the invariant holds after any number of processes, each with any edits, failures and crash, with the operator's commands in between |
| `OperationRuns.FreshHolds` | internal/store/operations.go:12-72 | a freshly journaled intent satisfies the invariant |
| `OperationLaws.QuietRunsAreAtomic` | internal/syncer/cycle.go:450-557 | with no other writer every reachable state is untouched, completed (an upload with the same bytes on both sides), or has the prior object in its slot; at most one effect; every attempt began untouched; only expected objects are unlinked; a started row goes only with the effect, or when none was needed, and records the final state |
| `OperationLaws.MovedObjectIsAccountedFor` | internal/executor/entry_ops.go:342-450 | every object ever moved aside was put back, was unlinked, or is in the slot of the directory it was moved in, wherever that is now |
| `OperationLaws.LastMovedObjectIsInPlace` | internal/executor/entry_ops.go:1009-1070 | the slot at the pinned path is occupied exactly when the last object moved aside has not left it and the directory is still the same |
| `OperationLaws.UnlinkIsJustified` | internal/executor/entry_ops.go:1036-1088 | before every unlink, and after the last move into the slot, the very object was looked at there: a running attempt validated it as the expected one, recovery checked the identity or link text |
| `OperationLaws.RecoveryUnlinksThePinned` | internal/executor/entry_ops.go:1067-1086 | what recovery unlinks under an ordinary pin has the pinned identity exactly when it is not a link; a link was seen to resolve to the pinned object |
| `OperationLaws.PhasesGuardUserData` | internal/syncer/cycle.go:494-511 | user data changes only under a running attempt with a pin if local, by recovery's cleanup, or by the operator's restore; planned means no attempt and nothing touched |
| `OperationLaws.StartedRowsEndInACommit` | internal/store/operations.go:117-149 | no started row returns to planned, and it disappears only with the completion transaction |
| `OperationLaws.OccupiedSlotsHaveAnOwner` | internal/executor/scan.go:310-349 | an occupied slot belongs to the live row of a pinned operation that may use it, and what is in the recovery slot was moved there by that operation; after the row it is an overlooked link |
| `OperationLaws.OnlyOverlookedLinksOutliveTheRow` | internal/executor/scan.go:310-349 | once the row is gone the slot at the pinned path is occupied exactly when recovery overlooked a link that dangled there just before |
| `OperationLaws.ForgottenExactlyWhenMovedOrOverlooked` | internal/executor/entry_ops.go:1067-1070 | once the row is gone the object moved aside last was put back or unlinked, unless its directory was moved away or it was an overlooked link |
| `OperationWitnesses.RecoveryMayUnlinkALink` | internal/executor/entry_ops.go:1067-1086 | a run in which recovery unlinks a link that is not the pinned object |
| `OperationWitnesses.CompletionMayLeaveADanglingLink` | internal/executor/entry_ops.go:1067-1070 | a run in which the row completes while a dangling link stays in the slot |
| `OperationWitnesses.CompletionMayForgetAMovedDirectory` | internal/executor/entry_ops.go:1067-1070 | a run in which the row completes while the parked object lies in a directory that was moved away |
| `OperationWitnesses.RecoveryMayUnlinkAnEdit` | internal/executor/entry_ops.go:1075-1086 | a run in which recovery unlinks content that is not the expected one |
| `OperationWitnesses.CompletionMayNeedNoEffect` | internal/syncer/cycle.go:512-527 | a run that completes a started row without any effect |
| `OperationWitnesses.CompletionNeedsNoEffectExactlyWhenProven` | internal/syncer/cycle.go:512-527 | for every operation that started in vain: it can be completed exactly when its untouched state meets the postcondition and can be recorded, and only with that state |
| `EndToEnd.RemoteChangesHitRecordedVersions` | internal/syncer/cycle.go:881-901 | every remote change of a planned operation replaced nothing or exactly the version in the path's baseline |
| `EndToEnd.UnlinksHitRecordedVersions` | internal/syncer/cycle.go:881-901 | an uninterrupted attempt unlinks only what it validated as the local version in the path's baseline, recovery what has the pinned identity or link text; with no other writer both unlink the recorded version |
| `Cycle.OperationRowIsSound` | internal/syncer/cycle.go:857-870 | the row an operation commits is well-formed, has both sides, one kind and, for files, equal bytes |
| `EndToEnd.ResolutionHitsTheRecordedConflict` | internal/syncer/conflict_resolution.go:42-80 | every remote change of a user's resolution replaced exactly the remote version that the conflict's record names, or nothing if it names none |
| `EndToEnd.ResolutionUnlinksTheRecordedVersion` | internal/syncer/conflict_resolution.go:42-80 | an uninterrupted resolution unlinks only what it validated as the local version of the conflict's record, recovery what has the pinned identity or link text; with no other writer both unlink the recorded version |
| `EndToEnd.RunsLoseNoUpdate` | internal/syncer/cycle.go:65-280 | over any run of cycles and commands every operation, journaled or ended, comes from a plan or a resolution, and the two statements above hold of every remote change and every unlink of it |
| `EndToEnd.UndisturbedOperationSucceeds` | internal/syncer/cycle.go:569-696 | an operation that ended with nobody else writing left what its decision asks for: a copy on the other side, or neither side, and the row that says so |
| `EndToEnd.CarryOutUndisturbed` | internal/syncer/cycle.go:569-696 | from a planned decision to its outcome on the machine: undisturbed and feasible, the first attempt succeeds, and whatever the next scan shows of the path is what the decision asks for |
| `EndToEnd.UndisturbedPassLeavesNoWork` | internal/syncer/cycle.go:235-278 | if a pass carries out its commits, drops and operations and nobody else writes, the next plan has no external decision |
| `Paths.ValidRelPathDescends` | internal/domain/types.go:158-170 | an accepted path has only ordinary components, unless it is `..` |
| `Paths.DotDotIsAccepted` | internal/domain/types.go:158-170 | `..` is accepted although it does not descend |
| `Paths.AtOrBelowTransitive` | internal/reconcile/root.go:199-208 | exclusion reaches everything below an excluded path |
| `Planner.ThreeWayDeleteEvidence` | internal/reconcile/planner.go:64-187 | a delete is decided exactly on a two-sided baseline, an unchanged surviving side and an absent other side |
| `Planner.ThreeWayTable` | internal/reconcile/planner.go:64-187 | the whole three-way table, on baseline and both sides alone: an ensure exactly when only the other side changed and is present, a drop exactly when both are absent and one changed, a conflict only when both changed, each kind by its own condition, nothing exactly when neither changed |
| `Planner.PairingTable` | internal/reconcile/planner.go:11-60 | the same for initial pairing: an ensure exactly for a one-sided path, a commit or comparison for two sides of one kind, a conflict for two kinds or different contents |
| `RootPlan.GateVerdict` | internal/reconcile/safety.go:38-61 | the gate lets a plan through exactly when its deletes are within the limits or approved |
| `RootPlan.ValidateSnapshot` | internal/reconcile/root.go:150-197 | the loops accept exactly the valid snapshots |
| `RootPlan.BaselineTable` | internal/reconcile/root.go:62-78 | the loop accepts exactly the valid baselines and indexes them by path |
| `RootPlan.UnionPaths` | internal/reconcile/root.go:210-227 | the sorted union of baseline, local and remote paths |
| `RootPlan.PlanFullSnapshot` | internal/reconcile/root.go:40-148 | the loops compute the plan of these inputs, whatever order the maps are read in |
| `RootPlan.ValidInputsDecide` | internal/reconcile/root.go:86-118 | validated inputs leave no path without a decision |
| `RootPlan.InitialNeverDeletes` | internal/reconcile/planner.go:11-60 | initial pairing proposes no delete |
| `RootPlan.InitialDecisionKeeps` | internal/reconcile/planner.go:11-60 | initial pairing writes a side only where it is absent |
| `PlanLaws.PlanMembers` | internal/reconcile/root.go:80-132 | every decision of a plan is the planner's for a path that is not excluded |
| `PlanLaws.PlanFollowsTable` | internal/reconcile/root.go:80-132 | every decision of a plan follows the table for its path, stated on baseline, local and remote entry and content evidence alone; and every path that is not excluded has one |
| `PlanLaws.BlockedExactlyWhen` | internal/reconcile/root.go:45-147 | a plan is blocked exactly for an incomplete or unhealthy scan or, after initialization, for deletes that are not approved and exceed a limit or meet an unset policy |
| `PlanLaws.UnblockedDeleteIsSafe` | internal/reconcile/root.go:57-147 | an unblocked plan deletes only after initialization, on full evidence, outside exclusions and within the limits |
| `PlanLaws.PlanWritesOnlyRecordedVersions` | internal/reconcile/planner.go:84-187 | the side a decision writes is absent or still at the recorded baseline |
| `PlanLaws.ExclusionNonInterference` | internal/reconcile/root.go:199-208 | erasing all excluded baselines and entries changes neither decisions, counters nor the gate's verdict |
| `Convergence.ContentLoopRunsOnce` | internal/syncer/cycle.go:190-218 | answered comparisons leave none to ask and move neither deletes nor the gate |
| `Convergence.NextPlanHasNoWork` | internal/syncer/cycle.go:190-278 | the planner's part of that: if every path looks as its decision asks for, up to what the planner ignores, the next plan has no external decision |
| `Convergence.QuietPlanConverges` | internal/syncer/cycle.go:235-261 | a plan without conflict, comparison or external decision proves that both sides and the record agree |
| `Order.BeforeIsStrictTotalOrder` | internal/syncer/cycle.go:914-945 | the execution order is a strict total order on distinct paths |
| `Order.SortExternalDecisions` | internal/syncer/cycle.go:914-931 | the result is the ordered permutation |
| `Order.ExternalDecisions` | internal/syncer/cycle.go:903-912 | exactly the external decisions are kept |
| `Order.OrderUnique` | internal/syncer/cycle.go:914-931 | the order leaves no choice |
| `Order.TreeOrder` | internal/syncer/cycle.go:933-949 | directory creates come before everything created below, directory deletes after every delete below |
| `Order.InitialMergeIsUnion` | internal/syncer/cycle.go:263-277 | executing the ordered creates finds every parent present and leaves both trees with the union |
| `Order.InitialPlanMergesTrees` | internal/reconcile/planner.go:11-60 | an initial pairing of two scanned trees deletes nothing and leaves both sides with the union of the paths that are not excluded |
| `Ownership.InsideStaysDisjoint` | internal/store/roots.go:429-442 | what lies inside a directory overlaps nothing the directory does not overlap |
| `Ownership.OwnedMeans` | internal/store/followed_boundaries.go:455-519 | what the invariant says thing by thing: two roots are not inside each other nor share a remote subtree, two claims differ in identity and neither leads into the other, no root lies around a claim or copy pin of another root nor inside its claimed directory |
| `Ownership.AddRootKeeps` | internal/store/roots.go:52-66 | an admitted root keeps all ownership disjoint |
| `Ownership.SetClaimKeeps` | internal/store/followed_boundaries.go:455-519 | a recorded claim without conflict keeps all ownership disjoint and every pin where it leads |
| `Ownership.FollowPinStaysOutside` | internal/store/followed_boundaries.go:278-361 | a followed pin overlaps another root or claim exactly when it is on a directory where a file was claimed and the other lies inside it |
| `Ownership.FollowPinMayReachInside` | internal/store/followed_boundaries.go:278-361 | books that satisfy the whole invariant in which a pin overlaps another root |
| `Ownership.DeepestFrom` | internal/store/followed_boundaries.go:431-445 | the result is an applicable claim that every other applicable one is a prefix of |
| `Registry.Registry.PrepareRoot` | internal/store/roots.go:30-78 | granted exactly when no root, claim or copy pin overlaps, no claim has an unknown target and no writer is active; the books do not change |
| `Registry.Registry.CommitRoot` | internal/store/roots.go:83-104 | the prepared root is inserted under a new ID, and ownership is still disjoint |
| `Registry.Registry.CloseRoot` | internal/store/roots.go:106-127 | closing rolls back |
| `Registry.Registry.Backfill` | internal/store/followed_boundaries.go:125-152 | all legacy targets are filled in, or none; the verdict does not depend on the map's order |
| `Registry.BackfillOrderIsIrrelevant` | internal/store/followed_boundaries.go:125-152 | a legacy row meets the same obstacles whichever rows were filled before it |
| `Registry.Registry.ReserveClaims` | internal/store/followed_boundaries.go:87-198 | every observed claim is recorded or nothing changes; claims only grow, and not after initialization |
| `Registry.Registry.AuthorizePin` | internal/store/followed_boundaries.go:205-381 | the recorded pin carries the path, the effective authority, the link text and the traversed claims, and nothing else of any row changes; without legacy rows a followed pin is granted exactly when every traversed claim holds, none that applies is left out and the path is where the deepest leads; a copy pin exactly in copy mode and when no other root overlaps what it reaches |
| `Registry.AdmitsRoot` | internal/store/roots.go:30-66 | the three checks of a new root, row by row, accept exactly the root that neither lies around or inside another root or its remote subtree, nor around a claim or inside a claimed directory, nor around a copy pin |
| `Registry.FindConflict` | internal/store/followed_boundaries.go:455-519 | the rows of claims and roots are searched for exactly the conflict that the invariant excludes |
| `Registry.CheckBoundary` | internal/store/followed_boundaries.go:295-345 | the checks on one traversed boundary accept exactly the boundary that applies, is recorded with that kind, target and directory identity, and conflicts with nothing |
| `Registry.RefreshOrderIsIrrelevant` | internal/store/followed_boundaries.go:295-345 | without legacy rows the verdict on a traversed claim does not depend on which claims were refreshed before it |
| `Registry.PinReachesInside` | internal/store/followed_boundaries.go:205-381 | a history of granted requests that ends in such a pin |
| `Registry.Registry.InitializeRoot` | internal/store/followed_boundaries.go:547-590 | pairing closes exactly when the observed claims are the recorded ones |
| `Registry.Registry.SetEnabled` | internal/store/roots.go:237-253 | only the flag changes |
| `Registry.Registry.SetMode` | internal/store/roots.go:259-301 | the mode changes only for a paused, idle root and never across copy once initialized |
| `Registry.Registry.DeleteRoot` | internal/store/roots.go:307-333 | only a paused, idle root goes, with its claims |
| `Registry.Registry.CreateOperation` | internal/store/operations.go:12-72 | a new row is planned, unattempted and unpinned |
| `Registry.Registry.RemoveOperation` | internal/store/operations.go:117-126 | an unfinished row goes only while planned |
| `Registry.Serve` | internal/store/followed_boundaries.go:87-381 | any interleaving of requests keeps ownership disjoint and, without the removal of a root, claims only grow; of two overlapping requests for roots, claims or pins the later is granted only when what the earlier asked for is not on the books, and never during a reservation |
| `Registry.ReserveIsAlone` | internal/store/followed_boundaries.go:455-519 | claims that are recorded clash with nothing that was owned before and still is |
| `Registry.GrowsTrans` | internal/store/followed_boundaries.go:154-193 | kinds, known targets and directory identities never change over a history |
| `Registry.ClaimsAreKept` | internal/store/followed_boundaries.go:154-193 | what growth means: no claim disappears or changes its kind, its known target or, for a directory, its identity, and pairing is not undone |
| `LocalWalk.ResolveFollow` | internal/executor/entry_ops.go:593-680 | the target is the deepest traversed claim's target plus the rest of the path; the claims are exactly the links met, each with the kind and identity of what it leads to; it fails exactly when an entry on the way cannot be passed |
| `LocalWalk.ResolveCopy` | internal/executor/entry_ops.go:685-802 | a final link is not followed; the authority is physical exactly when a link was followed before it; the evidence names exactly the links on the way and what they lead to; it fails exactly when an entry on the way cannot be passed or leads into rejected ground |
| `LocalWalk.DeepestIsDerived` | internal/store/followed_boundaries.go:431-453 | the target computed from the claims alone is the one the walk found |
| `LocalWalk.ResolveMissingLeaf` | internal/executor/local_path.go:26-63 | resolution terminates and reports a cycle exactly when the chain never ends |
| `LocalWalk.ContinuityHolds` | internal/syncer/cycle.go:362-388 | the boundaries at the pin are exactly the applicable ones of the scan |
| `Scan.EnteredIsNew` | internal/executor/scan.go:120-308 | a directory that is entered is not on the ancestor stack, which is the termination measure |
| `Scan.LocalScan.Claim` | internal/executor/scan.go:79-118 | an identity is refused exactly when it does not fit what was seen before |
| `Scan.LocalScan.ScanDir` | internal/executor/scan.go:120-308 | success exactly when all visits fit together, in whatever order directories are listed |
| `Scan.ScanLocal` | internal/executor/scan.go:22-54 | terminates on every graph and succeeds exactly when the graph is scannable; then, on the graph alone: every directory and file that a walk through valid names and plain directories reaches is in the result with its own fingerprint, and nothing else; a path is excluded exactly when such a walk ends at a cycle or at a link that the mode leaves out; the boundaries are exactly the links crossed |
| `Scan.CoherentIsScannable` | internal/executor/scan.go:120-308 | the visits fit together exactly when no walk meets a failing entry, no rejected link is reached and no identity plays two parts that clash |
| `Scan.VisitsSayWhatIsThere` | internal/executor/scan.go:120-308 | the entries, exclusions and boundaries collected from the visits are those of the walks |
| `Scan.OneVisitPerPath` | internal/executor/scan.go:120-135 | a logical path is visited once |
| `Scan.ResultIsPrefixClosed` | internal/executor/scan.go:120-308 | the result is closed under parents and has nothing at or below an excluded path |
| `Scan.OmittedIsLeaf` | internal/executor/scan.go:157-281 | nothing is visited below an excluded path, and no path is excluded twice |
| `Scan.IdentitiesAreExposedOnce` | internal/executor/scan.go:79-118 | outside copy mode a directory identity is at one path, and a followed file identity at no second one |
| `Conflicts.ConflictStore.Resolve` | internal/store/conflicts.go:105-115 | only an unresolved record is resolved |
| `Conflicts.ConflictStore.Create` | internal/store/conflicts.go:12-59 | an insert keeps one record per path exactly when none was open there |
| `Conflicts.ConflictStore.Reconcile` | internal/syncer/cycle.go:971-1019 | afterwards the open records outside exclusions are in one-to-one correspondence with the plan's conflicts, each with the conflict's kind and both sides' versions; a record of an unchanged conflict is kept as it is; excluded ones and other roots are untouched, also when a call fails midway; it fails only when a call does or a record would be malformed |
| `Conflicts.Run` | internal/syncer/cycle.go:971-1019 | at most one open record per path over any run |
| `Conflicts.CurrentMembers` | internal/syncer/cycle.go:972-977 | what is recorded for a path is the plan's conflict there |
| `Conflicts.CurrentComplete` | internal/syncer/cycle.go:972-977 | no conflict of the plan is missed |
| `Conflicts.ResolutionExpectsTheRecord` | internal/syncer/conflict_resolution.go:24-86 | the resolving operation's precondition holds of a state, on both sides, exactly when the state is the recorded one |
| `Cycle.CommitDecided` | internal/reconcile/planner.go:189-204 | a commit is decided only for a two-sided pair of one kind and, for files, on evidence of equal bytes |
| `Cycle.CommitsAreSound` | internal/syncer/cycle.go:235-246 | the commits of a pass keep every baseline row sound |
| `Cycle.CleanPassConverges` | internal/syncer/cycle.go:248-261 | after a pass without work every path that is not excluded has converged, with equal contents |
| `Cycle.Root.Compare` | internal/executor/entry_ops.go:1274-1328 | an answer of equal contents is true of the two versions that the plan named |
| `Cycle.Root.PlanWithContent` | internal/syncer/cycle.go:181-218 | the content loop ends, its evidence is the truth found by the modelled comparison, and no comparison is left |
| `Cycle.Root.RunOperation` | internal/syncer/cycle.go:263-277 | a decision is journaled, pinned and executed on the machine; success completes it and leaves the journal as it was, a failure leaves at most its own row there, and there is none unless a call failed, somebody interfered or the world did not allow it |
| `Cycle.Root.RecoverJournal` | internal/syncer/cycle.go:450-557 | success leaves no journal row, every row having ended, and every baseline row sound; it stops only at a blocked row, a failing call, a disturbed row or one that cannot be settled; no operation is lost |
| `Cycle.Root.RunPass` | internal/syncer/cycle.go:181-278 | a blocked plan changes nothing: no row, record or baseline, and nothing is executed; when a pass had work, exactly the plan's external decisions were executed and completed, each once, directories before what is created below and after what is deleted below them, and the plan was made of this root's baselines, this scan and true evidence; a clean end proves convergence and leaves conflict records that mirror the plan; pairing closes only then and without conflicts; it fails only when a call did or the scan or policy is malformed |
| `Cycle.Root.RunCycle` | internal/syncer/cycle.go:65-280 | the same for the whole cycle with its recovery and up to eight passes, over any behaviour of the calls; the end fits the last thing observed; a clean end leaves no journal row and comes from a plan of the last scan; no journaled operation is lost; it fails only when a call did, the remote root is missing, the scan or policy is malformed, or eight passes all had work |
| `Cycle.Root.OnePass` | internal/syncer/cycle.go:159-218 | one pass with its observations: what it plans on is what the two scans found; it is skipped exactly for a disabled root or an unpaired one with nothing on either side to pair |
| `Cycle.WorkIsGuarded` | internal/syncer/cycle.go:65-198 | every execution is preceded by the root read as enabled and healthy, a complete scan, its symlink authority and a plan that was let through, every recovery by the root and the preflight, with nothing but such work in between |
| `Cycle.Root.QueueResolution` | internal/cli/app.go:515-560 | the operator's choice becomes a journaled operation exactly when the record can be resolved that way and its path has no operation yet; the operation carries that choice |
| `Cycle.Root.Resolve` | internal/cli/app.go:355-403 | the operator's command moves exactly a blocked row back to recovery; a restore, unless somebody writes meanwhile, only when the parked object is the pinned one and its path is free; every other operation, the baselines and the past stay as they are |
| `Cycle.TableAfterSays` | internal/store/entries.go:108-166 | a completion changes the row of its own path only, to the pair it committed or to none |
| `Cycle.RunCycles` | internal/syncer/cycle.go:65-280 | over any run from an empty store, with the operator's commands between the cycles, every baseline row is two-sided, of one kind and of equal bytes |
| `Cycle.StoreAloneIsWeaker` | internal/store/entries.go:169-177 | the store itself accepts a one-sided row |
| `Runner.OneLiveWorkerPerRoot` | internal/daemon/runner.go:121-172 | two live workers of one root are the same worker |
| `Runner.Supervisor.Reap` | internal/daemon/runner.go:132-140 | exactly the entries of fully exited workers are dropped |
| `Runner.Supervisor.SyncWorkers` | internal/daemon/runner.go:127-172 | enabled roots have a worker, paused and removed ones a cancelled one, and the fence holds while workers unwind |
| `Runner.Supervise` | internal/daemon/runner.go:111-199 | at most one live worker per root over any history of pauses, resumes, removals and slow exits |
| `Runner.LastAnswersAll` | internal/daemon/runner.go:326-333 | every hint was answered exactly when the last event is not one |
| `Runner.RootLoop.RunPending` | internal/daemon/runner.go:237-283 | the pending branch always clears the flag and does what the row that was read asks for: a cycle for an enabled root with a data plane, standing down with that reason otherwise, an end for a removed root |
| `Runner.RootLoop.Select` | internal/daemon/runner.go:285-340 | which wakeups ask for another cycle, which end the worker, and that no hint leaves the channel without one |
| `Runner.RootLoop.Run` | internal/daemon/runner.go:201-341 | every hint, accepted or coalesced, is followed by a cycle or by the root being found unreadable, paused or without a data plane, unless the channel holds it or a cycle is pending; no more cycles start than hints taken and other wakeups ask for; it ends only at a wakeup that ends it or when the root is gone |

## Left out

- Move operations: no decision asks for them and the syncer blocks them at once.
- Rows of schema versions 4 to 6 other than claims with an unknown target, and with them the branch that blocks a started row without a complete pin.
- Several operations of one root are modelled one world each; what one does to another's path is an edit by others there.
- `Cycle.Root.RunOperation`: each operation's world begins with what stands at its path then; that it agrees with the pass's snapshot is assumed only in `EndToEnd.UndisturbedPassLeavesNoWork`.
- `OperationHost.Host.Unstage`: cannot fail, because the code ignores that error.
- `OperationActions.DeleteRemoteKeepsInv`: deletes an empty directory atomically; the backend's gap between the listing and the delete is not modelled.
- `OperationHost.Host.Authorize`: the store's verdict and the copy-projection continuity check are one drawn answer there; `Registry` and `LocalWalk` model what they decide.
- `Registry.Registry.PrepareRoot`: canonicalization of root and mutation paths is a fixed function, so a later change of links above a root is not seen.
- `Runner.RootLoop.Run`: a safety statement; that the select eventually takes a buffered hint is left to the runtime's fairness.
- Eventual success of a cycle: the code has mixes of deletes and new children that fail in every cycle.
- DecideRecovery in internal/reconcile/recovery.go: the syncer does not call it.
- Namespace checks (Unicode normalization, case folding, Windows names): path comparison is a function on names.
- Timestamps other than as version names, error texts, contexts: any call may fail instead.
- The delete fraction is compared over exact rationals, not floating point.
- ScanRemote, the watcher's filesystem events, timers, the CLI, services, paths and release scripts.
