# io-replica, modelled and proved in Dafny

io-replica is an offline-first replication engine that does no I/O itself: coroutines decide,
a driver carries out what they ask for. This project models its decisions and proves what
follows from them over every input, every driver and every schedule.

## How the model is laid out

Strings are byte sequences compared lexicographically (`Text.dfy`), ids are distinct types over
them, and the flag algebra and the placement live in `Placement.dfy`. Everything else follows the
program's parts.

* **The sync.** `Join.dfy` is the ordered walk over both sides. `MergeRules.dfy` says what one
  candidate's three-way merge decides, as a value. `SyncMachine.dfy` is one resumption of the
  coroutine as a function on states, and `Sync.dfy` is the coroutine itself, the class with its
  queues and pending maps updated in place, every method proved against those functions.
  `SyncInvariants.dfy` and `SyncHistory.dfy` hold what every reachable state keeps, whatever the
  driver feeds it; `SyncRuns.dfy` reduces a whole run, batches and chunks included, to an unbounded
  merge followed by an unbounded recording. On that reduction rest `SnapshotOrder.dfy` (listing
  order), `DeltaSync.dfy` (a delta against the whole), `NoLoss.dfy` (staged bodies), `Recording.dfy`
  (what is pushed and what is recorded, at every point of a run) and `Rederive.dfy` (a refused change).
  `Acceptance.dfy` has a server accepting everything, under whatever handles and revisions it chooses;
  `OneHandle.dfy` takes its runs apart handle by handle, `RoundEnds.dfy` says where each handle ends, and
  `RunWrites.dfy` whose row each write is. `Convergence.dfy` (one run brings both sides together),
  `TwoRuns.dfy` (two do where bodies are staged), `CrashReplay.dfy` (a run cut anywhere and run again) and
  `DeltaRemote.dfy` (run after run on deltas) follow from there.
* **The hub.** `Hub.dfy` has the shared item, its projection and its absorption, in place and as
  functions. `HubRoundTrip.dfy` relates the two and `HubAuthors.dfy` follows who put a body there.
  `HubTurns.dfy` has whole accepted runs, each source under its own options, over what the hub offers it,
  absorbed back: each item moves as its own row's round says (`Rounds.dfy`), and a fork is one more item
  (`HubForks.dfy`). `HubDeletion.dfy` and `HubConvergence.dfy` are schedules of them.
* **Rekey, upgrade, mutate.** `Rekey.dfy`, `Upgrade.dfy` and `Mutate.dfy` are the coroutines;
  `RekeyLaws.dfy`, `RekeySync.dfy`, `UpgradeLaws.dfy`, `UpgradeSync.dfy` and the modules `Staging`
  and `Resolution` are what they guarantee, mostly through the sync that follows. `Move.dfy` runs
  both halves of a move against the remote under every schedule.
* **Change keys.** `ChangeKey.dfy` is the field encoding, its decodability and the digest.
* **The environment.** `Storage.dfy` is a storage applying batches in order, `MemRemote.dfy` the
  reference remote of the repository's own suites: revisions, change counters, vanished handles,
  compare-and-swap preconditions in the sense of section 13.1.1 of RFC 9110, deltas in the style of
  section 3.2 of RFC 7162.

Clocks, networks and disks do not appear: what a driver answers is a parameter, and the theorems
quantify over it. "Accepted" theorems say so in their hypotheses.

## What turned out false as stated

Each with the exact condition, and an input at which it fails.

* A refused body push is *not* always derived again. When the flags settle in the same merge, the row
  lands clean over its staged edit and no later sync pushes it: `Rederive.UnrecordedRederives`, whose
  condition is on the three flag sets alone, and `Rederive.SettledPushIsForgotten`.
* A cut run does *not* always end, run again, where it would have. It does if and only if no row is based
  on flags alone against a remote reporting a revision, no flags the remote never read are all there is
  to settle, and no refused delete is given back with flags still to settle: `CrashReplay.ReplaysExactly`
  and `CrashReplay.SomeNeverReplay`. A body served and never recorded meets its own revision as a
  stranger's: `CrashReplay.BodyReplays`.
* A run on a delta is *not* always the run on everything. The rows an accepted run leaves stand for what
  the next delta is silent about if and only if each it pushes nothing of catches up with its member: no
  flags withheld beside flags the member gained, no refused delete of a member whose flags moved:
  `DeltaRemote.UnpushedStandsFor`. Such a delete given back is left stale until the next full run:
  `DeltaRemote.RevertedDeleteGoesStale`.
* A source can conflict with its own body. Whether it can is read off the hub, being whether the shared
  body is the one its binding last agreed on: `HubAuthors.ConflictsExactly`. A dropped binding agrees on
  none (`HubAuthors.DroppedMayConflict`, `HubAuthors.DroppedAuthorMayConflict`), nor may one the hub first
  met as a delete (`HubAuthors.TombstoneFirstMayConflict`).
* A rekey batch writes a handle twice exactly when the new space reuses the handle a revived edit
  keeps: `RekeyLaws.ReusedHandleIsWrittenTwice` and `RekeyLaws.ReusedHandle`.
* A minted link id is ambiguous for handles holding the separator: `UpgradeLaws.MintIsInjective`,
  `UpgradeLaws.MintCollides`.
* A body linked from the store leaves a staged edit exactly where the row has no base to move with it:
  `UpgradeLaws.LinkedIsSynced` and `UpgradeLaws.BaselessLinkIsStaged`.

## Model

| member | source | states |
|---|---|---|
| FlagLaws.ChangedSideWins | src/placement.rs:112-142 | per marker: whoever changed its presence since the base wins, and an unchanged one stays |
| FlagLaws.MergeIsStable | src/placement.rs:112-142 | merging again with the merge folded in on either side, or both, gives the merge |
| FlagLaws.UnchangedSideYields | src/placement.rs:112-142 | against a base equal to one side the other side's set is the answer |
| FlagLaws.UnknownHasNoOpinion | src/placement.rs:128-142 | a set never read yields to the other side, as local or as remote |
| JoinLaws.CollectIsOrderedMap | src/sync.rs:1046-1068 | a loaded listing collects into strictly ascending rows, the last row of each handle kept |
| JoinLaws.NormaliseIsOrderedMap | src/sync.rs:363-390 | any enumeration, unsorted or with repeats, becomes strictly ascending, the first item of each handle kept |
| JoinLaws.NextIsLeast | src/sync.rs:1327-1363 | one step of the walk takes the least handle of either side with exactly what each side holds under it |
| JoinLaws.WalkIsKeyedUnion | src/sync.rs:1299-1364 | the walk is the keyed union: ascending, each handle once, paired with both lookups, nothing else |
| SnapshotOrder.PermutationRunsTheSame | src/sync.rs:363-390 | a permuted duplicate-free snapshot gives an identical run, requests and report |
| SnapshotOrder.RunsTheSame | src/sync.rs:363-390 | so does any listing answering each handle alike, repeats included |
| SyncInvariants.EffectShape | src/sync.rs:446-617 | one candidate derives at most one change, of its own handle and matching what it leaves pending, writes at most three ops and counts each event |
| SyncInvariants.RecordAllCounts | src/sync.rs:1084-1150 | results, duplicates and strangers included, settle each pending handle at most once, one event per push counted |
| SyncInvariants.UnexpectedChangesNothing | src/sync.rs:1033-1185 | exactly the arguments the phase did not ask for fail, and they leave the state as it was |
| SyncInvariants.ResumeKeeps | src/sync.rs:1033-1185 | every resumption keeps the invariant for any argument, so the merge it continues always exists |
| SyncHistory.BooksBalance | src/sync.rs:217-276 | after any arguments in any order: one outstanding change per handle, disjoint pending maps within queue and flight, pushed within derived, events conserved |
| Sync.ReplicaSync.constructor | src/sync.rs:278-300 | a new coroutine holds nothing and satisfies the invariant |
| Sync.ReplicaSync.Resume | src/sync.rs:1033-1185 | the class with its fields in place refines the value machine, step and state, and keeps the invariant |
| Sync.ReplicaSync.MergeStep | src/sync.rs:394-424 | the merge loop yields what the machine yields, a full batch or the first chunk |
| Sync.ReplicaSync.Advance | src/sync.rs:308-337 | the next chunk of at most 64 pushes, or the closing write |
| Sync.ReplicaSync.TakeBatch | src/sync.rs:343-356 | the gathered writes leave with the checkpoint last once nothing is left to push |
| Sync.ReplicaSync.MergeCandidate | src/sync.rs:446-617 | one candidate's writes, report, pending entry and derived change are those of its merge rule |
| Sync.ReplicaSync.ReconcileContent | src/sync.rs:627-684 | the content axis in place agrees with its rule in every policy |
| Sync.ReplicaSync.ReconcileFlags | src/sync.rs:785-860 | the flag axis in place agrees with its rule, withheld or not |
| Sync.ReplicaSync.RecordResults | src/sync.rs:1084-1150 | the recording loop settles the four pending maps as the fold of its results does |
| Sync.ReplicaSync.NextMergeable | src/sync.rs:429-442 | the next candidate a delta does not leave untouched |
| SyncRuns.ResumeShrinks | src/sync.rs:308-421 | every answered request strictly lowers a measure on walk and queue, so every run ends |
| SyncRuns.RunIsUnbounded | src/sync.rs:308-421 | every run is load, enumerate, full merge batches of 1024 to 1026 ops, then one closing write or alternating pushes and writes with the checkpoint last; its ops, pushes and report are those of the unbounded merge and recording |
| DeltaSync.DeltaRunIsFullRun | src/sync.rs:1244-1288 | on a truthful delta the run is the complete snapshot's run: same requests, batch boundaries, chunks and report |
| DeltaRemote.DeltaIsFaithful | tests/common/mod.rs:323-387 | the reference remote's delta is truthful for rows standing, wherever it is silent, for what the remote holds |
| DeltaRemote.IncrementalRunIsFullRun | tests/common/mod.rs:323-387 | and the incremental run on it is then the full run |
| DeltaRemote.UnpushedStandsFor | src/sync.rs:785-881 | a listed row no change is pushed of ends standing for its member, and sound, if and only if it catches up with it |
| DeltaRemote.RevertedDeleteGoesStale | src/sync.rs:862-881 | a refused delete of a marked member, given back, is left at its old flags by the next delta run, where the full run pulls the marker |
| DeltaRemote.PermittedCatchUp | src/sync.rs:446-617 | under every right every row catches up |
| DeltaRemote.RunRecords | src/sync.rs:343-356 | an accepted run under any policy whose rows catch up, its pushes stamped after the checkpoint it took, leaves rows standing for all the delta from there is silent about, whoever edits the remote meanwhile |
| DeltaRemote.NextRunIsFullRun | src/sync.rs:343-356 | so run after run, on a delta from the checkpoint before its own pushes, the next run is the run on everything |
| MemRemote.HistoryKeepsSince | tests/common/mod.rs:169-245 | after any history a member unstamped since a counter is as it was, and one gone since is stamped |
| MemRemote.MemRemote.Push | tests/common/mod.rs:431-608 | changes serviced in place, in order, with the outcomes the remote's rules give |
| MemRemote.MemRemote.Enumerate | tests/common/mod.rs:323-387 | lists exactly the members changed since a cursor and the handles gone since, or everything |
| NoLoss.NoStagedBodyIsLost | src/sync.rs:520-557 | under any policy but the remote's, with new handles, a staged body ends in some stored row or rode an add accepted unnamed, whatever results come back |
| NoLoss.MergeKeepsOrForks | src/sync.rs:627-780 | the merge of a staging row keeps its body or forks it first, under every policy but the remote's |
| NoLoss.RecordAllHolds | src/sync.rs:1084-1150 | recording arbitrary results keeps a held body held |
| Acceptance.PushesRecorded | src/sync.rs:1084-1164 | where chunks end plays no part in what accepted pushes record |
| Acceptance.AcceptanceIsOne | src/sync.rs:308-337 | a driver can answer any run with its acceptance, and in one way: pushes and chunk ends never depend on answers |
| Acceptance.AcceptedRun | src/sync.rs:308-421 | an accepted run writes its merge, then each push's recording in turn, then the checkpoint |
| OneHandle.RunTouches | src/sync.rs:394-617 | the ops of an accepted run touching a handle no create is assigned and no fork takes are, in order, those of its own row's merge and of recording its own change |
| RoundEnds.RunEnds | src/sync.rs:446-1026 | so any accepted run, whatever the rows, rights, policies and revisions, leaves such a handle on the row and the member its candidate's case says |
| Convergence.SettledEnds | src/sync.rs:446-617 | with every right and no body staged on it, a handle ends with row, base and member on the same flags and a clean row, or gone from both sides |
| Convergence.RunSettles | src/sync.rs:394-617 | an accepted full run, against a server with revisions or without, leaves each handle on its final row and the server on the same flags |
| Convergence.CreateSettles | src/sync.rs:1009-1026 | a create ends under its assigned handle on both sides, its body its base |
| Convergence.RunConverges | src/sync.rs:394-617 | after one accepted full run: same handles on both sides, every row clean, flags equal on row, base and server, and which ones |
| Convergence.NextRunIsIdle | src/sync.rs:785-860 | the next run writes only its checkpoint and reports nothing |
| TwoRuns.TwoRunsConverge | src/sync.rs:583-587 | of rows staging bodies and flags alike, under any policy but a divergence left to the user, two accepted full runs bring the sides in step: content and forks first, the withheld flags and the forks' adds second; a body the first pushed ends on row, base and server with the merged flags |
| Recording.OneChunkUnrecorded | src/sync.rs:302-337 | whatever is answered, at every point of every run: all pushed is what is recorded and at most one chunk more, on disk are the merge and exactly the recordings of the chunks recorded, the checkpoint comes last, and with every chunk recorded that is all an unbounded run writes |
| CrashReplay.ReplaysExactly | src/sync.rs:446-860 | for every row, member, right and policy where no body is pushed, added or forked: every state a cut leaves is headed for the same end if and only if the handle replays |
| CrashReplay.MidwayEndsTheSame | src/placement.rs:112-142 | each state a cut leaves of a handle that replays is headed for the same row and the same member |
| CrashReplay.ReplayEndsTheSame | src/sync.rs:308-356 | a run cut after any request, with any of its ops on disk in any order and any further pushes serviced, leaves on re-run each handle that pushes no body and replays where the uninterrupted one does, whatever bodies other handles push, add or fork; content pulls, conflicts, removes, withheld rights and revisions included |
| CrashReplay.RunReplays | src/sync.rs:308-356 | so store and server end as one where no handle pushes, adds or forks a body |
| CrashReplay.ReplayOnDeltaEndsTheSame | src/sync.rs:1244-1288 | the same for each such handle where the re-run is told only a truthful delta |
| CrashReplay.SomeNeverReplay | src/sync.rs:785-881 | an input for each way of not replaying |
| CrashReplay.BodyReplays | src/sync.rs:627-740 | a body served and not recorded ends as it would have if and only if the remote reports no revision or the policy pushes over it, and in a conflict exactly under the manual policy |
| CrashReplay.FollowPrefix | src/sync.rs:308-421 | what a run asks for never depends on answers not yet asked for |
| Rederive.UnrecordedRederives | src/sync.rs:799-858 | a change never recorded is derived again, the same, unless its flags settled beside a pushed body, and then never |
| Rederive.FlagsRederive | src/sync.rs:833-858 | a flag push rejected or not permitted to land re-derives the same merge |
| Rederive.PushedRederives | src/sync.rs:583-587 | a refused body push is derived again if and only if the flags did not settle beside it |
| Rederive.SettledPushIsForgotten | src/sync.rs:799-858 | an edited body beside a marker the remote added, refused: the row is left clean over the edit and the next sync derives nothing |
| Rounds.FlagsOnlySync | src/sync.rs:785-860 | an accepted flag sync pushes the merged set exactly when the remote lacks it and leaves it on row and base |
| Storage.MemStorage.Write | tests/common/mod.rs:100-127 | a batch applied in place is its ops applied in order: the rows, the bodies it stores, the checkpoint its last one |
| Storage.SetApplies | tests/common/mod.rs:100-127 | a batch touching each row with one op applies alike in any order |
| Hub.ReplicaHub.Project | src/hub.rs:196-223 | what a source is offered of every item, in link order |
| Hub.ReplicaHub.Absorb | src/hub.rs:309-321 | a batch absorbed in order, items left without a source let go at the end only |
| Hub.ReplicaHub.AbsorbUpsert | src/hub.rs:323-391 | one upsert folds shared fields, settles the body and rebinds its source, nothing else |
| Hub.ReplicaHub.ReconcileContent | src/hub.rs:431-486 | adopt, keep or diverge as the two bases say, a divergence by policy |
| Hub.ReplicaHub.AbsorbDrop | src/hub.rs:488-508 | a drop unbinds its source wherever it is bound at the handle, marking a genuine delete |
| HubRoundTrip.ProjectionAbsorbsToItself | src/hub.rs:393-421 | what a source is given of an item it holds, handed back, moves no content, no base and no conflict |
| HubRoundTrip.AbsorptionProjectsBack | src/hub.rs:393-421 | an absorbed row comes back with its handle, its base and its conflict, a delete as a delete |
| HubRoundTrip.AbsorptionIsLocal | src/hub.rs:323-391 | an absorption touches no other source's binding and no other item |
| HubRoundTrip.NoOpinionErasesNothing | src/hub.rs:363-391 | unknown flags, no summary and no sort key erase none; a kept body never loses level, a lost one stops claiming it |
| HubRoundTrip.LivedIsPlain | src/hub.rs:345-391 | over any history no binding keeps a trace of a conflict it is not in, so every projection of a hub that came to be is absorbed back unmoved |
| HubAuthors.LivedIsCredible | src/hub.rs:323-391 | over any history each shared body has an author, and one still bound last agreed on that body |
| HubAuthors.ConflictsExactly | src/hub.rs:421-486 | some live upsert of a source diverges from the shared body if and only if that body is not the one its binding last agreed on |
| HubAuthors.IntactAuthorAgrees | src/hub.rs:421-486 | over any history an author the hub has not lost sight of is a source that cannot conflict |
| HubAuthors.AbsorbedAgrees | src/hub.rs:431-486 | nor can the source of the upsert just absorbed, under any policy |
| HubAuthors.ConflictIsWithAnother | src/hub.rs:421-486 | over any history a live upsert conflicts only with a body another source authored, or one whose author the hub lost; under the manual policy both bodies are held |
| HubAuthors.OnlyDivergenceConflicts | src/hub.rs:431-486 | the conflict flag goes up only on a divergence under the manual policy |
| HubAuthors.DroppedMayConflict | src/hub.rs:488-508 | a source just dropped may conflict if and only if a body is left |
| HubAuthors.DroppedAuthorMayConflict | src/hub.rs:488-508 | a history where it is its own body it may conflict with |
| HubAuthors.TombstoneFirstMayConflict | src/hub.rs:345-361 | an item first met as its delete may conflict with its own source exactly where the delete's body is not its base's |
| RunWrites.RunFollows | src/sync.rs:446-1026 | every row an accepted run writes carries the identity of a row it was loaded with, at its handle or the one its create was assigned, or is the fork of a listed one |
| HubTurns.HeldTurn | src/hub.rs:196-223 | a whole run over everything offered to a source, under whatever options, absorbed, does to each item it holds that is no fork, and to its member, what that row's own round does |
| HubTurns.TurnKeepsOrder | src/hub.rs:309-321 | and leaves the hub in order, forks included: every item held by someone, no two of a source's items at one handle |
| HubForks.ForkTurn | src/sync.rs:741-779 | a run keeping both bodies of a row leaves the row's own in the hub as an item under its own identity, live and unconflicted, held by that source alone and offered to it as a create |
| HubDeletion.TombstoneRound | src/hub.rs:266-281 | a holder's accepted sync of a deleted item asks for its own row dropped and nothing else |
| HubDeletion.DeletionStep | src/hub.rs:196-223 | a source's whole run, whatever else it syncs, takes away exactly its own binding of a deleted item; one lacking the item is offered nothing of it and writes nothing of it |
| HubDeletion.DeletionRuns | src/hub.rs:309-321 | under any schedule of whole runs, each source under its own options and forks among them, the holders left are those that did not sync |
| HubDeletion.DeletionCompletes | src/hub.rs:309-321 | the item is gone if and only if every holder has synced |
| HubDeletion.SupersedingDeletesNothing | src/hub.rs:488-508 | a batch with no genuine delete marks no item deleted |
| HubDeletion.RekeyedCreateKeepsItem | src/sync.rs:1009-1026 | the drop and upsert of an accepted create leave the item bound under the new handle, other bindings alone |
| HubConvergence.BoundRound | src/hub.rs:226-264 | a bound source's sync pushes the body if it is behind, else the flags, else nothing |
| HubConvergence.SharedTurn | src/sync.rs:583-587 | a source's whole run moves its own binding of a shared item one step nearer, its server with it, and nothing else of the item |
| HubConvergence.HoldersArrive | src/hub.rs:226-264 | over any interleaving of whole runs, each source under its own options, two turns bring a source and its remote to the shared body and flags, whatever the other holders' state and whatever else each syncs or forks |
| HubConvergence.ArrivedIsIdle | src/hub.rs:226-264 | from then on its run leaves the item and its member as they are |
| Rekey.ReplicaRekey.Rebuild | src/rekey.rs:85-180 | the batch and the report are those of the spine, its links and the new members |
| Rekey.ReplicaRekey.Resume | src/rekey.rs:285-362 | load, enumerate, resolve when some row has a link, write once; anything else fails and changes nothing |
| RekeyLaws.RebuildIsASet | src/rekey.rs:156-172 | no two ops touch one handle, so none is both dropped and upserted |
| RekeyLaws.ReusedHandleIsWrittenTwice | src/rekey.rs:136-149 | that holds if and only if the new space reuses no handle a revived edit keeps |
| RekeyLaws.ReusedHandle | src/rekey.rs:136-149 | an edit whose link the new space does not resolve, on a handle it reuses, is written as the new member and then as the revived create |
| RekeyLaws.RebuildsTheSpace | src/rekey.rs:85-181 | applied in any order: new members' rows, edits with no new home, nothing else of the old spine, the rest untouched |
| RekeyLaws.EditsSurvive | src/rekey.rs:123-149 | every staged edit is carried or revived, still staged |
| RekeyLaws.ReportAccounts | src/rekey.rs:150-154 | rows with pending state are those carried, those revived and those counted dropped |
| RekeySync.RekeyCommutesWithMerge | src/rekey.rs:186-246 | rekey then sync pushes the merged flags a direct sync would, when it would, and ends on the same flags and base |
| RekeySync.CarriedTombstonePushes | src/rekey.rs:186-246 | a carried tombstone still pushes its remove, destination kept, at the new revision |
| RekeySync.CarriedEditPushes | src/rekey.rs:20-23 | a carried edit pushes its body against the new revision, last writer winning |
| Upgrade.ReplicaUpgrade.LinkStored | src/upgrade.rs:178-212 | stored bodies linked for rows whose link may stand for them, the rest left to fetch |
| Upgrade.ReplicaUpgrade.WriteFetched | src/upgrade.rs:296-409 | fetched items applied in handle order against the identities held and claimed so far |
| Upgrade.ReplicaUpgrade.Resume | src/upgrade.rs:114-290 | which of load, lookup, fetch and link check each answer leads to; anything else fails and changes nothing |
| UpgradeLaws.LinksStayDistinct | src/upgrade.rs:239-361 | the whole batch, stored bodies linked and fetched items applied after the link check, keeps link ids distinct where the keys it mints differ from each other and from every one held or hinted |
| UpgradeLaws.SeparatedMintsDiffer | src/upgrade.rs:411-429 | handles holding no separator mint keys that differ |
| UpgradeLaws.OrderPlaysNoPart | src/upgrade.rs:310-317 | a fetch answered in another order writes the very same ops |
| UpgradeLaws.MintIsInjective | src/upgrade.rs:411-429 | a minted key determines its hint and its handle when handles hold no separator |
| UpgradeLaws.MintCollides | src/upgrade.rs:411-429 | with one in the handle the same key is minted for another pair |
| UpgradeLaws.LinkedIsSynced | src/upgrade.rs:190-208 | a linked row has no staged edit if and only if it has a base |
| UpgradeLaws.BaselessLinkIsStaged | src/upgrade.rs:190-208 | a row never based, linked to a stored body, is left holding it as an edit |
| UpgradeLaws.FullBodyStays | src/upgrade.rs:92-107 | an upgrade fetching only what it asked for never replaces the body of a full row holding one |
| UpgradeSync.UpgradeIsNoEdit | src/upgrade.rs:190-208 | a fetched or linked body moves the base with it, so no later sync reads it as an edit |
| Mutate.ReplicaMutate.Writes | src/mutate.rs:190-308 | each mutation's field-by-field edit ends on the row its rule states |
| Mutate.ReplicaMutate.Resume | src/mutate.rs:387-444 | load what is read, write what is staged, refuse unknown handles and live identities |
| Staging.ComposeIsDelivered | src/mutate.rs:344-380 | a composed item stages one add naming its identity, flags and body if and only if adding is allowed; accepted, it is the only row, under the assigned handle, clean and based on that body |
| Staging.CopyIsDelivered | src/mutate.rs:313-340 | a copy likewise, named by where its source lives, with its source's identity, flags and body |
| Staging.FlagEditIsDerived | src/mutate.rs:191-202 | the next sync pushes the set a flag edit states exactly when it changes anything |
| Staging.BodyEditIsDerived | src/mutate.rs:207-270 | it pushes an edited body against the base's revision exactly when the body changes |
| Staging.DiscardIsDerived | src/mutate.rs:203-206 | it removes a discarded row under its identity and its base's revision |
| Staging.RefusedDelete | src/sync.rs:862-881 | a delete a source will not take gives the very row back, or waits |
| Staging.UnpermittedEditWaits | src/sync.rs:627-684 | an edit without the right pushes nothing and stays staged |
| Resolution.ResolutionPushes | src/mutate.rs:222-255 | the sync after a resolution pushes the kept body at the observed revision if and only if the remote is still there and the bodies differ |
| Resolution.KeepingTheRemoteSettles | src/mutate.rs:222-255 | keeping the remote body ends clean with no content push |
| Resolution.KeepingTheLocalSettles | src/sync.rs:980-1003 | keeping another, once accepted, ends based on it at the revision the remote gave |
| Resolution.MovedRemoteReopens | src/sync.rs:627-740 | a remote that moved since conflicts anew or is pulled, never pushed over |
| Move.MoveDeliversOnce | src/change.rs:58-81 | under every schedule of the two staged rows' syncs the target holds the item at most once, the two sides always hold it, and once the source has synced it holds it exactly once there |
| Move.ScheduleAdvances | src/mutate.rs:273-305 | whatever the schedule the world is one of four, decided by who synced first |
| Move.TombstoneMoves | src/sync.rs:499-518 | a moved row's sync derives one remove naming its target and its identity, and drops the row |
| ChangeKey.PreimageDecodes | src/change.rs:157-206 | two changes fold the same bytes if and only if collection, handle and target state are the same |
| ChangeKey.FlagsSplit | src/change.rs:254-267 | a flag set's bytes end where they end: counted, ordered, unknown apart from empty |
| ChangeKey.Key | src/change.rs:157-272 | the key is the wrapping FNV-1a fold of those bytes, written in hexadecimal |
| ChangeKey.KeyTells | src/change.rs:269-272 | a key is sixteen lower-case hexadecimal digits, the same for two digests only if they are |
| ChangeKey.RetryKeepsKey | src/change.rs:155-157 | a precondition, and a remove's identity, leave the key alone |
| ChangeKey.ReplicaChangeDigest.FieldFlags | src/change.rs:254-267 | the loop over the markers folds the set's encoding |

## Left out

- Logging, error display, the id macro and the open verb: no decision depends on them.
- The client: its driver loop appears as the answers every theorem quantifies over, its error wrapping not at all.
- Change keys on sync yields: a push carries its kind, and the key is a function of collection and kind.
- ChangeKey.KeyTells: no claim is made that the digests of different changes differ.
- Resolution, Staging, Rounds and Rekey's modules follow one row at a time, `OneHandle.RunTouches` being what a whole run makes of one.
- Move.MoveDeliversOnce: a step is the sync of the one staged row, the remote refusing what it refuses; whole runs are followed only where every push is accepted.
- Move.ScheduleAdvances: the same.
- Convergence.RunConverges: no body staged on a based row, since its push leaves the flags of that row to the next run (`TwoRuns.TwoRunsConverge`).
- TwoRuns.TwoRunsConverge: no conflict left to the user, which no run ends.
- CrashReplay.ReplayEndsTheSame: a handle pushing a body (`CrashReplay.BodyReplays` is why) or waiting to be added; a lost add is recognised by its link id and not by replay.
- HubTurns.HeldTurn: for an item that is itself a fork, only runs that keep no second body; a server names nothing as the engine names pending creates and forks.
- HubConvergence.HoldersArrive: for holders at the base their own server reports; one that is behind pulls first.
- NoLoss.NoStagedBodyIsLost: under the remote-wins policy bodies are dropped by design, so that policy is excluded.
- UpgradeLaws.LinksStayDistinct: a fetch is taken to answer each handle once.
- Storage: one collection per storage.
- MemRemote: one counter and plain members; call counts, batch sizes and the fetch of bodies are not kept, and a cursor is the number it parses as.
- The hub-backed store's residual list of rows no link id has hubbed yet.
- The library sort of enumerations and of fetched items is a stable insertion sort, and ordered maps are ascending sequences or maps read in key order.
- Rust ownership, iterator adaptors and allocation: iterators are indices into sequences.
- UTF-8 validity: a string is any byte sequence.
