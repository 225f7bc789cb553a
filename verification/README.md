# Scrapscache: a verified model

This project models the parts of Scrapscache where several devices, several requests or
several storage calls meet, and proves what holds of them in every state and every run.
`dafny verify dfyconfig.toml` checks all of it.

## What is modelled

- **The relay round** (`RelayTables`, `RelayRound`, `RelayCleanup`, `RelaySpec`,
  `Coordinator`, and the proof modules beside them). `AccountCoordinator.Sync` runs one round
  storage call by storage call, and any call may throw. The state is the D1 tables of one
  account (account row, live envelopes, history, staged deletions, reservations, history
  usage) and the R2 bucket beside them. `RelaySpec` says what each exit answers and leaves;
  `RelayTheorems`, `RelayEffects`, `RelayConditions`, `RelayReadOnly` and `RelayRuns` prove
  what follows for quota, usage, crash safety, resending and runs.
- **Rounds that overlap** (`WriteLock`, `LockedRounds`): the promise chain, the session queue,
  and rounds run through them, with read-only pages read beside writing rounds.
- **The clients** (`RelayView`, `Session`, `SyncSystem`, `SyncProofs`, `DownloadProofs`,
  `McpSession`). A round is one atomic step on the cells clients see. Any number of sessions,
  other clients, failed calls and deletions interleave; the class `McpSession` takes only
  steps of that system.
- **Convergent merges**: reminder receipts, the canvas library, kanban boards, and exactly
  when three copies of a board merge the same in either grouping (`KanbanGrouping`).
- **Markdown**: the budgeted inline tokenizer against an unbudgeted reading, and the two block
  parsers against each other.
- **Smaller protocols and loops**: the reminder alarm, OAuth codes and token rotation, editing
  at many cursors, the TIFF walk for DNG previews.

Code that works step by step is a class or a loop proved against a specification function;
the laws are proved of that function.

## Assumptions

- An object key is drawn once and never again (`LockedRounds.DrawnOnce`); upload ids are new, or known only for the same
  record (`UsageProofs.OwnIds`). Most theorems about one round need only that
  the keys drawn are not in use.
- The history window is at least 1. A round that deletes and uploads the same slot is allowed
  by `Sync` and `RoundEffect`; only resending (`Plain`) asks for distinct slots.
- D1 runs a batch as one transaction; each R2 put or delete happens or fails as one step.
- `mergeTwoNotes` is a join (commutative, associative, idempotent), sealing can be undone, and
  an edit only moves a note up in the merge order. A foreign client's write includes the note
  it replaces, as a session's does. One slot holds one record.
- A wake id determines its note and time, stable texts tell values apart, and the column ids of
  one board are distinct. Two writes of a board's layout, or of one column's order, that carry
  the same time and writer are the same write (`KanbanGrouping.Agree`).
- Character classes (`space`, `word`) are parameters; the proofs hold for any.

## Findings

Each row is a promise the code does not keep on every input. The members give a concrete input
and, where the promise does hold, the exact condition.

| promise | where | input that breaks it | when it holds |
|---|---|---|---|
| every stored object is named by some row | cf/accountCoordinator.ts:525-538 | `LeftoverRun.LeftoverReached`, `RelayConditions.LeftoverOrphans`: delete cut short after its commit, write again, delete again | `RelayConditions.ObjectsStayNamed` |
| the kept history usage is the true one | cf/accountCoordinator.ts:674-678 | `RelayConditions.HeldUploadForgets`: a round with an upload already held and another accepted | `RelayTheorems.UsageStaysExact`, over runs `RelayRuns.UsageOverRuns`; how far off, `RelayTheorems.DriftMoves` and, after a round cut short, `RelayRuns.CutShortStays` |
| a read-only round touches nothing a later round recomputes | cf/accountCoordinator.ts:150-158 and 624-636 | `RelayReadOnly.StaleTouchLoses` (counts) and `RelayReadOnly.StaleTouchRewinds` (sequence counter; its clients: `RewoundResets`, `RewoundHides`) | `RelayReadOnly.StaleTouchSound`, `RelayReadOnly.StaleTouchHarmless` |
| edits to different parts of a board both survive | src/lib/kanban.ts:331-333 | `KanbanProofs.UnstampedOrderLost`: a rename undoes a rearrangement whose base order was never stamped | `KanbanProofs.OrderSurvives`, `KanbanProofs.SettingsSurvive` |
| board merges group freely | src/lib/kanban.ts:422-428 and 331-333 | `KanbanGrouping.DroppedColumnForgets`: a layout that drops a column forgets its order; `KanbanGrouping.UnstampedOvertakes`: with the same columns in all copies, an order never stamped counts from the merge's update time | `KanbanGrouping.GroupingsAgree`; stamped copies with the same columns: `KanbanGrouping.MergeAssociates`; name and filters always: `KanbanProofs.SettingsAssociate` |
| the editor's scanner finds the text parser's blocks | src/lib/markdown.ts:473-478 | `BlockProofs.TableOverItem`: a bullet over a delimiter row | `BlockProofs.AgreeUnlessTableOverItem` |

## Model

| member | source | states |
|---|---|---|
| RelayTheorems.QuotaKept | cf/accountCoordinator.ts:552-561 | After an accepted round live storage (bytes and 512 a record) is at most the larger of the quota and its value before |
| RelayRuns.UsageOverRuns | cf/accountCoordinator.ts:672-712 | Over any run of answered rounds that send no held upload to a record with older versions, from a sound account with exact usage, every state is sound with exact usage, and each round that changed something ends in its quota or with no older version left |
| RelayRuns.FinalHome | cf/accountCoordinator.ts:562-613 | A finished round keeps every version of an id in one record, and a live id's versions in its own, if the ids it accepts are new or its own |
| RelayRuns.RoundStaysAccounted | cf/accountCoordinator.ts:331-734 | One answered round, whatever its exit, keeps soundness, ids at home and exact usage |
| RelayTheorems.DriftMoves | cf/accountCoordinator.ts:670-712 | A finished round that changed something moves the difference between kept and true history usage by exactly what it read of the older versions of records it names without touching |
| RelayTheorems.CutShortDrift | cf/accountCoordinator.ts:656-669 | A round stopped at its commit, or after purge and prune, leaves the kept usage off by the difference between the older versions its records had and have |
| RelayRuns.CutShortHome | cf/accountCoordinator.ts:656-669 | Stopped there it leaves a sound account with every id in one record |
| RelayRuns.RoundKeepsDrift | cf/accountCoordinator.ts:331-734 | One answered round, whatever its exit, leaves the kept usage as far from the true one as it found it |
| RelayRuns.DriftOverRuns | cf/accountCoordinator.ts:672-712 | So does any run of answered rounds |
| RelayRuns.CutShortStays | cf/accountCoordinator.ts:656-712 | After a round cut short at its commit, any run of answered rounds leaves the kept usage off by exactly what that round did to the versions of the records it touched |
| RelayRuns.FinalHistory | cf/accountCoordinator.ts:658-702 | Clearing away only drops versions |
| RelayRuns.NewAccount | cf/accountCoordinator.ts:407-415 | A new account meets all of this |
| RelayTheorems.UsageStaysExact | cf/accountCoordinator.ts:672-712 | A finished round that changed something keeps the history usage exact if and only if the records it names without touching hold no older version |
| RelayConditions.HeldUploadForgets | cf/accountCoordinator.ts:674-678 | A concrete account and round whose usage is exact before and wrong after, though nothing fails |
| RelayTheorems.QuotaMet | cf/accountCoordinator.ts:683-702 | With exact usage, a finished round ends with live and history storage in the quota, or no older version left |
| RelayEffects.RoundEffect | cf/accountCoordinator.ts:516-623 | Each record after a round: the last accepted upload to its slot with its own sequence number, gone if a matching deletion named it, else untouched |
| RelayEffects.ResendChangesNothing | cf/accountCoordinator.ts:714-727 | A drained client that sends a committed round again is told its writes are accepted, and only the last-seen time changes |
| RelayEffects.RefusedChangesNothing | cf/accountCoordinator.ts:428-486 | Reset, page, conflict and quota answers, and rounds that ask for no write, change nothing but the last-seen time |
| RelayEffects.IdleRound | cf/accountCoordinator.ts:624-636 | A round that accepts nothing and removes nothing leaves the disk as it was, and answers that writes are accepted |
| RelayConditions.ObjectsStayNamed | cf/accountCoordinator.ts:525-548 | A finished round leaves every stored object named by a row if and only if no deletion overwrites a leftover staged copy whose object nothing else names |
| RelayConditions.LeftoverOrphans | cf/accountCoordinator.ts:525-538 | A concrete sound account on which a round that never fails leaves an object no row names |
| LeftoverRun.LeftoverReached | cf/accountCoordinator.ts:522-524 | That account is reached from a new one: a write, a delete cut short right after its commit, and another write with a window of one version |
| RelayConditions.LeftoverSound | cf/accountCoordinator.ts:522-524 | That account is sound with every object named before the round |
| RelayReadOnly.StaleTouchSound | cf/accountCoordinator.ts:624-636 | A read-only round that writes its counters back without the lock keeps the account sound and its sequence counter from falling if and only if the counts it read still hold and no sequence number was handed out since |
| RelayReadOnly.StaleTouchHarmless | cf/accountCoordinator.ts:153-154 | It touches nothing but the last-seen time if and only if the counters and the update time it read are still the account's |
| RelayReadOnly.StaleTouchLoses | cf/accountCoordinator.ts:419-426 | A concrete overlap: a new account is read by a round whose last-seen update is due, a record is stored to the end, and that update then makes the counters wrong |
| RelayReadOnly.StaleTouchRewinds | cf/accountCoordinator.ts:624-636 | A concrete account, emptied after its fifth record, on which such a due update leaves the counts right and takes the sequence counter back |
| RelayReadOnly.RewoundResets | cf/accountCoordinator.ts:428-439 | A client that had seen everything is then answered with a reset |
| RelayReadOnly.RewoundHides | cf/accountCoordinator.ts:548-550 | Or, once one record was stored in the meantime, that record is live and never sent to it |
| RelayReadOnly.StaleTouchAlone | cf/accountCoordinator.ts:624-636 | With no write in between the write-back is the update of the round run alone |
| RelayConditions.Serve | cf/accountCoordinator.ts:331-734 | Any run of requests, each cut short at any storage call, keeps the account sound and never lowers its sequence counter |
| RelayViewProofs.AnswerOnView | cf/accountCoordinator.ts:428-734 | Whatever exit answers a round, its client sees one atomic round on the cells: page, conflicts, reset, refusal or all writes stored |
| RelayViewProofs.FailureOnView | cf/accountCoordinator.ts:638-656 | To clients a failed round has happened whole with its answer lost, or not at all |
| RelayViewProofs.CommitOnView | cf/accountCoordinator.ts:562-656 | A committed round stores on the cells exactly the deletions and accepted uploads, in order |
| RelayViewProofs.PageDelivers | cf/accountCoordinator.ts:441-457 | A page holds cells above the cursor in ascending order, skips none up to its new cursor, and leaves none when it announces no more |
| RelayViewProofs.ConflictsReported | cf/accountCoordinator.ts:467-484 | The conflicts answered are exactly the cells the uploads clash with |
| Coordinator.AccountCoordinator.Sync | cf/accountCoordinator.ts:331-734 | One round: every exit answers as specified, and a round that fails at any storage call leaves the account sound, objects named where restaging is safe, live records as before or as committed, and no objects but those it found and those it writes |
| Coordinator.AccountCoordinator.AnswerWith | cf/accountCoordinator.ts:428-734 | The exits in turn, once the account is read: each answers and leaves what is specified, or fails and keeps the round invariant |
| Coordinator.AccountCoordinator.SendReset | cf/accountCoordinator.ts:428-439 | A client ahead of the account is told to start over; only the last-seen time moves |
| Coordinator.AccountCoordinator.AnswerDrained | cf/accountCoordinator.ts:459-734 | The exits of a round whose client has seen everything: conflicts, or the write |
| Coordinator.AccountCoordinator.WriteRound | cf/accountCoordinator.ts:488-734 | A round past the reading exits is refused for the quota unchanged, or leaves exactly the final disk; failing, it keeps the round invariant |
| Coordinator.AccountCoordinator.WritePlanned | cf/accountCoordinator.ts:638-734 | A planned round reserves, writes, commits and clears to exactly the final disk |
| Coordinator.AccountCoordinator.PlanHere | cf/accountCoordinator.ts:488-623 | Planning changes nothing and yields the batch that stands for the draft, or refuses exactly when the draft does not exist |
| Coordinator.AccountCoordinator.ReserveAndWrite | cf/accountCoordinator.ts:641-654 | Superseded objects go, keys are reserved and objects written; a crash anywhere leaves a sound disk with nothing newly unnamed |
| Coordinator.AccountCoordinator.PutObjects | cf/accountCoordinator.ts:650-654 | Objects written in any order end as the whole set; a crash leaves any part, all reserved |
| Coordinator.AccountCoordinator.Commit | cf/accountCoordinator.ts:656 | The batch commits as one: the disk is the committed one or unchanged |
| Coordinator.AccountCoordinator.ClearAway | cf/accountCoordinator.ts:658-713 | Purge, prune, settle and evict end in the final disk and keep the round invariant at every call |
| Coordinator.AccountCoordinator.PurgeAndPrune | cf/accountCoordinator.ts:658-669 | Purge then prune: exactly both, a sound disk at every call, and no object but those it found |
| Coordinator.AccountCoordinator.SettleUsage | cf/accountCoordinator.ts:670-712 | The usage is updated by what touched slots hold now and all named slots held before, and eviction follows when over |
| Coordinator.AccountCoordinator.EvictOldest | cf/accountCoordinator.ts:679-702 | Evicts exactly the oldest older versions that must go, and returns the usage that is left |
| Coordinator.AccountCoordinator.EvictAndSave | cf/accountCoordinator.ts:679-712 | Evicts when over the quota with versions to spare and saves the usage |
| Coordinator.AccountCoordinator.PruneHistory | cf/accountCoordinator.ts:736-774 | Drops exactly the versions past the window and the continued ones; a crash anywhere keeps the disk sound |
| Coordinator.AccountCoordinator.PurgeDeletedRecords | src/lib/server/cloudflare/history.ts:87-135 | Deleted records lose their versions, then their staged objects and rows; a crash anywhere keeps the disk sound |
| Coordinator.AccountCoordinator.DropStagedCopies | src/lib/server/cloudflare/history.ts:109-133 | Staged copies lose the objects nothing else names, then their rows |
| Coordinator.AccountCoordinator.DropHistoryRows | src/lib/server/cloudflare/history.ts:21-47 | Dropping rows chunk by chunk equals dropping them at once, objects before rows |
| Coordinator.AccountCoordinator.DropChunk | src/lib/server/cloudflare/history.ts:25-46 | One chunk: the objects nothing else names, then the rows |
| Coordinator.AccountCoordinator.DeleteObjects | src/lib/server/cloudflare/history.ts:10-13 | Deletes the keys; a failed call leaves any of them |
| Coordinator.AccountCoordinator.Batch | cf/accountCoordinator.ts:656 | A batch applies whole or not at all |
| Coordinator.AccountCoordinator.Touch | cf/accountCoordinator.ts:420-426 | Only the last-seen time moves, and only when due |
| Coordinator.AccountCoordinator.Hydrate | cf/accountCoordinator.ts:90-104 | The envelopes carry the objects of the rows, in order |
| Coordinator.AccountCoordinator.SendPage | cf/accountCoordinator.ts:447-457 | A page answer carries a page of the candidates and changes only the last-seen time |
| Coordinator.AccountCoordinator.SendConflicts | cf/accountCoordinator.ts:476-485 | A conflict answer carries the conflicting rows and changes only the last-seen time |
| Coordinator.PlanUploads | cf/accountCoordinator.ts:549-623 | The uploads in turn yield the batch and running counters of the draft, or refuse exactly when it does not exist |
| Coordinator.PlanDeletions | cf/accountCoordinator.ts:516-547 | The deletions yield the batch, counters and deleted slots of the draft |
| Coordinator.PlanRound | cf/accountCoordinator.ts:514-623 | Deletions, then uploads, against the prefetched rows: exactly the draft of the round |
| Coordinator.FilterAccepted | cf/accountCoordinator.ts:488-494 | Uploads whose id is held, or repeats an earlier one, are dropped |
| RelayRound.AcceptedAreNew | cf/accountCoordinator.ts:488-494 | What is accepted has distinct, new ids, and every dropped id is held or accepted |
| Coordinator.CountOlder | src/lib/server/cloudflare/history.ts:59-80 | Count and bytes of the older versions in the given slots |
| Coordinator.SelectPage | cf/accountCoordinator.ts:353-357 | The candidate rows: above the cursor, ascending, one more than the limit |
| Coordinator.ChooseEvicted | cf/accountCoordinator.ts:682-701 | The versions evicted and the usage left are those of the oldest-first rule |
| SyncLimits.FitDownloadPage | src/lib/syncLimits.ts:24-40 | A page is the longest prefix within both limits, a first row always travels, and hasMore tells whether rows are left |
| SyncLimits.PageUnique | src/lib/syncLimits.ts:16-22 | The two limits determine the page |
| RelaySpec.RowsAboveSpec | cf/accountCoordinator.ts:353-357 | The rows above a cursor are exactly the live rows with higher sequence numbers, strictly ascending |
| RelayRoundProofs.StoreOneSound | cf/accountCoordinator.ts:550-622 | Storing one upload keeps ids and sequence numbers distinct, counters exact, keys agreeing and the live version kept in the history |
| RelayRoundProofs.StoreAllSound | cf/accountCoordinator.ts:549-623 | So does storing all of them, for any mix of replacements and repeated slots |
| RelayRoundProofs.StoreAllNames | cf/accountCoordinator.ts:549-623 | Exactly the uploads' own keys are newly named, and none is lost |
| RelayRoundProofs.DeleteAllSound | cf/accountCoordinator.ts:516-547 | Deletions keep the same invariants, the sequence counter and the history |
| RelayCommitProofs.DeleteAllEffect | cf/accountCoordinator.ts:516-547 | Deletions in closed form: each matching record moves from live to staged |
| RelayCommitProofs.CommitNames | cf/accountCoordinator.ts:525-538 | The commit leaves every object named exactly when its deletions are safe to stage |
| RelayCommitProofs.CommitSound | cf/accountCoordinator.ts:638-656 | The committed tables with every reserved object written are sound |
| RelayCommitProofs.ReserveKeeps | cf/accountCoordinator.ts:643-649 | Reserving fresh keys keeps the account sound and every object named |
| RelayCommitProofs.PutKeeps | cf/accountCoordinator.ts:650-654 | Writing a reserved object does too |
| RelayCommitProofs.DropReservedKeeps | cf/accountCoordinator.ts:642 | Deleting any part of the superseded objects does too |
| RelayCleanupProofs.DropHistorySound | src/lib/server/cloudflare/history.ts:15-47 | Dropping versions that spare the live ones keeps the account sound and every object named |
| RelayCleanupProofs.LooseCutShort | src/lib/server/cloudflare/history.ts:16-18 | Cut short between objects and rows, it leaves rows without objects, never objects without rows |
| RelayCleanupProofs.DropInChunks | src/lib/server/cloudflare/history.ts:25-46 | Dropping in two chunks is dropping at once |
| RelayCleanupProofs.ExpiredSpares | cf/accountCoordinator.ts:736-774 | Pruning never takes a live version's row, whatever the window of at least one |
| RelayCleanupProofs.DeletedSpares | src/lib/server/cloudflare/history.ts:95-107 | Purging never takes a version of a live record |
| RelayCleanupProofs.OlderSpares | cf/accountCoordinator.ts:682-702 | Eviction never takes a live version |
| RelayCleanupProofs.PurgeSound | src/lib/server/cloudflare/history.ts:87-135 | Purging keeps the account sound and every object named |
| RelayCleanupProofs.PruneSound | cf/accountCoordinator.ts:741-774 | So does pruning |
| RelayCleanupProofs.EvictSound | cf/accountCoordinator.ts:679-702 | So does eviction |
| StatementProofs.StoreApplies | cf/accountCoordinator.ts:564-613 | The four statements of an upload, appended to the batch, do to the tables what the upload is meant to |
| StatementProofs.DeleteApplies | cf/accountCoordinator.ts:525-543 | So do the two statements of a deletion |
| StatementProofs.ReservationsApply | cf/accountCoordinator.ts:643-649 | So does the batch of reservations |
| PlanProofs.TracksStore | cf/accountCoordinator.ts:549-623 | The running map, counters and batch keep standing for the draft through one upload |
| PlanProofs.TracksDelete | cf/accountCoordinator.ts:516-547 | And through one deletion, which matches exactly when the map holds its id |
| RoundProofs.CommitKeeps | cf/accountCoordinator.ts:638-656 | The commit of a round whose objects are written keeps the round invariant |
| RoundProofs.BatchCommits | cf/accountCoordinator.ts:624-656 | The planned batch, applied, gives exactly the committed disk |
| UsageProofs.EvictFits | cf/accountCoordinator.ts:679-702 | With exact usage eviction ends inside the room left, or with no older version |
| RelayEffects.UploadsHeld | cf/accountCoordinator.ts:714-727 | After a finished round each of its uploads is the live version of its slot |
| RelayEffects.DeletionsDone | cf/accountCoordinator.ts:714-727 | And none of its deletions has anything left to delete |
| WriteLock.SameAsOneByOne | cf/accountCoordinator.ts:166-199 | Whatever the interleaving of arrivals, resumptions, reads and writes, the work done, what each call saw and the store left are those of the calls run one by one in order of arrival, for the relay and for the session queue |
| WriteLock.CallRunsAlone | cf/accountCoordinator.ts:173-199 | Each call does and sees what it does when run alone on the store the calls before it left |
| LockedRounds.ConcurrentRounds | cf/accountCoordinator.ts:150-199 | However writing requests overlap, each is answered and leaves the disk as a round run alone on what those before it left, in order of arrival |
| LockedRounds.ConcurrentOnView | cf/accountCoordinator.ts:150-199 | And to clients each has happened whole, or not at all |
| LockedRounds.LockedInTurn | cf/accountCoordinator.ts:150-199 | Rounds behind the lock that draw every key once find in turn at most the objects the round before may leave |
| LockedRounds.OverlappingPage | cf/accountCoordinator.ts:84-100 | A page whose rows are read at once and whose objects are read one by one, on any disks that rounds pass meanwhile, is, if every object is found, the page of the moment its rows were read |
| LockedRounds.ObjectStays | cf/accountCoordinator.ts:505-513 | While keys are drawn once, an object found on two disks that rounds pass has the same contents |
| WriteLock.OneAtATime | cf/accountCoordinator.ts:173-199 | A call runs only after every earlier arrival is gone |
| WriteLock.NobodyStranded | cf/accountCoordinator.ts:166-172 | While some call is not gone the earliest such call runs or may start, and only it may act, so a failed call has let the next one in |
| WriteLock.Exclusive.Arrive | cf/accountCoordinator.ts:174-182 | A caller takes the tail to wait for and leaves its gate as the new tail |
| WriteLock.Exclusive.Resume | cf/accountCoordinator.ts:185 | A caller runs exactly when the promise it waits for has settled |
| WriteLock.Exclusive.Release | recipes/mcp-server/src/engine.ts:474-476 | A call that is over, by success or failure, opens its gate |
| SyncProofs.NoLostUpdate | recipes/mcp-server/src/engine.ts:545-594 | Over any run of any number of sessions, other clients and failed calls, a slot's note only grows in the merge order while it keeps holding one |
| SyncProofs.WriteIncludes | recipes/mcp-server/src/engine.ts:549-594 | An accepted write includes the note it replaced and the session's own edit, however many merges it took |
| SyncProofs.NothingMissed | recipes/mcp-server/src/engine.ts:522-538 | Over any run no cursor passes the relay's, and a session holds exactly the relay's note of every readable record up to its cursor |
| SyncProofs.NeverReset | cf/accountCoordinator.ts:428-439 | A caught-up session is never answered with a reset |
| SyncProofs.RunInv | recipes/mcp-server/src/engine.ts:514-594 | Every state of every run satisfies the system invariant |
| SyncProofs.StepKeepsInv | recipes/mcp-server/src/engine.ts:514-594 | Each step of a session, of another client or of a deletion keeps it |
| SyncProofs.StepGrows | recipes/mcp-server/src/engine.ts:549-594 | One step leaves a note that stays in its slot with everything it had |
| SyncProofs.RoundOnView | recipes/mcp-server/src/engine.ts:562-583 | A session's round changes the relay only when its write was accepted, and then clashed with nothing |
| SyncProofs.ReceiveCaughtUp | recipes/mcp-server/src/engine.ts:570-571 | After an answer the session has every record of the view up to its new cursor |
| SyncProofs.CursorBound | recipes/mcp-server/src/engine.ts:571 | No answer moves a cursor past the relay's sequence number |
| SyncProofs.MergeAhead | recipes/mcp-server/src/engine.ts:584-591 | Merging with the copies held keeps what is pending ahead of the edit |
| Session.ApplySlot | recipes/mcp-server/src/engine.ts:480-512 | Applying the cells of a view leaves each slot with the relay's note, gone for a tombstone, or untouched |
| DownloadProofs.NextPage | recipes/mcp-server/src/engine.ts:524-536 | Each answer to a pull continues what was delivered, exactly once and in order, and leaves less while more is announced |
| DownloadProofs.DownloadGoesOn | recipes/mcp-server/src/engine.ts:522-538 | The download loop keeps its invariant and its measure falls |
| McpSession.AttemptIsStep | recipes/mcp-server/src/engine.ts:549-594 | Every attempt of the session, answered or failed, is a step of the system of all sessions |
| McpSession.BeginIsStep | recipes/mcp-server/src/engine.ts:549-551 | So is beginning to write, for an edit that moves its notes up |
| McpSession.FetchIsStep | recipes/mcp-server/src/engine.ts:524-536 | So is every pull, of a download or of a refused write, answered or not |
| McpSession.LostAnswer | recipes/mcp-server/src/engine.ts:562 | A failed call left the relay as it was or with the whole write stored |
| McpSession.PullUnanswered | recipes/mcp-server/src/engine.ts:514-520 | A pull that is not answered changed nothing |
| McpSession.McpSession.DownloadChanges | recipes/mcp-server/src/engine.ts:522-538 | With no other writer the download ends and, unless a call fails, has delivered each record above the starting cursor exactly once, in order |
| McpSession.McpSession.DownloadPages | recipes/mcp-server/src/engine.ts:524-536 | The loop over pages, for any starting point |
| McpSession.McpSession.PullMore | recipes/mcp-server/src/engine.ts:525-535 | One page more delivered, and less remaining |
| McpSession.McpSession.Pull | recipes/mcp-server/src/engine.ts:515-520 | One pull changes nothing at the relay, and the session takes in its answer |
| McpSession.McpSession.TakeIn | recipes/mcp-server/src/engine.ts:526-534 | A reset clears the session, then envelopes and conflicts apply and the cursor moves |
| McpSession.McpSession.Apply | recipes/mcp-server/src/engine.ts:480-512 | Applying envelopes one by one in place is the application of the list |
| McpSession.McpSession.BuildUploads | recipes/mcp-server/src/engine.ts:552-561 | One upload per pending record, under a new id and against the version last synced |
| McpSession.McpSession.Attempt | recipes/mcp-server/src/engine.ts:562-591 | One attempt: an atomic round as the relay promises, then done, downloading, or merged for another attempt; a failure leaves the write whole or undone |
| McpSession.McpSession.Settle | recipes/mcp-server/src/engine.ts:563-591 | What each answer makes of the write under way |
| McpSession.McpSession.TryAgain | recipes/mcp-server/src/engine.ts:584-594 | Pending records are merged with the copies held, at most four attempts in all |
| McpSession.McpSession.Fetch | recipes/mcp-server/src/engine.ts:572-574 | The pages a refused write waits for |
| ReminderHistoryProofs.SameWhateverTheOrder | src/lib/reminderHistory.ts:66-70 | Two devices that learned the same histories in any order and grouping, with the same deletions at the end, hold the same receipts |
| ReminderHistoryProofs.EarliestDismissalKept | src/lib/reminderHistory.ts:45-57 | Each receipt held carries the earliest dismissal ever learned, and a living one is missing only behind four later ones |
| ReminderHistoryProofs.MergeIsJoin | src/lib/reminderHistory.ts:71-93 | Merging commutes, is idempotent, absorbs its parts, and groups freely while tombstones grow |
| ReminderHistoryProofs.ListMergeIsMerge | src/lib/reminderHistory.ts:76-93 | What the list merge returns is the merge of the histories it was handed |
| ReminderHistoryProofs.TruncateFirst | src/lib/reminderHistory.ts:86-91 | Keeping four per note before joining changes nothing of what is kept after |
| ReminderHistoryProofs.StaysDropped | src/lib/reminderHistory.ts:59-64 | A receipt truncation drops stays dropped, whoever brings it back |
| ReminderHistoryProofs.KeepsOfAll | src/lib/reminderHistory.ts:71-93 | However it was merged, a history keeps what everything ever learned would |
| ReminderHistoryProofs.LivingLatest | src/lib/reminderHistory.ts:86-91 | Dropping deleted notes commutes with truncation |
| ReminderHistoryProofs.NoteByNote | src/lib/reminderHistory.ts:95-105 | A note's share of a merge is the merge of its shares |
| ReminderHistoryProofs.RowIsShare | src/lib/reminderHistory.ts:95-105 | The row of a note spells the note's share of the saved history |
| ReminderHistory.MergeReminderHistory | src/lib/reminderHistory.ts:71-93 | The merged list, sorted and distinct, spells the latest receipts of the living entries joined |
| ReminderHistory.EnterAll | src/lib/reminderHistory.ts:76-81 | The first loop joins the living entries by id |
| ReminderHistory.GroupByNote | src/lib/reminderHistory.ts:82-85 | The second loop lists each note's entries, all of them and no others |
| ReminderHistory.TopOfNote | src/lib/reminderHistory.ts:88-91 | Sorting and slicing keeps exactly the note's latest entries |
| ReminderHistory.KeepLatest | src/lib/reminderHistory.ts:86-91 | Over all notes, exactly the latest entries are kept |
| ReminderHistory.PlaceIsAhead | src/lib/reminderHistory.ts:89-90 | An entry's place in its sorted note is how many entries are ahead of it |
| ReminderHistory.NoteReceiptEntries | src/lib/reminderHistory.ts:96-105 | One note's row lists the latest of its own entries |
| CanvasLibrary.MergeCanvasLibrary | src/lib/canvasLibrary.ts:63-75 | The merge keeps, of each id, the greatest living version by time, then content, and nothing else |
| CanvasLibrary.GreatestIsUnique | src/lib/canvasLibrary.ts:57-61 | Entries and tombstones determine what is kept |
| CanvasLibrary.KeepsGreatestOfAll | src/lib/canvasLibrary.ts:63-75 | Merged in any order and grouping, under tombstones that only grow, the library keeps the greatest living version among all it ever learned |
| CanvasLibrary.SameWhateverTheOrder | src/lib/canvasLibrary.ts:57-75 | So two devices that learned the same entries hold the same library |
| KanbanProofs.MergeCommutes | src/lib/kanban.ts:410-447 | Merging two copies of a board gives the same board on both devices |
| KanbanProofs.MergeIdempotent | src/lib/kanban.ts:410-447 | Merging a board with itself only writes its times out |
| KanbanProofs.MergedIsExplicit | src/lib/kanban.ts:429-446 | A merged board has every time written out and stays normal |
| KanbanProofs.SettingsAssociate | src/lib/kanban.ts:413-421 | Name and filters group freely over three boards |
| KanbanGrouping.GroupingsAgree | src/lib/kanban.ts:386-447 | Three copies of a board merge to the same board in either grouping if and only if, of every column, both groupings lose its newest order or neither does: one is lost when the later layout of the two merged first drops it, or when an order never stamped counts from their later update |
| KanbanGrouping.ColumnGroupings | src/lib/kanban.ts:386-428 | The same of one column |
| KanbanGrouping.GroupedCell | src/lib/kanban.ts:386-428 | Two merged before a third leave a column its newest order, unless it is dropped or overtaken, under the latest layout |
| KanbanGrouping.MergedCell | src/lib/kanban.ts:391-408 | A merge keeps the newer order of a column of the later layout; an order never stamped then counts from the later update |
| KanbanGrouping.LayoutsAssociate | src/lib/kanban.ts:422-428 | The layout is the latest one in either grouping |
| KanbanGrouping.MergeAssociates | src/lib/kanban.ts:410-447 | Copies with the same columns, every order stamped, merge the same in either grouping |
| KanbanGrouping.DroppedColumnForgets | src/lib/kanban.ts:424-428 | Three concrete stamped boards that edits and merges can leave, whose merge depends on the grouping: a dropped column forgets its order |
| KanbanGrouping.UnstampedOvertakes | src/lib/kanban.ts:331-333 | Three concrete boards with equal layouts whose merge depends on the grouping: an order never stamped overtakes a newer one |
| KanbanProofs.EditAbsorbsBase | src/lib/kanban.ts:340-384 | Merging an edited board with the version it was made from gives the edit |
| KanbanProofs.EditKeepsNormal | src/lib/kanban.ts:376-383 | An edited board stays normal, with its times written out |
| KanbanProofs.SettingsSurvive | src/lib/kanban.ts:335-339 | Two edits from one base to different settings both survive the merge, whichever device merges |
| KanbanProofs.OrderSurvives | src/lib/kanban.ts:331-333 | A rearrangement of a column both keep survives exactly when the base order was stamped or empty, or it is no older than the other edit's version of the board |
| KanbanProofs.UnstampedOrderLost | src/lib/kanban.ts:331-333 | A concrete rename that undoes a rearrangement of an order never stamped |
| KanbanProofs.LatestCommutes | src/lib/model/merge.ts:46-52 | The later write does not depend on which side is one's own |
| KanbanProofs.LatestAssociates | src/lib/model/merge.ts:46-52 | Nor on how three are grouped |
| KanbanProofs.AllMergeCommutes | src/lib/kanban.ts:449-462 | Every device files the same merged board, whichever list is its own |
| Kanban.MergeTwoBoards | src/lib/kanban.ts:411-447 | The merge in place is the merge the laws are about |
| Kanban.ApplyBoardEdit | src/lib/kanban.ts:340-384 | The edit in place is the edit the laws are about |
| Kanban.MergeKanbanBoards | src/lib/kanban.ts:449-462 | Each id is filed once, merged from both lists, and dropped by a later tombstone |
| InlineParser.ParseLine | src/lib/markdown.ts:273-294 | The tokens spell the line whatever the budget, in at most 32 steps a character and 40 more, and equal the plain reading while the budget lasts |
| InlineParser.ParseInline | src/lib/markdown.ts:152-264 | At every depth and budget the tokens spell the source and are those of some nodes: of the plain reading while the budget lasts |
| InlineParser.ParseFresh | src/lib/markdown.ts:152-157 | On a budget of its own the same holds of any text |
| InlineParser.PushDelimited | src/lib/markdown.ts:166-183 | A span adds the text before it, its delimiters and what it encloses, losing nothing |
| InlineParser.ReadInside | src/lib/markdown.ts:172-178 | Code is one text, anything else is parsed in turn, one level deeper |
| InlineParser.ReadTicks | src/lib/markdown.ts:186-204 | A code span or the run of ticks, as the plain reading has it, with failed searches remembered |
| InlineParser.ReadCandidates | src/lib/markdown.ts:206-259 | The first candidate that spans something, as the plain reading has it, with failed searches remembered |
| InlineParser.TrySpan | src/lib/markdown.ts:243-256 | Skipping delimiters marked dead finds exactly what searching for them would |
| InlineParser.ReadOn | src/lib/markdown.ts:185-260 | One round of the loop stays on the plain reading and moves on |
| InlineParser.TakeSpan | src/lib/markdown.ts:166-183 | A span taken in keeps tokens, nodes and parts in step |
| InlineParser.FindClosing | src/lib/markdown.ts:102-136 | The budgeted search finds where the span closes, or -1 exactly when it does not or the budget is spent |
| InlineParser.MeasureRun | src/lib/markdown.ts:111-116 | A run is measured exactly, one step a character, or the budget is spent |
| InlineParser.InlineCache.ParseInlineMarkdown | src/lib/markdown.ts:266-294 | The cache returns tokens that spell the line, holds 4096 lines at most, and forgets only its oldest |
| InlineProofs.DeadStaysDead | src/lib/markdown.ts:254-256 | A delimiter whose search failed once spans nothing from any later place |
| InlineProofs.FailsLater | src/lib/markdown.ts:198-200 | A search that failed finds nothing beyond its own start from a later one |
| InlineProofs.ClosingComplete | src/lib/markdown.ts:109-135 | A search that skips runs finds a close whenever there is a place for one |
| InlineProofs.ClosingGood | src/lib/markdown.ts:109-135 | And what it finds is such a place |
| InlineProofs.TokensSpellSource | src/lib/markdown.ts:166-183 | The tokens of any nodes spell their source |
| InlineProofs.PartsKeepSource | src/lib/markdown.ts:185-262 | The parts of a line keep every character in its place |
| InlineProofs.SpanInPlace | src/lib/markdown.ts:166-183 | A delimiter, its content and the delimiter again are one stretch of the line |
| BlockProofs.EveryLineOnce | src/lib/markdown.ts:531-573 | On unbroken lines both parsers find the same code and table blocks; their ranges are ordered, disjoint and in bounds, and with the line blocks they cover each line once |
| BlockProofs.AgreeUnlessTableOverItem | src/lib/markdown.ts:595-637 | With list items among the lines, the scanner and the text parser agree exactly when no table of the text runs over a list item |
| BlockProofs.TableOverItem | src/lib/markdown.ts:473-478 | A concrete bullet over a delimiter row: a table in the text, none in the editor |
| BlockProofs.ClearWithoutPipes | src/lib/markdown.ts:473-508 | Items that are no table row never matter |
| BlockProofs.ParsersTile | src/lib/markdown.ts:531-637 | From any line on the two parsers place the same blocks at the same lines |
| BlockProofs.TilesOnce | src/lib/markdown.ts:531-637 | Blocks so placed cover each line exactly once |
| BlockProofs.TilesInOrder | src/lib/markdown.ts:595-637 | And their ranges are ordered and in bounds |
| BlockProofs.StepAgrees | src/lib/markdown.ts:536-571 | Where the text has a block, the scanner finds the same one unless a table runs over an item |
| BlockProofs.StepDiffers | src/lib/markdown.ts:490-499 | Where a table runs over an item, the scanner finds none or a shorter one |
| BlockProofs.WholeTableSeen | src/lib/markdown.ts:480-508 | A table over no item is seen whole |
| BlockProofs.SameClose | src/lib/markdown.ts:541 | A fence closes at the same line in both |
| MarkdownLines.JoinedSplits | src/lib/markdown.ts:532 | Joining unbroken lines and splitting the text again gives the lines back |
| MarkdownLines.SplitTableRow | src/lib/markdown.ts:312-350 | The scan over a row gives its cells: wrapped, escaped and code-spanned pipes as specified |
| MarkdownBlocks.ParseMarkdownBlocks | src/lib/markdown.ts:531-573 | The loop over the text yields the blocks from its first line on |
| MarkdownBlocks.ParseEditorMarkdownBlocks | src/lib/markdown.ts:595-637 | The loop over the editor's lines yields its blocks from the first line on |
| MarkdownBlocks.TakeBlock | src/lib/markdown.ts:536-570 | The block at a line and the line after it |
| MarkdownBlocks.TakeInfo | src/lib/markdown.ts:601-633 | The block the scanner finds at a line, if any |
| MarkdownBlocks.FindTable | src/lib/markdown.ts:480-508 | The table at a line, with its header, alignments and padded rows |
| MarkdownBlocks.TakeCode | src/lib/markdown.ts:539-549 | The lines up to the closing fence, unindented, and where the fence closes |
| MarkdownBlocks.TakeFence | src/lib/markdown.ts:537-558 | The code block of a fence, and the line after its close |
| MarkdownBlocks.ScanFence | src/lib/markdown.ts:605-611 | The line that closes a fence, or the end |
| MarkdownBlocks.TableEnds | src/lib/markdown.ts:624 | A table ends within the lines |
| ReminderAlarm.SetSeesEveryArm | cf/reminderScheduler.ts:42-60 | A set made for a delivery takes effect exactly when its time is sound and nothing was armed and no delivery begun since that delivery began |
| ReminderAlarm.NoWakeLost | cf/reminderScheduler.ts:65-78 | Until a set takes effect or it goes off, the alarm stays set, no later than any time armed nor than one retry after it last went off |
| ReminderAlarm.AlarmHasCause | cf/reminderScheduler.ts:54-78 | The alarm is only ever set to a time armed, set or a retry |
| ReminderAlarm.GenerationStands | cf/reminderScheduler.ts:43-49 | The generation stands still exactly while nothing is armed and no delivery begun |
| ReminderAlarm.AlarmHasAccount | cf/reminderScheduler.ts:54-70 | An alarm is never set without an account to hand over |
| ReminderAlarm.ReminderScheduler.Fetch | cf/reminderScheduler.ts:29-63 | Each request changes the state as the protocol says, and is refused exactly when it is malformed and current |
| ReminderAlarm.ReminderScheduler.Alarm | cf/reminderScheduler.ts:65-72 | Going off sets the retry and queues the account, if there is one |
| ReminderAlarm.ReminderScheduler.ArmNoLaterThan | cf/reminderScheduler.ts:74-78 | The alarm becomes the sooner of the two times |
| OAuthProofs.OneLivePair | recipes/mcp-server/src/oauth.ts:459-494 | However requests interleave, a chain of refreshes has at most one live refresh token and one access token that resolves, and the refresh token names it |
| OAuthProofs.OnePairPerCode | recipes/mcp-server/src/oauth.ts:376-434 | A code buys at most one pair of tokens |
| OAuthProofs.OneUsePerRefreshToken | recipes/mcp-server/src/oauth.ts:472-474 | A refresh token is taken at most once |
| OAuthProofs.RunKeepsInv | recipes/mcp-server/src/oauth.ts:376-494 | Every interleaving of calls, failures and expiries keeps the token invariant |
| OAuthProofs.StepKeepsInv | recipes/mcp-server/src/oauth.ts:376-494 | So does every single call |
| OAuthProofs.LosingKeepsInv | recipes/mcp-server/src/oauthState.ts:20-29 | Expiry and eviction of any entries keep it |
| OAuthProofs.GoneForever | recipes/mcp-server/src/oauth.ts:414 | A code or refresh token once gone never comes back |
| OAuthManager.Manager.ExchangeCode | recipes/mcp-server/src/oauth.ts:376-434 | A code is exchanged exactly when every check passes and it is unspent, once in any run; the calls it makes are the steps of one exchange of the protocol, and both tokens end up held |
| OAuthManager.Manager.RefreshAccessToken | recipes/mcp-server/src/oauth.ts:459-494 | A refresh succeeds exactly when the token is sound and held, once in any run; the token it replaces no longer resolves, and the calls are the steps of one refresh of the protocol |
| OAuthManager.Manager.ResolveToken | recipes/mcp-server/src/oauth.ts:436-457 | A token resolves exactly when sound and held; then it is the only one of its chain that does, and the chain's refresh token names it |
| OAuthManager.Manager.CreateCode | recipes/mcp-server/src/oauth.ts:352-374 | A new code is held until spent, expired or pushed out, as one step of the protocol |
| OAuthManager.Manager.SpendCode | recipes/mcp-server/src/oauth.ts:414 | Asking the store for a code spends it, and answers yes at most once in any run |
| OAuthManager.Manager.SpendToken | recipes/mcp-server/src/oauth.ts:472-473 | Asking the store for a refresh token spends it, and yields the access token it names at most once in any run |
| OAuthManager.Manager.Rotate | recipes/mcp-server/src/oauth.ts:474-493 | The replaced access token goes before the new pair is registered |
| OAuthManager.Manager.Register | recipes/mcp-server/src/oauth.ts:431-432 | The pair is registered in two calls of the protocol, access token first; both are held, and the one names the other |
| OAuthState.InMemoryStore.RegisterCode | recipes/mcp-server/src/oauthState.ts:72-75 | A code enters last, and the map is pruned before and after |
| OAuthState.InMemoryStore.ConsumeCode | recipes/mcp-server/src/oauthState.ts:52-61 | A code is consumed exactly when held and unexpired, and is gone either way |
| OAuthState.InMemoryStore.RegisterAccessToken | recipes/mcp-server/src/oauthState.ts:81-84 | An access token enters last, and the map is pruned before and after |
| OAuthState.InMemoryStore.HasAccessToken | recipes/mcp-server/src/oauthState.ts:86-90 | An access token resolves exactly when held after pruning |
| OAuthState.InMemoryStore.RevokeAccessToken | recipes/mcp-server/src/oauthState.ts:92-95 | A revoked token is gone and nothing else changes |
| OAuthState.InMemoryStore.RegisterRefreshToken | recipes/mcp-server/src/oauthState.ts:97-107 | A refresh token enters with the access token it names |
| OAuthState.InMemoryStore.ConsumeRefreshToken | recipes/mcp-server/src/oauthState.ts:109-118 | A refresh token yields the access token it names exactly when held, and is gone either way |
| OAuthState.InMemoryStore.PruneAll | recipes/mcp-server/src/oauthState.ts:38-43 | All four maps are pruned |
| OAuthState.Prune | recipes/mcp-server/src/oauthState.ts:20-29 | Expired entries go, then the oldest beyond 10,000 |
| OAuthState.LastStays | recipes/mcp-server/src/oauthState.ts:24-28 | The newest entry outlasts pruning until it expires |
| OAuthState.PrunedWithin | recipes/mcp-server/src/oauthState.ts:20-29 | Pruning only loses entries |
| OAuthRefinement.ConsumeCodeAllowed | recipes/mcp-server/src/oauthState.ts:52-61 | Consuming a code is a call the protocol allows |
| OAuthRefinement.ConsumeRefreshAllowed | recipes/mcp-server/src/oauthState.ts:109-118 | So is consuming a refresh token |
| OAuthRefinement.RegisterAccessAllowed | recipes/mcp-server/src/oauthState.ts:81-84 | So is registering an access token |
| OAuthRefinement.RegisterRefreshAllowed | recipes/mcp-server/src/oauthState.ts:97-107 | So is registering a refresh token |
| OAuthRefinement.RegisterCodeAllowed | recipes/mcp-server/src/oauthState.ts:72-75 | So is registering a code |
| OAuthRefinement.RevokeAllowed | recipes/mcp-server/src/oauthState.ts:92-95 | So is revoking |
| OAuthRefinement.ResolveAllowed | recipes/mcp-server/src/oauthState.ts:86-90 | So is resolving |
| CursorEdit.TypingIsReplacing | src/lib/findInNote.ts:37-48 | Over selections that keep apart with distinct starts, typing gives the row that replacing the same matches gives, in whatever order they come |
| MultiCursor.WeavesLikeReplacing | src/lib/findInNote.ts:43-46 | One left-to-right weave equals right-to-left replacement where spans keep apart |
| MultiCursor.RowKeepsWhatIsOutside | src/lib/multiCursor.ts:110-122 | The edited row is, for each span in turn, what no span covers up to its start and then the text, and at the end what no span covers after the last start |
| MultiCursor.GapIsUnread | src/lib/multiCursor.ts:112-118 | What no span covers between two starts is what the loop has left unread there, overlaps included |
| MultiCursor.DeletionKeepsCharacters | src/lib/multiCursor.ts:71-80 | A widened deletion never splits a surrogate pair and deletes something wherever there is something |
| CursorEdit.ApplyCursorEdit | src/lib/multiCursor.ts:87-129 | Every line with cursors is edited as specified, no other line changes, and the carets returned are the distinct ones placed |
| CursorEdit.CaretsStandApart | src/lib/multiCursor.ts:125-128 | The carets returned are distinct, all of those placed, and inside their edited rows |
| CursorEdit.UniqueIsDistinct | src/lib/multiCursor.ts:125-127 | Keeping first occurrences leaves each caret once |
| CursorEdit.GroupByLine | src/lib/multiCursor.ts:105-106 | Cursors are grouped by line, each once and in order |
| CursorEdit.OrderLine | src/lib/multiCursor.ts:109 | A line's cursors are put in order of their starts |
| CursorEdit.EditLine | src/lib/multiCursor.ts:107-123 | One line: its new row recorded if it differs, its carets placed, and no other line's |
| MultiCursor.WeaveRow | src/lib/multiCursor.ts:110-121 | The loop weaves the row and notes where each caret lands, overlapping spans starting where the last stopped |
| MultiCursor.ReplaceInRow | src/lib/findInNote.ts:38-48 | Matches are replaced from the right |
| Dng.ExtractDngJpeg | src/lib/dngCanonical.ts:48-140 | Each error exactly when its check fails; otherwise the first largest JPEG, starting FF D8, a contiguous slice, among all the walk's directories declare |
| Dng.Walk | src/lib/dngCanonical.ts:85-130 | The walk ends, visits only reachable directories and all of them unless it meets 128, and collects exactly their candidates in order |
| Dng.ClosedHoldsAll | src/lib/dngCanonical.ts:107-130 | With the queue empty, every reachable directory was visited |
| Dng.Enter | src/lib/dngCanonical.ts:111-129 | One directory adds its candidates and links, nothing when it runs past the file |
| Dng.ValuesAt | src/lib/dngCanonical.ts:67-83 | The values of an entry, read inside the file only |
| Dng.ReadTags | src/lib/dngCanonical.ts:114-119 | The tags of a directory, the last entry of a tag winning |
| Dng.AddCandidates | src/lib/dngCanonical.ts:89-105 | Pairs that lie in the file and start like a JPEG become candidates, in order |
| Dng.Largest | src/lib/dngCanonical.ts:135-139 | The first candidate no other exceeds by area, then length |
| Dng.JpegDimensions | src/lib/dngCanonical.ts:18-45 | The size in the first start-of-frame segment, or none |
| Dng.CollectedAreJpegs | src/lib/dngCanonical.ts:93-103 | Every candidate lies in the file and starts FF D8 |

## Left out

- The abandoned-upload sweep, storage reclaim (which once a day recounts the history usage, src/lib/server/cloudflare/syncStore.ts:492-501) and the `/delete` cascade: they run beside rounds and are not part of this model.
- A put or delete that reaches R2 after its round has failed: a call here happens before the round goes on, or not at all.
- The lock's watchdog, change announcements, sockets, HTTP and SQL text: plumbing around the steps modelled.
- Sealing, hashing, signatures and PKCE hashing: parameters, with only the laws under Assumptions.
- Labels in the MCP session: merged and written exactly as notes are. The `hydrated` flag, reminder wakes and the server clock: they feed nothing modelled.
- The inside of `mergeTwoNotes`: a join by assumption.
- `left === right` in `mergeTwoBoards` (src/lib/kanban.ts:412): boards are values here, so a board merged with the same object has its times written out as for an equal copy (`KanbanProofs.MergeIdempotent`), where the code returns the object unchanged.
- Type guards that drop malformed JSON entries before a merge: entries here are well formed.
- Segment details of line blocks, the code highlighter, table formatting, and the second table-row splitter `tokenizeMarkdownTableRow`: no part in which blocks are found.
- The durable OAuth store's own storage code (recipes/mcp-server/src/oauthState.ts:258-335): `OAuthProtocol` covers it as a store that may lose entries and fail calls. Auth sessions are consumed as codes are.
- Word selection and find matching (src/lib/multiCursor.ts:12-69, src/lib/findInNote.ts:12-35): they choose spans, and the edits here take any.
- InlineParser.InlineCache.ParseInlineMarkdown: that a cached line equals the plain reading is stated for ParseLine only, and two callers sharing one cached token list is not modelled.
- OAuthManager.Manager.ExchangeCode: what a sealed code opens to is a parameter, as is which client name a redirect belongs to.
- WriteLock.SameAsOneByOne: the lock's own promises are modelled, other promises of the runtime are not.
- LockedRounds.ConcurrentRounds: that the reads and writes between a call's turn and its release are those of one run of `Sync` is its hypothesis (`WorksAsRound`); the contract of `Sync` speaks of the disk it leaves at whichever call it stops, not of a list of reads and writes.
- RelayRuns.CutShortStays: a round stopped inside purge or prune is off by what it did so far (`UsageProofs.DriftUnsaved`); one stopped inside eviction also by what it evicted, which is not stated.
- KanbanGrouping.GroupingsAgree: copies in which one time and writer mark two different layouts or orders are outside it.
