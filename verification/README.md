# Chimely, verified

A Dafny model of the parts of this repository in which a small slip would be a wrong
number on somebody's badge: the inbox counters, the worker that maintains them, the
merged list and the client's copy of it, the hint and timeline bookkeeping, the rate
limiter and the TypeID codec.

`dafny verify dfyconfig.toml` checks the whole project.

## What is modelled

**The inbox.** One environment's tables are a value (`InboxState.Db`), every transaction
is a function from the tables before to the tables after (`InboxSteps`), and every handler
is a method that updates the tables in place, statement by statement, and is proved to
commit that function (`Database`, `InboxApi`, `Worker`, `Management`). A transaction sees
two clocks: the `now()` pinned when it began and the `clock_timestamp()` it reads under the
subscriber's counters row. A run (`InboxRuns`) is any sequence of committed transactions in
which the locked clock does not run backwards and each `now()` is anywhere at or before it;
a crash commits nothing.

A counter is meant to equal the number of rows that are unread, unarchived, unmuted and not
owned by a deliver job that has yet to bump them. `InboxRuns.CountersAreExact` says when it
does. The counts for which it may not, each of each subscriber on its own, are computed from
guards that can be checked before the step: a flip of a row whose deliver job sits in
`dead_letters`, and a recount (each end of a move is one) whose errors do not cancel, that
is, which does not take in as many rows of parked jobs too early as it misses rows that its
`now()` is too old to see. A later recount without errors clears both marks of its
subscriber, and a watermark move that of the count it zeroes. For each guard there is an
if-and-only-if lemma on the step
(`InboxInvariant.FlipBreaksExactness`, `WorkerInvariant.RecountIsExactIff` and
`MoveIsExactIff`, `InboxAccidents.RebuildIsExactIff`) and in `InboxAccidents` a run from the
empty tables that ends in a wrong counter.

`NaiveInbox` is the inbox a reader has in mind, two flags per item and no watermarks;
`InboxRefinement` and `InboxStory` prove that the watermarks, overrides and exception
tables implement it over every run. `InboxViews` and `KeysetList` tie the served number and
the paginated list to the same flags. `DeliverOnce`, `JobLife`, `ArchiveReadJob`, `Fairness`,
`Hints` and `Timeline` are about the worker, `PreferenceWrites` about the mute settings.

**The client.** `InboxClient` holds the synchronous halves of `refresh`, `doRefresh`,
`fetchMore` and `setFilter`, with items compared as `isOlderThan` compares them. `ClientLists`
says exactly when one answer, folded in or appended, leaves a prefix of the server's list;
`ClientRuns` lets requests overlap in every way against lists that grow at the head, and
says exactly which runs show a prefix throughout (`AlwaysAPrefixIff`). Two things spoil it, a
tie between the sources and an answer from before a reset; `ClientAccidents` has a run, from a
fresh client, for each. `ClientShows` is about the spinner, the counts, the error and the
arrivals beside the list.

**The arithmetic.** `RateLimit` has both token buckets over the reals, `Debounce` the hint
window, `TypeId` the codec with its accumulators.

## Assumptions

- The clock read under the counters lock is at or after the `now()` of every transaction
  that committed before, and does not run backwards from commit to commit.
  (Over all subscribers; that it does for each one alone is what the source needs, see the
  last section.)
- Fresh uuids are fresh: a new row, broadcast or job has an id no other has (for
  `DeliverOnce.JobsArePartitioned`: ever had), and no notification shares an id with a
  broadcast.
- Row locks make each commit one atomic step; a rolled-back transaction is no step.
- For the client: a list on the server grows only at its head, an item keeps its
  `occurredAt`, no two items of a list share both `occurredAt` and uuid, and a uuid is below
  2^128. Items of different sources may share an `occurredAt`. The strings the client compares
  as times have a fixed width (`server/src/api/mod.rs:14-16`), so times stand for them.
  `ClientRuns.IdleShowsTheLastCall` also takes it that the server's validators tell the lists
  of a view apart.
- A rate-limited key keeps its rate and burst, and the limiter's clock does not run backwards.

## Where code and documentation differ

- `pending_deliver` and the recount look at `jobs` only, so "owned by a pending deliver job"
  forgets parked jobs. Nothing being parked now is not enough for an exact counter; see
  `InboxAccidents.ParkedThenReplayedIsWrong` and `InboxInvariant.FlipBreaksExactness`.
- The timeline's module comment says every guard runs under the counters lock. The
  `delivered_hint` append does not take it. What keeps it single is that an id rides in one
  live job at a time (`Hints.TokensNeverSplit`).
- The archive-read job inserts overrides for every broadcast in the scanned key range, also
  for those from before the subscriber joined. They are invisible to the subscriber, so
  `ArchiveReadJob.ArchiveReadIsOnePass` is stated for visible broadcasts.
- The same job starts its cursor at the epoch and the nil uuid: what lies at or before that
  key is never scanned.
- The comment on `isOlderThan` says list order is `(occurred_at, id)` and that ids compare
  right within one source. Across sources they do not: every `bcast_` id is below every
  `notif_` id, while the server's list breaks the tie by the bare uuid. At such a tie
  `mergeFirstPage` can lose a loaded notification, or put a broadcast that belongs above the
  page below it (`ClientLists.OrdersDifferAtTies`, `FoldFitsIff`; `ClientAccidents.TieLeavesAHole`).
- The comment on `mergeFirstPage` says a hole is avoided by resetting the list. A fetchMore
  that is in flight over the reset brings one back under an unchanged view
  (`ClientAccidents.LateAnswerLeavesAHole`).
- A watermark move is said to give the rows it covers their status. A row that commits late
  behind the job's cursor is covered by the watermark and gets none (`Timeline.MarkedIffThere`,
  `Timeline.LateRowGetsNoStatus`).
- Coalescing is said to lose no `delivered_hint` row. A notification moved to another
  subscriber between the addressing of its hint and its publication gets none
  (`Hints.MovedBeforeItsHint`, and exactly: `Hints.HeldUnlessMissed`).

## Model

| member | source | states |
|---|---|---|
| Database.Tables.PendingDeliver | server/src/api/inbox.rs:1586-1608 | the positional query (index at or past the cursor) answers exactly whether a queued deliver job still owns the id |
| InboxApi.MarkNotificationRead | server/src/api/inbox.rs:505-627 | the handler, statement by statement, commits the `read` flip of the model: same row, same count, and 404/500 leave everything as it was |
| InboxApi.MarkNotificationUnread | server/src/api/inbox.rs:654-769 | the handler, statement by statement, commits the `unread` flip of the model: same row, same count, and 404/500 leave everything as it was |
| InboxApi.ArchiveNotification | server/src/api/inbox.rs:1028-1112 | the handler, statement by statement, commits the `archive` flip of the model: same row, same count, and 404/500 leave everything as it was |
| InboxApi.UnarchiveNotification | server/src/api/inbox.rs:1139-1228 | the handler, statement by statement, commits the `unarchive` flip of the model: same row, same count, and 404/500 leave everything as it was |
| InboxApi.ReadFlip | server/src/api/inbox.rs:545-608 | the handler's own guard (above the watermark or overridden, not pending, not archived, not muted) is the change of the one counted predicate |
| InboxApi.UnreadFlip | server/src/api/inbox.rs:693-753 | the increment's guard, which names no read column at all, is the change of the same predicate for an effectively read row |
| InboxApi.ArchiveFlip | server/src/api/inbox.rs:1061-1099 | the archive decrement's guard is the change of the same predicate |
| InboxApi.UnarchiveFlip | server/src/api/inbox.rs:1172-1215 | the unarchive increment's guard is the change of the same predicate |
| InboxApi.MarkBroadcastRead | server/src/api/inbox.rs:796-887 | INSERT .. ON CONFLICT or DELETE, by side of the watermark, commits the broadcast flip of the model; a broadcast from before the subscriber is not found |
| InboxApi.MarkBroadcastUnread | server/src/api/inbox.rs:914-1001 | INSERT .. ON CONFLICT or DELETE, by side of the watermark, commits the broadcast flip of the model; a broadcast from before the subscriber is not found |
| InboxApi.ArchiveBroadcast | server/src/api/inbox.rs:1255-1337 | INSERT .. ON CONFLICT or DELETE, by side of the watermark, commits the broadcast flip of the model; a broadcast from before the subscriber is not found |
| InboxApi.UnarchiveBroadcast | server/src/api/inbox.rs:1364-1446 | INSERT .. ON CONFLICT or DELETE, by side of the watermark, commits the broadcast flip of the model; a broadcast from before the subscriber is not found |
| InboxApi.MarkAllRead | server/src/api/inbox.rs:1628-1726 | one watermark, a zeroed count and both override GCs bound to that watermark are the model's read-all; no row of another subscriber is touched |
| InboxApi.MarkAllSeen | server/src/api/inbox.rs:1746-1802 | only the seen watermark and the unseen count change |
| InboxApi.ArchiveAllItems | server/src/api/inbox.rs:1466-1536 | one watermark, a zeroed unread count and both archive GCs are the model's archive-all |
| InboxApi.ArchiveReadItems | server/src/api/inbox.rs:1556-1582 | only a job is written, with the clock read under the lock as its horizon |
| Worker.ProcessDeliver | server/src/worker.rs:479-585 | one chunk: the aggregated bump of the affected counters rows, then the cursor advance or completion, is the model's deliver claim |
| Worker.BumpIsOfCountedRows | server/src/worker.rs:522-559 | the bump's two correlated counts add, for every subscriber, the rows of the chunk the model counts, and nothing to unaffected rows |
| Worker.RecountSubscriber | server/src/worker.rs:864-933 | the recount in its own columns is the model's recount at the pinned `now`, pending rows excluded by queued jobs only |
| Worker.ProcessArchiveRead | server/src/worker.rs:658-843 | a claim of either phase, with its cursor advance, early ends and completion, is the model's archive-read claim |
| Worker.ProcessClaimed | server/src/worker.rs:152-227 | dispatch on the job type, then deletion or not, is one atomic step of the model |
| Worker.FailClaimed | server/src/worker.rs:264-331 | attempt counted, back-off set, and the job moved to dead letters exactly when its attempts are used up |
| Management.CreateNotificationsTxn | server/src/api/management.rs:130-259 | lazy subscriber upsert, row inserts, and either the conditional bump or one deliver job, in that order |
| Management.RewriteRows | server/src/api/management.rs:815-858 | the CASE expressions re-encode exactly the rows that are named, the source's, visible and not pending, and those are the ones returned |
| Management.MoveNotificationsTxn | server/src/api/management.rs:747-887 | enrol, rewrite, copy mutes the target has no row for, recount both; nothing beyond enrolment when no row moved; the number returned is that of the moved rows |
| Management.WriteEntries | server/src/api/preferences.rs:216-306 | validation of every entry first, then the loop; a recount is enqueued exactly when some entry touched a row |
| Management.ReplayWhere | server/src/dlq.rs:59-84 | exactly the selected dead letters return to the queue with id, payload and cursor kept and attempts reset |
| InboxRuns.CountersAreExact | server/src/worker.rs:864-933 | main theorem: after every run of the modelled transactions, crashes, retries, parkings and replays, with `now()` pinned anywhere before the commit, each count of every subscriber that owes no recount equals the rows it stands for, unless one of the listed guards made that very count dirty and nothing repaired it since |
| InboxRuns.StepKeepsInv | server/src/api/inbox.rs:505-1802 | the inductive step: every transaction keeps rows, overrides, ownership and counters right, for every state and both clocks |
| InboxGuarantees.RecountWouldChangeNothing | server/src/worker.rs:890-929 | in every reachable state without owed recounts, parked deliver jobs or past accidents, the code's own recount is the identity |
| InboxInvariant.FlipMovesOneRow | server/src/api/inbox.rs:573-608 | a flip moves its subscriber's unread count by exactly its own row, counted before or after |
| InboxInvariant.FlipBreaksExactness | server/src/api/inbox.rs:1586-1608 | exactly when a flip leaves an exact unread count wrong: its row is owned by a parked deliver job only, the flip changes whether it counts, and the clamp does not hide it; the unseen count it never touches |
| InboxInvariant.FlipKeepsInv | server/src/api/inbox.rs:505-1228 | all four per-item flips keep the invariant |
| InboxInvariant.ClampNeverFires | server/src/api/inbox.rs:588-593 | in a covered state `greatest(0, n - 1)` is never asked to clamp |
| InboxInvariant.ReadAllKeepsInv | server/src/api/inbox.rs:1646-1711 | zeroing the count and moving the watermark to the locked clock agree: nothing unowned lies above it, so the unread count is exact afterwards even if it was wrong before |
| InboxInvariant.SeenAllKeepsInv | server/src/api/inbox.rs:1766-1777 | the same for the seen watermark and the unseen count |
| InboxInvariant.ArchiveAllKeepsInv | server/src/api/inbox.rs:1480-1522 | the same for archive-all, whose watermark clears and repairs the unread count |
| InboxInvariant.ImmediateCreateCounts | server/src/api/management.rs:198-223 | the conditional increment of a create adds to each recipient exactly what its new row adds to both counts |
| InboxInvariant.ScheduledRowsAreOwned | server/src/api/management.rs:230-241 | a scheduled create's rows are owned by its new job and change no other ownership |
| InboxInvariant.WritePreferencesKeepsInv | server/src/api/preferences.rs:239-302 | a mute change that matters always leaves a recount owed |
| InboxInvariant.UntouchedMeansUnchanged | server/src/api/preferences.rs:239-282 | if no entry of the loop touched a row, every mute is as before and no recount is owed |
| InboxInvariant.LastEntryDecides | server/src/api/preferences.rs:239-282 | the last entry for a category decides it, whatever came before in the list |
| InboxInvariant.UnlistedStays | server/src/api/preferences.rs:214-240 | partial upsert: a category no entry names keeps its row |
| PreferenceWrites.AllOrNothing | server/src/api/preferences.rs:216-238 | an empty list, more than a hundred entries, another channel, or a category of no or more than 255 bytes, and nothing is written; otherwise every entry is |
| PreferenceWrites.LengthIsOfTheBytes | server/src/api/preferences.rs:216-238 | the length that is limited is that of the UTF-8 encoding |
| PreferenceWrites.BytesDecode | server/src/api/preferences.rs:216-238 | the encoding is UTF-8: its first byte says how many bytes there are, and they stand for the character |
| PreferenceWrites.WritingAgainOwesNothing | server/src/api/preferences.rs:239-302 | a write of what holds already changes nothing and enqueues no recount |
| PreferenceWrites.WrittenHolds | server/src/api/preferences.rs:239-282 | entries that do not contradict one another hold once written |
| WorkerInvariant.DeliverReleasesItsChunk | server/src/worker.rs:489-572 | a committed chunk gives up exactly its own ids; every other ownership stays |
| WorkerInvariant.DeliverCounts | server/src/worker.rs:522-559 | for every subscriber the two counts grow by exactly the chunk's counted rows, none of which was counted before |
| WorkerInvariant.DeliverKeepsInv | server/src/worker.rs:479-585 | a deliver claim keeps the invariant |
| WorkerInvariant.RecountDrift | server/src/worker.rs:887-929 | how far a recount lands off, exactly: up by visible rows of parked deliver jobs, down by rows its pinned `now()` is too early to see |
| WorkerInvariant.RebuildKeepsInv | server/src/worker.rs:851-933 | the claim of a recount makes each count of its subscriber exact unless that count's errors do not cancel, and leaves all other subscribers alone |
| WorkerInvariant.SafeRecountIsExact | server/src/worker.rs:887-929 | a recount whose `now()` is past every committed row of a subscriber without parked rows has no errors to cancel |
| WorkerInvariant.ArchiveReadKeepsInv | server/src/worker.rs:658-843 | archiving read rows in chunks never changes a count |
| WorkerInvariant.TablesHoldTheSameWork | server/src/dlq.rs:59-84 | ownership and owed recounts depend on which work is held, not on the table or the attempt it is held in |
| WorkerInvariant.FailKeepsInv | server/src/worker.rs:264-331 | back-off and parking keep the invariant, cursor and ownership included |
| WorkerInvariant.ReplayKeepsInv | server/src/dlq.rs:59-84 | replay keeps the invariant |
| WorkerInvariant.MoveKeepsInv | server/src/api/management.rs:747-887 | a move leaves each of the four counts of its ends exact unless the errors of that very recount do not cancel, also if they were wrong before; bystanders stay as they were |
| InboxGuarantees.ReadAllIsExactIff | server/src/api/inbox.rs:1643-1667 | a read-all at any instant leaves the counter exact if and only if no unread, unarchived, unmuted, unowned row lies above that instant |
| InboxGuarantees.SeenAllIsExactIff | server/src/api/inbox.rs:1758-1777 | the same condition for seen-all |
| InboxGuarantees.ArchiveAllIsExactIff | server/src/api/inbox.rs:1480-1497 | the same condition for archive-all |
| InboxGuarantees.LockedClockMissesNothing | server/src/api/inbox.rs:1643-1667 | with the clock read under the lock all three conditions hold |
| InboxGuarantees.PinnedWatermarkLosesARow | server/src/api/inbox.rs:1643-1667 | a concrete state in which a watermark pinned at BEGIN loses a row and the locked clock does not |
| WorkerInvariant.RecountIsExactIff | server/src/worker.rs:888-910 | a recount makes a count exact if and only if it counts as many parked rows too early as it misses late ones, for unread and for unseen |
| InboxAccidents.RebuildIsExactIff | server/src/worker.rs:851-933 | the same condition for the claim of a counter_rebuild job, its deletion included |
| WorkerInvariant.MoveIsExactIff | server/src/api/management.rs:795-886 | a move leaves each of the four counts of its two subscribers exact if and only if the errors of that end's recount cancel, over the re-encoded rows |
| InboxAccidents.SourceOfAMove | server/src/api/management.rs:815-858 | for the source that condition is about its rows before the move: named parked rows leave, late rows stay |
| InboxAccidents.EarlyRecountLosesARow | server/src/worker.rs:888-910 | a run from the empty tables in which a recount begun before a committed create loses its row, with no further recount owed |
| InboxAccidents.EarlyMoveLosesARow | server/src/api/management.rs:860-886 | a run from the empty tables in which a move begun before a committed create takes the new row out of the source's count |
| InboxAccidents.ParkedThenReplayedIsWrong | server/src/api/inbox.rs:1592-1601 | a run from the empty tables (ten failures, read, replay) after which nothing is parked or owed and the counter is wrong |
| InboxAccidents.ParkedThenRecountedIsWrong | server/src/worker.rs:898-906 | a run from the empty tables in which a recount counts a row whose deliver job is parked |
| InboxGuarantees.RepeatedFlipDoesNothing | server/src/api/inbox.rs:545-627 | flips are idempotent: the second one changes neither row nor count |
| InboxGuarantees.OppositeFlipRestores | server/src/api/inbox.rs:505-769 | a flip that changed its item is undone by its opposite: all flags and all counts as before |
| InboxGuarantees.CreatedNotification | server/src/api/management.rs:177-193 | each recipient gets its own row, unread and unarchived unless a watermark covers it, visible exactly from its due time on and only to it |
| InboxGuarantees.CreatedBroadcast | server/src/api/management.rs:331-345 | a broadcast belongs to everybody enrolled by then, dated by its transaction, unread and unarchived but for a watermark past it |
| InboxGuarantees.EnrolledSubscriber | server/src/api/management.rs:137-176 | a new subscriber starts with empty counters and sees the broadcasts from its enrolment on; a known one stays as it is |
| InboxGuarantees.ImportedSubscriber | server/src/api/management.rs:404-450 | an imported subscriber may be dated back, a known one keeps its date |
| InboxGuarantees.ReadAllLeavesNoOverrides | server/src/api/inbox.rs:1687-1711 | after read-all nothing redundant is left, no unread override and no exception at or below the new watermark, and nothing above it or of another subscriber is touched |
| InboxGuarantees.ArchiveAllLeavesNoOverrides | server/src/api/inbox.rs:1498-1522 | the same for archive-all |
| InboxGuarantees.MoveConservesRows | server/src/api/management.rs:815-858 | exactly the named visible rows of the source that no queued job owns go over to the target; the two inboxes together keep what they held, nobody else's changes |
| InboxGuarantees.MoveCopiesMutes | server/src/api/management.rs:871-881 | after a move the target keeps every preference it had and has the source's answer for the categories it had none for; no other preference changes |
| DeliverOnce.BumpedExactlyOnce | server/src/worker.rs:479-585 | over every run, a notification is in exactly one committed bump chunk if it was scheduled and no queued or parked job owns its position any more, and in none otherwise |
| DeliverOnce.StepTransfers | server/src/worker.rs:121-249 | each transaction loses ownership only to a bump and gains it only by scheduling |
| DeliverOnce.JobsArePartitioned | server/src/worker.rs:301-316 | after every run with fresh job ids, the ids ever used are those of queued, parked and finished jobs, three disjoint sets: no job is lost or doubled, and a finished one never returns |
| DeliverOnce.StepKeepsJobs | server/src/worker.rs:210-249 | a transaction adds at most the one job it enqueues and drops at most the one it claimed; retry, parking and replay drop none |
| JobLife.EnqueuedJobs | server/src/jobs.rs:20-47 | every job a request leaves behind is untried, has ten attempts and is due when it should be: a delivery with its rows, the others at once |
| JobLife.ScheduledIsDelivered | server/src/worker.rs:479-585 | a scheduled create of n rows is delivered by exactly one claim per 500 of them (one for none), whenever they come from its due time on |
| JobLife.ParkedWhenSpent | server/src/worker.rs:264-331 | over any failures in a row a job stays queued, counted and backed off, until its attempts are used up, and is then parked with its cursor |
| JobLife.ReplayStartsOver | server/src/dlq.rs:59-84 | a replayed job is due at once with its cursor kept and takes as many failures to park again as a new one |
| JobLife.ReplayLeavesOthers | server/src/dlq.rs:59-84 | jobs that were not selected stay where and as they are |
| InboxRefinement.FlipRefines | server/src/api/inbox.rs:505-1228 | a per-item flip sets exactly one item's requested flag and leaves the other flag and every other item alone |
| InboxRefinement.SetOverrideSets | server/src/api/inbox.rs:829-867 | whatever exception row was there, the flip makes the effective flag the requested one |
| InboxRefinement.FlipBroadcastRefines | server/src/api/inbox.rs:796-1446 | a broadcast flip sets exactly one flag of one broadcast for one subscriber |
| InboxRefinement.ReadAllRefines | server/src/api/inbox.rs:1628-1726 | watermark, zeroing and GCs together set the read flag of everything at or before the clock and of nothing after it |
| InboxRefinement.ArchiveAllRefines | server/src/api/inbox.rs:1466-1536 | the same for the archived flag |
| InboxRefinement.MovedRowKeepsItsFlags | server/src/api/management.rs:815-840 | for every pair of source and target watermarks the re-encoded row says what it said, with overrides only at or below the target's |
| InboxRefinement.MovedRowKeepsItsTimes | server/src/api/management.rs:815-840 | explicit marks keep their times; one that the watermark made is dated by it, and a new one by the move |
| InboxRefinement.MoveRefines | server/src/api/management.rs:747-887 | to a reader a move only changes whose items they are |
| InboxRefinement.ArchiveReadRefines | server/src/worker.rs:658-843 | one claim archives exactly the read items of its scanned key range |
| InboxRefinement.ArchiveReadMarks | server/src/worker.rs:694-755 | a claim dates what it archives by its own `now()`, archives only read, unarchived rows, and touches no other column |
| InboxStory.StepFollows | server/src/api/inbox.rs:505-1802 | every transaction does to every reader's flags, watermarks and visibility what its naive effect says, and no more |
| InboxStory.NotificationsFollowTheStory | server/src/api/inbox.rs:249-352 | over every run, the flags the list reports for a notification are the fold of the naive effects since it was created |
| InboxStory.BroadcastsFollowTheStory | server/src/api/inbox.rs:299-324 | the same for every broadcast as every subscriber sees it |
| InboxStory.TablesFollow | server/src/api/inbox.rs:1687-1711 | in every reachable state a broadcast_reads row says the opposite of the watermark, exception rows carry their broadcast's time, and each watermark is the instant of the last set-all |
| InboxStory.VisibleBroadcastsStay | server/src/api/inbox.rs:824-827 | a broadcast once visible to a subscriber stays visible |
| InboxViews.BroadcastTermsAreTheArm | server/src/api/inbox.rs:418-454 | the two live count terms are disjoint and together are the unread broadcasts of the list |
| InboxViews.ServedIsTheUnreadView | server/src/api/inbox.rs:409-478 | the number served is the size of the whole unread view less the visible rows a deliver job still owns |
| InboxViews.BadgeAgreesWithTheList | server/src/api/inbox.rs:381-478 | the same in every reachable state the run theorem covers |
| InboxViews.ViewsPartitionTheInbox | server/src/api/inbox.rs:68-95 | in both arms the default and the archived view share the visible unmuted items between them, and the unread view is part of the default one |
| InboxViews.ViewsFollowTheStory | server/src/api/inbox.rs:249-298 | after every run a view holds exactly the subscriber's visible unmuted notifications whose naive story left them with the view's flags |
| InboxViews.BroadcastViewsFollowTheStory | server/src/api/inbox.rs:299-324 | the same for broadcasts since the subscriber joined |
| InboxViews.ReadAllEmptiesTheView | server/src/api/inbox.rs:1646-1721 | after read-all the unread view is empty and the badge says zero |
| InboxViews.ServedUnseenIsWhatArrived | server/src/api/inbox.rs:455-470 | the unseen number served is what both views hold from after the seen watermark, archived or not, less the visible rows a deliver job still owns |
| InboxViews.UnseenAgreesWithTheList | server/src/api/inbox.rs:381-478 | the same in every reachable state the run theorem covers |
| InboxViews.SeenAllClearsTheNumber | server/src/api/inbox.rs:1766-1777 | right after seen-all the unseen number is zero, broadcasts included |
| KeysetList.MergedPageIsThePage | server/src/api/inbox.rs:249-352 | limiting each arm, merging and limiting again gives the top of the filtered union below the cursor |
| KeysetList.ListItemsIsThePage | server/src/api/inbox.rs:249-352 | so every page the list query returns is the page of the whole view |
| KeysetList.PageIsTheNewest | server/src/api/inbox.rs:249-352 | a page holds at most `limit` items of the view at their own times, newest first and below the cursor; an item of the view below the cursor that is not on it is older, by time and then by id, than every row of a full page |
| KeysetList.PagesAreTheList | server/src/api/inbox.rs:192-195 | following `next_cursor` to null reads the list below the cursor in strict descending order, each item once, in one page more than there are full pages |
| KeysetList.PagesListTheView | server/src/api/inbox.rs:156-201 | all pages of a view together hold each of its items once, at its own `visible_at` or `created_at`, each older than the one before |
| KeysetList.StoredPagesAreTheList | server/src/api/management.rs:609-678 | the management list, followed to its end, is every stored row oldest first |
| KeysetList.StoredPagesListTheRows | server/src/api/management.rs:637-648 | those rows are all of the subscriber's, visible or not, each at its own `visible_at` |
| Keyset.SelectAscending | server/src/worker.rs:697-704 | ORDER BY with LIMIT, as the loop that takes the least remaining key |
| Chunks.FullChunk | server/src/worker.rs:694-755 | a full chunk takes the least keys and the scan from its last key finds exactly the others |
| ArchiveReadJob.ArchiveReadIsOnePass | server/src/worker.rs:658-843 | run to completion at any times, the chunked job takes exactly as many claims as its scans have chunks and has the effect of one pass over the read items up to `as_of`; no counter moves |
| ArchiveReadJob.RequestIsOnePass | server/src/jobs.rs:82-100 | from the request to the end: whenever the worker comes at or after the request's `now()`, as many claims as the scans have chunks of 500, and one more for each, end the job, and exactly the read items that existed at the clock read under the lock are archived |
| ArchiveReadJob.DirectClaim | server/src/worker.rs:694-755 | between claims exactly what the committed cursor covers has been archived (direct phase) |
| ArchiveReadJob.BroadcastClaim | server/src/worker.rs:757-843 | the same for the broadcast phase, whose first short chunk ends the job |
| InboxClient.OlderThanComparesIds | packages/client/src/client.ts:36-46 | the model's tie order is the string comparison of the code on the ids as the server formats them: by uuid within a source, by prefix across sources, for every pair of 128-bit uuids |
| InboxClient.ListClient.MergeFirstPage | packages/client/src/client.ts:539-567 | the merge in place is the fold of the model: whole list, reset, or page plus the tail the client takes for older, and the page rows not loaded before are the arrivals |
| InboxClient.ListClient.ApplyRefresh | packages/client/src/client.ts:494-527 | an answer or failure of a turn that began under another view changes nothing at all; otherwise page, validator, counts, spinner and error are taken in |
| InboxClient.ListClient.ApplyMore | packages/client/src/client.ts:580-597 | a stale page is dropped; otherwise its unloaded rows are appended, the cursor follows it and the error clears |
| InboxClient.ListClient.FailMore | packages/client/src/client.ts:598-603 | a failure under the current view shows, a stale one does not, and neither touches the list |
| InboxClient.ListClient.Refresh | packages/client/src/client.ts:190-209 | a call during a refresh queues one rerun, otherwise it starts one |
| InboxClient.ListClient.EndOfTurn | packages/client/src/client.ts:197-207 | a turn that ends goes round again exactly when a call came in meanwhile, and otherwise the loop is over |
| InboxClient.ListClient.SetFilter | packages/client/src/client.ts:230-244 | switching views bumps the generation, clears items, cursor, validator and arrivals and asks for a refresh; the same view is a no-op |
| ClientLists.OrdersDifferAtTies | server/src/api/inbox.rs:323-324 | the client's order and the list's disagree about an item and a page's last one exactly at a tie between the sources: the notification that is listed below a broadcast is taken for newer than it, the broadcast listed above a notification for older |
| ClientLists.TailIsBelowThePage | packages/client/src/client.ts:553-557 | where the two orders agree about the loaded items off the page, the tail kept is exactly what lies below the page |
| ClientLists.FoldedIsASegment | packages/client/src/client.ts:539-567 | where they agree a fold leaves no hole and the same last item |
| ClientLists.FoldFitsIff | packages/client/src/client.ts:539-567 | folding a first page into a loaded list leaves a prefix with the cursor at its end if and only if no loaded item off an overlapping page is wrongly kept, and none is wrongly dropped while another is rightly kept; for every list, every place the page starts and every page size |
| ClientLists.MoreFitsIff | packages/client/src/client.ts:580-597 | appending a page leaves a prefix if and only if the page starts inside the loaded segment or right after it and reaches at least to its end |
| ClientRuns.StepIsOkIff | packages/client/src/client.ts:190-244 | the inductive step over calls, answers computed any time in flight, view switches and server growth: it keeps the list loaded if and only if it is harmless at that moment |
| ClientRuns.AlwaysAPrefixIff | packages/client/src/client.ts:539-597 | main theorem: a run of overlapping requests against head-growing lists shows a prefix of the list last fetched at every moment, the cursor at its deepest item, if and only if none of its steps folds at a misleading tie or appends a page that does not continue the list |
| ClientRuns.ClampedIsNearest | packages/client/src/client.ts:569-575 | a page size out of 1..100 is taken to the nearest one in it |
| ClientRuns.ItemsAreAPrefix | packages/client/src/client.ts:539-597 | after such a run the items are a prefix, newest first and each once, and no more is offered only when it is the whole list |
| ClientRuns.QuietRunsAreHarmless | packages/client/src/client.ts:553-597 | without ties between the sources and without a reset under a fetchMore in flight every step of every run is harmless |
| ClientRuns.IdleMeansAllCallsServed | packages/client/src/client.ts:190-209 | when no refresh is running, a turn that began at or after the last refresh() call has completed |
| ClientRuns.IdleShowsTheLastCall | packages/client/src/client.ts:190-209 | when no refresh is running and the last turn did not fail, the list last fetched is at least as new as the one at the last refresh() call, 304 answers included, in every run; in harmless runs the items are a prefix of it |
| ClientShows.SpinnerMeansRefreshing | packages/client/src/client.ts:494-527 | over every run, view switches and failures included, `isLoading` is set exactly while a refresh is on its way |
| ClientShows.ExactlyOneRerun | packages/client/src/client.ts:185-209 | calls during a refresh queue exactly one more turn: the loop goes round if and only if there was one, and stops after that turn unless another came |
| ClientShows.OneFetchAtATime | packages/client/src/client.ts:211-223 | at most one further page is on its way: only its answer ends a request, and a call sends one exactly while more is offered and none is out, from the end of the list |
| ClientShows.ShowsTheLastAnswer | packages/client/src/client.ts:494-603 | after every run the counts are those of the last answer taken in, a 304 included, and the error is the outcome of the last request that ended under its own view |
| ClientShows.ArrivalsAreNew | packages/client/src/client.ts:539-567 | the arrivals are exactly the rows of the last first page that were not loaded when it came; a view switch clears them |
| ClientAccidents.TieLeavesAHole | packages/client/src/client.ts:553-567 | a run from a fresh client in which a fold loses a notification that shares its instant with the broadcast at the end of the page |
| ClientAccidents.LateAnswerLeavesAHole | packages/client/src/client.ts:558-561 | a run from a fresh client in which an answer from before a reset leaves a hole, under an unchanged viewGeneration |
| Hints.HintWorker.Process | server/src/worker.rs:346-469 | coalesce, loop over the targets, log, then delete or defer with the remaining ids |
| Hints.TokenSurvivesIff | server/src/worker.rs:440-456 | each own or absorbed id ends in the log or in the same job's deferred payload if and only if it was logged or its recipient is a target, under any debounce answers and any locked subset |
| Hints.TokenGoesWithItsTarget | server/src/worker.rs:425-456 | an id is logged, at the claim's time, exactly if its recipient was just published to, and deferred exactly if its recipient was refused |
| Hints.RefusedStayAddressed | server/src/worker.rs:402-467 | a claim leaves its job addressed to exactly the audiences it was refused, for the same reason, ids or no ids, and the job is gone exactly if none was |
| Hints.DuplicatesAreAbsorbed | server/src/worker.rs:370-400 | exactly the unlocked hints of the same reason and targets are coalesced away, and their ids are gathered |
| Hints.NobodyIsForgotten | server/src/worker.rs:332-345 | over every run, whoever something is announced to is published to by a later claim of that reason or still addressed by a live hint of it, single subscribers and the whole environment alike |
| Hints.HintKeepsTokens | server/src/worker.rs:370-400 | coalescing and deferral never put an id in two live jobs |
| Hints.TokensNeverSplit | server/src/worker.rs:575-584 | in every reachable state an id rides in at most one live deliver or hint job and is logged at most once |
| Hints.NothingIsLost | server/src/worker.rs:332-345 | as long as no notification is moved away from an addressed, unpublished hint, each is announced or still carried towards its recipient |
| Hints.HeldUnlessMissed | server/src/worker.rs:402-456 | over every run, moves included, a notification is logged or still carried if and only if no claim gathered it unannounced while its recipient was no target |
| Hints.MovedBeforeItsHint | server/src/api/management.rs:883-884 | a concrete run in which a move before the hint leaves a notification neither logged nor carried |
| Timeline.StatusLog.Append | server/src/timeline.rs:29-55 | rows are added for exactly the ids without the status |
| Timeline.StatusLog.AppendDelivered | server/src/timeline.rs:60-89 | only for ids whose recipient a hint was just published to |
| Timeline.StatusLog.AppendWindowChunk | server/src/timeline.rs:130-193 | one keyset chunk of the window, and the cursor after a full one |
| Timeline.AppendKeepsTheLog | server/src/timeline.rs:29-55 | an append changes no row, adds no second one, and leaves the status on exactly its ids |
| Timeline.CursorAdvances | server/src/timeline.rs:148-192 | a full chunk moves the cursor strictly up and leaves exactly one chunk less |
| Timeline.WindowJobMarksTheWindow | server/src/worker.rs:595-647 | a watermark job run to completion over rows that stay as they are leaves the status on exactly the rows in (from, to] beyond those that had it |
| Timeline.MarkedIffThere | server/src/timeline.rs:130-193 | with rows committed late or moved between chunks, a row of the window has the status afterwards if and only if it had it before or was there when the one chunk that covers its key ran |
| Timeline.LateRowGetsNoStatus | server/src/timeline.rs:130-193 | a concrete window and row, committed after the job, that is covered by the watermark and gets no status |
| Timeline.EveryRunIsOncePerStatus | server/src/timeline.rs:1-16 | however appends are mixed, a status is logged once, at the time of the first append that had it |
| Debounce.Debouncer.TryAcquire | server/src/pubsub.rs:236-248 | prune, then grant or refuse, on the in-process map |
| Debounce.GrantsAreAWindowApart | server/src/pubsub.rs:236-248 | two grants of one key are at least a window apart, over every run of attempts |
| Debounce.RefusalHasAGrant | server/src/pubsub.rs:236-248 | a refused key was granted less than a window ago |
| RateLimit.LocalRateLimiter.Check | server/src/ratelimit.rs:172-214 | collect, take or create the bucket, refill, take a token, store |
| RateLimit.ScriptStore.Eval | server/src/ratelimit.rs:62-86 | the script on its own clock, seeing nothing of an expired key |
| RateLimit.LocalLimiterIsIdeal | server/src/ratelimit.rs:178-190 | with its GC the in-process limiter decides every call of every run as one that never forgets |
| RateLimit.ScriptIsIdeal | server/src/ratelimit.rs:70-84 | with its two-refill expiry so does the script |
| RateLimit.SameDecisions | server/src/ratelimit.rs:178-190 | dropping any full buckets before any calls changes no decision |
| RateLimit.BurstPlusRate | server/src/ratelimit.rs:172-214 | the calls of a key that pass in a window number at most burst + rate * (t - s) |
| RateLimit.PassesIff | server/src/ratelimit.rs:172-214 | main theorem: over every run a call passes if and only if in no window that begins with a call of its key (itself included) it would be more than `burst` plus what the rate brought since; without a rate every call passes |
| RateLimit.FirstBurstPasses | server/src/ratelimit.rs:172-214 | the first floor(burst) calls of a key pass, even all at one instant |
| RateLimit.CallSpends | server/src/ratelimit.rs:191-193 | an allowed call costs its key exactly one token, a refused call and a call of another key none |
| RateLimit.TokensStayWithin | server/src/ratelimit.rs:191-193 | tokens stay between zero and the burst |
| RateLimit.RetryAfterIsExact | server/src/ratelimit.rs:194-204 | after a refusal, with no call of its key in between, a call passes if and only if at least retry_after has gone by and the burst is at least one |
| RateLimit.ExpiredMeansFull | server/src/ratelimit.rs:84-84 | an expired hash stood for a full bucket |
| RateLimit.ExpiryIsTwoRefills | server/src/ratelimit.rs:84-84 | the expiry is two whole refills, rounded up to the millisecond and no further |
| RateLimit.GcKeepsWhatLimits | server/src/ratelimit.rs:178-190 | of a crowded map the GC keeps exactly the buckets that by their own parameters are not full again |
| TypeId.Format | server/src/ids.rs:22-40 | the bit-accumulator loop writes the canonical text: the 26 base-32 digits of the 128-bit value; the u32 accumulator never wraps |
| TypeId.Parse | server/src/ids.rs:44-70 | the strict parse loop, early returns and in-place byte array included, is the parse of the model; its accumulator never wraps |
| TypeId.ParseInvertsFormat | server/src/ids.rs:22-70 | parse inverts format for every 128-bit id |
| TypeId.FormatInvertsParse | server/src/ids.rs:44-70 | whatever is accepted is exactly the format of its result |
| TypeId.FitsIffFirstDigit | server/src/ids.rs:51-53 | 26 digits fit in 128 bits exactly when the first is at most 7 |
| TypeId.StringOrderIsUuidOrder | packages/client/src/client.ts:36-46 | ids of one prefix compare as strings the way their uuids compare as numbers; the half of the client's tie order that agrees with the server |
| TypeId.SymbolDecodes | server/src/ids.rs:72-74 | the alphabet decodes each symbol to its digit |
| TypeId.SymbolIsCrockfords | server/src/ids.rs:18-20 | the alphabet is the ten digits and then the letters without i, l, o and u |
| Fairness.Discover | server/src/worker.rs:82-98 | the probe for the next greater environment finds each one with due work exactly once |
| Fairness.Worker.Sweep | server/src/worker.rs:82-116 | a sweep claims one job in every environment with due work, the earliest there, and touches no other |
| Fairness.SweepDoesOneChunkEach | server/src/worker.rs:82-116 | a sweep does exactly one chunk of each job it claims and of no other, and drops nothing unfinished |
| Fairness.Worker.ProcessOne | server/src/worker.rs:128-138 | the claim is the earliest due job of its environment |
| Fairness.ClaimedWithin | server/src/worker.rs:74-116 | with k chunks of work ahead in its own environment a due job is claimed within k + 1 sweeps, whatever arrives elsewhere |

## Left out

- InboxRuns.CountersAreExact: takes one clock order over the commits of all subscribers, where the source needs one per subscriber; `Apply` uses the locked clock of a step only for the subscriber whose counters row it holds.
- InboxStory.TablesFollow: says nothing of `broadcast_archives` rows being exceptions, because archive-read leaves rows that only repeat the watermark; their meaning is covered by the refinement.
- Hints.HintWorker.Process: does not set the time a deferred hint comes back at; when it is claimed again is left open.
- Hints.NothingIsLost: does not cover a move away from an addressed hint, because there it is false; `Hints.HeldUnlessMissed` is exact over all runs.
- Timeline.EveryRunIsOncePerStatus: takes each append as one step; for `delivered_hint`, which holds no lock, what justifies that is `Hints.TokensNeverSplit`.
- RateLimit.ScriptIsIdeal: measures expiry exactly from the stored time, where Redis rounds to milliseconds; the limiter's fail-open path on Redis errors is not modelled.
- RateLimit.ScriptStore.Eval: keeps tokens and times as reals, where Redis stores decimal strings.
- Fairness.ClaimedWithin: is about one worker whose claims succeed; a row locked by another worker or a failed claim can delay the job further.
- Fairness.Worker.Sweep: reads one `now` for discovery and all its claims, and every claim succeeds.
- Fairness.Worker.ProcessOne: has no rows locked by other workers to skip.
- InboxApi.MarkNotificationRead: does not write the `read` status (that append is `Timeline.StatusLog.Append`), the hint job and `updated_at`.
- InboxApi.MarkNotificationUnread: does not write the hint job and `updated_at`.
- InboxApi.ArchiveNotification: does not write the hint job and `updated_at`.
- InboxApi.UnarchiveNotification: does not write the hint job and `updated_at`.
- InboxApi.MarkBroadcastRead: does not write the exception row's `read_at`, the counters' `updated_at` and the hint job.
- InboxApi.MarkBroadcastUnread: does not write the exception row's `read_at`, the counters' `updated_at` and the hint job.
- InboxApi.ArchiveBroadcast: does not write the exception row's `updated_at` and the hint job.
- InboxApi.UnarchiveBroadcast: does not write the exception row's `updated_at` and the hint job.
- InboxApi.MarkAllRead: does not write the timeline window job (`Timeline.WindowJobMarksTheWindow`) and the hint job; the counts it returns are `InboxViews.ServedUnread` and `InboxViews.ServedUnseen` of the state it leaves.
- InboxApi.MarkAllSeen: does not write the timeline window job and the hint job; the counts it returns are those of the state it leaves.
- InboxApi.ArchiveAllItems: does not write the hint job; its counts are those of the state it leaves.
- Worker.ProcessDeliver: does not write the hint that announces the finished job; `Hints` does (`FinishDeliver`).
- Worker.ProcessArchiveRead: does not write the final hint and `updated_at`.
- Worker.ProcessClaimed: does not dispatch hint and timeline jobs, which own no row and recount nothing and have their own modules.
- Management.CreateNotificationsTxn: does not write the `created` statuses, the hint job and the idempotency snapshot.
- Management.MoveNotificationsTxn: does not write the hint.
- Management.WriteEntries: does not write the hint and `updated_at`.
- Retention (month partitions being dropped), deletion of subscribers and environments: nothing is ever deleted from the modelled tables.
- `updated_at` and ETags on the server, idempotency keys and their snapshots, payloads, traces, metrics.
- HTTP routing, authentication, request parsing beyond the checks shown, and the environment column: the tables are those of one environment.
- MVCC, SQL parsing, Postgres and Redis themselves.
- The client's optimistic mutations and their rollback, its SSE stream and reconnect timers.
- Floating-point rounding in the rate limiter, and the jitter of the retry back-off (any delay is allowed).
- The cursor's text encoding, preference hooks, React components, admin plane, SDKs and documentation site.
