# A verified model of the chat client's synchronisation engine

This project models, in Dafny, the protocols by which the chat clients stay in step with the server, and proves
what they promise. Every stretch of code between two awaits is one step; a run is any sequence of steps, so every
interleaving is covered. An object that the source updates in place is a class here, and its methods are proved
against a specification on plain values; the run theorems are about that specification.

| files | what they model |
|---|---|
| `Messages`, `MessageTable`, `MessageStore` | one room's window of messages: merging server copies, tombstones, gaps, the fill timer |
| `StoreRuns`, `StoreRows`, `StoreTombstones`, `StoreIdentity` | what every run of the store keeps: its window, each row, what a version is worth, one row per message |
| `RoomSync` | the catch-up loop, with live traffic during each request |
| `Emoji`, `Reactions`, `ReactionFlow` | the order of reactions, the tap, the optimistic request and the versioned refetch |
| `Outbox`, `OutboxRuns` | the send queue, its write-behind cache, crashes, and a record of what was promised and sent |
| `OutboxDurability`, `OutboxOrder`, `OutboxClock`, `OutboxHealth`, `OutboxBudget`, `OutboxStuck`, `OutboxRest` | nothing is lost; order per room, with and without a clock; every entry is accounted for; work is bounded; the one way to get stuck; nothing ready is forgotten |
| `AiMessages`, `AiSender`, `AiStream`, `AiEndToEnd` | the generation job, the client that reassembles its stream, and both together |
| `RoomSummary`, `SummaryRuns` | the rolling room summary: the job, the model hook, the readers, on a whole-second clock |
| `Session`, `SessionRuns` | tokens, the session epoch, the shared refresh, and requests that retry |
| `CacheKeys`, `Cache`, `CacheIsolation`, `CacheRefinement` | scoped keys and when they meet, the in-memory cache as reference, the row tables that refine it |
| `PrivacyLock`, `AvatarCrop`, `DeviceId` | the screen lock, the crop geometry in exact reals, the base-32 device id |
| `Common` | optional values, stable sort, filter |

`dafny verify dfyconfig.toml` checks all of it.

## What does not hold, and exactly when it does

- Server copies of one version converge on deleted, body and edit count, but not on everything: attachment URLs are signed
  anew and reply snippets computed anew for each response, and the last copy at the highest rank decides
  (`Messages.ContentConvergesIff`, `Messages.RefetchedAttachmentsDiverge`).
- A reaction version tells a row's summaries apart in every later run exactly unless the row is a tombstone that arrived with
  a summary (`StoreRows.VersionTellsIff`); of live rows it always tells. The server strips tombstones of their summary, and
  then it tells of every row (`StoreTombstones.EqualVersionsEqualSummaries`).
- An outbox entry is `sending` outside the running flush exactly if the write that saves its mark failed in this session
  (`OutboxHealth.EveryEntryIsAccountedFor`); its room is then not sent until the entry or its room is removed or the
  session ends (`OutboxStuck`).
- A failed write ends the flush, or the call, that waited for it without another flush. Ready entries are then left with nothing
  to wake a flush exactly if the outbox could send, no timer is armed, no flush is owed and no other such call is out
  (`OutboxRest.GivingUpForgetsIff`), and until a step of `OutboxRest.PutsRight` (`OutboxRest.PutRightIff`); over runs this is
  `OutboxRest.NothingIsForgottenUnless`, with an input in `OutboxRest.OneFailedWriteForgets`.
- A snapshot that the API read while an AI answer was being written and that arrives after the completed event takes the
  answer off the screen again, marks the stream live and asks for no resync; `AiEndToEnd.AnswerStaysIff` says exactly when the
  text stays, `AiEndToEnd.LateSnapshotHappens` gives the run.
- A resync takes the flag down even if a delta behind its cursor was delivered, or refused for a gap, while it was out; that
  delta is then missed in silence, exactly if the snapshot was overtaken (`AiEndToEnd.OvertakenResyncHidesIff`).
- A `started` event, or the late reply to a send, reopens a finished AI stream; this is harmless exactly under the
  condition of `AiEndToEnd.ReopeningBreaksUnless`. A cancelled answer's text survives the event but not a resync.
- The staleness of a room summary is detectable exactly as long as a change is stamped no earlier than the second in which
  the line was read (`SummaryRuns.StampDecides`); the run theorems assume that a write carries the second it happens in.
- Tokens in use belong to the current session exactly if no login is overtaken by a logout (`SessionRuns.LoginDecides`).
- A page that is hidden, logged out of, logged in to and enabled without locking comes back open
  (`PrivacyLocks.LogoutWhileHiddenReturnsOpen`); without a logout it comes back locked.
- Cache scopes are documented as isolated. They are exactly if neither scope with its colon begins the other
  (`CacheIsolation.IsolationIff`, `CacheIsolation.TableIsolationIff`): ids with colons can give two scopes one key, or put
  one scope inside another, whose `clearAll` then wipes it too. The comment on `messageLimit` promises the newest rows; a limit of zero keeps all of them.

## Assumptions about what lies outside

- The history endpoint serves a gapless log in ascending pages after a seq, at most 100 rows a page; the log only grows, up to
  some bound. An id fixes its client message id, and, for holes and catch-up, its seq; a replaced page has distinct client
  ids and, for the hole theorem, contiguous seqs.
- A new session restores before it enqueues, and the cache's writes of a dead session do not finish after that.
- Random ids never collide; an outbox entry's id is the number of its draw.
- A table transaction, and each single query of the summary job, is atomic; at most one summary job per room runs.
- Each call of a cache adapter is one step, although the source awaits between reading, wiping and stamping the version,
  and again before the write.

## Model

| member | source | states |
|---|---|---|
| Messages.MergeConverges | packages/chat-core/src/message-store.ts:240-255 | Two sequences with the same server copies of one message, in any order and with any repeats, end in the same state: deleted or not, and if not, the same body and edit count, provided live copies with one edit count carry one body. Their other fields and the freshness verdicts may differ. |
| Messages.FoldIsTheLastTop | packages/chat-core/src/message-store.ts:240-255 | Every other field, save the optional keys and the sender stub, is that of the last copy absorbed at the highest rank. |
| Messages.ContentConvergesIff | packages/chat-core/src/message-store.ts:240-255 | So all fields converge over every order, repetition and verdict if and only if the copies of the highest rank agree on them. |
| Messages.RefetchedAttachmentsDiverge | packages/chat-core/src/message-store.ts:240-255 | They need not: two fetches of one version with re-signed attachments end in whichever came last. |
| Messages.MergeOutcome | packages/chat-core/src/message-store.ts:240-255 | The fold is a tombstone if and only if some copy is one; otherwise it carries the body of a copy with the highest edit count. |
| Messages.MergeNeverLowersRank | packages/chat-core/src/message-store.ts:240-255 | A merge is never outranked by either of its two inputs (a tombstone ranks above any edit, live copies by edit count). |
| Messages.UnbumpedMergeKeepsSummary | packages/chat-core/src/message-store.ts:240-255 | A merge that leaves the reaction version alone leaves the summary alone, except exactly when both sides are tombstones and the loaded one still carries a summary. |
| MessageStores.MessageStore.MergeRow | packages/chat-core/src/message-store.ts:240-255 | Merging a copy into a loaded row changes only that row's reaction version, and returns the row the merge rule and the freshness rule give. |
| MessageStores.MessageStore.InsertOne | packages/chat-core/src/message-store.ts:257-272 | Inserting a copy merges it into its row, drops it when its client id is already loaded under another id, or loads it and bumps its version. |
| MessageStores.MessageStore.RecomputeView | packages/chat-core/src/message-store.ts:287-312 | The loop finds the first jump in the sorted rows; the shown run, the flagged gap, the timer and the prepend count follow from it, and only once the store is seeded. |
| MessageStores.MessageStore.AddMessages | packages/chat-core/src/message-store.ts:105-113 | A batch is inserted row by row and the view recomputed once, with the number of rows that landed above the old head. |
| MessageStores.MessageStore.MergeHistoryPage | packages/chat-core/src/message-store.ts:99-103 | A history page is inserted row by row, the store counts as seeded from then on, and the view is recomputed. |
| MessageStores.MessageStore.Confirm | packages/chat-core/src/message-store.ts:116-122 | The first row with the client id is deleted and the confirmed copy added. |
| MessageStores.MessageStore.DeliverFill | packages/chat-core/src/message-store.ts:125-133 | A fill first disarms the timer, then behaves as an add. |
| MessageStores.MessageStore.ReplaceAll | packages/chat-core/src/message-store.ts:69-91 | The rows become the page's, each merged with the row loaded before; the store is seeded, no gap is flagged and the timer is off. |
| MessageStores.MessageStore.MarkRowDeleted | packages/chat-core/src/message-store.ts:139-147 | A loaded row becomes a tombstone with an empty summary and a new version; an unknown id changes nothing. |
| MessageStores.MessageStore.OverwriteReactions | packages/chat-core/src/message-store.ts:196-208 | A live row takes the given summary, a new version and a touch time; a tombstone or an unknown id changes nothing. |
| MessageStores.MessageStore.RestampSenders | packages/chat-core/src/message-store.ts:218-233 | Rows whose sender stub is out of date are restamped, the shown rows are re-read, and nothing changes when no row is. |
| MessageStores.MessageStore.FillTimerFired | packages/chat-core/src/message-store.ts:314-322 | When the fill timer fires everything is shown, the gap is dropped and the time-out is recorded. |
| MessageStores.MessageStore.FinishReaction | packages/chat-core/src/message-store.ts:153-189 | Ending a reaction clears its flag and hands back the events withheld meanwhile. |
| StoreRuns.RunsAreConsistent | packages/chat-core/src/message-store.ts:287-329 | In every run of all mutators and the timer: ids are unique; the shown messages are a prefix of the loaded rows sorted by seq; the prefix is proper exactly while a gap is flagged; a flagged gap is the one right behind a run without a jump, on a seeded store; and until dispose the timer is armed exactly while a gap is flagged. |
| StoreRuns.RecomputeIsConsistent | packages/chat-core/src/message-store.ts:287-312 | From any rows with unique ids, a recompute establishes the window invariant and arms the timer exactly if it flags a gap. |
| StoreIdentity.NoUnflaggedHole | packages/chat-core/src/message-store.ts:69-91 | With contiguous initial pages and ids that fix their seqs, a seeded window that has not timed out shows no jump in any run. |
| StoreIdentity.OneRowPerMessage | packages/chat-core/src/message-store.ts:257-272 | If an id fixes its client id and replaced pages have distinct client ids, no reachable store holds two rows with one client id, whatever the order of optimistic copy, echo and pages; nothing is assumed about seqs. |
| StoreIdentity.ConfirmLeavesTheConfirmed | packages/chat-core/src/message-store.ts:116-122 | After a confirm, the confirmed copy as it came is loaded and is the only row with its client id. |
| StoreRows.RankNeverDrops | packages/chat-core/src/message-store.ts:69-147 | Over any run without confirms, with any copies, a row that stays loaded never falls back to an older edit and is never undeleted. |
| StoreRows.VersionIdentifiesSummary | packages/chat-core/src/message-store.ts:139-208 | For a row loaded at two points of any run with the same reaction version: it was loaded and as live at the first as at the second, and shows the same summary, or is a tombstone that shows none any more. No assumption on the copies. |
| StoreRows.VersionTellsIff | packages/chat-core/src/message-store.ts:240-255 | For a loaded row, equal versions mean equal summaries in every run that follows if and only if it is not a tombstone that carries a summary. |
| StoreRows.PendingReactionIsProtected | packages/chat-core/src/message-store.ts:240-272 | While a reaction is in flight, no page, event, fill or replacement changes the summary of a row that is still live. |
| StoreRows.RacedPageKeepsNewerSummary | packages/chat-core/src/message-store.ts:240-255 | A page asked for no later than the last local write of a row's summary does not bring an older summary back to a live row, whichever way the page comes in. |
| StoreRuns.PrependedIsTheOldHead | packages/chat-core/src/message-store.ts:279-285 | The prepend count is the position in the sorted rows at which the row that used to be first now stands. |
| StoreRows.DirtyTombstoneFoolsTheVersion | packages/chat-core/src/message-store.ts:257-272 | Such a tombstone need only be delivered once: it is loaded as it comes, and the version no longer tells. |
| StoreTombstones.EqualVersionsEqualSummaries | apps/api/app/Domain/Message/MessageSerializer.php:78-81 | The server strips deleted messages of their summary; if every delivered tombstone is stripped, equal versions mean equal summaries between any two points of any run, for every row, tombstones included. |
| RoomSyncs.RoomSync.Run | packages/chat-core/src/room-sync.ts:15-27 | From a window of log rows, with the log growing between requests and any live traffic during each (confirms, rows below the head, and replacing pages that hold what is covered so far), the catch-up loop ends as long as the log stays below some bound; if it finishes, every message the last request could read, from the head it began with on, is loaded; if no row below that head came in, any flagged gap lies behind all of them and none is flagged if nothing came later; it finishes whenever it stays active and no request fails. |
| RoomSyncs.ReplacementSparesIff | packages/chat-core/src/message-store.ts:69-91 | A replacing page in the middle of the catch-up keeps what is covered if and only if it holds that stretch itself. |
| RoomSyncs.PageProgress | packages/chat-core/src/room-sync.ts:22-26 | A page that promises more ends strictly above the cursor and strictly below the log's end: the variant of the catch-up loop. |
| RoomSyncs.PageIsSlice | apps/api/app/Http/Controllers/Api/V1/MessageController.php:72-152 | What the history endpoint returns above a cursor is the slice of the ascending log right behind it, full exactly when it promises more. |
| RoomSyncs.PageSettles | packages/chat-core/src/message-store.ts:99-103 | Merging one page extends what is covered up to the page's last row; after the last page all that was read is loaded and, if nothing below the head came in, a gap can only lie behind it. |
| RoomSyncs.Interfere | packages/chat-core/src/room-sync.ts:15-27 | Any sequence of live events, confirms and such replacements included, that carry rows the log has or will have keeps the store consistent and what is covered so far loaded. |
| Emoji.ComparePoints | packages/chat-core/src/reactions.ts:5-13 | The comparison loop returns the first code-point difference, or the difference in length. |
| Emoji.EmojiOrderIsTotal | packages/chat-core/src/reactions.ts:5-13 | The comparison is a total order: total, transitive, and equal only on the same string. |
| Emoji.CodePointOrderIsByteOrder | packages/chat-core/src/reactions.ts:4-13 | Code-point order agrees with the order of the UTF-8 bytes on every pair of strings, as the server sorts them. |
| Emoji.CanonicalIsIdempotent | packages/chat-core/src/reactions.ts:25-31 | Canonicalising twice is canonicalising once. |
| Reactions.SortIsCanonical | packages/chat-core/src/reactions.ts:16-18 | Every permutation of the same counts sorts to one list. |
| Reactions.ToggleReaction | packages/chat-core/src/reactions.ts:37-56 | Counting, taking the old pick back and casting the new one compute the toggle that the vote lemmas are about. |
| Reactions.ToggleMovesOneVote | packages/chat-core/src/reactions.ts:37-56 | On a coherent summary a tap keeps it coherent, and every emoji's votes change by exactly the old pick leaving and the new one arriving. |
| Reactions.ToggleMovesTotal | packages/chat-core/src/reactions.ts:37-56 | The total changes by (a new pick is made) minus (an old pick was there). |
| Reactions.ToggleBackRestores | packages/chat-core/src/reactions.ts:37-56 | Toggling back to the original pick restores the same sorted list. |
| ReactionFlow.Tap | packages/chat-core/src/reactions.ts:89-97 | A tap on a missing or deleted row, or on a row already in flight, does nothing; otherwise it takes the flag and writes the toggled summary. |
| ReactionFlow.Settle | packages/chat-core/src/reactions.ts:98-103 | A response ends the flight, is written sorted, and asks for a refetch exactly if a withheld event differs from it. |
| ReactionFlow.RollBack | packages/chat-core/src/reactions.ts:104-109 | A failed request restores the summary from before the tap and asks for a refetch exactly if an event was withheld. |
| ReactionFlow.ApplyReactionsChanged | packages/chat-core/src/reactions.ts:65-75 | An event about a row in flight is withheld, any other is written. |
| ReactionFlow.FinishRefetch | packages/chat-core/src/reactions.ts:121-130 | A refetched snapshot is written only if the version is the one it was asked at and no request is in flight. |
| ReactionFlow.SnapshotOverwritesNothingNewer | packages/chat-core/src/reactions.ts:121-130 | After any traffic, a snapshot still accepted for a live row replaces exactly the summary that was showing when it was asked for. |
| ReactionFlow.WriteVoidsTicket | packages/chat-core/src/reactions.ts:121-130 | Any summary write on the live row while the refetch is out, even one that restores the old counts, makes the snapshot be dropped. |
| ReactionFlow.OptimisticSummaryHolds | packages/chat-core/src/reactions.ts:89-110 | From the tap to its settlement, over any run of merges, deletes, confirms of other rows, withheld events and other rows' reactions, a row that stays loaded and live shows the optimistic summary. |
| Outboxes.Outbox.CollectQueue | packages/chat-core/src/outbox.ts:274-281 | The walk over the ordered entries returns the ready entries that are the first of their room. |
| Outboxes.Outbox.MarkNext | packages/chat-core/src/outbox.ts:225-233 | The first ready head is marked as sending, its snapshot queued and the flush suspended on that write; without one the flush ends. |
| Outboxes.Outbox.ResumeAfterMark | packages/chat-core/src/outbox.ts:232-243 | After the mark is saved the sender is called; a failed save or a dispose ends the flush and leaves the entry as it is. |
| Outboxes.Outbox.ResumeAfterSend | packages/chat-core/src/outbox.ts:244-264 | Delivered entries leave the list; a retryable failure spends an attempt and holds the entry for the timer or fails it at the limit; a refusal fails it; a disposed outbox ignores the answer. |
| Outboxes.Outbox.WriteSettled | packages/chat-core/src/outbox.ts:297-303 | Snapshots reach the cache one at a time in the order they were taken, and only the waiter of that write resumes. |
| Outboxes.Outbox.EnqueueDraft | packages/chat-core/src/outbox.ts:118-134 | A draft is appended as pending under the next order number with its snapshot queued at once; a disposed outbox accepts nothing. |
| Outboxes.Outbox.ResumeEnqueue | packages/chat-core/src/outbox.ts:135-145 | The enqueue resolves if its own write succeeded; otherwise the entry is taken out again. |
| Outboxes.Outbox.RetryEntry | packages/chat-core/src/outbox.ts:161-170 | Only a failed entry goes back to pending, with a full budget. |
| Outboxes.Outbox.RemoveEntry | packages/chat-core/src/outbox.ts:177-180 | The entry leaves the list and the shorter list is queued for writing. |
| Outboxes.Outbox.RemoveRoomEntries | packages/chat-core/src/outbox.ts:191-194 | Every entry of the room leaves the list and the shorter list is queued for writing. |
| Outboxes.Outbox.RetryTimerFired | packages/chat-core/src/outbox.ts:288-294 | One timer releases every held entry and starts a flush. |
| Outboxes.Outbox.RestoreFrom | packages/chat-core/src/outbox.ts:85-95 | Stored rows come before the live ones, rows already here win, interrupted sends come back as pending, and order numbers go on above the highest. |
| OutboxRuns.CrashRestoresDisk | packages/chat-core/src/outbox.ts:85-95 | A new session starts from exactly the last completed snapshot, with every persisted sending row back to pending. |
| OutboxDurability.ResolvedEntriesSurvive | packages/chat-core/src/outbox.ts:118-145 | At every point of every run, with crashes at any await and failed saves, an entry whose enqueue resolved is in the last completed snapshot and comes back after a crash, unless the sender accepted it or it was removed. |
| OutboxOrder.OneCallAtATime | packages/chat-core/src/outbox.ts:220-272 | At most one flush and one sender call are outstanding: until a suspended flush is resumed by its own event or the process dies, no other step replaces it or calls the sender. |
| OutboxOrder.QueueIsReadyHeads | packages/chat-core/src/outbox.ts:274-281 | On a list in enqueue order, the queue offers exactly the ready entries that no earlier entry of their room precedes. |
| OutboxOrder.OnlyHeadsAreSent | packages/chat-core/src/outbox.ts:225-239 | With a local clock that never goes back, an entry being marked or sent is the earliest of its room still queued, over every run with crashes. |
| OutboxOrder.SendsFollowEnqueues | packages/chat-core/src/outbox.ts:220-272 | Over a whole run, crashes included, the sends of one room follow its enqueues, and every resend repeats the draft and its client message id. |
| OutboxOrder.FailedHeadBlocksItsRoomOnly | packages/chat-core/src/outbox.ts:274-281 | A failed or held entry keeps later entries of its room out of the queue, and a ready head of another room stays in it. |
| OutboxClock.QueueIsLeast | packages/chat-core/src/outbox.ts:274-281 | With distinct order numbers, an entry is offered if and only if it is ready and sorts first in its room by time and number; nothing is assumed of the clock. |
| OutboxClock.ReachedQueueIsLeast | packages/chat-core/src/outbox.ts:274-281 | That holds in every state a run reaches, whatever the clock does. |
| OutboxClock.TheFirstIsSent | packages/chat-core/src/outbox.ts:220-272 | Whatever the clock does, at every point of every run the entry being marked or sent sorts first among the entries of its room that had been queued when it was marked. |
| OutboxHealth.EveryEntryIsAccountedFor | packages/chat-core/src/outbox.ts:220-295 | For a limit of at least one and until dispose: a held entry is pending with the retry timer armed; an entry that has not failed has attempts left; and an entry is sending outside the running flush if and only if the save of its mark failed in this session. |
| OutboxBudget.EveryAnswerSpends | packages/chat-core/src/outbox.ts:244-263 | Every answer for an entry still queued strictly lowers the sum of the attempts left, which never goes below zero. |
| OutboxBudget.WorkIsBounded | packages/chat-core/src/outbox.ts:220-295 | From any reachable point, without a new enqueue, a manual retry or a restart, the sender is called at most as often as the remaining budget allows. |
| OutboxStuck.FailedMarkSaveSticks | packages/chat-core/src/outbox.ts:231-233 | A failed save of the sending mark leaves the entry sending with no flush working on it. |
| OutboxStuck.StuckStaysStuck | packages/chat-core/src/outbox.ts:220-281 | Such an entry stays sending and its whole room stays unsent in every run that neither takes it out nor starts a new session. |
| OutboxStuck.OneFailedWriteIsEnough | packages/chat-core/src/outbox.ts:220-233 | Six concrete steps from an empty outbox reach that state. |
| OutboxRest.GivingUpForgetsIff | packages/chat-core/src/outbox.ts:118-183 | For each of the four ways to give a failed write up (mark, result, enqueue, follow-up call), the guards under which the step leaves something forgotten, and only then. |
| OutboxRest.PutRightIff | packages/chat-core/src/outbox.ts:118-214 | Once something is forgotten nothing is left to give up, and a step ends that state if and only if it is one of those that put it right; a retry of an entry that has not failed, or the removal of a room that leaves another ready, does not. |
| OutboxRest.NothingIsForgottenUnless | packages/chat-core/src/outbox.ts:118-183 | In every run, with the follow-up flush of enqueue, retry and remove counted as owed: online, with a sender and not disposed, something ready is without a flush, a timer, or a call that will flush if and only if, at some step, a failed write was given up on while the outbox could send, no timer, owed flush or other call was there, and the queue was not empty; and no later step was a crash, a dispose, an enqueue, a remove, a flush, a connection or sender change, a retry of a failed entry, or the removal of a room with which the queue became empty. |
| OutboxRest.ForgottenStays | packages/chat-core/src/outbox.ts:220-272 | What is forgotten is not sent until something is enqueued, retried, removed or flushed, the connection or sender is set, or the session ends. |
| OutboxRest.RestMeansDoneIff | packages/chat-core/src/outbox.ts:220-272 | Able to send, with nothing under way, due or owed: every room that still lists something is headed by an entry that has failed for good if and only if nothing was forgotten for want of being put right and no head lost the write of its mark this session. |
| OutboxRest.RestMeansDone | packages/chat-core/src/outbox.ts:220-272 | So in a session in which no failed write was given up on, whatever came before the last crash, every entry still listed at rest is behind, or is itself, the first of its room, and that first entry has failed for good. |
| OutboxRest.OneFailedWriteForgets | packages/chat-core/src/outbox.ts:264-270 | From any rest with two rooms waiting, one delivery whose own write fails leaves the other room forgotten. |
| AiSenders.Generate | apps/api/app/Jobs/GenerateAiReply.php:125-215 | One attempt computes the job's buffer and broadcasts, keeps the books balanced, and leaves nothing pending unless the stream broke. |
| AiSenders.Generation.StreamChunks | apps/api/app/Jobs/GenerateAiReply.php:135-202 | The loop over the chunks, with its cancel flag, handles every chunk up to the round that sees the flag. |
| AiSenders.Generation.HandleChunk | apps/api/app/Jobs/GenerateAiReply.php:142-186 | A tool chunk first flushes what is pending and then announces its step at the length of the answer so far; the other chunks only update variables. |
| AiSenders.Generation.Conclude | apps/api/app/Jobs/GenerateAiReply.php:204-248 | The tail is flushed before the answer is announced; a broken stream is announced as failed and its tail stays unsent. |
| AiSenders.RoundsKeepBooks | apps/api/app/Jobs/GenerateAiReply.php:142-201 | After every chunk: content is the joined deltas plus what is pending; the replay buffer is the broadcast deltas, numbered from 0 without a gap and never empty; a tool step carries the length of the text sent before it; fewer than 40 characters are held back. |
| AiSenders.AnswerIsWhatWasSaid | apps/api/app/Jobs/GenerateAiReply.php:135-144 | However the flushes fall, the answer is the provider's text up to the first cancelled chunk. |
| AiSenders.BufferOnlyGrows | apps/api/app/Http/Controllers/Api/V1/AiController.php:908-917 | Whoever reads the replay buffer at any moment reads a prefix of the final one. |
| AiStreams.StreamStore.ApplyEvent | packages/chat-core/src/ai-stream.ts:65-115 | Each event changes only its own stream: deltas apply in index order, repeats and late ones are ignored, a gap raises the resync flag, completed and failed are terminal. |
| AiStreams.StreamStore.SeedFrom | packages/chat-core/src/ai-stream.ts:117-134 | A live row keeps or jumps the cursor, a finished one sets it beyond any index. |
| AiStreams.StreamStore.ResyncFrom | packages/chat-core/src/ai-stream.ts:136-146 | The stream takes the API's cursor and text; a completed or cancelled row's text is its content. |
| AiStreams.StreamsAreIndependent | packages/chat-core/src/ai-stream.ts:43-50 | An input advances the stream it names and leaves every other as it was. |
| AiStreams.StepsKeepArrivalOrder | packages/chat-core/src/ai-stream.ts:73-80 | There is one card per step in order of first arrival, and a caption or emoji once shown never disappears. |
| AiEndToEnd.ClientShowsThePrefix | packages/chat-core/src/ai-stream.ts:81-101 | Whatever was lost, repeated or reordered, a live stream shows exactly the deltas up to its cursor, a prefix of the job's text, and a completed one shows everything the provider said; for runs in which no started event or cursorless seed reopens a finished stream. |
| AiEndToEnd.CompletionShowsEverything | packages/chat-core/src/ai-stream.ts:99-102 | Once a completed event has arrived, at any point of a run, the stream is completed and the whole answer is on screen, and this stays so as long as no live snapshot arrives late. |
| AiEndToEnd.AnswerStaysIff | packages/chat-core/src/ai-stream.ts:115-147 | What one later input does to a shown answer: the text stays if and only if the input is no live snapshot or its text is the answer already; the status stays too if and only if the input is no live snapshot and does not reopen the stream. |
| AiEndToEnd.LateSnapshotCutsTheText | packages/chat-core/src/ai-stream.ts:136-146 | A resync read before the last delta and arriving after the completed event leaves a live stream with a shorter text and no resync asked for. |
| AiEndToEnd.LateSnapshotHappens | apps/web/src/state/ai.ts:66-73 | The run that does it: a gap asks for the row, the completed event comes, and then the answer to the request, read before the end. |
| AiEndToEnd.MissesAreFlagged | packages/chat-core/src/ai-stream.ts:86-92 | In every served run a live stream that asks for no resync has applied every delta ever delivered to it, provided the last live snapshot to arrive was not overtaken by a delta delivered before it. |
| AiEndToEnd.SnapshotCatchesIff | packages/chat-core/src/ai-stream.ts:115-147 | One live snapshot leaves no delivered delta out in silence if and only if its cursor is at least the highest index delivered so far, or it is a seed and the flag was already up. |
| AiEndToEnd.OvertakenResyncHidesIff | packages/chat-core/src/ai-stream.ts:136-146 | So right after a live resync, in any run, a delivered delta is missed in silence if and only if the resync was overtaken. |
| AiEndToEnd.LastDeltaCompletesTheText | packages/chat-core/src/ai-stream.ts:81-97 | If the last delta was delivered, no resync is asked for, and the last live snapshot was not overtaken, the live text is the whole answer. |
| AiEndToEnd.ReopeningBreaksUnless | packages/chat-core/src/ai-stream.ts:67-72 | A started event or cursorless seed on a finished stream is harmless if and only if the cursor lies within the deltas and, for a completed one, at their end. |
| AiEndToEnd.CancelledTextSurvivesOnlyTheEvent | apps/api/app/Domain/Ai/AiBroadcast.php:29 | A cancelled answer keeps its text when the event arrives; a resync from the API leaves it as it was only if it was empty. |
| AiEndToEnd.BroadcastsAreGenuine | apps/api/app/Jobs/GenerateAiReply.php:188-215 | Every event a run of the job broadcasts is one the client theorems admit: numbered deltas of this attempt and one matching end. |
| AiEndToEnd.LiveReadsAreGenuine | apps/api/app/Http/Controllers/Api/V1/AiController.php:908-917 | What the API serves between any two rounds of the job is the joined first deltas and the index of the last of them. |
| AiEndToEnd.ToolStepsLandInPlace | apps/api/app/Jobs/GenerateAiReply.php:163-181 | A tool step's position equals the length of the text on a screen that has applied the deltas sent before it. |
| RoomSummaries.Clip | apps/api/app/Jobs/CompactRoomContext.php:129-137 | The result is a trimmed beginning of the trimmed text, fits the token limit unless empty, and is the whole text if that fits. |
| RoomSummaries.RoomDatabase.ForgetRows | apps/api/app/Models/AiRoomSummary.php:33-36 | The row goes exactly if it covers the line. |
| RoomSummaries.RoomDatabase.RunUpdatedHook | apps/api/app/Models/Message.php:24-29 | The hook of one update runs after it and drops the covering row. |
| RoomSummaries.RoomDatabase.CheckExisting | apps/api/app/Jobs/CompactRoomContext.php:68-75 | The old row is condemned exactly if a line it covers bears a stamp no older than its read time. |
| RoomSummaries.RoomDatabase.ReadTranscript | apps/api/app/Jobs/CompactRoomContext.php:77-96 | The job quotes the undeleted chat lines behind the old summary up to the range's end that were not edited since the bot was sent them; with none it stops. |
| RoomSummaries.RoomDatabase.Recheck | apps/api/app/Jobs/CompactRoomContext.php:111-113 | The answer is dropped if the room is no longer eligible or a covered line bears a stamp no older than the read time. |
| RoomSummaries.RoomDatabase.Store | apps/api/app/Jobs/CompactRoomContext.php:118-125 | The row now covers the old part and the new, under the time the new part was read. |
| RoomSummaries.RoomDatabase.UseSummary | apps/api/app/Domain/Ai/RoomContextBuilder.php:128-149 | A reader gets the summary it found only if no covered line bears a stamp since its read time, and drops the row otherwise. |
| SummaryRuns.StaleIsDetected | apps/api/app/Jobs/CompactRoomContext.php:147-154 | In every interleaving of the job with stamped edits, deletes, hooks and readers, a stored summary that quotes a line which has since changed fails the change check. |
| SummaryRuns.TrustedIsCurrent | apps/api/app/Domain/Ai/RoomContextBuilder.php:137-148 | A summary that passes a reader's check, even one read long before it, quotes only lines that still say what they said. |
| SummaryRuns.NothingStaleIsFolded | apps/api/app/Jobs/CompactRoomContext.php:111-125 | The job passes its last check only if every line quoted by the old summary or newly quoted still says what it said, and new quotes are the versions the bot was sent. |
| SummaryRuns.RowsReachFurther | apps/api/app/Jobs/CompactRoomContext.php:67-75 | While a row survives, a step that replaces it raises up_to_seq, keeps from_seq and loses no quoted line. |
| SummaryRuns.HookForgets | apps/api/app/Models/AiRoomSummary.php:33-36 | Once a hook has run no row covers its line, and only a covering row was dropped. |
| SummaryRuns.StampDecides | apps/api/app/Jobs/CompactRoomContext.php:147-154 | An edit of a quoted line keeps the staleness detectable if and only if its stamp, or an earlier delete's, is no older than the second the row was read in. |
| Sessions.TokenManager.Install | packages/api-client/src/token-manager.ts:28-33 | The access token is replaced, the refresh token only if one came. |
| Sessions.TokenManager.ClearSession | packages/api-client/src/token-manager.ts:35-40 | The epoch moves on and both tokens and the shared refresh are forgotten. |
| Sessions.TokenManager.RefreshSession | packages/api-client/src/token-manager.ts:50-66 | A refresh in flight is joined, otherwise one is started, and the caller gets its promise. |
| Sessions.TokenManager.ResponseArrived | packages/api-client/src/token-manager.ts:68-78 | A response of an older epoch settles to nothing; a refusal in the current one logs out. |
| Sessions.TokenManager.BodyArrived | packages/api-client/src/token-manager.ts:80-83 | A body of an older epoch settles to nothing; otherwise its tokens are installed. |
| Sessions.TokenManager.RunFinally | packages/api-client/src/token-manager.ts:52-54 | The shared promise is released only by its own refresh. |
| Sessions.ApiClient.AnswerArrived | packages/api-client/src/client.ts:50-62 | A value is yielded only in an unchanged epoch; only a first 401 leads to a refresh; a retry's error is passed on. |
| Sessions.ApiClient.RefreshArrived | packages/api-client/src/client.ts:57-66 | After the awaited refresh the request fails with its first error, notices a changed session, or fetches once more. |
| SessionRuns.TokensAreOfThisSession | packages/api-client/src/token-manager.ts:28-40 | In every interleaving in which each login installs its tokens in the session it was begun in, a token in use was brought by a call begun since the last logout; refreshes need no condition. |
| SessionRuns.LoginDecides | packages/api-client/src/token-manager.ts:28-33 | The condition is exact: installing a login's tokens keeps this if and only if no logout came since the login was begun. |
| SessionRuns.StaleRefreshIsInert | packages/api-client/src/token-manager.ts:74-82 | A refresh begun before a logout changes neither tokens nor epoch and yields nothing, however it is answered. |
| SessionRuns.OneRefreshPerSession | packages/api-client/src/token-manager.ts:50-58 | At most one refresh of the current epoch is outstanding. |
| SessionRuns.TwoFetchesAtMost | packages/api-client/src/client.ts:47-67 | A request fetches its path at most twice, and what it waits for is a refresh of its own epoch. |
| SessionRuns.ValuesStayInTheirSession | packages/api-client/src/client.ts:47-67 | If a request yields a value, no logout happened between its start and that moment. |
| SessionRuns.EpochCountsLogouts | packages/api-client/src/token-manager.ts:35-40 | The epoch grows by one with every logout, including a refused refresh of the current epoch, and with nothing else. |
| CacheKeys.ScopeKeysMeetIff | packages/chat-core/src/cache.ts:17-19 | Two scopes share one key if and only if they are the same, or the ids of one are those of the other cut at another colon. |
| CacheKeys.KeysMeetIff | packages/chat-core/src/cache.ts:187-189 | Two scopes have a key in common if and only if one scope with its colon begins the other. |
| CacheKeys.ColonsCollide | packages/chat-core/src/cache.ts:17-19 | With colons it does happen: two scopes of different users share one key. |
| CacheKeys.ColonFreeUsersTell | packages/chat-core/src/cache.ts:17-19 | User ids without colons are enough for different scopes to have different keys. |
| CacheKeys.NestedScopes | packages/chat-core/src/cache.ts:17-19 | Different keys are not enough: one scope can lie inside another. |
| CacheKeys.ColonFreeScopesAreApart | packages/chat-core/src/cache.ts:17-19 | User and workspace ids without colons put different scopes apart. |
| CacheKeys.RowKeysMeetIff | packages/chat-core/src/dexie-cache.ts:115-119 | Message rows of two rooms can share a primary key if and only if one room's key goes on from the other's with a colon, a number and a colon. |
| Caches.MemoryCacheAdapter.Wipe | packages/chat-core/src/cache.ts:179-185 | The key loop deletes exactly the scope's version key and the keys under its prefix. |
| Caches.MemoryCacheAdapter.Check | packages/chat-core/src/cache.ts:85-97 | An unstamped scope is stamped, an outdated one wiped and restamped, and only the latter reports false. |
| Caches.MemoryCacheAdapter.LoadMessages | packages/chat-core/src/cache.ts:147-152 | A load returns the stored list, or nothing if the schema check wiped the scope. |
| Caches.MemoryCacheAdapter.PurgeRoom | packages/chat-core/src/cache.ts:154-165 | A room's messages, its list row and its queued entries go together. |
| Caches.DexieCacheAdapter.Wipe | packages/chat-core/src/dexie-cache.ts:175-182 | The scope's room list, message rows, outbox rows and version stamp are deleted. |
| Caches.DexieCacheAdapter.StoreMessages | packages/chat-core/src/dexie-cache.ts:113-121 | The room's rows are replaced by one row for each of the newest messages. |
| Caches.DexieCacheAdapter.LoadMessages | packages/chat-core/src/dexie-cache.ts:123-132 | The room's rows come back in seq order, or nothing if there are none or the schema check wiped the scope. |
| Caches.DexieCacheAdapter.StoreOutbox | packages/chat-core/src/dexie-cache.ts:155-162 | The scope's outbox rows are replaced by one row per entry. |
| Caches.DexieCacheAdapter.PurgeRoom | packages/chat-core/src/dexie-cache.ts:138-153 | The room's message rows, its list row and this scope's outbox rows for it are deleted. |
| CacheRefinement.TablesRefineTheMap | packages/chat-core/src/dexie-cache.ts:101-194 | After any calls by adapters of any scopes, versions and limits, on scopes that are apart and rooms whose row keys cannot meet, with distinct ids and seqs, both stores load the same, up to empty against null and the outbox's order. |
| CacheRefinement.ColonFreeIdsAreSeparate | packages/chat-core/src/cache.ts:17-19 | Ids without colons meet these conditions. |
| CacheIsolation.IsolationIff | packages/chat-core/src/cache.ts:129-189 | No call in one scope ever touches a key under another, in any map and for any call, if and only if the two scopes are apart. |
| CacheIsolation.TableIsolationIff | packages/chat-core/src/dexie-cache.ts:101-194 | For the tables the same: after any calls, no call in one scope changes what another scope sees if and only if the two are apart. |
| CacheIsolation.WipeReachesInside | packages/chat-core/src/dexie-cache.ts:175-182 | Clearing a scope deletes the message rows of every scope that lies inside it, in both stores. |
| CacheIsolation.ScopesAreIsolated | packages/chat-core/src/dexie-cache.ts:101-194 | After any calls at all, no call in one scope, of any kind, version and limit, changes what any load of a scope apart from it returns, in either store. |
| CacheRefinement.MismatchWipes | packages/chat-core/src/cache.ts:85-97 | A load under another schema version returns nothing, now and on the next load. |
| CacheRefinement.LoadReturnsTheNewest | packages/chat-core/src/dexie-cache.ts:113-132 | A load right after a save returns the newest messages of that save in seq order and nothing else. |
| CacheRefinement.NewestIsTheTop | packages/chat-core/src/dexie-cache.ts:116 | For a limit of at least one the kept messages are that many (or all), sorted, and every dropped one is older than every kept one. |
| CacheRefinement.LimitZeroKeepsAll | packages/chat-core/src/dexie-cache.ts:116 | A limit of zero keeps everything. |
| PrivacyLocks.PrivacyLock.EnablePrivacy | packages/chat-core/src/privacy-lock.ts:33-42 | Switching off opens and ends an exemption; switching on during a session locks as asked, and always while hidden. |
| PrivacyLocks.PrivacyLock.ChangeSession | packages/chat-core/src/privacy-lock.ts:44-48 | Ending the session logs out; a new one starts locked if the mode is on. |
| PrivacyLocks.PrivacyLock.HidePage | packages/chat-core/src/privacy-lock.ts:50-53 | Hiding locks an enabled session unless an exemption is running. |
| PrivacyLocks.PrivacyLock.ShowPage | packages/chat-core/src/privacy-lock.ts:55-60 | A return locks an enabled session unless an exemption is running, and uses the exemption up. |
| PrivacyLocks.PrivacyLock.SuspendLock | packages/chat-core/src/privacy-lock.ts:67-73 | An exemption needs a gesture, an open screen and finite times, lasts at most a minute, and is never extended. |
| PrivacyLocks.PrivacyLock.ExpireSuspension | packages/chat-core/src/privacy-lock.ts:75-80 | A lapsed exemption is cleared and locks a hidden enabled session. |
| PrivacyLocks.PrivacyLock.UnlockPage | packages/chat-core/src/privacy-lock.ts:89-94 | Only a visible page of a session unlocks. |
| PrivacyLocks.LockedUntilOpened | packages/chat-core/src/privacy-lock.ts:33-102 | Over any run a locked screen stays locked unless a visible unlock, switching the mode off or a logout occurs. |
| PrivacyLocks.AwayAndBackIsLocked | packages/chat-core/src/privacy-lock.ts:50-65 | Whatever happens while the page is away, except a logout, it comes back locked if the mode is on in a session and no exemption is running. |
| PrivacyLocks.ReturnLocksIff | packages/chat-core/src/privacy-lock.ts:55-60 | In general a return leaves an enabled session locked if and only if it was locked, or the page counted as hidden with no exemption running. |
| PrivacyLocks.LogoutWhileHiddenReturnsOpen | packages/chat-core/src/privacy-lock.ts:96-102 | The logout exception is real: hide, log out, log in, enable without locking, show ends open. |
| PrivacyLocks.HiddenIsCovered | packages/chat-core/src/privacy-lock.ts:30 | While hidden an enabled session is covered, exempt or not, until the page is shown. |
| PrivacyLocks.SuspendNeverExtends | packages/chat-core/src/privacy-lock.ts:70-71 | A repeated request never moves the end of a running exemption back. |
| PrivacyLocks.ExemptionsLastAMinute | packages/chat-core/src/privacy-lock.ts:67-73 | At no moment of any run, with a clock that starts at zero, is an exemption running a minute or more after its first grant. |
| PrivacyLocks.OneReturnPerExemption | packages/chat-core/src/privacy-lock.ts:58-60 | After one return, the next trip away locks unless a new exemption was granted. |
| PrivacyLocks.GrantNeedsAnOpenScreen | packages/chat-core/src/privacy-lock.ts:67-68 | An exemption only starts by a gesture on a visible, unlocked screen. |
| AvatarCrops.ClampedCropIsInside | packages/chat-core/src/avatar.ts:136-143 | After the clamp the source square is the shorter edge over the zoom, lies inside the bitmap, and the last clamps change nothing. |
| AvatarCrops.ClampIsIdempotent | packages/chat-core/src/avatar.ts:111-118 | Clamping twice is clamping once. |
| AvatarCrops.ZoomInIsUnclamped | packages/chat-core/src/avatar.ts:125-129 | Zooming in from a clamped crop never meets the pan clamp. |
| AvatarCrops.ZoomInIsNested | packages/chat-core/src/avatar.ts:124-143 | Zooming in keeps the source centre and nests the new square in the old one. |
| AvatarCrops.PanSlidesTheSquare | packages/chat-core/src/avatar.ts:120-122 | A drag moves the source square against itself at the image's scale and stops it at the bitmap's border. |
| DeviceIds.GenerateDeviceId | packages/chat-core/src/device-id.ts:53-61 | The id is the ten base-32 digits of the time and sixteen random digits; for times that fit ten digits it matches the pattern if and only if the time is below two to the 48. |
| DeviceIds.Stamp | packages/chat-core/src/device-id.ts:54-59 | The digit loop computes the base-32 numeral of the time. |
| DeviceIds.RandomChars | packages/chat-core/src/device-id.ts:30-43 | Each random character is the alphabet's entry for its byte modulo 32, or for its draw times 32. |
| DeviceIds.DecodeEncode | packages/chat-core/src/device-id.ts:54-59 | A base-32 decoder recovers every timestamp that fits. |
| DeviceIds.StampsSortByTime | packages/chat-core/src/device-id.ts:54-59 | Lexicographic order of the stamps is numeric order of the timestamps. |
| DeviceIds.StampMatches | packages/chat-core/src/device-id.ts:24 | An id with a stamp and digits behind it matches the pattern if and only if the timestamp fits in 48 bits. |
| DeviceIds.ModuloIsUniform | packages/chat-core/src/device-id.ts:35-36 | Each digit comes from exactly eight of the 256 bytes. |

## Left out

- OutboxOrder.OnlyHeadsAreSent: assumes a local clock that never goes back between two enqueues, because the queue is ordered by local time first; `OutboxClock.TheFirstIsSent` is what holds without it.
- OutboxOrder.SendsFollowEnqueues: the same assumption about the clock.
- StoreRows.VersionIdentifiesSummary: a tombstone may have lost its summary in between, because the code does that.
- AiEndToEnd.ClientShowsThePrefix: only for runs in which nothing reopens a finished stream without a cursor, because it fails otherwise.
- AiEndToEnd.CompletionShowsEverything: only until a live snapshot arrives late, because it fails otherwise.
- AiEndToEnd.MissesAreFlagged: only if the last live snapshot was not overtaken, because it fails otherwise.
- SummaryRuns.StaleIsDetected: only for writes stamped with the second they happen in, because it fails otherwise.
- CacheRefinement.TablesRefineTheMap: only for scopes and rooms whose keys cannot meet, and rows with distinct ids and seqs, because rows overwrite each other otherwise.
- SessionRuns.TokensAreOfThisSession: only for logins that no logout overtakes, because it fails otherwise.
- RoomSyncs.RoomSync.Run: optimistic copies that the log does not have, and replacing pages without what is covered so far, are excluded during the catch-up; with rows below the head nothing is said of gaps.
- The follow-up `flush()` calls of `enqueue`, `retry` and `remove` are separate `Flushed` steps that may come at any time (`OutboxRest` counts those still owed), and the listeners' callbacks and `onDelivered` are not modelled.
- The delay of the outbox's retry timer (its exponential backoff) is not modelled: the timer may fire at any time once armed.
- `RoomSync.refresh`'s single-flight wrapper, `ReadReceiptReporter` and the routing of `applyRoomEvent`: wiring around the store methods modelled here.
- Message fields that no rule reads are kept in one field; object identity is replaced by equality of ids.
- A second attempt of the generation job, which restarts indices over the old buffer, and the bookkeeping after the answer is saved; provider calls, prompts and token estimates are inputs.
- The summary's text is opaque: a row carries the set of line versions it was made from. Room-bot bodies that grow without a stamp are outside.
- `AiCacheAdapter`'s twin tables and the other adapters' load of the room list repeat what is modelled for messages and the outbox.
- Non-finite numbers and empty images or viewports in the avatar crop, `cropOutputSize` and the file checks; lone surrogates in emoji strings; negative timestamps in device ids.
- The headers, envelope and error types of `doRequest`: a response is a value, a 401 or another error.
- The privacy mirror's storage, and the browser events that call the lock.
- User interface, routing, push, calls, meetings, boards and text formatting: no protocol of this kind.
