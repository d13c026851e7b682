# Verified model of hax

hax is a chat application: a model answers in a conversation, with tools and
with the member's own documents. This project models the parts of it where
several actors share state, or where one side's output is another side's input,
and proves in Dafny what each part promises:

* **The turn claim.** A reply runs as a task that holds a timestamp lease on its
  conversation (`streaming_since`): taken by a conditional UPDATE, moved forward
  by a heartbeat, open to takeover after two minutes, released in the transaction
  that stores the reply. `Conversations`, `History`, `ReplyRuns`, `LeaseTiming`,
  `OutcomePoll`, `Turns` and `Registry`; `Listing` is the order in which the messages are read
  back.
* **The reply's way to the page.** The tool loop emits text, retracts and
  sources; the server folds them into what it stores, frames them as server-sent
  events, and the page parses them back from whatever pieces the network makes.
  `Events`, `Folds`, `Harness`, `Json`, `Sse`, `Wire` and `Pipeline`; `TurnRuns` joins this
  to the turn claim, from the database's row to the page.
* **Document ingestion.** Attempts, redeliveries, deadlines, failure writes and
  deletes race statement by statement on one row. `Documents` and `IngestRuns`; `IngestOutcomes` is what
  one attempt comes to, and `IngestTasks` follows a task through its retries.
* **Shared Redis state.** The session-revocation cache and the fixed-window
  limiter, each a client of several commands that interleave with others.
  `Revocation` and `RateLimit`.
* **Accounts.** Sign-up, verification, password reset and provider sign-in over
  users, emailed links and linked identities. `Accounts` and `AccountStores`; `AccountAnswers` is what
  each request answers.
* **Pure cores.** The bounded calculator (`Calculator`), and a rendered table's
  parse, its sort order and its CSV and TSV exports (`DataTables`, `TableSort`, `Exports`).

`Wrappers`, `Decimals` and `JsText` are shared helpers.

## How the models are built

A protocol is a world, a `Step` datatype and a total function `Next`; a step that
is not possible leaves the world alone. `Exec(Start(...), steps)` for an arbitrary
sequence of steps is then an arbitrary run, and a lemma over all `steps` is a claim
about every interleaving. One step is one transaction, or one statement or one Redis
command where that is the grain at which others can come between. Time is a
parameter of each step and never goes back, but two steps may carry the same time.

Code that changes state in place is a class (`ConversationStore`, `Turn`,
`TurnRegistry`, `PageReply`, `DocumentStore`, `AccountStore`, `Cache`, `Bucket`) whose
methods are proved equal to the functions the worlds are made of, or, for `Cache`, to
the world's steps with nobody in between; loops of the source are loops with invariants.

Some fields exist only to state properties: `Turn.base` and `World.holder` in
`ReplyRuns`, `World.winner` and `history` in `IngestRuns` and its attempts' `task`,
`previous` and `waited`, `floor` and `published` in `Revocation`, `Hit.life` and `begun` in
`RateLimit`, `User.writes`, `Token.writes` and `World.spent` in `Accounts`. No step decides anything by them.

## What was found

* **How long a refresh may take.** With refreshes of at most `d` seconds of which at most `k`
  fail in a row, `(k+1)*(HEARTBEAT_SECONDS+d) <= TURN_WINDOW` is not enough: an attempt's commit
  may come at its start and its answer `d` later, and the turn's own start may lag its claim by
  `d`. A running turn always keeps its claim, and is never overtaken, exactly when
  `(k+1)*(HEARTBEAT_SECONDS+d)+d <= TURN_WINDOW` and no attempt that fails has committed
  (`LeaseTiming.SlackIsExact`). Both halves are needed: `LateClaimTakesOver` is a run that breaks
  the first two minutes and a microsecond after the claim, and `UnheardCommitLosesTheClaim` one in
  which a single refresh, committed but unheard, loses the claim of a turn that runs on.
* **A lost refresh answer.** A refresh that commits later than its turn's token and whose answer is
  lost leaves the token behind the row. Nothing unsafe follows, but the turn's reply is gone: whatever
  comes after, it never stores and can only say "failed" (`ReplyRuns.LostAnswerNeverStores`). Without
  such a loss a save stores exactly when its turn has not been overtaken
  (`ReplyRuns.SaveStoresExactlyTheHolders`).
* **Read order.** A message's `created_at` is the start of its transaction, so messages are sure to be
  read in the order of their commits exactly when their transactions began in that order
  (`Listing.ReadInCommitOrderExactlyWhen`). A send that began before the save of a reply and claimed
  after its commit is listed, always, before that reply, and the history then handed to the model ends
  in the reply and not in the question (`Listing.EarlySendIsReadFirst`).
* **A stray separator.** The stored reply is the last call's text, unless an earlier
  tool call streamed pieces that were all empty: the next call then starts with the
  separator and nothing withdraws it. `Harness.StraySeparatorExactlyWhen` gives the
  condition both ways.
* **Free without the reply.** A turn that stores its reply can show as free without it: a retry
  may withdraw the reply and give up, before a re-read or between its two statements
  (`OutcomePoll.FreeWithoutTheReply`). That is the only way: a free re-read holds the reply exactly
  unless a retry withdrew it since it was stored (`OutcomePoll.FreeShowsTheReply`).
* **A publish that raised.** `upload_document` then writes 'failed' whatever the row says.
  That write keeps every promise about documents exactly when the row is gone or still
  in flight (`IngestRuns.PublishWriteIsSafeExactlyInFlight`). After a delivery that got
  through anyway it leaves a failed document with chunks (`IngestRuns.PublishWriteAfterReady`);
  after a deadline that had already failed the row it replaces the first error
  (`IngestRuns.PublishWriteAfterDeadline`).
* **Instant revocation.** It needs publications one at a time and fills that land strictly
  within the time to live of their read; `Revocation.OvertakenPublication` and
  `Revocation.LateFill` are runs that break it otherwise. With any failures of Redis at all,
  a cutoff is obeyed one time to live later (`Revocation.RevokedWithinTheTtl`). Cutoffs and sessions
  are compared in whole seconds: a session opened earlier in the cutoff's own second outlives it
  (`Revocation.SameSecondSurvives`).
* **Exports.** Read with a line feed between records, both exports give their cells back for every
  table in which each row has a cell, and only for those (`Exports.ExportReadsBack`). Section 2 of
  RFC 4180 also lets the last record end in a line break. A reader that does so gives the cells
  back unless the last row is one blank cell under another row, which it loses
  (`Exports.FileReadsBack`).

## Model

| member | source | states |
|---|---|---|
| Conversations.ConversationStore.ClaimTurn | packages/db/repos/conversations.py:199-224 | the claim is taken exactly when the caller owns the row and no claim younger than the window is there; otherwise nothing changes |
| Conversations.ConversationStore.ReleaseTurn | packages/db/repos/conversations.py:227-244 | clears the claim exactly when it is still the caller's token |
| Conversations.ConversationStore.RefreshTurn | packages/db/repos/conversations.py:247-264 | moves the claim to now exactly when it is still the caller's token, and answers the new one |
| Conversations.ConversationStore.LastMessages | packages/db/repos/conversations.py:117-127 | the newest messages, newest first, at most `n` |
| Conversations.ConversationStore.DeleteMessage | packages/db/repos/conversations.py:130-132 | every other message stays, in order |
| Conversations.ConversationStore.PersistUserTurnNow | apps/api/chat_service.py:74-128 | claim and question together, or the refusal with the row as it was |
| Conversations.SendExactly | apps/api/chat_service.py:74-128 | for every row: a send goes through exactly for its owner, with no claim younger than two minutes and an unused id, and then takes the claim and adds its question to the log; which refusal every other send gets |
| Conversations.ConversationStore.ClaimForRetryNow | apps/api/chat_service.py:131-166 | claim, and the withdrawal of a last reply directly after `after` when replacing; each refusal changes nothing |
| Conversations.RetryExactly | apps/api/chat_service.py:131-166 | for every row: a retry goes through exactly for its owner, with no claim younger than two minutes, when its question is the last, with no reply or one to be replaced, and leaves the log up to the question; which refusal every other retry gets |
| Conversations.ConversationStore.PersistAssistantTurnNow | apps/api/chat_service.py:192-233 | release and reply together under the caller's token, or nothing |
| Conversations.ConversationStore.Replying | packages/db/repos/conversations.py:62-64 | a conversation shows as replying exactly while a claim younger than the window stands |
| Conversations.ConversationStore.DeleteOwned | packages/db/repos/conversations.py:85-93 | only the owner's delete removes the conversation |
| History.LoadHistory | apps/api/chat_service.py:169-189 | the loop builds the merged history of the rows it reads |
| History.ReplayIsTheMaximalRuns | apps/api/chat_service.py:169-189 | the history has one entry for each maximal run of one role, holding every stored text of the run: nothing is dropped |
| History.ReplayAlternates | apps/api/chat_service.py:169-189 | a well-shaped log that ends with a question replays as strictly alternating turns, the user first and last |
| ReplyRuns.EveryRunKeepsInv | apps/api/chat_service.py:59-241 | in every run: log shape, distinct ids, the claim's log frozen while its holder lives, and every other live turn's token behind the claim |
| ReplyRuns.ClaimFreezesTheLog | packages/db/repos/conversations.py:199-264 | while the row carries a live turn's token the messages are exactly those its claim transaction left and its model call read, and they replay alternating |
| ReplyRuns.StoredReplyExtendsWhatWasRead | apps/api/chat_service.py:192-233 | a stored reply directly extends the log its model call read and frees the conversation in the same step |
| ReplyRuns.LogChangesOnlyWhere | apps/api/chat_service.py:74-233 | a log changes only by a send's question, a retry's withdrawal of a last reply, or a stored reply |
| ReplyRuns.SendLeavesItsQuestion | apps/api/chat_service.py:74-128 | in every world: a send not rolled back leaves the log with its question added and, if answered, a turn that starts from exactly that log; a refused one leaves row and turns |
| ReplyRuns.RetryLeavesItsQuestion | apps/api/chat_service.py:131-166 | in every run: a retry not rolled back leaves the log up to its question and, if answered, a turn that starts from it; a refused one leaves row and turns |
| ReplyRuns.GivingUpFreesTheConversation | apps/api/chat_service.py:236-241 | a turn that ends without a reply frees the conversation it still holds and leaves every message |
| ReplyRuns.OnlyItsOwnerDeletes | packages/db/repos/conversations.py:85-93 | a conversation goes exactly by a delete of its owner, never comes back, and never changes owner |
| ReplyRuns.OvertakenTurnNeverStores | packages/db/repos/conversations.py:199-244 | once another claim reached the row, no earlier turn ever stores or says done, whatever follows |
| ReplyRuns.DoneMeansStored | apps/api/turns.py:196-242 | "done" always means stored; if no save's answer is lost, stored means "done" too |
| ReplyRuns.EveryLogIsWellShaped | apps/api/chat_service.py:131-189 | every reachable log, in the order of commits, starts with the user and has no two adjacent replies and no repeated id |
| ReplyRuns.LostAnswerNeverStores | apps/api/turns.py:253-274 | a refresh committed later than its turn's token, with its answer lost, costs the turn its reply: whatever follows, it neither stores nor says done |
| ReplyRuns.TokenIsCurrent | apps/api/turns.py:265-274 | the holder's local token is the row's claim unless a refresh's answer was lost |
| ReplyRuns.SaveStoresExactlyTheHolders | apps/api/turns.py:196-242 | with no refresh answer lost, a committed save stores exactly when its turn still holds the claim |
| ReplyRuns.MessagesStay | apps/api/chat_service.py:131-166 | short of deleting the conversation a user's message never leaves, and a reply leaves only by a retry that withdraws it |
| Listing.ReadInCommitOrderExactlyWhen | packages/db/repos/conversations.py:145-159 | every order the database may give is that of the commits exactly when the messages' transactions began in it |
| Listing.ReadHistoryAlternates | apps/api/chat_service.py:169-189 | then a well-shaped log that waits for an answer is read, and replayed, as alternating turns with the user first and last |
| Listing.EarlySendIsReadFirst | packages/db/models/message.py:53-55 | a question whose transaction began before that of the reply committed ahead of it is always listed before that reply, and the history ends in the reply |
| LeaseTiming.TurnKeepsItsClaim | apps/api/turns.py:244-274 | with refreshes of at most `d`, at most `k` failing in a row, inside the slack, and no failed attempt committed: no other claim succeeds, the log stays, and any save would be stored and say done |
| LeaseTiming.LateClaimTakesOver | packages/db/repos/conversations.py:212-224 | whenever the slack exceeds the window, a run in which another send takes the running turn's claim a microsecond after the window |
| LeaseTiming.UnheardCommitLosesTheClaim | apps/api/turns.py:253-274 | one refresh that commits and fails for want of its answer is enough: the next refresh is refused, the turn runs on, and another send takes its claim |
| LeaseTiming.SlackIsExact | apps/api/turns.py:244-274 | a running turn always keeps its claim, and is never overtaken, exactly when `(k+1)*(HEARTBEAT_SECONDS+d)+d <= TURN_WINDOW` and no attempt that fails has committed |
| LeaseTiming.AbandonedClaimLapses | packages/db/repos/conversations.py:212-224 | a claim nobody refreshes blocks the owner's next message up to the end of its window and never after |
| OutcomePoll.PollForOutcome | apps/web/hooks/useChat.ts:349-376 | rules at the first free read with the message or the second free miss in a row, and at no earlier read |
| OutcomePoll.NotSentIsHonest | apps/web/hooks/useChat.ts:349-376 | "not sent" is never said of a message that was stored before the deciding read, whatever the other reads came to |
| OutcomePoll.FreeShowsTheReply | packages/db/repos/conversations.py:51-73 | a free re-read of a turn that stored its reply without lapsing holds it exactly unless a retry withdrew it since |
| OutcomePoll.FreeWithoutTheReply | packages/db/repos/conversations.py:51-73 | a run whose stored reply a retry withdraws: free re-reads without it, one across the withdrawal and one after it |
| Turns.TurnEnd | apps/api/turns.py:108-242 | the listener reads every event then one marker; a save carries the fold of all events, is never blank and uses the last token; "done" exactly when the save released the claim |
| Turns.SavedExactlyWhenKept | apps/api/turns.py:108-165 | for every sequence of inputs: a reply is saved exactly when the task was started before any Stop, its stream ended by itself or by a Stop that no failure followed, nothing cancelled it before it woke, and some character streamed is no space |
| Turns.SavedIsWhatStreamed | apps/api/turns.py:118-134 | the reply a woken task holds, whatever comes later, is the fold of exactly the events between its start and its stream's end |
| Turns.WokenTaskFinishes | apps/api/turns.py:196-242 | every woken task comes to its end: one that keeps its reply saves it, and also releases when the save raised; any other releases and saves nothing; the marker is last |
| Turns.CancelStoresNothing | apps/api/turns.py:150-165 | a drain or the deadline before the wake-up wins over a Stop and a natural end: nothing stored, one release |
| Turns.StopFreezesTheReply | apps/api/turns.py:90-97 | nothing is emitted after a Stop, and a Stop before the stream keeps nothing |
| Turns.Turn.SetDefault | apps/api/turns.py:132-133 | the first source of a key stays |
| Turns.Turn.Consume | apps/api/turns.py:122-134 | one pass of the loop folds one event into buffer and sources and hands it to the listener |
| Turns.Turn.StopReply | apps/api/turns.py:90-97 | a Stop ends only the stream, and is a no-op once the stream has finished |
| Turns.Turn.WakeUp | apps/api/turns.py:138-165 | what is kept is decided once: text that is not blank, after a natural end or an uncancelled Stop (`SavedExactlyWhenKept` says it of the inputs) |
| Turns.Turn.Finish | apps/api/turns.py:196-242 | save or release with the latest token, a second release after a save that raised, then the marker |
| Registry.StopReachesTheNewest | apps/api/turns.py:277-306 | a Stop reaches the last turn its conversation started while that runs, and no other turn |
| Registry.TurnRegistry.StartTurn | apps/api/turns.py:277-297 | the new turn is registered as its conversation's newest |
| Registry.TurnRegistry.TaskDone | apps/api/turns.py:288-297 | an entry is removed only by the turn it points to |
| Registry.TurnRegistry.StopTurn | apps/api/turns.py:300-306 | the newest running turn of that conversation, or none when there is none |
| Registry.TurnRegistry.DrainTurns | apps/api/turns.py:309-319 | every turn that did not end in time is cancelled and none is left |
| Folds.FoldKeepsFirstSources | apps/api/turns.py:118-134 | of everything a reply's searches brought, the first source of each key is stored, in order |
| Folds.PageKeyIsInjective | apps/web/hooks/useChat.ts:426-431 | the page's string key, like the server's pair, tells two sources apart exactly by document and chunk index |
| Folds.RetractExactly | apps/api/turns.py:126-131 | a retract takes back exactly the end it names, and nothing when the text does not end so |
| Folds.PageReply.OnRetract | apps/web/hooks/useChat.ts:421-425 | a retract removes exactly the end it names, or nothing |
| Folds.PageReply.OnSources | apps/web/hooks/useChat.ts:426-431 | a batch is merged as the server merges it |
| Folds.PageReply.ReceiveAll | apps/web/hooks/useChat.ts:413-432 | for every sequence of events the page shows exactly what the server's fold stores |
| Harness.StreamCompletion | packages/core/agent/harness.py:136-265 | the bounded loop emits what the calls say and makes one call more than the tool calls before the answer, at most six |
| Harness.CallModel | packages/core/agent/harness.py:163-191 | one call streams its deltas, a separator first when earlier text stands |
| Harness.WithdrawAndRunTools | packages/core/agent/harness.py:193-258 | a call that wants tools takes back exactly its own text before their notes and sources |
| Harness.AnswerSurvivesFrom | packages/core/agent/harness.py:193-265 | from any call on, every retract matches the end of the folded text and only the answering call's pieces remain |
| Harness.OnlyTheAnswerSurvives | packages/core/agent/harness.py:136-265 | folding all events leaves the last call's text, when no earlier call streamed only empty pieces |
| Harness.StraySeparatorExactlyWhen | packages/core/agent/harness.py:163-191 | the fold differs from the last call's text exactly when that call streams pieces after a tool call of empty pieces only |
| Harness.EveryToolIsShown | packages/core/agent/harness.py:193-265 | the notes of every tool before the answer are shown, in order, then the limit's when the model never answered; of everything those tools found the first source of each key is stored, in order |
| Json.ValueReadsBack | apps/api/chat_service.py:53-56 | every printed value, before anything that cannot continue it, reads back as itself |
| Json.PrintedParses | apps/api/chat_service.py:53-56 | what the server prints the page parses to the same value |
| Json.PrintIsPlain | apps/api/chat_service.py:53-56 | a printed value holds no raw line break or control character, so it cannot end a frame |
| Json.NoValueInsideAnother | apps/web/lib/chatApi.ts:302-347 | no proper prefix of a printed object is itself a value |
| Sse.HandleEvents | apps/web/lib/chatApi.ts:481-494 | the loop over whole blocks delivers their events in order and stops at the end frame |
| Sse.ReadReplyStream | apps/web/lib/chatApi.ts:453-495 | for every split of the text, the same events and outcome as reading the whole text once |
| Sse.SplitAppend | apps/web/lib/chatApi.ts:478-479 | later text changes only the last piece of a split |
| Sse.FinishedEarly | apps/web/lib/chatApi.ts:481-485 | a reply that ended in the chunks read so far ends the same whatever follows |
| Wire.EventStream | apps/api/chat_service.py:244-283 | the prelude, a frame for each item up to the marker, which is the last frame, and keepalives that stand for nothing |
| Wire.SplitWire | apps/api/chat_service.py:53-56 | splitting the wire at blank lines gives back exactly the frames |
| Wire.BlockParses | apps/web/lib/chatApi.ts:302-347 | each frame parses to its own event |
| Wire.KeepAlivesAreSilent | apps/web/lib/chatApi.ts:302-347 | keepalive comments change nothing of what is seen |
| Wire.WholeReplyArrives | apps/web/lib/chatApi.ts:453-495 | a whole reply delivers every event and its own end |
| Wire.CutReplyIsLost | apps/web/lib/chatApi.ts:453-495 | a reply cut anywhere before its end delivers a prefix and is a lost connection, or the failure once the error frame's line is whole; never success |
| Pipeline.EventsArrive | apps/web/lib/chatApi.ts:290-347 | framing, parsing and folding the events on the page equals folding them on the server |
| Pipeline.FramesEnd | apps/api/chat_service.py:244-283 | a finished turn's frames are the prelude, its events and its marker, wherever keepalives fall |
| Pipeline.StreamTurn | apps/api/chat_service.py:244-283 | listening to a finished turn, whatever waits time out, sends exactly its frames |
| Pipeline.PageShowsWhatIsStored | apps/web/lib/chatApi.ts:413-499 | for every run of a turn and every split, the page's fold is the turn's reply, and it reads success exactly when the save stored that reply |
| Pipeline.SavedReplyIsTheAnswer | apps/api/turns.py:196-242 | what a turn over the tool loop saves is the last call's text and, of everything the tools of the earlier calls found, the first source of each key |
| TurnRuns.EveryRunKeepsJoint | apps/api/turns.py:108-274 | in every run of everything else, a task and its turn in the database agree on token and phase |
| TurnRuns.SaveStoresExactly | apps/api/turns.py:216-242 | a save stores the task's reply, after the log its model call read, exactly when the row still carries its token and it is not rolled back |
| TurnRuns.StoredExactlyWhen | apps/api/turns.py:196-242 | the turn has stored exactly when some save of the run did, always the task's own reply: the save was answered "released" exactly when that save's answer came, and else its answer was lost |
| TurnRuns.PageReadsSuccessExactlyWhenStored | apps/web/lib/chatApi.ts:413-499 | in every run and for every split of the bytes, the page reads success exactly when an answered save appended the very reply it shows to the log |
| Documents.FullSetIsWhole | packages/core/rag/ingest.py:126-136 | a full set has one chunk for each text, numbered from zero, each with its own embedding |
| Documents.NumberChunks | packages/core/rag/ingest.py:126-136 | zipping and numbering builds exactly the full set |
| Documents.DocumentStore.Claim | packages/core/rag/ingest.py:65-71 | 'processing' is claimed exactly over a row in flight |
| Documents.DocumentStore.MarkDocumentFailed | packages/core/rag/ingest.py:145-162 | 'failed' with at most a thousand characters, only over a row in flight |
| Documents.DocumentStore.FailStale | packages/db/repos/documents.py:69-105 | 'failed' exactly on a row stuck past its status's own cutoff |
| Documents.DocumentStore.DeleteOwned | packages/db/repos/documents.py:56-66 | the row goes and its chunks with it |
| Documents.DocumentStore.StoreChunks | packages/core/rag/ingest.py:102-142 | 'ready' and the whole new set together, or the old chunks untouched |
| Documents.DocumentStore.Ingest | packages/core/rag/ingest.py:34-142 | one attempt alone: each way it returns or raises, with which message, and the row and chunks it leaves |
| IngestRuns.EveryRunKeepsInv | packages/core/rag/ingest.py:34-162 | in every interleaving of statements: history shape, whole chunk sets, one lock holder, and what each attempt's phase implies of the row |
| IngestRuns.ReadyMeansWhole | packages/core/rag/ingest.py:102-142 | chunks are there exactly while the row is 'ready', and are then everything one attempt read of the document: every text once, numbered from zero, with its own embedding |
| IngestRuns.FirstTerminalWriteWins | packages/core/rag/ingest.py:145-162 | after the first 'ready' or 'failed' the status, the error and the history never change, until the row is deleted |
| IngestRuns.RowIsTheLastWrite | packages/core/rag/ingest.py:65-162 | the history is pending, processing any number of times, then at most one terminal write, which the row shows |
| IngestRuns.FinishedMeansTerminal | apps/worker/tasks.py:95-167 | an attempt whose call returned, or whose failure was written, leaves a terminal or deleted row |
| IngestRuns.PublishWriteIsSafeExactlyInFlight | apps/api/routers/documents.py:182-194 | the unconditional write keeps the invariant exactly when the row is gone or in flight |
| IngestRuns.PublishWriteAfterReady | apps/api/routers/documents.py:182-194 | a run to 'ready' after which the write leaves a failed document that has chunks |
| IngestRuns.PublishWriteAfterDeadline | apps/api/routers/documents.py:182-194 | after a deadline has failed the row, the write replaces its error |
| IngestOutcomes.AttemptAlone | packages/core/rag/ingest.py:34-142 | from any world, an attempt with nobody beside it: each way it returns or raises, with which message, and the row and chunks it leaves |
| IngestOutcomes.LastTransactionExactly | packages/core/rag/ingest.py:102-142 | the last transaction marks exactly a row at work; else it rolls back, and fails unless another delivery made the row ready |
| IngestOutcomes.LostAnswersAreTransient | packages/core/rag/ingest.py:65-142 | a commit whose answer is lost has happened, and raises as a failure of the service |
| IngestOutcomes.TransientIsRetried | apps/worker/tasks.py:143-165 | a failure of a service with fewer than three retries is retried, after 5, 10 or 20 seconds, and leaves the row |
| IngestOutcomes.LastFailureIsRecorded | apps/worker/tasks.py:123-151 | an authored failure, the time limit, or a service's failure after three retries is recorded: a row in flight is 'failed' with the first thousand characters of its own message, any other row stays |
| IngestOutcomes.OnlyTransientIsRetried | apps/worker/tasks.py:123-142 | whatever follows, an attempt that raised an authored failure or the time limit is never retried |
| IngestOutcomes.ApiWritesExactly | packages/db/repos/documents.py:56-105 | in the runs the deadline fails exactly a row in flight, and a delete takes the row with its chunks |
| IngestTasks.RetriesAreBounded | apps/worker/tasks.py:116-165 | in every run each attempt of a task but its first retries the one before it, 5, 10 and 20 seconds after it; a task has at most four attempts and waits 35 seconds in all |
| IngestTasks.TasksEndTerminal | apps/worker/tasks.py:95-167 | in every run, once all attempts of a task are over and none died or lost its last write or retry, the row is terminal or deleted |
| Revocation.CacheNeverAhead | packages/core/auth/revocation.py:35-83 | at every step the cached cutoff of an existing user is at most the encoded column |
| Revocation.OnlyOldSessionsAreRevoked | packages/core/auth/revocation.py:59-83 | no check turns away a session of an existing user that is not older than the cutoff |
| Revocation.PublishedCutoffsHold | packages/core/auth/revocation.py:35-83 | with publications one at a time and timely fills, a check begun after a publication turns away every session opened in an earlier whole second, through expiry, refill and fallback, and while that cutoff is the column's no other |
| Revocation.SameSecondSurvives | packages/core/auth/revocation.py:59-83 | a session opened earlier in the second of a cutoff is let through after that cutoff's publication |
| Revocation.RevokedWithinTheTtl | packages/core/auth/revocation.py:35-56 | with any Redis failures, a committed cutoff is obeyed by every check begun a time to live (and the writes' delay) later |
| Revocation.OvertakenPublication | packages/core/auth/revocation.py:35-41 | two publications that overtake each other leave the older cutoff in force |
| Revocation.LateFill | packages/core/auth/revocation.py:74-83 | a fill a whole time to live after its read can bring the older cutoff back |
| Revocation.Cache.PublishSva | packages/core/auth/revocation.py:35-56 | in any world with this key, the call is the publication's steps with nobody in between, however its commands go, and it always returns |
| Revocation.Cache.SessionRevoked | packages/core/auth/revocation.py:59-83 | in any world with this key, the call is the check's steps with nobody in between and its answer their decision: which cutoff decides, what a missing user means, when the key is filled |
| RateLimit.EveryRunKeepsInv | packages/core/auth/rate_limit.py:15-31 | under every interleaving of the three commands: lifetimes follow each other, count up from one and last a whole window |
| RateLimit.LetThroughUpToTheLimit | packages/core/auth/rate_limit.py:15-31 | a caller is let through exactly when fewer than `limit` hits of its key's lifetime came before it |
| RateLimit.AnsweredKeysExpire | packages/core/auth/rate_limit.py:15-31 | whatever callers crash between their commands, a key that answered any caller of its lifetime has a time to live |
| RateLimit.AtMostTwiceTheLimit | packages/core/auth/rate_limit.py:15-31 | no closed interval of one window's length lets more than twice the limit through |
| RateLimit.TwiceIsReached | packages/core/auth/rate_limit.py:15-31 | the bound is reached |
| RateLimit.Bucket.HitKey | packages/core/auth/rate_limit.py:15-31 | alone, a hit is let through exactly up to the limit and never leaves a key without a time to live |
| Calculator.EveryIntegerIsBounded | packages/core/agent/tools.py:161-185 | every integer produced anywhere in an evaluation has at most max(longest literal, 1,000,000) bits plus the additions above it, counted by depth and by number |
| Calculator.ResultFits | packages/core/agent/tools.py:161-185 | the result of an evaluation fits its expression's bound |
| Calculator.ProductBits | packages/core/agent/tools.py:177-184 | a product has as many bits as its factors together, or one fewer |
| Calculator.PowerBits | packages/core/agent/tools.py:171-176 | a power has at most exponent times the base's bits, and more than exponent times one bit less |
| Calculator.FloorDivision | packages/core/agent/tools.py:145-153 | Python's quotient and remainder: the division identity, the divisor's sign, and no growth |
| Calculator.OneQuotient | packages/core/agent/tools.py:145-153 | no other quotient and remainder satisfy the identity with the divisor's sign |
| Calculator.NodesCompute | packages/core/agent/tools.py:161-185 | what every node over integers evaluates to: sum, difference, product, the quotient and remainder, the product of equal factors; each refusal, with its bound; a zero divisor; and which operand's failure wins |
| Calculator.SignsCompute | packages/core/agent/tools.py:166-167 | a minus negates an integer and a plus leaves it |
| Calculator.InexactNodesCompute | packages/core/agent/tools.py:168-184 | with a float operand the result is Python's, and inexact, but for the caps on an exponent |
| Calculator.GuardsOnlyRefuse | packages/core/agent/tools.py:161-185 | a result is the one arithmetic without guards gives, and an evaluation differs from it only where a guard refuses |
| Calculator.RefusedProductsAreLong | packages/core/agent/tools.py:177-184 | a nonzero product refused as too large has at least the cap's bits |
| Calculator.RefusedPowersAreLong | packages/core/agent/tools.py:171-176 | a power refused for its length comes within a thousand bits of the cap |
| Accounts.EveryRunKeepsInv | apps/api/routers/auth.py:62-295 | after every sequence of transactions: one address each, one live link, links issued after the last password write, tokens spent once |
| Accounts.OneSpendableLink | packages/db/repos/email_tokens.py:29-46 | at most one unused token for each user and purpose |
| Accounts.SpentAtMostOnce | packages/db/repos/email_tokens.py:49-66 | no token lets two requests in, nor is one ever valid again after letting one in |
| Accounts.VerifyLinksAreCurrent | apps/api/routers/auth.py:158-215 | a live verify link of an unverified user was issued after the last write of the password pending now |
| Accounts.NoUnprovenPassword | packages/db/repos/users.py:81-146 | every password of a verified account was proven by its inbox: a reset link set it, or a verify link issued after its last write was spent while it was pending |
| Accounts.SignupThenVerify | apps/api/routers/auth.py:121-230 | a sign-up's link verifies its address with the password signed up with, for a day and once |
| Accounts.RequestThenReset | apps/api/routers/auth.py:233-295 | a reset link sets the password, proves the address and cuts off older sessions, for an hour and once |
| Accounts.ReplacedPasswordsRevoke | packages/db/repos/users.py:81-146 | the cutoff is the time of the last step that set, replaced or cleared the password, and neither changes otherwise: the sessions it turns away are exactly those opened before the whole second of that step |
| Accounts.LinksNeverMove | apps/api/routers/internal_auth.py:91-114 | a linked identity never changes user; addresses never change, verification never reverts, cutoffs only move forward |
| AccountAnswers.SignupOfNewAddress | apps/api/routers/auth.py:158-187 | a new address: one unverified user with the password, one link good for a day, nothing else |
| AccountAnswers.SignupOfKnownAddress | apps/api/routers/auth.py:158-187 | a verified address: nothing changes; else the pending password is replaced with a new cutoff and the new link is the only one |
| AccountAnswers.ResendExactly | apps/api/routers/auth.py:190-215 | a link goes exactly to a known, unverified address with a password pending, and is then its only one; every other request changes nothing |
| AccountAnswers.RequestResetExactly | apps/api/routers/auth.py:233-254 | a reset link, good for an hour, goes exactly to a known address and is then its only one |
| AccountAnswers.VerifyExactly | apps/api/routers/auth.py:218-230 | a verify link lets in exactly while unused and unexpired; it proves its user's address and changes no other row |
| AccountAnswers.ResetExactly | apps/api/routers/auth.py:275-295 | a reset link lets in exactly while unused and unexpired; it sets the password, the cutoff and the proof, and changes no other row |
| AccountAnswers.SignInExactly | apps/api/routers/internal_auth.py:91-141 | a linked identity signs in its user; any other is refused, and changes nothing, exactly when its address is unverified; else it is linked to that address's user, who keeps only a proven password, or to a new one |
| AccountAnswers.FirstSignInIsProven | apps/api/routers/internal_auth.py:91-114 | an identity not linked before is welcomed exactly with a verified address, as the verified user of that address, to whom it is then linked |
| AccountAnswers.EveryLinkWasProven | apps/api/routers/internal_auth.py:91-114 | in every run each linked identity was first linked by a sign-in whose verified address is its user's own |
| AccountAnswers.DeadExactly | packages/db/repos/email_tokens.py:69-99 | the sweep may take a token exactly when nobody can be let in by it any more |
| AccountAnswers.SweepTurnsNobodyAway | packages/db/repos/email_tokens.py:69-99 | no sweep changes who is let in, then or later |
| AccountStores.AccountStore.VoidUnusedTokens | packages/db/repos/email_tokens.py:29-46 | one statement voids exactly the live tokens and names them |
| AccountStores.AccountStore.Consume | packages/db/repos/email_tokens.py:63-66 | the call wins exactly when the token was still unused, and its siblings go with it |
| AccountStores.AccountStore.SpendToken | apps/api/routers/auth.py:62-72 | a user exactly for a valid token of the purpose; every failure changes nothing |
| AccountStores.AccountStore.ReplacePendingPassword | packages/db/repos/users.py:108-134 | replaced with a new cutoff unless verified by then |
| AccountStores.AccountStore.ClaimByVerifiedEmail | packages/db/repos/users.py:81-100 | a cutoff is returned exactly when an unproven password was cleared |
| AccountStores.AccountStore.SignupNow | apps/api/routers/auth.py:158-187 | new, verified or unverified address: the rows written, the one email sent, the cutoff to publish |
| AccountStores.AccountStore.ResendNow | apps/api/routers/auth.py:190-215 | the one live link replaced, or the quiet and the existing-account answers |
| AccountStores.AccountStore.VerifyNow | apps/api/routers/auth.py:218-230 | the token spent and its user verified, or one uniform refusal |
| AccountStores.AccountStore.RequestResetNow | apps/api/routers/auth.py:233-254 | the one live reset link replaced, for known addresses only |
| AccountStores.AccountStore.ResetNow | apps/api/routers/auth.py:275-295 | token spent, password set, sessions cut off, address verified, together |
| AccountStores.AccountStore.OAuthUpsertNow | apps/api/routers/internal_auth.py:91-141 | the linked identity wins; else an unverified address is refused; else a new or claimed user is linked |
| AccountStores.AccountStore.SweepDead | packages/db/repos/email_tokens.py:69-99 | at most `limit` rows go, only ones no request could be let in by, and all of those when the limit is not met |
| DataTables.ParseTable | apps/web/components/chat/DataTable.tsx:22-57 | a rectangle as wide as the widest row, each row its own cells then blanks, in order |
| DataTables.EveryRowIsKept | apps/web/components/chat/DataTable.tsx:47-49 | every row with a cell is the header or one of the rows, as often as it was read |
| DataTables.WidestIsLeast | apps/web/components/chat/DataTable.tsx:53-53 | the width is reached by some row and exceeded by none |
| DataTables.HeaderIsTheFirstHeadRow | apps/web/components/chat/DataTable.tsx:47-49 | the header is the first head row with a cell, and the rows are those outside a head before it and all after it, in order |
| DataTables.NoHeadNoHeader | apps/web/components/chat/DataTable.tsx:47-49 | without such a row there is no header, and the rows are those outside a head |
| DataTables.RenderedTableReadsBack | apps/web/components/chat/DataTable.tsx:22-57 | a table rendered as a head and a body is read back as it was, but for space around a cell |
| TableSort.CompareIsAnOrder | apps/web/components/chat/DataTable.tsx:128-144 | the figures' comparator is a total preorder: antisymmetric and transitive, placeholders included |
| TableSort.SortedColumn | apps/web/components/chat/DataTable.tsx:131-141 | a sorted column shows its figures first, in the chosen direction, and the rest after them in either direction |
| TableSort.NumericExactly | apps/web/components/chat/DataTable.tsx:76-79 | a column is numeric exactly when some cell is no placeholder and every such cell reads as a number |
| TableSort.OnlyPlaceholdersTrail | apps/web/components/chat/DataTable.tsx:76-79 | in a numeric column nothing but placeholders follows the sorted figures |
| Exports.ExportReadsBack | apps/web/components/chat/DataTable.tsx:86-113 | reading either export gives back exactly the exported cells, if and only if every row has a cell |
| Exports.ExportsHoldNoFormula | apps/web/components/chat/DataTable.tsx:81-88 | a cell read from an export that still starts like a formula is a number |
| Exports.OnlyFormulasAreMarked | apps/web/components/chat/DataTable.tsx:81-112 | an exported cell is the cell, flattened for the clipboard, with an apostrophe exactly before what would start a formula and is no number |
| Exports.FlattenKeepsText | apps/web/components/chat/DataTable.tsx:97-101 | the clipboard's flattening changes nothing but tabs, line breaks and spaces |
| Exports.EachRunBecomesOneSpace | apps/web/components/chat/DataTable.tsx:97-101 | each whole run of tabs and line breaks becomes one space |
| Exports.PlainStaysPlain | apps/web/components/chat/DataTable.tsx:97-101 | a cell without any stays as it is |
| Exports.FlattenedIsPlain | apps/web/components/chat/DataTable.tsx:97-101 | no flattened cell can break the grid |
| Exports.FinalBreakExactlyWhen | apps/web/components/chat/DataTable.tsx:102-112 | an export ends in a line feed exactly when its last row is one blank cell under another row |
| Exports.FileReadsBack | apps/web/components/chat/DataTable.tsx:86-113 | a reader that lets the last record end in a line break gives the cells back exactly when every row has one and the last is no lone blank cell under another row |

## Left out

- A transaction's start time: Postgres's `now()` is when a transaction began, and in the runs a
  transaction takes one time, at which it commits, and a log is in the order of commits. The source
  reads the messages by `created_at` alone, or by `created_at` and then id for the last two, and never
  by commit: `Listing` says when the two orders agree, for logs given with their times, and does not
  follow start times through the runs.
- A save whose answer is lost in the same microsecond as its turn's last claim: the model lets it
  commit only at a later time, so that the release tried next never meets somebody else's equal claim.
- The turn's marker when a commit succeeded but its answer was lost: the source says "failed",
  and so does the model; "done" implies stored, and the converse is claimed only without such a loss.
- `_shielded`, as a mechanism: the model has its effect, that a cancellation never interrupts a
  save, a release or a refresh.
- A drain that reaches a task before its first step, and in `TurnRuns` the death of the task's process:
  there is then no marker and no listener.
- The deadline's clock: it is a cancellation that may arrive at any time.
- Titles, the log's `touch`, and the conversation list.
- `pollForRetry`, `settleFree` and the page's other state: they decide what is shown, not what is stored.
- Decoding UTF-8 across reads, and the silence limit, which ends a read as a rejected one does.
- JSON beyond what the server prints: the reader here is exact on printed values and their prefixes,
  and lone surrogates do not occur, as a Dafny `char` is a Unicode scalar value.
- A source whose chunk index is not a natural number, and a distance that is not a number: Python
  prints it as `NaN`, which `JSON.parse` rejects, and the model's numerals exclude it.
- `_run_tool`'s errors, prompt caching and usage reports in the tool loop.
- Chunk-row locks and deadlock detection during ingestion: an aborted transaction is a rollback,
  which the model allows at any time. `updated_at` and the cutoffs are booleans, or any time at all in the runs.
- A publish that raised is assumed to have delivered nothing, and to have raised before any deadline
  failed the row, so in the runs its write meets no attempt and a row in flight.
- What a queue does between deliveries: a redelivered message is a task of its own, with the retry count
  it carries, and a retry whose publication is lost is an attempt whose end is unrecorded.
- Reading, splitting and embedding a document, and object storage: any result, any error.
- Redis losing keys on its own (a flush, an eviction, a failover), and the limiter's `clear` and its
  fail-open answer on an error: with these there is no bound to prove.
- A user's deletion and return under the same id; an account other than a demo visitor is never deleted.
- Demo visitors, sign-in with a password, and the limits in front of every route.
- Normalising an address: the model's addresses are already trimmed and in lower case.
- The re-run after a lost first-insert race: transactions are atomic here, so one simply comes first.
  The token invariants are proved for transactions as units, not for READ COMMITTED statements.
- Guessing a token: a drawn token never repeats.
- Floats and complex values in the calculator, which are only named; booleans are integers; Python's
  recursion limit, and the digit limit of turning a long integer into text.
- JavaScript's number grammar behind `asNumber` and the placeholder pattern, which are parameters; the
  sort's algorithm, which is the library's; sorting text, which follows the locale; the byte-order mark.
