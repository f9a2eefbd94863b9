# Hermes Infi WebUI: streaming, agent sessions and the stores behind them

A Dafny model of the part of the Hermes Infi WebUI back end and chat store that has to stay consistent while agents
stream, users click, processes crash and clocks run: the live event log and its readers, the client that folds it, the
stored message row, the clarify handshake, roundtables, the work queue and the runner's lock, the ACP client and its
subprocess pool, and the bounded stores (file history, rate limiter, refresh tokens, memory blocks, path normaliser).

`dafny verify dfyconfig.toml` checks everything.

## How it is built

| files | subject |
|---|---|
| `EventLog.dfy` | the capped Redis Stream of a conversation, SSE and WebSocket readers with a cursor |
| `Chat.dfy`, `ChatContents.dfy` | the browser's chat store: event handlers, reload, and what each event does to what is shown |
| `Turn.dfy`, `TurnTheorems.dfy`, `TurnDetails.dfy`, `SendFlow.dfy` | one single-agent turn as runner, log, row, attached clients, late joiners and the sender see it |
| `Clarify.dfy`, `ClarifyProofs.dfy`, `ClarifyTheorems.dfy`, `ClarifyAnswers.dfy` | the clarify handshake between agent, Redis, runner, waiters and API, with a clock |
| `ClarifyTurn.dfy` | handshake and turn run together: one answer for agent, log and row |
| `Roundtable.dfy`, `RoundtableTheorems.dfy` | N concurrent agents, a barrier and a merge |
| `WorkQueue.dfy`, `WorkQueueProgress.dfy`, `RunnerLock.dfy` | consumer group with crashes and reclaim; singleton lock with TTL |
| `Acp.dfy`, `SessionPool.dfy` | JSON-RPC request correlation; ownership of agent subprocesses |
| `FileHistory.dfy`, `RateLimit.dfy`, `RefreshTokens.dfy`, `MemoryBudget.dfy`, `SafePath.dfy` | the bounded stores |
| `Text.dfy`, `Wrappers.dfy` | white space; Option, Result, Min and Max |

Concurrent protocols are state machines over their atomic steps: `Enabled` says when a step can happen, `Next` (or
`Apply`) what it does, `Run` what a run is, and the theorems quantify over all runs. Objects that one caller at a time
updates in place are classes; each method's contract gives the whole new state as a value, and the theorems are about
those values. Event ids and cursors follow section 9.2 of the WHATWG HTML Living Standard (Last-Event-ID), request
correlation follows sections 4 and 5 of the JSON-RPC 2.0 Specification, tokens follow sections 4.1.4 and 4.1.7 of
RFC 7519.

## What the proofs found

Some properties one would like to state are false of the code. Each is kept as the code has it, with an exact condition
or a concrete run.

- The text a client ends with is the stored text exactly if no chunk is handled between `_finalize` and `done`
  (`TurnTheorems.AgreementAtDone`, `TurnTheorems.LateChunkSplits`): the row takes `acc["text"]` before, `done` takes it
  after.
- A client that reloads between the recording and the announcement of a question shows it early
  (`TurnTheorems.LateJoinerAgrees`, `TurnTheorems.ReloadShowsEarly`).
- A stored roundtable reply differs from the shown one exactly if a chunk was cut off when the client was stopped, the
  slot failed without a word and got a stand-in text, or stopping its client raised: then a slot that has spoken is
  stored as "（作答失败）", while clients go on showing its text as streaming. The merged text differs exactly if a chunk was
  cut off (`RoundtableTheorems.StoredReplies`, `RoundtableTheorems.CutReplyDiffers`,
  `RoundtableTheorems.CrashedReplyDiffers`, `RoundtableTheorems.StoredMerge`, `RoundtableTheorems.CutMergeDiffers`). If
  stopping the merge's client raises, nothing is ever stored (`RoundtableTheorems.LostForever`).
- `ACPClient.stop` awaits the reader before it terminates the process. If an exception had ended the reader or the
  stderr task, it is raised again there and the process goes on running (`SessionPool.Client.Stop`). So `drop` can leave
  a running process nobody owns (`SessionPool.DropLeaks`), and so can a failed handshake (`SessionPool.HandshakeLeaks`);
  `get` can raise although the handshake would succeed; `close_all` ends at the first such client with its tables full
  (`SessionPool.CloseAllStops`); `evict_idle` ends there too, and with it the heartbeat that calls it
  (`backend/agent_runner/runner.py:187`), so that the lock lapses as in `RunnerLock.SingleLeaderIff`, and at shutdown
  its exception skips the release, as a crash would; and a raising `drop` skips `_fail` at
  `backend/agent_runner/runner.py:611` and `:616`, so that a failed turn stays streaming (failed turns are left out
  below). `_alive` looks at the process only: a client whose reader is dead is handed out (`SessionPool.DeadReader`),
  and requests to it wait for their time-out (`Acp.DeafAfterEnd`).
- There is a single leader exactly as long as nobody acquires a lapsed lock beside a runner still in charge
  (`RunnerLock.SingleLeaderIff`). A runner that shuts down stops refreshing its lock but drains its work, background
  tasks without any time limit, so a second runner can lead beside it (`RunnerLock.DrainingLeaderIsJoined`).
- A payload runs twice only after a claim took an entry that was still held (`WorkQueue.AtMostOnce`,
  `WorkQueue.ShapeIffNotStolen`), which a pause of 120 s between read and ack allows
  (`WorkQueue.PausedRunnerRunsTwice`).
- After the event stream expired, a clock behind its last id makes ids repeat or go back (`EventLog.FreshIdIff`).
- A respawned client has no last-use entry and is never evicted until it is used again
  (`SessionPool.RespawnEscapesEviction`).
- An edit whose budget check is overtaken by another write can exceed the budget (`MemoryBudget.StaleEditExact`,
  `MemoryBudget.StaleCheckOverflows`).
- A refresh token without an id could be used until it expires; `create_token` never makes one
  (`RefreshTokens.SingleUse`).
- A line over the stream's limit or with undecodable bytes, a reply to the agent that cannot be written, or an update
  callback that raises, ends the reader; all open requests then fail (`Acp.EndLeavesNobodyWaiting`).
- `safe_relative_path` is idempotent exactly on results without white space at the ends
  (`SafePath.IdempotentIffStripped`), and `confine_to_dir` accepts its results exactly if the base is not the root
  (`SafePath.SafeNameConfined`).
- The rate limiter's exact worst case over a window's length is 2 * limit - 1, not 2 * limit (`RateLimit.BoundIsTight`).

## Model

| member | source | states |
|---|---|---|
| EventLog.EventStream.Publish | backend/app/core/redis.py:67-82 | appends exactly one entry under an id larger than every earlier one, however many old entries the approximate cap trims; the clock may step back while the key exists |
| EventLog.EventStream.Expire | backend/app/core/redis.py:79-81 | losing the key empties what readers can see but not the record of what was sent, and later ids still exceed all earlier ones |
| EventLog.EventStream.Latest | backend/app/core/redis.py:89-92 | the id from which a new reader has exactly the whole log behind it, or 0-0 |
| EventLog.PosFrontier | backend/app/core/redis.py:95-108 | in an ordered log a cursor is a frontier: an entry is before it if and only if its id is not above the cursor |
| EventLog.ReadIsPiece | backend/app/core/redis.py:95-108 | reading what trimming left returns the next 256 entries of the full log after the cursor, or after the trimmed part if that is further on |
| EventLog.PieceContinues | backend/app/api/v1/conversations.py:360-371 | a read continues the reader's sequence without gap if and only if trimming has not overtaken its cursor, or nothing is left to read |
| EventLog.EmitKeepsExact | backend/app/api/v1/conversations.py:369-371 | each single frame of a batch keeps the emitted frames equal to the log between start and cursor, so a connection may be lost after any of them |
| EventLog.PumpKeepsExact | backend/app/api/v1/conversations.py:360-371 | a batch read from an un-overtaken cursor keeps the emitted frames equal to the log between start and cursor, and moves the cursor by up to 256 entries |
| EventLog.KeepsUp | backend/app/core/redis.py:47-51 | a reader at most 2000 entries behind, and not behind an expiry, is never overtaken by trimming |
| EventLog.Connection.constructor | backend/app/api/v1/conversations.py:351-358 | a connection starts after the id the client sends, else after the newest entry or at 0-0 if the key is missing, and in the last two cases is owed nothing of the past |
| EventLog.Connection.Send | backend/app/api/v1/conversations.py:369-371 | frames go out one by one in order and the cursor follows each: the loop is the composition of the frame steps of the run |
| EventLog.Connection.Pump | backend/app/api/v1/conversations.py:416-422 | one turn of either reader loop is one read followed by the frame steps of the run |
| EventLog.PublishKeepsExact | backend/app/core/redis.py:67-82 | appending to the log never breaks what an open connection has been promised, wherever it started |
| EventLog.StepInv | backend/app/api/v1/conversations.py:360-371 | every publish with trimming, expiry, read by a close reader and single emitted frame keeps the frames exact, the cursor on an entry, and what was read but not emitted the next piece of the log |
| EventLog.CursorDelivery | backend/app/api/v1/conversations.py:351-371 | over every interleaving of publishes with trimming, expiries, reads and single frames, a reader never more than 2000 entries behind when it reads has at every point, also between two frames of a batch, emitted exactly the log from its start to its cursor, in order and once each |
| EventLog.CatchesUp | backend/app/api/v1/conversations.py:360-371 | a reader that trimming has not overtaken can read on, from any point, also within a batch, until it has emitted the whole log from its start |
| EventLog.FreshIdIff | backend/app/core/redis.py:79 | on a missing key the next id is larger than the earlier ones if and only if the clock has passed the last of them |
| EventLog.NextIsLeast | backend/app/core/redis.py:79 | a generated id is the least one above the last that is not before the clock |
| EventLog.SteadyClock | backend/app/core/redis.py:79 | under a clock that never steps back every publish is allowed and stays so, through expiries too |
| EventLog.Resumes | backend/app/api/v1/conversations.py:350-353 | a connection that resumes at the last id of another, before trimming overtook it, continues it: together their frames are one unbroken piece of the log |
| Chat.ChatStore.Emit | frontend/src/stores/chatStream.ts:24-222 | one event: dropped without a trace if it names another conversation, else handled by the handler of its type; the store and the fold that OthersAreDropped and ClientProjects pin down change alike |
| Chat.ChatStore.OnConfirmRequest | frontend/src/stores/chatStream.ts:177-185 | a question is opened once, at the end of the list |
| Chat.ChatStore.OnConfirmResponse | frontend/src/stores/chatStream.ts:187-191 | exactly the questions with the answered id close; the others keep their order |
| Chat.ChatStore.Open | frontend/src/stores/chat.ts:105-165 | loading a conversation resets the store to the rows and restores the questions of the first streaming message |
| Chat.ChatStore.EmitAll | frontend/src/stores/chatStream.ts:48-222 | a batch of frames is the fold of its events |
| Chat.OthersAreDropped | frontend/src/stores/chatStream.ts:24-32 | an event that names another conversation leaves the client unchanged; one that names this conversation or none is handled |
| Chat.RestoredExactly | frontend/src/stores/chat.ts:139-151 | a question is open after a reload if and only if a stored entry with its id is pending |
| Chat.HandleFollows | frontend/src/stores/chatStream.ts:48-222 | what an event does to any one message depends on that message and event only |
| Chat.HandleOpens | frontend/src/stores/chatStream.ts:177-191 | a question is open after an event if and only if the event opens it, or it was open and the event does not answer it |
| Chat.ClientProjects | frontend/src/stores/chatStream.ts:24-32 | for every client and every sequence of events, of its own conversation or of others, any message and any open question is the fold of its own events among those of the open conversation |
| Chat.FilesAndPlan | frontend/src/stores/chatStream.ts:135-175 | replays included, a message lists each announced file exactly once and its plan is the last one sent |
| ChatContents.StatusAndThinking | frontend/src/stores/chatStream.ts:48-51 | a message has the status of the last end of its turn, the deltas that arrived before it or the text it carries, and every thought that arrived before it |
| ChatContents.RepliesShown | frontend/src/stores/chatStream.ts:100-118 | each reply of a roundtable, and the merged text, is the fold of its own events: it grows until its end and not after, whatever the other slots say |
| ChatContents.SortsBySlot | frontend/src/stores/chatStream.ts:82-87 | replies are laid out by slot, whatever order the agents are announced in, none lost or doubled |
| ChatContents.CallsShown | frontend/src/stores/chatStream.ts:120-128 | each tool call is shown under its title with the last status announced for it, one without a title under the stand-in |
| ChatContents.QuestionsShown | frontend/src/stores/chatStream.ts:177-191 | an open question is asked in the words of the first request under its id since it was last answered |
| ChatContents.RestoredQuestions | frontend/src/stores/chat.ts:139-151 | a reload asks the stored pending questions in their own words |
| Turn.StepInv | backend/agent_runner/runner.py:406-419 | every step of a turn keeps: accumulator = published deltas plus the one unsent chunk, row untouched while streaming and final afterwards, no foreign event about the message in the log |
| Turn.RunInv | backend/agent_runner/runner.py:555-641 | these invariants hold in every reachable state of every interleaving |
| Turn.AttachedShows | frontend/src/stores/chatStream.ts:48-80 | at every point of every run a client attached at or before the turn's start shows exactly the published deltas, and after done the text of done |
| TurnTheorems.RowFrozen | backend/agent_runner/runner_clarify.py:139-147 | from finalize on the stored text and status never change again, whatever clarify writes still land |
| TurnTheorems.DoneInLog | backend/agent_runner/runner.py:632-641 | once the turn is finished its done event is in the log, with the stored status and the text it was sent with |
| TurnTheorems.AgreementAtDone | backend/agent_runner/runner.py:620-641 | whatever a client missed, repeated, reordered or got of other conversations before done, and whatever it replays after: if it holds the message when done arrives it ends with the text and status of done, and that text is the stored one, then and ever after, if and only if no chunk came between finalize and done |
| TurnTheorems.LateChunkSplits | backend/agent_runner/runner.py:626-641 | a concrete run in which a chunk between the two leaves the browser with "ab" and the row with "a" |
| TurnTheorems.RunAsks | backend/agent_runner/runner_clarify.py:63-78 | in every reachable state a question is pending in the row, and open in the log, exactly according to how far it has come |
| TurnTheorems.StoredAnswersAreTrue | backend/agent_runner/runner_clarify.py:107-136 | in every reachable state a settled question stores the very answer the log announced and the matching outcome |
| TurnTheorems.EarlyClient | frontend/src/stores/chatStream.ts:177-191 | a client attached from the start shows the published text and has open exactly the announced, unanswered questions |
| TurnTheorems.LateJoinerAgrees | frontend/src/stores/chat.ts:134-161 | a client that reloads at any time during the turn and replays the log shows what the early client shows; its open questions are the same, plus exactly those it found recorded but not yet announced |
| TurnTheorems.FinalSnapshotAgrees | frontend/src/stores/chat.ts:134-135 | a client that loads the final row agrees with attached ones from done on exactly if no late chunk came, and before done exactly if nothing waits and none came, or a single one did and waits |
| TurnTheorems.ReloadShowsEarly | backend/agent_runner/runner_clarify.py:63-78 | a concrete run in which a reload shows a question that no attached client shows yet |
| TurnTheorems.ClarifyLedger.Record | backend/agent_runner/runner_clarify.py:124-126 | the ledger stays in step with the turn: after recording, entries and row are those of the turn's next state, about which the theorems speak |
| TurnTheorems.ClarifyLedger.Update | backend/agent_runner/runner_clarify.py:129-136 | the in-place loop settles every entry with the id, changes no other, and stays in step with the turn's closing step |
| TurnTheorems.ClarifyLedger.Finalize | backend/agent_runner/runner.py:756-775 | storing text and status stays in step with the turn's finalize step, for complete and cancelled turns |
| TurnDetails.SidesAreDecorations | backend/agent_runner/runner.py:420-457 | each tool call, thought, plan and file is in the log once, in the order of its making, and nothing else of the kind is |
| TurnDetails.StatusHasSource | backend/agent_runner/runner.py:620-630 | a row streams until it is finalized and is then complete, or cancelled if it was finalized as cancelled; that takes a cancel seen before, and any cancel seen before allows it |
| TurnDetails.QuestionsAgree | backend/agent_runner/runner_clarify.py:63-78 | every client that shows an announced question, attached from the start or after a reload, asks it in the words stored in the row |
| TurnDetails.QuestionsAreAddressed | backend/agent_runner/runner_clarify.py:67-78 | events about a question name its message and its conversation |
| TurnDetails.NothingIsRefused | backend/agent_runner/runner.py:409-457 | once the turn has begun the agent is never kept from speaking: any decoration, and any chunk as soon as the one before is published, can be handled at any point |
| SendFlow.Sender.SendSingle | frontend/src/stores/chat.ts:312-342 | bubble, early frames, answer and late frames on the mutable store give the client the two theorems below speak about |
| SendFlow.Sender.Finish | frontend/src/stores/chat.ts:336-341 | the bubble is replaced in place and the agent's message added unless the stream already created it |
| SendFlow.Sender.OnResponse | frontend/src/stores/chat.ts:291-304 | both messages are added unless present |
| SendFlow.SendShowsOnce | frontend/src/stores/chat.ts:312-342 | for every interleaving of response and stream events: no message twice, older ones keep their places, the bubble is gone, the user's message stands in its place as the server stored it, above the agent's |
| SendFlow.KeepsShowing | frontend/src/stores/chatStream.ts:48-80 | a message that shows the turn at one time and then follows the log shows it at any later time |
| SendFlow.SenderAgrees | frontend/src/stores/chat.ts:312-342 | in every run the sender's own client shows, from the response on, what every attached client shows |
| ClarifyProofs.StepInv | backend/agent_runner/runner_clarify.py:18-121 | every Redis command of agent, runner, waiter and API keeps the six invariants (order, single answer, soundness, no lost wake-up, timing, what the agent was told) |
| ClarifyProofs.RunInv | backend/agent_runner/runner_clarify.py:18-121 | they hold in every reachable state |
| ClarifyTheorems.ServedInOrder | backend/agent_runner/runner_clarify.py:18-30 | every request is popped exactly once and in push order |
| ClarifyTheorems.AnswersAreGenuine | backend/agent_runner/runner_clarify.py:90-121 | a response list gets at most one value: a choice a user submitted for that very id, the cancel answer if the waiter saw a cancel less than 120 s old and not cleared, or the timeout answer after the full timeout |
| ClarifyTheorems.ChoiceHasSource | backend/app/core/redis.py:140-162 | whatever a waiter ends with comes from a submitted choice, its deadline, or a flag it saw set |
| ClarifyTheorems.FlagHasSource | backend/app/core/redis.py:111-120 | a flag found set was set by a cancel less than its lifetime ago and not cleared since |
| ClarifyTheorems.PublishedIsCaught | backend/app/core/redis.py:140-174 | a waiter that still polls has an answer within reach as soon as it is stored and its notification sent, whatever the waiter is doing: starting, between its first read and the wait, in the wait, or checking for a cancel |
| ClarifyTheorems.CaughtStep | backend/app/core/redis.py:140-162 | no step of anyone takes a caught answer away, and time stands still until the waiter ends |
| ClarifyTheorems.NeverMissed | backend/app/core/redis.py:132-174 | an answer within reach is never missed: in every continuation the waiter ends with a user's choice for its id, or the cancel answer if it saw a live cancel (AnswerArrives starts from the click itself) |
| ClarifyTheorems.AnsweredInTime | backend/agent_runner/runner.py:593-608 | no request stays unanswered beyond one poll per request ahead of it plus the clarify timeout |
| ClarifyTheorems.RunnerSideDecreases | backend/agent_runner/runner.py:593-608 | every runner-side step takes no time and strictly lowers a rank |
| ClarifyTheorems.Progress | backend/agent_runner/runner.py:593-608 | in every reachable state with an unanswered request some runner-side step or the clock can move, and moving lowers (time left, rank) |
| ClarifyTheorems.NoHang | docs/hermes-agent-changes.md:52-80 | an agent with fewer than 59 requests ahead never runs out of patience, unless it began to wait only after its answer had expired; what it is told is what was given |
| ClarifyTheorems.EitherOrderDelivers | backend/app/core/redis.py:177-180 | an answer reaches the agent whether it was pushed before or after the agent began to wait |
| ClarifyAnswers.AnswerIsKept | backend/app/core/redis.py:170-172 | a submitted answer is stored for its lifetime and stays so until a waiter of its question has a choice; a newer one replaces it |
| ClarifyAnswers.AnswerArrives | backend/app/core/redis.py:132-174 | a click that is published and not expired while the waiter of its question still polls: the waiter ends with the newest choice submitted for that question, this click or a later one, or the cancel answer if it saw a live cancel, before the clock moves on, and its agent is given just that |
| ClarifyAnswers.CancelEndsWait | backend/app/core/redis.py:152-162 | a cancel that is not cleared ends every wait begun before it within one second, and each agent gets an answer |
| ClarifyAnswers.CancelForestalls | backend/app/core/redis.py:144-162 | a waiter that starts while a cancel is live has answered before the clock moves |
| ClarifyAnswers.AnswerWaitsForAgent | backend/agent_runner/runner_clarify.py:33-45 | an answer pushed before its agent waits lies there for 60 s: an agent that comes in time gets it and takes it away, a later one waits in vain |
| ClarifyAnswers.AgentIsDone | docs/hermes-agent-changes.md:52-80 | an agent that has its answer or has given up never gets another |
| ClarifyAnswers.PushedWhenAsked | backend/agent_runner/runner_clarify.py:18-30 | the time and the queue length the bounds speak of are those of the push |
| ClarifyTurn.Projects | backend/agent_runner/runner_clarify.py:90-121 | every joint run is a run of the handshake and a run of the turn, so all theorems about either hold in it |
| ClarifyTurn.RunInv | backend/agent_runner/runner_clarify.py:51-121 | in every reachable state each question's waiter and its stage in the turn are in step: announced before the waiter starts, its choice published before it is pushed and stored after |
| ClarifyTurn.OneAnswer | backend/agent_runner/runner_clarify.py:96-121 | the value the agent was given is a single one, the only one the log announces for the question, and the one the row stores once the question is settled, as cancelled, timeout or answered; it was submitted by a user for this very question, or is the cancel or timeout answer |
| ClarifyTurn.AnsweredMeansClosed | backend/agent_runner/runner_clarify.py:107-117 | once the agent was given its answer, no client that followed the log from the start still shows the question |
| ClarifyTurn.NeverBlocked | backend/agent_runner/runner_clarify.py:51-121 | a popped question, a choice to be announced or pushed and an answer to be stored always have a next step: neither side waits for the other in vain |
| Roundtable.RunInv | backend/agent_runner/runner_roundtable.py:44-102 | in every interleaving each slot's buffer is what it published plus what was cut off (or the stand-in text), also where stopping its client raises after it has spoken, and the row is the buffers in slot order with the stand-in for a crashed slot |
| Roundtable.AttachedShows | frontend/src/stores/chatStream.ts:82-118 | at every point an attached client shows in reply i exactly what slot i published, and in the merged text what the merge published |
| Roundtable.SentIsProjection | backend/agent_runner/runner_roundtable.py:51-58 | what slot i published is the concatenation of its own deltas in the log |
| Roundtable.ShownIsSaid | backend/agent_runner/runner_roundtable.py:51-58 | a client shows a part of what the agent has said, and all of it if and only if no chunk waits or was cut off |
| Roundtable.OrderIrrelevant | backend/agent_runner/runner_roundtable.py:98-100 | two runs in which an agent says the same, and nothing of it waits or was cut off, show the same reply, however the slots interleave and whatever the others say |
| RoundtableTheorems.StoredReplies | backend/agent_runner/runner_roundtable.py:98-102 | one stored reply per agent in slot order; its text is what clients show if and only if no chunk of the slot was cut off and it did not fail without a word, or, where stopping its client raised, if it said the stand-in itself; its status is the shown one if and only if stopping did not raise |
| RoundtableTheorems.StoredIsSaid | backend/agent_runner/runner_roundtable.py:77-102 | a stored reply has the status its prompt ended with and all its agent said; only where the agent said nothing and failed, or its client could not be stopped, is the text the stand-in for that case |
| RoundtableTheorems.StoredMerge | backend/agent_runner/runner_roundtable.py:124-169 | the merged text shown after done is the stored one if and only if no chunk of the merge was cut off |
| RoundtableTheorems.CutReplyDiffers | backend/agent_runner/runner_roundtable.py:77-96 | a concrete run in which clients show an empty reply and the row stores the chunk that was cut off |
| RoundtableTheorems.CrashedReplyDiffers | backend/agent_runner/runner_roundtable.py:90-102 | a concrete run in which a slot speaks and stopping its client raises: clients go on showing its text as streaming, the row stores the stand-in as an error |
| RoundtableTheorems.CutMergeDiffers | backend/agent_runner/runner_roundtable.py:153-169 | a concrete run in which the same happens to the merged text |
| RoundtableTheorems.OutcomeReflectsSlots | backend/agent_runner/runner_roundtable.py:104-130 | complete only if some slot gave a usable reply, error only if none did; the only usable reply is the merged text word for word |
| RoundtableTheorems.OutcomeByReplies | backend/agent_runner/runner_roundtable.py:104-130 | a stored outcome is complete only if some stored reply is complete with something to read, and error only if none is; if just one is, its text is the merged text word for word |
| RoundtableTheorems.MergedIsSaid | backend/agent_runner/runner_roundtable.py:131-165 | with two good replies or more the stored merged text is all the merging agent said |
| RoundtableTheorems.MergeAfterAllSlots | backend/agent_runner/runner_roundtable.py:98-124 | no slot event follows a merge event: the merge starts only after every slot has ended |
| RoundtableTheorems.LostForever | backend/agent_runner/runner_roundtable.py:153-165 | a turn whose merge client cannot be stopped stores nothing, ever; only file events follow, and every attached client goes on showing the merge as streaming |
| RoundtableTheorems.CanGoOn | backend/agent_runner/runner_roundtable.py:98-169 | that is the only way to end without a done event: at every other point of every run, unless finished, the turn has a next step of its own |
| RoundtableTheorems.ExtrasAreSteps | backend/agent_runner/runner_roundtable.py:60-71 | each file saved, and the failure of a roundtable without a usable reply, is announced once and in order |
| RoundtableTheorems.DoneCarriesStatus | backend/agent_runner/runner_roundtable.py:104-169 | a done event carries the stored status and is in the log if and only if the turn is finished; a failure is announced only where it is stored |
| WorkQueue.RunInv | backend/agent_runner/runner.py:301-335 | through crashes at any step, as long as no claim takes an entry still held, every pending entry has one holder and the books of every payload balance |
| WorkQueue.Conservation | backend/agent_runner/runner.py:152-170 | as long as no claim takes an entry still held, every enqueued payload is in exactly one of unread, pending, acknowledged, running, finished, lost; nothing else is anywhere |
| WorkQueue.AtMostOnce | backend/agent_runner/runner.py:152-170 | under the same guard no payload is executed twice, even through reclaim's ack and re-add, and an executed one is not queued or pending any more |
| WorkQueue.ShapeIffNotStolen | backend/agent_runner/runner.py:156-164 | a step keeps one holder per pending entry if and only if it does not claim an entry still held |
| WorkQueue.TimelyNeverSteals | backend/agent_runner/runner.py:156-159 | no such claim happens while no runner is paused for 120 s between read and ack |
| WorkQueue.NothingLostWithoutCrash | backend/agent_runner/runner.py:152-170 | without crashes every enqueued payload is at any time, at any timing, unread, pending, in a runner's hands or finished |
| WorkQueue.PausedRunnerRunsTwice | backend/agent_runner/runner.py:152-170 | a reachable state in which a runner paused for 120 s between read and ack made a payload run twice |
| WorkQueueProgress.NothingIsStuck | backend/agent_runner/runner.py:152-170 | after any run, through crashes and at any timing, a payload still unread, pending, in hand or finished can be brought to its end by steps of the runners alone, through claim and re-add if its runner died |
| WorkQueueProgress.EnqueuedExactly | backend/app/core/redis.py:62-64 | the payloads the conservation law counts are those enqueued, in order |
| WorkQueueProgress.CrashEnds | backend/agent_runner/runner.py:324-335 | a crash ends everything its runner was doing and nothing else; what was acknowledged or running is counted as lost |
| RunnerLock.SingleLeader | backend/agent_runner/runner.py:67-94 | if every refresh lands within the TTL at most one runner is past the lock |
| RunnerLock.LockIsSafe | backend/agent_runner/runner.py:84-112 | a live lock is taken away by its own runner's release or by the clock, and by no other step, late refresh or foreign release; RestartLeadsAtOnce says what that release does |
| RunnerLock.SuccessorKeepsLock | backend/agent_runner/runner.py:84-112 | over whole runs a live lock stays, under its token, until its expiry or its own runner's release |
| RunnerLock.AcquireIff | backend/agent_runner/runner.py:67-82 | a runner that starts leads, with a live lock under its own token for 30 s, if and only if no lock is live |
| RunnerLock.ChargeStep | backend/agent_runner/runner.py:336-348 | only its own release or crash takes a runner out of charge, and either does |
| RunnerLock.RefreshProlongs | backend/agent_runner/runner.py:84-94 | a refresh of a live lock gives it 30 s from now; a runner whose lock it is not gets no further than the check |
| RunnerLock.CanHandOver | backend/agent_runner/runner.py:336-348 | a leader can always refresh, and a runner in charge can always drain and release; then it is neither in charge nor holds the lock |
| RunnerLock.RestartLeadsAtOnce | backend/agent_runner/runner.py:96-112 | after the holder's release no lock is live until a runner acquires, and that one leads at once under its own token |
| RunnerLock.CrashedLeaderIsReplaced | backend/agent_runner/runner.py:67-94 | without a refresh a lock is gone after 30 s and the next runner that starts leads |
| RunnerLock.DrainingLeaderIsJoined | backend/agent_runner/runner.py:336-348 | a reachable state in which a runner that drains its work for longer than the TTL has a second leader beside it |
| RunnerLock.SingleLeaderIff | backend/agent_runner/runner.py:67-94 | at any timing there is a single leader throughout if and only if nobody acquired a lapsed lock beside a runner still in charge |
| RunnerLock.TimelyNeverJoins | backend/agent_runner/runner.py:84-94 | timely refreshes exclude that |
| Acp.Future.Settle | backend/agent_runner/acp_client.py:327-334 | a future keeps its first outcome |
| Acp.ACPClient.SendRequest | backend/agent_runner/acp_client.py:270-279 | a request gets the next id and a fresh future in the table |
| Acp.ACPClient.Receive | backend/agent_runner/acp_client.py:325-431 | a response settles only the pending future with its id, a request is served by its kind, an update goes to the callback; the handler raises exactly if a reply cannot be written or the update callback raises |
| Acp.ACPClient.Serve | backend/agent_runner/acp_client.py:340-426 | file write, permission and unknown requests each reply with their own result, and save what they may, also when the file callback raises |
| Acp.ACPClient.Resolve | backend/agent_runner/acp_client.py:326-334 | only the pending future with the id of the response is settled |
| Acp.ACPClient.CancelFuture | backend/agent_runner/acp_client.py:278-279 | a time-out cancels the caller's own future only |
| Acp.ACPClient.ForgetRequest | backend/agent_runner/acp_client.py:280-282 | the timed-out entry leaves the table and no other does |
| Acp.ACPClient.EndReading | backend/agent_runner/acp_client.py:315-323 | every unresolved pending future fails and the table is empty |
| Acp.ACPClient.ReadLoop | backend/agent_runner/acp_client.py:297-323 | the loop dispatches every line that parses, in order, until end of file or until reading, decoding or a handler raises, then ends the reading |
| Acp.RunInv | backend/agent_runner/acp_client.py:270-334 | in every reachable state the table holds exactly the unresolved requests, plus cancelled ones whose caller has not resumed yet |
| Acp.OutcomeIsFinal | backend/agent_runner/acp_client.py:325-334 | an outcome never changes: a late or second response does nothing |
| Acp.OutcomeHasSource | backend/agent_runner/acp_client.py:325-334 | every outcome comes from a response with the request's own id, its own time-out or the reader's end |
| Acp.SourceIsUnique | backend/agent_runner/acp_client.py:325-334 | and from only one: such a step settles the request for good |
| Acp.EndLeavesNobodyWaiting | backend/agent_runner/acp_client.py:315-323 | when the reader ends, at end of file or by an exception, nobody is left waiting |
| Acp.DeafAfterEnd | backend/agent_runner/acp_client.py:270-323 | a request begun after the reader has ended never gets an answer: it waits until its own time-out |
| Acp.ForgottenForGood | backend/agent_runner/acp_client.py:280-282 | a timed-out request leaves the table for good once its caller has resumed |
| Acp.IdsAreFresh | backend/agent_runner/acp_client.py:273-277 | request ids go out strictly increasing, so none is reused |
| Acp.OneReplyEach | backend/agent_runner/acp_client.py:339-426 | over every run the replies written are, in order, exactly one per agent request whose reply could be written, with its id and with permission exactly for a path inside the working directory, whatever the file callback does |
| Acp.SavesAreGranted | backend/agent_runner/acp_client.py:341-414 | the file callback gets exactly the files of write requests and the content of permitted ones, in order |
| Acp.UpdatesAreDelivered | backend/agent_runner/acp_client.py:428-431 | over every run the update callback gets exactly the updates the agent sent, in order and once each; such a message ends the reader if and only if the callback raised, and a living reader takes any message |
| Acp.ReaderSurvivesIff | backend/agent_runner/acp_client.py:325-431 | a message leaves the reader alive exactly unless the reply to a request cannot be written or the update callback raises |
| SessionPool.Pool.Get | backend/agent_runner/session_pool.py:42-131 | returns a live client of the requested profile with the caller's callbacks: the old one if its process lives with that profile, its reader dead or not, else a fresh one, exactly if the handshake succeeds and stopping the old one did not raise; a session id exactly when a new session was made; ownership stays one to one |
| SessionPool.Pool.Rebind | backend/agent_runner/session_pool.py:57-60 | only the callbacks of the living client change |
| SessionPool.Pool.Replace | backend/agent_runner/session_pool.py:69-131 | the stale client ends stopped, its process left running exactly if it ran and a task of the client had failed, and then nothing is started; otherwise its successor alone is registered if the handshake succeeds |
| SessionPool.Pool.Spawn | backend/agent_runner/session_pool.py:79-131 | a client whose handshake fails is registered nowhere and stopped, its process left running exactly if a task of it had failed |
| SessionPool.Pool.Drop | backend/agent_runner/session_pool.py:133-138 | the conversation's client is forgotten in all three tables; then its process is ended, or the call raises and leaves it as it was, exactly if a task of the client had failed; no other client changes |
| SessionPool.Pool.EvictIdle | backend/agent_runner/session_pool.py:140-146 | the conversations with a last use older than an hour are dropped, all of them exactly if none of their clients has a failed task; else the call raises at the first such client, which is dropped, and the rest stays |
| SessionPool.Pool.CloseAll | backend/agent_runner/session_pool.py:148-153 | raises if and only if the client of some conversation has a failed task, and then no table changes and clients not reached are untouched; otherwise all tables are empty and every process still running belongs to a client whose stop raised before |
| SessionPool.Client.Stop | backend/agent_runner/acp_client.py:122-141 | the client is closed in any case; its process is ended exactly if neither the reader nor the stderr task had failed, otherwise the call raises and the process stays as it was |
| SessionPool.Pool.Happens | backend/agent_runner/session_pool.py:35-40 | failing tasks and ending processes of any client, at any time, leave the ownership of processes intact |
| SessionPool.Client.Connect | backend/agent_runner/session_pool.py:87-124 | a session id comes back exactly when a session was created in this client: none if the stored one was resumed; any failing stage fails the handshake |
| SessionPool.FailedResumeStartsAnew | backend/agent_runner/session_pool.py:95-124 | a stored session is resumed whenever it can be; one that cannot leaves no trace, and the handshake ends as without one |
| SessionPool.RespawnEscapesEviction | backend/agent_runner/session_pool.py:133-146 | a client that replaced another has no last-use entry and survives any number of evictions, whatever happens to other conversations or to its own process and tasks, until its conversation uses the pool again |
| SessionPool.UseOthers | backend/agent_runner/session_pool.py:42-146 | through any sequence of calls about other conversations, a conversation without a last-use entry keeps its living client |
| SessionPool.DeadReader | backend/agent_runner/session_pool.py:35-60 | a concrete run in which the pool hands out a client whose reader has failed |
| SessionPool.DropLeaks | backend/agent_runner/session_pool.py:133-138 | a concrete run after which a process runs that no conversation owns |
| SessionPool.HandshakeLeaks | backend/agent_runner/session_pool.py:125-128 | the same after a handshake that failed because the reader did |
| SessionPool.CloseAllStops | backend/agent_runner/session_pool.py:148-153 | a concrete run in which a shutdown raises, leaves the tables full and, if it had not come so far, the other client alive |
| FileHistory.WorkspaceFile.constructor | backend/agent_runner/storage.py:83-96 | a new file is the one FirstContentRestores and BoundedRefinesFull speak of: version 1 with its data, or nothing if that is blank, and no history |
| FileHistory.WorkspaceFile.DeleteOld | backend/agent_runner/storage.py:119-129 | the loop deletes exactly the rows beyond the nine largest version numbers |
| FileHistory.WorkspaceFile.SaveFile | backend/agent_runner/storage.py:53-135 | an agent save as a step on the file value |
| FileHistory.WorkspaceFile.UpdateContent | backend/app/services/conversation_service.py:657-696 | a user edit as a step on the file value |
| FileHistory.WorkspaceFile.RestoreVersion | backend/app/services/conversation_service.py:709-722 | a restore as a step on the file value; an unknown number changes nothing |
| FileHistory.PruneKeeps | backend/agent_runner/storage.py:119-129 | on distinct ascending numbers the ORDER BY DESC OFFSET 9 deletion leaves the last nine rows |
| FileHistory.StepRefines | backend/agent_runner/storage.py:48-135 | every operation of the code is one operation of the full, never pruned history |
| FileHistory.RunRefines | backend/app/services/conversation_service.py:657-722 | and so is every sequence of operations, from any reachable file |
| FileHistory.BoundedRefinesFull | backend/agent_runner/storage.py:99-135 | after any sequence of saves, edits and restores, a file created from any data shows exactly the newest 9 or 10 non-empty contents of the unbounded history that starts with that data, each under the number it had |
| FileHistory.FirstContentRestores | backend/agent_runner/storage.py:48-96 | a file created from non-blank data has exactly that content, and the first write over it, save or edit, keeps it restorable under number 1 |
| FileHistory.RetainedArePast | backend/app/services/conversation_service.py:712-718 | looking a number up finds the content that had it, and only if it is retained |
| FileHistory.SaveLosesNothing | backend/agent_runner/storage.py:53-68 | blank data never replaces content, and a replaced non-empty content is one restore away |
| FileHistory.AgentsNeverStoreBlank | backend/agent_runner/storage.py:53-68 | without user edits no white-space content is ever stored or retained, from creation on |
| FileHistory.RecentVersionsRestore | backend/app/services/conversation_service.py:709-722 | each of the nine newest non-empty contents can always be restored by its number |
| FileHistory.RestoreIsUndoable | backend/app/services/conversation_service.py:657-722 | restoring any version and then the replaced one brings the content back two versions later, even if the first restore pruned a row |
| RateLimit.RateLimiter.Hit | backend/app/core/ratelimit.py:29-35 | the counter, the verdict and the remaining allowance of one call |
| RateLimit.WindowAdmits | backend/app/core/ratelimit.py:29-35 | a counter window lets through exactly the smaller of its hits and the limit |
| RateLimit.IntervalBound | backend/app/core/ratelimit.py:29-35 | any interval as long as the window lets at most 2 * limit - 1 hits through, whatever happens on other keys |
| RateLimit.BoundIsTight | backend/app/core/ratelimit.py:29-35 | for every positive limit and every window longer than a tick a run reaches that bound |
| RefreshTokens.AuthService.BlacklistJti | backend/app/core/redis.py:35-36 | the id is listed for at least one second |
| RefreshTokens.AuthService.RefreshTokens | backend/app/services/auth_service.py:76-97 | the first failing check decides the error; success lists the id and issues a new pair |
| RefreshTokens.AuthService.Logout | backend/app/services/auth_service.py:100-110 | a token that still decodes is listed; anything else is ignored |
| RefreshTokens.UsedIsListed | backend/app/services/auth_service.py:92-95 | a used-up id is listed until its token would have expired, at least |
| RefreshTokens.SingleUse | backend/app/services/auth_service.py:76-110 | over whole timed runs a refresh is granted if and only if the token is a genuine unexpired refresh token of an active user that has no id, or whose id no earlier refresh or logout used up |
| RefreshTokens.RefusedFor | backend/app/services/auth_service.py:76-91 | exactly which error a refused refresh gets: the first failing check decides |
| RefreshTokens.NeverTwice | backend/app/services/auth_service.py:76-110 | no second refresh with the same token, and none after a logout |
| RefreshTokens.LogoutEndsSession | backend/app/services/auth_service.py:100-110 | a token with an id that was live at its logout grants no refresh afterwards |
| RefreshTokens.RotationContinues | backend/app/services/auth_service.py:64-73 | the pair of an accepted refresh belongs to the same user, each with its own expiry to the second; its refresh token is good for one refresh until then, its access token for none |
| MemoryBudget.TrimMemoryToBudget | backend/agent_runner/runner_memory.py:80-95 | the loop computes the proportional cut |
| MemoryBudget.ShareBounds | backend/agent_runner/runner_memory.py:85-92 | a rounded share is the exact proportion less than one character too small, or one character more where the floating-point product fell below an integer |
| MemoryBudget.TrimFits | backend/agent_runner/runner_memory.py:80-95 | every block becomes a prefix of itself, a memory within budget is untouched, otherwise the total lands in [budget - 1, budget], or [budget - 2, budget] with floating-point losses |
| MemoryBudget.DreamFills | backend/agent_runner/runner_memory.py:239-241 | a consolidation within budget stores the blocks of the answer, and where it is silent the block read at its start |
| MemoryBudget.Excerpt | backend/agent_runner/runner_memory.py:158-176 | the sections concatenate to exactly the first budget characters of all sections |
| MemoryBudget.SectionHeads | backend/agent_runner/runner_memory.py:158-176 | a section is the heading with its title followed by its lines |
| MemoryBudget.LineInPlace | backend/agent_runner/runner_memory.py:158-176 | each line stands in its place, after a line break unless it is the first |
| MemoryBudget.MemoryStore.Upsert | backend/app/services/memory_service.py:25-49 | given blocks replace, missing ones stay, whether the row exists or not |
| MemoryBudget.MemoryStore.UpdateMemory | backend/app/api/v1/memory.py:62-89 | an edit is refused exactly when the merged total it computed exceeds the budget |
| MemoryBudget.MemoryStore.Consolidate | backend/agent_runner/runner_memory.py:232-247 | a parsed answer, filled from the blocks read at the start and trimmed, replaces all three blocks; an unparsed one changes nothing |
| MemoryBudget.BudgetKept | backend/app/api/v1/memory.py:67-89 | the stored blocks stay within the budget over every run in which no write lands between an edit's check and its write; consolidations may be arbitrarily stale |
| MemoryBudget.StaleEditExact | backend/app/api/v1/memory.py:67-89 | an edit checked against older blocks keeps the budget if and only if the blocks it leaves alone have not outgrown the room its check found |
| MemoryBudget.StaleCheckOverflows | backend/app/api/v1/memory.py:67-89 | one write in between is enough to exceed the budget |
| SafePath.NormPath | backend/app/core/files.py:42 | the stack loop of normpath walks the components of an absolute path |
| SafePath.WalkSurvives | backend/app/core/files.py:34-42 | walking with a stack equals a right-to-left reading in which each .. cancels the nearest uncancelled name before it |
| SafePath.SafeRelativePath | backend/app/core/files.py:33-43 | the string pipeline yields the joined names of that place, or the fallback |
| SafePath.NormalForm | backend/app/core/files.py:33-43 | for every input the result is non-empty, relative, free of empty, . and .. components, and names that place, or is the fallback if it is the base |
| SafePath.ResultHasNoBackslash | backend/app/core/files.py:41 | no backslash is left |
| SafePath.BackslashIsSlash | backend/app/core/files.py:41 | a backslash separates like a slash, wherever it stands |
| SafePath.OuterSpaceIgnored | backend/app/core/files.py:41 | white space around a name makes no difference |
| SafePath.PlainName | backend/app/core/files.py:42-43 | a name without backslashes and outer white space leads where its own components lead, read from the right |
| SafePath.IdempotentIffStripped | backend/app/core/files.py:41-43 | a second pass changes nothing if and only if the result has no white space at its ends |
| SafePath.SecondPassCanDiffer | backend/app/core/files.py:41-43 | every backslash-free name with white space in front and none at its end is the result of some input and does not survive a second pass |
| SafePath.ConfineToDir | backend/app/core/files.py:46-56 | for every base and name, absolute or relative, the text comparison accepts exactly the base itself and the places below a base other than the root |
| SafePath.RelativeBase | backend/app/core/files.py:52 | a relative base is the place walking from the working directory leads to |
| SafePath.InsideText | backend/app/core/files.py:54 | the prefix test on texts decides the prefix relation on names |
| SafePath.SafeNameConfined | backend/app/core/files.py:33-56 | a normalised name lands right below the base and passes the check if and only if the base is not the root |
| SafePath.SplitConcat | backend/app/core/files.py:42 | splitting at a separator splits both sides independently |
| SafePath.SplitOfJoin | backend/app/core/files.py:42-43 | joined names split back into the same names |

## Left out

Assumptions of the model:

- Every Redis command, MULTI pipeline and database read-modify-write is one step and does not fail: the retries, back-off and
  handlers for failing event publishes, Redis commands and row writes are not modelled. A failing write of a reply to the agent
  and a callback that raises are (`Acp`).
- SUBSCRIBE takes effect when it is issued, and `SET` plus `PUBLISH` of an answer are two steps in that order.
- Runner-side steps take no time in the clarify model: the clock moves only while every runner-side coroutine waits.
- Outside the event log a clock never runs backwards; Redis, runner and API share one clock where a module has a `now`.
- The protocols (Clarify, Turn, Roundtable, WorkQueue, RunnerLock) are modelled on values, as state machines over atomic steps,
  although the source updates dictionaries and Redis keys in place: interleaving at every await is what matters there, and a
  method cannot be interrupted. What that does not capture is aliasing of `acc`, `steps` and `buf` between coroutines.

Not modelled:

- The 600 s lifetime of the clarify request list, malformed requests (dropped after the pop) and requests without an id.
- The legacy half of `clarify_protocol == "dual"` and native `confirmation_request` updates.
- Failed single-agent turns: `_fail` stores an error text that is never sent as tokens.
- The bundled `useStream` client reconnects without Last-Event-ID; exact continuation is proved for readers that send it, and
  agreement at done for any reader that holds the message.
- Counters and side effects of the chat handlers that touch no message or question: usage, session titles, notifications, the
  file panel; paging of older messages.
- The semaphore on concurrent work, the control stream, signals, the wait limit on draining.
- Permission path extraction in `_dispatch`: the path and content found, and whether the path lies inside the working directory,
  are parameters; ids that JSON compares equal to an integer (`1.0`, `true`) are not modelled. A message is handled in one step:
  what other coroutines do while a callback runs happens before or after it.
- Subprocess spawning, stderr, timeouts inside the handshake (its outcomes are parameters) and the `profile_env` fallback.
- Pool calls for one conversation that overlap: the pool's methods run one at a time, as the module's docstring assumes.
- File history for the `minio` backend; file kinds, sizes, authors; the autoflush setting enters as "the row being added is not
  among those the prune selects".
- Runtime changes of the rate limit and monthly counters; a crash between INCR and EXPIRE; real clocks finer than a tick.
- Passwords, signatures and the user table: genuineness and activity are parameters; check and rotation of a refresh token are one step.
- JSON parsing of the agent's consolidation answer, message excerpts, the migration of old preferences, cooldowns and status keys.
- Floating point in trimming, except that a product may fall just below an exact integer; that holds for products below 2^52.
- Symbolic links, Unicode normalisation and NUL characters in paths; `read_upload_capped` (a bounded accumulation loop).
- Conversation lists, forks, RBAC, teams, projects, migrations, LDAP and WeCom, Markdown rendering: easy members or foreign I/O.

Stated weaker on purpose:

- TurnTheorems.AgreementAtDone: speaks of complete and cancelled turns only, because failed turns store a text that is never sent.
- ClarifyTheorems.NoHang: the bound of 59 requests ahead is sufficient for the agent's 300 s of patience; the exact number is not claimed.
- RunnerLock.SingleLeader: the timing of refreshes is a hypothesis, because the heartbeat's sleep has no upper bound in the code;
  `RunnerLock.SingleLeaderIff` has none.
