# Verification of the agent services

A Dafny model of the stateful parts of the agent services, and proofs of what they
promise. `dafny verify dfyconfig.toml` checks everything.

What the source changes in place is modelled by classes whose methods change the same
fields, loops included, each proved against a function of the old state, and the main
ones also against what the result must be in terms of the request alone. The results
are lemmas about those functions: about every run of calls, every interleaving of
steps, every chunking of a stream. What cannot be seen from the code (clocks, agents,
tools, the outcome of a write) is an argument, so the results hold whatever it does.

| modules | source | about |
|---|---|---|
| `LearningContract`, `LearningStore` | `agents/learning_contract.py`, `agents/learning_store.py` | the checks on job specifications, and the store of jobs, events and reservations |
| `LearningRuns`, `LearningPaging`, `LearningConcurrency` | the same | runs of calls, paging through a growing log, calls interleaved step by step |
| `TaskQueue`, `TaskRuns`, `TaskTraces`, `TaskProgress`, `TaskOrder` | `agents/main.py`, `agents/coordination/task_queue.py`, `agents/routing/gates.py` | the dispatch of tasks over per-scope locks and wait lists |
| `CheckpointReplay`, `ReplayRuns` | `agents/main.py`, `agents/dev_harness` | replay of recorded tool calls |
| `Approval` | `agents/main.py` | the handshake between a waiting tool call and the approval endpoints |
| `PushToken` | `agents/publish_state.py`, `agents/main.py` | single-use confirm tokens |
| `DockerLogs` | `agents/main.py` | the log demultiplexer |
| `ThinkFilter`, `MarsLoop` | `agents/mars_loop.py` | hiding thoughts, and the solve, verify and correct loop |
| `GpuAdmission` | `agents/learning_resources.py` | fail-closed GPU admission |
| `Buddy` | `agents/kay_service.py` | experience, streaks and achievements |
| `Supervision`, `RepairDaemon` | `agents/daemon_registry.py`, `agents/auto_repair_daemon.py` | failure windows and repair cooldowns |

`Wrappers`, `PyText` and `IntSets` hold what several of them use.

## What turned out not to hold

The code is modelled as it is; where a promise fails, a lemma names the input and
another the exact condition under which it holds.

- Budgets below one second pass their first check and fail the second
  (`LearningContract.SecondPass`), so such a creation is refused by the store.
- A waiting task can be left behind in three ways, and no other: it joins the list
  after the last look at it, the check of a task stopped in between frees the lock, or
  a chat run of a live project frees it; the last two look at no list
  (`TaskRuns.StrandedOnlyByWindows`, with a run of each in `TaskTraces`). Over whole
  runs, a task still waits when all threads have ended exactly when one of these
  happened and it was so ever since (`TaskRuns.NobodyWaitsAtTheEnd`).
- The wait list is not first-in first-out: with handlers that do not overlap it loses
  its order exactly when an ephemeral run ends while another task holds the shared
  scope, over two or more waiting tasks from the first live one on (`TaskOrder.OrderLostIff`, `TaskOrder.EphemeralEndRotates`).
- A replayed tool call runs again exactly when its result was not recorded, because the
  write failed or the last call's history cannot be restored (`ReplayRuns.RunsAgainIff`);
  in the second case it runs on every request (`ReplayRuns.UnrestorableRunsAgain`).
- A denied tool call can come back approved when its id is waited on again before the
  denial is read (`Approval.ReuseMisleads`), and only then (`Approval.ApprovedByOwner`).
- Without EVAL and GETDEL one push preview can be confirmed twice
  (`PushToken.PlainAcceptsTwice`): tokens are conserved over exactly those runs in
  which no confirm deletes the key blindly (`PushToken.RunConservedIff`).
- With GETDEL or DELETE a confirm destroys a newer preview's token exactly when that
  preview fell between its GET and its removal and its token is still in the key
  (`PushToken.ConfirmLoses`, `PushToken.NewerTokenLost`).
- The comment on the log demultiplexer promises a plain decode of whatever does not
  parse cleanly; up to seven bytes behind the last frame are dropped instead
  (`DockerLogs.Demultiplexes`).
- A think tag cut by a chunk boundary is shown (`ThinkFilter.CutTagLeaks`).
- The solver can be rewarded though no check of the last round answered, because
  failing to answer can count as a pass: that is so exactly when, within four rounds,
  the round was not the winner's own check and, in a consensus, errors outnumber timeouts
  (`MarsLoop.RewardWithoutAnswer`, `MarsLoop.SilentVerifierPasses`).
- The final score of the loop is about the text of the last verdict, and the response
  is what the passes of the corrector answered since have made of it. There are such
  passes exactly when the clock ends the loop after a round, or the corrector fails in
  a later pass than its first (`MarsLoop.ScoreIsAboutResponse`, `MarsLoop.LateRunIsUnverified`).
- The cooldown of polled repairs depends on the times that routed repairs of the same
  name carry (`RepairDaemon.CooldownHolds`, `RepairDaemon.EarlierTimeBreaksCooldown`,
  `RepairDaemon.LateRecordRepairsEarly`).

## Model

| member | source | states |
|---|---|---|
| `LearningContract.TerminalIsAbsorbing` | agents/learning_contract.py:36-50 | along any path of allowed steps nothing follows a terminal status but itself |
| `LearningContract.RunningBeforeSettled` | agents/learning_contract.py:41-50 | a path from queued to completed or failed has passed through running |
| `LearningContract.TruncateSeconds` | agents/learning_contract.py:148-153 | the loop over the budget fields truncates exactly the seconds fields, or reports the error |
| `LearningContract.ValidateBudgets` | agents/learning_contract.py:135-169 | which budgets are accepted, that only durations change, to whole seconds, and what an error says |
| `LearningContract.CheckedBudgetsIff` | agents/learning_contract.py:135-169 | exactly the budgets without an unusable member are accepted |
| `LearningContract.SecondPass` | agents/learning_contract.py:148-153 | checking accepted budgets again succeeds exactly when none was truncated to zero |
| `LearningContract.HalfASecondIsRefusedTheSecondTime` | agents/learning_contract.py:148-153 | the concrete budget of 0.5 seconds that passes once and not twice |
| `PyText.StripIs` | agents/learning_contract.py:69-69 | between two blank texts stripping leaves exactly what is between them |
| `PyText.StripKeeps` | agents/learning_contract.py:69-69 | and every text is what stripping leaves of it, between two blank ones |
| `LearningContract.RequireScope` | agents/learning_contract.py:61-72 | a scope is accepted exactly when something is left of it without the white space at its ends, and it is that; without such white space it is the text itself |
| `LearningContract.RequireUuid` | agents/learning_contract.py:75-83 | an identifier is accepted exactly when it parses |
| `LearningContract.OneId` | agents/learning_contract.py:111-116 | what one optional identifier becomes, or its error |
| `LearningContract.NormalizeIds` | agents/learning_contract.py:111-116 | the loop over the optional identifiers normalises all of them or none |
| `LearningContract.ValidateJobSpec` | agents/learning_contract.py:103-132 | exactly when a specification is accepted; its owner, workspace, ids, kind, status, phase, version, budgets and fields afterwards, each from its own part, defaults included; and what an error says |
| `LearningStore.NextIsAfterLog` | agents/learning_store.py:473-479 | on a gap-free log the next sequence number is the one after its last |
| `LearningStore.BackfillRestoresCursors` | agents/learning_store.py:177-185 | the migration gives every job that was logged the cursor of its last event |
| `LearningStore.Store.InitTables` | agents/learning_store.py:177-185 | the UPDATE, row by row: a row with the column default gets the last number of its job's gap-free log, or keeps -1 without one; every other row, and the log and the reservations, are untouched |
| `LearningStore.CreatedIs` | agents/learning_store.py:219-279 | what a creation leaves, in terms of the specification: the job asked for, its first event, and its reservation under its own owner and key; nothing else changes |
| `LearningStore.Store.CreateJob` | agents/learning_store.py:195-246 | the step-by-step transaction leaves that, or the tables as they were |
| `LearningStore.Store.CreateReserved` | agents/learning_store.py:248-279 | the same for the part after the key is reserved |
| `LearningStore.TransitionedIs` | agents/learning_store.py:346-392 | what a transition leaves: every patched field with the patch's value, all others and the identity as they were, the budgets checked or kept, and the event with its stripped kind |
| `LearningStore.Store.TransitionJob` | agents/learning_store.py:316-345 | the locked read, check and write leaves that, or the tables as they were |
| `LearningStore.Store.UpdateRow` | agents/learning_store.py:346-392 | the snapshot edited in place is the old row with the patch and the request applied; a blank event kind rolls the update back |
| `LearningStore.Store.GetJob` | agents/learning_store.py:281-291 | a job is returned exactly when its owner is the given text without white space at its ends |
| `LearningStore.RowsArePage` | agents/learning_store.py:293-314 | rows read in order up to a limit are exactly the owner's first events behind the number, as stored |
| `LearningStore.Store.ListEvents` | agents/learning_store.py:293-314 | such a page, of one to 2000 events as the limit says |
| `LearningRuns.GapFreeLog` | agents/learning_store.py:473-479 | after any run each job's events carry exactly the numbers 0 to its cursor |
| `LearningRuns.EveryJobRecorded` | agents/learning_store.py:219-279 | every job of any run is recorded by exactly one reservation |
| `LearningRuns.LogRebuildsRow` | agents/learning_store.py:356-392 | replaying any job's events over its one creation response gives its status, phase and version, and version minus cursor never changes |
| `LearningRuns.RanBeforeSettling` | agents/learning_contract.py:41-50 | any job created queued and now completed or failed has an earlier running event, and its adjacent logged statuses are equal or allowed |
| `LearningRuns.TerminalForGood` | agents/learning_contract.py:172-180 | in any run a job in a terminal status stays in it, and its version never falls |
| `LearningRuns.VersionWinsOnce` | agents/learning_store.py:346-392 | two transitions of one job never win with the same expected version |
| `LearningRuns.CreatedOnce` | agents/learning_store.py:219-246 | after a creation every later call with its key changes nothing, and gets the first response or a conflict |
| `LearningRuns.NeverPending` | agents/learning_store.py:248-279 | no committed reservation is pending, and two keys never share a job |
| `LearningRuns.FreshCreationSucceeds` | agents/learning_store.py:195-279 | exactly when a checked creation with a new key succeeds, with or without budgets |
| `LearningRuns.CreationOutcome` | agents/learning_store.py:195-279 | for any creation after any run: whether it creates, replays, or fails with which error |
| `LearningRuns.TransitionOutcome` | agents/learning_store.py:316-392 | for any transition after any run: whether it succeeds, or fails with which error |
| `LearningRuns.FieldIsLastSet` | agents/learning_store.py:362-386 | every field of a job has the value given by the last request that set it, by a creation or a successful patch |
| `LearningRuns.BudgetsAreLastSet` | agents/learning_store.py:340-380 | and so have its budgets |
| `LearningRuns.StaysWithItsOwner` | agents/learning_store.py:281-291 | a created job keeps the owner, workspace and kind of its specification for good, and is visible to that owner's scope and to no other |
| `LearningRuns.ExecKeepsInv` | agents/learning_store.py:195-392 | every call keeps the invariant that ties jobs, events and reservations together |
| `LearningRuns.RunsGrow` | agents/learning_store.py:346-392 | later states of a run keep every event, reservation and job of earlier ones |
| `LearningPaging.PageIsSlice` | agents/learning_store.py:293-314 | a page is the part of the log behind the given number, cut at the bounded limit |
| `LearningPaging.PagingIsAPrefix` | agents/learning_store.py:293-314 | pages read one after the other from a growing log make up a prefix of it, without gap or repeat |
| `LearningPaging.PagingOverARun` | agents/learning_store.py:293-314 | the same over any run of the store; as many pages as there are events, read after the job's log stopped growing, complete it, whatever was read before |
| `LearningPaging.ConcurrentPaging` | agents/learning_store.py:293-314 | the same while calls run side by side, each page showing the tables committed when it is read |
| `LearningConcurrency.Serialisable` | agents/learning_store.py:62-75 | under any interleaving of steps, blocks and crashes the committed tables and all outcomes are those of a serial run |
| `LearningConcurrency.OnlySuccessCommits` | agents/learning_store.py:62-75 | only a call that succeeds changes the tables |
| `LearningConcurrency.ConcurrentVersionWinsOnce` | agents/learning_store.py:346-392 | no version of a job is won twice under any interleaving |
| `LearningConcurrency.ConcurrentLogIsGapFree` | agents/learning_store.py:346-392 | the committed log is gap-free under any interleaving |
| `LearningConcurrency.ConcurrentCreatedOnce` | agents/learning_store.py:219-279 | under any interleaving one call with a key creates, the others replay it or conflict |
| `LearningConcurrency.CommittedGrow` | agents/learning_store.py:62-75 | under any interleaving later committed tables keep every event, reservation and job of earlier ones |
| `LearningConcurrency.ConcurrentTerminalForGood` | agents/learning_contract.py:172-180 | a job committed in a terminal status stays in it, and its version never falls |
| `TaskQueue.WithoutRemoves` | agents/coordination/task_queue.py:122-131 | removing a task takes all its copies and nothing else |
| `TaskQueue.Dispatcher.TryAcquire` | agents/coordination/task_queue.py:84-94 | a lock is got exactly when it is free |
| `TaskQueue.Dispatcher.ReleaseLock` | agents/coordination/task_queue.py:97-107 | only its holder frees a lock |
| `TaskQueue.Dispatcher.PopNext` | agents/coordination/task_queue.py:134-141 | the head leaves the list, the rest keeps its order |
| `TaskQueue.Dispatcher.Append` | agents/coordination/task_queue.py:110-119 | a task joins at the end |
| `TaskQueue.Dispatcher.DispatchTaskNow` | agents/main.py:3900-3939 | the method does what its thread's steps do when left alone |
| `TaskQueue.Dispatcher.AdvanceTaskQueue` | agents/main.py:3942-3975 | the recursion ends, with the list's length as measure, where the steps end |
| `TaskQueue.Dispatcher.FinishRun` | agents/main.py:3931-3937 | the end of a run as its steps have it |
| `TaskQueue.Dispatcher.CreateTask` | agents/main.py:4049-4077 | a creation as its steps have it |
| `TaskQueue.Dispatcher.StopTask` | agents/main.py:3788-3798 | a stop as its steps have it |
| `TaskRuns.OnePlace` | agents/main.py:3942-3975 | in every interleaving a task is in at most one place: with at most one thread, or waiting at most once and then with none |
| `TaskRuns.NeverLost` | agents/main.py:4049-4077 | and a task nobody stops is in exactly one: started, with one thread, or waiting once with its arguments kept |
| `TaskRuns.DispatchedOnce` | agents/main.py:3900-3939 | each task is dispatched at most once, and is then in no list and has no pending arguments |
| `TaskRuns.MutualExclusion` | agents/main.py:3900-3939 | of the lock-needing tasks and chats of a scope at most one is between its check and its release |
| `TaskRuns.HeldLockHasHolder` | agents/main.py:3931-3937 | every held lock has a run or a chat in flight that will free it |
| `TaskRuns.CancelledNeverStarts` | agents/main.py:3908-3912 | a task cancelled before its dispatch check never starts, whatever follows |
| `TaskRuns.StrandedOnlyByWindows` | agents/main.py:4053-4077 | a step leaves a waiting task with a free lock and nobody about to look exactly when it joins the list too late, or is the check of a stopped task or the end of a chat that frees the lock |
| `TaskRuns.LeftBehindIff` | agents/main.py:3942-3975 | after any run a scope has a waiting task, a free lock and nobody about to look exactly when such a step stranded it and it was so ever since |
| `TaskRuns.NobodyWaitsAtTheEnd` | agents/main.py:3942-3975 | when all threads have ended no scope is held, and a task waits exactly when it was left behind so; without such a step nobody waits |
| `TaskProgress.HandlerKeeps` | agents/main.py:3942-3975 | a handler that runs without company strands a task exactly when it is the end of a chat run whose scope somebody waits for |
| `TaskProgress.ChatEndKeeps` | agents/routing/gates.py:367-399 | a chat run frees its scope and looks at no list: what that keeps, and exactly when it strands |
| `TaskProgress.NoTaskStranded` | agents/main.py:3942-3975 | over any run of such handlers in which no chat ends over a waiting task, a task waits only while a run or a chat holds its scope |
| `TaskOrder.FinishOrder` | agents/main.py:3942-3975 | the list that the end of a run leaves, and exactly when its order is lost |
| `TaskOrder.OrderLostIff` | agents/main.py:3967-3974 | a handler changes the order of the remaining waiting tasks exactly when an ephemeral run ends, another task holds the shared scope, and two or more wait from the first live one on |
| `TaskOrder.EphemeralEndRotates` | agents/main.py:3967-3974 | five handlers that do so: the tasks 2 and 3 wait, and then 3 and 2 |
| `TaskTraces.Uninterrupted` | agents/main.py:3900-3975 | a thread of the interleaved machine that nobody interrupts does what the methods and handlers promise |
| `TaskTraces.StoppedBeforeCheckStrands` | agents/main.py:3908-3912 | a run thread hands the scope to a task that is stopped before its check; another one waits for nobody |
| `TaskTraces.QueuedTooLateStrands` | agents/main.py:4053-4077 | a run ends between the failed acquire of a creation and its joining the list |
| `TaskTraces.ChatEndStrands` | agents/routing/gates.py:367-399 | a task waits for a chat, which ends and looks at no list |
| `CheckpointReplay.RefusalIffNotRunnable` | agents/main.py:1273-1322 | a replay is let through exactly for the head call, runnable, by its id, and with an administrator in bypass mode; a 403 is always plan mode's |
| `CheckpointReplay.PriorIff` | agents/main.py:1260-1273 | a recorded result is found exactly when there is one |
| `CheckpointReplay.ServeIs` | agents/main.py:1254-1410 | a request runs the head call, records its own output and error flag under the call's name and answers with them, or runs nothing and answers with the first recorded result or a refusal; with every code |
| `CheckpointReplay.Session.Replay` | agents/main.py:1254-1410 | the handler, with its loop over prior results, does that in every branch |
| `ReplayRuns.ExecutionLaw` | agents/main.py:1260-1397 | after any requests the stored row is the original advanced by the recorded results, and every execution was of the next unrecorded call |
| `ReplayRuns.DurableReplay` | agents/main.py:1361-1397 | with durable writes the executions are a prefix of the recorded calls, results and pending calls make up the list, and the session is ready to resume exactly when all have a result in the history |
| `ReplayRuns.ExecutionsAreRequests` | agents/main.py:1361-1367 | every execution over any requests carries the id, output and error flag of the request that ran it, and the recorded name of its call |
| `ReplayRuns.KeptIsAnswered` | agents/main.py:1260-1273 | until the checkpoint is finished a kept result is the answer to every later request for its call, and nothing runs |
| `ReplayRuns.OnlyListedToolsRun` | agents/dev_harness/replay_policy.py:6-33 | over any requests no tool runs but the listed ones, unless its record has a category or flag of its own; in plan mode only those it allows |
| `ReplayRuns.NoCallTwice` | agents/main.py:1260-1273 | a call whose result was recorded never runs again |
| `ReplayRuns.RunsAgainIff` | agents/main.py:1361-1397 | a request that ran a call runs it again exactly when the first execution was not recorded |
| `ReplayRuns.RunsEveryTimeIff` | agents/main.py:1361-1397 | of two or more equal requests all run the call exactly when it is not recorded; otherwise only the first does |
| `ReplayRuns.UnrestorableRunsAgain` | agents/main.py:1368-1384 | with a history that cannot be restored the last call runs on each of any number of requests, and none is recorded |
| `ReplayRuns.ReplayableIffFinishable` | agents/main.py:1276-1322 | some requests bring a checkpoint to its end exactly when every pending call may run, the history restores and no id is shared |
| `ReplayRuns.SerialReplay` | agents/main.py:1198-1215 | concurrent requests behind the session lock leave what serving them one by one leaves |
| `ReplayRuns.ConcurrentExecutionLaw` | agents/main.py:1198-1215 | so no interleaving runs anything but the next unrecorded call |
| `Approval.OneWaitACall` | agents/main.py:2001-2020 | the event and owner maps name the same calls, each entry of one undecided wait and its owner |
| `Approval.OneDecisionAWait` | agents/main.py:1085-1099 | a wait accepts at most one decision, from its owner only |
| `Approval.ApprovedByOwner` | agents/main.py:2001-2021 | under any interleaving a wait returns "approved" only on its own owner's approval, if no denied and unread id is waited on again |
| `Approval.AcceptedWasSent` | agents/main.py:1085-1099 | every accepted decision was sent by the wait's owner for its call while it waited, and says what was sent |
| `Approval.ApprovalWasSent` | agents/main.py:2001-2021 | so a wait that returns approved was sent an approval by its own owner |
| `Approval.ReturnsTheDecision` | agents/main.py:2004-2021 | with distinct ids a wait that is not cut off returns exactly the decision made on it |
| `Approval.ReuseMisleads` | agents/main.py:2001-2021 | the guard is exact: from any reachable state, a wait on such an id by anybody can bring the denied one back "approved" |
| `Approval.Endpoint.DecideCall` | agents/main.py:1085-1099 | approve and deny: who may decide, what changes, which code is returned |
| `Approval.Endpoint.BeginWait` | agents/main.py:2001-2003 | a wait registers its event and owner |
| `Approval.Endpoint.EndWait` | agents/main.py:2016-2021 | a woken wait cleans up and returns its decision |
| `Approval.Endpoint.TimeOutWait` | agents/main.py:2006-2020 | a timeout drops the decision as well |
| `Approval.Endpoint.CutOffWait` | agents/main.py:2016-2020 | a cancelled wait leaves the decision behind |
| `PushToken.ConservedIff` | agents/publish_state.py:12-32 | a step keeps every issued token at exactly one place exactly when it is no blind acceptance |
| `PushToken.RunConservedIff` | agents/publish_state.py:12-32 | a run keeps every issued token at exactly one place exactly when none of its steps is a blind acceptance: no later step makes up for one |
| `PushToken.AcceptedOnce` | agents/publish_state.py:12-30 | with the script or GETDEL each token is accepted at most once and only if issued, so pushes never exceed previews |
| `PushToken.PlainAcceptsTwice` | agents/publish_state.py:31-32 | the plain fallback can accept one token twice |
| `PushToken.ConfirmLoses` | agents/publish_state.py:20-31 | over any run a confirm loses a token exactly when a preview fell between its GET and its removal and its token is in the key; that token, issued after the expected one, is then gone, and GETDEL accepts neither |
| `PushToken.NewerTokenLost` | agents/publish_state.py:26-30 | a run of four commands in which GETDEL destroys a newer token |
| `PushToken.AloneIsTheMethod` | agents/main.py:4223-4236 | the two commands without company do what the method promises |
| `PushToken.Key.Eval` | agents/publish_state.py:12-19 | the script accepts and removes exactly the stored token |
| `PushToken.Key.ConsumePushConfirm` | agents/publish_state.py:5-32 | every kind of client alone accepts exactly the stored token and leaves the key alone otherwise |
| `DockerLogs.SizeRoundTrip` | agents/main.py:7162-7162 | the big-endian size and its four bytes determine each other |
| `DockerLogs.ParseIffFramed` | agents/main.py:7158-7168 | the framing parses exactly when the bytes encode those frames with fewer than eight bytes behind |
| `DockerLogs.Demultiplexes` | agents/main.py:7146-7171 | a framed stream gives its payloads in order, every other input its plain decode |
| `DockerLogs.JoinConcatenates` | agents/main.py:7158-7170 | the text of some frames is their decoded payloads one after the other |
| `DockerLogs.CutStream` | agents/main.py:7158-7171 | a stream cut inside the payload of its last frame is decoded raw; cut inside its header, it is demultiplexed without that frame |
| `DockerLogs.DemuxDockerLogs` | agents/main.py:7146-7171 | the loop computes that |
| `ThinkFilter.MarksInTwo` | agents/mars_loop.py:447-473 | reading a text in two pieces is reading it whole exactly when no tag crosses; otherwise more is left |
| `ThinkFilter.CutTagLeaks` | agents/mars_loop.py:459-473 | a cut tag is left on both sides of the boundary |
| `ThinkFilter.ChunkingIsInvisible` | agents/mars_loop.py:447-473 | for every chunking the stream filter equals the filter of the whole exactly when no tag crosses a boundary |
| `ThinkFilter.SplitConserves` | agents/mars_loop.py:459-459 | the split loses nothing, and its tags are exactly every second part |
| `ThinkFilter.PartsAreMarks` | agents/mars_loop.py:460-473 | handling the parts marks every character but the tags' as the state says |
| `ThinkFilter.HandleChunk` | agents/mars_loop.py:457-473 | the inner loop: events and answer carry the chunk without its tags, in order |
| `ThinkFilter.StreamPass` | agents/mars_loop.py:447-486 | the answer is the shown part of the chunks read before the clock stopped, and the events carry all of them |
| `ThinkFilter.RemovalIsTheFilter` | agents/mars_loop.py:497-498 | removal from the whole text equals the filter exactly when every thought is closed and no closer is stray |
| `ThinkFilter.TwoModesAgree` | agents/mars_loop.py:447-498 | with no cut tag, streaming and non-streaming answers agree exactly for balanced texts |
| `ThinkFilter.ThoughtIsHidden` | agents/mars_loop.py:459-473 | of a text, a thought in tags and another text exactly the two texts are shown |
| `MarsLoop.ClampKeepsRange` | agents/mars_loop.py:115-120 | the clamped counts are in range, and counts in range are kept |
| `MarsLoop.CountsOf` | agents/mars_loop.py:115-120 | drafts, runs and passes each come from their own setting within their own range, none and zero meaning one |
| `MarsLoop.MakeDrafts` | agents/mars_loop.py:192-254 | the drafts made, up to the first late check, and exactly when the solver fails the run |
| `MarsLoop.HeadIsWinner` | agents/mars_loop.py:231-241 | the head of any stable descending sort is the earliest best draft |
| `MarsLoop.WinnerIsBest` | agents/mars_loop.py:231-241 | the winner passes if any draft does, and of those like it none scores higher and none before it as high |
| `MarsLoop.MajorityIs` | agents/mars_loop.py:290-296 | a consensus passes exactly with more passes than fails, and its score is the mean of its votes' |
| `MarsLoop.MajorityRules` | agents/mars_loop.py:290-296 | so its score is one that its votes' bounds allow |
| `MarsLoop.Judge` | agents/mars_loop.py:271-311 | as many checks of that text as there are runs, and the verdict their answers, timeouts and errors come to |
| `MarsLoop.Correct` | agents/mars_loop.py:352-362 | each pass gets what the one before answered, and they stop at the first that does not answer |
| `MarsLoop.Attempt` | agents/mars_loop.py:258-402 | one attempt adds one round and ends the loop or leaves the next text |
| `MarsLoop.RunRounds` | agents/mars_loop.py:258-405 | every verdict is on the last corrected text, how the loop ended, and with which text |
| `MarsLoop.RunIsAsSet` | agents/mars_loop.py:115-120 | the first text is that of the best draft, each round is judged by as many checks as set runs, and exactly the set number of passes lead from one round to the next |
| `MarsLoop.Run` | agents/mars_loop.py:134-426 | the whole run as set, or the result of a failed solver |
| `MarsLoop.ScoreVouchesForResponse` | agents/mars_loop.py:333-402 | a positive solver score means the returned text is the one with the last verdict, which passed, with its score and the reward of its iterations; corrector calls are bounded |
| `MarsLoop.RewardFalls` | agents/mars_loop.py:334-334 | the reward falls with the attempt and is positive exactly for the first four |
| `MarsLoop.RoundPassesIff` | agents/mars_loop.py:271-315 | with which replies of the verifier a round passes, timeouts and errors included |
| `MarsLoop.RewardedIff` | agents/mars_loop.py:333-336 | the solver is rewarded exactly when the last of at most four rounds got such replies |
| `MarsLoop.RewardWithoutAnswer` | agents/mars_loop.py:280-315 | exactly when it is rewarded though no check of that round answered; the final score is then at most 0.7 |
| `MarsLoop.SilentVerifierPasses` | agents/mars_loop.py:309-315 | with one draft and a verifier that never answers every run returns the draft with full reward |
| `MarsLoop.ScoreIsAboutResponse` | agents/mars_loop.py:352-405 | the score is about the text of the last verdict and the response is what the passes answered since made of it; there are none exactly when the loop passed, was exhausted, or the corrector failed in its first pass |
| `MarsLoop.RunIsDetermined` | agents/mars_loop.py:258-405 | the agents determine the rounds, the ending and the response |
| `MarsLoop.LateRunIsUnverified` | agents/mars_loop.py:260-265 | settings and agents with which every run returns a text other than the one its score is about |
| `GpuAdmission.FromMapping` | agents/learning_resources.py:35-86 | the parser with its loop over the GPUs, errors in their order |
| `GpuAdmission.ReadGpusIff` | agents/learning_resources.py:49-69 | the GPU list is read exactly when every entry is sound and none repeats, and the lanes hold exactly its entries |
| `GpuAdmission.ManifestIff` | agents/learning_resources.py:35-75 | which mappings are accepted |
| `GpuAdmission.ErrorsAreSo` | agents/learning_resources.py:35-75 | what an error says is so of the mapping or of one of its entries |
| `GpuAdmission.ParsedIsWellFormed` | agents/learning_resources.py:49-86 | enabled GPUs are mapped and all mapped hosts are allowed |
| `GpuAdmission.ObservedIsSane` | agents/learning_resources.py:98-117 | an accepted observation has its mapping's host, GPU, memory and consumers, identified and sane |
| `GpuAdmission.EligibleIff` | agents/learning_resources.py:172-210 | eligible is the conjunction of all checks, and a negative floor raises exactly where nothing else denies |
| `GpuAdmission.DenialIsFirst` | agents/learning_resources.py:172-210 | a denial names the first check that fails, with its consumer or its floor |
| `GpuAdmission.TighteningNeverAdmits` | agents/learning_resources.py:172-210 | shrinking allowlists, growing deny lists, more consumers, less memory or higher floors never turn a denial into an admission |
| `GpuAdmission.AdmittedWasListed` | agents/learning_resources.py:49-86 | an admitted GPU is an enabled entry of the mapping on an allowed host, not denied, fresh within its age, with its floor of memory free and only its consumers, none of them protected |
| `Buddy.LevelIsGreatest` | agents/kay_service.py:46-51 | the level is the greatest whose threshold is reached |
| `Buddy.LevelsRise` | agents/kay_service.py:151-157 | level and stage never fall with experience, and a level is gained exactly when a threshold is passed |
| `Buddy.NextLevelIsAhead` | agents/kay_service.py:54-57 | the next threshold is ahead until the last level |
| `Buddy.StageCounts` | agents/kay_service.py:60-65 | the stage is the number of milestones reached |
| `Buddy.XpAddsUp` | agents/kay_service.py:149-162 | experience is the initial value and all awards, and the derived fields agree with it |
| `Buddy.NeverDown` | agents/kay_service.py:159-161 | level and stage never fall over a history |
| `Buddy.StreakIsMaximalRun` | agents/kay_service.py:164-174 | the streak is the length of the maximal run of consecutive active days up to the last |
| `Buddy.MaximalRunIsUnique` | agents/kay_service.py:164-174 | and there is only one such length |
| `Buddy.EarnedIff` | agents/kay_service.py:249-281 | an achievement is held exactly when it was deserved after some award |
| `Buddy.LevelBadges` | agents/kay_service.py:263-265 | a level's badge is held exactly while the level is |
| `Buddy.Companion.CheckAchievements` | agents/kay_service.py:249-281 | the loop earns all that is deserved and reports exactly what is new, once |
| `Buddy.Companion.AwardXp` | agents/kay_service.py:147-192 | the new state, when a level was gained, and what was earned |
| `Supervision.TrailingIff` | agents/daemon_registry.py:236-238 | the count is the length of the run of failures at the end of the history |
| `Supervision.Worker.Start` | agents/daemon_registry.py:141-168 | a running worker is left alone, any other counts anew |
| `Supervision.Worker.Stop` | agents/daemon_registry.py:170-184 | only a running worker is stopped, its count untouched |
| `Supervision.Worker.Turn` | agents/daemon_registry.py:232-251 | after each call the count is that of trailing failures, and the worker fails exactly when it reaches the limit |
| `Supervision.Worker.Loop` | agents/daemon_registry.py:224-256 | the loop fails the worker exactly when the trailing failures first reach the limit, at least one |
| `RepairDaemon.CooldownHolds` | agents/auto_repair_daemon.py:336-373 | recorded polled repairs of a service start at least one cooldown apart, if no routed repair of its name carries an earlier time |
| `RepairDaemon.CooldownOfDisjointNames` | agents/auto_repair_daemon.py:336-373 | so they always do when no alert is for a polled name |
| `RepairDaemon.EarlierTimeBreaksCooldown` | agents/auto_repair_daemon.py:501-504 | and from any state a routed repair that does can be followed by one that is too soon |
| `RepairDaemon.LateRecordRepairsEarly` | agents/auto_repair_daemon.py:501-504 | a concrete run of it, with a routed repair recorded after a later polled one |
| `RepairDaemon.FailuresAreTrailing` | agents/auto_repair_daemon.py:375-381 | the count is the run of failed polled repairs at the end, whatever else happens |
| `RepairDaemon.CycleServesEach` | agents/auto_repair_daemon.py:346-398 | a cycle repairs each service exactly if its own check and cooldown ask for it, with that repair's times and success, whatever the checks of others come to |
| `RepairDaemon.Daemon.BeginRepair` | agents/auto_repair_daemon.py:336-344 | a service is repaired exactly when its last repair is a cooldown ago, or there was none |
| `RepairDaemon.Daemon.EndRepair` | agents/auto_repair_daemon.py:371-388 | what is recorded of a repair; the third failure in a row alerts |
| `RepairDaemon.Daemon.Cycle` | agents/auto_repair_daemon.py:346-398 | the loop does that; a check that raises ends only its own turn |
| `RepairDaemon.Daemon.Record` | agents/auto_repair_daemon.py:501-504 | the record of a routed repair, its time included |

## Left out

- White space outside ASCII in `strip()`, the parsing of UUIDs and RFC 3339 times, JSON, hashing, `fnmatchcase` and UTF-8 decoding: abstract or restricted.
- Extra keys of a job specification, the normalisation of null job parameters, event identifiers and time stamps: no claim depends on them.
- Lost connections during a commit, where the caller cannot know the outcome.
- Expiry of the task locks after 45 minutes and the fail-open branches taken when Redis is unreachable: with either, two tasks of a scope can run at once.
- What `stop_task` reads in the run row is an oracle, and so both of its branches are always possible; the other updates of run rows are not modelled.
- A chat run is taken to have an id of its own, not one it resumes; ephemeral chats take no lock and are left out.
- In `TaskRuns` handlers may overlap more than on the one event loop they run on, so its results hold for more runs than the code has; the runs of `TaskTraces` keep to the event loop.
- The checks and repairs of `RepairDaemon` are given by what they answer; no repair of the source raises, and the print of the summary is left out.
- In `CheckpointReplay` a recorded name that is not a string is one case, file changes are not kept, and what a resumed session later does with its checkpoint is not followed.
- In `Approval` the audit records of each decision and the rules for automatic approval: they do not touch the three maps.
- Push tokens are taken to be unique; the audit trail and the pull request itself are not modelled.
- In `MarsLoop` the verifier's reason is part of the corrector's oracle, scores are real numbers without rounding, the sort is any stable sort, and traces and events for the interface are left out.
- Conversion errors of `int(...)` in manifests and observations.
- The two clock readings of one award are taken to fall on the same day. Habits, tips and comments of the companion; the table of achievements is one for all users, as in the source, and histories are those of one user.
- Overlapping loops of a worker that is stopped and started again before its old thread ends.
- The gathering of metrics, the web routes, streaming to clients, the tag splitting in agents/main.py, the routing cascade, memory, preferences and media stores, and everything outside the files above.
