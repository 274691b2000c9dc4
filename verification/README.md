# AgentAPI: the state it keeps, verified

AgentAPI drives a coding agent over HTTP, and its hub watches many AgentAPIs. This project models the
parts of both that keep state others rely on, in Dafny, and proves what holds of that state whatever
calls, failures, restarts and interleavings there are. Each class here has the fields of the Go struct it
models, and its methods are the code's atomic steps: what runs while a lock is held. Each method is proved
equal to a function on values, and the theorems are about those functions, over every run.

## What is modelled

- **Tasks from messages** (`Tasks`, `TaskFacts`, `TaskTheorems`, `TaskRuns`, `TaskTracker`): the tracker derives
  tasks from a message list that changes. The way that looks only at what changed gives what deriving everything
  gives, in every run; who owns a message, which task runs and what became of a task that is over are invariants.
  `TaskOwners` says which task a message gets and which reply a task has, as the messages say it, and
  `TaskOutcomes` when a task ends and with which outcome, as the agent's statuses say it.
- **The emitter and its clients** (`Conversation*`, `TaskChanges`, `StateStore`, `Replication*`, `Subscriptions`,
  `Emitter*`, `RequestTrimming`, `RequestReplay`): every change of the conversation has a number in an epoch, is
  stored, and goes to subscriptions whose buffers may overflow. A client that was cut off anywhere resumes with its epoch and number.
  `Replication` states what a client can rely on, `EmitterSpec` to `EmitterRestart` that each method keeps it and that
  the database mirrors the memory, `Emitter` is the class, `EmitterRuns` and `EmitterClients` are the convergence
  theorems, `EmitterSessions` joins them to the class's methods; `EmitterStatus` and `EmitterHistory` say what
  the status is to the tasks and what calls leave; `EmitterSummary`, `EmitterSummaryContent`, `EmitterRemovals` and
  `EmitterSummaryRuns` are the summary and its feed.
- **Session logs** (`Json*`, `Log*`): a scanner that reads JSON without parsing it, against a grammar of JSON with any
  whitespace; the decoding of strings, against every way to write one; the reader of a growing file; and the index of
  files, with its accounting of bytes and passes.
- **The hub** (`HubInstances`, `HubStops`, `Deliveries`, `WorkLog`, `WorkTimes`, `WorkStorage`, `Pins`, `FileWriter`):
  where an instance is and when it counts as stopped, while events, failures, summaries and additions interleave;
  which events are copies; how long an instance worked; the pinned ones' order; and the file that is written in the
  background.
- **The server** (`MessageQueue`, `MessageDelivery`, `MessageOrder`, `Updates`, `UpdateOutcomes`): the queue of
  messages, their order, and how each reaches the agent at most once; and the update of AgentAPI that requests and its
  goroutine advance between two locks.

Times are integers (nanoseconds), texts are byte sequences or strings, epochs are numbered in the order they began, and
instance IDs of `Pins` in theirs. Go's lists and maps are `seq` and `map` fields that the methods reassign.

## Where the code does less than it says

- The hub says that an event moves an instance only once its URL is dead (`lib/hub/webhook.go:319-330`).
  `streamFailed` (`lib/hub/watch.go:126-179`) doesn't check that the watch that failed read from the URL the instance
  is at, as `applySummary` (`lib/hub/watch.go:187-215`) does: between the change of the store that moves an instance
  and the call of `watch` that cancels the old watch, the old watch's last failure counts against the new URL, which
  the hub never tried, and the next event moves the instance on. `HubInstances.MoveUndeserved` is that run for any
  three URLs; `HubInstances.DeservedExactly` says that the check is exactly what is missing.
- A message-removing `EmitMessages` returns through `resyncLocked` and leaves the summary unmarked
  (`lib/convstate/events_messages.go:60-72`). `EmitterSummaryRuns.RemovalStaleExactly` says which removals leave the
  subscriptions with a summary that isn't the conversation's. Sending the next summary repairs it, but
  a subscription opened in between stays behind when a change brings the old summary back, since `SubscribeTo` leaves
  the one sent last as it was (`lib/convstate/events.go:646-650`): `EmitterSummaryRuns.OpenedBehind`.
- An event ID that is taken again while the hub remembers it, because its signature expired, keeps its old place in
  the order (`lib/hub/webhook.go:128-131`), so a copy of it can be taken early: `Deliveries.TakenAgainExactly` says
  exactly when.
- What a client holds of the requests after a replay is said to be what a full replay gives
  (`lib/convstate/events_requests.go:43-47`). A request it holds as pending that closed while it was away, and was
  dropped after 50 others closed, stays pending with it: `RequestReplay.ResumesExactly` says that this is the only way.
- A reset forgets the requests that wait but tells no status (`lib/convstate/events.go:486-510`), where any other
  change of their number does (`lib/convstate/events_requests.go:38-40`): until the next status, the one told last
  counts requests that are gone. `EmitterStatus.ResetIsCurrent` says exactly when.
- What a growing log gives its reader depends on how it grew when more than space follows a JSON value on its line, or
  when the line is as long as `MaxLineLength` with no newline yet (`lib/agentlog/index.go:301-351`):
  `LogLines.GrowthMatters` has a read that makes a difference for every such log.

## Model

| member | source | states |
|---|---|---|
| TaskTheorems.MessagesIsDerive | lib/convstate/tasks.go:126-180 | in every state that keeps the tracker's invariant, and for any list that agrees with the last one before from, the incremental way gives the state and the changed positions of the full derivation |
| TaskRuns.FastRunIsSlow | lib/convstate/tasks.go:122-228 | over every run of takes, reports, grace ends, errors, resets and restores, the tracker that looks at what changed ends in the state, and reports the changes, of one that always derives everything |
| TaskRuns.RunKeepsTidy | lib/convstate/tasks.go:96-111 | in every state a run reaches, a task runs exactly when it is the open one, exactly the others know when they ended, no message is in two tasks, what each says of its outcome fits how it ended, and every user message is owned by the task the index names, except between a restore and the next take, when those without a stored task aren't yet |
| TaskRuns.RunLeavesOutcome | lib/convstate/tasks.go:184-228 | a task that is over keeps its status, prompt, errors and limit while it is there, also when messages are taken back and tasks derived again |
| TaskRuns.DeriveMarks | lib/convstate/tasks.go:184-228 | a task at a position that isn't reported changed is one there was |
| TaskRuns.RestoreKeeps | lib/convstate/tasks.go:74-94 | after a restore no task runs, the tasks are the stored ones whose message is there, and the invariant holds |
| TaskTracking.TaskTracker.Take | lib/convstate/tasks.go:126-180 | whatever way it goes, the tracker is as the full derivation leaves it, and its invariant holds; TaskOwners.TakePlaces says whose each new message is then |
| TaskTracking.TaskTracker.DeriveAll | lib/convstate/tasks.go:184-228 | pruning, owning and replying in place compute the derivation |
| TaskTracking.TaskTracker.Report | lib/convstate/tasks.go:322-344 | the tasks, the positions and the need to confirm after a status are those of the status machine, which TaskOutcomes.ReportExactly says in terms of the statuses |
| TaskTracking.TaskTracker.EndAfterGrace | lib/convstate/tasks.go:354-361 | the running task ends if the agent is idle in its grace period, and no other changes |
| TaskTracking.TaskTracker.NoteError | lib/convstate/tasks.go:364-370 | an error is noted in the running task alone |
| TaskTracking.TaskTracker.StartOver | lib/convstate/tasks.go:63-67 | nothing is left of the conversation, and the invariant holds |
| TaskTracking.TaskTracker.TakeBack | lib/convstate/tasks.go:74-94 | the stored tasks whose message is there are taken back, those that ran are over, and the invariant holds for tasks that are disjoint |
| TaskTracking.TaskTracker.TaskAt | lib/convstate/tasks.go:399-411 | the running task, else the latest that started by then |
| Tasks.LatestBy | lib/convstate/tasks.go:405-410 | the latest of the tasks that had started by then, and none exactly when all started later |
| TaskOutcomes.ReportEnds | lib/convstate/tasks.go:322-344 | a status ends the running task exactly when the agent is gone, or is idle and worked until then; it is to be confirmed exactly when the agent is idle, didn't work just before, but was seen working; else the task stays as it is |
| TaskOutcomes.EndedAs | lib/convstate/tasks.go:373-395 | (a lemma of ReportEnds) the outcome of an end: limited when a limit stopped the turn, else completed exactly when there is no error by then, the failure that is tried again included |
| TaskOutcomes.RanExactly | lib/convstate/tasks.go:49-51 | over every run, the tracker takes the agent to have worked in the running task exactly when some status since the task began said so |
| TaskOutcomes.ReportExactly | lib/convstate/tasks.go:316-344 | over every run, whether a status ends the running task, with which outcome, and whether an end is to be confirmed, as it follows from the statuses since the task began |
| TaskOutcomes.OutcomesFit | lib/convstate/tasks.go:372-395 | over every run, a task is limited exactly when it has a limit, which came after it started; one that completed has no errors and one that failed has some; exactly one that runs has no end |
| TaskOutcomes.GraceEnds | lib/convstate/tasks.go:354-361 | the grace period ends the running task exactly when the agent is idle and was seen working in it |
| TaskOutcomes.ErrorNoted | lib/convstate/tasks.go:364-370 | an error is noted last in the running task, and changes nothing else |
| TaskOutcomes.RestoreEnds | lib/convstate/tasks.go:86-92 | of the stored tasks that are taken back, those that were over are as they were and those that ran end at once |
| TaskOwners.OwnsOne | lib/convstate/tasks.go:232-266 | a user message no task holds is a task of its own that is over, if it was sent before the conversation was resumed; else it joins the running task, unless only its grace period kept that open, which then ends and the message starts a task |
| TaskOwners.TakePlaces | lib/convstate/tasks.go:232-266 | after every take, each user message that no task held is of a task of its own that is over, ended with its reply or itself, if it was sent before the conversation was resumed; else of the running task |
| TaskOwners.TakeGoesOn | lib/convstate/tasks.go:246-262 | the running task goes on with what the user sends, while its own message is there and it isn't in its grace period |
| TaskOwners.TakeStarts | lib/convstate/tasks.go:246-266 | else the first message the user sent since starts the one that runs |
| TaskOwners.RepliesAre | lib/convstate/tasks.go:277-311 | deriving leaves each task with the agent's last message with a text before the next task's message as its reply, if there is one |
| TaskOwners.TakeKeeps | lib/convstate/tasks.go:190-206 | a task is there after a take exactly when the user message that started it is |
| TaskOwners.TaskAtIs | lib/convstate/tasks.go:397-411 | a time belongs to the task that runs, if one does; else to the latest that had started by then, if there is one |
| TaskOwners.PromptIs | lib/convstate/text.go:18-29 | a prompt is the message's text, or its first characters, as many as fit 1024 bytes, and an ellipsis |
| Replication.Reconnects | lib/convstate/events.go:516-618 | a client that can resume, and takes the whole replay, holds the conversation and can resume again |
| Replication.ChangedResumable | lib/convstate/events.go:457-475 | a change makes no client unable to resume, however far it is |
| Replication.CutOffResumable | lib/convstate/events.go:457-475 | wherever among the changes a client that held the conversation is cut off, it can resume |
| ReplicationRuns.RunConverges | lib/convstate/events.go:516-618 | after every run of changes, loads, rebuilds, clears, restarts, deliveries and cuts, a client that reconnects holds the conversation |
| ReplicationRuns.KeepingUpHolds | lib/convstate/events.go:457-475 | over the same runs, a client that took all its open connection has for it holds the conversation without a replay |
| Subscriptions.Subscriptions.Notify | lib/convstate/events.go:457-475 | the event goes to the channels that want it and have room, the others that want it are closed, and every subscription, open or closed, stays gap-free with rising numbers |
| Subscriptions.Subscriptions.Subscribe | lib/convstate/events.go:637-652 | a new channel begins empty after the last change |
| Subscriptions.Subscriptions.EndConversation | lib/convstate/events_messages.go:97-103 | exactly the subscriptions that get the conversation's changes are closed, with what their channels hold |
| Subscriptions.Subscriptions.Unsubscribe | lib/convstate/events.go:671-675 | only that channel is closed, with what it holds |
| Subscriptions.Subscriptions.Receive | lib/convstate/events.go:655-662 | a reader gets the events of its channel in order, also after it was closed |
| Subscriptions.Subscriptions.Yields | lib/convstate/events.go:457-475 | what a subscription yields is a gap-free beginning of the wanted events since it began, up to where the conversation's subscriptions ended, with rising numbers above its replay's |
| StateStore.TasksTruncated | lib/convstate/events_messages.go:59-68 | truncating the stored messages deletes exactly the tasks of those removed |
| StateStore.SameStored | lib/convstate/events.go:239-269 | two conversations that the same rows store agree on every entry clients follow, but for the queue |
| EmitterSpec.StoreTasksMakes | lib/convstate/tasks.go:467-484 | numbering, storing and sending the tasks at the changed positions is a change clients can follow, and leaves memory and database in step |
| EmitterSpec.NotifyStatusMakes | lib/convstate/tasks.go:430-445 | the same of the status and the tasks it ends |
| EmitterSpec.EndIfIdleMakes | lib/convstate/tasks.go:354-361 | the same of the end of the grace period |
| EmitterSpec.EmitErrorMakes | lib/convstate/events_status.go:203-223 | the same of an error |
| EmitterSpec.UpsertRichMakes | lib/convstate/events_messages.go:186-224 | the same of a rich message, put or merged |
| EmitterSpec.MergeBrings | lib/convstate/events_messages.go:226-241 | merging brings every incoming block by its key, and nothing else |
| EmitterSpec.MergeTwice | lib/convstate/events_messages.go:226-241 | blocks that come again change nothing |
| EmitterSpec.ChangedThen | lib/convstate/events.go:457-475 | changes after changes are changes, of which later ones bring back nothing that was left out |
| EmitterOps.LoadRichMakes | lib/convstate/events_messages.go:149-168 | loading a session's messages is a change, sent one by one or not |
| EmitterOps.SetQueueMakes | lib/convstate/queue.go:22-35 | a newer version of the queue is a change under the next number, an older one changes nothing |
| EmitterOps.EmitRequestMakes | lib/convstate/events_requests.go:11-41 | a request's state, the requests it trims and the status are one change that leaves out exactly the keys trimmed, in memory and database |
| EmitterOps.DropNext | lib/convstate/events_requests.go:48-59 | each position less those dropped before it is the entry that was to go, in both lists |
| EmitterOps.DropData | lib/convstate/events_requests.go:48-59 | trimming takes exactly the trimmed requests from what clients follow |
| RequestTrimming.ExcessClosed | lib/native/requests.go:53-74 | ascending positions of closed requests beyond 50, each closed no later than any closed one that stays |
| RequestTrimming.TrimmingKeeps | lib/native/requests.go:45-48 | every pending request stays, and of the closed ones 50, or all when there are fewer |
| RequestReplay.KeptIsTrim | lib/convstate/events_requests.go:43-59 | the list without the positions dropped has exactly the pending requests and the closed ones that fewer than 50 closed after |
| RequestReplay.ServerIsTrim | lib/convstate/events_requests.go:43-59 | when closed requests stay as they closed, trimming after every put holds what trimming all that were ever put would |
| RequestReplay.ListIsServer | lib/convstate/events_requests.go:11-41 | that is what the emitter's list has, put by put |
| RequestReplay.ResumesExactly | lib/convstate/events_requests.go:43-47 | a client that keeps the same bound, was away and takes the replay holds exactly the server's requests exactly when the server dropped none that it holds as pending |
| EmitterMessages.MoreMessagesMake | lib/convstate/events_messages.go:18-77 | when no message was removed, the changed messages and then their tasks are a change clients can follow, and the database mirrors it |
| EmitterMessages.FewerMessagesRebuild | lib/convstate/events_messages.go:54-93 | messages that are taken back give a new epoch and send nothing, and leave memory and database with what is left |
| EmitterRestart.ClearClears | lib/convstate/events.go:486-510 | a reset leaves nothing but the queue, in a new epoch that is told |
| EmitterRestart.RestoreRestarts | lib/convstate/events.go:351-399 | restoring what an emitter stored, in whatever order it is loaded, gives its conversation in the same epoch without the queue; what ran is over under newer numbers, so resume points stay good |
| EmitterReplay.ReplayIs | lib/convstate/events.go:516-618 | the replay's updates are exactly what the conversation holds, of the kinds wanted, that changed after since |
| EmitterReplay.ReplayConnects | lib/convstate/events.go:516-618 | upserting the replay, in its order, gives what a client that connects holds, and its number is the highest in it |
| EmitterReplay.SubscriberHolds | lib/convstate/events.go:637-652 | a client that can resume and takes the replay holds the emitter's conversation, and is told no number above the emitter's |
| Emitter.EventEmitter.EmitMessages | lib/convstate/events_messages.go:18-77 | the state, the database and the events after it are those of the specification, which rebuilds when messages were removed and then ends the conversation's subscriptions |
| Emitter.EventEmitter.EmitRich | lib/convstate/events_messages.go:132-142 | a rich message is put or merged under its ID, belongs to the task it began in, is stored and sent |
| Emitter.EventEmitter.LoadRich | lib/convstate/events_messages.go:149-168 | the messages are sent one by one only when they fit a quarter of the buffers; otherwise the conversation's subscriptions end |
| Emitter.EventEmitter.EmitRequest | lib/convstate/events_requests.go:11-41 | a request that closed before it was known changes nothing; any other is put, the excess is dropped, and the status follows if the number of pending ones changed |
| Emitter.EventEmitter.TrimRequests | lib/convstate/events_requests.go:48-59 | deleting by shifted positions leaves both aligned lists without exactly the positions dropped |
| Emitter.EventEmitter.SetQueue | lib/convstate/queue.go:22-35 | only a newer version of the queue is taken, under the next number |
| Emitter.EventEmitter.EmitStatus | lib/convstate/events_status.go:15-45 | the status is told once if it changed, and doesn't replace a lifecycle that is held; EmitterStatus.StatusEnds says what that is to the running task |
| Emitter.EventEmitter.SetLifecycle | lib/convstate/events_status.go:50-60 | the lifecycle, and whether it is held |
| Emitter.EventEmitter.ReleaseLifecycle | lib/convstate/events_status.go:66-79 | a held lifecycle becomes the one the conversation reported |
| Emitter.EventEmitter.SetLimitStop | lib/convstate/events_status.go:164-172 | the turn a usage limit stopped is told if it changed, with the tasks that end with it |
| Emitter.EventEmitter.SetRetryWait | lib/convstate/events_status.go:176-184 | the turn that waits to be tried again is told if it changed, with the tasks that go on |
| Emitter.EventEmitter.EmitError | lib/convstate/events_status.go:203-223 | the error is sent before the running task that notes it |
| Emitter.EventEmitter.EndIfIdle | lib/convstate/tasks.go:354-361 | the task that ends is stored and sent |
| Emitter.EventEmitter.NotifyStatus | lib/convstate/tasks.go:430-445 | the status is sent before the tasks it ended |
| Emitter.EventEmitter.StoreTasks | lib/convstate/tasks.go:467-484 | the changed tasks get the next numbers in the order reported, in memory and database |
| Emitter.EventEmitter.Reset | lib/convstate/events.go:486-510 | memory and database are empty in a new epoch, which is told, and the emitter stays sound |
| Emitter.EventEmitter.Restore | lib/convstate/events.go:351-399 | the emitter is as the specification restores it, and sound when the database is what a sound emitter stored |
| Emitter.EventEmitter.SubscribeTo | lib/convstate/events.go:637-652 | the replay is full exactly for another epoch, since 0 or a number above the emitter's; it is the specification's, its number is the highest in it and not above the emitter's, and the new channel is empty |
| EmitterRuns.EmitterConverges | lib/convstate/events.go:516-652 | after any calls to the emitter, restarts included, and any connections, deliveries and cuts, a client that subscribes with the epoch and number it is at, and takes the replay, holds the emitter's conversation |
| EmitterClients.CallGoes | lib/convstate/events.go:457-475 | each call to the emitter is, to a subscription, a change, an end or a clear of the protocol |
| EmitterClients.SubscriberConverges | lib/convstate/events.go:637-652 | a subscription's client that took any beginning of what it wants of what the calls told can resume, and holds the conversation once it took all |
| EmitterClients.EverySubscriptionConverges | lib/convstate/events.go:637-662 | for every subscription of an emitter, open, overflowed or ended, and every reader of it, what the reader got lets it resume; one that keeps up with an open one holds the conversation |
| EmitterSessions.Session.EmitMessages | lib/convstate/events_messages.go:18-77 | the method is one of the calls the theorem speaks of, and is added to those since the session began; so is each other method of the emitter |
| EmitterSessions.Session.SubscribeTo | lib/convstate/events.go:637-652 | a subscription changes none of the calls, and begins a session of its own |
| EmitterSessions.Session.Converges | lib/convstate/events.go:637-662 | so, whatever methods of the emitter were called since a subscription was made, what its reader got lets it resume |
| EmitterStatus.StatusEnds | lib/convstate/events_status.go:12-45 | a conversation's status ends the running task exactly when it is stable, no request waits and the agent worked until then, or the server holds that the agent is gone; otherwise the tasks stay |
| EmitterStatus.StableEnds | lib/convstate/events.go:290-302 | with no lifecycle held and no request waiting, what the agent works on ends exactly as the conversation becomes stable |
| EmitterStatus.IdleExactly | lib/convstate/tasks.go:346-349 | the agent counts as idle exactly when the conversation is stable and no request waits |
| EmitterStatus.CallsInform | lib/convstate/tasks.go:430-433 | over any calls, the tracker knows the status as it is, the number of requests that wait included, but for what a reset forgot |
| EmitterStatus.ResetIsCurrent | lib/convstate/events.go:486-510 | after a reset the status told last still is the status exactly when no request waited |
| EmitterStatus.HeldUntilReleased | lib/convstate/events_status.go:47-79 | a lifecycle of restarting, exited or failed stays whatever the conversation reports, until the server sets another or releases it; then it is that of the conversation's last status |
| EmitterHistory.RichTaskStays | lib/convstate/events_messages.go:186-224 | over any calls but a reset, a rich message stays in the task it began in |
| EmitterHistory.RichBegins | lib/convstate/events_messages.go:186-224 | a rich message that names no task begins in the running one, else in the latest that had started by then |
| EmitterHistory.RichTaken | lib/convstate/events_messages.go:186-224 | one that is new, or replaces another, is there as it came; one that adds to another leaves that with the blocks of both |
| EmitterHistory.QueueIsLatest | lib/convstate/queue.go:16-35 | in whatever order its versions are reported, the emitter has the queue of the highest |
| EmitterHistory.LoadFits | lib/convstate/events_messages.go:149-168 | a session's messages are sent one by one exactly when they fit a quarter of a buffer |
| EmitterHistory.RequestTaken | lib/convstate/events_requests.go:11-41 | a request that closed before it was known is nothing; any other is put and told first |
| EmitterHistory.RestoredIsHistory | lib/convstate/events.go:382-398 | after a restart, a user message from before it that no task holds becomes a task that is over |
| EmitterSummary.QuietCall | lib/convstate/summary.go:162-196 | a call that notifies nobody leaves all the summary says as it was, unless it takes messages back |
| EmitterSummaryRuns.StaysUpToDate | lib/convstate/summary.go:162-196 | after every step, a call that takes messages back included, that takes back nothing the summary shows, each open summary subscription got the summary as it is last, and no update repeats what a subscription got before |
| EmitterSummaryRuns.SummariesAreRight | lib/convstate/summary.go:162-196 | after any run from a new feed, every open summary subscription got the summary as it is last, unless messages it showed were taken back and no summary was sent since |
| EmitterSummaryRuns.OpenedBehind | lib/convstate/events.go:637-652 | a subscription opened between such a removal and a change that brings the old summary back is left with one that isn't the conversation's, though the change marked the summary |
| EmitterRemovals.TasksExactly | lib/convstate/tasks.go:184-310 | taking messages back leaves as many tasks with the same last one exactly when none that is gone started a task or was added to the last one, and the agent's last message with a text after its start, of those that stay, is its reply, if there is one |
| EmitterRemovals.RemovalExactly | lib/convstate/events_messages.go:54-93 | and exactly then it leaves all the summary says as it was |
| EmitterSummaryRuns.RemovalStaleExactly | lib/convstate/events_messages.go:60-72 | so exactly then the open summary subscriptions, which are sent nothing, still have the conversation's summary |
| EmitterSummary.SummaryFeed.Unlock | lib/convstate/summary.go:166-181 | a summary is sent only if it was marked, is wanted and differs from the one sent last |
| EmitterSummaryContent.ShowsRequests | lib/convstate/summary.go:68-75 | the summary counts the requests that wait, and shows the one that has waited longest, of those that came at once the one listed first |
| EmitterSummaryContent.NeedsSomeone | lib/convstate/summary.go:85-96 | it asks exactly while a request waits; else it is at its limit, or its agent is gone; else it needs nobody |
| EmitterSummaryContent.ShowsTask | lib/convstate/summary.go:77-81 | it shows the task that came last, unread exactly when that ended after a client looked |
| EmitterSummaryContent.DoneIsUnread | lib/convstate/summary.go:47-98 | while the agent works the last task isn't unread; once the conversation is stable it is over, and unread unless a client looks later |
| JsonScan.QuoteEnds | lib/agentlog/field.go:272-289 | the backward count of backslashes before a quote is even exactly when the forward escape scan ends the string there, for all bytes |
| JsonScan.SkipString | lib/agentlog/field.go:272-289 | it stops where the forward scan of the string does |
| JsonScan.SkipValue | lib/agentlog/field.go:293-332 | it stops where the forward scan of the value does |
| JsonScan.Field | lib/agentlog/field.go:16-50 | the first member with the key, as raw text |
| JsonScan.Members | lib/agentlog/field.go:57-97 | the members in order, until the caller wants no more, and whether the line is one whole object |
| JsonScan.Elements | lib/agentlog/field.go:101-125 | the elements in order, until the caller wants no more |
| JsonTheorems.ValueExact | lib/agentlog/field.go:293-332 | for every value of the grammar in any layout, the scan stops exactly at its end |
| JsonTheorems.ObjectExact | lib/agentlog/field.go:57-97 | for every object of the grammar in any layout, its members and its end are found in order, and the line is whole exactly when only space follows |
| JsonTheorems.ArrayExact | lib/agentlog/field.go:101-125 | for every array of the grammar in any layout, exactly its elements are found, in order |
| JsonTheorems.FieldExact | lib/agentlog/field.go:16-50 | the value found for a key is that of the first member with it, and none is found exactly when no member has it |
| JsonPrefixes.PrefixIsNotWhole | lib/agentlog/field.go:57-97 | no proper beginning of an object that lacks its closing brace passes for a whole line |
| JsonText.Unquote | lib/agentlog/field.go:148-196 | the text of a quoted value, or that it isn't one or must be decoded slowly |
| JsonText.UnquoteRune | lib/agentlog/field.go:201-217 | a hex escape's rune, with the second half of a surrogate pair, and how long it is |
| JsonText.ValidIsText | lib/agentlog/field.go:148-196 | bytes that pass for UTF-8 encode scalar values |
| JsonQuoting.UnquoteInverts | lib/agentlog/field.go:148-240 | for every text of Unicode scalar values and every legal way to write it (RFC 8259, section 7), unquoting gives the text back |
| JsonQuoting.FastIsText | lib/agentlog/field.go:148-196 | whatever unquoting gives without the slow way is UTF-8 of scalar values |
| LogFeed.FeedReader | lib/agentlog/index.go:301-351 | what the reader hears, and how far the file counts as read, are those of the specification by lines, for any slices the buffer gives |
| LogGrowth.GrowthMakesNoDifference | lib/agentlog/index.go:232-277 | however an append-only log grows between its reads, the reader hears what one read of the whole gives |
| LogLines.GrowthMatters | lib/agentlog/index.go:301-351 | for every log that doesn't meet that theorem's condition there is a growth that makes a difference |
| LogLines.FeedIsLines | lib/agentlog/index.go:301-351 | one read hands over the lines of the file in order, until the reader wants no more |
| LogLines.ObjectsHeardOnce | lib/agentlog/index.go:301-351 | however a log of lines that hold a JSON object each grew, the reader hears exactly the objects' texts, each once and in order |
| LogFollower.Follower.Update | lib/agentlog/index.go:232-277 | reading what was appended goes on exactly where the last read stopped |
| LogFollower.Follower.Follow | lib/agentlog/index.go:367-376 | following a log through its growth hears what one read of the last gives |
| LogIndex.LogIndex.Pass | lib/agentlog/index.go:120-125 | a pass has a number above all before, and the counts hold |
| LogIndex.LogIndex.EntryOf | lib/agentlog/index.go:171-189 | a file's entry is the one used last, and a pass marks it |
| LogIndex.LogIndex.Settle | lib/agentlog/index.go:203-229 | what was read is accounted for, and eviction drops loose files, oldest used first and only while over the bounds, until it is within them or none but this is loose |
| LogIndex.LogIndex.EndPass | lib/agentlog/index.go:134-143 | exactly the files that neither this pass nor a later one read are forgotten, and the counts hold |
| HubInstances.Entry.UpsertFromWebhook | lib/hub/webhook.go:275-317 | the instance after an event, and whether it is watched anew, are those of the specification; HubStops.EventTaken and EventRefused say which |
| HubInstances.Entry.Refuses | lib/hub/webhook.go:331-353 | whether the event may not move it, and whether its URL is tried again |
| HubInstances.Entry.Stop | lib/hub/webhook.go:360-376 | only an event of the run the hub knows stops it, and never one added by hand |
| HubInstances.Entry.StreamEnded | lib/hub/watch.go:126-179 | a failure within the grace leaves it connecting, one past it unreachable, and missed heartbeats stopped |
| HubInstances.Entry.TakeSummary | lib/hub/watch.go:187-215 | only a summary from where the instance is, and not stopped, connects it there |
| HubInstances.Entry.AddByHand | lib/hub/hub.go:315-329 | it is connected where it was just read |
| HubInstances.AlwaysOk | lib/hub/webhook.go:275-376 | over every run, a connected instance is where it was confirmed, hasn't failed and nobody else answers; who answers is known only of an unreachable one; a token is that of an instance added by hand, for the URL it was given with, which never counts as stopped |
| HubInstances.ManualStays | lib/hub/webhook.go:334-336 | (a lemma of AlwaysOk) no event, failure or summary moves an instance added by hand or touches its token |
| HubInstances.MovesExactly | lib/hub/webhook.go:331-353 | (a lemma of DeservedExactly) an event moves an instance exactly when it was joined, names another URL and the watch failed where it is |
| HubInstances.MovePreceded | lib/hub/webhook.go:319-330 | a move comes after a noted failure, since which the hub followed the instance at the URL it leaves and read no summary |
| HubInstances.DeservedExactly | lib/hub/watch.go:126-179 | over every run, only dead URLs are left exactly when every failure noted of a joined instance whose URL isn't dead yet is of a watch that reads where it is |
| HubInstances.MoveDeserved | lib/hub/watch.go:126-179 | under that condition up to a move, the failure behind it was read at the URL the instance leaves |
| HubInstances.MoveUndeserved | lib/hub/watch.go:126-179 | without it, for any three URLs there is a run that leaves one the hub never tried |
| HubInstances.StoppedMoves | lib/hub/webhook.go:282-291 | an instance that stopped as an event said moves with the event after its URL failed, and stays when it answered |
| HubStops.EventRevives | lib/hub/webhook.go:275-317 | no instance counts as stopped after an event that says where it is: one that did is tried and watched anew |
| HubStops.EventTaken | lib/hub/webhook.go:293-311 | an event that is taken says where the instance is and of which run; it is watched anew exactly when it moved, is of another run, or was stopped |
| HubStops.EventRefused | lib/hub/webhook.go:282-292 | one that is refused changes nothing but that a stopped instance is tried where it is |
| HubStops.OtherRun | lib/hub/webhook.go:263-270 | the other events of another run say nothing of the instance |
| HubStops.SummaryTaken | lib/hub/watch.go:187-215 | a summary read where the instance is says that it is reached there, and its run; any other says nothing |
| HubStops.LastHeard | lib/hub/webhook.go:305 | over every run of a hub, an instance was last seen at the hub's last word of it |
| HubStops.StoppedExactly | lib/hub/watch.go:140-152 | over every run of a hub, an instance counts as stopped exactly when it said so, or failed three heartbeats or more after the last word of it, and wasn't followed again since |
| HubStops.WatchEnds | lib/hub/watch.go:153-176 | any other failure within the grace has it tried again, one past it makes it unreachable, and so does another AgentAPI's answer, at once |
| HubStops.AddTaken | lib/hub/hub.go:315-329 | one that someone adds is reached where it was added, with its token, and no event moves or stops it |
| HubStops.RestartFollows | lib/hub/store.go:296-312 | a hub that starts again follows each instance where it was confirmed last, or added, but one that stopped |
| Deliveries.Deliveries.Add | lib/hub/webhook.go:122-142 | an ID is refused exactly while it is remembered and its signature holds |
| Deliveries.CopyRefusedExactly | lib/hub/webhook.go:122-142 | a copy of an event taken as a new one, that comes while its signature holds, is refused exactly when fewer than 4096 new ones came since |
| Deliveries.TakenAgainExactly | lib/hub/webhook.go:122-142 | a copy of one taken again while it was remembered is refused exactly when, with those behind its old place already, fewer than 4096 came |
| Deliveries.HoldsExactly | lib/hub/webhook.go:134-137 | an ID is remembered while its signature holds exactly as long as fewer than 4096 new ones came after its place |
| WorkLog.WorkLog.Track | lib/hub/work.go:75-89 | working begins a span, anything else ends the one going on, at when the stream was last heard if that is earlier |
| WorkLog.WorkLog.WorkAt | lib/hub/work.go:45-53 | the sums of the spans' whole seconds in the last day and week |
| WorkLog.WorkLog.Prune | lib/hub/work.go:104-114 | the oldest spans go that ended over a week ago, or are too many |
| WorkLog.RunOk | lib/hub/work.go:75-114 | while time doesn't go back, the spans are sorted, disjoint, not empty, and at most 2000 |
| WorkLog.WorkFits | lib/hub/work.go:45-68 | the day's work is at most a day and part of the week's, which is at most a week |
| WorkLog.ForgettingMakesNoDifference | lib/hub/work.go:104-114 | as long as no week holds more spans than are kept, the work time is that of the whole history, now and later |
| WorkTimes.CoversExactly | lib/hub/work.go:70-89 | the spans of the whole history cover exactly the times between a report that the instance works and the one that it doesn't any more, as far as its stream was heard |
| WorkTimes.WorkTimeIs | lib/hub/work.go:45-68 | the work time of the day and of the week is the time at which the reports say that it worked, but for less than a second of each span, as long as no week holds more spans than are kept |
| WorkStorage.StoringMakesNoDifferenceExactly | lib/hub/work.go:135-169 | a log without a span going on answers the same after it was stored and loaded, now and at every later time, exactly when each span that began within the week is of whole seconds or within one second, and of each older one less than a second of broken time is left |
| WorkStorage.StoringMakesNoDifference | lib/hub/work.go:135-169 | so does every log of whole seconds |
| WorkStorage.LoadedFits | lib/hub/work.go:152-169 | whatever spans a file has, the log loaded of it is sorted and answers with times that fit the day and the week, if the span going on began after the others ended |
| WorkStorage.ClosedSortedExactly | lib/hub/work.go:164-167 | the span going on keeps the log sorted exactly when it began after the others ended, or is empty |
| WorkLog.LoadLog | lib/hub/work.go:152-169 | a span going on ended when the file was last kept, and what is out of order is left out |
| Pins.Store.Pin | lib/hub/store.go:412-457 | pinning puts an instance last and numbers the pins from 1; one that is pinned stays |
| Pins.Store.Unpin | lib/hub/store.go:412-457 | unpinning keeps the others' order, numbered from 1 |
| Pins.Store.Create | lib/hub/store.go:412-457 | an instance that is added, and a change of another kind, leave the order as it was |
| Pins.Store.Remove | lib/hub/store.go:461-477 | forgetting keeps the others' order, numbered from 1 |
| Pins.Store.SetPins | lib/hub/store.go:519-549 | the order becomes ids exactly when they list each pinned instance once; otherwise nothing changes, and an unknown ID is named |
| Pins.Store.NumberPins | lib/hub/store.go:494-503 | the pins are 1 to their number in the order they were, and exactly those whose pin changed are returned |
| Pins.OrderUnique | lib/hub/store.go:481-490 | by pin and then by ID there is one order |
| Pins.SameElements | lib/hub/store.go:532-535 | comparing the lists once they are sorted says exactly whether they have the same elements |
| Sorting.SortedUnique | lib/hub/store.go:532-535 | (a lemma of SameElements) lists with the same elements are equal once sorted |
| FileWriter.Persister.Mark | lib/hub/persist.go:54-62 | a change is pending, and the goroutine nudged |
| FileWriter.Persister.TakePending | lib/hub/persist.go:83-93 | a flush takes what is pending, once |
| FileWriter.Persister.Finish | lib/hub/persist.go:98-112 | a write that failed leaves the change pending |
| FileWriter.NoLostChange | lib/hub/persist.go:54-120 | in every interleaving: with nothing pending and no flush under way the file has the last change; a flush or close that returned without an error left the file with all there was when it was called; and a pending change that no write of failed is on its way until closing |
| FileWriter.NeverOlder | lib/hub/persist.go:83-113 | the file never goes back |
| FileWriter.FailedIsPending | lib/hub/persist.go:98-107 | (a lemma of NoLostChange) a failed write leaves the change pending, and its caller isn't told that it is kept |
| MessageQueue.MessageQueue.Push | lib/httpapi/queue.go:80-91 | the message is queued, first or last, under an ID above all before; MessageOrder.PushJoins says where |
| MessageQueue.MessageQueue.Update | lib/httpapi/queue.go:116-126 | only the content of the message with the ID changes, if it is queued |
| MessageQueue.MessageQueue.Remove | lib/httpapi/queue.go:130-140 | only the message with the ID leaves, if it is queued |
| MessageQueue.MessageQueue.Reorder | lib/httpapi/queue.go:144-167 | it succeeds exactly when the IDs list every queued message once, and the queue is then in their order; otherwise nothing changes |
| MessageQueue.OrderedOk | lib/httpapi/queue.go:144-167 | a reordered queue has exactly the messages it had, in the order of the IDs |
| MessageQueue.MessageQueue.Failed | lib/httpapi/queue.go:171-180 | the failures in a row of the message |
| MessageQueue.MessageQueue.Restore | lib/httpapi/queue.go:192-200 | IDs go on from the highest there was |
| MessageDelivery.DispatchNext | lib/httpapi/queue.go:301-344 | the head leaves when the agent took it, may have it, or refused it for the fifth time, and stays otherwise |
| MessageDelivery.SteerQueued | lib/httpapi/native.go:333-357 | the message leaves when the turn took it or may have it, and stays otherwise |
| MessageDelivery.CreateMessage | lib/httpapi/native.go:113-172 | how a message that comes in goes out or waits |
| MessageDelivery.PostedOnce | lib/httpapi/native.go:113-172 | it reaches the agent at most once, waits only if it didn't, and its sender is told that it arrived exactly when the agent said so |
| MessageDelivery.AtMostOnce | lib/httpapi/queue.go:301-344 | over every run of pushes, edits, orders, deletions, clears, steers, ticks and restarts, a queued message reaches the agent, or may have, at most once; each is queued or has exactly one fate; and one that is dropped was refused five times |
| MessageDelivery.NeverReused | lib/httpapi/queue.go:80-91 | a message is queued under an ID no message ever had |
| MessageDelivery.FatesStay | lib/httpapi/queue.go:130-140 | what became of a message never changes |
| MessageOrder.PushJoins | lib/httpapi/queue.go:79-91 | a message that is pushed is behind all that are queued, or with front before them, and those keep their order |
| MessageOrder.StepKeepsOrder | lib/httpapi/queue.go:79-167 | only a new order changes which of two queued messages is ahead |
| MessageOrder.FirstComeFirstServed | lib/httpapi/queue.go:301-344 | over every run in which nobody reorders the queue, a message is sent only once all that were queued before it are gone, and never again once a later one was |
| MessageOrder.RefusedFiveTimes | lib/httpapi/queue.go:333-343 | the head stays until it was refused five times, whenever the agent was busy in between, and goes with the fifth |
| MessageOrder.SteeredOnly | lib/httpapi/native.go:333-357 | a queued message leaves for the turn exactly when that took it or may have; the others stay in order |
| MessageOrder.PostedInTurn | lib/httpapi/native.go:113-172 | a message goes straight to the agent only past an empty or held queue; one that waits is last, or first when it interrupts; it fails exactly when the agent refused it |
| MessageOrder.VersionRises | lib/httpapi/queue.go:79-167 | whatever changes the queue raises its version |
| Updates.Updater.Advance | lib/httpapi/update.go:242-254 | only the run under way moves the state, and the queue is held as the state says |
| Updates.Updater.End | lib/httpapi/update.go:257-272 | only the run under way ends the update |
| Updates.Updater.PostUpdate | lib/httpapi/update.go:314-352 | one update at a time; a request to hurry marks the run under way |
| Updates.Updater.DeleteUpdate | lib/httpapi/update.go:486-504 | the run is cancelled unless it restarts |
| Updates.Coordinated | lib/httpapi/update.go:223-272 | over every interleaving: a run exists exactly while the state says so, the queue is held exactly while it waits or restarts, updating implies restarting, no run is both cancelled by a request and begun, and without "now" one begins only where it saw the agent idle under the server's lock |
| Updates.OneRestarts | lib/httpapi/update.go:472-483 | two runs never restart the server at once |
| Updates.CancelledDoesNothing | lib/httpapi/update.go:242-254 | a run that was cancelled changes no status any more |
| UpdateOutcomes.FailedExactly | lib/httpapi/update.go:257-272 | over every interleaving, the update counts as failed exactly when the last one under way failed and nobody asked for another or cleared it since |
| UpdateOutcomes.RequestsAnswered | lib/httpapi/update.go:314-352 | a request begins an update exactly when none is under way and nothing keeps it from it; one to cancel ends the one under way unless it restarts |
| UpdateOutcomes.BeginsWhenIdle | lib/httpapi/update.go:432-483 | a run that restarts the server saw the agent idle under the server's lock, or a request to restart at once came while it was under way |
| UpdateOutcomes.GoesThrough | lib/httpapi/update.go:375-430 | with the agent idle, a run goes from its request over the download to the restart, with the queue held |
| UpdateOutcomes.WaitsForAgent | lib/httpapi/update.go:432-470 | with the agent at work it waits, with the queue held, and looks again |

## Left out

- LogFeed.LineRead: trims ASCII white space only; Go's TrimSpace also trims U+0085, U+00A0 and other Unicode spaces.
- LogFollower.Follower.Update: models a log that only grows; a log that shrank or was rewritten, and the check of its last 64 bytes, are not modelled.
- JsonText.Unquote: what `unquoteSlowly` decodes (bytes that aren't UTF-8, unpaired surrogates) is only said to need the slow way; raw control characters are not rejected, as in the code.
- Emitter.EventEmitter.EmitMessages: asks that IDs are positions and that a message keeps its role and time, which the conversation guarantees (lib/conversation/conversation.go:64).
- Replication.Reconnects: a client may hold requests that the server let go, since trimming sends no event; all else is exact, and RequestReplay says what the requests are for a client that trims too.
- EmitterRuns.EmitterConverges: epochs are numbered in the order they began, where the code draws random ones that are taken to be new; after a reset or a restart the queue counts as not of the conversation until its own change, which `forgetConversationLocked` makes next.
- Emitter.EventEmitter.Restore: is sound for what an emitter stored; for other databases it is only equal to its specification. It is called before anyone subscribes.
- EmitterSummaryRuns.StaysUpToDate: the session's name, usage and a required login are not in the summary; the title follows from the task's prompt.
- HubStops.StoppedExactly: is for the run of one hub; HubStops.RestartFollows says what a restart of the hub keeps.
- TaskOutcomes.RanExactly: the messages of each take have IDs of their own, which the conversation guarantees.
- WorkTimes.WorkTimeIs: a span going on counts from when it ends, as in the code; the page adds it.
- HubInstances.AlwaysOk: one instance; groups, mutes, the summary's content, errors shown and the work log's part in a change of the store are left out.
- Updates.Coordinated: the check, the download and the version are outcomes; requests that were stopped early for `--allow-update` or a blocked program change nothing.
- MessageDelivery.AtMostOnce: a restart finds the queue as it was last stored; AgentAPI being killed between a send and the store of the queue is not modelled.
- Pins.Store.Pin: fewer instances are pinned than the largest integer, which stands for the last place.
- WorkStorage.StoringMakesNoDifferenceExactly: is for a log without a span going on; one that was going on ends when the file was last kept.
- WorkStorage.LoadedFits: a file whose open span begins before another one ended isn't sorted when it is loaded, as in the code.
- Deliveries.CopyRefusedExactly: counts the arrivals of other IDs that come while the signature holds; the IDs' file and the checks of a delivery's body and signature are left out.
- EmitterRemovals.TasksExactly: is for a tracker that has derived its tasks since a restore; before that, the user messages without a task get one too.
- RequestReplay.ResumesExactly: a request that closed isn't put again; one that the agent opened again under its ID may be missing where others were dropped.
- The errors' replay, session events, content shared between messages, handoffs, settings and capabilities of the emitter.
- The order in which Go goes through a map of channels: subscriptions are independent of each other here.
- The watch's retry timer (lib/hub/watch.go:86-120): whether a failure is within the connect grace is an input.
- Files: inodes, birth times, renames, the state file's JSON and its versions, and the state database, which is taken as the maps that the persister's contract names.
- HTTP handlers, streams, authentication and signatures, the adapters of the agents, spending, uploads, the chat and the command line.
