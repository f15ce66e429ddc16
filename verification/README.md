# The conversation lane, proved

oh-my-claw runs one conversation "lane" per session: a stored transcript becomes the history
of a run, the run talks to a model and to tools, its rows go back into the transcript and its
events to the clients, and a registry of sessions starts and retires the actors behind it.
This project models those parts in Dafny and proves what they promise, for every model answer,
every tool result and every interleaving of the steps that can interleave.

The code that changes things step by step is imperative here, too: the run driver, the run
queue and the session actor, the event log, the transcript and memory stores, the frame writer
and the line buffer are classes whose methods are proved against the values they stand for.
The protocols that interleave (the registry, the compactions, the reminders) are state machines
over atomic steps with an invariant of every reachable state. What the model, the tools, the
clock and the clients do is arbitrary: a `World`, a list of steps, or a parameter.

| file | what it holds |
|---|---|
| `Basics.dfy`, `Sorting.dfy`, `Wording.dfy` | optional values and texts; sorted lists without repetition; splitting and joining words |
| `Messages.dfy` | messages and the pairing rule of tool calls |
| `History.dfy` | stored rows to messages, the budget cut, the repair of broken pairs |
| `Compaction.dfy` | planning what to cut short or drop, and doing it |
| `Agent.dfy`, `Events.dfy`, `Turns.dfy`, `Dialogue.dfy` | the state machine and the loop detector; events, rows and traces; one model turn; what turns tell the model and when they end a run |
| `RunModel.dfy`, `RunDriver.dfy`, `RunResults.dfy` | what a run keeps true; the driver; what holds of every run |
| `Pipeline.dfy` | transcript to run to transcript |
| `RunLog.dfy`, `Resume.dfy` | the ring of events with its subscribers; reconnecting to a run |
| `Lane.dfy`, `Registry.dfy`, `Delivery.dfy`, `Refinement.dfy` | one session's lane; many sessions, clients and evictions; what each step brings about; the one as an abstraction of the other |
| `Transcript.dfy`, `Summaries.dfy`, `Guards.dfy` | the transcript table; compaction by summary, interleaved; one guard per actor, and why that suffices |
| `FullText.dfy`, `Wildcards.dfy` | the two-character index against the pattern match, for terms without and with wildcards |
| `MemoryIndex.dfy`, `QueryTerms.dfy` | the memory table; the terms of a query |
| `Cron.dfy` | reminders under scans, timers, removals and crashes |
| `Base64.dfy`, `SseBuffer.dfy`, `SseStream.dfy`, `Keywords.dfy` | codecs and streams |

## Where the code does less than its comments say

Each of these is a lemma, with the exact condition under which the promise holds, beside a
lemma that shows an input for which it does not.

- A tool message without a call id passes the repair untouched, so the repaired list is well
  paired iff there is none (`RepairPairsIffEveryToolIsTagged`; `UntaggedToolPasses`). Loading a
  history never makes one.
- A tool result that is the empty text is not written, so its call is taken back when the
  conversation is loaded again; of a truncated turn the instruction to go on is not written
  (`ReloadRestoresIffRecorded`; `EmptyResultIsLost`).
- Replaying from the event ring after a reconnect can lose text: iff the ring has evicted text
  since the last mark the client is past, never within 1024 events of it (`Reconnect`;
  `LongReplyLosesText`).
- A hard abort leaves the sinks and logs of the drained turns behind, and only those
  (`OnlyDrainedTurnsLeak`; `DrainedTurnLeaks`). Resuming such a turn is answered with yes
  although it never runs (`ResumedRunSpeaksIffNotDrained`).
- A session loses entries, hiding them without a summary, iff a compaction that landed had
  started while more were visible than a load returns, and no reset came since
  (`LosesIffOverfull`; `TwoEntriesAreLost`).
- A summary is of entries the user has cleared iff a reset came while it was being written
  (`StaleIffResetSince`; `ClearedEntriesComeBack`).
- The index agrees with the pattern scan iff every token of the term comes from two neighbours
  of it that are not wildcards (`IndexIsSupersetIffCovered`; `WildcardsEscapeTheIndex`); without
  wildcards, iff it is not a single letter or digit (`IndexIsSupersetIffIndexable`;
  `LetterEscapesTheIndex`). The terms a message is split into, which are all that is ever
  searched for, are of the good kind (`TermsAreSearchable`).
- A claimed one-shot reminder is lost iff the process crashes before it is sent (`UnsentIffLost`;
  `CrashLosesClaimed`).
- The end of a run is not announced exactly once: twice by the idle watchdog, and not at all,
  though the run counts as completed, if its start reached nobody (`EndIsAnnounced`;
  `SilentStreamEndsTwice`). A time limit adds one more announcement to those made before it
  struck (`TimeoutIsAnnounced`).
- The base64 decoder also takes groups whose spare bits are not zero (`GroupIsCanonicalIff`;
  `TwoTextsForOneByte`).

## Model

| member | source | states |
|---|---|---|
| Messages.AppendPair | crates/oc-server/src/run.rs:258-276 | appending a dispatch and its answer keeps every result behind its call and every call before its result |
| History.MarkPaired | crates/oc-server/src/session.rs:759-777 | the first pass keeps exactly the messages that are not results, and the results right behind the dispatch of their call |
| History.ClearUnanswered | crates/oc-server/src/session.rs:779-793 | the second pass takes the calls off exactly the messages whose next message in the original list does not answer them |
| History.DropOrphanToolMsgs | crates/oc-server/src/session.rs:758-799 | the three passes compute the repair that looks at each message's two neighbours in the original list only |
| History.RepairSettles | crates/oc-server/src/session.rs:752-799 | after one repair, of any list, every tagged result is answered for, every call is answered, no assistant is blank |
| History.RepairFixesExactlySettled | crates/oc-server/src/session.rs:752-799 | the lists the repair leaves alone are exactly the settled ones |
| History.RepairIsIdempotent | crates/oc-server/src/session.rs:752-799 | a second repair changes nothing |
| History.ValidListsAreUnchanged | crates/oc-server/src/session.rs:752-799 | a list the provider would accept, without blank assistants, is not changed |
| History.RepairLosesNothing | crates/oc-server/src/session.rs:752-799 | the spoken text of all messages and the intact call-and-result pairs are the same before and after, in order |
| History.RepairPairsIffEveryToolIsTagged | crates/oc-server/src/session.rs:752-799 | the repaired list is well paired iff no tool message came without a call id |
| History.UntaggedToolPasses | crates/oc-server/src/session.rs:758-777 | one such message, alone, is kept, and the provider would reject it |
| History.EntryToMessage | crates/oc-server/src/session.rs:704-750 | a stored row keeps its text, its role, its calls and the id it answers; only a result without an id becomes marked user text, and a nameless call gets a stand-in name |
| History.RepairRepeatsRows | crates/oc-server/src/session.rs:678-799 | the repaired messages of any rows say, word for word, by whom and in order, what the rows said |
| History.LongerSuffixCostsMore | crates/oc-server/src/session.rs:678-688 | each further entry taken in costs at least one token, so the budget cut is a single place |
| History.BudgetCutIsUnique | crates/oc-server/src/session.rs:678-688 | only one suffix is the longest within the budget that keeps the last entry |
| History.LoadHistory | crates/oc-server/src/session.rs:665-693 | the history is the repair of exactly that suffix, says exactly what its rows say, and is well paired, for any entries whatsoever |
| Compaction.PlanCompaction | crates/oc-core/src/compaction.rs:100-188 | the two loops with their running total compute the two cuts: where the whole first fits, by prefixes |
| Compaction.DropOldest | crates/oc-core/src/compaction.rs:136-178 | the dropped indices are 0, 1, up to the drop cut, pairs whole, in order, each once |
| Compaction.PruneStopIsCut | crates/oc-core/src/compaction.rs:119-130 | results are cut short up to the first point where all fits, or to the end of the movable zone, and not further |
| Compaction.DropStopIsCut | crates/oc-core/src/compaction.rs:136-178 | the drop cut is the first pair-closed place where the rest fits, or all that may move but a straddling call |
| Compaction.DropCutIsUnique | crates/oc-core/src/compaction.rs:136-178 | there is only one such place |
| Compaction.PlannedSizeIsRemaining | crates/oc-core/src/compaction.rs:119-178 | the size read off the plan is the true size of what is left after pruning and dropping |
| Compaction.PlanIsMinimalAndPairClosed | crates/oc-core/src/compaction.rs:95-188 | the plan drops the shortest sufficient pair-closed prefix, asks for a summary of exactly that prefix, and leaves at most the watermark unless no more may move |
| Compaction.PlanSparesTheRecent | crates/oc-core/src/compaction.rs:95-188 | a list that fits is left alone; no index among the last keep_recent is ever pruned or dropped; and if too much is left, every long result before them is cut and all before them dropped, but for a call whose result is among them |
| Compaction.ApplyCompaction | crates/oc-server/src/run.rs:369-435 | the push loop carries out the plan for the calibrated sizes |
| Compaction.CompactedIsSuffix | crates/oc-server/src/run.rs:407-434 | what is sent is a suffix of the list from a pair-closed place, old results possibly cut short |
| Compaction.RecentStayVerbatim | crates/oc-server/src/run.rs:366-435 | the last keep_recent messages, or all there are, are sent verbatim, and every other one, too, unless it is a result cut after four characters a token and marked; a list that fits is sent as it is |
| Compaction.CompactedIsWellPaired | crates/oc-server/src/run.rs:369-435 | fitting a well-paired list into the budget keeps it well paired |
| Agent.AtMostOneEnd | crates/oc-core/src/agent.rs:81-132 | over any events from any state the machine announces an end exactly when it reaches a final state, once, and never leaves it |
| Agent.TurnRunsThrough | crates/oc-core/src/agent.rs:81-132 | from any live state and over any pieces of text: they are passed on in order, and the last event of the turn has the one effect and state it must |
| Agent.DetectLoopCountsTheLast | crates/oc-core/src/tool.rs:109-120 | the early exit on short lists hides no loop: it is one iff the last call occurs often enough |
| Events.PersistStaysOrderly | crates/oc-server/src/run.rs:903-932 | appending the row that completes the text sent and marking it at once keeps every mark exact and every number larger than those before |
| Events.PrefixIsOrderly | crates/oc-server/src/run_log.rs:27-35 | the order of appends and marks holds at every moment of a run |
| Turns.StreamSaysItsText | crates/oc-server/src/run.rs:590-622 | the text deltas sent for a stream join to the text it was assembled to |
| Turns.OneItemGives | crates/oc-server/src/run.rs:590-645 | one item alone gives just its own part and is told as it is, or not at all |
| Turns.StreamsJoin | crates/oc-server/src/run.rs:590-645 | of two streams joined, text, thoughts, arguments and events are joined in order; ids, names and input sizes are those of the later one where it has any |
| Turns.FirstEndDecides | crates/oc-server/src/run.rs:519-730 | the first item that is no part of a reply decides result and closing events of the turn, from what came before it alone; a stream that just ends is a complete reply |
| Turns.TurnSaysItsText | crates/oc-server/src/run.rs:437-732 | a turn sends exactly its assembled text, and announces an end exactly when it is one |
| Turns.ConversationIsWellPaired | crates/oc-server/src/run.rs:197-320 | any sequence of truncated and tool turns keeps a well-paired list well paired |
| Turns.NoLoopStep | crates/oc-server/src/run.rs:286-299 | a call that passes the loop check leaves no call made three times |
| Dialogue.ConversationTells | crates/oc-server/src/run.rs:197-320 | the messages of any turns hold their texts and instructions in order, and each call carried out right before its output |
| Dialogue.CallsAreExchanges | crates/oc-server/src/run.rs:286-299 | what the loop detector looks at are the calls carried out, by name and arguments, in order |
| Dialogue.StopsAtTheLimits | crates/oc-server/src/run.rs:28-42 | a run stops at the third equal call, the 25th tool round, the third truncation, or any end that is neither a call nor a truncation |
| Dialogue.LastReportCounts | crates/oc-server/src/run.rs:628-645 | a request is fitted with the last input size any earlier turn reported |
| RunModel.CutGoesOn | crates/oc-server/src/run.rs:171-252 | a truncated turn leads back to the loop head: text carried over, instruction added, nothing written |
| RunModel.CallGoesOn | crates/oc-server/src/run.rs:253-330 | a carried-out call leads back to the loop head: pair in the messages, rows written, rounds counted |
| RunModel.TurnLands | crates/oc-server/src/run.rs:156-160 | after a turn the text sent is what is written, plus what is carried, plus this turn's text |
| RunDriver.Run.Persist | crates/oc-server/src/run.rs:903-932 | a row is written and marked unless it has neither text nor calls; then all text sent is written |
| RunDriver.Run.ExecuteEffects | crates/oc-server/src/run.rs:770-811 | the effects' events are sent in order, their text is accumulated, and only a start that reached the client goes on |
| RunDriver.Run.ReadItems | crates/oc-server/src/run.rs:519-645 | whatever the pieces of a stream, text, thoughts, call id, name and arguments are put together from all of them in order |
| RunDriver.Run.CloseStream | crates/oc-server/src/run.rs:646-730 | a finish, an error, an abort or the watchdog each lead to their result, state and closing events; a nameless call gets the stand-in name, one without id a fresh one |
| RunDriver.Run.RunModelTurn | crates/oc-server/src/run.rs:437-732 | the request is the fitted conversation; result, text and closing events are those of the stream; state, text and rows stay in balance |
| RunDriver.Run.ContinueAfterCut | crates/oc-server/src/run.rs:198-252 | a truncation leaves the run at the loop head with the text carried, the instruction added and no row written |
| RunDriver.Run.WriteDispatch | crates/oc-server/src/run.rs:253-284 | the dispatch row carries all text held back, also when it is empty, and is written before the tool runs |
| RunDriver.Run.CarryOutCall | crates/oc-server/src/run.rs:300-330 | the tool runs once, its result is written and paired, and the run is at the loop head again |
| RunDriver.Run.ExecTool | crates/oc-server/src/run.rs:735-764 | the client is told of the start, and of the end iff there is an executor |
| RunDriver.Run.HandleTurn | crates/oc-server/src/run.rs:160-330 | whatever a turn returned, the run is over with its outcome and all its events, or at the loop head with one turn more |
| RunDriver.Run.DriveInner | crates/oc-server/src/run.rs:119-333 | the run ends (measure: rounds and truncations left), with requests, rows, tool runs, events and outcome exactly those of the turns that went on and the one that ended it |
| RunResults.EveryRequestIsWellPaired | crates/oc-server/src/run.rs:156-160 | from a well-paired history, every request of the run is well paired, whatever the model answers |
| RunResults.RunIsBounded | crates/oc-server/src/run.rs:28-42 | at most 27 requests, 24 tool runs, and no identical call run more than twice |
| RunResults.EndIsDecided | crates/oc-server/src/run.rs:162-305 | the world decides which turn ends the run: every earlier one had no reason to stop |
| RunResults.WrittenIsPrefixOfSent | crates/oc-server/src/run.rs:903-932 | at every moment the text written is a prefix of the text sent |
| RunResults.CompletedRunIsWritten | crates/oc-server/src/run.rs:162-193 | a completed run has written exactly the text it handed to the client's sink; otherwise exactly the unfinished reply is missing |
| RunResults.BegunRunIsAnnounced | crates/oc-server/src/run.rs:569-577 | of a run that has begun the end is announced once, but twice iff the idle watchdog ended it; success iff the reply was complete |
| RunResults.SilentStreamEndsTwice | crates/oc-server/src/run.rs:569-577 | a run whose first stream stays silent reports two failures |
| Pipeline.RunOn | crates/oc-server/src/session.rs:520-572 | from any stored entries: the run is given the repair of the longest suffix within the budget; its requests, tool runs, rows, events and outcome are those of its world's turns; all requests are well paired, the bounds hold, its end is announced 0, 1 or 2 times as it must be, written text is a prefix of sent text, and all of it if completed |
| Pipeline.EndIsAnnounced | crates/oc-server/src/run.rs:147-193 | the client is told of the end not at all if it never heard the start, twice if the idle watchdog ended the run, and else once; a completed run is announced as a success iff its start was heard |
| Pipeline.TimeoutIsAnnounced | crates/oc-server/src/run.rs:104-117 | cut by the time limit at any moment, a run is announced once more than it was, and its written text is a prefix of its sent text |
| Pipeline.ReloadRestoresIffRecorded | crates/oc-server/src/session.rs:665-750 | stored behind whatever the budget keeps of before, the rows of a whole run give the next one its full conversation and last reply, thoughts aside, iff no turn was truncated, no result empty and no text unwritten; what came before is loaded as before |
| Pipeline.RepairConcat | crates/oc-server/src/session.rs:752-799 | the repair of a list is that of its parts wherever a part does not open with a tool result |
| Pipeline.EmptyResultIsLost | crates/oc-server/src/session.rs:779-799 | of a call made without text whose result is empty the next run sees nothing at all |
| RunLog.EventLog.Push | crates/oc-server/src/run_log.rs:57-66 | the ring keeps the last 1024 events, and everyone who still listens receives the event |
| RunLog.EventLog.Broadcast | crates/oc-server/src/run_log.rs:64-65 | every open subscriber gets the event once and stays; no closed one gets anything |
| RunLog.EventLog.MarkPersisted | crates/oc-server/src/run_log.rs:70-74 | a mark stands at the number of events pushed so far |
| RunLog.EventLog.SubscribeFrom | crates/oc-server/src/run_log.rs:89-118 | the replay is the history from the last mark the client is past, or from the oldest event kept; from then on the subscriber has its slice without gap or repeat |
| RunLog.EventLog.LoseReceiver | crates/oc-server/src/run_log.rs:64-65 | a receiver may go at any time without disturbing the others |
| RunLog.EventLog.FindMark | crates/oc-server/src/run_log.rs:97-104 | the backward search finds the last mark not beyond the client's rows |
| RunLog.LastMarkIsReal | crates/oc-server/src/run_log.rs:97-108 | a replay never starts beyond the events there are |
| Resume.MarksCoverRows | crates/oc-server/src/run_log.rs:68-118 | at every moment and for every number, the events before the mark say what the rows up to that number say, but for one row not yet marked |
| Resume.ResumeIsComplete | crates/oc-server/src/run_log.rs:80-118 | history plus replay is the whole text iff no text lies between mark and replay; only a loaded row that waits for its mark is repeated |
| Resume.ThoughtsSayNothing | crates/oc-server/src/run_log.rs:110-114 | leaving thoughts out of a replay leaves its text as it is |
| Resume.Feed | crates/oc-server/src/sink.rs:49-66 | a log fed by a run holds exactly what was sent, and its marks stand where rows end |
| Resume.Reconnect | crates/oc-server/src/run_log.rs:80-118 | reconnecting at any moment of a run replays what the ring holds since the last mark the client is past and disturbs nobody; with the rows loaded that is the whole text so far iff the events evicted since that mark said nothing, and within 1024 events none are |
| Resume.UnwrittenTextIsLostIffDropped | crates/oc-server/src/run_log.rs:57-66 | of a run that has written nothing a reconnect gives the whole text iff what the ring dropped is no text |
| Pipeline.LongReplyLosesText | crates/oc-server/src/run_log.rs:57-66 | a run whose stream is 1025 pieces of text and a cancellation: a reconnect does not get all of it |
| Lane.RunQueue.Submit | crates/oc-core/src/queue.rs:45-55 | a free queue starts the turn, a busy one queues it, a full one refuses it unchanged |
| Lane.RunQueue.CompleteActive | crates/oc-core/src/queue.rs:58-66 | the oldest waiting turn becomes active, or the queue is free |
| Lane.RunQueue.DrainPending | crates/oc-core/src/queue.rs:69-73 | all waiting turns go, and their number is told |
| Lane.Session.Submit | crates/oc-server/src/session.rs:294-346 | a caller gets an id iff the turn started or waits; a refused turn leaves no trace; the lane stays sound |
| Lane.Session.Abort | crates/oc-server/src/session.rs:347-359 | a hard abort drains exactly the waiting turns; only the active run is cancelled, and only if it is meant |
| Lane.Session.Finished | crates/oc-server/src/session.rs:371-418 | the finished run is settled and the next waiting turn starts with its own sink, after all rows of the one before |
| Lane.Session.Resume | crates/oc-server/src/session.rs:419-429 | a hit iff the run was submitted by a detached client and is active, waiting or drained, and then the log is the one it was submitted with |
| Lane.ResumedRunSpeaksIffNotDrained | crates/oc-server/src/session.rs:419-429 | a run with a log is active or waiting, so still going to speak, iff it was not drained |
| Lane.Session.EvictIfIdle | crates/oc-server/src/session.rs:460-482 | the actor closes iff it has no work and was quiet long enough; then every accepted turn has finished or was drained |
| Lane.Session.RunWrites | crates/oc-server/src/run.rs:903-932 | only the active run writes, into the block of its own turn, and nothing else of the lane's books changes |
| Lane.Session.SummaryLands | crates/oc-server/src/session.rs:405-417 | a background summary may land between any two rows without disturbing the blocks |
| Lane.EveryTurnIsSomewhere | crates/oc-server/src/session.rs:292-418 | each accepted turn has finished, is active, waits or was drained, and only one of these |
| Lane.OneRunAtATime | crates/oc-server/src/session.rs:241-262 | at most one run is alive, the active one; a free lane has no waiting turn |
| Lane.StartsIsSound | crates/oc-server/src/session.rs:520-572 | starting a turn keeps order, blocks, sinks and logs in step |
| Lane.FinishesIsSound | crates/oc-server/src/session.rs:371-402 | finishing a run and starting the next keeps them in step |
| Lane.DrainsIsSound | crates/oc-server/src/session.rs:347-353 | draining keeps the started turns in the order of acceptance |
| Lane.WriteKeepsBlocks | crates/oc-server/src/session.rs:513-519 | the transcript, summaries aside, stays a sequence of blocks in order of acceptance, each opening with its user row |
| Lane.OnlyDrainedTurnsLeak | crates/oc-server/src/session.rs:347-353 | what a free lane still holds is exactly the sinks of drained turns and the logs of detached ones among them |
| Lane.DrainedTurnLeaks | crates/oc-server/src/session.rs:347-353 | two turns, a hard abort, the first ends: the second's sink and log stay |
| Registry.LookupKeepsInv | crates/oc-server/src/registry.rs:73-94 | looking up a session gives its open actor if there is one, and else, only then, spawns and registers one; the other sessions are untouched |
| Registry.HandleKeepsInv | crates/oc-server/src/session.rs:292-484 | handling any command, closing included, answers exactly the clients it concerns and loses no turn |
| Registry.StepKeepsInv | crates/oc-server/src/registry.rs:73-143 | every step of clients, actors, probes and removals keeps the invariant |
| Registry.EveryRunKeepsInv | crates/oc-server/src/registry.rs:73-143 | so it holds in every state of every interleaving |
| Registry.OneOpenActorPerSession | crates/oc-server/src/registry.rs:73-94 | a session has at most one open actor and at most one live run, however many actors it has had |
| Registry.OpenActorsStayRegistered | crates/oc-server/src/registry.rs:116-143 | an eviction never removes an open actor, and the main session is always open |
| Registry.AcceptedTurnsSurvive | crates/oc-server/src/dispatch.rs:188-197 | an accepted turn is with one actor only, and if that has closed the turn has finished or was drained |
| Registry.AcceptanceIsFinal | crates/oc-server/src/session.rs:149-157 | no step takes an acceptance back, so an accepted turn stays with its actor for good |
| Registry.RefusedTurnsNeverRun | crates/oc-server/src/dispatch.rs:188-208 | a request that was refused, or is not answered yet, is in no actor's hands, so a retry runs it at most once |
| Registry.NoClientWaitsForever | crates/oc-server/src/session.rs:474-482 | a waiting client's submit is in the mailbox of an open actor; closing refuses it |
| Delivery.ArrivalFindsActor | crates/oc-server/src/registry.rs:73-94 | whoever asks for a session holds its open, registered actor |
| Delivery.SubmitIsDelivered | crates/oc-server/src/session.rs:149-157 | a submit stands last in the mailbox, once, and its client waits, unless the actor has closed: then, and only then, it is refused |
| Delivery.SubmitIsAnswered | crates/oc-server/src/session.rs:294-346 | a handled submit is accepted iff the lane was free or fewer than the cap waited; it is then active or last in line |
| Delivery.RetryFindsActor | crates/oc-server/src/dispatch.rs:188-208 | a refused client whose actor has closed then holds an open one, once; any other gives up |
| Delivery.NoticesAreDelivered | crates/oc-server/src/session.rs:162-166 | probes, aborts and ends of runs stand last in the mailbox |
| Delivery.ProbeIsAnswered | crates/oc-server/src/session.rs:460-482 | a probe closes the actor iff it is idle and was quiet, and refuses all who still wait for it |
| Delivery.EndIsHandled | crates/oc-server/src/session.rs:371-402 | the end of a run settles its turn and begins the oldest one waiting |
| Delivery.AbortIsHandled | crates/oc-server/src/session.rs:347-359 | a hard abort takes all waiting turns and only those |
| Delivery.RemovalForgetsClosed | crates/oc-server/src/registry.rs:116-143 | a session is forgotten iff its actor has closed |
| Delivery.WaitingIsAnswered | crates/oc-server/src/session.rs:149-157 | once its actor has handled the commands up to its submit, a waiting client has been accepted or refused |
| Delivery.EvictedSessionServesAgain | crates/oc-server/src/dispatch.rs:188-208 | a reachable history: served, idle, evicted, refused, asked again, served by a new actor |
| Refinement.SubmitRefines | crates/oc-server/src/session.rs:294-346 | submitting to the lane is, seen from the registry, the actor's handling of the submit command |
| Refinement.FinishRefines | crates/oc-server/src/session.rs:371-402 | so is the end of a run with the start of the next |
| Refinement.DrainRefines | crates/oc-server/src/session.rs:347-353 | so is a hard abort |
| Refinement.EndRefines | crates/oc-server/src/session.rs:622-637 | a run that is over leaves no run alive in its actor |
| Refinement.ProbeRefines | crates/oc-server/src/session.rs:460-482 | the actor closes exactly where the session closes its mailbox |
| Refinement.AcceptedTurnsAreHeld | crates/oc-server/src/session.rs:292-418 | an accepted turn of the lane is one the registry accounts for |
| Transcript.Store.MaxSeq | crates/oc-store/src/ops.rs:34-40 | the largest number in use is the count of the session's rows |
| Transcript.Store.EnsureSession | crates/oc-store/src/ops.rs:19-26 | creating a session hides nothing, and an existing one keeps its watermark |
| Transcript.Store.AppendEntry | crates/oc-store/src/ops.rs:32-59 | rows of a session are numbered 1, 2, 3, and so on; other sessions are untouched |
| Transcript.Store.ResetSession | crates/oc-store/src/ops.rs:80-94 | all rows so far are hidden, in this session only |
| Transcript.Store.LoadTranscript | crates/oc-store/src/ops.rs:99-134 | the newest visible rows within the limit, oldest first, with their numbers; a negative limit is none |
| Transcript.Store.CompactWithSummary | crates/oc-store/src/ops.rs:145-176 | one summary more, and the watermark moves forward or stays, never back |
| Summaries.BeginCompaction | crates/oc-server/src/session.rs:816-842 | the snapshot is summarized up to the entry before the six most recent, unless it is too short |
| Summaries.FinishCompaction | crates/oc-server/src/session.rs:870-879 | landing a summary on the table is the landing step of the protocol, and other sessions stay as they are |
| Summaries.StepKeepsInv | crates/oc-server/src/session.rs:883-948 | appends, resets, starts and landings in any order keep numbers, watermark and summaries in step |
| Summaries.Run | crates/oc-server/src/session.rs:883-948 | over any steps neither the number of entries nor the watermark decreases |
| Summaries.HiddenStaysHidden | crates/oc-store/src/ops.rs:141-144 | an entry once hidden is never visible again |
| Summaries.CoveredOnce | crates/oc-server/src/session.rs:883-948 | no entry goes into two summaries |
| Summaries.LostIffPassedOver | crates/oc-server/src/session.rs:826-845 | an entry not cleared by the user is hidden without a summary iff a compaction passed over it |
| Summaries.PassesOverIffLimited | crates/oc-store/src/ops.rs:108-116 | a compaction passes over entries iff more are visible than the load returns |
| Summaries.RunningWasStarted | crates/oc-server/src/session.rs:816-842 | the compaction under way has the plan made at the step that started it, but for the resets since |
| Summaries.LandedWasStarted | crates/oc-server/src/session.rs:870-879 | every landed summary was planned at one step and landed at a later one, with none between, and is of cleared entries iff a reset stands between them |
| Summaries.LosesIffOverfull | crates/oc-server/src/session.rs:816-879 | over any steps from the empty session: some uncleared entry is hidden without a summary iff a landed compaction started with more entries visible than a load returns, and no reset came since |
| Summaries.TwoEntriesAreLost | crates/oc-server/src/session.rs:826-845 | ten entries and a limit of eight lose the first two |
| Summaries.StaleIffResetSince | crates/oc-store/src/ops.rs:141-175 | in any run, a compaction started at one step and landed at another puts a visible summary, and its entries had all been cleared iff a reset step stands between; else none was, and exactly those up to its end are hidden |
| Summaries.ClearedEntriesComeBack | crates/oc-store/src/ops.rs:141-175 | eight entries, a compaction, a reset meanwhile: the summary of two cleared entries lands and is visible |
| Summaries.RecentEntriesStay | crates/oc-server/src/session.rs:836-842 | without a reset the six recent entries, all later ones and the summary are visible |
| Guards.NothingIsLeft | crates/oc-server/src/state.rs:30-34 | by the time an idle actor may be evicted none of its compactions is left |
| Guards.TimedStepRefines | crates/oc-server/src/session.rs:460-482 | with a guard per actor, every step, evictions included, is a step of the protocol with one guard or none at all |
| Guards.TimedRunRefines | crates/oc-server/src/session.rs:883-948 | so every run with actors coming and going is a run of that protocol, and only the present actor's guard is ever held |
| FullText.EncodeDoc | crates/oc-store/src/fts.rs:37-42 | the stored text is the folded pairs of neighbours, sorted, each once, joined by spaces, and split into words again gives exactly those |
| FullText.PairsAreTokens | crates/oc-store/src/fts.rs:81-90 | every pair of neighbours that holds a letter or digit gives a token, a single character alone, too |
| FullText.TokensArePairs | crates/oc-store/src/fts.rs:81-90 | and every token comes from such |
| FullText.FoldJoins | crates/oc-store/src/fts.rs:96-103 | folding goes character by character |
| Sorting.SortDedupSorts | crates/oc-store/src/fts.rs:39-40 | sorting without repetitions keeps exactly the elements, in order |
| Sorting.SortedIsUnique | crates/oc-store/src/fts.rs:39-40 | a sorted list without repetitions is determined by its elements |
| Sorting.FirstDifferenceDecides | crates/oc-store/src/fts.rs:39-40 | texts are ordered by their first different character, a text before its continuations |
| FullText.MatchExpr | crates/oc-store/src/fts.rs:44-76 | there is an expression iff there are terms and each has a token; then each part holds its term's tokens |
| FullText.LikeIsOccurs | crates/oc-store/src/ops.rs:570-571 | without wildcards the pattern finds exactly the texts that contain the term, ASCII case aside |
| FullText.OccurrenceIsIndexed | crates/oc-store/src/fts.rs:81-103 | wherever a term of two characters or more occurs, its tokens are among those of the text |
| FullText.IndexIsSupersetIffIndexable | crates/oc-store/src/fts.rs:44-90 | the index misses nothing the pattern finds, on any text, iff the term is not a single letter or digit |
| FullText.LetterEscapesTheIndex | crates/oc-store/src/fts.rs:81-90 | a single letter is in its double, but not among its tokens |
| Wildcards.PlainPairIsFound | crates/oc-store/src/ops.rs:570-571 | whatever the wildcards stand for, two plain neighbours of a pattern stand side by side in the text |
| Wildcards.UnderscoreIsOne | crates/oc-store/src/ops.rs:570-571 | without percent signs a pattern takes one character for each of its own, any for an underscore, ASCII case aside |
| Wildcards.PercentIsAny | crates/oc-store/src/ops.rs:570-571 | a percent sign in front takes any beginning of the text |
| Wildcards.IndexIsSupersetIffCovered | crates/oc-store/src/fts.rs:44-90 | for every term, wildcards included, the index misses nothing the pattern finds, on any text, iff each token comes from two neighbours that are not wildcards |
| Wildcards.PlainIsCoveredIffIndexable | crates/oc-store/src/fts.rs:81-90 | without wildcards that means: iff the term is not a single letter or digit |
| Wildcards.WildcardsEscapeTheIndex | crates/oc-store/src/ops.rs:570-571 | a term with a wildcard, and a text that the pattern finds and the index misses |
| MemoryIndex.MemoryStore.Upsert | crates/oc-store/src/ops.rs:186-224 | a known memory takes the new text and keeps number and tier; a new one gets the next number; the index stays the tokens of the texts |
| MemoryIndex.MemoryStore.Promote | crates/oc-store/src/ops.rs:403-410 | only an episodic memory changes tier; the index needs no change |
| MemoryIndex.MemoryStore.Merge | crates/oc-store/src/ops.rs:426-465 | the target takes the text and the source goes, unless they are one; without a target nothing changes; the index stays in step |
| MemoryIndex.MemoryStore.Delete | crates/oc-store/src/ops.rs:651-664 | the row and its index entry go together, and the answer says whether there was one |
| MemoryIndex.IndexFindsCandidates | crates/oc-store/src/fts.rs:44-90 | for searchable terms every row the pattern finds is found by the index |
| MemoryIndex.CandidatesAreExact | crates/oc-store/src/ops.rs:548-615 | the candidates are exactly the rows of the tier asked for in which some term's pattern finds its text, newest first |
| MemoryIndex.FoundIsCandidates | crates/oc-store/src/ops.rs:548-615 | for searchable terms, and for terms without an expression, rechecking the rows that hold all tokens of some term gives what a full scan gives |
| MemoryIndex.MemoryStore.SearchCandidates | crates/oc-store/src/ops.rs:548-615 | the result is, newest first and under the limit, the rows of the tier that the pattern accepts and that hold all tokens of some term, if every term has tokens; for searchable terms these are the rows of a full scan |
| QueryTerms.Tokenize | crates/oc-server/src/dispatch.rs:527-544 | the terms are exactly the whole runs and the pairs of neighbours between separators, two characters or more, sorted, each once |
| QueryTerms.SeparatorsAre | crates/oc-server/src/dispatch.rs:527-529 | separators are white space and the 32 ASCII punctuation characters |
| QueryTerms.TermsAreSearchable | crates/oc-server/src/session.rs:1060-1079 | the terms of any message have no wildcard and are long enough, so the index misses nothing of them |
| QueryTerms.SearchMessage | crates/oc-server/src/dispatch.rs:461-524 | searching for the terms of a message through the index is a full scan |
| Cron.DueIsExact | crates/oc-core/src/proactive.rs:90-98 | due are exactly the rows whose time has come; unscheduled ones never are |
| Cron.StepKeepsInv | crates/oc-server/src/proactive.rs:51-168 | under scans, timers, removals and crashes each one-shot row is in exactly one place: waiting, removed, claimed, sent once, lost |
| Cron.EveryRunKeepsInv | crates/oc-server/src/proactive.rs:51-168 | so it is in every state of every interleaving |
| Cron.MoveKeepsFates | crates/oc-server/src/proactive.rs:101-168 | deleting the row is the claim: whoever deletes it sends it, everyone else passes |
| Cron.CrashKeepsFates | crates/oc-server/src/proactive.rs:90-100 | a crash loses exactly the claimed rows that were not sent |
| Cron.OneShotsFireAtMostOnce | crates/oc-server/src/proactive.rs:326-346 | a one-shot reminder is sent at most once, and never if a removal succeeded |
| Cron.UnsentIffLost | crates/oc-server/src/proactive.rs:90-100 | a one-shot that is gone, not removed and not in hand was not sent iff a crash lost it |
| Cron.CrashLosesClaimed | crates/oc-server/src/proactive.rs:90-100 | added, claimed by its timer, crashed: the reminder is gone and was never sent |
| Cron.RepeatingRowsSurvive | crates/oc-server/src/proactive.rs:146-159 | at every step, crashes included, a repeating row stays with its old time or the recomputed one, the latter only after sending |
| Cron.MovesDoTheirPart | crates/oc-server/src/proactive.rs:101-168 | each move claims, sends, or writes the recomputed time and goes to the next row, by where the firing stands, and changes nothing else |
| Cron.TimerFires | crates/oc-server/src/proactive.rs:101-168 | a timer left to itself sends its reminder once; a one-shot row is gone, a repeating one stands at its recomputed time |
| Cron.FiringIsWhole | crates/oc-server/src/proactive.rs:101-168 | over any steps but a crash: a job that has left a repeating row had sent it, and then written its recomputed time unless it was removed |
| Cron.RemovalTakesEffect | crates/oc-server/src/proactive.rs:326-346 | a removal takes just the row it names, and counts iff there was one |
| Cron.SentWasPushed | crates/oc-server/src/proactive.rs:121-135 | a firing gets to rescheduling only by sending its reminder |
| Base64.Base64Decode | crates/oc-http/src/adapter.rs:273-305 | the loop with its accumulator decodes the cleaned text group by group |
| Base64.DecodeInvertsEncode | crates/oc-http/src/adapter.rs:272-305 | decoding undoes the encoding of section 4 of RFC 4648, padded or not, whitespace inserted anywhere |
| Base64.SymbolsAreTheAlphabet | crates/oc-http/src/adapter.rs:274-283 | the symbols are the 64 of the alphabet in table 1 of RFC 4648, with their values, and no others |
| Base64.ExamplesOfTheStandard | crates/oc-http/src/adapter.rs:272-305 | the encoding gives the examples of section 10 of RFC 4648 |
| Base64.IgnoredAre | crates/oc-http/src/adapter.rs:285-288 | passed over are padding and the five ASCII white-space characters |
| Base64.DecodeFailsIff | crates/oc-http/src/adapter.rs:285-302 | decoding fails exactly on a bad symbol or a cleaned length of 1 modulo 4 |
| Base64.GroupIsCanonicalIff | crates/oc-http/src/adapter.rs:298-301 | a group is the encoding of its bytes iff its spare bits are zero |
| Base64.TwoTextsForOneByte | crates/oc-http/src/adapter.rs:298-301 | two texts decode to one byte, one of them its encoding |
| SseBuffer.Buffer.Push | crates/oc-llm/src/sse.rs:20-35 | a push yields the payloads of the lines it completes and keeps the rest, which holds no line end |
| SseBuffer.ChunksDoNotMatter | crates/oc-llm/src/sse.rs:20-35 | cutting a stream in two anywhere changes neither payloads nor left-over |
| SseBuffer.Buffer.PushAll | crates/oc-llm/src/sse.rs:20-35 | any number of chunks give what one push of the whole gives |
| SseBuffer.AnyChunking | crates/oc-llm/src/sse.rs:20-35 | two chunkings of one stream give the same payloads |
| SseBuffer.LinesAreRead | crates/oc-llm/src/sse.rs:20-35 | a data line yields its value trimmed, with a carriage return or without; any other line yields nothing |
| SseStream.SseState.EventToSse | crates/oc-http/src/sse.rs:97-242 | each event of the run becomes exactly its frames and moves the connection on accordingly; events of others change nothing but the input size of the session |
| SseStream.OpeningFrames | crates/oc-http/src/sse.rs:170-215 | the first text comes right behind the two opening frames of its item |
| SseStream.EndIsOrdered | crates/oc-http/src/sse.rs:108-162 | the closing frames are numbered on and carry neither text nor an opening |
| SseStream.OpenStreamAgrees | crates/oc-http/src/sse.rs:97-242 | while the run goes on, the frames are numbered 0, 1, 2, the item opens once, before the first text, the text is that of the run's events in order, and nothing is closed |
| SseStream.StreamIsComplete | crates/oc-http/src/sse.rs:97-242 | over any list of events: such frames, and then iff the run has ended its closing frames, once, with all text sent before and the item closed iff it was opened |
| SseStream.EndingIsWhole | crates/oc-http/src/sse.rs:108-162 | the last frames are the item with all the text of the run's events, if there was any, and the whole response with the last input size; or the failure with its code |
| SseStream.StreamSse | crates/oc-http/src/sse.rs:275-310 | the loop yields exactly the values of that stream, framed and split apart again, and stops at the end of the run |
| SseStream.SplitInvertsFraming | crates/oc-http/src/sse.rs:244-266 | splitting framed text gives back exactly the framed values |
| SseStream.RecoveredIffOneLine | crates/oc-http/src/sse.rs:260-266 | a value comes back iff it is one line without a carriage return at its end |
| Keywords.DecodeInvertsEncode | crates/oc-store/src/ops.rs:296-314 | what comes back are the normalized non-empty keywords in order, each still one keyword |
| Keywords.RoundTripIsStable | crates/oc-store/src/ops.rs:296-314 | a second round trip changes nothing |
| Keywords.NormalTwice | crates/oc-store/src/ops.rs:297-300 | normalizing keeps the words of a keyword and does nothing the second time |
| Keywords.KeywordIsKept | crates/oc-store/src/ops.rs:296-305 | a keyword is kept iff there is anything but white space in it, and nothing else of it is lost |
| Wording.WordsLoseNothing | crates/oc-store/src/ops.rs:297-300 | cutting a text into words loses nothing but its white space |

## Left out

- The database itself (files, transactions, the writer thread, reader pool, migrations): tables are sequences and maps, and every store call succeeds and is atomic.
- Sockets, the wire protocol, authentication, the terminal and web clients, configuration, model providers and tools: their answers are the `World` of a run, the steps of a protocol, or parameters.
- JSON: the columns of tool calls are taken as parsed (None where absent or unreadable), and how a frame is written out is not modelled beyond being one line.
- The prompt texts asking a model to go on after a truncation are two distinct stand-in texts; the system prompt, memory injection and intents of a run are not part of its messages here.
- Model streams are finite; a panic, which cuts a run off between two steps without a word, is not modelled, but every property of traces holds of every prefix.
- Events a tool sends while it runs (updates, approvals) and usage broadcasts are not part of the trace.
- RunDriver.Run.Emit: whether an event reaches the client matters only for the start event; a later failure reaches the run as a cancellation in its stream.
- The float watermark and the float calibration of token estimates are an integer and an arbitrary function; sizes are at least 1.
- Lane.Session.Submit: run ids are consecutive numbers in place of time-ordered unique ids, and the capacity of the mailbox is not modelled.
- Lane.Session.Abort: cancelling sets the run's token; how soon the run notices is not modelled.
- Registry.LookupKeepsInv: the lookup is one atomic step, as the second, locked check of the code makes it.
- Guards.TimedRunRefines: a compaction, with its waiting for the store and the scheduler, is taken to be over within less than the 24 hours after which an idle actor is evicted; its model call is cut off after 120 seconds.
- Cron.StepKeepsInv: a scan may pick any rows of its snapshot, due or not; the cron expression evaluator is an arbitrary function.
- FullText.EncodeDoc: the database's own tokenizer is taken to split at what is neither letter nor digit and to leave the folded tokens as they are; character tables are a parameter.
- MemoryIndex.MemoryStore.Promote: importance, origin, keywords, hashes and times of a memory are left out; they play no part in searching.
- SseBuffer.Buffer.Push: the stream is one of characters; decoding bytes chunk by chunk is left out, so chunks are cut at character boundaries.
- Health scans, the stuck-run diagnosis, command risk rules, ranking formulas, the idempotency cache and the ledger: single branches or heuristics that would only add easy members.
