# GoLM: models and proofs

GoLM is a framework for agents on large language models. This project models the parts of it that are
protocols and streaming algorithms, and proves what they keep over all inputs, all interleavings and all
runs. `dafny verify dfyconfig.toml` checks everything.

Each file models one component. Where the Go code changes state step by step there is a class or a method
with the same loops, proved equal to a specification function; the lemmas are about those functions and
about state machines whose steps are the code's critical sections. What comes from outside (provider
answers, tool results, deadlines, cancellation, the order in which others run) is a parameter, so every
statement holds for each choice of it.

| file | component | main results |
|---|---|---|
| `Hermes.dfy`, `CallIds.dfy` | the tag scanner of `provider/hermes`; which of its calls share an id | `StreamingAgreesExactlyWhenTextFits`, `EventsTellTheText`, `PartsAreTheText`, `IdsMeetJustWhenLengthsMeet` |
| `Netbus.dfy` | the hub, its replay ring and the resuming client of `netbus` | `AtMostOnceInOrder`, `ExactlyOnce`, `NothingIsLost`, `OwnEventsStayOut` |
| `Messages.dfy`, `Session.dfy`, `Compact.dfy` | a transcript and its two-phase compaction | `CompactionLosesNothing`, `CompactionKeepsBalance`, `TrimKeepsBalance` |
| `Observe.dfy`, `Agent.dfy` | one batch of tool calls; the reason-act loop | `RunKeepsBalance`, `EndedAccounts`, `RollbackRestores`, `StepGoesOnJustWhen`, `ResultsAreTheirOwn` |
| `Budget.dfy` | the token ceiling several loops share | `NeverOverspent`, `BoundIsMet` |
| `A2A.dfy`, `TaskStore.dfy`, `Broker.dfy` | a task's run and its client; the task store; the event broker | `ClientGetsTheAnswer`, `MessagesAreJoined`, `SettledTaskAnswers`, `FinishedIsFinal`, `BeginEvictsOldestFirst`, `EverySubscriberSeesOneBlock`, `FollowersGetWhatTheySaw` |
| `Index.dfy`, `Search.dfy` | the sidecar index and the stores that search | `HitsAreJustTheSelected`, `IndexHidesNothingExactlyWhenCovered`, `SearchIsExactJustWhenComplete` |
| `Sse.dfy` | server-sent events, written and read back | `WhatIsWrittenIsReadBack`, `LineEndsDoNotMatter` |
| `SessionLocks.dfy` | one lock per session name | `OneHolderOneLock`, `TableHasJustTheUsed` |
| `Rpc.dfy` | call correlation and notification order of JSON-RPC | `CallsAreAnsweredOnce`, `NothingPendingAfterTheEnd`, `NotesRunInOrder` |
| `Tables.dfy` | the bounded conversation and session tables | `EvictionIsFair`, `Sessions.Remember`, `LoopEndsJustWhenTheBusyFit` |
| `PromptCache.dfy` | cache marks in a request | `FourMarksSameText`, `MessagesAreKept`, `ClampKeepsTheLatest`, `SectionsKeepTextAndMarks` |
| `Text.dfy`, `Sequences.dfy` | strings: first occurrence, chunks, decimal numerals; sequences: sorting, counting | |

Findings, where a promise has a limit:

- Streaming finds the calls of the whole text exactly when no call body outgrows the scanner's buffer, and
  no body that is no call ends in one opened past that limit (`Hermes.Fits`). Otherwise some way of cutting
  the text loses or invents a call.
- A tag call's id names the length of the transcript at its request (`provider/hermes/tags.go:171`), so two
  calls of a conversation share an id exactly if their requests had the same length and they the same number
  (`CallIds.IdsMeetJustWhenLengthsMeet`). That cannot happen within a run, or while nothing rewrites the
  transcript; after a trim it can, with both calls in one transcript (`CallIds.IdComesBackAfterATrim`).
- The repository's README promises that the index leaves search results byte-identical
  (`README.md:851-855`). The code cuts words at 64 bytes (`sessionstore/index.go:128-130`), so a search for
  the end of a longer word can miss a session the scan finds: `Indexing.LongWordIsLost` is one such search, and
  `Searching.SearchIsExactJustWhenComplete` says exactly when there is none. A store without words longer
  than 64 bytes is safe.
- `Session.Compact` and `userBoundary` index outside the transcript when asked to keep no message, or fewer
  than none, of a transcript that has some (`Sessions.BoundaryNeedsSomethingKept`). `Trim` guards against
  this itself; for `Compact` only the configuration file's validation does.
- A follower dropped for being slow, and drained before the run is over, is shown the working status marked
  final while the buffer holds it, and no status once it does not
  (`Brokers.DroppedSeeTheEndOnlyOnceItIsOut`); it is told of no failure, whatever the run comes to
  (`Brokers.DroppedEarlySeeNoFailure`). Once the run is over followers fail as it did, but one that missed
  chunks of a run whose result is empty gets only the chunks it saw (`Brokers.FollowersGetWhatTheySaw`).
- A run whose compaction is due and told to keep nothing of its transcript panics (`Agents.CrashesJustWhen`).
- `acp.Agent.remember` ends because the session it is given is idle and the table was within its limit. From
  any table the loop comes within a limit exactly if the busy sessions alone do
  (`Tables.LoopEndsJustWhenTheBusyFit`), so it would not end if the limit were lowered below their number
  while they run.

## Model

| member | source | states |
|---|---|---|
| Hermes.PartsAreTheText | provider/hermes/tags.go:193-225 | calls and the stretches between them, put back together, are the text, and the calls are those of its recursive definition |
| Hermes.ParseCalls | provider/hermes/tags.go:193-225 | the content shows those parts: each call, and each stretch trimmed unless blank; the calls and their number are the text's |
| Hermes.CallsAreNumbered | provider/hermes/tags.go:233-249 | the calls of a turn carry that turn and consecutive numbers |
| Hermes.IdTellsTurnAndNumber | provider/hermes/tags.go:244-248 | two calls have the same id exactly if they have the same turn and the same number in it |
| CallIds.IdsMeetJustWhenLengthsMeet | provider/hermes/tags.go:171-171 | two calls of a conversation share an id exactly if their requests held transcripts of one length and they have one number |
| CallIds.IdsDifferUntilARewrite | provider/hermes/tags.go:171-171 | over any stretch in which nothing rewrites the transcript they differ |
| CallIds.IdsDifferWithinARun | agent.go:569-640 | and so they do within one run |
| CallIds.IdComesBackAfterATrim | session.go:191-204 | three rounds of one call with four messages kept: the third call gets the id of the second, which is still in the transcript |
| Hermes.PartialTag | provider/hermes/stream.go:155-166 | what is held back is the longest proper beginning of the tag that the text ends with |
| Hermes.PartialTagLen | provider/hermes/stream.go:155-166 | the loop from the longest candidate down finds that length |
| Hermes.KeepIsEnough | provider/hermes/stream.go:108-120 | no open tag starts in text let go, whatever arrives next |
| Hermes.StreamConserves | provider/hermes/stream.go:52-153 | for every text and chunking, emitted text with each call put back between its tags is just what was fed |
| Hermes.EventsTellTheText | provider/hermes/stream.go:129-153 | for every chunking the events are text deltas, none empty, and triples of start, arguments and stop; deltas as they stand and each triple written back as a body that parses to its id, name and input make up the text fed, and the triples are the calls streamed, in order |
| Hermes.DeltasAreTheText | provider/hermes/stream.go:129-134 | where no call is announced, the deltas joined are the whole text |
| Hermes.StepKeepsCalls | provider/hermes/stream.go:74-122 | one turn of the loop takes out of the text exactly the calls it emits, if the text fits or nothing follows |
| Hermes.StreamKeepsCalls | provider/hermes/stream.go:52-153 | for a text that fits, any chunking emits the whole text's calls |
| Hermes.OneChunkAgrees | provider/hermes/stream.go:52-153 | text fed in one piece always yields the calls of the whole-text parser |
| Hermes.LongCallIsLost | provider/hermes/stream.go:77-89 | a call past the buffer limit is lost by a cut just short of its end |
| Hermes.LateCallIsFound | provider/hermes/stream.go:77-89 | a body that is no call but ends in one opened past the limit yields it under some cut |
| Hermes.StreamingAgreesExactlyWhenTextFits | provider/hermes/stream.go:52-153 | streaming gives the whole-text parser's calls under every chunking if and only if the text fits the buffer |
| Hermes.Scanner.Round | provider/hermes/stream.go:76-120 | one turn of the loop of drain changes the scanner as the step function says |
| Hermes.Scanner.Drain | provider/hermes/stream.go:74-122 | the loop ends, with the state and events of the drained scan |
| Hermes.Scanner.Feed | provider/hermes/stream.go:52-59 | a chunk is taken in, remembered as seen, and drained |
| Hermes.Scanner.Finish | provider/hermes/stream.go:61-72 | at the end what is pending comes out as text, with its open tag if in a call |
| Hermes.Scanner.EmitCall | provider/hermes/stream.go:136-153 | a body that parses becomes start, arguments and stop events; any other comes back as text with its tags |
| Hermes.Interpret | provider/hermes/tags.go:173-191 | an answer with calls becomes a tool-use turn that shows its parts and holds exactly those calls; one without is left alone |
| Hermes.Stream | provider/hermes/stream.go:20-37 | the events of a streamed answer tell the caller just its text, in deltas and call triples, the deltas alone where there is no call; and the message made of it, whatever text the provider's own message has: where that is the text streamed and fits, its calls are those announced |
| Netbus.Ring.Add | netbus/hub.go:268-281 | ids count up by one and the ring keeps the last of them |
| Netbus.Ring.After | netbus/hub.go:283-293 | the kept events past an id, in order |
| Netbus.Hub.AddSub | netbus/hub.go:138-150 | a new subscriber gets a fresh id and an empty channel, a closed one after shutdown |
| Netbus.Hub.RemoveSub | netbus/hub.go:152-159 | a subscriber goes once and its channel is closed once |
| Netbus.Hub.Broadcast | netbus/hub.go:125-136 | every subscriber of the topic with room gets the event, all others are unchanged |
| Netbus.Hub.Publish | netbus/hub.go:113-123 | the event, its origin "external" if it has none, is added to the ring with the next id, and broadcast |
| Netbus.Handler.Replay | netbus/hub.go:189-203 | the replay writes the ring's events past the last id on topic, and remembers their ids |
| Netbus.Handler.Forward | netbus/hub.go:209-221 | a channel event is written unless it was replayed |
| Netbus.Client.Receive | netbus/client.go:189-198 | an id not above the last is dropped, own events are not shown, the last id advances |
| Netbus.StepKeepsInv | netbus/hub.go:118-121 | every step of publisher, handler and client keeps the invariant the results below rest on |
| Netbus.AtMostOnceInOrder | netbus/client.go:189-198 | over every interleaving, losses included, the bus sees each event at most once, in id order, on topic and not its own |
| Netbus.ExactlyOnce | netbus/hub.go:161-232 | without overflow or late replay the bus has exactly the wanted events from the first fruitful connection up to the last id, and all once nothing is in flight |
| Netbus.NothingIsLost | netbus/hub.go:161-232 | what wire, channel and publisher still owe is exactly every event on topic past what the client has |
| Netbus.LogIsWhatWasAdded | netbus/hub.go:113-123 | over every run the k-th logged event has the topic, payload and origin of the k-th one added, "external" only where it had no origin, and id k |
| Netbus.OwnEventsStayOut | netbus/client.go:189-198 | over every run the bus holds only events as they were added, on the client's topics, and none added under its own name |
| Netbus.WantedAreJust | netbus/client.go:189-198 | the events wanted of a stretch of the log are those on the topics that others added |
| Sessions.BoundaryStartsATurn | session.go:173-188 | a cut starts a user turn and drops something: the last turn that leaves enough, or else the first there is |
| Sessions.BoundaryNeedsSomethingKept | session.go:173-188 | the search leaves the transcript exactly if nothing, or less, is to be kept of a non-empty one |
| Sessions.FindUserBoundary | session.go:173-188 | the two loops find that cut, or none |
| Messages.BalancedPair | agent.go:604-609 | a message with tool uses and its answer keep a transcript balanced |
| Messages.BalancedSuffix | session.go:191-204 | cutting in front of anything but a tool message keeps it balanced |
| Sessions.Session.Append | session.go:136-144 | the messages are added in order, the revision stays |
| Sessions.Session.Trim | session.go:191-204 | the transcript is cut at the boundary, or emptied, under a new revision; or untouched |
| Sessions.Session.DropBefore | session.go:207-219 | the first n messages go, under a new revision |
| Sessions.Session.Rollback | session.go:221-230 | one message past the base is taken back, anything else is left |
| Sessions.Session.SetState | session.go:233-247 | the variable is set under a new revision |
| Sessions.Session.DeleteState | session.go:264-272 | a set variable is removed under a new revision, an unset one changes nothing |
| Sessions.Session.Acquire | session.go:298-298 | one run at a time: it succeeds exactly if nobody holds the session |
| Sessions.SumIsOfEachPart | provider.go:238-250 | a sum of usages is the sum of each of its parts, and its total that of their totals |
| Sessions.TrimKeepsBalance | session.go:191-204 | a trimmed balanced transcript is balanced, a tail of what it was, and starts with a user turn |
| Compaction.OpsEffect | session.go:136-143 | over any run of other operations the revision counts the rewrites, and without one the transcript only grew by what was appended |
| Compaction.CompactionLosesNothing | compact.go:89-135 | whatever falls between the two sections, a compaction goes in exactly if nothing was rewritten, and never slices past the end; the archive is the whole old transcript, the new one the summary, the kept tail and what was appended since |
| Compaction.FailedCompactionChangesNothing | compact.go:111-125 | a failed compaction leaves the session to the others' operations, and each outcome has just its own cause |
| Compaction.SplitKeepsTurnsWhole | compact.go:70-86 | the kept part starts a user turn, or right after one behind a summary |
| Compaction.SplitsJustWhen | compact.go:70-86 | there is a split exactly where there is a cut and, behind a summary, its turn has a kept message next that is neither a user's nor a tool's; and where it is |
| Compaction.CompactionKeepsBalance | compact.go:121-135 | a balanced transcript is balanced after compaction, appends in between included |
| Compaction.Compact | compact.go:89-135 | the method's result and the session it leaves, for every run of operations between its sections |
| Budgets.Budget.Spend | budget.go:34-43 | tokens, calls and lost completions are added up |
| Budgets.Budget.Remaining | budget.go:70-78 | -1 exactly if unbounded, 0 exactly if exhausted, otherwise what is left to the limit |
| Budgets.Budget.IsExhausted | budget.go:81-86 | the ceiling is reached |
| Budgets.NeverOverspent | budget.go:34-86 | n loops that look before a call of cost at most c and book after it spend at most limit - 1 + n * c, in every reachable state |
| Budgets.BoundIsMet | budget.go:34-86 | and some run spends exactly that |
| Observing.Observe | agent.go:327-464 | the tool message has one result a use, in order, each telling the call's fate; errors and denials are counted from it |
| Observing.Deny | agent.go:367-388 | exactly the calls the policy refuses are answered with its reason |
| Observing.LaunchAll | agent.go:397-413 | in parallel, the calls let through start until the deadline is seen |
| Observing.Collect | agent.go:415-422 | results are taken as they arrive, until all running calls are in or the deadline passes |
| Observing.InTurn | agent.go:424-446 | one after the other, a call starts only when all before it came back |
| Observing.FillIn | agent.go:448-463 | every call not heard of is answered, as abandoned or not started |
| Observing.ObservedAnswers | agent.go:448-463 | the message answers the uses one for one by id and name |
| Observing.InTurnStopsAtTheFirst | agent.go:424-446 | in turn, calls let through before an abandoned one ran and those after it never started |
| Observing.TogetherEachOnItsOwn | agent.go:389-423 | in parallel, a call's fate does not depend on the others |
| Observing.ResultsAreTheirOwn | agent.go:211-240 | result i tells what became of call i: the policy's own reason, that it was not started or not heard of, or the text its own run came to, an error unless that returned |
| Observing.OthersOutcomesDoNotMatter | agent.go:408-412 | what another call comes to changes nothing of result i |
| Observing.ErrorsAreCounted | agent.go:352-363 | the errors counted are the results that are such |
| Observing.DenialsAreCounted | agent.go:352-388 | the denials counted are the results that give the policy's reason |
| Agents.ReactionAnswers | agent.go:535-559 | whatever way a response ends, what it asks for is answered in full, in one message, or it asked for nothing |
| Agents.RunKeepsBalance | agent.go:561-692 | from a balanced session every way out of a run leaves it balanced, rollback, trim and compaction included |
| Agents.RunShape | agent.go:561-692 | at the end of the loop usage is the sum over the steps and charged to the session, steps are within the limit, usage before the last step was below the ceiling, errors and denials are those in the transcript |
| Agents.EndedAccounts | agent.go:561-692 | after rollback and finish too: usage is the sum over the steps, the session is charged that and a successful compaction's cost and nothing else, steps are within the limit, denials are among the errors |
| Agents.EndIsExplained | agent.go:569-643 | a run that succeeds ends on a response with nothing left to run; one that fails has the cause it names |
| Agents.StepGoesOnJustWhen | agent.go:569-640 | a step leads to another exactly if the gate lets it through and its response asks for more: uses to run without a forced choice, a pause, or uses cut off by the token limit; each failing end has exactly its own cause |
| Agents.TooManyStepsJustWhen | agent.go:569-643 | a run ends for too many steps exactly if each of them passed the gate and was answered by such a response |
| Agents.StepAppends | agent.go:587-609 | a call adds its usage, answered or not; only an answer adds to the transcript: its message, then what answers its calls |
| Agents.StepBooks | agent.go:686-692 | each step books on the shared budget just what it adds to the run's usage, as one call |
| Agents.RollbackRestores | session.go:221-230 | an error takes the input back out exactly if no response was completed |
| Agents.FinishCharges | agent.go:646-684 | a compaction's usage is charged exactly if it went through, and the result's accounts are left alone |
| Agents.FinishDoesWhatIsDue | agent.go:646-684 | without a policy the end trims, if told to; with one it compacts exactly if there are too many messages or the last request was too long, unless cancelled |
| Agents.ReactTo | agent.go:599-640 | what one completed response leads to, as the reaction function says |
| Agents.DoStep | agent.go:569-640 | one step changes session, budget and result as the step function says |
| Agents.Drive | agent.go:561-644 | the loop with its deferred rollback and finish is the specified run |
| Agents.CrashesJustWhen | session.go:173-188 | a run panics exactly if its compaction is due and told to keep nothing, or less, of what there is |
| Agents.DoFinish | agent.go:646-676 | the end of a run: trim, or compaction when due, or the panic it ends in |
| Agents.RunMessage | agent.go:521-533 | a run that may not start changes nothing; one that does is the specified run, or panics at its end, and gives up the run flag |
| A2A.RunStream | a2a/taskstore.go:216-244 | the task's final state and the events emitted are those specified |
| A2A.RunShape | a2a/taskstore.go:216-244 | one working status, chunks of which only the first starts afresh, at most one last artifact, one final status equal to the stored terminal one; a cancellation wins exactly if it comes before the outcome |
| A2A.StreamAssembler.AddDelta | a2a/protocol.go:166-172 | a chunk is added, or starts the text afresh |
| A2A.StreamAssembler.GetResult | a2a/protocol.go:178-186 | the final text, or the chunks where that is empty |
| A2A.SendMessageStream | a2a/client.go:216-286 | the client returns the first fatal message as its error, or the assembled text, and has told the caller each chunk read |
| A2A.ClientGetsTheAnswer | a2a/client.go:216-286 | for every handler and cancellation the client fails exactly if the task did not complete, with its state; else it has the result's text or, if empty, the chunks joined, having told each |
| A2A.MessagesAreJoined | a2a/client.go:241-250 | an agent that answers in messages: the client returns their texts joined and has told each once |
| A2A.SettledTaskAnswers | a2a/client.go:251-264 | a task that has come to rest decides the answer, whatever came before: its artifacts' texts, or where they are empty its status message's |
| A2A.UnderWayAddsNothing | a2a/client.go:251-271 | a task or status still under way, or a message that says nothing, adds nothing |
| A2A.ChunkAddsOrRestarts | a2a/client.go:272-284 | before anything final, a chunk is added to the answer or starts it afresh, and is told |
| A2A.FatalJustWhen | a2a/client.go:122-132 | what ends the stream: a broken stream, an error answer, or a task that failed, was canceled or rejected, with its state and message |
| A2A.PartsAreJoined | a2a/client.go:114-120 | the text of parts is the text parts' joined |
| A2A.ArtifactsAreJoined | a2a/client.go:136-142 | the text of artifacts is the text of all their parts, in order |
| TaskStores.FinishedIsFinal | a2a/taskstore.go:73-188 | in every reachable store: running and recorded tasks are stored, a finished task never changes, an evicted one never returns, a running one stays |
| TaskStores.NextKeepsTasks | a2a/taskstore.go:73-188 | no step changes a finished task or drops an unfinished or running one |
| TaskStores.OthersLeaveItAlone | a2a/taskstore.go:258-273 | between begin and end only a task's runner and a cancellation touch it |
| TaskStores.BeginKeepsTheLimit | a2a/taskstore.go:131-176 | after a task begins the store is within its limit or holds nothing evictable |
| TaskStores.BeginEvictsOldestFirst | a2a/taskstore.go:131-176 | only finished tasks went, every one too old, and any other only if no finished task that stayed ended earlier |
| TaskStores.TaskStore.BeginTask | a2a/taskstore.go:102-111 | the task is stored, working and in flight, and the store evicted |
| TaskStores.TaskStore.CompleteTask | a2a/taskstore.go:73-82 | an unfinished task gets its artifact and end time, a finished one is left |
| TaskStores.TaskStore.FailTask | a2a/taskstore.go:84-93 | likewise with the error |
| TaskStores.TaskStore.CancelTask | a2a/taskstore.go:258-273 | canceled exactly if stored and unfinished, and interrupted if in flight; the two errors otherwise |
| TaskStores.TaskStore.Evict | a2a/taskstore.go:131-176 | the loops by age and by number leave a store that the eviction relation allows |
| TaskStores.TaskStore.RecordEnd | a2a/taskstore.go:178-188 | the recorded end time, or the parsed one, which is then recorded |
| Sequences.SortSorts | a2a/taskstore.go:168-168 | a sort by an order with ties orders the entries and keeps each once |
| Brokers.EverySubscriberSeesOneBlock | a2a/taskstore.go:455-506 | over every interleaving no channel is sent to once closed or closed twice, and replayed, received and queued events are one gapless block of the log up to the subscriber's cut-off |
| Brokers.ReplayIsTheTail | a2a/taskstore.go:455-461 | a subscriber starts with as much of the log's end as the buffer holds |
| Brokers.SubscriberGetsTheAnswer | a2a/taskstore.go:336-366 | one that was there from the start, stayed and kept up gives its client the run's answer |
| Brokers.DroppedStillSeeTheEnd | a2a/taskstore.go:368-402 | once a run's final status is out, a dropped follower is shown it |
| Brokers.DroppedSeeTheEndOnlyOnceItIsOut | a2a/taskstore.go:368-402 | the status a dropped follower is shown: the terminal one exactly once the run is over; before that the working one, marked final, while the buffer holds it, else none |
| Brokers.DroppedEarlySeeNoFailure | a2a/taskstore.go:352-358 | one drained before that is told of no failure |
| Brokers.FollowersGetWhatTheySaw | a2a/taskstore.go:336-402 | a follower of a finished run, late or dropped, fails as the run did; of a completed one it gets the result's text if not empty and shown, else the chunks it was given |
| Brokers.FollowersGetTheAnswerJustWhen | a2a/client.go:216-286 | so it gets the run's answer exactly then, or if the chunks it missed make no difference |
| Brokers.OnlyTheFullAreDropped | a2a/taskstore.go:455-471 | only a subscriber whose channel was full is ever dropped |
| Brokers.TaskBroker.Publish | a2a/taskstore.go:455-471 | the event is buffered and sent to all registered, those without room are dropped and marked |
| Brokers.TaskBroker.Close | a2a/taskstore.go:473-484 | every registered channel is closed, once |
| Brokers.TaskBroker.Subscribe | a2a/taskstore.go:486-497 | the buffer's copy and a new channel, closed if the broker is |
| Brokers.TaskBroker.Unsubscribe | a2a/taskstore.go:498-505 | a registered channel is closed and forgotten, any other left |
| Brokers.TaskBroker.EmitFinal | a2a/taskstore.go:368-402 | the latest artifact and the latest status in the buffer, found from its end |
| Indexing.RunsAreWithin | sessionstore/index.go:119-134 | fields are pieces of the text, of letters and digits throughout |
| Indexing.PieceInRuns | sessionstore/index.go:119-134 | whatever of that kind occurs in a text occurs in one of its fields |
| Indexing.Cut | sessionstore/index.go:136-146 | a token is the longest beginning of at most 64 bytes |
| Indexing.FindHit | sessionstore/sessionstore.go:77-92 | a hit is the title, or the first message, that holds all terms |
| Indexing.AddText | sessionstore/index.go:98-106 | stopping at the first token without room gives the same as noting them all |
| Indexing.MakeIndex | sessionstore/index.go:91-117 | the index built is that of the title and the messages in order |
| Indexing.CompleteHoldsAll | sessionstore/index.go:97-106 | an index that is not partial holds exactly the session's tokens |
| Indexing.CheckIndex | sessionstore/index.go:57-77 | the filter says yes if partial, or if every term that can be looked up is in some token |
| Indexing.IndexHidesNothingExactlyWhenCovered | sessionstore/index.go:57-134 | the filter never turns away a session a scan would find, for any terms, if and only if the index is partial or covers the over-long words |
| Indexing.ShortRunsAreCovered | sessionstore/index.go:128-130 | without a word over 64 bytes it covers them |
| Indexing.LongWordIsLost | sessionstore/index.go:128-130 | a 65-letter word whose last letter the index cannot find |
| Searching.LessIsTotal | sessionstore/sessionstore.go:36-41 | ids are totally ordered |
| Searching.SortedIsUnique | sessionstore/sessionstore.go:36-49 | a set of hits has one order by update time and id |
| Searching.PageBounds | sessionstore/sessionstore.go:51-64 | a page starts at the offset, ends with the list, and is as long as the limit lets it |
| Searching.HitsAreJustTheSelected | sessionstore/sessionstore.go:23-34 | a session is among the hits exactly if it has the parent asked for, if one is, lies within the times asked for, and its title or a message holds every term |
| Searching.PageIsNewestFirst | sessionstore/sessionstore.go:36-49 | a page is newest first, of equally old sessions the smaller id first |
| Searching.LessIsAlphabetical | sessionstore/sessionstore.go:36-41 | the first difference of two ids decides; a beginning comes first |
| Searching.TermsAreThePieces | sessionstore/sessionstore.go:66-66 | the terms are the longest pieces of the lower-cased text without white space |
| Searching.Memory.Search | sessionstore/memory.go:72-91 | the page of all the hits there are, each session once |
| Searching.PageIsDetermined | sessionstore/memory.go:72-91 | the page does not depend on the order of the scan |
| Searching.Files.EntryFor | sessionstore/files.go:254-264 | a sidecar decides only if it is for this file's id, size and time; otherwise it is rebuilt and stored |
| Searching.Files.Search | sessionstore/files.go:239-289 | the indexed search, its errors included, leaving the session files as they were |
| Searching.Files.Save | sessionstore/files.go:107-147 | an unsafe id or a failed write changes nothing; otherwise the session is stored with its own sidecar, or an older one left where that could not be written |
| Searching.ScanIsTheReference | sessionstore/files.go:239-289 | without sidecars, the search finds what the in-memory store of the readable sessions finds, or stops if a file holds another id |
| Searching.AllComplete | sessionstore/files.go:239-289 | with complete indexes, indexed search and scan agree on the page or the error, for every query and listing order |
| Searching.SearchIsExactJustWhenComplete | sessionstore/files.go:239-289 | they agree for every query if and only if every session's index is complete |
| Sse.Scanner.NextLine | internal/sse/sse.go:91-126 | a line ends at LF, CR or CRLF, or is reported as too long; a leading byte order mark is skipped |
| Sse.Scanner.Next | internal/sse/sse.go:36-89 | the next event of the unread input, or why there is none |
| Sse.LineEndsDoNotMatter | internal/sse/sse.go:101-126 | any text with LF reads the same with CRLF or CR in their place |
| Sse.NextOnEvent | netbus/hub.go:234-248 | a written event is read back whole if its lines fit, and reported as too long otherwise |
| Sse.WhatIsWrittenIsReadBack | internal/sse/sse.go:36-126 | any events with keep-alives between, under any line ends, are read back in order up to the first that does not fit |
| Sse.EndsJustWhenAllFit | internal/sse/sse.go:119-121 | the end is reached exactly if all fit, and then nothing is missing |
| Sse.FieldsAreCut | internal/sse/sse.go:60-61 | a field line is cut at its first colon, and one space behind it goes |
| Sse.OtherFields | internal/sse/sse.go:62-76 | besides data there are event, id without a null, and retry; all others are ignored |
| Sse.DataLinesAreRead | internal/sse/sse.go:41-47 | an event of many data lines has them in one text, line breaks between |
| Sse.BOMIsSkipped | internal/sse/sse.go:91-99 | a byte order mark at the start is skipped |
| Sse.LastEventIsRead | internal/sse/sse.go:79-86 | an event at the end of the stream needs no blank line |
| Sse.LastLineIsRead | internal/sse/sse.go:79-86 | nor does its last line need an end |
| Sse.OnlyLineBreaksGo | netbus/hub.go:234-234 | of a kind only the line breaks go |
| SessionLocks.OneHolderOneLock | openaiapi/sessionlock.go:21-56 | over every interleaving at most one caller holds a name, all its callers share the table's lock, and refs count them |
| SessionLocks.TableHasJustTheUsed | openaiapi/sessionlock.go:37-44 | the table has a name exactly while somebody uses it |
| SessionLocks.WaitersCanEnter | openaiapi/sessionlock.go:46-55 | whoever waits can enter, or someone holds the name and can leave |
| SessionLocks.LockTable.Attach | openaiapi/sessionlock.go:25-35 | a caller joins the name's lock or makes one |
| SessionLocks.LockTable.Release | openaiapi/sessionlock.go:37-44 | the last one out removes the entry |
| Rpc.CallsAreAnsweredOnce | internal/rpc/peer.go:114-266 | over every interleaving a call is answered at most once and only by the response with its id; no channel is misused; a waiting call has something to wait for |
| Rpc.ReturnedIsFinal | internal/rpc/peer.go:242-265 | no step changes what a call returned |
| Rpc.NothingPendingAfterTheEnd | internal/rpc/peer.go:201-212 | after the end nothing is registered, ever, and no waiting call is left without something to receive |
| Rpc.Peer.Register | internal/rpc/peer.go:227-234 | a call is registered exactly if the connection has not ended |
| Rpc.Peer.Claim | internal/rpc/peer.go:119-123 | a response takes its call out of the table |
| Rpc.Peer.Fail | internal/rpc/peer.go:201-212 | exactly the registered calls' channels are closed, once |
| Rpc.NotesRunInOrder | internal/rpc/notechain.go:16-31 | before cancellation handlers run one at a time in order of arrival |
| Rpc.NotesProgress | internal/rpc/peer.go:155-164 | while one is unfinished, some one can start or finish |
| Rpc.NoteChain.Link | internal/rpc/notechain.go:16-21 | each notification waits for the one before |
| Tables.EvictionIsFair | delegation.go:121-133 | idle entries go, oldest first, only while there are too many; busy ones stay; it ends within the limit or with all busy |
| Tables.NewOneIsLeftOutJustWhenBusyOnesFillTheTable | delegation.go:114-118 | a new conversation gets no place exactly if busy ones alone fill the table |
| Tables.Orchestrator.ConversationFor | delegation.go:104-119 | the conversation becomes the youngest; order list and map agree throughout |
| Tables.Orchestrator.Evict | delegation.go:121-133 | the loop over the order list is that eviction |
| Tables.Orchestrator.Touch | delegation.go:146-154 | the id moves to the end, once |
| Tables.Orchestrator.Forget | delegation.go:157-167 | the conversation goes from list and map |
| Tables.Sessions.Remember | acp/agent.go:235-264 | the loop ends, by the distance to the idle session remembered, within the limit, dropping no running session |
| Tables.LoopEndsJustWhenTheBusyFit | acp/agent.go:249-263 | from any table, and for any number of turns, the loop comes within its limit exactly if the busy sessions alone do |
| PromptCache.SectionsKeepTextAndMarks | prompt.go:40-63 | no section is empty, the text is the prompt's, and each mark stays where it was in it |
| PromptCache.TextIsParted | prompt.go:54-63 | a prompt's text is its texts that are not empty, a blank line between each two |
| PromptCache.Sections | prompt.go:40-52 | the loop over the sections gives those |
| PromptCache.AddKeepsMarks | prompt.go:19-27 | added texts extend the prompt's and move no mark |
| PromptCache.BreakMarksTheEnd | prompt.go:30-37 | a break marks the text so far and changes nothing else |
| PromptCache.UncachedKeepsText | prompt.go:75-84 | without marks the text is the same |
| PromptCache.ClampKeepsTheLatest | provider/anthropic/request.go:138-154 | at most n marks are left, the latest, and all if there were no more; texts stay |
| PromptCache.ClampMarks | provider/anthropic/request.go:138-154 | the loop in place is that clamp |
| PromptCache.MakeSystemBlocks | provider/anthropic/request.go:156-185 | the loop with its carried text gives the specified blocks, or none without a mark |
| PromptCache.BlocksAreTheText | provider/anthropic/request.go:156-185 | the blocks joined are the unmarked text, none is blank, and they have no more marks than the sections |
| PromptCache.BlocksJustWhenMarked | provider/anthropic/request.go:156-185 | of sections none of which is blank there are blocks exactly if one is marked: one a section, with its text and mark |
| PromptCache.MarkLastCacheable | provider/anthropic/request.go:195-208 | the last block that can carry a mark gets it |
| PromptCache.BuildRequest | provider/anthropic/request.go:306-346 | the request's system part and messages, with the cached prefix's mark |
| PromptCache.FourMarksSameText | provider/anthropic/request.go:306-346 | at most four marks in all, one of them on a message at most, and a system part that reads as prompt and system messages do |
| PromptCache.MessagesAreKept | provider/anthropic/request.go:310-346 | a request's messages are the chat messages that have content, each once and in order; only the last sent from a cached prefix gains a mark |
| PromptCache.OnlyTheLastIsMarked | provider/anthropic/request.go:195-208 | there the last block that can carry a mark gets it, and nothing else changes |

## Left out

- JSON, HTTP, gRPC, subprocesses and files: values on the wire and on disk are taken as decoded; the decoding of a call body is an arbitrary function of it.
- Hermes.Stream: takes the provider's own message as one text; other content it may carry is not modelled.
- Emit callbacks that fail: the scanner's callback is taken to succeed; a sink that fails is a subscriber that leaves.
- Message titles, timestamps and media, and `MaxToolResultBytes`: they change no decision modelled here.
- Indexing.FindHit: does not give the hit's snippet, a rendering of the matching text that decides nothing.
- Wall-clock time: deadlines and cancellations are choices of the environment; stored times are integers with the source's one-second truncation.
- A panic is an outcome of its own (`OutsideTranscript`, `crashed`); the mutex that `Compact` then never gives back is not modelled.
- External changes to a transcript during a run: none, and the length taken before the session is acquired is its length when acquired.
- Hub restarts: one lifetime of the id sequence; `CloseAll` is a method of the hub and no step of the protocol.
- `TaskStore.store`, `List`, `Get` and `Shutdown`: they move no task through its lifecycle; the table of brokers is not modelled either.
- Task ids, context ids and history: tasks are keyed by the number in their id; artifacts by their parts.
- `Files.List` and `Memory.List`: the same listing without the filter on text.
- Races between processes over a sidecar: size and modification time are taken to identify what it was built from.
- Requests' own handlers in `dispatch`, and the limits on how many run at once: only their order for notifications is modelled.
- Notification order after cancellation, which the code does not promise.
- `acpSession.claim`, `finish` and `stop`: one field set and cleared; whether a session is busy is a parameter of the tables.
