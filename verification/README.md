# A verified model of protobus

protobus is an RPC and event layer over RabbitMQ for asyncio services. This
project models its parts that decide correctness and proves what they promise.
asyncio runs one coroutine at a time, so a stretch of code between two
suspension points is one step; a component is a state, a set of steps, and an
environment (broker verdicts, socket losses, deadlines, cancellations) that may
take any enabled step at any time. Most main results are about every run of such
a machine. Beside each machine stands the object of the program, a class updated
in place: its `Valid()` is what every run of the machine keeps, its constructors
establish it, and its methods keep it and do what the steps say.

| component | files | what is proved about it |
|---|---|---|
| Streaming replies | `StreamFraming`, `StreamSteps`, `StreamSystem`, `StreamSafety`, `StreamCompleteness`, `StreamNotice`, `StreamSending`, `MessageDispatcher` | both ends together over a lossy, repeating, reordering network: nothing wrong is given, nothing is missing, errors have causes; buffer accounting; the cancel notice and what was written before it |
| Consume and settle | `Ladder`, `LadderSafety`, `LadderHistory`, `LadderRuns`, `Consumer` | a worker with its broker loses no request; every settlement is earned by what happened; the retry ladder terminates |
| Reconnection | `Reconnection`, `ReconnectionProgress`, `Connection` | one lineage of timers and attempts, restoration before readiness, retired generations, the retry budget; with the network's help it gets ready |
| Unary calls | `RpcSteps`, `RpcOutcome`, `RpcCall` | at most two attempts, the reply slot, a truthful timeout; the outcome is what happened, and comes in time |
| Confirm window | `ConfirmWindow` | the bound, the counter, wake-ups |
| Topic trie | `Trie` | matching by linked nodes equals the declarative rule of section 3.1.3.3 of AMQP 0-9-1, in registration order |
| Schema parser | `ProtoSyntax`, `ProtoGrammar`, `NameResolution`, `ProtoReferences`, `ProtoParser`, `ProtoRoundTrip`, `ProtoFileRoundTrip` | parsing undoes rendering, references bound to the innermost scope, exactly what is not allowed refused |
| Schema loading | `SchemaOrder`, `SchemaBinding`, `SchemaLoader`, `SchemaExamples` | when the order of listing decides whether files load, and which name a reference gets |
| Conversion | `MessageShape`, `Conversion`, `MessageFiller`, `ConversionTyping`, `ConversionShape`, `ConversionRoundTrip`, `ConversionIdentity`, `ConversionCodecs` | messages survive the trip through Python values; exactly which codecs allow it |
| Type generation | `TypeOutput`, `TypeMeaning`, `TypeEmitter`, `TypeGeneration` | a closed reachability search; refused exactly on a clash; what the annotations mean |
| 256-bit integers | `CustomTypes` | both round trips, order, refusals |

Where the code falls short of a promise, the model keeps the code as it is, a
lemma gives an input that shows it, and another says exactly when the promise
holds:

- The global buffer total is exact until a call that a disconnection already
  wrote off is released, and a run is exact throughout if and only if it has no such
  release (`StreamSystem.ExactUnlessStale`, `StreamSystem.ExactIffNoStaleRelease`);
  after one the global bound can be passed (`StreamSystem.BoundBrokenAfterStaleRelease`).
- A wake-up of the confirm window is lost exactly when a woken waiter is
  cancelled in time (`ConfirmWindow.StepKeeps`, `ConfirmWindow.LostWakeUp`).
- A request is lost exactly when its only copy vanishes on the unconfirmed hop
  from the retry queue back to the main queue (`LadderSafety.NothingLost`,
  `LadderSafety.RetryHopCanLose`). docs/concepts/delivery-guarantees.md calls that
  hop at-most-once, too.
- A cancel notice goes out for a request that was never written exactly when every
  attempt to send it had lost its channel before its send ran, or none had begun
  because readiness never came (`StreamSending.NoticeIsForWrittenRequest`,
  `StreamSending.NoticeForUnwrittenRequest`, `StreamNotice.NoticeForUnsentRequest`).
- A custom codec survives the trip through Python values exactly when it is
  faithful, which is more than decoding stably (`ConversionCodecs.FaithfulIsExact`,
  `ConversionCodecs.StableIsNotEnough`).
- Whether files load can depend on the order they are listed in: an rpc argument
  that a message outside can stand for is refused once an enum further in is
  loaded (`SchemaExamples.ListingMatters`). For all files the listing is irrelevant
  exactly when no order resolves them or the loader can reach no dead end
  (`SchemaOrder.FreeOfOrder`); a static condition that a reader of the files can
  check excludes dead ends (`SchemaBinding.SteadyLoads`), and no weaker condition
  on a reference keeps its verdicts (`SchemaBinding.SteadyIsExact`).
- Which name a reference gets can depend on it, too (`SchemaExamples.BindingMatters`);
  under that condition it does not exactly when the name is known from the start, is
  the file's own, or comes from a file that has to be loaded first
  (`SchemaBinding.BindingSettled`).
- A callback ends with its delivery unsettled on the open channel exactly when the
  handler, called in the consumer's task, or its reply's generator raised a
  cancellation nobody had asked for, or the task was cancelled from outside and that
  was not settled as cancelled work (`LadderSafety.LeftUnsettledIff`,
  `LadderSafety.HandlerLeavesUnsettled`, `LadderSafety.GeneratorLeavesUnsettled`).
- Two services can share the name of their constant
  (`TypeGeneration.ConstantsCanClash`); all names differ exactly when the
  constants stay clear (`TypeGeneration.DistinctIfClear`,
  `TypeGeneration.ClearIfDistinct`).

`dafny verify dfyconfig.toml` checks the whole project.

## Model

| member | source | states |
|---|---|---|
| TopicRule.MatchesIsTopicMatches | protobus/trie.py:47-66 | Reading a pattern from the left (a word, `*`, `#` using up none, one, ... all remaining words) accepts exactly the topics that can be cut into one segment per pattern word, each covered by its word |
| TopicTrie.Trie.constructor | protobus/trie.py:8-16 | An empty trie matches nothing and is well linked |
| TopicTrie.Trie.AddMatch | protobus/trie.py:18-31 | Registers one more (pattern, value) pair, keeps every earlier one, and leaves a linked structure that agrees with the list of registrations |
| TopicTrie.Trie.Attach | protobus/trie.py:21-30 | Hanging a new node under an existing one keeps every other node reachable by exactly its own words |
| TopicTrie.Collector.Collect | protobus/trie.py:39-45 | Appends exactly the node's values that are not among the results yet, each once and in the order the node holds them |
| TopicTrie.FirstTimesInOrder | protobus/trie.py:39-45 | A value appended from a list comes after every value that stands before it in that list |
| TopicTrie.Trie.CollectedInTurn | protobus/trie.py:39-50 | Collecting a node whose words match keeps every result in its turn: some matching pattern was given it, and all that pattern was given earlier come earlier |
| TopicTrie.Trie.Match | protobus/trie.py:47-66 | From any node, adds exactly the values of the registered patterns below it that match the remaining words; terminates although `#` calls again without consuming a word |
| TopicTrie.Trie.MatchEnd | protobus/trie.py:48-54 | With no words left, adds the node's own values and those behind any chain of trailing `#` |
| TopicTrie.Trie.MatchAnywhere | protobus/trie.py:62-66 | From a `#` node, adds what matches after any number of the remaining words has been consumed |
| TopicTrie.Trie.MatchTopic | protobus/trie.py:33-37 | After any registrations: the results are exactly the values of the patterns that match by the declarative rule, each at most once, and each result comes after all that one of its matching patterns was given earlier |
| TopicTrie.Trie.Unfold | protobus/trie.py:47-66 | What a node contributes to a topic is exactly what its own values and its three kinds of successors contribute to the shorter topics |
| StreamFraming.PublishStreamReply | protobus/connection.py:1318-1380 | Whatever chunks are pulled and wherever a cancellation is seen, the published frames are a beginning of the numbered frames 0,1,2,... of those chunks; they are all of them, `final` on the last only and one empty final frame for an empty stream, exactly when nothing is cancelled, fails or raises; the stream is cancelled exactly when some check is the first to see it with all published by then confirmed, and then never sends its final frame; otherwise it ends at the first failed publish or with the generator |
| StreamFraming.Produced | protobus/connection.py:1343-1380 | However the generator is pulled, the chunks it produces are one sequence: two sequences that agree with every pull up to their common end are equal |
| StreamSafety.StreamSafety | protobus/message_dispatcher.py:272-331 | In every run of any number of calls, with deliveries lost, repeated and reordered at will: what a reader has been given is a prefix of the non-empty chunks produced for it, and an end without an error that the caller did not ask for means it was given all of them |
| StreamSafety.ChunkFaithful | protobus/message_dispatcher.py:272-314 | One arriving frame, whatever its number, leaves a live call holding exactly the chunks up to the last frame it accepted |
| StreamSafety.NextFaithful | protobus/message_dispatcher.py:884-908 | One pull hands out chunks in order, and a clean end is reached only when all of them were handed out |
| StreamSafety.SentIsDrawn | protobus/connection.py:1343-1380 | Every frame the publishing loop sends is one the receiver's guarantee is about, so both ends fit together |
| StreamCompleteness.ErrorIsLastCause | protobus/message_dispatcher.py:272-331 | In every run a call has an error if and only if it was given a cause, and it is the last one: a frame ahead of its turn, a new body there was no room for within the three bounds, silence, a lost connection, or a failed send before release |
| StreamCompleteness.GapIff | protobus/message_dispatcher.py:276-289 | In every run a call has failed for a missing frame if and only if, while it was pending, a frame i > 0 was handed to it with frame i-1 never handed to it before |
| StreamCompleteness.NothingMissing | protobus/message_dispatcher.py:272-314 | In every run a call given no cause to fail, not stopped and not dropped, that was handed exactly the first n frames produced, repeated or not, has no error, holds or has given exactly what they carry, and has ended if and only if they are all |
| StreamCompleteness.EverythingGiven | protobus/message_dispatcher.py:884-908 | In every run such a call that was handed all its frames gives every non-empty chunk, one pull each, and then ends |
| StreamCompleteness.NobodyStranded | protobus/message_dispatcher.py:884-908 | In every run a pull on a live reply that nothing is routed to any more gives a chunk, an error or the end, and never waits |
| StreamCompleteness.FinalEnds | protobus/message_dispatcher.py:284-314 | A frame marked final ends the call it is handed to, also when it is a repetition, a gap or too much |
| StreamSystem.RunInv | protobus/message_dispatcher.py:204-220 | In every run each call's byte counter is the length of its queue within the per-call chunk and byte bounds, and the global total never exceeds what pending calls hold nor the global bound |
| StreamSystem.StepInv | protobus/message_dispatcher.py:272-344 | No single step of any call, nor a disconnection, breaks the books |
| StreamSystem.TouchKept | protobus/message_dispatcher.py:762-773 | A step of one call moves the global total by exactly what that call's share changes by, unless it gives back bytes a disconnection already wrote off |
| StreamSystem.ExactUnlessStale | protobus/message_dispatcher.py:215-220 | An exact total stays exact if and only if the step does not release a call that a disconnection took off the books while it held bytes |
| StreamSystem.ExactWithoutDisconnect | protobus/message_dispatcher.py:341-344 | Without a disconnection the total is exactly the sum over pending calls, so what they hold together stays within the global bound |
| StreamSystem.ExactIffNoStaleRelease | protobus/message_dispatcher.py:215-220 | For every run: the total is exact at every point of it if and only if no step of it is a stale release, and then what pending calls hold together stays within the global bound |
| StreamSystem.BoundBrokenAfterStaleRelease | protobus/message_dispatcher.py:215-220 | A concrete run: after a stale release two pending calls hold 14 bytes under a global limit of 8 |
| StreamNotice.NoticeProtocol | protobus/message_dispatcher.py:688-836 | In every run a call sends at most one cancel notice, never before its send settled, never when it was withdrawn unsent, nacked or returned; with the channel up a cancelled call whose request may be running always sends it |
| StreamNotice.TouchDisciplined | protobus/message_dispatcher.py:778-836 | Every step of a call, in every state, keeps the notice discipline |
| StreamNotice.NoticeForUnsentRequest | protobus/message_dispatcher.py:690-727 | A concrete run in which a notice goes out for a request that was never handed to the broker, because a failed readiness wait counts as ambiguous |
| StreamNotice.RunRemembers | protobus/message_dispatcher.py:690-720 | In every run the send state tells whether the call got past its first wait for readiness, which is when its state becomes "sending", and whether that wait failed |
| StreamSending.NoticeIsForWrittenRequest | protobus/message_dispatcher.py:384-408 | In every run with confirm window, lost channels and the second wait for readiness: a noticed call's request was never written if and only if every attempt begun for it had lost its channel before its send ran, none having begun when its first wait failed; a confirmed one was written |
| StreamSending.EveryAttemptAccounted | protobus/message_dispatcher.py:384-408 | In every run the attempts begun for a call, at most two, are exactly those written, those that lost their channel before the send ran, and the one still waiting to be sent |
| StreamSending.NothingWrittenAfterNotice | protobus/message_dispatcher.py:788-806 | Once a call's notice is out no attempt of it begins and its request is never written again: the notice does not overtake the request |
| StreamSending.EndTells | protobus/connection.py:1285-1307 | A request that was confirmed or whose confirm was late had been written; one whose first wait for readiness fails was not |
| StreamSending.EndReports | protobus/message_dispatcher.py:398-408 | An attempt is repeated if and only if the first one lost its channel while the connection was unusable; any other is reported sent when confirmed, definitely failed when refused, and of unknown fate otherwise |
| StreamSending.NoticeForUnwrittenRequest | protobus/message_dispatcher.py:398-408 | A concrete run past readiness: the request waits in the confirm window, its channel goes, the second wait fails, and a notice goes out for a request never written |
| StreamSending.CourseIsRun | protobus/message_dispatcher.py:688-731 | Every course of the sending tasks is a run of the calls, so what holds of every run holds of it |
| StreamSending.GoInv | protobus/message_dispatcher.py:688-731 | Every move keeps the stage of a sending task and the send state of its call together |
| MessageDispatcher.Dispatcher.OnDisconnected | protobus/message_dispatcher.py:204-220 | Every pending call gets the error and loses its slot, every other call is as before, the total is zeroed and no entry's own counter is touched; all objects together take the disconnection step and stay lawful |
| MessageDispatcher.Dispatcher.constructor | protobus/message_dispatcher.py:165-180 | A dispatcher starts as the empty run of the system |
| MessageDispatcher.Dispatcher.OthersStay | protobus/message_dispatcher.py:272-344 | A method that touches one reply, its slot and the total leaves every other reply as the system has it |
| MessageDispatcher.Dispatcher.OnChannelOpened | protobus/message_dispatcher.py:204-220 | A new channel lets notices out again and changes no call |
| MessageDispatcher.Dispatcher.OnResult | protobus/message_dispatcher.py:259-263 | A body is routed to the pending stream of its id, where all objects together take the step of one arriving frame, and to nothing else: every other reply's state is unchanged, and without such a stream nothing changes at all |
| MessageDispatcher.StreamingReply.constructor | protobus/message_dispatcher.py:637-683 | A new call is pending under its id and sending, unless its signal had fired before; the dispatcher's calls together take the opening step and stay lawful |
| MessageDispatcher.StreamingReply.OnStreamChunk | protobus/message_dispatcher.py:272-314 | Updates the entry, the total and the slot exactly as the frame step says; the dispatcher's calls together take that step, so no other call changes and everything every run keeps is kept |
| MessageDispatcher.StreamingReply.Accept | protobus/message_dispatcher.py:290-314 | Buffers a new non-empty body within the three bounds, fails the call when one would be passed, and ends it on the final flag |
| MessageDispatcher.StreamingReply.FailStream | protobus/message_dispatcher.py:316-331 | Leaves the error for the next pull, drops the buffer and the slot, and tells the producer |
| MessageDispatcher.StreamingReply.DropBuffer | protobus/message_dispatcher.py:341-344 | Empties the queue and takes its bytes off the total, never below zero |
| MessageDispatcher.StreamingReply.ReleaseCall | protobus/message_dispatcher.py:762-773 | Gives back the slot and the buffer, once |
| MessageDispatcher.StreamingReply.Cancel | protobus/message_dispatcher.py:778-806 | Cancels once: releases the call, ends the reader unless only notifying, and informs the producer, defers that, or withdraws the request |
| MessageDispatcher.StreamingReply.Close | protobus/message_dispatcher.py:910-912 | Closing is the cancelling step of the caller for the whole dispatcher |
| MessageDispatcher.StreamingReply.Notify | protobus/message_dispatcher.py:808-836 | A notice goes out only for a request that may have reached a producer, over an open channel |
| MessageDispatcher.StreamingReply.Next | protobus/message_dispatcher.py:884-908 | An error is raised before anything buffered, chunks come in order, the end releases the call, otherwise the reader parks |
| MessageDispatcher.StreamingReply.OnIdle | protobus/message_dispatcher.py:745-756 | An idle call that has not ended fails with an idle timeout and is cancelled |
| MessageDispatcher.StreamingReply.PublishStarts | protobus/message_dispatcher.py:690-698 | The task gets past readiness: a cancelled call sends nothing; the system takes the sending step |
| MessageDispatcher.StreamingReply.PublishEnds | protobus/message_dispatcher.py:699-731 | The broker's verdict is recorded, and a failed send ends a call not yet released, with a notice only when ambiguous |
| MessageDispatcher.StreamingReply.ForgetStream | protobus/message_dispatcher.py:333-339 | A dropped reply gives back a slot that is still its own, and the buffer with it |
| ConfirmWindow.WindowHolds | protobus/connection.py:1265-1316 | In every interleaving of arrivals, wake-ups, settlements, cancellations and a channel close: the counter equals the publishes between admission and settlement, is never negative and never above the bound; and unless a woken waiter is cancelled, a parked publisher implies in-flight plus woken is at least the bound |
| ConfirmWindow.StepKeeps | protobus/connection.py:1273-1316 | A window that is not starved becomes starved exactly by cancelling a woken waiter while others wait and the window is exactly spoken for |
| ConfirmWindow.SettleWakesFirst | protobus/connection.py:1309-1316 | A settlement frees one place and wakes exactly the publisher that has waited longest with its future open, if any, and touches nobody else |
| ConfirmWindow.CloseWakesAll | protobus/connection.py:1214-1229 | A channel close wakes everybody parked and touches nobody else |
| ConfirmWindow.LooksAtBound | protobus/connection.py:1272-1283 | A publisher that arrives or has been woken gets in exactly when there is room, and otherwise waits at the end of the list |
| ConfirmWindow.OverIff | protobus/connection.py:1272-1316 | In every interleaving a publisher is through if and only if its publish settled or it left after being cancelled: nobody who was woken goes away unserved |
| ConfirmWindow.LostWakeUp | protobus/connection.py:1273-1282 | A concrete run with a bound of one: the woken waiter is cancelled before it resumes and the next stays parked with nothing in flight |
| ConfirmWindow.ChannelPublishState.TryEnter | protobus/connection.py:1273-1283 | One look at the bound: admitted and counted, or parked at the end of the list |
| ConfirmWindow.ChannelPublishState.Wake | protobus/connection.py:1276-1283 | A resumed publisher leaves the list and, unless cancelled, looks at the bound again |
| ConfirmWindow.ChannelPublishState.SettleOne | protobus/connection.py:1309-1316 | A settlement frees one place and wakes the first waiter whose future is still open, dropping the done ones before it |
| ConfirmWindow.ChannelPublishState.Cancel | protobus/connection.py:1278-1282 | A publisher cancelled while it waits stays on the list until it is resumed, and the window keeps its bound and its list |
| ConfirmWindow.ChannelPublishState.FailAll | protobus/connection.py:1214-1229 | A channel close wakes every waiter and empties the list, leaving the counter to the settlements |
| Reconnection.OneLineage | protobus/connection.py:749-802 | In every run, outside a `disconnect` in progress, `is_reconnecting` holds exactly while one timer or one attempt exists, never both; a wanted connection is ready or on its way back; a ready one has nobody waiting and a socket that is open or whose loss is about to be noticed |
| Reconnection.BudgetHolds | protobus/connection.py:749-802 | Failed attempts in a row, connected but unrestored ones included, never exceed `max_retries`, and the connection is given up only when that many failed |
| Reconnection.NeverInstallsRetired | protobus/connection.py:672-700 | The generation never goes back, and a connect that finishes under a retired generation or after `disconnect` is never installed |
| Reconnection.ReadyMeansRestored | protobus/connection.py:544-556 | On the reconnect path readiness is announced only over an open socket, with every restorer present when restoration began finished in order and no teardown since |
| Reconnection.OnlyChecksMarkReady | protobus/connection.py:554-556 | Besides the user's own connect only the final check makes a connection ready, and only under the generation it restored |
| Reconnection.StepInv | protobus/connection.py:661-833 | Every step, of the machine or of its environment, keeps the lineage, readiness, restoration and budget invariants |
| ReconnectionProgress.FailsOnlyForCause | protobus/connection.py:776-802 | An attempt is counted as failed if and only if its connect ended badly, a restorer failed, what it restores was retired or its socket is gone, while nobody disconnects; only readiness forgets failures |
| ReconnectionProgress.ReconnectionSucceeds | protobus/connection.py:749-802 | From every reachable state that is wanted and reconnecting with budget left: once the network grants the connect and every restorer and no further socket is lost, the connection gets ready with no failure counted, within a number of its own steps given by the restorers |
| ReconnectionProgress.GrantCosts | protobus/connection.py:544-556 | Every granted step of the machine keeps the connection wanted and within its budget and brings it strictly closer to readiness |
| ReconnectionProgress.NotStuck | protobus/connection.py:749-802 | A wanted connection that is not ready always has a step of its own to take |
| ReconnectionProgress.CostIsBounded | protobus/connection.py:544-556 | The number of steps left is at most twice the restorers plus nine and those still to be run |
| ReconnectionProgress.DisconnectCompletes | protobus/connection.py:804-833 | A `disconnect` under way takes the connection down in at most three steps, with no handle, timer, attempt or waiter left |
| ReconnectionProgress.WaitersWait | protobus/connection.py:498-531 | A caller asking for readiness waits unless the connection is ready or closed, and is released by readiness and by giving up |
| Connection.BusConnection.ConnectEnds | protobus/connection.py:672-700 | Installs the socket only under an unchanged generation and no manual disconnect |
| Connection.BusConnection.OnHandleClosed | protobus/connection.py:717-747 | Ignores a superseded socket and a manual disconnect; otherwise retires the generation and schedules a reconnection, except at loop shutdown |
| Connection.BusConnection.ScheduleReconnect | protobus/connection.py:749-774 | At most one reconnection at a time; gives up, releasing the waiters, when the budget is spent |
| Connection.BusConnection.AttemptConnected | protobus/connection.py:776-785 | Goes on to restore what is registered now, or fails |
| Connection.BusConnection.RestorerEnds | protobus/connection.py:547-550 | The next restorer runs only under the generation the restoration began in |
| Connection.BusConnection.AttemptChecks | protobus/connection.py:551-556 | Ready only if the generation is unchanged and the socket still open |
| Connection.BusConnection.AttemptFails | protobus/connection.py:790-799 | Discards the generation, closing a socket it could not restore, unless the user is disconnecting |
| Connection.BusConnection.TryAgain | protobus/connection.py:800-802 | The attempt number read before connecting is put back, so a connect that was not restored still costs budget |
| Connection.BusConnection.Disconnect | protobus/connection.py:804-820 | Retires the generation, cancels the timer, and waits for a running attempt before closing |
| Connection.BusConnection.CloseDown | protobus/connection.py:820-833 | Releases the waiters and takes the handle out before closing it |
| Connection.BusConnection.MarkReady | protobus/connection.py:526-531 | Ready, and every parked waiter released |
| Connection.BusConnection.WhenReady | protobus/connection.py:498-524 | Parks only while neither ready nor closed |
| Connection.BusConnection.Connect | protobus/connection.py:646-659 | The first connect, taken as one step: connected, ready and counted from zero, or not connected |
| RpcSteps.CallDiscipline | protobus/message_dispatcher.py:456-553 | In every run of a call: at most two attempts, all under one message id and one correlation id, none begun after the deadline, the second only after the first lost its channel; the reply slot, freed on particular paths only, is free once the call is over; a timeout only after the deadline |
| RpcSteps.PublishedIsExact | protobus/message_dispatcher.py:464-553 | `RpcTimeoutError.published` is exact: False if and only if no attempt was made, True if and only if one was confirmed, None when an attempt's fate is unknown |
| RpcSteps.RepliesArrived | protobus/message_dispatcher.py:497-529 | A returned reply is one that arrived for this call during the run |
| RpcOutcome.OutcomeIsStory | protobus/message_dispatcher.py:476-553 | In every run a call ends as what happened to it says: with the reply that reached its armed slot if one did, as lost if and only if a disconnection failed the slot of an attempt that was confirmed, with the verdict of the latest attempt, as not connected or not ready, or as timed out with the right `published`; cancelled only by its caller |
| RpcOutcome.EndsInTime | protobus/message_dispatcher.py:464-553 | In every run, once the deadline has passed eight resumptions end the call |
| RpcOutcome.ResumeProgresses | protobus/message_dispatcher.py:476-553 | Every resumption gets the call on: nothing is waited for twice |
| RpcOutcome.ReadinessPublishes | protobus/message_dispatcher.py:534-546 | A first attempt that lost its channel while the connection was coming back waits for readiness, and readiness before the deadline is followed by an attempt to the reply queue of then, with the slot armed |
| RpcOutcome.UsableIsNotWaitedFor | protobus/message_dispatcher.py:363-379 | A call on a usable connection publishes at once |
| RpcSteps.StepInv | protobus/message_dispatcher.py:476-553 | Every step keeps the attempt, slot and truthfulness invariant |
| RpcCall.PublishCall.constructor | protobus/message_dispatcher.py:456-476 | The deadline is fixed before anything is published and readiness counts against it |
| RpcCall.PublishCall.TryPublish | protobus/message_dispatcher.py:476-487 | Nothing is published past the deadline; the slot is armed before the publish begins |
| RpcCall.PublishCall.Resume | protobus/message_dispatcher.py:488-529 | A reply wins over the publish's own outcome, a failed slot waits for the publish to settle, and a confirmed publish waits out the deadline |
| RpcCall.PublishCall.Publication | protobus/message_dispatcher.py:516-553 | The publish's outcome wins over the deadline; only a lost channel on a connection that is down is republished, once |
| RpcCall.PublishCall.OnResult | protobus/message_dispatcher.py:265-270 | An arriving reply takes the slot and resolves an open future once |
| RpcCall.PublishCall.OnDisconnected | protobus/message_dispatcher.py:204-214 | A disconnection fails the slot's future and frees the slot |
| RpcCall.PublishCall.Cancel | protobus/message_dispatcher.py:490-495 | A cancelled caller frees the slot on its way out |
| LadderSafety.NoRequestLost | protobus/connection.py:1060-1116 | In every run of worker and broker with the retry exchange bound and dead-lettering on TTL arriving: each published request still has a copy in the main queue, the retry queue, the DLQ or a held delivery that does not rely on another copy, unless it succeeded with its reply confirmed, was cancelled by its caller, or failed with a handled error |
| LadderSafety.NothingLost | protobus/message_listener.py:115-147 | The exact condition, step by step: a request is lost if and only if its only copy vanishes on the unconfirmed hop from the retry queue back to the main queue |
| LadderSafety.RetryHopCanLose | protobus/message_listener.py:119-127 | A concrete run that loses a request on that hop |
| LadderSafety.CopiesGenuine | protobus/connection.py:1071-1115 | Every copy ever stored keeps its request's message id and original routing key and a retry count between 0 and `max_retries`; DLQ copies have exactly `max_retries`; retry copies are keyed so that they find the main queue again |
| LadderHistory.RecordIsHistory | protobus/connection.py:951-1126 | In every run the record of a delivery is what happened to it: answered if and only if its reply was confirmed or its handler ended well with none due, parked if and only if a copy was confirmed, failed with an expected error if and only if such an error was raised before it was called off; only a failure leads to a copy, a rejection or a return, expected errors are refused and others climb, and the caller is told exactly when that is due |
| LadderHistory.SettlementDiscipline | protobus/connection.py:1013-1126 | In every run an acknowledged delivery had its reply confirmed or none due, was called off by its caller, or has a confirmed retry or DLQ copy; a rejected one failed with an expected error; a settled one has tried to tell its caller if that was due; a callback that returned settled its delivery or lost its channel |
| LadderHistory.ExcusedWhenEarned | protobus/connection.py:1013-1126 | In every run a request is written off if and only if some delivery of it was rejected, or acknowledged without a copy |
| LadderHistory.ClosedFor | protobus/connection.py:1013-1126 | What writes a request off is a delivery that failed with an expected error, had its reply confirmed or none due, or was called off |
| LadderHistory.SettlementIsMutual | protobus/connection.py:1013-1189 | Worker and broker agree on a settlement: made exactly over an open channel, with the copy back in the main queue if it was returned and gone if not |
| LadderHistory.CopyCarries | protobus/connection.py:1069-1115 | A retry copy is its request with one more on the count under the original key; a dead-letter copy keeps the count and asks for no reply |
| LadderSafety.SettledOnce | protobus/connection.py:1134-1145 | A settled delivery is never settled again nor moved by any later step |
| LadderSafety.StepInv | protobus/connection.py:951-1189 | Every step of worker, broker and network keeps the ladder invariant |
| LadderSafety.TornIff | protobus/connection.py:1016-1027 | In every run a delivery is torn if and only if its handler or its reply's generator raised a cancellation in the consumer's own task that the caller had not asked for, or the task was cancelled from outside at a point where that is not settled as cancelled work |
| LadderSafety.LeftUnsettledIff | protobus/connection.py:1016-1145 | The exact condition for the settlement promise: a callback ends with its delivery unsettled on the open channel if and only if one of those steps was taken and the channel is still that one |
| LadderSafety.HandlerLeavesUnsettled | protobus/connection.py:958-972 | A concrete run in which no task is cancelled and no generator runs: a handler that is called in the task and raises a cancellation leaves its delivery unsettled on the open channel |
| LadderSafety.TornStays | protobus/connection.py:1016-1027 | A torn delivery never moves again and, as long as the channel stays open, its copy stays with the broker as unacknowledged |
| LadderSafety.GeneratorLeavesUnsettled | protobus/connection.py:1352-1366 | A concrete run in which nobody cancels anything and a delivery ends torn and unsettled on the open channel, because its reply's generator cancelled itself |
| LadderSafety.MovedDisciplined | protobus/connection.py:974-1126 | Whatever ends the handler or the stream of a reply, a generator that raises with or without a reply buffer included, the delivery moves to a phase whose presuppositions hold and relies on no copy |
| LadderRuns.HandlerRunsBounded | protobus/connection.py:1065-1116 | In every run without settlement failure or channel loss the handler runs at most `max_retries + 1` times for a request, and the retries left in a queued copy are exactly those not used up |
| LadderRuns.StepChain | protobus/connection.py:1065-1116 | Each step keeps one way forward per request, counted by the runs so far |
| Consumer.OnMessage.HandlerEnds | protobus/connection.py:974-1014 | A value is replied before it is acknowledged; a timeout, an error or the cancellation of the handler's own task goes to the error path; a cancellation raised in the consumer's task settles cancelled work and otherwise tears the delivery |
| Consumer.OnMessage.OnError | protobus/connection.py:1028-1126 | Cancelled work is acknowledged; a handled error or a consumer without retries answers and rejects; everything else climbs the ladder, answering only at its end |
| Consumer.OnMessage.Publication | protobus/connection.py:1069-1115 | The retry copy counts one more and goes out under the original key; the DLQ copy keeps the count; both keep the message id and the original key |
| Consumer.OnMessage.PublishEnds | protobus/connection.py:1095-1116 | Only a confirmed reply or copy is followed by an acknowledgement; a failed error reply never blocks the settlement |
| Consumer.OnMessage.GeneratorRaises | protobus/connection.py:1350-1372 | An error raised by a reply's generator takes the error path with its own verdict and its own error reply |
| Consumer.OnMessage.GeneratorCancels | protobus/connection.py:1354-1364 | A cancellation raised by a reply's generator ends the stream of a cancelled delivery, and otherwise tears the delivery |
| Consumer.OnMessage.RecoverUnsettled | protobus/connection.py:1157-1189 | A delivery whose settlement failed is returned to the queue, or left to a channel that is closed |
| Consumer.OnMessage.SettleEnds | protobus/connection.py:1013-1036 | An ack that raises on the handler's path falls into the error path; any other ends the callback |
| Consumer.OnMessage.TaskCancelled | protobus/connection.py:1016-1027 | Teardown propagates and settles nothing, unless the caller had cancelled the delivery |
| ProtoFileRoundTrip.ParsingUndoesRendering | protobus/proto_parser.py:252-285 | For every supported syntax tree the parser run on its token rendering returns exactly the tree's descriptor with every reference bound to the innermost declared candidate; it is refused exactly when a message, enum or service repeats a declared name, a map's key type, a oneof member's label or a proto3 enum's first value is not allowed, or a reference has nothing to bind to |
| ProtoFileRoundTrip.FileReads | protobus/proto_parser.py:252-277 | The token rendering of a whole file is consumed to its end and yields the tree's unresolved descriptor and declared names, or is refused for a repeated name or something not allowed |
| ProtoFileRoundTrip.SyntheticAfterDeclared | protobus/proto_parser.py:370-390 | Each proto3 optional field sits in a synthetic oneof of its own, named after it, and all of them come after every declared oneof |
| ProtoFileRoundTrip.DeclaredIs | protobus/proto_parser.py:356-368 | The names known after a parse are exactly those the tree declares, each as what it was declared last |
| ProtoFileRoundTrip.RpcReads | protobus/proto_parser.py:661-698 | An rpc reads back with its name, both argument types and both stream flags |
| ProtoFileRoundTrip.ServiceReads | protobus/proto_parser.py:634-659 | A service reads back with its methods in order and declares its name |
| ProtoRoundTrip.MessageReads | protobus/proto_parser.py:356-407 | A message of any nesting reads back, for any tokens that follow it |
| ProtoRoundTrip.MessageRefused | protobus/proto_parser.py:356-367 | A message with a repeated name, a map key, a oneof label or a first enum value that is not allowed, in it or below it, is refused, for any tokens that follow it |
| ProtoRoundTrip.FieldReads | protobus/proto_parser.py:453-494 | A field reads back with label, type, name and number, and says whether it is proto3 optional |
| ProtoRoundTrip.MembersRead | protobus/proto_parser.py:537-558 | A oneof's members read back in order under the oneof's number, or are refused if one is repeated or required |
| ProtoRoundTrip.MapItemReads | protobus/proto_parser.py:496-529 | A map reads back as an entry message plus a repeated field, and declares the entry |
| ProtoRoundTrip.EnumReads | protobus/proto_parser.py:562-605 | An enum reads back with its values, negative numbers included, or is refused if it is a proto3 enum whose first value is not zero |
| ProtoRoundTrip.MapHeadReads | protobus/proto_parser.py:496-520 | The head of a map reads back, or is refused if its key type is no scalar or float, double or bytes |
| ProtoRoundTrip.SignReads | protobus/proto_parser.py:562-605 | A minus sign that is a token of its own makes an enum number negative |
| ProtoRoundTrip.CloseFields | protobus/proto_parser.py:383-390 | The closing brace numbers the synthetic oneofs in field order after those already there and marks exactly the proto3 optional fields |
| ProtoSyntax.CamelByParts | protobus/proto_parser.py:779-786 | JSON names and map entry names are made of the parts between underscores, each capitalised, the first only for entries |
| ProtoSyntax.EntryNamedAfterJson | protobus/proto_parser.py:784-786 | A map's entry is named after the field's JSON name, which has no underscore |
| NameResolution.ResolvesByRule | protobus/proto_parser.py:702-734 | A reference resolves to a name of a kind if and only if the innermost-scope rule binds it to that: known in some enclosing scope and in no longer one, or absolute and known |
| NameResolution.SearchIsInnermost | protobus/proto_parser.py:724-734 | The outward walk over scopes fails exactly when no enclosing scope knows the name, and otherwise finds the innermost |
| NameResolution.MessageIff | protobus/proto_parser.py:736-767 | A message resolves to another if and only if that one is the same with every reference bound by the rule, at any depth |
| NameResolution.FileIff | protobus/proto_parser.py:736-776 | The same for a whole file with its rpc arguments, which have to be messages |
| ProtoParser.Parser.Parse | protobus/proto_parser.py:252-285 | The cursor parser returns exactly what the grammar and the resolution say, and has read every token when it succeeds |
| ProtoParser.Parser.FindFailure | protobus/proto_parser.py:736-777 | The loops over pending fields and methods report the first reference that fails, and whether its type is unknown or of a wrong kind |
| ProtoParser.Parser.Message | protobus/proto_parser.py:356-368 | Moves the cursor and the declared names exactly as the grammar says for a message |
| ProtoParser.Parser.MessageBody | protobus/proto_parser.py:370-407 | The loop over a body's items agrees with the grammar to the closing brace |
| ProtoParser.Parser.AddSynthetic | protobus/proto_parser.py:383-390 | The loop that adds the synthetic oneofs in place agrees with the closing step of the grammar |
| ProtoParser.Parser.Item | protobus/proto_parser.py:391-407 | Dispatches on the word under the cursor as the grammar does |
| ProtoParser.Parser.Field | protobus/proto_parser.py:453-494 | Reads a field exactly as the grammar says, refusing a repeated or required oneof member |
| ProtoParser.Parser.Map | protobus/proto_parser.py:496-529 | Reads a map, refusing a key type that cannot be one, and declares its entry |
| ProtoParser.Parser.Members | protobus/proto_parser.py:544-558 | The loop over a oneof's members agrees with the grammar |
| ProtoParser.Parser.Enum | protobus/proto_parser.py:562-605 | Reads an enum, refusing a repeated name and a proto3 enum whose first value is not zero |
| ProtoParser.Parser.Service | protobus/proto_parser.py:634-659 | Reads a service and declares its name, refusing a repeated one |
| ProtoParser.Parser.Rpc | protobus/proto_parser.py:661-698 | Reads an rpc with either ending |
| ProtoParser.Parser.Expect | protobus/proto_parser.py:195-199 | Passes the wanted token or refuses without saying more |
| ProtoParser.Parser.Declaration | protobus/proto_parser.py:253-275 | One file-level declaration, kept in the file, or a refusal |
| ConversionRoundTrip.MessageRoundTrip | protobus/message_factory.py:422-581 | For every schema whose codecs are faithful and every well-typed message of any nesting: filling a fresh message from `_to_python(m)` succeeds and gives m with its custom values re-encoded, well typed, and shown exactly as m is |
| ConversionRoundTrip.CellRoundTrip | protobus/message_factory.py:500-521 | A scalar, custom or message value is shown as something other than None that fills back to its re-encoded self |
| ConversionRoundTrip.RowsRoundTrip | protobus/message_factory.py:466-485 | A map fills back entry by entry from its dict, none skipped and none merged |
| ConversionRoundTrip.CellsRoundTrip | protobus/message_factory.py:487-499 | A repeated field fills back item by item in order |
| ConversionRoundTrip.SiblingsStay | protobus/message_factory.py:555-558 | Setting a shown oneof member clears nothing that the message has set |
| ConversionRoundTrip.ScalarRoundTrip | protobus/message_factory.py:344-419 | Every stored scalar is shown as something its own setter takes back unchanged, enum numbers with and without a name included |
| ConversionIdentity.NativeRoundTrip | protobus/message_factory.py:525-581 | Without custom types nothing raises, the message itself comes back with every presence, unset and empty sub-messages kept apart, and messages of one type that look alike are the same |
| Conversion.CoercionKeepsNumbers | protobus/message_factory.py:344-382 | Between numbers coercion never changes the value, and refuses exactly when the field's kind has no equal one |
| Conversion.CoercionIsIdempotent | protobus/message_factory.py:344-419 | What a setter has been given once it accepts again unchanged |
| ConversionTyping.FillKeepsTyping | protobus/message_factory.py:422-507 | Whatever Python value is handed in, the result is refused or well typed: ranges, oneof exclusivity and distinct map keys included |
| ConversionTyping.PutRowFits | protobus/message_factory.py:473-484 | Setting a map entry overwrites the entry of that key or adds one, never a second |
| ConversionCodecs.FaithfulIsExact | protobus/message_factory.py:473-485 | Maps of a custom type survive the round trip if and only if the codec is faithful |
| ConversionCodecs.StableAndUndisguised | protobus/message_factory.py:510-522 | Decode-encode-decode stability is enough when no decoded value looks absent, like raw wire bytes or like a wrapper |
| ConversionCodecs.StableIsNotEnough | protobus/message_factory.py:515-521 | A concrete stable codec from bytes to bytes that does not survive, because raw bytes are sent verbatim |
| ConversionCodecs.BigintIsFaithful | protobus/custom_types.py:228-234 | The built-in integer type survives everywhere, and what is sent for it again is the received value padded to 32 bytes |
| ConversionShape.MessageIsTaken | protobus/message_factory.py:424-432 | A message handed in for one of its own type replaces it whole, at the top and in a field; one of another type is refused |
| ConversionShape.OthersAreIgnored | protobus/message_factory.py:441-450 | Entries whose key names no field or whose value is None change nothing |
| ConversionShape.FieldFrame | protobus/message_factory.py:462-507 | Filling one field sets it, clears the others of its oneof and leaves every other field as it was |
| ConversionShape.ScalarIsSet | protobus/message_factory.py:505-507 | A plain field holds the coerced value if the runtime takes it, and is refused otherwise |
| ConversionShape.CoercionOfText | protobus/message_factory.py:344-419 | Text, bytes and enum values are coerced exactly to what they stand for, and refused when they stand for nothing |
| ConversionShape.WireTakes | protobus/message_factory.py:510-522 | A custom value is encoded, bare or wrapped as its wire message; bytes for a codec over bytes are taken as encoded |
| ConversionShape.ViewLooks | protobus/message_factory.py:525-590 | A message is shown as a dict with one entry per field in order, oneof members that are not set left out: maps as dicts of the same keys, repeated fields as lists of the same length, enums by name where they have one, other plain values as they are, a missing sub-message as None |
| MessageFiller.FillMessage | protobus/message_factory.py:422-459 | The loop over a dict's items computes the filled message, skipping unknown keys and None, refusing anything else that is wrong |
| MessageFiller.FillOne | protobus/message_factory.py:462-507 | Sets one field, a map or a list in a loop, from a Python value |
| MessageFiller.FillValue | protobus/message_factory.py:500-507 | Fills a scalar, custom or nested value in place of what is there |
| MessageFiller.MessageToPython | protobus/message_factory.py:525-581 | The loop over a descriptor's fields builds exactly the view the round trip is about, in declaration order |
| SchemaLoader.MessageFactory.LoadFiles | protobus/message_factory.py:706-737 | Terminates; succeeds exactly when the passes over this listing do, then with every file loaded in an order that resolves each reference; and under the static condition exactly when some order does, so whatever the listing |
| SchemaLoader.MessageFactory.TryAll | protobus/message_factory.py:716-733 | One pass over the pending texts adds, sets aside or fails as the sweep over the files says |
| SchemaLoader.MessageFactory.AddProto | protobus/message_factory.py:219-223 | Parsing and resolving a text against what is known adds it, finds a type unknown or fails exactly as its first failing reference says, and what it declares becomes known exactly when it is added |
| SchemaLoader.CompileIsAttempt | protobus/proto_parser.py:252-285 | What the parser and the resolver report for a text is what its references, with the kinds they meet, amount to |
| SchemaOrder.FreeOfOrder | protobus/message_factory.py:706-737 | For all sets of files: whether they load is the same for every listing if and only if no order resolves them all, or no state the loader can reach is a dead end |
| SchemaOrder.SucceedsLoads | protobus/message_factory.py:714-737 | A load that succeeds has found an order in which every file's references resolve with what was loaded before it |
| SchemaOrder.SomeListingSucceeds | protobus/message_factory.py:716-725 | Files that some order resolves are loaded when they are listed in that order |
| SchemaOrder.DeadEndFails | protobus/message_factory.py:726-737 | Every state in which a missing file fails at once, or none can be added, is met by some listing, which then raises |
| SchemaBinding.SteadyLoads | protobus/message_factory.py:706-737 | Under the static condition files load, however they are listed, exactly when some order resolves every reference |
| SchemaBinding.SteadyIsExact | protobus/proto_parser.py:702-777 | The static condition on a reference, no enum further in than a message an rpc argument can stand for and nothing further in than a service of the file's own a field stands for, holds if and only if no names that can still become known overturn a verdict on it |
| SchemaBinding.SteadyHasNoDeadEnd | protobus/message_factory.py:716-737 | Under the static condition, as long as some order works, some missing file can always be added and none fails at once |
| SchemaBinding.FileGrows | protobus/message_factory.py:716-733 | Under the static condition a file that could be added goes on being addable as more is loaded |
| SchemaBinding.BindingSettled | protobus/proto_parser.py:714-734 | A reference gets the same name in every resolving order if and only if the name it gets after everything that can precede its file is known from the start, is the file's own, or is declared by a file that this file cannot be loaded without |
| SchemaBinding.AllBeforeExists | protobus/message_factory.py:716-733 | From any state that lacks the file, loading everything else that can be loaded comes to an end |
| SchemaExamples.ListingMatters | protobus/proto_parser.py:763-773 | Three concrete texts, rendered and read by the parser: listed one way they load; listed another the rpc argument meets an enum of its package and the load raises |
| SchemaExamples.BindingMatters | protobus/proto_parser.py:724-734 | Three concrete texts that load in either order and bind the rpc argument to different messages |
| ProtoReferences.ParsedComplete | protobus/proto_parser.py:356-560 | The references kept for resolution during a parse are exactly those of the fields it returns, at any depth |
| NameResolution.FileResolvable | protobus/proto_parser.py:736-777 | A file resolves if and only if none of its field and rpc-argument references fails |
| NameResolution.ResolvesFirst | protobus/proto_parser.py:714-734 | Resolving is taking the first of the reference's candidates, innermost first, that is known as anything |
| TypeGeneration.ExportPython | protobus/cli/generate_types.py:193-212 | For every schema graph, cycles included, generation terminates; it is refused if and only if two needed protobuf names share a Python name or an rpc name is a keyword; otherwise a class is written for exactly the services and the reachable messages and enums, each once, and every class an annotation or signature names is written |
| TypeGeneration.SearchComplete | protobus/cli/generate_types.py:125-153 | What has been emitted once nothing is pending is exactly what some chain of fields reaches from the services' requests and responses |
| TypeGeneration.NoClash | protobus/cli/generate_types.py:114-123 | No two needed names end up under one Python name |
| TypeGeneration.ConstantsCanClash | protobus/cli/generate_types.py:158-159 | A concrete schema, services `A` and `a`, whose constants share one name without being refused |
| TypeGeneration.DistinctIfClear | protobus/cli/generate_types.py:158-186 | All top-level names of the module differ when the services' constants stay clear of each other and of the classes |
| TypeGeneration.ClearIfDistinct | protobus/cli/generate_types.py:158-186 | and only then |
| TypeMeaning.AnnotationMeans | protobus/cli/generate_types.py:82-112 | An annotation takes exactly the Python values its field can have: dicts from keys to values for a map, lists of elements for another repeated field, one value otherwise, and None only where there may be no sub-message |
| TypeMeaning.RecordMeans | protobus/cli/generate_types.py:125-153 | The class written for a message has one entry per field, under its name, that takes exactly what the field can have |
| TypeMeaning.ProtocolMeans | protobus/cli/generate_types.py:156-190 | A protocol has one signature per method, taking the request class and giving the response class |
| TypeMeaning.ClassNameMeans | protobus/cli/generate_types.py:51-62 | A class is called by its full name, less the stripped package, with underscores for dots and one more behind a keyword |
| TypeMeaning.ConstantMeans | protobus/cli/generate_types.py:158-159 | The constant of a service is its class name in capitals with a suffix, and holds the full name |
| TypeMeaning.StripMeans | protobus/cli/generate_types.py:193-199 | A package is stripped exactly when it is the one package of all exported services |
| TypeEmitter.Emitter.EmitType | protobus/cli/generate_types.py:125-154 | Marks the type, writes its one definition, and before returning has emitted everything its fields lead to and nothing else; terminates on cycles |
| TypeEmitter.Emitter.EmitMessage | protobus/cli/generate_types.py:136-153 | Writes one class whose fields and annotations are the descriptor's, then visits the pending types |
| TypeEmitter.Emitter.EmitAll | protobus/cli/generate_types.py:152-153 | Visits each pending type, leaving what they lead to emitted |
| TypeEmitter.Emitter.FieldType | protobus/cli/generate_types.py:82-112 | The annotation of a field, and on the pending list every type it makes the generator visit |
| TypeEmitter.Emitter.Claim | protobus/cli/generate_types.py:114-123 | A Python name belongs to the first protobuf name that claims it; any other is refused |
| TypeEmitter.Emitter.EmitService | protobus/cli/generate_types.py:156-190 | The constant, the protocol with one signature per method, and every type the methods need; refused on a clash or a keyword rpc |
| TypeOutput.PlainNamesDiffer | protobus/cli/generate_types.py:51-62 | Names without underscores, all inside the stripped package or none stripped, never share a Python name, so only underscores or foreign packages can cause a refusal |
| TypeOutput.ClassNameIsLegal | protobus/cli/generate_types.py:51-62 | A class name has no dots and is no keyword |
| TypeOutput.ClosedHolds | protobus/cli/generate_types.py:125-153 | A set closed under field references that holds the roots holds everything reachable |
| TypeOutput.AnnotationMentions | protobus/cli/generate_types.py:95-112 | An annotation names only types its field leads to, and never a map's entry type |
| CustomTypes.EncodeDecode | protobus/custom_types.py:165-206 | Encoding then decoding is the identity on 0 .. 2^256-1, in 32 bytes; exactly the values outside it and non-integers are refused, floats beyond 2^53-1 included |
| CustomTypes.DecodeEncode | protobus/custom_types.py:209-225 | Decoding accepts exactly inputs of at most 32 bytes, and encoding the result pads the input with zeros on the left |
| CustomTypes.EncodingKeepsOrder | protobus/custom_types.py:206-206 | Encoding is strictly monotone, both ways, from integers to bytewise lexicographic order |

## Left out

What the models assume about the world around them, and what the program does
that they do not describe.

- Transport: sockets, heartbeats, URL handling and the AMQP client are present only as outcomes chosen by the environment.
- Time: timers, TTL expiry and idle timeouts are steps that may be taken at any moment; a clock exists only for the deadline of a unary call.
- Declarations: exchanges, queues and listeners are not described; each component to be restored is a restorer that succeeds or fails. Retry-queue topology enters only as the hop back to the main queue.
- Python text: splitting topics on dots, `int()`, `float()`, base64 and UTF-8 conversions are parameters; where they succeed their result is used as is.
- Numbers: floats are reals, so rounding to 32 bits and not-a-number are not modelled.
- Configuration: the limits read from the environment are constant during a run.
- Weak references: a dropped reply object is one step of the environment.
- Connection.BusConnection.Connect: the first connect is one step, and no user connect runs while a reconnection or another connect is running; with its own suspension it could mark ready without looking at the handle again.
- Reconnection.OneLineage: one `disconnect` at a time; overlapping calls of it are not modelled.
- ConfirmWindow.WindowHolds: the send itself is assumed not to raise before its future exists, which would leave the counter one too high; a caller cancelled while in flight settles as any other.
- StreamSystem.RunInv: the global total may fall below what pending calls hold after a disconnection; the exact condition is proved beside it.
- StreamSafety.StreamSafety: a redelivered request is assumed to produce the same chunks again; frames without a sequence number are not sent by this producer, and the guarantee is about numbered frames.
- MessageDispatcher.StreamingReply.Next: the wait for the send before the first pull, and the parking itself, are not described; a woken reader simply looks again.
- StreamSending.NoticeIsForWrittenRequest: a send that runs over an open channel writes the request at once, and running it is one step after the window let it in; the sending coroutine is described on values, its fields being those of `MessageDispatcher.StreamingReply`.
- LadderSafety.NoRequestLost: late-ack consumers with retries on and a named service; early-ack, no-ack and retry-less consumers make no such promise. A publish that fails because its channel closed means that the channel is closed.
- LadderSafety.LeftUnsettledIff: an ack or a reject fails only on a closed channel, and the text of the handler's error can be read without raising.
- LadderRuns.HandlerRunsBounded: each request is published once; a redelivery after a lost channel runs the handler again and is outside this bound.
- ReconnectionProgress.ReconnectionSucceeds: restorers that are registered while an attempt is under way are not among the helpful steps; a loss noticed during the connect itself is not either.
- RpcSteps.PublishedIsExact: a readiness wait that ends with the connection given up at the very deadline raises one of two errors; the model takes either.
- ProtoParser.Parser.Parse: `import` and `option` statements are read by the program and refused by the model (editions, `extend` and groups are refused by both); character-level lexing, line numbers and the list of files a schema depends on are not modelled. The names of the scalar types are a parameter.
- ProtoParser.Parser.Declaration: refuses `import` and `option` declarations, which the program reads.
- ProtoParser.Parser.MessageBody: refuses `option` and `reserved` items, which the program reads and which declare and refer to nothing.
- ProtoParser.Parser.Item: refuses `option` and `reserved` items.
- ProtoParser.Parser.Field: refuses bracketed field options, which the program reads for `packed`, `deprecated`, `default` and `json_name`.
- ProtoParser.Parser.Map: refuses bracketed field options.
- ProtoParser.Parser.Members: refuses option statements inside a oneof.
- ProtoParser.Parser.Enum: refuses option and reserved items and value options.
- ProtoParser.Parser.Service: refuses option statements.
- ProtoParser.Parser.Rpc: refuses option statements inside the braces of an rpc.
- ProtoFileRoundTrip.ParsingUndoesRendering: trees whose type names are spelled like the words that start another construct (`message`, `option`, `stream`, ...) have no rendering the parser reads back, and are excluded.
- NameResolution.FileIff: with several unresolvable references, the first one decides whether the file is set aside or the load fails; the text of the message is not modelled.
- SchemaLoader.MessageFactory.LoadFiles: the descriptor pool's own refusal of a full name that is declared twice is not modelled, so the static results are about files whose names are unique (`Tidy`); reading the files and the names they are loaded under are left out.
- SchemaBinding.BindingSettled: stated for files that meet the static condition; without it loading itself can depend on the order, and "before its file" is not one set of files.
- ConversionRoundTrip.MessageRoundTrip: map containers keep insertion order here, so equal views are equal in order as well; dict equality in Python needs less. Only `custom_decode=True`. Messages are values, so in-place update of shared sub-messages is not described.
- MessageFiller.FillOne: a repeated field is filled from a list; tuples, sets and other iterables, which the program takes as well (strings, bytes and dicts excepted), are not described.
- TypeGeneration.ExportPython: the imports at the head of the module, and a message named like one of them, are not modelled; protobuf identifiers are taken to be Python identifiers unless they are keywords.
- Codec registration, the timestamp codec, service dispatch, authorization, events, logging, configuration parsing and the command line have no counterpart here.
