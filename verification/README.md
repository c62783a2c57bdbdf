# A verified model of the Binance market-data gateway

The gateway keeps one order book per product. An owner thread applies what the
transport delivers; RPC handlers stream snapshots and updates to subscribers; a
coordinator replaces failed transports; a second publication fans normalized
events out. These parts run concurrently and meet at mutexes, ring buffers and
callbacks. This project models them and proves what their composition is for:

- what a subscriber has received, in every run, is the replay of what the owner
  applied after the subscriber's admission, of one connection generation, and
  folding it gives the owner's book;
- every admitted input is accounted for, every request gets one answer, and the
  owner thread never blocks while something is outstanding;
- buffering updates before the snapshot is invisible, and a reset runtime
  behaves like a new one, over every interleaving, with the exact condition under
  which it does not;
- the recovery coordinator uses the event source legally, retries at most six
  times in a row, and gives up with exactly seven failures as evidence;
- cancellation, shutdown, the symbol validator and the decimal scale do exactly
  what they should.

`dafny verify dfyconfig.toml` checks everything.

## How it is modelled

| files | part |
|---|---|
| `order_book_channel.dfy` | the subscriber channel: log, ring, and the RPC handler's write loop |
| `projection_library.dfy`, `runtime_core.dfy` | the Projection library as seen by the runtime; book, bootstrap buffer and reported state |
| `publication_hub.dfy` | all sessions of one runtime, hand-out of updates, stream invariants |
| `market_runtime.dfy` | the runtime as a state machine |
| `runtime_tickets.dfy`, `runtime_requests.dfy`, `runtime_sessions.dfy`, `runtime_resets.dfy` | its invariants |
| `runtime_runs.dfy` | its main results, over every run |
| `core_history.dfy`, `runtime_history.dfy`, `runtime_journal.dfy` | what the core is at every point between two inputs of every run |
| `runtime_delivery.dfy` | one input at a time, and the reset runtime against a new one |
| `runtime_witnesses.dfy` | concrete runs: counterexamples, and runs that meet the hypotheses |
| `runtime_object.dfy` | the runtime as an object, method by method |
| `subscriber_objects.dfy` | the owner's vector of subscribers as channel objects with their rings |
| `event_publication.dfy` | the event source and its channels |
| `recovery_policy.dfy`, `recovery_coordinator.dfy`, `recovery_loop.dfy` | the recovery coordinator |
| `recovery_joint.dfy` | the coordinator and the runtime together |
| `async_cancellation.dfy`, `shutdown_contexts.dfy` | the two shutdown protocols |
| `utf8_symbol.dfy`, `decimal_scale.dfy`, `digits.dfy` | the two text routines |

Each stateful part exists twice: as a class whose fields the methods update in
place (arrays, loops, early exits), and as step functions on a value. Every
method's postcondition equates the new state and the result with the step
function; the invariants and run theorems are about the step functions.

Steps of the runtime are its critical sections; an item taken from the ingress
is kept explicitly until its ticket is finished. Work the owner does outside the
mutex (applying to the projection, handing out to channels) is one step with the
critical section that follows it where no other thread could see the difference.
One step uses one clock sample, which may fail. Books, updates, snapshots and
requests are opaque numbers. History (the fate of each ticket, the applied
updates, the answers, what a writer wrote) is recorded in the state but never
read by a step. A subscription stays in the model after the runtime dropped it;
the runtime's vector is the residents, in admission order.

Assumed of the Projection library: a reset book awaits its baseline; an
installation succeeds only in that state; a book starts to need a
resynchronisation exactly on a detected gap (`LibraryOk`). Some results name two
more: an installed book keeps its baseline until it is reset (`KeepsBaseline`),
and an update that is ignored leaves the book alone (`IgnoringIsNeutral`). The
first is shown to be needed, and all of them hold together of a small library
(`AssumptionsAreConsistent`, `ToyServes`, `MixingIsPossible`).

The journal of a run (`runtime_journal.dfy`) is kept beside the machine: which
inputs were finished since the last reset, what handing out each applied update
ran into, and where stop requests and overflows came. The digit scan of
`std::from_chars` is modelled as its loop, with the check for 64 bits.

## Where the code is weaker than its intent

- Staging the two mandatory records twice on a drained channel would repeat
  sequences 1 and 2. The runtime stages only fresh channels.
- The barrier of `observe` can be passed, with a well state reported, although
  an earlier input was discarded: a reset in between hides it
  (`BarrierForgetsResets`). What an observer can rely on is proved: an input not
  yet processed when it looked, a passed barrier and an unchanged reset count
  mean that the input was processed or that the state is unwell
  (`UnchangedResetsTell`). `Stopped` counts as unwell, because a stopped runtime
  may have discarded inputs too (`StoppedHidesDiscards`).
- After a reset, a subscriber that was ended but not yet closed still makes the
  next publication need the clock; if the clock fails, the reset runtime faults
  where a new one would not. The condition is exact (`ResetIsFreshExactly`), and
  such a state is reached by a run (`LingeringIsReached`).
- A session whose snapshot had no generation may carry updates of several.
- A retryable failure that finds the runtime neither faulted nor out of sync ends
  the recovery: the reset is refused and the error is terminal.
- If the service shuts the event source down by itself, the coordinator's next
  open or replacement close is refused.
- The decimal scale is truncated to 32 bits before its range is checked; below
  2^32 characters this is invisible.

## Model

| member | source | states |
|---|---|---|
| OrderBookChannel.AdmitKeeps | src/g7/order_book_publication.cpp:71-126 | Offering an update keeps the log numbered 1, 2, 3, ... without reuse or wrap; it is admitted exactly when the channel stays active and grows by one, and fails only at the last 64-bit sequence |
| OrderBookChannel.TerminalizeKeeps | src/g7/order_book_publication.cpp:128-146 | The first terminal wins, adds no record and takes the next sequence; a later one changes nothing |
| OrderBookChannel.AcknowledgeKeeps | src/g7/order_book_publication.cpp:173-195 | Acknowledging any item, right or wrong, keeps the log and its numbering |
| OrderBookChannel.CloseKeeps | src/g7/order_book_publication.cpp:205-220 | An owner's close leaves what is queued in place, a writer's close clears it |
| OrderBookChannel.StageContiguousIffFresh | src/g7/order_book_publication.cpp:44-69 | Staging commits both records or neither, and keeps the numbering exactly when the channel was never used |
| OrderBookChannel.RestagingRepeatsSequences | src/g7/order_book_publication.cpp:44-69 | A new channel that is staged, drained by acknowledgements and staged again issues sequences 1 and 2 twice |
| OrderBookChannel.TerminalComesLast | src/g7/order_book_publication.cpp:148-171 | A terminal is handed out only when every ordinary record was acknowledged, and is numbered next |
| OrderBookChannel.SubscriberChannel.RingPush | src/g7/order_book_publication.cpp:254-263 | Pushing on the circular array appends to the log unless all slots are taken |
| OrderBookChannel.SubscriberChannel.RingPop | src/g7/order_book_publication.cpp:265-272 | Popping releases the oldest unreleased record |
| OrderBookChannel.SubscriberChannel.StageInitial | src/g7/order_book_publication.cpp:44-69 | The ring object stages like the log |
| OrderBookChannel.SubscriberChannel.AdmitUpdate | src/g7/order_book_publication.cpp:71-126 | The ring object admits like the log, with the same result |
| OrderBookChannel.SubscriberChannel.TerminalizeWith | src/g7/order_book_publication.cpp:128-146 | The ring object terminalizes like the log |
| OrderBookChannel.SubscriberChannel.PeekFront | src/g7/order_book_publication.cpp:148-171 | What the ring shows is the oldest unacknowledged record of the log, else its terminal |
| OrderBookChannel.SubscriberChannel.AcknowledgeItem | src/g7/order_book_publication.cpp:173-195 | The ring object acknowledges like the log, with the same result |
| OrderBookChannel.SubscriberChannel.OwnerClose | src/g7/order_book_publication.cpp:205-211 | Only the state changes |
| OrderBookChannel.SubscriberChannel.WriterClose | src/g7/order_book_publication.cpp:213-220 | The ring is emptied slot by slot and the terminal dropped |
| OrderBookChannel.WriterStepKeeps | src/g7/grpc_service.cpp:688-746 | Every turn of the handler's loop keeps: what was written is a prefix of the stream, and the item in hand is the next one |
| OrderBookChannel.EveryRunWritesAPrefix | src/g7/grpc_service.cpp:688-746 | Over every interleaving of owner and handler, the written items are a prefix of the channel's stream numbered from 1, a gap notice only last, and peek and acknowledge never mismatch |
| PublicationHub.AdmitFrom | src/g3/market_runtime.cpp:1215-1226 | The hand-out gives the update to residents only, stops at the first exhausted channel, and fails exactly if there is one |
| PublicationHub.StageStartsAtTheCut | src/g3/market_runtime.cpp:802-868 | A new session exists exactly if its queue holds both mandatory records, and starts with the snapshot of the owner's current book and generation, owing nothing |
| PublicationHub.TerminateKeeps | src/g3/market_runtime.cpp:938-953 | Ending the sessions adds no record, changes no earlier terminal and leaves nobody active |
| PublicationHub.CloseAllKeeps | src/g3/market_runtime.cpp:916-936 | Closing the sessions adds no record and leaves nobody active |
| PublicationHub.PublishOrTerminateKeeps | src/g3/market_runtime.cpp:1183-1227 | Handing out one applied update extends every active session by exactly it; if that ran into a fault nobody stays active; no session gets another generation |
| PublicationHub.PublishOrTerminateChains | src/g3/market_runtime.cpp:1183-1227 | The update each session got leads from the book it had to the owner's book |
| PublicationHub.FoldingIsTheBook | src/g3/market_runtime.cpp:1160-1181 | Replaying the first k updates of a session on its snapshot gives the owner's book after the k-th of them |
| PublicationHub.WritersReplay | src/g7/grpc_service.cpp:688-746 | What a handler wrote is Accepted, the snapshot of the cut, and then applied updates in order |
| RuntimeRuns.SessionsReplay | src/g3/market_runtime.cpp:579-704 | Session replay, for every session of every run: Accepted, Snapshot, a prefix of the updates applied since the cut, each once, numbered from 1, at most one gap notice and that last; an active session was handed all of them |
| RuntimeRuns.SessionsFold | src/g3/market_runtime.cpp:579-704 | In every run, folding an active session's updates onto its snapshot gives the owner's book, and folding a prefix gives the book at that point |
| RuntimeRuns.SessionsAreIsolated | src/g3/market_runtime.cpp:1103-1116 | In every run, each active session has the current generation, and nothing a session of known generation wrote or holds names another one |
| RuntimeWitnesses.UnknownGenerationMixes | src/g3/market_runtime.cpp:1103-1116 | A run of a new runtime in which the snapshot names no generation and one session carries updates of two |
| RuntimeWitnesses.MixingIsPossible | src/g3/market_runtime.cpp:1103-1116 | A library exists that meets every assumption and the hypotheses of that run |
| ProjectionLibrary.AssumptionsAreConsistent | src/g3/market_runtime.cpp:52-66 | The assumptions on the Projection library hold together, of a library that applies updates and detects gaps |
| RuntimeSessions.StepIsSessionStep | src/g3/market_runtime.cpp:579-704 | Every step of the machine adds no record, hands out one applied update, or admits one session at the current cut of a live runtime |
| RuntimeSessions.StepKeepsIsolation | src/g3/market_runtime.cpp:1083-1116 | Gaps, faults, resets, installations and stale submissions keep the isolation of sessions |
| RuntimeTickets.BarrierSettles | src/g3/market_runtime.cpp:234-254 | Once the barrier is passed no earlier ticket is queued, and one in flight or dropped since the last reset shows in the state |
| RuntimeTickets.BarrierExactly | src/g3/market_runtime.cpp:234-254 | In terms of the history of the tickets: with a well state, all inputs before the barrier were processed to their end if and only if none was discarded before a reset |
| RuntimeTickets.FaultKeeps | src/g3/market_runtime.cpp:1264-1294 | A fault discards the ingress, counts it as processed, keeps both counters monotone and stops admission |
| RuntimeTickets.PublishedKeeps | src/g3/market_runtime.cpp:1229-1246 | Publishing the state keeps it coherent with the book; a needed resynchronisation empties the ingress and stops admission |
| RuntimeTickets.SubmitKeeps | src/g3/market_runtime.cpp:194-232 | A submission is admitted exactly if it gets the next ticket, and otherwise leaves the ingress alone |
| RuntimeTickets.StepIsSound | src/g3/market_runtime.cpp:579-704 | Every step of every thread keeps the ticket accounting, the rule that an unwell runtime admits and holds nothing, and the monotone counters |
| RuntimeRuns.TicketsAreConserved | src/g3/market_runtime.cpp:1288-1303 | In every run the queue holds the consecutive tickets ending at the last admitted one, and processed, queued and in-flight account for all of them |
| RuntimeRuns.ObservationBarrier | src/g3/market_runtime.cpp:234-254 | When observe returns, the state is unwell, or everything admitted before was processed unless lost before a reset |
| RuntimeWitnesses.BarrierForgetsResets | src/g3/market_runtime.cpp:234-254 | A concrete run in which the barrier is passed and the state is well although an earlier input was never processed |
| RuntimeWitnesses.StoppedHidesDiscards | src/g3/market_runtime.cpp:234-254 | A run in which the barrier is passed, no reset came in between and the state is Stopped although an earlier input was never processed |
| RuntimeRuns.UnchangedResetsTell | src/g3/market_runtime.cpp:234-254 | Over every run: an input not processed when the observer looked, a passed barrier and an unchanged reset count mean that it was processed to its end, or the state is unwell |
| RuntimeRequests.OwnerProgress | src/g3/market_runtime.cpp:579-704 | Each owner step strictly lowers a measure of the outstanding work |
| RuntimeRequests.BlockedExactly | src/g3/market_runtime.cpp:598-613 | The owner blocks exactly when everything is settled and no sweep or stop is due |
| RuntimeRequests.StepKeepsAnswers | src/g3/market_runtime.cpp:547-556 | An answer, once given, is never changed or withdrawn |
| RuntimeRequests.ExitFindsNothing | src/g3/market_runtime.cpp:688-704 | When the loop is left everything was answered, and the final clean-up changes no request |
| RuntimeRequests.SelectKeepsRequests | src/g3/market_runtime.cpp:621-643 | Selecting work keeps every unanswered request in someone's hands |
| RuntimeRequests.CommitAdmissionKeepsRequests | src/g3/market_runtime.cpp:790-893 | Performing an admission answers it, which was unanswered before, whatever goes wrong |
| RuntimeRuns.DrainSettles | src/g3/market_runtime.cpp:579-704 | Without further input the owner settles every input and answers every request, and leaves if a stop was requested |
| RuntimeRuns.ExitIsSettled | src/g3/market_runtime.cpp:688-704 | In every run the loop is left only with processed equal to last admitted and nothing unanswered |
| RuntimeResets.ResetsAreCounted | src/g3/market_runtime.cpp:990-1022 | In every run the reset count is the number of reset requests answered with success, plus the one being reported |
| RuntimeCore.BootstrapTransparency | src/g3/market_runtime.cpp:1043-1101 | Updates buffered before the snapshot, up to the capacity, have the same effect on the whole core as arriving right after it, gaps and faults in the replay included |
| RuntimeCore.OverflowIsVisible | src/g3/market_runtime.cpp:1043-1048 | One buffered update too many faults the runtime for good |
| RuntimeCore.TransparencyNeedsTheBaseline | src/g3/market_runtime.cpp:1043-1054 | Transparency fails for a library whose installed book still awaits its baseline |
| RuntimeCore.ReplayIsDelivery | src/g3/market_runtime.cpp:1090-1100 | Replaying the buffer equals delivering its updates one by one |
| RuntimeCore.ResetEquivalence | src/g3/market_runtime.cpp:955-1023 | From a reset core every input sequence leads where it leads from a new one, if handing out runs into the same troubles |
| CoreHistory.StopCommutes | src/g3/market_runtime.cpp:153-175 | A stop request and an input that does not find the runtime halted can be exchanged |
| RuntimeJournal.CoreIsDelivery | src/g3/market_runtime.cpp:579-704 | In every run, at every point between two inputs, the core is what delivering exactly the inputs finished since the last reset, in order, makes of a new core, with stop requests and overflows where they came; no interleaving of callers, sessions and requests shows |
| RuntimeJournal.OnlyTheJournalShows | src/g3/market_runtime.cpp:955-1023 | Reset equivalence over real interleavings: two runs that finished the same inputs since their last reset or start, and met the same troubles, have the same core whatever happened before |
| RuntimeJournal.BufferingDoesNotShow | src/g3/market_runtime.cpp:1043-1101 | Bootstrap transparency over real interleavings: a run that finished updates before the snapshot and one that finished them after it have the same core |
| RuntimeJournal.WorkingClockServes | src/g3/market_runtime.cpp:1192-1203 | A run in which the clock never failed the owner meets no clock trouble |
| PublicationHub.TroubleExactly | src/g3/market_runtime.cpp:1192-1226 | Handing out an update fails exactly if somebody is resident and the clock failed, or a resident channel used up its sequences |
| RuntimeDelivery.FeedDelivers | src/g3/market_runtime.cpp:579-704 | Letting the owner work off one input with no active session, step by step, equals delivering it to the core |
| RuntimeDelivery.BufferingIsInvisible | src/g3/market_runtime.cpp:1043-1101 | Bootstrap transparency for inputs worked off one at a time |
| RuntimeDelivery.PublishToOver | src/g3/market_runtime.cpp:1192-1203 | With no active session a publication faults exactly if the clock fails while an ended subscriber lingers |
| RuntimeDelivery.StartedIsReady | src/g3/market_runtime.cpp:123-147 | A run that starts a new runtime leaves it ready, with a new core and no session |
| RuntimeDelivery.ResetIsReady | src/g3/market_runtime.cpp:955-1023 | A reset gives the core of a new runtime, answers its request, keeps the queue and leaves no session active; the runtime is ready exactly if nothing else waits |
| RuntimeDelivery.ResetIsFreshExactly | src/g3/market_runtime.cpp:955-1023 | No input sequence tells a reset runtime from a new one if and only if the clock works, nobody lingers, or publication was shut down |
| RuntimeDelivery.ResetIsFreshStart | src/g3/market_runtime.cpp:955-1023 | With nobody lingering, whatever the clock does, or with a working clock, a reset runtime goes through the books, generations, states and faults of a new one |
| RuntimeDelivery.LingeringShows | src/g3/market_runtime.cpp:1192-1203 | Otherwise the first applied update is a clock fault that a new runtime does not have |
| RuntimeWitnesses.LingeringIsReached | src/g3/market_runtime.cpp:938-1011 | A run of a new runtime, with a session admitted and a planned reset done, that ends ready with a new core and a lingering subscriber |
| RuntimeWitnesses.SessionIsReached | src/g3/market_runtime.cpp:760-893 | A run of a new runtime that admits a session |
| RuntimeObject.MarketRuntime.SweepClosedSubscribers | src/g3/market_runtime.cpp:908-913 | The loop drops exactly the closed residents |
| RuntimeObject.MarketRuntime.CloseAllSubscribers | src/g3/market_runtime.cpp:916-923 | The loop closes and drops every resident |
| RuntimeObject.MarketRuntime.TerminalizeActiveSubscribers | src/g3/market_runtime.cpp:938-953 | The loop ends exactly the active residents |
| RuntimeObject.MarketRuntime.PublishAppliedUpdate | src/g3/market_runtime.cpp:1183-1227 | Sweep, clock and hand-out loop together are the machine's publication |
| RuntimeObject.MarketRuntime.HandOut | src/g3/market_runtime.cpp:1215-1226 | The loop with its early exit is the recursive hand-out |
| RuntimeObject.MarketRuntime.CompleteAllAdmissions | src/g3/market_runtime.cpp:547-556 | The loop answers every queued admission that has no answer |
| RuntimeObject.MarketRuntime.OwnerTurn | src/g3/market_runtime.cpp:579-704 | One turn of the owner thread is one step of the machine |
| RuntimeObject.MarketRuntime.OwnerLoop | src/g3/market_runtime.cpp:579-704 | The loop keeps every invariant, changes no answer, stops within the measure, and then everything is settled |
| SubscriberObjects.HandOutRefines | src/g3/market_runtime.cpp:1215-1226 | The hand-out over all sessions is the hand-out over the residents' channels, with the same failure |
| SubscriberObjects.WrittenResiding | src/g7/grpc_service.cpp:688-746 | A step of an RPC handler changes its own channel in the owner's vector and no other |
| SubscriberObjects.SubscriberVector.HandOut | src/g3/market_runtime.cpp:1215-1226 | The loop over ring objects admits in order, in place, up to the first refusal |
| SubscriberObjects.SubscriberVector.SweepClosed | src/g3/market_runtime.cpp:908-913 | The vector keeps exactly the objects that are not closed, in order, unchanged |
| SubscriberObjects.SubscriberVector.PublishApplied | src/g3/market_runtime.cpp:1183-1227 | Over ring objects, publication leaves what the machine's publication leaves and runs into the same fault |
| SubscriberObjects.SubscriberVector.TerminalizeActive | src/g3/market_runtime.cpp:938-953 | Over ring objects, ending the sessions leaves what the machine leaves |
| SubscriberObjects.SubscriberVector.CloseForShutdown | src/g3/market_runtime.cpp:916-923 | Over ring objects, the shutdown closes every channel and empties the vector |
| SubscriberObjects.SubscriberVector.Admit | src/g3/market_runtime.cpp:876-884 | A committed admission adds its channel object |
| EventPublishing.EveryRunFansOut | src/g9/event_publication.cpp:338-506 | While no publish failed, acknowledged plus queued records of a channel are Accepted and the events of its stream since its admission, complete while active; active channels have the source's generation; none is active once the source is closed |
| EventPublishing.FanOutEffect | src/g9/event_publication.cpp:463-481 | A publish offers the event to exactly the listed channels of its stream and generation, in place |
| EventPublishing.PublishableExactly | src/g9/event_publication.cpp:439-481 | With a clock and unexhausted channels a publish fails precisely for a wrong generation or a source that is no longer open |
| EventPublishing.ForeignKeepsLifecycle | src/g9/event_publication.cpp:396-506 | Subscribers and publishers never change the source's state or generation |
| EventPublishing.EventPublication.OpenFor | src/g9/event_publication.cpp:338-350 | Opens only a closed source, with a larger generation than before |
| EventPublishing.EventPublication.QuiesceFor | src/g9/event_publication.cpp:352-360 | Quiesces only the open source of that generation |
| EventPublishing.EventPublication.CloseReplacedFor | src/g9/event_publication.cpp:362-378 | Closing for a replacement ends exactly the channels of that generation |
| EventPublishing.EventPublication.ClosePermanentlyFor | src/g9/event_publication.cpp:380-394 | Closing for good ends exactly the channels of that generation |
| EventPublishing.EventPublication.Subscribe | src/g9/event_publication.cpp:396-437 | All refusals of a subscription in their order, and its success |
| EventPublishing.EventPublication.PublishEvent | src/g9/event_publication.cpp:439-481 | The publish loop with its early exit is the fan-out |
| EventPublishing.EventPublication.RemoveChannel | src/g9/event_publication.cpp:483-493 | Removing unlists exactly that channel |
| EventPublishing.EventPublication.ShutdownNow | src/g9/event_publication.cpp:495-506 | Shutdown closes every listed channel, once |
| RecoveryPolicy.RetryAfterExactly | src/g5/spot_recovery.cpp:149-164 | The digit loop with its overflow check understands exactly the non-empty digit strings whose number is in the range of seconds, and yields that number (delay-seconds, section 10.2.3 of RFC 9110) |
| RecoveryPolicy.ScanIsNumber | src/g5/spot_recovery.cpp:154-158 | Scanning stops behind the first digits with their number, or knows that it does not fit 64 bits |
| RecoveryPolicy.RetriedExactly | src/g5/spot_recovery.cpp:44-125 | A failure is retried if and only if the runtime's state allows it and the transport error does not forbid it; rate limits exactly with a readable Retry-After, which becomes the minimum delay |
| RecoveryPolicy.PlannedRotationDeadline | src/g5/spot_recovery.cpp:775-787 | The deadline is the start plus the age, refused exactly when that overflows |
| RecoveryCoordination.ProtocolBalances | src/g11/multi_market_runtime.cpp:209-231 | Calls that follow the protocol open each generation at most once, and quiesce and close each opened one exactly once |
| RecoveryCoordination.CallbacksMatch | src/g11/multi_market_runtime.cpp:209-231 | The callbacks do to the publication what the coordinator thinks they do |
| RecoveryCoordination.AttemptPublishes | src/g9/event_publication.cpp:454-463 | The current attempt's publish never fails because of the source's state |
| RecoveryCoordination.RetryPhaseKeeps | src/g5/spot_recovery.cpp:691-739 | A retry uses up one of six attempts; its delay is the table's, or a longer Retry-After; it fails only without a clock |
| RecoveryCoordination.FailurePhaseKeeps | src/g5/spot_recovery.cpp:648-739 | Exhausted exactly on the recoverable failure after six recoveries without a Live, with exactly seven consecutive failures as evidence |
| RecoveryCoordination.PlannedPhaseKeeps | src/g5/spot_recovery.cpp:611-646 | A planned rotation closes the old generation and adds one generation, one rotation and one reset |
| RecoveryCoordination.RoundKeeps | src/g5/spot_recovery.cpp:469-748 | One pass leaves nothing open, keeps generation = 1 + rotations + recoveries = 1 + resets, one attempt at a time, and uses up an attempt unless it marked Live |
| RecoveryCoordination.CloseAfterExceptionEffect | src/g5/spot_recovery.cpp:879-901 | After an exception the source is closed by accepted calls only |
| RecoveryCoordination.LoopSettles | src/g5/spot_recovery.cpp:469-748 | However the loop is left, nothing is open, the calls followed the protocol, none was refused while the clock worked, and exhaustion is backed by seven failures |
| RecoveryCoordination.EveryRecoverySettles | src/g5/spot_recovery.cpp:469-748 | From the start of a recovery, over any passes: it settles, each generation was opened at most once and each opened one quiesced and closed exactly once |
| RecoveryJoint.GenerationFollowsResets | src/g5/spot_recovery.cpp:469-748 | Coordinator and runtime together, nobody else asking for resets: at every loop head and exit of every run, the generation is one more than the runtime's own reset count |
| RecoveryJoint.CallCounts | src/g3/market_runtime.cpp:256-325 | A reset call that returns counts exactly one reset of the owner if it succeeded and none if it was refused or failed, whatever others did meanwhile |
| RecoveryJoint.NoCallNoReset | src/g3/market_runtime.cpp:955-1023 | Without a call of the coordinator no reset happens |
| RecoveryJoint.RefusedExactly | src/g3/market_runtime.cpp:256-272 | A recovery reset is refused exactly if the runtime is neither faulted nor out of sync, or not running |
| RecoveryJoint.RefusedResetEnds | src/g5/spot_recovery.cpp:717-739 | A retryable failure whose reset is refused ends the recovery, with the same generation and not exhausted |
| RecoveryJoint.RecoveryCallCanSucceed | src/g3/market_runtime.cpp:256-289 | A run reaches a faulted runtime in which a recovery call returns with success |
| RecoveryCoordination.AtMostSixBetweenLives | src/g5/spot_recovery.cpp:672-739 | Without a Live there are at most six recoveries in a row |
| RecoveryCoordination.AfterOutsideShutdown | src/g9/event_publication.cpp:338-394 | Exactly which calls are refused after the service shut the source down |
| RecoveryLoop.FailureHistory.Record | src/g5/spot_recovery.cpp:911-938 | The array is the last seven of all recorded failures, oldest first, despite the shift in place |
| RecoveryLoop.RecoveryCoordinator.OpenSourceGeneration | src/g5/spot_recovery.cpp:850-863 | Opening through the callback, or the exception |
| RecoveryLoop.RecoveryCoordinator.QuiesceAttempt | src/g5/spot_recovery.cpp:819-848 | Stop, then quiesce if the generation was opened |
| RecoveryLoop.RecoveryCoordinator.CloseSourceGeneration | src/g5/spot_recovery.cpp:865-877 | Closing through the callback for each outcome |
| RecoveryLoop.RecoveryCoordinator.CloseCallback | src/g11/multi_market_runtime.cpp:220-231 | The publication's own close methods do what the coordinator's picture says |
| RecoveryLoop.RecoveryCoordinator.RunRound | src/g5/spot_recovery.cpp:469-748 | One pass of the loop on the object and the publication |
| RecoveryLoop.RecoveryCoordinator.CloseSourceAfterException | src/g5/spot_recovery.cpp:879-901 | The clean-up after an exception |
| RecoveryLoop.RecoveryCoordinator.CoordinatorLoop | src/g5/spot_recovery.cpp:469-748 | The loop on the object ends with nothing open and the protocol followed |
| AsyncCancellation.StepKeeps | src/g4/spot_transport.cpp:337-632 | Every completion keeps the count of outstanding pieces after a cancel, and at most one report |
| AsyncCancellation.StaleTimerIsIgnored | src/g4/spot_transport.cpp:535-572 | A timer completion is without effect exactly if it is of an older generation |
| AsyncCancellation.CancelledRequestSettles | src/g4/spot_transport.cpp:337-632 | In every run: one report at most, none after a silent retirement; a cancelled request that received its completions is over, with one report exactly if a genuine error, an elapsed timer or the final read came |
| AsyncCancellation.SocketStepKeeps | src/g4/spot_transport.cpp:655-968 | The same accounting for the socket, message by message |
| AsyncCancellation.CancelledSocketSettles | src/g4/spot_transport.cpp:655-968 | The same for the socket, whose callback may cancel it from within |
| AsyncCancellation.AsyncHttpsGet.CancelRequest | src/g4/spot_transport.cpp:375-393 | Cancelling counts what is still out, or retires at once |
| AsyncCancellation.AsyncHttpsGet.OnIoDone | src/g4/spot_transport.cpp:345-533 | Every I/O completion, before and after a cancel |
| AsyncCancellation.AsyncHttpsGet.HandleAll | src/g4/spot_transport.cpp:337-632 | The object goes through every run of calls and completions like the automaton |
| ShutdownContexts.EveryRunCancelsSafely | src/g7/grpc_service.cpp:918-1053 | In every run the copy fits, every context reached by TryCancel is still tracked, entries are erased exactly once, and a selected handler never ends OK |
| ShutdownContexts.CancelKeeps | src/g7/grpc_service.cpp:971-976 | A context that is cancelled belongs to a running handler |
| ShutdownContexts.EraseKeeps | src/g7/grpc_service.cpp:1020-1053 | A returning handler erases its own entry, once, and leaves the others in their order |
| ShutdownContexts.ContextTable.SnapshotContexts | src/g7/grpc_service.cpp:957-967 | Every entry is selected and copied into the fixed array, in order |
| ShutdownContexts.ContextTable.TrackContext | src/g7/grpc_service.cpp:998-1009 | Tracking, with its refusals |
| ShutdownContexts.ContextTable.FinalizeContext | src/g7/grpc_service.cpp:1011-1040 | The entry is erased and an OK outcome of a selected one becomes CANCELLED |
| ShutdownContexts.ContextTable.ServeAll | src/g7/grpc_service.cpp:918-1053 | The object goes through every run of handlers and shutdown like the service |
| Utf8Symbol.ValidSymbol | src/config.cpp:30-94 | Accepts exactly the encodings of non-empty sequences of scalar values without blanks and control characters |
| Utf8Symbol.EncodingIsUnique | src/config.cpp:30-94 | That sequence is unique (section 3 of RFC 3629) |
| Utf8Symbol.AcceptableStep | src/config.cpp:30-94 | The byte ranges of section 4 of RFC 3629 accept exactly the encodings of one scalar value |
| DecimalScale.ScaleExactly | src/g4/spot_protocol.cpp:185-232 | Succeeds exactly on plain decimals of positive value whose truncated scale is representable; the result is the least scale exactly when it fits 32 bits |
| DecimalScale.ShortInputsAreExact | src/g4/spot_protocol.cpp:185-232 | Below 2^32 characters the result is always the least s for which value times 10^s is an integer |

## Left out

- Boost.Asio and Beast, TLS, DNS, HTTP and gRPC calls: completions and write results are arbitrary.
- The Projection library, the protobuf adapter and the depth cut of a snapshot: abstract functions and an arbitrary outcome.
- JSON parsing, field mapping and daemon configuration: shape checks over a JSON library.
- Real time: clock samples are arbitrary and may fail, timed waits end arbitrarily.
- Test seams, the performance baseline, diagnostics, status assembly, production start and rollback, signals and registry lookup.
- Allocation failure other than sequence exhaustion, and exceptions of the reset itself.
- The remaining observation fields (last gap, last install, last apply, last applied depth, thread identities): recorded for display, read by no decision.
- 64-bit wrap of tickets, generations, request numbers and timer generations: unbounded here; session sequences and subscription numbers are bounded as in the code.
- Aliasing between the runtime and the RPC handlers: in the machine a session's channel is a value; SubscriberVector holds the ring objects, and a handler's step changes its own one.
- The event channel's ring: the ring of the order-book channel, not repeated as an object.
- AsyncWebSocket as an object: its automaton is modelled on values; the shared accounting is the object AsyncHttpsGet.
- Identity of records in an acknowledgement: equality of values, which distinct sequences make the same.
- The runtime without an event-source lifecycle callback: the coordinator is modelled with the callbacks installed.
- RuntimeDelivery.FeedDelivers: one input at a time and no active session; RuntimeJournal.CoreIsDelivery covers every interleaving and every clock.
- RuntimeTickets.BarrierExactly: its condition speaks of the recorded history; RuntimeRuns.UnchangedResetsTell is the one an observer can check.
- The calls that ask for a snapshot or an admission and that take a result: part of the machine, not repeated in the object.
