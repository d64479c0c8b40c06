# Delivery, ownership and framing in the webhook daemon

The daemon (`whdr`) takes webhooks, lets extensions turn them into events on dotted channels, and
delivers those events to subscribers over WebSockets, durably if asked to. These modules model the
parts whose correctness spans several components, and prove what the design promises of them. The
repository is modelled from its source; nothing here executes it.

Verify everything with `dafny verify dfyconfig.toml`.

## What is modelled

**The durable-delivery pipeline.** `DeliveryLog` (append, prune, reopen, range scan), `OutboundQueue`
(evict-oldest, lag counter), `Subscribers` (patterns and fan-out), `SubscriberSocket` (client frames,
replay, popping) and `ResumeState` and `ClientSession` (the client's cursor, id window, session and
reconnect loops) are each a class whose methods are proved against specification functions, with the
component's own laws proved of those functions. `Pipeline` composes the same functions into one state
machine of twenty kinds of step. Commit and push are separate steps, and so are subscribe, floor read,
head read and scan, pop and send, and receive, record and save; prunes, server restarts, disconnects
and client crashes may come between any two; `Fanout` proves that a commit and its pushes are the
registry's fan-out. `Coverage` says what a stream of messages still to come means to a client,
`Delivery` proves the invariant, and `Promises` draws the end-to-end conclusions: no silent skip,
nothing lost in transit, at most once, exactly once, no false gap. `Provenance` proves, on every run
whatever, where received events and gaps come from, and `Lifecycle` how sessions end and what becomes
of the client after. An event counts as handled when its handler has returned and it has been
recorded, not when it is handed over. An orderly run is one whose pushes overtake no row the
subscriber is owed, whose restarts find a non-empty table, and whose replay scans still reach their
effective cursor. `Guards` proves two of these guards exact, and `Counterexamples` has for each of
them a run that breaks only that one and skips an event in silence.

**Namespace ownership.** `Channel` has the grammar and the matching loop, `ChannelClaims` the
text-level checks at registration and emission, `RoutingTables` the supervisor's tables over
registration, drain and cleanup, up to the theorem that a channel has at most one routed owner.
`ExtensionChannels` proves that what the HMAC and GitHub extensions derive from a sender's input is
valid and owned.

**Supervision.** `DispatchWindow` takes every atomic step of the in-flight window as a step of its
own, and `CrashLoop` has the sliding crash-loop window and the respawn delays.

**Clients.** `WsFraming` has the OCaml client's hand-written WebSocket framing, and `EventQueue` the
TypeScript client's bridge from callbacks to an iterator.

`Messages`, `Strings`, `Sequences` and `Wrappers` hold what the others share.

The specification functions of the main operations have laws beside them in the source's own terms:
budgets, milliseconds, token positions, generations and frame contents.

## What the code does differently from its documents

- The design document, section 9.4, says that pruned loss is never silent. The code keeps that promise
  on every orderly run. It can fail when the log was pruned empty (the floor reads 0 and no gap is
  sent), when concurrent fan-outs push rows out of commit order (the client drops the lower number),
  when a prune falls between the floor read and the scan, and after a restart on a table pruned empty
  (the numbering starts over). The exact conditions: for a push on a live subscription
  `Guards.PushIsSafeIff`, for a restart `Guards.RestartIsSafeIff` and `DeliveryLog.RestartReusesNumbers`,
  for the numbers a replay accounts for `SubscriberSocket.ReplayAccountsIff`, for the client alone
  `ResumeState.AllHandledIffInOrder`. For the scan guard only sufficiency is proved over runs: a number
  a late scan misses need not be one the subscriber wants.
- The design document, sections 6.1 and 14, gives a respawn base of 500 ms; the code uses 250 ms. Section
  6.1 also says more than `crashloop_threshold` exits; the code stops at exactly that many.

## Model

| member | source | states |
|---|---|---|
| Promises.NoSilentSkip | crates/whdr-server/src/subscriber_ws.rs:164-247 | Over every run of commits, pushes, prunes, evictions, lag notices, restarts, disconnects, refusals and client crashes, each committed matching event above the initial cursor and at or below the client's cursor was handled to completion (its handler returned and it was recorded) or lies strictly inside a `replay_gap` the client received; an event in hand at a crash, or refused, is still above the cursor. Given that no push overtakes a row the subscriber is owed, restarts find a non-empty table, and replay scans still reach their effective cursor |
| Promises.DrainedIsComplete | crates/whdr-server/src/subscriber_ws.rs:90-108 | Once a live session has nothing left to send and no drop unannounced, every committed matching event above the initial cursor is handled to completion or announced as gone: nothing is lost in transit |
| Promises.ExactlyOnce | crates/whdr-sub-kit/src/lib.rs:196-272 | While the client process survives, each such event was handed over exactly once and handled to completion, or lies in an announced gap |
| Promises.HandledAtMostOncePerProcess | crates/whdr-sub-kit/src/resume.rs:45-63 | On every run whatever, orderly or not, a client process is handed strictly increasing sequence numbers |
| Promises.GapsAreReal | crates/whdr-server/src/subscriber_ws.rs:209-219 | No false alarm: no event inside an announced gap is still stored, and no gap reaches past the next number to be committed |
| Provenance.GapsStartAtTheCursor | crates/whdr-server/src/subscriber_ws.rs:204-219 | On every run whatever, the gap a client is about to read starts exactly at its cursor, and covers no number this process has been handed |
| Provenance.EventsAreEmissions | crates/whdr-server/src/delivery_log.rs:212-238 | On every run whatever, each event committed, on the wire or in the handler's hands carries the id, channel and payload of one that was emitted, and the time of its commit |
| Lifecycle.ReconnectResumes | crates/whdr-sub-kit/src/lib.rs:175-202 | A client that is not stopped connects anew with an empty queue, asks for what is after its cursor, and has forgotten nothing |
| Lifecycle.StoppedForGood | crates/whdr-sub-kit/src/lib.rs:175-194 | A stopped client stays stopped whatever the server does, until its process is started again; it then resumes from the cursor it saved last |
| Lifecycle.LastFrameDecides | crates/whdr-sub-kit/src/lib.rs:242-265 | A shutdown or a lag notice leaves the client ready to reconnect from where it is; a revoked token or a refusal stops it with its cursor kept |
| Lifecycle.ServerEndsSession | crates/whdr-server/src/subscriber_ws.rs:109-120 | A close sends its reason after everything already sent; a lost connection and a crash send nothing, and a crash keeps of the server only what the table has |
| Guards.PushIsSafeIff | crates/whdr-server/src/subscribers.rs:149-207 | On a live subscription a push is safe in every orderly continuation if and only if it overtakes no row the subscriber wants and is owed; otherwise some continuation skips that row in silence |
| Guards.RestartIsSafeIff | crates/whdr-server/src/delivery_log.rs:95-113 | For a client that wants some channel and has passed a number not announced as gone, a restart is safe in every orderly continuation if and only if the table is not empty or nothing was ever appended |
| Guards.ReadOn | crates/whdr-sub-kit/src/lib.rs:204-229 | A live session that loses nothing always has moves left that carry the client to any number on its way, and they mention no other row |
| Counterexamples.DeliveryHappens | crates/whdr-server/src/subscriber_ws.rs:46-162 | An orderly run exists in which an event is committed, delivered and handled and the session is drained |
| Delivery.RunKeepsInv | crates/whdr-server/src/subscriber_ws.rs:46-162 | The invariant behind the promises holds after every orderly run: the stored rows are a suffix of the committed ones, and the stream still to reach the client covers everything above its cursor |
| Delivery.StepKeepsInv | crates/whdr-server/src/subscriber_ws.rs:46-247 | Each of the twenty kinds of step keeps that invariant under its guard |
| Delivery.ScanCovers | crates/whdr-server/src/subscriber_ws.rs:193-235 | The replay window followed by what the queue gathered since the subscription covers the log: the overlap between replay and live delivery loses nothing |
| Delivery.PushKeepsSession | crates/whdr-server/src/subscribers.rs:182-207 | Offering any pending row to a connection, in order or late, with eviction or without, keeps the stream covering, unless it overtakes a row the subscriber is owed |
| Delivery.CommitKeepsSession | crates/whdr-server/src/subscribers.rs:149-180 | A commit between any two steps of a subscription keeps the stream covering |
| Delivery.ReceiveEventAdvances | crates/whdr-sub-kit/src/lib.rs:208-229 | The client takes an event exactly when its number is above the cursor; nothing it is owed lies in between, so once the handler has returned, and only then, all is accounted for up to that number |
| Coverage.CoversReplay | crates/whdr-server/src/subscriber_ws.rs:209-235 | Replayed rows from the effective cursor to the head, then the live rows above the head with late ones anywhere among them, leave no gap |
| Coverage.CoversLateEvent | crates/whdr-server/src/subscribers.rs:182-207 | An event pushed late changes nothing once the messages before it account for its number |
| Coverage.CoversLiveTail | crates/whdr-server/src/subscriber_ws.rs:90-104 | Live events above a mark in commit order, with control frames and late events among them, cover the rest of the log |
| Coverage.ReplayListsWanted | crates/whdr-server/src/delivery_log.rs:147-181 | A bounded range scan of a log suffix lists exactly the matching committed rows between effective cursor and head, in order |
| Counterexamples.OutOfOrderPushSkips | crates/whdr-server/src/subscribers.rs:149-207 | A concrete run, orderly but for one push out of commit order, in which the client silently skips a committed matching event |
| Counterexamples.EmptiedRestartSkips | crates/whdr-server/src/delivery_log.rs:95-113 | A concrete run, orderly but for one restart on a table pruned empty, after which a new event reuses a number the client has passed |
| Counterexamples.EmptiedLogReplaySkips | crates/whdr-server/src/subscriber_ws.rs:209-219 | A concrete run in which every row was pruned before a replay: floor 0, no gap frame, and the next event carries the cursor past the lost one |
| Counterexamples.PruneDuringReplaySkips | crates/whdr-server/src/subscriber_ws.rs:209-221 | A concrete run in which a prune between floor read and range scan removes a row that is then skipped without a gap frame, although the floor is not 0 |
| DeliveryLog.RunStaysGapless | crates/whdr-server/src/delivery_log.rs:207-307 | Over any run of appends, prunes and restarts the stored keys are exactly floor..head and count and bytes are the table's true totals |
| DeliveryLog.RunNumbersOnward | crates/whdr-server/src/delivery_log.rs:207-253 | Over any run whose restarts are safe the numbers handed out are 1, 2, 3, ... up to the head: gapless and never reused |
| DeliveryLog.RestartReusesNumbers | crates/whdr-server/src/delivery_log.rs:95-113 | A restart makes the next append reuse a number if and only if the table is empty and something was ever appended |
| DeliveryLog.RecoverRestores | crates/whdr-server/src/delivery_log.rs:95-125 | The startup scan gives back head, floor and counters if and only if the table holds a row or nothing was ever appended |
| DeliveryLog.AppendKeepsGapless | crates/whdr-server/src/delivery_log.rs:207-253 | Appending extends the table by the stamped rows, numbered on from the head, and changes nothing already stored |
| DeliveryLog.PruneRemovesLeastPrefix | crates/whdr-server/src/delivery_log.rs:255-307 | Pruning removes exactly the least prefix after which the front is within the TTL and both caps hold, keeps the head, and at every single removal the count is at least one and the bytes hold at least the row's own, so neither subtraction underflows or saturates |
| DeliveryLog.PruneInMilliseconds | crates/whdr-server/src/delivery_log.rs:281-293 | In milliseconds: rows go from the front while 1000 * (retention + 1) have passed since the stamp, or a cap is exceeded, and pruning stops at the first row for which none of this holds |
| DeliveryLog.TtlAloneKeepsTheYoung | crates/whdr-server/src/delivery_log.rs:281-293 | With both caps met and timestamps nondecreasing, pruning keeps exactly the rows younger than 1000 * (retention + 1) milliseconds, in order |
| DeliveryLog.SurvivorsWithinLimits | crates/whdr-server/src/delivery_log.rs:255-307 | With timestamps nondecreasing in sequence order, every row left is within the TTL and both caps hold |
| DeliveryLog.StampBatch | crates/whdr-server/src/delivery_log.rs:212-238 | The stamping loop numbers the batch on from the base and adds up its stored bytes |
| DeliveryLog.Store.constructor | crates/whdr-server/src/delivery_log.rs:66-133 | Opening any table recovers head, floor and counters by one scan and prunes once; a table this log has written gives a gapless log |
| DeliveryLog.Store.Append | crates/whdr-server/src/delivery_log.rs:207-253 | An append that commits stores the stamped rows after the old ones and updates head, floor and counters as the specification says; one that fails changes nothing |
| DeliveryLog.Store.StoreRows | crates/whdr-server/src/delivery_log.rs:234-252 | The insertions of one transaction and the counters after it |
| DeliveryLog.Store.ReadAfter | crates/whdr-server/src/delivery_log.rs:147-181 | The range scan returns the stored rows after the cursor that match some pattern, in table order |
| DeliveryLog.Store.PruneFront | crates/whdr-server/src/delivery_log.rs:255-307 | The pruning loop removes the least sufficient prefix and returns its length |
| DeliveryLog.Store.ShedRows | crates/whdr-server/src/delivery_log.rs:261-293 | The pruning loop over its own copies of the counters stops at the least sufficient prefix |
| OutboundQueue.RunRefines | crates/whdr-server/src/outbound_queue.rs:71-155 | Over any interleaving of pushes, pops and sends: queued events are the newest accepted ones in push order and those handed to the writer are some of the older ones in push order, both budgets hold, control frames are neither lost nor reordered, events pushed = delivered + dropped + queued, and notices sent + pending = dropped |
| OutboundQueue.DeliveredAreAccepted | crates/whdr-server/src/outbound_queue.rs:71-126 | The events handed to the writer, followed by those queued, are a subsequence of the accepted ones: none duplicated, reordered or made up |
| OutboundQueue.DropsAnnouncedInTime | crates/whdr-server/src/subscriber_ws.rs:90-104 | Each frame on the wire is preceded by lag notices for every drop recorded up to its push |
| OutboundQueue.EvictionIsMinimal | crates/whdr-server/src/outbound_queue.rs:71-92 | Eviction takes the least number of oldest events that makes room, counts each one and leaves every control frame |
| OutboundQueue.PushWithRoom | crates/whdr-server/src/outbound_queue.rs:71-92 | While count + 1 and bytes + length are within the two budgets, a push adds its frame at the end and changes nothing else |
| OutboundQueue.PushEvictsLeast | crates/whdr-server/src/outbound_queue.rs:71-92 | In terms of the two budgets alone: the least number of oldest events goes, each counted once, for which those left and the new one keep both; an event longer than the byte budget is itself the one dropped |
| OutboundQueue.PushKeepsBudget | crates/whdr-server/src/outbound_queue.rs:71-92 | After an event push both the count and the byte budget hold |
| OutboundQueue.RunKeepsBudgets | crates/whdr-server/src/outbound_queue.rs:41-92 | Over every run the queue keeps the budgets it was opened with, a zero counting as one |
| OutboundQueue.NothingDroppedWithinBudgets | crates/whdr-server/src/outbound_queue.rs:71-155 | As long as all events ever pushed would fit the budgets together, none is dropped: those handed to the writer and those queued are all of them, in push order |
| OutboundQueue.RemoveOldestEvent | crates/whdr-server/src/outbound_queue.rs:76-84 | Removing at the position of the first event frame takes the oldest event and nothing else |
| OutboundQueue.Queue.constructor | crates/whdr-server/src/outbound_queue.rs:41-51 | A new queue is empty, with both budgets raised to at least one |
| OutboundQueue.Queue.RecordOneDrop | crates/whdr-server/src/outbound_queue.rs:53-56 | A drop is counted and owed to the next lag notice |
| OutboundQueue.Queue.Push | crates/whdr-server/src/outbound_queue.rs:71-92 | The eviction loop turns the queue into what the specification of a push says: an oversized event is rejected and counted, otherwise old events make room |
| OutboundQueue.Queue.PushControlFrame | crates/whdr-server/src/outbound_queue.rs:95-106 | A control frame joins the back without eviction |
| OutboundQueue.Queue.PopFront | crates/whdr-server/src/outbound_queue.rs:111-126 | One try of a pop: the front frame leaves, an event among them counted as delivered; on an empty queue nothing changes and the caller waits on |
| OutboundQueue.Queue.TakeLag | crates/whdr-server/src/outbound_queue.rs:61-68 | The owed drops are taken once, and none is reported when none is owed |
| Subscribers.JoinedIsUnion | crates/whdr-server/src/subscribers.rs:120-139 | Subscribing gives the union of the held and requested patterns, each once |
| Subscribers.WithoutIsDifference | crates/whdr-server/src/subscribers.rs:141-147 | Unsubscribing gives the difference, each once |
| Subscribers.SubscribeThenUnsubscribe | crates/whdr-server/src/subscribers.rs:120-147 | Unsubscribing what was just subscribed leaves the earlier patterns less those requested |
| Subscribers.OfferedWithRoom | crates/whdr-server/src/subscribers.rs:182-207 | A fan-out with room in the queue leaves its frames followed by exactly the batch rows whose channel some pattern matches position by position, in batch order, and changes nothing else |
| Subscribers.OfferedToOthers | crates/whdr-server/src/subscribers.rs:196-204 | A queue whose subscription matches no row of the batch is left as it was |
| Fanout.CommitAndPushesAreFanout | crates/whdr-server/src/subscribers.rs:149-207 | The pipeline's commit of a batch and its pushes, one after the other, are one durable fan-out of the registry: the same log, and for the modelled subscriber the same queue |
| Fanout.PushesOffer | crates/whdr-server/src/subscribers.rs:182-207 | Any number of in-order pushes offer those rows to the connection's queue as the registry does, to no subscription before the subscribe is in, and change nothing else |
| Subscribers.Registry.Insert | crates/whdr-server/src/subscribers.rs:96-109 | A new subscriber gets an identifier never in use, no patterns, and leaves the others alone |
| Subscribers.Registry.Remove | crates/whdr-server/src/subscribers.rs:111-114 | Only the named subscriber goes |
| Subscribers.Registry.Subscribe | crates/whdr-server/src/subscribers.rs:120-139 | All requested patterns join, or none when one is invalid, and the first invalid one is reported |
| Subscribers.Registry.Unsubscribe | crates/whdr-server/src/subscribers.rs:141-147 | The dropped patterns leave this subscriber and no other |
| Subscribers.Registry.Fanout | crates/whdr-server/src/subscribers.rs:149-225 | A batch is numbered, durably when a log is kept and its append commits, from the counter otherwise, before any queue sees it; a failed append is counted and stores nothing; every queue is offered the same rows, in order |
| Subscribers.Registry.StampInMemory | crates/whdr-server/src/subscribers.rs:210-225 | The counter numbers the batch on, one by one |
| Subscribers.Registry.PushBatch | crates/whdr-server/src/subscribers.rs:182-207 | Each row of a batch is offered, in order, to every subscriber with a matching pattern and to no other |
| Subscribers.Registry.PushRow | crates/whdr-server/src/subscribers.rs:182-207 | One row reaches exactly the queues of the subscribers it matches |
| SubscriberSocket.ReplayListsExactly | crates/whdr-server/src/subscriber_ws.rs:209-235 | A replay lists in strictly ascending order, and so without duplicates, exactly the matching stored rows after the effective cursor and up to the head |
| SubscriberSocket.ReplayAccountsIff | crates/whdr-server/src/subscriber_ws.rs:209-235 | With floor, head and table read one after the other, the gap and the listing account for every number up to the head if and only if the scan still reaches the effective cursor |
| SubscriberSocket.AtomicReplayAccountsIff | crates/whdr-server/src/subscriber_ws.rs:209-235 | With the three reads as one step, they do if and only if the floor is not 0 or the cursor is at the head |
| SubscriberSocket.ReplayTellsAll | crates/whdr-server/src/subscriber_ws.rs:193-235 | What a client learns from a replay of an unchanging log: an acknowledgement, at most one gap, from its own number to the oldest stored row, every number up to the head in that gap or stored, each stored row on a matching channel listed, and the head as the closing marker |
| SubscriberSocket.BoundedEvents | crates/whdr-server/src/subscriber_ws.rs:221-232 | The listing stops at the first row beyond the head snapshot |
| SubscriberSocket.Replay | crates/whdr-server/src/subscriber_ws.rs:193-235 | The replay frames: acknowledgement, gap when the cursor predates the floor, events, closing marker |
| SubscriberSocket.SendNext | crates/whdr-server/src/subscriber_ws.rs:90-108 | A lag notice, if drops are owed, goes out ahead of the popped frame; a closing frame ends the loop; on an empty queue nothing is sent |
| SubscriberSocket.SubscribeMeaning | crates/whdr-server/src/subscriber_ws.rs:174-235 | A valid subscribe adds its patterns to those held; it is acknowledged at once without a replay, by the replay itself with one, and without a log also told that there is none |
| SubscriberSocket.InvalidSubscribeMeaning | crates/whdr-server/src/subscriber_ws.rs:174-190 | A subscribe with an invalid pattern adds none and is answered with the first such |
| SubscriberSocket.OtherFramesMeaning | crates/whdr-server/src/subscriber_ws.rs:236-246 | An unsubscribe takes its patterns away, a ping changes nothing, and both are answered |
| SubscriberSocket.RepliesJoin | crates/whdr-server/src/outbound_queue.rs:95-106 | Replies join the queue in order, as control frames, and nothing else of it changes |
| SubscriberSocket.HandleText | crates/whdr-server/src/subscriber_ws.rs:164-247 | What each client frame does to this subscriber's patterns and no other's, to the queue and to the sink, error replies included, also for a subscriber no longer registered |
| ResumeState.HandledAtMostOnce | crates/whdr-sub-kit/src/resume.rs:45-63 | Under any frames, handled numbers strictly increase from the start and the id window is always the last handled ids, up to the capacity |
| ResumeState.RecordKeepsWindow | crates/whdr-sub-kit/src/resume.rs:51-63 | Recording keeps the id set equal to the id order, without duplicates and within the capacity |
| ResumeState.WindowIsLastHandled | crates/whdr-sub-kit/src/resume.rs:24-63 | The window is the ids of the last `capacity` handled events, of the last one for a capacity of zero, and any of these arriving again is turned away whatever its number |
| ResumeState.WindowNeverRejectsMore | crates/whdr-sub-kit/src/resume.rs:45-49 | If each id has one number, the id window rejects nothing that the number guard would accept, for any capacity |
| ResumeState.CursorIsHighest | crates/whdr-sub-kit/src/resume.rs:51-63 | The cursor is the highest number received, or the start |
| ResumeState.HandledIffRecordHigh | crates/whdr-sub-kit/src/resume.rs:45-63 | A frame is handled if and only if its number is above the start and above every earlier one |
| ResumeState.AllHandledIffInOrder | crates/whdr-sub-kit/src/resume.rs:45-63 | New frames are all handled if and only if they arrive in increasing order |
| ResumeState.ResumeCell.constructor | crates/whdr-sub-kit/src/resume.rs:25-34 | A fresh state starts at the cursor with an empty window of at least one |
| ResumeState.ResumeCell.Admits | crates/whdr-sub-kit/src/resume.rs:45-49 | The guard compares the number with the cursor and the id with the window |
| ResumeState.ResumeCell.RecordHandled | crates/whdr-sub-kit/src/resume.rs:51-63 | Recording raises the cursor and slides the window in place |
| ClientSession.ReconnectingKeepsSound | crates/whdr-sub-kit/src/lib.rs:175-272 | Across any number of sessions and reconnects handled numbers strictly increase from the loaded cursor, and the cursor to resume from is that of the last handled event, saved unless persisting it failed |
| ClientSession.SessionKeepsSound | crates/whdr-sub-kit/src/lib.rs:196-272 | One session keeps that, whatever frames arrive and however it ends |
| ClientSession.SessionEndDecidesReconnect | crates/whdr-sub-kit/src/lib.rs:182-272 | A session reads on past every frame but a lag notice, a closing, a frame whose hook refuses it, or an event that cannot be handled or saved; the frames before it are absorbed in order (new events handled, recorded and saved, gaps noted), the first of these ends it and determines outcome and progress, and without one the connection counts as lost |
| ClientSession.FirstEndDecides | crates/whdr-sub-kit/src/lib.rs:182-272 | With a willing application the first lag notice or shutdown leads to another attempt and the first revoked closing to none |
| ClientSession.StopsAtFirstFatal | crates/whdr-sub-kit/src/lib.rs:175-194 | Over any attempts, the client goes on as long as each is one to retry (a shutdown, an accepted lag notice, an HTTP or transport error, a lost connection), carrying its progress over, and stops at the first that is not (a revoked closing, a refused or unsaved event, a refusing hook, a rejected token, an invalid request), with that error and that attempt's progress |
| ClientSession.AttemptMeaning | crates/whdr-sub-kit/src/error.rs:51-62 | Read off the frames of an attempt: if its outcome is fatal then it is one of the second kind, otherwise one of the first |
| ClientSession.TurnIsPipelineSteps | crates/whdr-sub-kit/src/lib.rs:204-270 | For every application, one turn of the session loop is the pipeline's receive, record, save and fail steps, with the same resume state, saved cursor, handled events and outcome |
| ClientSession.Client.RunSession | crates/whdr-sub-kit/src/lib.rs:196-272 | The session loop computes the session's progress and outcome: the event is handled, then recorded, then saved, and a refusal stops it there |
| ClientSession.Client.Run | crates/whdr-sub-kit/src/lib.rs:175-194 | The reconnect loop goes on over all attempts unless an error is fatal |
| Channel.ChannelMatches | crates/whdr-proto/src/channel.rs:95-122 | The matching loop reports the channel's error, then the pattern's, and otherwise computes the recursive meaning of the pattern |
| Channel.MatchingMeaning | crates/whdr-proto/src/channel.rs:95-122 | On valid inputs matching is the NATS meaning by position: `*` any one token, a final `>` one or more, other tokens themselves |
| Channel.TokensMatchByPosition | crates/whdr-proto/src/channel.rs:100-122 | The recursive and the positional meaning agree on token lists |
| Channel.PlainPatternMatchesOnlyItself | crates/whdr-proto/src/channel.rs:95-122 | A pattern without wildcards matches exactly the channel it spells |
| Channel.StarStandsForOneToken | crates/whdr-proto/src/channel.rs:95-122 | `prefix.*` matches exactly the channels one token longer than the prefix and beginning with it |
| Channel.TailMatchesEverything | crates/whdr-proto/src/channel.rs:95-122 | The pattern `>` matches every valid channel |
| Channel.ScanChannel | crates/whdr-proto/src/channel.rs:52-68 | The scan accepts exactly lists of plain tokens and otherwise reports the first bad one |
| Channel.ValidateChannelMeaning | crates/whdr-proto/src/channel.rs:52-68 | A channel is accepted if and only if it is one or more plain tokens joined by dots |
| Channel.ScanPattern | crates/whdr-proto/src/channel.rs:70-93 | The scan accepts exactly lists of plain tokens and `*` with at most a final `>` |
| Channel.ValidatePatternMeaning | crates/whdr-proto/src/channel.rs:70-93 | The same for whole patterns |
| Strings.Split | crates/whdr-server/src/channel_claims.rs:110-112 | Splitting gives pieces free of the separator whose join is the text |
| Strings.SplitJoin | crates/whdr-proto/src/channel.rs:52-60 | Joining and splitting again gives the pieces back |
| ChannelClaims.InPrefixByTokens | crates/whdr-server/src/channel_claims.rs:114-119 | The string test holds if and only if the prefix's tokens are a prefix of the channel's tokens, for every two strings |
| ChannelClaims.InPrefixAsPattern | crates/whdr-server/src/channel_claims.rs:114-119 | On valid inputs it holds if and only if the channel is the prefix or matches the pattern `prefix.>` |
| ChannelClaims.PrefixesOfOneChannelOverlap | crates/whdr-server/src/channel_claims.rs:114-123 | Two prefixes of one channel always overlap |
| ChannelClaims.ClaimIsOneToken | crates/whdr-server/src/channel_claims.rs:125-135 | A path claim is well formed if and only if it is a valid channel of one token |
| ChannelClaims.EmissionMeaning | crates/whdr-server/src/channel_claims.rs:92-108 | An extension may emit on a channel if and only if the channel is valid and its first token is claimed or the tokens of a declared prefix begin it |
| ChannelClaims.EmissionIsDownwardClosed | crates/whdr-server/src/channel_claims.rs:92-108 | Who may emit on a channel may emit on every valid channel below it |
| ChannelClaims.OwnedEventsAreAllOwned | crates/whdr-server/src/channel_claims.rs:14-40 | The events that pass are a subsequence of those offered, with every event that may be emitted as often as it was offered and no other |
| ChannelClaims.FilterOwnedEvents | crates/whdr-server/src/channel_claims.rs:14-40 | Unauthorised events are dropped and counted, the others pass in order |
| ChannelClaims.FindClaimedPrefix | crates/whdr-server/src/channel_claims.rs:58-62 | The search finds a foreign prefix starting with the claim if and only if there is one |
| ChannelClaims.FindOverlappingPrefix | crates/whdr-server/src/channel_claims.rs:80-87 | The search finds an overlapping foreign prefix if and only if there is one |
| ChannelClaims.ClaimsAdmittedIff | crates/whdr-server/src/channel_claims.rs:42-90 | In sets and tokens: claims pass if and only if each is a single valid token not yet routed, no two are equal, and none is the first token of a prefix someone else declared |
| ChannelClaims.PrefixesAdmittedIff | crates/whdr-server/src/channel_claims.rs:42-90 | Prefixes pass if and only if each is a valid channel not beginning with a token routed to someone else, and token by token no two overlap, nor does one with a prefix someone else declared |
| ChannelClaims.ValidateClaims | crates/whdr-server/src/channel_claims.rs:49-63 | Path claims pass if and only if each is well-formed, new, unrouted and no first segment of a foreign prefix; a refusal names a real collision |
| ChannelClaims.ValidatePrefixes | crates/whdr-server/src/channel_claims.rs:65-88 | Prefixes pass if and only if each is a valid channel that overlaps neither an earlier nor a foreign prefix and starts with no foreign route; a refusal names a real collision |
| ChannelClaims.ValidateRegistrationClaims | crates/whdr-server/src/channel_claims.rs:42-90 | Both together, claims first |
| RoutingTables.AtMostOneOwner | crates/whdr-server/src/channel_claims.rs:42-108 | However registrations, drains and cleanups interleave between the locks they take, two extensions that may emit on one channel are the same, among those registered and not released since |
| RoutingTables.AtMostOneOwnerUninterrupted | crates/whdr-server/src/channel_claims.rs:42-108 | The same over runs in which each drain and each cleanup is one step |
| RoutingTables.RoutedNamespacesAreDisjoint | crates/whdr-server/src/channel_claims.rs:42-123 | Where every routed extension holds its claims and entries of different owners are separate, ownership checks succeed on a channel for at most one routed extension |
| RoutingTables.RunKeepsInv | crates/whdr-server/src/daemon.rs:303-515 | Over any run of registrations, drains and cleanups, each in one piece, every entry's owner is a routed extension that claims it, every routed extension holds all its claims, no candidate runs twice, and entries of different owners are separate |
| RoutingTables.OperationsTakeEffect | crates/whdr-server/src/daemon.rs:303-475 | In any state of a run, a registration that passes its check routes the newcomer with all it claims and one that does not changes nothing; after a drain the id is not routed, owns nothing and is still registered |
| RoutingTables.FineRunKeepsInv | crates/whdr-server/src/daemon.rs:303-515 | With every operation cut where the daemon lets go of its locks, every extension not released since it registered still holds all its claims, no candidate runs twice, and entries of different owners stay separate |
| RoutingTables.OpsAreFineSteps | crates/whdr-server/src/daemon.rs:459-498 | A drain is the release of routes and then of prefixes; a cleanup removes the handle before both |
| RoutingTables.SuccessorSlipsInIff | crates/whdr-server/src/daemon.rs:484-498 | Between the two halves of a cleanup a successor of the same id registers if and only if the old generation was drained first and the successor would be admitted after the whole cleanup |
| RoutingTables.LateReleaseRun | crates/whdr-server/src/daemon.rs:484-498 | For every id a run that ends in the damage: the successor is current and was never drained, and its route is gone |
| RoutingTables.RegisterKeepsInv | crates/whdr-server/src/daemon.rs:303-329 | An accepted registration keeps that and leaves the newcomer routed |
| RoutingTables.RegisterKeepsSeparate | crates/whdr-server/src/channel_claims.rs:42-90 | What the claim checks admit never reaches into another owner's namespace |
| RoutingTables.UnrouteKeepsInv | crates/whdr-server/src/daemon.rs:459-475 | Draining releases all and only the extension's own entries |
| RoutingTables.CleanupKeepsInv | crates/whdr-server/src/daemon.rs:477-515 | Cleanup keeps the invariant, for the current generation and for a stale one |
| RoutingTables.StaleCleanupChangesNothing | crates/whdr-server/src/daemon.rs:484-498 | A cleanup whose generation is not the registered one leaves all three tables equal, in one piece or between the locks |
| RoutingTables.CurrentCleanupRemovesItsOwn | crates/whdr-server/src/daemon.rs:484-498 | A cleanup for the registered generation removes exactly that handle and the entries its id owns |
| RoutingTables.CleanedUpOnce | crates/whdr-server/src/daemon.rs:477-498 | Over any run in which each registration has its own generation, a generation is cleaned up at most once: a late cleanup of it changes nothing, a successor of the same id included |
| RoutingTables.DrainingExtensionCanBeReplaced | crates/whdr-server/src/daemon.rs:448-457 | Exclusive ownership does not extend to draining extensions: a newcomer refused before the drain is admitted after it, and both may emit on the path |
| RoutingTables.LateReleaseIsHarmlessIff | crates/whdr-server/src/daemon.rs:459-475 | Releasing routes by id, late, keeps the invariant if and only if the extension now under that id is not routed or claims nothing |
| RoutingTables.RoutingState.CandidateRunning | crates/whdr-server/src/daemon.rs:312-317 | The search finds a running candidate if and only if there is one |
| RoutingTables.RoutingState.Register | crates/whdr-server/src/daemon.rs:303-329 | Registration succeeds exactly when the id and the candidate are not running and the claims are admissible; then all three tables are extended, otherwise none changes |
| RoutingTables.RoutingState.Unroute | crates/whdr-server/src/daemon.rs:459-467 | Every entry owned by the id goes, the others stay |
| RoutingTables.RoutingState.Cleanup | crates/whdr-server/src/daemon.rs:477-498 | The handle is removed and its entries released only for the generation still registered; a stale cleanup changes nothing |
| CrashLoop.Supervisor.NextRespawnDelay | crates/whdr-server/src/daemon.rs:587-627 | The supervisor evicts old exits, records this one, and grants a delay or declares a crash loop as the specification says |
| CrashLoop.DequeIsTheWindow | crates/whdr-server/src/daemon.rs:594-601 | On a monotone clock the deque always equals the full exit history cut to the window |
| CrashLoop.GrantMeaning | crates/whdr-server/src/daemon.rs:602-621 | A respawn is granted if and only if fewer than `threshold` exits, this one included, lie in the window |
| CrashLoop.ConfiguredGrantMeaning | crates/whdr-server/src/daemon.rs:589-602 | In the configured figures: a respawn is granted if and only if fewer than `threshold` exits, this one included, lie within `window` milliseconds, a window of zero counting as one and a threshold of zero granting none |
| CrashLoop.FewRespawnsPerWindow | crates/whdr-server/src/daemon.rs:594-621 | Any stretch of exits no longer than the window is granted at most threshold - 1 respawns |
| CrashLoop.DelaysNeverShrink | crates/whdr-server/src/daemon.rs:621-627 | Granted delays depend only on the number of earlier grants, never shrink, and stay between 250 ms and 30 s, whatever the clock does |
| CrashLoop.BackoffSchedule | crates/whdr-server/src/daemon.rs:621-627 | Delays double up to the seventh grant and are at the cap exactly from the eighth on |
| DispatchWindow.PermitsAreConserved | crates/whdr-server/src/dispatch_window.rs:29-61 | Over any interleaving the counter equals pending requests + threads between reserving and inserting + releases under way, and never exceeds the limit |
| DispatchWindow.ReleaseNeverSaturates | crates/whdr-server/src/dispatch_window.rs:175-181 | The saturating subtraction always really subtracts one |
| DispatchWindow.NothingInFlightWhenAllDone | crates/whdr-server/src/dispatch_window.rs:97-135 | Only requests still being waited for are pending; when every wait is over and every release done, nothing is in flight |
| DispatchWindow.AnsweredCourse | crates/whdr-server/src/dispatch_window.rs:29-57 | A request inserted by a permit's holder, taken, its permit given back, and answered leaves the window one permit emptier and otherwise as it was |
| DispatchWindow.OpenWaitCanEnd | crates/whdr-server/src/dispatch_window.rs:97-121 | An open wait ends as its sender decides: with the result once sent, with the loss noticed once dropped, and at any time with the timer, after which it is withdrawn |
| DispatchWindow.SeenWasTrue | crates/whdr-server/src/dispatch_window.rs:157-173 | The count a thread in the compare-exchange loop compares with its limit is one the counter had at some moment of the run |
| DispatchWindow.FullWindowTurnsAway | crates/whdr-server/src/dispatch_window.rs:157-173 | A thread that has seen a full window gets no permit until it begins again, however the counter moves |
| DispatchWindow.SecondTrySucceeds | crates/whdr-server/src/dispatch_window.rs:157-173 | A thread whose compare-exchange lost the race reads the counter again, and its next try succeeds if the window is not full |
| DispatchWindow.EntryLeavesOnce | crates/whdr-server/src/dispatch_window.rs:53-61 | Over any interleaving a request's entry leaves the pending map exactly once if it was inserted and is not pending, and otherwise not at all |
| DispatchWindow.RemovedByOneOfFour | crates/whdr-server/src/dispatch_window.rs:53-135 | Only the reader's take, a waiter's withdrawal after its timer, a dropped reservation or a clear removes an entry; the take alone keeps the sender, the others drop it |
| DispatchWindow.EachOfFourRemoves | crates/whdr-server/src/dispatch_window.rs:53-125 | Each of those four removes a pending entry when it applies, and only the take keeps the sender |
| DispatchWindow.PermitGivenBackOnce | crates/whdr-server/src/dispatch_window.rs:138-155 | A request's permit is given back once for each time its entry leaves, and not before |
| DispatchWindow.AtMostOneResult | crates/whdr-server/src/dispatch_window.rs:53-57 | At most one result is ever put into a request's channel |
| DispatchWindow.TakenBeforeSent | crates/whdr-server/src/dispatch_window.rs:53-57 | A result reaches the channel only after the reader took the entry out |
| DispatchWindow.WithdrawnIsNeverAnswered | crates/whdr-server/src/dispatch_window.rs:97-125 | If anything but the reader's take removed the entry, a withdrawal after the timer in particular, no result is put into the channel in the whole run |
| DispatchWindow.AnsweredInTime | crates/whdr-server/src/dispatch_window.rs:97-112 | An answered request's result was put into its channel, and received, while it was waited for; its timer never fires in that run |
| DispatchWindow.LostToClear | crates/whdr-server/src/dispatch_window.rs:59-61 | A request found dead lost its sender to a clearing of the window |
| DispatchWindow.Window.Reserve | crates/whdr-server/src/dispatch_window.rs:29-51 | A reservation succeeds exactly below the limit, and is the run of its atomic steps |
| DispatchWindow.Window.Remove | crates/whdr-server/src/dispatch_window.rs:53-57 | Removal takes the sender and gives the permit back if the request is pending, and does nothing for any other identifier |
| DispatchWindow.Window.Clear | crates/whdr-server/src/dispatch_window.rs:59-61 | Clearing drops every pending sender and gives every permit back |
| DispatchWindow.Window.RemovePending | crates/whdr-server/src/dispatch_window.rs:114-121 | A waiter withdraws its entry, and its permit with it, if the entry is still there and the reservation is armed; otherwise nothing happens |
| ExtensionChannels.ChannelToken | exts/whdr-ext-hmac/src/lib.rs:244-254 | The normalising loop and the trimming compute the token |
| ExtensionChannels.TokenMeaning | exts/whdr-ext-hmac/src/lib.rs:244-254 | A normalised name is a plain token without outer dashes if and only if it has a letter, digit or underscore, and is empty otherwise |
| ExtensionChannels.TokenIsStable | exts/whdr-ext-hmac/src/lib.rs:244-254 | Normalising twice is normalising once |
| ExtensionChannels.CaseDoesNotMatter | exts/whdr-ext-hmac/src/lib.rs:244-254 | Names that differ only in the case of letters have the same token |
| ExtensionChannels.PlainNameIsItsToken | exts/whdr-ext-hmac/src/lib.rs:244-254 | A plain token without outer dashes is its own token, and that of every name differing from it in case alone |
| ExtensionChannels.PunctuationIsADash | exts/whdr-ext-hmac/src/lib.rs:244-254 | Any other character between two plain names becomes a dash, and at either end of a name nothing |
| ExtensionChannels.DeriveChannel | exts/whdr-ext-hmac/src/lib.rs:231-241 | The loop computes the derived channel: the prefix and the non-empty tokens of the path segments beyond the mount |
| ExtensionChannels.PathTokens | exts/whdr-ext-hmac/src/lib.rs:231-241 | Of `/mount/a/b...` the segments after the mount count, and a path with none leaves the prefix |
| ExtensionChannels.KeptMeaning | exts/whdr-ext-hmac/src/lib.rs:234-239 | Each segment with a letter, digit or underscore adds its token, in order, and the others add nothing |
| ExtensionChannels.DerivedChannelIsOwned | exts/whdr-ext-hmac/src/lib.rs:231-241 | For every prefix and every path the derived channel has the prefix's tokens followed by the path's, lies under the prefix, and is valid and owned if and only if the prefix is valid |
| ExtensionChannels.EnvironmentPrefixIsValidIff | exts/whdr-ext-hmac/src/lib.rs:147-149 | A prefix taken from the environment is valid if and only if the value has a letter, digit or underscore |
| ExtensionChannels.TokenOrUnknown | exts/whdr-ext-github/src/lib.rs:61-76 | The GitHub token is always plain: the normalised name, or "unknown" |
| ExtensionChannels.BuildGithubChannel | exts/whdr-ext-github/src/lib.rs:38-50 | The steps of the handler compute that channel |
| ExtensionChannels.GithubChannelIsOwned | exts/whdr-ext-github/src/lib.rs:38-50 | For every event and action, or none, the GitHub channel has the tokens `github`, the event's and the action's, is valid, and is owned under the claim `github` |
| ExtensionChannels.GithubChannelText | exts/whdr-ext-github/src/lib.rs:38-76 | A plain event and action, in whatever case, give `github.event.action`; a missing event is "unknown", a missing action adds nothing, and an empty name is "unknown" |
| WsFraming.MaskPayload | clients/ocaml/lib/connection.ml:23-28 | The in-place loop masks every byte with the key byte at its position modulo four |
| WsFraming.XorIsBitwise | clients/ocaml/lib/connection.ml:23-28 | Each bit of a masked byte is set if and only if it differs in the byte and the key |
| WsFraming.MaskingUndoesItself | clients/ocaml/lib/connection.ml:23-28 | Masking twice with one key is the identity |
| WsFraming.WriteFrame | clients/ocaml/lib/connection.ml:31-52 | The writer produces header, length field, key and masked payload of section 5.2 of RFC 6455 |
| WsFraming.InputChannel.ReadFrame | clients/ocaml/lib/connection.ml:64-81 | The reader consumes one frame off the stream, or reports the end of file or a negative length |
| WsFraming.InputChannel.ReadExactly | clients/ocaml/lib/connection.ml:54-58 | A read returns exactly the bytes asked for or fails |
| WsFraming.InputChannel.ReadLength | clients/ocaml/lib/connection.ml:69-77 | The length is the code itself, two bytes, or the fold over eight |
| WsFraming.InputChannel.ReadBody | clients/ocaml/lib/connection.ml:79-81 | Key, then payload, unmasked if a key was read |
| WsFraming.StreamRoundTrip | clients/ocaml/lib/connection.ml:31-81 | For every sequence of frames with opcodes below 16, reading off the written stream gives the same sequence and leaves nothing |
| WsFraming.FrameRoundTrip | clients/ocaml/lib/connection.ml:31-81 | One frame, masked or not, is read back with what followed left unread; only the low four opcode bits travel |
| WsFraming.FlagBits | clients/ocaml/lib/connection.ml:31-36 | The first byte is the FIN bit with the opcode, the second the mask bit with the length code |
| WsFraming.HelloOnTheWire | clients/ocaml/lib/connection.ml:31-52 | The example frames of section 5.7 of RFC 6455 have exactly the bytes given there, up to the masked payload |
| WsFraming.LengthRoundTrip | clients/ocaml/lib/connection.ml:35-44 | Every length below 2^62 is read back from its field |
| WsFraming.HugeLengthIsRefused | clients/ocaml/lib/connection.ml:74-80 | A frame announcing a length from 2^62 up to 2^63 is refused, its length reading as negative |
| WsFraming.LengthIsMinimal | clients/ocaml/lib/connection.ml:35-44 | No shorter length field declares the same length (section 5.2 of RFC 6455) |
| WsFraming.FoldedMeaning | clients/ocaml/lib/connection.ml:74-77 | The reader's fold over native integers is the true length wrapped once, and is right if and only if that is below 2^62 |
| WsFraming.TruncationIsNoticed | clients/ocaml/lib/connection.ml:64-81 | Cut anywhere inside a frame, a stream reads as end of file, never as a shorter frame |
| EventQueue.NothingIsLost | clients/typescript/src/subscriber.ts:314-362 | Under any interleaving of push, next, finish and fail, the events answered followed by those queued are the events pushed; a waiter and queued events never meet; nobody waits after an end or error |
| EventQueue.EndsComeLast | clients/typescript/src/subscriber.ts:352-361 | An end or error is answered only when every event pushed so far has been |
| EventQueue.EndsHaveCauses | clients/typescript/src/subscriber.ts:332-361 | On every run an ask is answered with the end only after a finish and with an error only after a failure with that one; with neither and no items an ask stays open |
| EventQueue.OpenAskIsSettled | clients/typescript/src/subscriber.ts:321-350 | An open ask is answered by the next push with its event, by the end with the end, by a failure with its error, a null one included, and nobody else is |
| EventQueue.AnswersInAskOrder | clients/typescript/src/subscriber.ts:352-361 | With one ask open at a time, the k-th answer is the k-th ask's and only the last can be open |
| EventQueue.OverlappingAskIsStranded | clients/typescript/src/subscriber.ts:357-360 | Asking while an ask is open strands the earlier promise: nothing later ever settles it |
| EventQueue.FailureIsSeenIff | clients/typescript/src/subscriber.ts:342-355 | After a failure on an empty, unfinished queue the next ask is answered if and only if the error was not null |
| EventQueue.AsksAfterFinish | clients/typescript/src/subscriber.ts:332-361 | After finishing, asks are answered with the items left, in order, and then with the error or the end for ever |
| EventQueue.EventQueue.Push | clients/typescript/src/subscriber.ts:321-330 | A pushed event goes to the waiter or to the back |
| EventQueue.EventQueue.Finish | clients/typescript/src/subscriber.ts:332-340 | Finishing ends the waiter, if any, and every later ask once the items are out |
| EventQueue.EventQueue.Fail | clients/typescript/src/subscriber.ts:342-350 | Failing rejects the waiter, if any |
| EventQueue.EventQueue.Next | clients/typescript/src/subscriber.ts:352-361 | Items first, then the error, then the end, else the promise waits |

## Left out

- A failed append in the whole-run theorems: `Subscribers.Registry.Fanout` has the fallback to the in-memory counter, but the delivery theorems are about batches that were committed.
- The in-memory mode in the whole-run theorems: without a log there is no replay, and `Subscribers.Registry.Fanout` covers the numbering alone.
- redb, fsync and file modes: the table is an ordered sequence whose committed rows survive a crash, and a batch is committed as one step.
- Overflow of 64-bit sequence numbers, of `after_seq + 1` and of the byte counters.
- Identifier generation: fresh ids are assumed not to collide with earlier ones; a commit with colliding ids is not a step.
- Promises.NoSilentSkip: is about one subscriber with a fixed set of patterns that subscribes with a replay on every connection, as the client does; other subscribers do not interact with it.
- Provenance.GapsStartAtTheCursor: is about one client process; an earlier one may have completed an event without saving its cursor, and a later gap may then cover it.
- Promises.DrainedIsComplete: asks for no drop to be pending, because a drop with nothing pushed after it is announced only with the next frame; when that comes is a liveness question.
- The waiting of a pop on an empty queue, and its waking by a push: the model has single tries.
- OutboundQueue.DropsAnnouncedInTime: takes one push, its drops included, as one step, although the daemon updates its two counters one after the other.
- RoutingTables.RunKeepsInv: takes draining and cleanup each as one step, since between their halves entries do have owners that are gone; FineRunKeepsInv says what holds at every point.
- RoutingTables.CleanupKeepsInv: takes the removal of the handle and the release of its entries as one step; SuccessorSlipsInIff and LateReleaseRun say what may happen between them.
- CrashLoop.FewRespawnsPerWindow: is for fixed limits and a monotone clock; a configuration reload between exits changes the window.
- DispatchWindow.AnsweredInTime: each reservation is waited on once, as the dispatcher does.
- Consecutive-timeout counting and the kill after a threshold in the dispatcher: one counter and one comparison.
- The unavailable and failed extension tables, and the text of errors: they only choose among replies.
- The Rust kit's validity filter on a replay's patterns: every pattern has passed validation by then, so it filters nothing.
- Client backoff with jitter, cursor files, and hooks that do more than accept or refuse.
- The Go, Python, TypeScript and OCaml copies of the resume logic: the same algorithm as the Rust one; OCaml compares signed 63-bit or 64-bit integers and agrees below that bound.
- The Teams channel mapping: its single pass over repeated dots does not remove every empty token.
- WebSocket fragmentation, the FIN bit and reserved bits, which the reader ignores; the random choice of a mask key; the upper bound the OCaml runtime puts on a string; 32-bit machines.
- Sockets, TLS, ping timing, scheduling, child processes, signals, configuration, tokens, status and metrics.
