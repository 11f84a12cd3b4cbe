# An event bus: routing, delivery, shutdown and a durable outbox

A Dafny model of an asynchronous event bus, with proofs about whole runs. `dafny verify dfyconfig.toml` checks it.

Four parts, each in the form the program gives it:

- **Routing.** The wildcard index is a tree of heap nodes that `insert`, `remove_topic`, `remove` and `match_topic`
  walk and change in place (`TopicTrie.dfy`); it stands for a set of (pattern, id) pairs. The registry is a class
  over four maps and that tree (`Registry.dfy`); it stands for the log of live registrations. Dispatch targets are
  computed by the retain, merge and filter loops (`Subscriptions.dfy`) and compared with a scan of that log;
  `PersistentRegistry.dfy` does the same for the registry used under persistence.
- **Delivery.** `Pipeline.dfy` is a step system of queue, worker, bounded inboxes and handlers. Events are named by
  their place in the order of acceptance, so "each once, in order" is an equation between sequences.
  `Dispatcher.dfy` is the dispatcher as an object, with its flags and counters.
- **Shutdown.** `BusProtocol.dfy` puts any number of publishers and shutdown calls around one pipeline, one atomic
  action at a time; `BusRuns.dfy` has what holds in every run, `BusProgress.dfy` that a graceful shutdown is never
  stuck, and `BusWitness.dfy` a run that goes wrong. `EventBus.dfy` is the bus as a single caller sees it.
- **Durable outbox.** `OutboxTables.dfy` and `GroupCommit.dfy` say what transactions do, `OutboxStore.dfy` is the
  store whose methods change the five tables, and `OutboxProtocol.dfy` is the step system of tables, workers,
  handlers, replays and crashes. `OutboxSteady.dfy` proves what every step keeps of every event, `OutboxSteps.dfy` what
  it keeps of every event that is not doubled (see below); `OutboxRuns.dfy`, `OutboxLetters.dfy`,
  `OutboxScheduler.dfy`, `OutboxReinjected.dfy`, `OutboxFates.dfy` and `OutboxDelivery.dfy` prove what follows for every
  run. `OutboxTicks.dfy` shows that the steps of a batch, a scheduler tick and the two replays, taken together, do what
  the methods of the store do, and `OutboxWitness.dfy` has runs: one that recovers a scheduled event from a crash, some
  that lose a dead letter, and one with a replay that begins too soon.

`Retry.dfy`, `CircuitBreaker.dfy` and `CircuitRuns.dfy` hold the retry arithmetic and the circuit breaker.
`Seqs.dfy` and `Sorting.dfy` are general: selection from sequences, and iteration of an ordered table.

Where the code and its documentation differ, the model follows the code:

- A pattern with `>` before its end is cut off there by `insert` but not by `remove_topic`, so its pair stays in the
  index after `unregister` (`TrieHistory.RemoveTopicUndoes` says exactly when). Lookups are right all the same, since
  stale ids are filtered against the type lists.
- `DashMapRegistry::clear` leaves `subscription_to_topic` as it was.
- The circuit breaker counts a retry as a failure and a refusal to retry as a success, so a threshold above what one
  message can add is never reached, however many messages fail (`CircuitRuns.FailingNeverOpens`). Its u32 counter wraps
  in release builds. Nothing in the program consults a retry policy.
- The dead-letter table gets a row when the last acknowledgement is a failure, whatever the others were.
- Whatever comes to the queue a second time meets the duplicate filter again, and its own key is on record by then. So
  a scheduled event with an idempotency key is never delivered, crash or no crash, and a keyed row is neither recovered
  by a replay of pending rows nor brought back by a replay of dead letters (`OutboxReinjected.ReturningNeedsNoKey`,
  `OutboxFates.ScheduledComesBack`, `OutboxFates.LetterComesBack`).
- A replay of dead letters also loses letters of unknown types, letters that find the queue full, and letters whose type
  lists nobody when their batch is committed; its return value counts the last two kinds.
- The scheduler commits the removal of due rows before it queues them, so a crash in between loses them
  (`OutboxFates.ScheduledSurvivesCrash`).
- The count of a row includes paused, filtered and topic subscriptions of the type, which get no copy, so a fully
  handled event can keep its row (`OutboxDelivery.HandledLeaves`).
- A batch remembers the key of a message nobody subscribes to, a single commit does not; batching is invisible
  exactly when the first message with a key decides (`GroupCommit.BatchIsOneByOne`).
- With `drop_on_full` the in-memory dispatcher answers a dropped event with success. `try_dispatch` turns away every
  event with a delivery time as backpressure, full queue or not.
- A handler task that dies by a panic, of the handler or of the backoff arithmetic, takes what its inbox holds with it,
  and every later event for that subscription is lost with a warning only. A filter that panics kills the dispatcher's
  worker, and with it the event taken, the queue and every later submission. A graceful shutdown stores Stopped all the
  same (`BusRuns.GracefulDrain` says what each subscription has handled then).
- `replay_pending` does not look for copies of a row that are still on their way. Begun while there is one, it leaves
  two live copies of that event, which is then called doubled, and its row can go while an acknowledgement is still to
  come (`OutboxWitness.ReplayTooSoon`). Other events keep all their guarantees, and after a crash so does this one,
  unless it then has both an event row and a dead letter (`OutboxRuns.CrashSingles`).
- Two overlapping graceful shutdowns: the second one can store Stopped while the first still waits for handlers
  (`BusRuns.SecondCallStopsEarly`, `BusWitness.StoppedTooEarly`), and a later one stores Draining over Stopped.

Assumed throughout: database transactions are atomic and succeed; registry operations are atomic; subscription and
event ids are fresh; one clock reading serves a whole batch, and clocks do not run backwards; while events of a type
are committed but not yet dispatched, the type's subscriber list does not grow; the registrations do not change while
the delivery pipeline is considered. All rows about runs hold for every run, with replays of pending rows begun at any
time; a clause that says "not doubled" leaves out only the events that such a replay found live, until the next crash.

## Model

| member | source | states |
|---|---|---|
| `Topics.JoinSplit` | src/registry/topic_trie.rs:33 | splitting a topic at dots loses nothing: joining the tokens gives it back |
| `Topics.SplitJoin` | src/registry/topic_trie.rs:33 | every non-empty list of dot-free tokens is the split of its join |
| `Topics.TruncateCuts` | src/registry/topic_trie.rs:36-45 | cutting off after the first `>` leaves a well-formed prefix, and changes nothing exactly for well-formed patterns |
| `Topics.SelectsMeans` | src/registry/topic_trie.rs:119-155 | a pattern without the token `>` selects exactly the topics of as many tokens that agree with it one by one, where the token `*` agrees with any; with a first `>` exactly those that agree with the tokens before it and have at least one more; what follows that `>` does not matter |
| `TopicTries.TopicTrie.Insert` | src/registry/topic_trie.rs:32-57 | adds exactly the pair of truncated pattern and id, and keeps the shape: `>` nodes are leaves, no literal child is named `*` or `>`, one node per pattern |
| `TopicTries.TopicTrie.RemoveTopic` | src/registry/topic_trie.rs:61-95 | deletes exactly the pair of that pattern and id and reports whether it was there; all other pairs stay |
| `TopicTries.TopicTrie.Remove` | src/registry/topic_trie.rs:98-116 | deletes every pair of the id, no other, and reports whether there was one |
| `TopicTries.TopicTrie.MatchTopic` | src/registry/topic_trie.rs:119-155 | returns exactly the ids filed under a pattern that matches the topic by the positional rule |
| `TrieHistory.FiledAfter` | src/registry/topic_trie.rs:32-116 | after any history a pair is filed exactly when some insertion of it was not followed by a removal of it |
| `TrieHistory.MatchedAfter` | src/registry/topic_trie.rs:32-155 | after any history a topic matches exactly the ids with a live insertion whose pattern selects it |
| `TrieHistory.RemoveTopicUndoes` | src/registry/topic_trie.rs:36-45 | removal by pattern undoes an insertion exactly when no `>` stands before the end of the pattern |
| `Registries.DashMapRegistry.Register` | src/registry/dashmap.rs:64-113 | appends one registration to the log; the four maps and the index keep agreeing with it |
| `Registries.DashMapRegistry.Unregister` | src/registry/dashmap.rs:115-160 | removes exactly the registration of the id, drops lists that become empty, and reports an unknown id |
| `Registries.DashMapRegistry.Deactivate` | src/registry/dashmap.rs:211-236 | marks exactly that registration inactive, leaves every other as it was and all of them in their order, or reports an unknown id and changes nothing |
| `Registries.DashMapRegistry.Clear` | src/registry/dashmap.rs:256-262 | empties the lists, the types by id, the types by name and the index, but keeps the patterns by id as they were |
| `Registries.DashMapRegistry.GetSubscriptions` | src/registry/dashmap.rs:162-168 | the active entries of the type, in order of registration |
| `Registries.DashMapRegistry.GetTopicSubscriptions` | src/registry/dashmap.rs:170-189 | exactly the active registered entries whose pattern selects the topic, each once, even with stale ids in the index |
| `Registries.DashMapRegistry.SubscriptionCount` | src/registry/dashmap.rs:242-247 | the number of registrations of the type |
| `Registries.DashMapRegistry.TotalSubscriptions` | src/registry/dashmap.rs:238-240 | the number of registrations |
| `RegistryAgreement.OneList` | src/registry/dashmap.rs:64-152 | each registered id is in exactly one type list, once, and no list is empty |
| `RegistryAgreement.TotalIsSum` | src/registry/dashmap.rs:238-247 | the total is the sum of the lengths of all type lists |
| `Subscriptions.Merge` | src/subscription/mod.rs:566-570 | appends the topic matches whose ids are not there yet, in order |
| `Subscriptions.SubscriptionManager.Targets` | src/subscription/mod.rs:550-596 | the recipients are exactly the live subscriptions that are active, pass their filter and have either no topic and the type of the event or a pattern that selects the explicit topic of the event, or the name of its type when it has none; each once |
| `Subscriptions.RecipientMeans` | src/subscription/mod.rs:550-596 | the scan that the recipients are compared with, spelled out: live, active, let through by its filter, and matched by type or by the explicit topic or type name |
| `Subscriptions.PausedReceivesNothing` | src/registry/dashmap.rs:211-236 | a deactivated subscription is no recipient of any event |
| `Subscriptions.SubscriptionManager.Dispatch` | src/subscription/mod.rs:543-613 | every recipient with room gets the event at the end of its inbox, once; every other subscription is unchanged; exactly the recipients without room are pending, each once |
| `Subscriptions.SubscriptionManager.Deliver` | src/subscription/mod.rs:598-611 | a blocked send goes through when the handler has taken an event: nothing is lost or reordered, and no other subscription changes |
| `Subscriptions.SubscriptionManager.Unsubscribe` | src/subscription/mod.rs:512-529 | removes exactly that subscription, which then receives no event; the results for unknown ids |
| `Subscriptions.SubscriptionManager.ShutdownGracefully` | src/subscription/mod.rs:141-159 | takes out every live subscription, unregisters exactly those, and returns when each task has handled all that its inbox held |
| `Subscriptions.SubscriptionManager.Shutdown` | src/subscription/mod.rs:625-642 | clears registry and subscriptions; nothing has a recipient any more |
| `PersistentRegistries.Targets` | src/persistence/redb.rs:132-190 | over the registry that answers no topic lookup the recipients are exactly the live, active, accepting subscriptions of the type without a topic, each once, and never more than the count the event row is given |
| `PersistentRegistries.RecipientsCounted` | src/persistence/redb.rs:321-332 | distinct recipients by type are at most as many as the registrations of the type, so the stored count bounds the acknowledgements |
| `PersistentRegistries.RedbRegistry.CountIsListed` | src/persistence/redb.rs:163-165 | the count that the outbox looks up for a type is the number of registrations of the type in the log |
| `PersistentRegistries.RedbRegistry.HandleCopy` | src/subscription/mod.rs:225-299 | a handler task sends exactly one acknowledgement for a copy, a success if some run within the retries succeeds and else a failure, or none when a sleep overflows and the task panics |
| `Retry.BackoffCases` | src/subscription/mod.rs:287 | below 32 the factor 2^n is exact; from 32 on checked arithmetic panics and wrapping arithmetic gives a zero delay |
| `Retry.LongestDelay` | src/subscription/mod.rs:287 | the longest delay is that of u64::MAX seconds and 999999999 nanoseconds; one nanosecond more panics |
| `Retry.AttemptsLimited` | src/dispatcher/retry.rs:104-106 | no policy retries from its last attempt on; before it a fixed delay retries after that delay |
| `Retry.HandleEnvelope` | src/subscription/mod.rs:225-299 | the envelope is acknowledged after k failures and a success with k at most the retries, else marked failed after exactly one failure more than the retries, having slept backoff times 2^k - 1; or a sleep cannot be computed, and then exactly at the first one that does not fit |
| `Retry.AlwaysVerdict` | src/subscription/mod.rs:287 | up to 32 retries, with products that fit, no sleep overflows |
| `Retry.DelaysGrowToCap` | src/dispatcher/retry.rs:104-118 | without jitter delays are base times 2^(attempt-1) up to the cap, and never shrink with later attempts |
| `Retry.JitterHalves` | src/dispatcher/retry.rs:111-116 | jitter keeps a delay between half, rounded down, and all of the plain one, and does not change whether there is a retry |
| `Retry.DelaysCollapse` | src/dispatcher/retry.rs:108 | from attempt 33 on a checked build panics and a wrapping build retries at once |
| `CircuitBreakers.CircuitBreaker.CheckState` | src/dispatcher/retry.rs:239-257 | an open circuit turns half-open exactly from the timeout after the last failure on |
| `CircuitBreakers.CircuitBreaker.RecordSuccess` | src/dispatcher/retry.rs:259-271 | the state change of a success, in every state |
| `CircuitBreakers.CircuitBreaker.RecordFailure` | src/dispatcher/retry.rs:273-284 | the state change of a failure, with the wrapping counter |
| `CircuitBreakers.CircuitBreaker.ShouldRetry` | src/dispatcher/retry.rs:288-309 | an open circuit refuses without asking the inner policy; otherwise its advice is passed on and counted |
| `CircuitRuns.Reachable` | src/dispatcher/retry.rs:239-319 | after any calls the counter is the number of failures since the last reset up to wrap-around; closed means fewer than the threshold, open or half-open at least that many and a last failure; half-open has too few successes |
| `CircuitRuns.OpensAtThreshold` | src/dispatcher/retry.rs:273-284 | a closed circuit opens on exactly the threshold-th failure since the last reset |
| `CircuitRuns.ReopensUnlessWrapped` | src/dispatcher/retry.rs:273-319 | one failure of either kind, a retry or a permanent failure, reopens a half-open circuit exactly when the wrapped counter still reaches the threshold |
| `CircuitRuns.ClosesAtThreshold` | src/dispatcher/retry.rs:259-267 | a half-open circuit closes exactly with the success that brings the number of successes since it became half-open to the success threshold |
| `CircuitRuns.SuccessesCount` | src/dispatcher/retry.rs:259-267 | after any calls a half-open circuit has counted exactly the successes since it became half-open, fewer than the threshold |
| `CircuitRuns.OpenShieldsInner` | src/dispatcher/retry.rs:239-300 | an open circuit consults the inner policy exactly from the timeout after the last failure of the whole history on |
| `CircuitRuns.FailingNeverOpens` | src/dispatcher/retry.rs:288-319 | around a policy with r retries per message, while two or more messages all fail for good, the circuit is closed throughout exactly if its threshold exceeds r + 1 |
| `CircuitRuns.FirstCloses` | src/dispatcher/retry.rs:288-319 | for a single message: exactly if the threshold exceeds both r and 1 |
| `Pipelines.MoveKeeps` | src/dispatcher/channel.rs:83-134 | every move keeps: handled, in hand, in flight and queued tags of a subscription concatenate to the accepted events routed to it less the lost ones; queue and inboxes within bounds; a cancelled subscription loses what is sent to it later |
| `Pipelines.EveryFlow` | src/dispatcher/channel.rs:83-134 | the same in every state of every run; counters balance in every run where the worker neither is told to stop nor dies; nothing is lost without timeout, stop, abort or death |
| `Pipelines.ClosedForGood` | src/subscription/mod.rs:604-606 | a subscription whose task was cancelled or died handles nothing more in any run |
| `Pipelines.AbortedForGood` | src/subscription/mod.rs:632-634 | from the moment its task is cancelled or dies a subscription handles nothing more and holds nothing, in any run |
| `Pipelines.HandledInOrder` | src/subscription/mod.rs:221-308 | what a subscription has handled is a prefix of what is expected of it, in order of acceptance, none twice |
| `Pipelines.QuietIsDone` | src/subscription/mod.rs:598-611 | with nothing on the way, a subscription has handled exactly the events routed to it |
| `Pipelines.BalanceKept` | src/dispatcher/channel.rs:95-133 | answered plus rejected submissions equal dispatched plus errors plus queued plus in flight, through every move except stopping or killing a worker with a non-empty queue |
| `Pipelines.SubmissionsMet` | src/dispatcher/channel.rs:271-343 | in every run the worker is dead exactly from its death on; until then a submission is taken only with room in the queue and dropped or turned away only without, and afterwards every submission is refused |
| `Pipelines.CountersCount` | src/dispatcher/channel.rs:95-133 | in every run the counters are the numbers of submissions answered with success, of submissions rejected, of dispatches completed, and of drops, rejections and timeouts |
| `Pipelines.LoseStretch` | src/dispatcher/channel.rs:103-113 | losing one stretch of a subscription's tags leaves exactly the rest to be handled |
| `Dispatchers.ChannelDispatcher.Start` | src/dispatcher/channel.rs:140-181 | starts once, and reports being running or having been started before |
| `Dispatchers.ChannelDispatcher.Dispatch` | src/dispatcher/channel.rs:226-292 | every answer and every change of queue, sleepers and counters, by running flag, delivery time, sender, room and drop_on_full; the counters keep balancing |
| `Dispatchers.ChannelDispatcher.TryDispatch` | src/dispatcher/channel.rs:297-334 | every answer and every change, without waiting; timed events are backpressure and not counted |
| `Dispatchers.ChannelDispatcher.ProcessNext` | src/dispatcher/channel.rs:83-134 | one event goes to exactly its recipients with room and is counted when none is pending; a stopped worker drops the queue |
| `Dispatchers.ChannelDispatcher.Resolve` | src/dispatcher/channel.rs:103-131 | the blocked recipients, and nobody else, get the event after what they had, or none does when the time is over; either way it is counted once |
| `Dispatchers.ChannelDispatcher.Turn` | src/dispatcher/channel.rs:83-134 | without a timeout one turn gives the event to every recipient once and to nobody else, whether inboxes were full or not |
| `Dispatchers.ChannelDispatcher.Stop` | src/dispatcher/channel.rs:184-206 | clears the flag and closes the sender, only when running |
| `Dispatchers.ChannelDispatcher.WorkerEnded` | src/dispatcher/channel.rs:208-224 | after draining, every answered or rejected submission is a dispatch or an error |
| `EventBuses.EventBus.PublishWithMetadata` | src/bus/mod.rs:272-306 | outside the running state the answer is ShuttingDown and nothing reaches the dispatcher; in it, the answer in every case: success exactly when the dispatcher runs and the event is either in the future or finds an open sender and room or a full queue that drops, and else which refusal; a success means the event is queued, asleep until its time, or dropped and counted as an error |
| `EventBuses.EventBus.TryPublishWithMetadata` | src/bus/mod.rs:187-231 | success exactly when running, open, untimed and with room, and then the event is queued |
| `EventBuses.EventBus.Shutdown` | src/bus/mod.rs:1013-1050 | a running dispatcher is taken out and stopped, unless its lock is not free in time, when it stays as it was; all subscriptions end and the bus is stopped either way |
| `EventBuses.EventBus.ShutdownGracefully` | src/bus/mod.rs:1072-1108 | each task has handled, after what it had got, the event the worker was sending to it and then exactly the queued events routed to it, in order; the bus is stopped without dispatcher and subscriptions; a dispatcher that never started delivers nothing |
| `EventBuses.EventBus.TakeDispatcher` | src/dispatcher/channel.rs:208-224 | draining a running dispatcher delivers all that is queued to its recipients, and the counters then account for every submission |
| `BusRuns.ActKeeps` | src/bus/mod.rs:272-306 | every action of publishers, worker, handlers and shutdown calls keeps the invariant of bus and pipeline |
| `BusRuns.Reachable` | src/bus/mod.rs:1072-1105 | the invariant holds in every state of every run |
| `BusRuns.NoLateEnqueue` | src/bus/mod.rs:289-303 | in no run does a publish enqueue once the dispatcher has been taken, or get the read lock while a shutdown has the write lock |
| `BusRuns.NeverRunningAgain` | src/bus/mod.rs:277-301 | the bus never returns to the running state, and then no new publish passes its check and no publish under the lock its second one |
| `BusRuns.AcceptedWasChecked` | src/bus/mod.rs:277-303 | in every run an event is accepted only through a publisher that began with it while the bus was running, and found the bus running again under the lock |
| `BusRuns.AbruptEnds` | src/bus/mod.rs:1034-1055 | in every run, when an abrupt shutdown returns, the bus is stopped and no subscription is left; those that were there have had their tasks cancelled and handle nothing more |
| `BusRuns.StopHalts` | src/bus/mod.rs:1034-1047 | in every run, from the moment an abrupt shutdown has stopped the dispatcher, the worker takes no event from the queue |
| `BusRuns.AbruptGoesThrough` | src/bus/mod.rs:1034-1055 | from every state an abrupt shutdown can give up on the lock, cancel the tasks and return, even while a graceful one keeps the lock |
| `BusRuns.StoppedMeansDrained` | src/bus/mod.rs:1089-1104 | after a graceful shutdown has returned, and without abrupt ones, everything accepted is handled if and only if no shutdown call beside it still waits for a task with work left |
| `BusRuns.SecondCallStopsEarly` | src/bus/mod.rs:1089-1104 | while one call waits for such a task, a second call runs through and stores Stopped too early |
| `BusWitness.StoppedTooEarly` | src/bus/mod.rs:1072-1105 | such a state is reached: a run from the start with one publisher, one subscription and two shutdown calls ends stopped with its one event unhandled |
| `BusRuns.GracefulDrain` | src/bus/mod.rs:1072-1105 | in every run without abrupt shutdown, dispatch timeout or shutdown calls beside it, a graceful shutdown returns with every enqueued event handled by every subscription it routes to, once and in order, and nothing else handled, if neither the worker nor the task of the subscription died; else the subscription has handled the first so many of them |
| `BusProgress.GracefulGoesThrough` | src/bus/mod.rs:1072-1105 | no deadlock: from every state of every run in which the bus is running and no publisher has the lock, some run of worker, handlers and any one shutdown call leads to its return, with the bus stopped and every accepted event handled that was not lost before, and nothing more lost if no task had died |
| `OutboxTables.AcksFold` | src/persistence/redb.rs:54-117 | from count n, k acknowledgements leave n - k and the row when k is less than n, else neither row nor count, with a dead letter of the same payload exactly if the n-th was a failure, whatever acknowledgements of other events come between |
| `OutboxTables.AcksCommute` | src/persistence/redb.rs:54-117 | only the order among acknowledgements of the same event matters |
| `OutboxTables.AcksOfUnknown` | src/persistence/redb.rs:90-96 | acknowledgements of an event without a count change nothing about it |
| `GroupCommit.BatchIsOneByOne` | src/persistence/redb.rs:266-414 | a batch has the same tables and deliveries as its messages taken singly if and only if the first message with each new key has subscribers whenever a later one has |
| `GroupCommit.BatchingIsInvisible` | src/persistence/redb.rs:266-414 | when messages sharing a key agree on having subscribers, every split of a stream into batches gives the tables and deliveries of taking it one by one |
| `GroupCommit.BatchingShows` | src/persistence/redb.rs:287-303 | without that agreement there are inputs where batching loses an event |
| `GroupCommit.BatchKeys` | src/persistence/redb.rs:278-311 | a batch puts on record exactly the keys whose first message has subscribers |
| `GroupCommit.OneByOneKeys` | src/persistence/redb.rs:278-311 | single commits put on record exactly the keys of messages with subscribers |
| `GroupCommit.BatchStores` | src/persistence/redb.rs:312-414 | a message that is written, with no later one of the batch for the same event, has its scheduled row under its due millisecond, or else its event row and full count, after the batch |
| `GroupCommit.BatchSpares` | src/persistence/redb.rs:312-414 | an event for which the batch writes no message keeps rows, count and scheduled rows as they were |
| `GroupCommit.BatchDispatches` | src/persistence/redb.rs:416-446 | what is dispatched after a batch are the messages that are no duplicates and due, in their order, with or without subscribers |
| `OutboxStore.RedbStore.ApplyAck` | src/persistence/redb.rs:54-117 | one acknowledgement changes the tables as specified |
| `OutboxStore.RedbStore.DrainAcks` | src/persistence/redb.rs:54-117 | the worker applies all messages in order |
| `OutboxStore.RedbStore.TakeBatch` | src/persistence/redb.rs:266-276 | a batch is the longest prefix of the queue up to 1000 messages, never empty |
| `OutboxStore.RedbStore.CommitBatch` | src/persistence/redb.rs:278-446 | tables and dispatched events are those of the batch specification; spelled out: a message that is no duplicate and whose type lists somebody, with no later one for the same event, gets a scheduled row under its due millisecond and id if its time is still to come, and else its row with the number of subscriptions listed; every other event keeps its rows, the dead letters stay, and the messages dispatched are those that are no duplicates and due |
| `OutboxStore.RedbStore.DropDuplicates` | src/persistence/redb.rs:278-311 | the loop over batch keys and recorded keys keeps exactly the messages that are no duplicates |
| `OutboxStore.RedbStore.PullScheduled` | src/persistence/redb.rs:505-546 | the scan with early break takes out exactly the rows due by that millisecond, ordered by due time and id; the others stay as they are |
| `OutboxStore.SendReady` | src/persistence/redb.rs:552-576 | exactly the rows with subscribers go out, in order, unchanged but for the delivery time, and can never be scheduled again |
| `OutboxStore.RedbStore.ReplayDlq` | src/persistence/redb.rs:770-826 | empties the dead letters and sends the rows of known types, in id order and with all they hold, as far as the room goes, counting all of them |
| `OutboxStore.KnownRowsMean` | src/persistence/redb.rs:799-826 | the rows offered are those of known types, in order, each with its payload and metadata under the current identity of its type |
| `OutboxStore.LettersOffered` | src/persistence/redb.rs:799-826 | a replay of dead letters offers all of them to the queue if and only if every type is known and the queue has room for all |
| `OutboxStore.RedbStore.ReplayPending` | src/persistence/redb.rs:862-934 | per event: a row leaves, with its count, exactly if it has a count and that is zero or its type is unknown or lists nobody; every other row and count stays as it was; what is sent are the rows that stay and have a count, each once, unchanged, in id order |
| `OutboxTicks.BatchTick` | src/persistence/redb.rs:278-450 | a run of a commit of any size up to the limit and of the dispatches of all its due events, each to any subscriptions up to as many as its type lists, leaves the tables of the batch specification and a copy with each of these subscriptions |
| `OutboxTicks.VerdictTick` | src/subscription/mod.rs:244-281 | any handler can finish its copy with either verdict, and the acknowledgement with that verdict is what the tables get |
| `OutboxTicks.ScheduleTick` | src/persistence/redb.rs:505-580 | a run of the pull and all sends of a scheduler tick, with room in the queue, takes out exactly the due rows and queues exactly what the loop sends |
| `OutboxTicks.PendingTick` | src/persistence/redb.rs:862-934 | a run of the beginning, all rows and the end of a replay of pending rows leaves the tables of `ReplayPending` and queues the messages it sends |
| `OutboxTicks.LetterTick` | src/persistence/redb.rs:770-826 | a run of the beginning and all offers of a replay of dead letters empties them and queues the messages `ReplayDlq` sends |
| `OutboxTicks.LettersOverlap` | src/persistence/redb.rs:770-826 | replays of dead letters can overlap: from every state one can begin while letters of another are on their way, and any of all these can be offered next |
| `OutboxSteps.BatchTakes` | src/persistence/redb.rs:278-414 | a group commit is the same as taking its messages one after the other, each judged against the earlier ones |
| `OutboxRuns.Reachable` | src/persistence/redb.rs:266-580 | in every state of every run, crashes, dying handlers and early replays included, every event that is not doubled waits in one place at most, has rows in one table at most, and has a count that covers all acknowledgements to come |
| `OutboxRuns.SteadyRuns` | src/persistence/redb.rs:266-580 | in every state of every run, for every event: event rows and counts pair up with no zero count; all its messages and rows say what was published, less the delivery time from the moment the scheduler has sent it; a scheduled event is nowhere else, and two queued messages of one event are due |
| `OutboxRuns.QueueFits` | src/persistence/redb.rs:266-276 | in no run does the queue exceed its capacity or a batch 1000 messages |
| `OutboxSteps.OvertakenDouble` | src/persistence/redb.rs:838-934 | the condition for this invariant: the events that a replay of pending rows adds to the doubled ones are exactly those for which the invariant would fail at once. It says nothing of harm later on: a row with a key and subscribers, taken up while live, is dropped by the duplicate filter |
| `OutboxWitness.ReplayTooSoon` | src/bus/mod.rs:813-820 | counts can come out wrong for a doubled event: a run from the start in which its row leaves by its last acknowledgement while a copy is still with a handler |
| `OutboxRuns.CrashSingles` | src/persistence/redb.rs:838-934 | in every run, after a crash an event is doubled if and only if it was before and has both an event row and a dead letter |
| `OutboxRuns.TablesFit` | src/persistence/redb.rs:96-116 | in every state of every run event rows and counts pair up, no count is zero, and a scheduled event has one scheduled row and no other; an event that is not doubled has rows in one table at most, and its count covers the copies and acknowledgements outstanding |
| `OutboxRuns.AcksFindRows` | src/persistence/redb.rs:89-96 | in no run does an acknowledgement come for an event without a row, unless the event is doubled |
| `OutboxRuns.RowsLeaveLast` | src/persistence/redb.rs:96-113 | in every run a row leaves by its last acknowledgement or by collection only, and never, unless the event is doubled, while a copy is outstanding |
| `OutboxRuns.RowsConstant` | src/persistence/redb.rs:398-414 | in every run, whenever an event has a row its payload and metadata are the same as at any other time, however often the row left and came back; and so are those of its dead letter |
| `OutboxRuns.RowGone` | src/persistence/redb.rs:96-116 | in every run a row that is gone was removed by the last acknowledgement it was owed or collected for having no subscribers, and by nothing else; unless the event was doubled then, with no copy outstanding |
| `OutboxRuns.CommitsWrite` | src/persistence/redb.rs:403-414 | in every run a committed message that is new, due and has subscribers is in the tables and, unless the event is doubled, with its full count |
| `OutboxRuns.CommitsSchedule` | src/persistence/redb.rs:403-406 | in every run a committed message that is no duplicate, has subscribers and is due later has its scheduled row after the commit, under its due millisecond and id, with all of its content |
| `OutboxRuns.CommitsDispatch` | src/persistence/redb.rs:416-446 | in every run a commit lists for dispatch exactly the messages of the batch that are no duplicates and due |
| `OutboxRuns.RowSurvives` | src/persistence/redb.rs:96-116 | over any stretch of any run, crashes included, the row stays unchanged while fewer acknowledgements than its count were committed |
| `OutboxRuns.RowEnds` | src/persistence/redb.rs:98-112 | in every run the row is gone with the commit of the last one |
| `OutboxLetters.LettersFail` | src/persistence/redb.rs:98-112 | in every run an event becomes a dead letter only with the commit of the last acknowledgement it is owed, and the handler that sent this one had failed |
| `OutboxLetters.LastVerdictDecides` | src/subscription/mod.rs:244-281 | in every run, when the acknowledgement that a handler sent turns out to be the last one owed, the row is gone with its commit, and there is a dead letter with the content of the row exactly if that handler failed |
| `OutboxLetters.SuccessLeavesNone` | src/persistence/redb.rs:96-113 | in every run an event that every handler so far finished with success is no dead letter |
| `OutboxRuns.ReplayExactlyOnce` | src/persistence/redb.rs:862-934 | in every run a replay from start to end without a crash takes up every event row there was, each once, in id order |
| `OutboxRuns.ReplaysSend` | src/persistence/redb.rs:876-914 | in every run a row taken up is queued unchanged, or marked for removal when nobody subscribes; it is still in the table unless the event is doubled, and if it is there it is as it was read |
| `OutboxRuns.IdempotentRuns` | src/persistence/redb.rs:278-311 | in every run no two rows ever written share a key, and the keys on record are exactly those of the rows written |
| `OutboxRuns.SourcedRuns` | src/persistence/redb.rs:398-414 | every row ever found in a table is one of the rows counted as written |
| `OutboxReinjected.ReturningRuns` | src/persistence/redb.rs:552-580 | in every state of every run whatever waits to come to the queue again, or is there again, has the id and key of a row that was written, and none of it is still to be scheduled |
| `OutboxReinjected.ReturningNeedsNoKey` | src/persistence/redb.rs:287-303 | in every run an event that comes up in a batch after a row was written for it, from the scheduler or from either replay, is dispatched if and only if it has no idempotency key |
| `OutboxReinjected.ScheduledNeedsNoKey` | src/persistence/redb.rs:552-576 | in particular, in every run, an event that the scheduler sent is dispatched if and only if it has no key |
| `OutboxFates.LetterComesBack` | src/persistence/redb.rs:799-826 | in every run, after the batch that takes the place a dead letter was offered and without a crash in between, the letter of an event that is not doubled is back as an event row, unchanged, if and only if its type was known and the queue had room, it has no key, and its type lists somebody at the commit; else no table has it |
| `OutboxWitness.LetterLost` | src/persistence/redb.rs:799-826 | runs from the start for every key and every later number of subscriptions: a letter that got its place in the queue is lost as soon as it has a key or nobody is listed |
| `OutboxFates.ScheduledComesBack` | src/persistence/redb.rs:552-580 | the same, in every run, for an event the scheduler sends: it gets its event row if and only if it has no key and its type still lists somebody, and is dispatched if and only if it has no key |
| `OutboxFates.ScheduledSurvivesCrash` | src/persistence/redb.rs:505-546 | in every run a scheduled event not committed again survives a crash if and only if the scheduler had not yet taken its row out; otherwise it is gone for good |
| `OutboxFates.GoneForGood` | src/persistence/redb.rs:266-580 | an event in no table, no message and with no handler never comes back, in any run |
| `OutboxFates.PublishedIsStored` | src/persistence/redb.rs:266-450 | in every run, from the publishing of an event to the end of the batch that takes it, without a crash in between: its scheduled row or its event row with the full count is there if and only if it is no duplicate and somebody is listed |
| `OutboxWitness.ScheduledRecovers` | src/persistence/redb.rs:266-580 | a run from the start in which a scheduled event survives a crash, is pulled, sent, committed and dispatched, loses its copy, is replayed, handled, and leaves all tables |
| `OutboxFates.RowCountsAcks` | src/persistence/redb.rs:96-116 | between replays, in any run, a row is there if and only if fewer acknowledgements than its count were committed, and its count is what is left |
| `OutboxDelivery.RemovedMeansAcknowledged` | src/persistence/redb.rs:89-113 | in every run, when acknowledgements have removed a row of an event that was not doubled at its last commit, exactly as many as its count were committed since then, no copy or acknowledgement of it was lost to a dying handler or a crash, and none is outstanding |
| `OutboxDelivery.HandledByAll` | src/persistence/redb.rs:442-450 | at-least-once delivery to each recipient: in every run, when acknowledgements have removed a row of an event that was not doubled at its last commit, every subscription that a dispatch since then sent the event to has finished handling it |
| `OutboxDelivery.NoAckTooMany` | src/persistence/redb.rs:96-116 | between replays, in any run, the acknowledgements committed, lost and outstanding together never exceed the count of the row, unless the event is doubled as the stretch begins |
| `OutboxDelivery.HandledLeaves` | src/persistence/redb.rs:321-332 | in every run, with all routed copies acknowledged, none lost and no replay in between, the row is gone if and only if at least as many copies were routed as it was given as its count, and more than that only for a doubled event |
| `OutboxScheduler.ScheduledRuns` | src/persistence/redb.rs:505-576 | in every state of every run what the scheduler holds is due, and what it has sent carries no delivery time anywhere |
| `OutboxScheduler.NotSentEarly` | src/persistence/redb.rs:516-580 | in every run no event is sent a millisecond or more before it is due, and what is sent is what was published, less the delivery time |
| `Events.MillisBounds` | src/persistence/redb.rs:354-358 | the millisecond of a time is the number of whole millions of its nanoseconds |
| `Events.RowRoundTrip` | src/persistence/redb.rs:334-341 | a row holds all of an event but its type identity |
| `OutboxScheduler.ScheduledOnce` | src/persistence/redb.rs:557-558 | in every run, once sent, an event is never scheduled again, not even after a crash and a replay |
| `OutboxScheduler.NotDispatchedEarly` | src/persistence/redb.rs:442-450 | in every run whatever the worker dispatches is due, and is what was published but for the delivery time |

## Left out

- Encoding and decoding of events and rows: a row holds metadata and payload as values; serialization errors and
  corrupted rows, which the code counts as errors or collects, do not occur.
- Failing or partly failing database transactions.
- Two clock readings within one batch: the code compares the delivery time with the clock before the commit and again
  before the dispatch; the model reads the clock once.
- u32 truncation of the subscriber count, and the count of topic subscribers: under persistence the registry answers
  topic lookups with nothing.
- `wait_for_persistence` and the waiting publishers; event priorities; tracing, metrics and timing statistics.
- The copy-on-write swap of the topic index: the model changes one index in place.
- The sleeping tasks of the in-memory dispatcher are listed but never wake; they also hold the channel open during a
  graceful shutdown, which the model does not show.
- Concurrent register and unregister of one subscription, where the code drops a lock before removing an empty list.
- Panicking filters, except as the death of the worker in `Pipeline.dfy` and `BusProtocol.dfy`: elsewhere a filter is a
  total function.
- Changes of the registrations while events are in the delivery pipeline, and subscribing during a shutdown.
- Fairness: that a run which can go on does go on. Lock order in the circuit breaker, and a full dead-letter channel
  blocking a handler.
- The remote transport, request and reply, worker pools, builders, presets, shutdown hooks, untyped subscriptions,
  the global bus, `increment_processed`.
- Rounding of the floating-point jitter factor: the model scales by a real number between one half and one.
- Retry.HandleEnvelope: excludes `max_retries` of u32::MAX in wrapping builds, where the attempt counter wraps and the
  loop need not end.
- PersistentRegistries.RedbRegistry.HandleCopy: excludes the same.
- Registries.DashMapRegistry.Register: requires an id that the registry has never seen, as a newly drawn UUID is.
- Dispatchers.ChannelDispatcher.ProcessNext: sends that find an inbox full stay pending until `Resolve`.
- Subscriptions.SubscriptionManager.Dispatch: returns with the blocked sends pending, which `Deliver` completes one by
  one; the code waits for all of them.
- Subscriptions.SubscriptionManager.ShutdownGracefully: no task dies by a panic; what is lost then is in `BusRuns`.
- EventBuses.EventBus.ShutdownGracefully: the handlers make room as the worker needs it and none dies; other
  interleavings with publishers and handlers, and dying tasks, are in `BusProtocol`.
- OutboxRuns.ReplayExactlyOnce: requires that no crash happens in between, and no second replay of pending rows, which
  the write lock of the bus rules out.
