# Verified model of the SSE event bus

A Dafny model of the delivery engine of an event bus for server-sent events,
with proofs of what the bus promises: order of delivery per client connection,
bounded memory without deadlock, no effect of stale work on a reconnected
client, reconnection without gaps, and a wire format that a standard parser
reads back.

`dafny verify dfyconfig.toml` checks everything.

## How it is built

The concurrent parts are state machines. A step is one critical section, one
atomic load or store, one channel operation, or the start or end of a call on a
connection; a run is any sequence of steps by any number of workers, publishers
and other callers, in any order. `Connection.Send` and `Close`, canceled
contexts, subscription changes and the clock act as they like: time is an
integer that never goes back. The main results hold in every state of every
run.

The sequential parts are classes and methods with the fields and loops of the
program, proved against functions and relations which the state machines use.

| file | part of the bus |
|---|---|
| `Tickets`, `Line`, `SendQueue` | ordering tickets of a client generation; the bounded send queue (array with a moving head) |
| `Retries`, `RetryQueue`, `Backoff` | the bounded retry heap; the retry delay |
| `TurnOrder` | the ticket protocol by itself: queue, hands that hold tickets, turns |
| `Delivery`, `DeliveryOrder`, `DeliveryOwnership`, `DeliveryTheorems`, `DeliveryRuns`, `DeliveryProgress`, `DeliveryConservation`, `DeliveryEnds`, `DeliveryRetirement`, `DeliveryDelay`, `DeliveryShutdown` | publishers, workers, retry scheduler and shutdown flush, and the locks they may wait for; it refines `TurnOrder` |
| `Wakeups` | the notification channels of the send queue |
| `Generation` | one client generation under its mutex: sends, heartbeats, retirement, closing |
| `LockTable` | the reference-counted lifecycle locks |
| `Lifecycle`, `LifecycleGenerations`, `LifecycleLog`, `LifecycleReplay`, `LifecycleSections`, `LifecycleProgress`, `Reconnect` | one client ID: registration, replacement, removal, publishing, replay, shutdown |
| `Options` | a value that may be missing |
| `ReplayLog`, `ReplayStore`, `Registry`, `Events`, `Publishing` | replay logs, subscriptions, event normalization, fan-out of one publish |
| `EventStream` | the parser of sections 9.2.5 and 9.2.6 of the WHATWG HTML Living Standard |
| `Wire`, `WireRoundTrip`, `HttpConnection` | the SSE encoder and the HTTP connection around it |

## What turned out differently from what one would expect

- A wake-up for free space in the send queue can be lost. A producer that has
  taken the `spaceReady` token and is canceled before it looks at the queue
  again returns without passing the token on; another producer then waits
  although there is room, until something is put into the queue or taken out.
  `Wakeups.SpaceCanBeLost` is such a run, `Wakeups.SpaceLostExactly` says which
  step does it and that no other does, `Wakeups.ChangesRepair` and
  `Wakeups.OnlyChangesRepair` what repairs it. Wake-ups for consumers are never
  lost, so workers are not affected.
- A slow connection can hold up the workers of all clients. The expiration loop
  reads a client's last transfer under the client's mutex, which is held
  throughout `Connection.Send`, and it does so with the bus lock held: for
  writing when it removes a client by age, and for reading when it scans, which
  keeps other readers out as soon as somebody waits to write. Every worker reads
  under the bus lock to see whether its event is current.
  `DeliveryProgress.SlowHeartbeatHoldsUp` is a run in which no worker can go on;
  `DeliveryProgress.SomeWorkerMovesExactly` says exactly when some worker can,
  and `DeliveryProgress.NoStall` that a worker that cannot is held up by a call,
  or by the expiration loop, that can go on.
- An authoritative registration that lists the empty event name does not
  subscribe to it, but protects a subscription to the empty name made directly
  on the registry; see `Registry.RegisterSubscriptions`.
- Purging the replay log is invisible to replay only because the bus writes the
  log in chronological order; `ReplayStore.PurgeVisibleOutOfOrder` shows a log
  for which it would not be.

## Model

| member | source | states |
|---|---|---|
| Tickets.AssignAddsLargest | bus.go:618-627 | A new ticket is larger than every outstanding one, and the set of outstanding tickets grows by exactly that one |
| Tickets.AdvanceStops | bus.go:673-681 | Skipping canceled tickets loses no outstanding one and stops at a turn that is not canceled |
| Tickets.TurnIsLeast | bus.go:629-639 | While any ticket is outstanding, the current turn is itself outstanding: nobody waits for a ticket that nobody holds |
| Tickets.FinishRemovesTurn | bus.go:641-651 | Finishing the current turn takes exactly that ticket away |
| Tickets.CancelRemoves | bus.go:653-671 | Canceling takes exactly that ticket away, in whatever order tickets are canceled |
| Tickets.Client.AssignOrder | bus.go:618-627 | The method on the client's fields does what the ticket book specifies |
| Tickets.Client.PollTurn | bus.go:629-639 | The wait ends when the turn has reached the ticket, and for an outstanding ticket it then returns true, never false |
| Tickets.Client.FinishTurn | bus.go:641-651 | The new ticket book after finishing, the advance over canceled tickets included |
| Tickets.Client.CancelTurn | bus.go:653-671 | The new ticket book after canceling, ticket zero and past tickets included |
| Tickets.Client.AdvanceCanceled | bus.go:673-681 | The loop computes the recursive advance |
| Line.KeepContains | queue.go:132-139 | Filtering keeps exactly the events that do not match |
| Line.KeepInTicketOrder | queue.go:132-139 | Filtering keeps the ticket order of every client's events |
| Line.CancelMatchingRemoves | queue.go:133-137 | Removing events from the queue cancels exactly their tickets |
| SendQueue.SendQueue.TryPush | queue.go:46-61 | Refused when closed or full; otherwise the queue is the old one with the event, under a new ticket, at the end |
| SendQueue.SendQueue.TryPop | queue.go:75-91 | Refused when closed or empty; otherwise takes the first event, whatever compaction does |
| SendQueue.SendQueue.Compact | queue.go:150-162 | Compaction changes nothing that can be observed, and slots below the head stay cleared |
| SendQueue.SendQueue.Drain | queue.go:116-127 | Returns every queued event in order and leaves the queue empty |
| SendQueue.SendQueue.Remove | queue.go:129-146 | Keeps the non-matching events in order, in place, and cancels the tickets of the others |
| SendQueue.SendQueue.Close | queue.go:101-108 | Closing changes no content |
| SendQueue.FilterInPlace | queue.go:132-144 | Overwriting from the left, while reading further right, leaves exactly the kept events |
| Retries.EarliestIsStrictlyFirst | queue.go:261-266 | With distinct sequence numbers the order by due time and sequence is strict: the earliest entry is before all others |
| Retries.ScheduledKeepsBound | queue.go:183-197 | Scheduling keeps the queue within capacity, conserves the entries, and hands back one that is before all that stay |
| Retries.RemovedKeepsNumbered | queue.go:218-233 | Removing keeps sequence numbers distinct and never grows the queue |
| Retries.EarliestExists | queue.go:201-216 | A non-empty queue always has an earliest entry to hand back or pop |
| RetryQueue.RootIsEarliest | queue.go:210-210 | In heap order nothing is before the root |
| RetryQueue.SiftUp | queue.go:191-191 | The `up` of container/heap over this order restores heap order and permutes the entries |
| RetryQueue.SiftDown | queue.go:194-194 | The `down` of container/heap restores heap order below a position and permutes the entries |
| RetryQueue.Heapify | queue.go:231-231 | `heap.Init` makes any list a heap with the same entries |
| RetryQueue.PopRoot | queue.go:214-214 | `heap.Pop` takes out the earliest entry and leaves a heap of the others |
| RetryQueue.PushBounded | queue.go:191-196 | Push, and pop on overflow: the earliest of old and new entries comes back, the rest stay |
| RetryQueue.KeepHeap | queue.go:218-232 | In-place filtering and re-initialization keep exactly the non-matching entries, in heap order |
| RetryQueue.RetryQueue.Schedule | queue.go:183-197 | The heap implements the bounded priority queue's schedule; refused when closed |
| RetryQueue.RetryQueue.PopDue | queue.go:201-216 | Returns the earliest entry exactly when something is due, else the next due time |
| RetryQueue.RetryQueue.Remove | queue.go:218-233 | Keeps exactly the non-matching entries and restores heap order |
| RetryQueue.RetryQueue.Clear | queue.go:247-254 | Leaves no entry |
| Backoff.Compute | bus.go:724-732 | In signed 64-bit arithmetic, without any overflow, the delay is min(base * 2^(attempts-1), maximum) |
| Backoff.DelayNonDecreasing | bus.go:724-732 | The delay never goes down as attempts go up, and never exceeds the maximum |
| Backoff.PastMaximum | bus.go:726-729 | Once doubling has passed the maximum, the documented delay is the maximum for all later attempts |
| TurnOrder.NextKeepsInv | bus.go:618-681 | Every step of the ticket protocol keeps: tickets queued in order, hands ahead of the queue, none lost, sends logged in ticket order |
| TurnOrder.TicketInOnePlace | bus.go:618-681 | A ticket in hand is in no other hand and not in the queue, and a queued ticket is queued once |
| TurnOrder.SomebodyHasTheTurn | bus.go:629-651 | Whenever somebody holds a ticket of a client, somebody holds the ticket whose turn it is: it is never still in the queue |
| Delivery.ActsWithinFrame | bus.go:693-739 | A worker's step changes only that worker and the shared data it names |
| DeliveryTheorems.NextKeepsInv | bus.go:693-830 | Every step of the whole engine keeps the refinement of the ticket protocol, single ownership and the attempt bounds |
| DeliveryRuns.TicketedSendsInPushOrder | bus.go:708-720 | In every run with any number of workers, everything sent out of the send queue to one client generation, first attempts, retries that came back and the shutdown flush, is sent in the order it was pushed |
| DeliveryRuns.FirstSendsInPushOrder | bus.go:693-739 | First attempts for one client generation are always made out of the queue, and so in the order the events were pushed |
| DeliveryRuns.OneTurnAtATime | bus.go:629-651 | At most one worker is between getting and finishing a turn of one client generation |
| DeliveryRuns.TicketsConserved | bus.go:618-681 | Every outstanding ticket is in exactly one place: the send queue, one worker's hand or the flush's hand |
| DeliveryRuns.HeldTicketsAreOutstanding | bus.go:641-681 | What is queued or held has an outstanding ticket |
| DeliveryRuns.TurnNeverCanceled | bus.go:673-681 | In no ticket book of any reachable state is the current turn a canceled ticket |
| DeliveryRuns.SingleOwner | bus.go:693-830 | Each event is in at most one of send queue, retry heap, a worker's, the scheduler's, a publisher's or the flush's hand, and there once |
| DeliveryRuns.AttemptsBounded | bus.go:764-779 | `Connection.Send` is called at most the configured number of times per event; in the heap or held, an event has at least one and fewer than that many attempts |
| DeliveryRuns.QueuesBounded | queue.go:50-50 | Neither queue ever exceeds its capacity |
| DeliveryRuns.OneRemovalPerGeneration | bus.go:781-790 | At most one exhaustion removal is started per client generation, and only of one that is then inactive |
| DeliveryProgress.NoStall | bus.go:693-792 | As long as any worker has something to do, some worker has a step that waits for no turn, no lock and no queue capacity, at most for a due time or its own send, whatever `isCurrentEvent` answers; or that worker is held up by a heartbeat through its own event's generation, or by the holder of the bus lock it needs, which can go on or is itself held up by a heartbeat. With no heartbeat and the bus lock free it is always the former |
| DeliveryProgress.QueueNeverStuck | queue.go:164-197 | The same in every open state with a non-empty send queue, both queues full and publishers blocked inside lifecycle locks included |
| DeliveryProgress.PublisherPushes | queue.go:50-61 | A publisher can push its event, at the end, as long as the queue is open and has a free slot |
| DeliveryProgress.SchedulerPushes | bus.go:808-812 | So can the retry scheduler |
| DeliveryProgress.SchedulerTakes | queue.go:210-215 | At rest, as long as something is due, the scheduler takes the earliest of what is due |
| DeliveryProgress.WorkerMovesExactly | bus.go:693-792 | A worker can go on if and only if it has something to do and does not wait for its turn, for the mutex of its event's client or for the bus lock |
| DeliveryProgress.SomeWorkerMovesExactly | bus.go:693-792 | Some worker can go on if and only if some worker with something to do waits for no turn, no heartbeat through its event's generation and no bus lock |
| DeliveryProgress.SlowHeartbeatHoldsUp | bus.go:852-857 | A run in which a heartbeat to one client keeps the only worker, which has an event for another client, from going on |
| DeliveryProgress.MutexHolderMoves | bus.go:572-616 | A mutex that no heartbeat holds is held by a worker inside the send of that generation, which needs nothing to come out |
| DeliveryConservation.EventsConserved | bus.go:693-830 | In every run each published event is still to be delivered in some place, or at one step was delivered, used up its attempts, was found not current or its client inactive, was removed with pending events, or given up by its publisher or at shutdown; so a failed send with attempts left is retried |
| DeliveryConservation.StepKeepsLive | bus.go:764-792 | Each step keeps an event live or ends it for one of those reasons |
| DeliveryConservation.QueueKeepsExactly | bus.go:1023-1029 | Discarding pending sends keeps an event of the send queue if and only if it is another client's, or only replayable events are meant and it is not one |
| DeliveryConservation.RetriesKeepExactly | bus.go:1023-1029 | The same for the retry queue |
| DeliveryEnds.EndedIsOver | bus.go:764-792 | An event that came to its end, for whatever reason, is in no place to be delivered from any more and is never sent again |
| DeliveryEnds.DeliveredIsOver | bus.go:774-776 | In particular one whose send succeeded, by a worker or by the flush |
| DeliveryEnds.NotCurrentIsOver | bus.go:765-767 | And one found not current, at whichever of the five places that is asked |
| DeliveryRetirement.RetiredIsSilent | bus.go:572-577 | A retired generation stays so, and nothing more is sent to it |
| DeliveryRetirement.ClosedIsSilent | bus.go:588-594 | After a send that found the connection closed, nothing more is sent to the generation |
| DeliveryRetirement.CompletedIsSilent | bus.go:585-594 | After one successful send to a generation registered to complete after a message, neither |
| DeliveryRetirement.ExhaustionRemoves | bus.go:778-790 | When a current event of an active client has failed as often as it may, the client is retired and its removal started, at once and exactly once |
| DeliveryRetirement.RemovedOnlyExhausted | bus.go:778-790 | A removal is started only for a client one of whose events was sent for the last time allowed |
| DeliveryDelay.RetryWaits | bus.go:724-735 | After failed attempt number a an event is not sent again before the time its delay was set plus min(base * 2^(a-1), maximum), whichever way it takes back |
| DeliveryRuns.FlushNeverWaits | bus.go:1136-1139 | In the shutdown flush it is always the drained event's turn |
| DeliveryRuns.ShutdownLeavesNothing | bus.go:1133-1152 | When the flush is over both queues are empty, all workers and the scheduler have ended, and no ticket is outstanding |
| DeliveryShutdown.ShutdownShrinks | bus.go:1125-1152 | After the stop every step of workers, scheduler, flush and removals reduces what is left to do, and nothing else adds to it |
| DeliveryShutdown.ShutdownTerminates | bus.go:1121-1165 | So the number of engine steps after the stop is bounded by what was left |
| DeliveryShutdown.ShutdownMoves | bus.go:1133-1152 | And until shutdown is complete something is possible that it needs: a step of a worker, the scheduler, the flush or a removal, or a step of whoever holds what a worker, the scheduler, a removal or the flush is waiting for; when nobody outside holds a lock, a step of the engine |
| DeliveryShutdown.RemovalGoesOn | bus.go:785-789 | A started removal ends, or the holder of the lifecycle lock of its ID goes on, or what that holder waits for does; and so for the bus lock and the mutex of its generation |
| DeliveryShutdown.ExpirationGoesOn | bus.go:859-867 | The same for the expiration loop, which the flush also waits for |
| DeliveryShutdown.ClosedTakesNothing | queue.go:46-49 | Once both queues are closed no push and no schedule succeeds in any later state of the run, for generations registered later too |
| Wakeups.NoLostItem | queue.go:73-99 | In every reachable open state with a non-empty queue, `itemReady` holds a token or a consumer that took it will look again |
| Wakeups.SpaceLostExactly | queue.go:37-71 | A step breaks the same for `spaceReady` and waiting producers if and only if the last producer that took a token gives up before looking again while others wait and there is room |
| Wakeups.NoLostSpace | queue.go:37-71 | In every run without such a step, a free slot is announced to waiting producers in every state |
| Wakeups.FirstLoss | queue.go:42-44 | The first such step leads to the first state in which a free slot is not announced |
| Wakeups.SpaceCanBeLost | queue.go:63-69 | A run in which a producer goes on waiting at an empty queue |
| Wakeups.ChangesRepair | queue.go:50-61 | Whatever is pushed, popped or removed announces the slots that are free then |
| Wakeups.OnlyChangesRepair | queue.go:63-69 | Nothing else does, as long as the queue is open and somebody waits |
| Generation.NoSendAfterClose | bus.go:40-68 | No send or heartbeat through a generation overlaps or follows the bus's close of its connection, or the return of `retire` or `replaceWith` |
| Generation.ClosedAtMostOnce | bus.go:588-598 | The bus closes the connection of a generation at most once |
| Generation.SendsDoNotOverlap | bus.go:572-616 | Sends and heartbeats through one generation never overlap |
| Generation.CompletesOnce | bus.go:585-594 | A complete-after-message generation makes at most one successful application send |
| Generation.RemovedAtMostOnce | bus.go:781-790 | The exhaustion flag starts at most one removal, whatever else raises it |
| Generation.RetireCloses | bus.go:40-68 | A call of `retire`, or of `replaceWith` with another connection, raises the flag at once and does not return before the connection is marked closed |
| Generation.ClosedExactlyOnce | bus.go:40-53 | A connection marked closed, with nobody just about to close it, has been closed by the bus exactly once |
| Generation.FinalSendCloses | bus.go:588-598 | An application send that completes the generation or finds the connection closed leaves it inactive with the connection marked closed |
| Generation.InactiveForAReason | bus.go:781-790 | A generation is inactive only because it was retired, a send was its last, or exhaustion started its removal |
| Generation.RefusedOnlyWhenInactive | bus.go:573-583 | A send is refused only because the generation is inactive; otherwise the connection is called |
| LockTable.MutualExclusion | bus.go:339-368 | At most one caller is past the gate of a client ID, across deletion and re-creation of entries and canceled waits |
| LockTable.EntryCountsUsers | bus.go:340-355 | An entry exists exactly while somebody uses it, and its reference count is the number of its users |
| LockTable.EmptyWhenUnused | bus.go:348-355 | The table is empty when nobody uses it |
| LockTable.GateHasOwner | bus.go:356-367 | A waiting caller waits for somebody who can open the gate |
| LifecycleGenerations.OthersInactive | bus.go:195-224 | Whenever the lifecycle lock is free, every generation of the ID other than the one in the client map is inactive |
| LifecycleGenerations.StaleHasNoEffect | bus.go:271-332 | On behalf of a generation that has been replaced, disconnect and exhaustion removal change nothing but who holds the lock |
| LifecycleGenerations.ActsOnItsOwn | bus.go:282-331 | When they do act it is on their own generation, which nothing has replaced |
| LifecycleGenerations.ClosedAdmitsNobody | bus.go:195-222 | Once the bus is closed no generation is put in the client map; an ID can only leave it |
| LifecycleGenerations.ShutdownRetires | bus.go:1153-1161 | When shutdown completes, a client still in the map is inactive with its connection marked closed |
| LifecycleSections.UnregisterRemoves | bus.go:294-332 | An unregistration takes the client it found out of the map, empties its subscriptions and its replay history, and leaves its generation inactive with the connection marked closed |
| LifecycleSections.DisconnectRetires | bus.go:281-291 | A disconnection of the current generation leaves it inactive with the connection marked closed, and the client registered with its history |
| LifecycleSections.RegisterInstalls | bus.go:195-230 | A registration on an open bus puts a new generation with its connection in the map, retires the former one and closes that one's connection unless it is the same, and comes to its replay with its cursor; only if the bus is closed meanwhile it does not, and the new connection is marked closed |
| LifecycleSections.ReplayIsMade | bus.go:941-968 | A replay to an active client is made under the next replay generation, with its cursor and a cutoff that is the retention before the time of the replay, and comes to the end of what it read unless the client becomes inactive or the queue refuses an event |
| LifecycleSections.HandleDelivers | bus.go:480-517 | An event handled for a subscribed, registered client is recorded with its ID, name and time, and queued once for the client's generation under its replay generation unless the client is inactive or the queue refuses it |
| LifecycleProgress.SectionGoesOn | bus.go:172-332 | Whoever is inside the lifecycle lock can always take its next step |
| LifecycleProgress.SectionShortens | bus.go:172-332 | And each brings the end of its section closer, which nothing around it moves away |
| LifecycleLog.LogComplete | bus.go:503-505 | The replay log holds, in order, every event that was handled with an ID and has not expired, unless the history was cleared since |
| LifecycleLog.ClearedByRemoval | bus.go:319-323 | History is cleared only by an unregistration that has come to that point, and only what was handled before |
| LifecycleLog.RemovedWasCurrent | bus.go:296-310 | And such an unregistration had found its generation in the client map, the expected one if it expected one |
| LifecycleLog.LogChronological | bus.go:503-505 | Logs written by the bus are in order of handling and never go back in time of storing |
| LifecycleLog.CleanupInvisible | bus.go:894-905 | In every reachable state, purging up to the replay's cutoff changes nothing in what a replay finds unexpired, for every cursor, a purged one included |
| Reconnect.QueuedInOrder | bus.go:941-943 | Under one replay generation events are queued in the order they were handled, replayed or live, and none twice |
| Reconnect.ReplayExact | bus.go:963-1004 | A replay not cut short queues, in log order and under its own generation, exactly the events after the cursor's latest occurrence that were neither expired nor passed over |
| Reconnect.SubscriptionDecides | bus.go:976-978 | An unexpired event that a replay came past was queued if, and passed over only if, the client was subscribed to its name, or not, at the moment the replay looked at it |
| Reconnect.QueuedWasSubscribed | bus.go:976-978 | Whatever a replay queued, the client was subscribed to at that moment |
| Reconnect.ReplayExactWhenSteady | bus.go:963-1004 | With subscriptions unchanged during the replay, it queues exactly the unexpired subscribed events after the cursor's latest occurrence, in log order |
| Reconnect.CutForAReason | bus.go:968-1002 | It is cut short only when its target has become inactive or the queue refused an event |
| Reconnect.NoGapAtReconnect | bus.go:480-517 | Unless an unregistration cleared the history in between, every event with an ID queued for the client is in the log the reconnect reads, had expired by then, or was queued for the new registration or a later one |
| Reconnect.HandledIsRead | bus.go:480-505 | Unless an unregistration cleared the history in between, every event handled with an ID before the log was read is in what was read or had expired, for a disconnected client too |
| Reconnect.ClearedBeforeRead | bus.go:319-323 | What a replay misses as cleared was cleared by an unregistration after it was handled and before the log was read |
| Reconnect.CaughtIsReplayed | bus.go:968-1004 | What is read after the cursor, unexpired and subscribed, is queued to the new registration |
| Reconnect.SkippedWasUnsubscribed | bus.go:976-978 | An event is passed over as unsubscribed only if, at that moment of the replay, it was |
| ReplayLog.StartAfterOnly | replay.go:54-62 | Reading starts after the latest occurrence of the cursor, at the beginning when there is none; nothing else fits |
| ReplayLog.PurgeInvisible | replay.go:76-95 | For a chronological log, purging up to the replay's cutoff changes no replay, for every cursor, a purged one included |
| ReplayStore.PurgeVisibleOutOfOrder | replay.go:76-95 | Out of order it can |
| ReplayStore.MemoryReplayStore.Store | replay.go:37-45 | Appends the normalized event to its client's log and touches no other |
| ReplayStore.FindStart | replay.go:54-62 | The backward search finds where reading starts |
| ReplayStore.MemoryReplayStore.EventsSince | replay.go:47-68 | Returns exactly the log after the latest occurrence of the cursor |
| ReplayStore.MemoryReplayStore.ClearClient | replay.go:70-74 | Empties one log and touches no other |
| ReplayStore.MemoryReplayStore.PurgeExpired | replay.go:76-95 | Keeps of every log exactly the unexpired events, in order, and no empty log |
| ReplayStore.Compact | replay.go:80-88 | The in-place compaction of one log computes that |
| Registry.MemorySubscriptionRegistry.Subscribe | subscription.go:29-41 | Adds exactly one pair to the client-event relation |
| Registry.MemorySubscriptionRegistry.Unsubscribe | subscription.go:43-52 | Takes exactly that pair away and leaves no event without subscribers |
| Registry.MemorySubscriptionRegistry.UnsubscribeAll | subscription.go:54-63 | Takes exactly that client's pairs away |
| Registry.MemorySubscriptionRegistry.IsSubscribed | subscription.go:65-70 | Decides the relation |
| Registry.MemorySubscriptionRegistry.AllEvents | subscription.go:72-80 | Lists each event with a subscriber, once, and no other |
| Registry.MemorySubscriptionRegistry.Subscribers | subscription.go:96-105 | Lists each subscriber of the event, once |
| Registry.MemorySubscriptionRegistry.CountSubscribers | subscription.go:107-111 | Positive exactly when somebody is subscribed |
| Registry.Subscribe | bus.go:370-379 | Adds the non-empty names; the default event when none is named |
| Registry.UnsubscribeFromAll | bus.go:385-399 | Leaves the client with exactly those of its subscriptions that are listed |
| Registry.SubscribeOnly | bus.go:380-383 | Leaves the client with exactly one event (with an empty name: with at most a subscription to the empty name made earlier), and everybody else as they were |
| Registry.RegisterSubscriptions | bus.go:208-213 | An authoritative registration leaves exactly the listed non-empty events (and says what an empty name does); others are untouched |
| Events.UniqueKeepsFirsts | event.go:47-61 | The result is the first occurrence of each value, in order |
| Events.UniqueContains | event.go:47-61 | No value is lost and none is added |
| Events.UniqueDistinct | event.go:47-61 | No value is there twice |
| Events.UniqueStrings | event.go:47-61 | The loop with its seen-map computes that |
| Events.NormalizeMeans | event.go:38-45 | Normalizing gives an empty name the default, lists each listed client once, and changes nothing else |
| Events.NormalizeIdempotent | event.go:38-45 | Publishing, storing and replaying normalize again, which changes nothing |
| Events.ValidatedIsAccepted | event.go:63-74 | The bus refuses exactly the events whose message the HTTP connection would refuse |
| Publishing.HandleOne | bus.go:458-536 | One recipient: stored once if concerned, delivered once if also active, and the two ways to fail |
| Publishing.FanOut | bus.go:458-537 | The loop over distinct recipients reaches exactly those who should be |
| Publishing.Handle | bus.go:431-544 | An error-free publish makes exactly one delivery, carrying the event's name, payload, retry time, ID and comment, for each active, registered client subscribed to its name in the direct list, or not excluded when there is none, and puts it once in the replay log of each, active or not; which errors occur exactly when; a failed one delivers nothing wrong |
| Publishing.PageGets | bus.go:501-502 | The frame of such a message dispatches to the page the event's name with its payload, line breaks normalized, and nothing when it has no payload |
| Wire.SplitLinesNormalizes | httpadapter/http.go:149-153 | The lines contain no break and make up the text with every break written as LF |
| Wire.AcceptsExactly | httpadapter/http.go:74-82 | What is accepted: no break in the name or the ID, no null in the ID, no negative retry time |
| Wire.Encode | httpadapter/http.go:81-107 | The builder loops produce the frame |
| Wire.WriteField | httpadapter/http.go:138-147 | One field line, with one more space before a value that starts with one |
| WireRoundTrip.FieldRoundTrip | httpadapter/http.go:138-147 | A parser gets the field name and the value back, leading spaces included |
| WireRoundTrip.FrameSplits | httpadapter/http.go:81-107 | A frame is split into its own lines whatever follows it |
| WireRoundTrip.FrameRoundTrip | httpadapter/http.go:81-107 | One frame is dispatched with its name, data and ID, or not at all when it has no data |
| WireRoundTrip.WireRoundTrips | httpadapter/http.go:63-112 | For every sequence of accepted messages the parser of the standard gives their meanings: name, normalized data, latest ID, retry in milliseconds |
| WireRoundTrip.CommentIsWritten | httpadapter/http.go:83-89 | The comment of a message goes out line by line, and nothing else as a comment |
| WireRoundTrip.CutFrameDispatchesNothing | httpadapter/http.go:114-136 | A frame cut short dispatches nothing and does not disturb what came before |
| HttpConnection.OpeningInvisible | httpadapter/http.go:170-184 | The opening comment has no effect on the client |
| HttpConnection.ClientSees | httpadapter/http.go:114-136 | The client gets the messages whose send succeeded and at most the one whose frame went out whole before its send failed |
| HttpConnection.Connection.Send | httpadapter/http.go:63-112 | When a message is refused, sent or fails; a failed write closes the connection, so nothing follows a partial frame |

## Left out

- HTTP serving, headers, flushing and write deadlines: input and output only; the model has the text written and whether the write succeeded.
- Bytes: the wire is a sequence of characters, without UTF-8 encoding and decoding.
- Synchronous delivery: the model is of the asynchronous mode, where queues, retries and ordering are.
- The second validation of an event when it is replayed: only validated events get into the log.
- A bus without a replay store: `Lifecycle` always has one; without it nothing is stored and a replay does nothing.
- Several client IDs at once in `Lifecycle`: IDs share only the closed and stopped flags, so one ID is modelled and the flags may change at any time.
- Which machine sees what: each machine keeps exactly the state of its own locks, and what the rest of the bus does to that state may happen at any time. In `Delivery` the result of `isCurrentEvent` may be anything; in `Lifecycle` pending sends of an old generation are not tracked, only what is queued.
- Short critical sections: the mutexes of the queues, of the tickets and of the lock table are never held while waiting, so a section of theirs is one step. The mutex of a generation and the bus lock are part of the state only while their holder waits for something.
- Wake-ups other than those of the send queue: waiting for a turn, a lock or a due time is a step that can be taken once its condition holds; condition variables and timers are not modelled. For the send queue's channels the wake-ups themselves are `Wakeups`.
- Sharing of events: a `ClientEvent` is a value with an identity; that it is never shared is `DeliveryRuns.SingleOwner`.
- Counters: tickets, sequence numbers and replay generations are unbounded, not 64-bit.
- Memory held by slices beyond their length: not modelled, except for the slots of the send queue below its head.
- Connection identity by reflection, converters and JSON, listeners, observers, panic recovery, the distributed transport, timers, option validators, query methods: no effect on the protocol state, or easy members.
- Exactly-once delivery and gaps behind a cursor that the client chose after retries overtook: the bus does not promise them.
