# Verified models of gotoolkit

Machine-checked models of the concurrent and compositional cores of gotoolkit: the in-process event bus, the
RabbitMQ reconnect machine, the NATS subject table, and the HTTP middleware calculus. `dafny verify dfyconfig.toml`
checks everything.

## What is modelled, and how

**The event bus** (`gtk/event_bus.go`; files `EventBus*.dfy`). Every goroutine is a thread with a program counter:
callers of `Publish`, `Subscribe` and of unsubscribe handles, the workers of every subscriber, the goroutine that
closes `done`, and the context watcher with the goroutines it starts. A step is one lock operation, one access to the
fields that the lock protects, one channel operation, or one turn of a worker; a run is any interleaving. A send on a
closed channel or a second close sets the flag `crashed`. The read/write lock keeps new readers out as soon as a writer
waits. `EventBusInvariant` states the inductive invariant, `EventBusSafety` proves it step by step,
`EventBusTheorems` draws the conclusions for every reachable state and every run, `EventBusProgress` proves that no
call can hang, `EventBusStays` that a subscription stands until somebody asks for its end and gets what is published
meanwhile, `EventBusWatcher` that the watcher waits for the handles that it runs, and `EventBusAlone` what no operation
waits for. `EventBusOverlap` shows that overlapping publishes need not agree. `EventBusTopic` is the topic as a class
that changes a map, a handle list, ring buffers and worker arrays in place; each method is one atomic action, refines
the step of the same name and keeps the invariant, in whatever order a scheduler calls them.

**The RabbitMQ client** (`rabbitmq/rabbitmq_client.go`, `rabbitmq/rabbitmq_topology.go`; files `Rabbit*.dfy`). The
reconnect loop, one watcher for each connection or channel generation, and any number of `Stop` calls interleave with a
broker that may fail any dial, channel open or declaration and may kill any connection or channel at any time.
`RabbitTheorems` states conservation, generations and wake-ups, `RabbitEvents` what the subscribers of Connected and
Disconnected hear, and `RabbitRecovery` that a client that nobody stops comes to rest connected, after a bounded number
of steps, once the broker stops refusing and killing. `RabbitProgress` proves that a stopped client comes to its end,
`RabbitStop` settles what `Stop` leaves behind and `RabbitNotice` what is heard of it, in both directions.
`RabbitClient` is the client as a class, its loop written with the control flow of the program while the other
goroutines do whatever an arbitrary plan says between any two of its steps. `RabbitTopology` holds the three
declaration loops. The class carries the run of the machine that its steps make up, and every method goes on with it.

**The NATS subject table** (`nats/nats_client.go`; files `Nats*.dfy`). Any number of `Subscribe` and `Unsubscribe`
calls interleave; the broker may refuse both to subscribe and to unsubscribe. `NatsOwnership` proves who answers for
each subscription and that the books of every subject balance, `NatsTheorems` the consequences, `NatsAnswers` that
callers are told what the broker has answered, and `NatsClient` is the client as a class with the program's control
flow under arbitrary interference, carrying its run in the same way.

**HTTP middlewares** (`httpx/`; files `Http*.dfy`). Handlers are computations that write to a response and return or
panic. `HttpModel` gives the meaning of a handler behind any nesting of recovery, metrics and other middlewares,
`HttpTheorems` the laws of recovery and metrics for every handler, `HttpOrder` in which order a request runs through a
chain and what the client reads, `HttpServer` the imperative middlewares (a chain of writers that forward, a
once-initialised set of instruments, defers in reverse order) proved against that meaning, `HttpGauge` the instruments
under concurrent requests, `HttpChain` the composition loop and the router, and `HttpPath` the classification of paths
and patterns.

`Basics` holds an option type and sums of sequences. In all state machines `Reachable(s)` means that some run from the
initial state leads to `s`, so a theorem about reachable states holds at every moment of every interleaving.

### Where the code and its documentation part

- `Stop` of the RabbitMQ client is documented to close the connection (`rabbitmq/rabbitmq_client.go:77`). A `Stop` that
  begins between the loop's check of `stopped()` and the store of a freshly dialled connection can be overtaken by it.
  `RabbitStop.StopClosesIffOutsideDial` proves that nothing stays open, in every continuation, if and only if `Stop`
  does not begin in that window; `RabbitStop.StopClearsIffOutsideInstall` does the same for the two fields. Up to its
  Connected event the loop can also tell its subscribers that it is connected after Stop has told them the opposite
  (`RabbitNotice.StopIsHeardIff`).
- `Subscribe` of the NATS client promises one subscription per subject (`nats/nats_client.go:210`). While calls are
  under way there can be more (`NatsTheorems.TwoLiveSubscriptions`). When none is, the broker holds exactly the entries
  of the table if and only if it has never refused to unsubscribe (`NatsTheorems.TableAtRestIff`). A refused
  subscription stays for good: after an `Unsubscribe` the entry is gone before the broker is asked, so that the next
  `Subscribe` adds a second one (`NatsTheorems.RefusedUnsubscribeStays`), and the error of the loser's release is
  dropped, so that nobody hears of it (`NatsTheorems.RefusedReleaseStays`).
- The recorded status of a request is not always the one that the client got: a recorder keeps the last `WriteHeader`,
  a response the first one that is not informational. `HttpTheorems.RecordedIsSentIff` says exactly when they agree;
  a 103 before the body is recorded although the client gets 200 (`HttpTheorems.InformationalIsRecorded`).
- `NewClient` of the RabbitMQ client calls its context the parent for connecting and reconnecting
  (`rabbitmq/rabbitmq_client.go:40`). Cancelling it ends the loop and closes nothing
  (`RabbitStop.CancelClosesNothing`); `RabbitStop.EndedByCancel` says what may be open then.

### Assumptions

- Handlers on the bus return or panic, and do not call back into the topic. Ids do not wrap around.
- `NotifyClose` fires once its connection or channel is closed, also if that happened before the registration; closing
  a connection closes its channels.
- There is one `Start` per RabbitMQ client, and one NATS connection stays in place (or there is none).
- The server's own writer follows `net/http`: an informational status (100 to 199, but not 101) is sent at once, the
  first other status is final, a body before it means 200, and a status outside 100 to 999 panics.
- The JSON encoding of the generic error response does not fail.

## Model

| member | source | states |
|---|---|---|
| EventBusSafety.StepKept | gtk/event_bus.go:71-181 | every step of every goroutine keeps the invariant of the bus: lock discipline, table, pools, handles, once, history and cancellation |
| EventBusSafety.RunKept | gtk/event_bus.go:71-181 | so does every run, of any length and interleaving |
| EventBusTheorems.ChannelSafety | gtk/event_bus.go:114-181 | no run sends on a closed channel or closes one twice, ids are never reused, and a channel is open exactly while its id leads to it in the table |
| EventBusTheorems.HandleIsolation | gtk/event_bus.go:158-171 | running a handle removes and closes its own subscriber and leaves every other one untouched |
| EventBusTheorems.Conservation | gtk/event_bus.go:137-156 | accepted is taken followed by the buffer, taken is handled plus in flight as multisets, in flight never exceeds the workers and the buffer never its capacity |
| EventBusTheorems.SingleWorkerFifo | gtk/event_bus.go:137-156 | with one worker the handler sees the accepted values in order, also across panics |
| EventBusTheorems.PublishIsAtomic | gtk/event_bus.go:173-181 | the critical section of a publish lies wholly before or wholly after each registration and each removal |
| EventBusTheorems.ExactFanOut | gtk/event_bus.go:106-181 | with no publish in progress a subscriber has accepted exactly one copy of each value published between its registration and its removal, and nothing else |
| EventBusTheorems.UnsubscribeDrains | gtk/event_bus.go:101-171 | once any call of a handle has returned, all that its subscriber accepted is handled, nothing runs for it and nothing ever will, in every continuation |
| EventBusTheorems.RealTimeOrder | gtk/event_bus.go:173-181 | a publish that returned before another was called is accepted first by every subscriber that accepts both |
| EventBusTheorems.RealTimeHandling | gtk/event_bus.go:137-181 | and with one worker it is handled first |
| EventBusOverlap.OverlapMayDisagree | gtk/event_bus.go:175-181 | in every reachable state with room, two overlapping publishes can be accepted in opposite orders by two subscribers |
| EventBusTheorems.CancelCompletes | gtk/event_bus.go:71-134 | when the watcher has finished and no Subscribe or unsubscribe is in progress, the table is empty and every pool ever started has ended and drained, in spite of racing Subscribe calls |
| EventBusProgress.StuckIffQuiet | gtk/event_bus.go:71-181 | a reachable state has no step left exactly when every call has returned, every buffer is empty, no handler runs and every removed pool is gone |
| EventBusProgress.StepDrops | gtk/event_bus.go:71-181 | every step of the bus itself lowers the measure |
| EventBusProgress.EveryCallReturns | gtk/event_bus.go:71-181 | without new calls only Measure(s) steps remain, and when none is left every call has returned and every accepted value is handled |
| EventBusProgress.CancelledAtRest | gtk/event_bus.go:71-134 | a cancelled bus at rest has no subscriber and has drained every one it had |
| EventBusStays.StaysSubscribed | gtk/event_bus.go:105-171 | in every run in which the context is not cancelled and its handle not called, a subscriber is in the table with its channel open |
| EventBusStays.SubscribedIff | gtk/event_bus.go:76-171 | at rest the subscribers are exactly those whose handle nobody has called, unless the context was cancelled |
| EventBusStays.SubscribeServes | gtk/event_bus.go:105-156 | Subscribe panics exactly for a nil handler or workers that are not positive; otherwise it gets a subscriber of its own with that many workers and the topic's buffer, returns, and runs its own handle only after a cancel |
| EventBusStays.SubscriptionStands | gtk/event_bus.go:105-135 | without a cancel it ends with its subscriber in the table, unless somebody called the handle |
| EventBusStays.HandleServes | gtk/event_bus.go:101-104 | a handle can be called at any time and any number of times, and every call returns with the subscriber drained |
| EventBusStays.PublishReaches | gtk/event_bus.go:173-181 | what is published to a subscriber that stands reaches it before Publish returns, and its handler in the end |
| EventBusWatcher.WatcherWaits | gtk/event_bus.go:76-92 | when the watcher is done, each handle that it found in the list has been run to its end |
| EventBusAlone.WorkersTake | gtk/event_bus.go:137-156 | from every state as many workers of a pool get busy as are idle and have values waiting, without any handler returning |
| EventBusAlone.FullPool | gtk/event_bus.go:101-156 | a subscriber with k workers can have k values in its handler at once |
| EventBusAlone.SubscribeAlone | gtk/event_bus.go:94-135 | a Subscribe with the lock free gets through on its own, with the requested workers and buffer, 16 by default |
| EventBusAlone.PublishAlone | gtk/event_bus.go:173-181 | a Publish reaches every subscriber with room and returns, without any handler or other publish having to move |
| EventBusAlone.UnsubscribeAlone | gtk/event_bus.go:158-171 | a handle removes and closes its subscriber before it waits for any handler, its own or another's |
| EventBusAlone.WatcherAlone | gtk/event_bus.go:76-92 | after a cancel the watcher starts the calls of all handles in the list and waits for none before the next |
| EventBusInvariant.TakeOk | gtk/event_bus.go:143-150 | a worker that takes the oldest value keeps conservation and, with one worker, the order |
| EventBusInvariant.FinishOk | gtk/event_bus.go:145-148 | a handler that returns or panics moves its value from in flight to handled |
| EventBusTopic.Pool.Push | gtk/event_bus.go:178-180 | a send appends to the ring buffer and changes no other slot |
| EventBusTopic.Pool.Pop | gtk/event_bus.go:143-148 | a receive takes the oldest value out of the ring buffer and gives it to the worker |
| EventBusTopic.EventBusTopic.Send | gtk/event_bus.go:178-180 | one turn of the loop of Publish, in place, with a plain send: the invariant rules out a closed channel |
| EventBusTopic.EventBusTopic.Register | gtk/event_bus.go:114-127 | the critical section of Subscribe, in place |
| EventBusTopic.EventBusTopic.Remove | gtk/event_bus.go:162-167 | the critical section of a handle, in place: delete and close, or nothing |
| EventBusTopic.EventBusTopic.Swap | gtk/event_bus.go:77-82 | the watcher's critical section, in place |
| EventBusTopic.EventBusTopic.Unlock | gtk/event_bus.go:126-134 | leaving the lock; Subscribe then runs its own handle when it saw the cancel |
| EventBusTopic.EventBusTopic.EnterOnce | gtk/event_bus.go:159-161 | sync.Once of a handle: first caller runs, others wait or return |
| EventBusTopic.EventBusTopic.AwaitDone | gtk/event_bus.go:168-169 | the handle returns only after done is closed |
| EventBusTopic.EventBusTopic.TakeOne | gtk/event_bus.go:143-148 | a worker takes one value, in place |
| EventBusTopic.EventBusTopic.FinishOne | gtk/event_bus.go:145-148 | a handler ends, in place |
| EventBusTopic.EventBusTopic.Exit | gtk/event_bus.go:143-151 | a worker leaves when its channel is closed and empty |
| EventBusTopic.EventBusTopic.CloseDone | gtk/event_bus.go:139-154 | done is closed when all workers have left |
| RabbitSafety.StepKept | rabbitmq/rabbitmq_client.go:61-277 | every step of the loop, the watchers, Stop, the context and the broker keeps the invariant of the client |
| RabbitTheorems.ConnectionConservation | rabbitmq/rabbitmq_client.go:154-242 | an open connection is with the loop that has just dialled it, in the field, or with the one goroutine that took it out to close it, and never in two of these places |
| RabbitTheorems.ChannelConservation | rabbitmq/rabbitmq_client.go:170-242 | the same for channels |
| RabbitTheorems.NeverOverwrites | rabbitmq/rabbitmq_client.go:160-192 | dial and openChannel store into nil fields, and the loop head never sees a channel |
| RabbitTheorems.TokensBelong | rabbitmq/rabbitmq_client.go:198-213 | each token has exactly one watcher, no token and no done channel is closed twice, a token is closed only when its own connection or channel is gone, and a watcher leaves it open only if the client is stopped |
| RabbitTheorems.ChannelOnConnection | rabbitmq/rabbitmq_client.go:154-196 | without Stop a channel in the field lives on the connection in the field |
| RabbitTheorems.ParkedOnTheNewest | rabbitmq/rabbitmq_client.go:128-150 | the select waits for the connection and channel installed last; without Stop they are in the fields and the channel lives on that connection |
| RabbitTheorems.NoLostWakeUp | rabbitmq/rabbitmq_client.go:128-213 | when what the parked loop waits for has died, its token is closed, or its watcher can step, or the client is stopped |
| RabbitTheorems.StoppedWatchersLeave | rabbitmq/rabbitmq_client.go:198-213 | a watcher that wakes up after the client was stopped leaves its token open, in every run |
| RabbitTheorems.WatcherBlocksIff | rabbitmq/rabbitmq_client.go:198-213 | a watcher is held up exactly as long as its connection or channel lives, whatever the loop and Stop do |
| RabbitTheorems.LoopBlocksIff | rabbitmq/rabbitmq_client.go:94-152 | the loop is held up exactly in its select, as long as neither token is closed and nobody has stopped the client |
| RabbitTheorems.RestsOnlyWhenHealthy | rabbitmq/rabbitmq_client.go:94-277 | the client can only come to rest ended, never started, or parked with both resources alive and nobody having stopped it |
| RabbitTheorems.ConnectedOnce | rabbitmq/rabbitmq_client.go:115-226 | between two Connected events there is a Disconnected one |
| RabbitEvents.AnnouncedInOrder | rabbitmq/rabbitmq_client.go:115-126 | the Connected events are the installed channels, one each and in order, up to one that is about to be announced |
| RabbitEvents.ParkedIsAnnounced | rabbitmq/rabbitmq_client.go:124-150 | a parked loop that nobody has stopped has announced the channel in the field, and nothing since |
| RabbitEvents.HeadIsDisconnected | rabbitmq/rabbitmq_client.go:94-113 | at the loop head, while dialling and while waiting there is no channel and the last word, if any, is Disconnected |
| RabbitRecovery.Recovers | rabbitmq/rabbitmq_client.go:94-213 | from every reachable state of a running client, once nothing more is killed or refused without need, at most Recovery(s) steps remain under any schedule, and then the loop is parked with a live connection and a live channel on it, everything declared and announced |
| RabbitRecovery.CanRecover | rabbitmq/rabbitmq_client.go:94-213 | and there is such a run from every such state |
| RabbitRecovery.KeepsConnection | rabbitmq/rabbitmq_client.go:94-150 | losing only the channel costs no connection: unless Stop, the broker or a refusal interferes, the one in the field stays there and no other is dialled |
| RabbitTheorems.ConnectedMeansDeclared | rabbitmq/rabbitmq_client.go:115-192 | in every run of a client with topology topo every Connected event is about a channel on which its exchanges, then queues, then bindings were declared, each with its own fields |
| RabbitTheorems.FailedAttempt | rabbitmq/rabbitmq_client.go:178-192 | any declaration is a prefix of that order ending at the first failing call, and a channel on which one failed is never installed or announced |
| RabbitTheorems.DeclaresAsTheLoops | rabbitmq/rabbitmq_topology.go:43-64 | a declaration that came to its end is the one that the three loops make against the same answers |
| RabbitProgress.StopReturns | rabbitmq/rabbitmq_client.go:78-277 | from a Stop on and without new calls the client makes at most Measure(s) steps, whatever the broker does, and when it can make none the loop has ended and every Stop has returned |
| RabbitProgress.StopCanReturn | rabbitmq/rabbitmq_client.go:78-277 | from every reachable state a Stop can run to its end |
| RabbitProgress.RunDrops | rabbitmq/rabbitmq_client.go:94-277 | in a run of a stopped client each step of the client lowers the measure, and cancels and failures leave it |
| RabbitStop.StopClosesIffOutsideDial | rabbitmq/rabbitmq_client.go:78-168 | Stop and the loop can return, and in every continuation in which they do nothing is left open, if and only if Stop did not begin in the dial window |
| RabbitStop.StopClearsIffOutsideInstall | rabbitmq/rabbitmq_client.go:78-196 | and in every such continuation both fields are nil and nothing was dialled, if and only if Stop did not begin in the install window |
| RabbitStop.StopOfRestingLoop | rabbitmq/rabbitmq_client.go:78-150 | a Stop of a loop parked in its select or in wait: after at most Measure(s) steps both have returned, nothing is open, both fields are nil and nothing was dialled |
| RabbitStop.EndedByCancel | rabbitmq/rabbitmq_client.go:94-152 | a loop that ended without Stop was ended by the context, and at most the connection and the channel of the fields are open, the channel being one of that connection |
| RabbitStop.CancelClosesNothing | rabbitmq/rabbitmq_client.go:94-152 | from then on nobody but a Stop or the broker closes them or empties the fields, in every run |
| RabbitStop.InsideWindowOvertakes | rabbitmq/rabbitmq_client.go:96-168 | from every state of the dial window a run in which Stop and the loop return and the dialled connection stays open |
| RabbitStop.InsideWindowInstalls | rabbitmq/rabbitmq_client.go:154-196 | from every other state of the install window a run in which the channel is stored after Stop has emptied the field |
| RabbitNotice.StopIsHeardIff | rabbitmq/rabbitmq_client.go:77-150 | the last event when Stop and the loop have returned is Disconnected, in every such continuation, if and only if Stop did not begin between the loop head and the Connected event of a channel that could still be installed |
| RabbitNotice.InsideWindowTells | rabbitmq/rabbitmq_client.go:94-126 | from every state of that window a run in which the loop announces its channel after Stop has published Disconnected |
| RabbitStop.RunKeepsQuitting | rabbitmq/rabbitmq_client.go:78-150 | outside the dial window, in every run, a live connection in the field is one that Stop is still going to take |
| RabbitStop.RunKeepsClearing | rabbitmq/rabbitmq_client.go:78-196 | outside the install window, in every run, whatever is in the fields is going to be taken out and nothing is dialled |
| RabbitTopology.DeclareTopology | rabbitmq/rabbitmq_topology.go:43-64 | the calls made are those for the exchanges, queues and bindings in order, each with its declaration's own fields, up to the first failure; without one all are made |
| RabbitTopology.AttemptIff | rabbitmq/rabbitmq_topology.go:43-64 | the calls of any attempt are those of the declarations: each exchange with its name, kind ("direct" when there is none) and flags, then each queue, then each binding of queue, key and exchange |
| RabbitTopology.CompleteIff | rabbitmq/rabbitmq_topology.go:43-64 | a complete one has made every such call with success, and nothing else |
| RabbitTopology.AttemptUnique | rabbitmq/rabbitmq_topology.go:43-64 | the calls made are determined by the broker's answers |
| RabbitClient.Client.ReconnectLoop | rabbitmq/rabbitmq_client.go:94-152 | the loop, with its own control flow and any interference between any two steps, goes on with a run of the machine, turn after turn; it returns only when the client is stopped |
| RabbitClient.Client.Dial | rabbitmq/rabbitmq_client.go:154-168 | goes on with the run through connect, store and watch to the second half of the turn, or to the wait exactly when the broker refuses the connection |
| RabbitClient.Client.OpenChannel | rabbitmq/rabbitmq_client.go:170-196 | goes on with the run through opening, declaring, storing and watching a channel to the Connected event, or from any failure to a full teardown; over a live connection and undisturbed it succeeds exactly when the broker grants the channel and every declaration |
| RabbitClient.Client.Teardown | rabbitmq/rabbitmq_client.go:215-242 | goes on with the run through closeChannel and then dropConnection, to the wait or the loop head |
| RabbitClient.Client.DropConnection | rabbitmq/rabbitmq_client.go:228-236 | goes on with the run: takes the connection out under the mutex, then closes it outside |
| RabbitClient.Client.CloseChannel | rabbitmq/rabbitmq_client.go:215-226 | goes on with the run: publishes Disconnected, takes the channel out, closes it |
| RabbitClient.Client.Select | rabbitmq/rabbitmq_client.go:133-150 | blocks until a case is ready and goes on with the run through any ready one; after a closed channel token it looks at the connection's again |
| RabbitClient.Client.WatchStep | rabbitmq/rabbitmq_client.go:198-213 | one step of a watcher, in place: wake up, look at stopped(), look at the token, close it |
| RabbitClient.Client.HaveConn | rabbitmq/rabbitmq_client.go:100-113 | goes on with the run to openChannel over a live connection or a new one, or to the wait; undisturbed it asks the broker for another only when the connection is dead |
| RabbitClient.Client.Wait | rabbitmq/rabbitmq_client.go:266-277 | ends the loop only when the client is stopped |
| RabbitClient.Client.DeclareAll | rabbitmq/rabbitmq_client.go:183-186 | goes on with the run declaration by declaration to the store of the channel, or from the first refusal to its close |
| RabbitClient.Client.InstallChan | rabbitmq/rabbitmq_client.go:188-192 | the critical section of openChannel, in place |
| RabbitClient.Client.InstallConn | rabbitmq/rabbitmq_client.go:160-164 | the critical section of dial, in place |
| RabbitClient.Client.StopEnters | rabbitmq/rabbitmq_client.go:82-89 | the critical section of Stop, in place |
| RabbitClient.Client.Start | rabbitmq/rabbitmq_client.go:61-75 | fails exactly while the client runs |
| NatsOwnership.StepKept | nats/nats_client.go:218-273 | every step of every call keeps ownership and the balance of successes and removals |
| NatsTheorems.HeldIsAccountedFor | nats/nats_client.go:218-273 | at every moment and for every subject the subscriptions that the broker holds are the entry of the table, those in the hands of calls, and the refused unsubscriptions, those of losers of a race included |
| NatsTheorems.LiveIsOwnedOnce | nats/nats_client.go:218-273 | a subscription is held exactly as long as the table or one single call answers for it, or for good when the broker refused to take it back |
| NatsTheorems.TableAtRestIff | nats/nats_client.go:218-273 | when no call is under way the broker holds exactly the entries of the table, if and only if it has refused no unsubscription |
| NatsTheorems.HeldAtRest | nats/nats_client.go:218-273 | in any case it holds the entries of the table and the stranded ones |
| NatsTheorems.OnePerSubjectAtRestIff | nats/nats_client.go:210-273 | when no call is under way there is at most one subscription for a subject, if and only if its entry and its refusals are at most one |
| NatsTheorems.StrandedIsRefused | nats/nats_client.go:241-269 | a subject has a stranded subscription exactly when the broker refused a call for it |
| NatsTheorems.RefusedUnsubscribeStays | nats/nats_client.go:254-273 | a refused Unsubscribe and a Subscribe after it leave two subscriptions for one subject |
| NatsTheorems.RefusedReleaseStays | nats/nats_client.go:241-246 | a refused release of a loser leaves two, and the loser is told what it is always told |
| NatsTheorems.ExtraIsInHandOrRefused | nats/nats_client.go:229-268 | of two subscriptions that the broker holds for one subject at least one is in the hands of a call or was refused |
| NatsTheorems.TwoLiveSubscriptions | nats/nats_client.go:219-247 | two calls between their two looks at the table do hold two live subscriptions |
| NatsTheorems.SuccessesAreRemovals | nats/nats_client.go:218-273 | for each subject the successful Subscribe calls are the removals plus what the table holds |
| NatsAnswers.SubscribeIsTold | nats/nats_client.go:211-251 | in every run Subscribe reports a refusal exactly when the broker refused, a success only when it agreed, and strands a subscription exactly when the broker refused to take it back |
| NatsAnswers.UnsubscribeIsTold | nats/nats_client.go:254-273 | Unsubscribe reports an error exactly when the broker refused, and a removal exactly when it agreed |
| NatsAnswers.CallsEnd | nats/nats_client.go:211-273 | no call waits for another, and each returns after at most four steps of its own |
| NatsTheorems.RaceHasOneWinner | nats/nats_client.go:210-251 | of any number of Subscribe calls racing for a free subject exactly one succeeds and all others report that it is taken |
| NatsClient.Client.Subscribe | nats/nats_client.go:211-251 | the call with its control flow under any interference, told what the broker answers; undisturbed it enters a new live subscription exactly when there is a handler, a free subject, a connection and the broker's consent |
| NatsClient.Client.Unsubscribe | nats/nats_client.go:254-273 | the call with its control flow under any interference, told what the broker answers; undisturbed it removes the entry and cancels that subscription and no other, and it fails exactly when the broker refuses |
| NatsClient.Client.Enter | nats/nats_client.go:241-249 | the second look at the table, in place |
| NatsClient.Client.Take | nats/nats_client.go:259-264 | taking the entry out, in place |
| HttpChain.ChainBackward | httpx/middleware.go:9-14 | the backward loop over the middlewares computes the chain |
| HttpChain.ChainLayers | httpx/middleware.go:8-14 | the layers of a chain are the middlewares in order around those of the handler, which stays the core |
| HttpChain.ChainAppend | httpx/middleware.go:9-14 | a chain of a followed by b is the chain of a around the chain of b |
| HttpChain.LayersDetermine | httpx/middleware.go:9-14 | a handler is the chain of its layers around its core |
| HttpChain.Router.Child | httpx/http_router.go:24-34 | a child has a fresh list, its parent's middlewares and then its own, and nothing that existed is changed |
| HttpChain.Router.HandleFunc | httpx/http_router.go:42-45 | registers the handler behind the whole line of route middlewares, root first, and touches no other route |
| HttpChain.Router.Handle | httpx/http_router.go:49-54 | a request runs through the globals, then the route middlewares from the root to the router it was registered on, then the handler; on a child there is a panic |
| HttpOrder.ChainRuns | httpx/middleware.go:8-14 | a request through middlewares that call on runs their first parts in order, the handler, and their last parts in reverse, up to the first call that panics |
| HttpOrder.PanicSkipsAfters | httpx/middleware.go:8-14 | a panic of the handler comes after the same first parts and skips every last part |
| HttpOrder.RefusalStops | httpx/middleware.go:8-14 | the first middleware that refuses lets only itself and those outside it run, and neither the handler nor anything inside |
| HttpOrder.RequestRuns | httpx/http_router.go:24-54 | what the router's handler runs: globals, route middlewares from the root on, the handler, and back |
| HttpOrder.StackRuns | httpx/middleware.go:8-14 | recovery and metrics anywhere in the chain change nothing about that for the client |
| HttpOrder.ClientGets | httpx/middleware.go:8-14 | a fresh client gets the first final status set on the way, or 200, and the text written on the way in that order, unless the status has no body |
| HttpOrder.PanicIsAnswered | httpx/middleware_http_recovery.go:11-25 | a panic before any final status is answered with 500 and the generic error body |
| HttpTheorems.InflightRestored | httpx/middleware_http_metrics.go:146-170 | every handler, however nested and whatever panics, leaves the gauge as it was |
| HttpTheorems.SandwichIsTight | httpx/middleware_http_metrics.go:44-52 | with recovery before and after nothing escapes and the gauge comes back, for every handler, route function, request and outcome of init |
| HttpTheorems.SandwichRecords | httpx/middleware_http_metrics.go:44-52 | the request is recorded once, with status 500 in place of the handler's own exactly when the handler panicked |
| HttpTheorems.SandwichRecordsHealth | httpx/middleware_http_metrics.go:125-144 | the same for health checks, on their own counter |
| HttpTheorems.LabelPanicLosesSample | httpx/middleware_http_metrics.go:154-168 | a panic of the route function costs the sample and nothing else |
| HttpTheorems.WithoutInnerRecovery | httpx/middleware_http_metrics.go:44-52 | without the inner recovery a panic is recorded with whatever status the handler had left |
| HttpTheorems.PanicCountedAs | httpx/middleware_http_metrics.go:44-52 | that is the last status it wrote, and 200 when there was none |
| HttpTheorems.WithoutOuterRecovery | httpx/middleware_http_metrics.go:44-52 | without the outer recovery exactly the panics of init and of the route function escape |
| HttpTheorems.MetricsAreTransparent | httpx/middleware_http_metrics.go:111-170 | a metrics middleware whose route function answers changes neither the response nor the way the call ends |
| HttpTheorems.ClientSeesTheSame | httpx/middleware_http_metrics.go:111-182 | recorders and measurements never change what the client gets |
| HttpTheorems.RecordedIsSentIff | httpx/middleware_http_metrics.go:172-180 | when the recorded status is the final one that was sent, if and only if: informational and invalid statuses and panics included |
| HttpTheorems.InformationalIsRecorded | httpx/middleware_http_metrics.go:177-180 | an informational status before the body is recorded, and the client gets 200 |
| HttpTheorems.ErrorIsWritten | httpx/middleware_http_recovery.go:14-21 | the error response never panics, is a 500 for every recorder, and for the client unless another status was fixed |
| HttpTheorems.OneClass | httpx/middleware_http_metrics.go:111-123 | a request is counted as a health check, or not at all, or once as a request |
| HttpServer.Writer.WriteHeader | httpx/middleware_http_metrics.go:172-180 | a status reaches every recorder; the server sends an informational one at once, keeps the first final one, and panics on an invalid one |
| HttpServer.RecoveryMiddleware | httpx/middleware_http_recovery.go:11-25 | the deferred recover turns a panic into the generic error response |
| HttpServer.Record | httpx/middleware_http_metrics.go:146-170 | record with its two defers, in place |
| HttpServer.RecordHealthcheck | httpx/middleware_http_metrics.go:125-144 | recordHealthcheck with its defer, in place |
| HttpServer.MetricsMiddleware | httpx/middleware_http_metrics.go:111-123 | which of the three ways a request goes |
| HttpServer.ServeHTTP | httpx/middleware_http_metrics.go:111-182 | any handler behind any middlewares does what the model says |
| HttpGauge.GaugeIsInside | httpx/middleware_http_metrics.go:146-170 | under any interleaving the gauge is the number of requests between the +1 and the -1 of record |
| HttpGauge.GaugeReturns | httpx/middleware_http_metrics.go:146-170 | when the last request is done the gauge is back, whatever has panicked |
| HttpGauge.AloneIsServe | httpx/middleware_http_metrics.go:111-170 | a request of the machine that runs alone changes once, gauge and counters exactly as the middleware does around any handler that returns or panics, and ends by a panic exactly when the call does |
| HttpGauge.AloneInHandler | httpx/middleware_http_metrics.go:146-170 | and while it is in the handler the gauge is one up for a recorded request, as in the world in which the middleware calls the handler |
| HttpGauge.EveryRequestOnce | httpx/middleware_http_metrics.go:111-170 | at every moment each request past its count is in one counter, or skipped, or lost to a panic of the route function or to the one panic that init can have |
| HttpGauge.NothingLostIff | httpx/middleware_http_metrics.go:111-170 | at every moment the counters account for all of them exactly when nothing in the middleware itself panicked |
| HttpPath.HealthcheckIff | httpx/middleware_http_metrics.go:99-109 | health checks are exactly the paths whose last segment is livez or readyz |
| HttpPath.BaseIsLastSegment | httpx/middleware_http_metrics.go:103-104 | the base of a path is a name exactly when the name is its last segment, trailing slashes aside |
| HttpPath.RouteDropsVerb | httpx/middleware_http_metrics.go:25-33 | the route of a pattern is its path without the method, or unknown |

## Left out

- Handlers on the bus that publish, subscribe or unsubscribe on the same topic, or end their goroutine with
  `runtime.Goexit`; the wrap-around of ids after 2^64 subscriptions.
- `WithBufferSize` and the other option structs of all packages, error types and status tables: one branch each.
- `connectWithBackoff` of the RabbitMQ client: a dial is a fresh open connection or an error.
- RabbitClient.Client.Start: does not model a second `Start` after a `Stop`, which the program accepts: an old loop may
  still be alive then, and it reads `done` without the lock.
- The consumers and publishers of the RabbitMQ client (`PublishJSON`, `Consume`, `Ack` and so on): single calls on the
  current channel.
- The nil checks of `Connected` and `Disconnected` in the RabbitMQ client: `NewClient` always sets them. What their
  subscribers do is the event bus again.
- RabbitClient.Client.ReconnectLoop: an endless loop; the method runs for as long as the plan of the other goroutines
  lasts, and the plan is arbitrary.
- `Start`, `Stop` and the context watcher of the NATS client: a `Stop` during `nats.Connect` is not covered by the guards
  there, so the subject table is modelled while one connection is in place.
- The circuit breaker around `Subscribe` and `Unsubscribe` of the NATS client: it calls the function or refuses the
  call as a whole.
- Logging, tracing spans, exemplars, histograms, durations and time-outs.
- The JSON encoding and the headers of the error response; only its status and body text are there.
- `http.ServeMux` beyond exact patterns: which pattern matches a request is not part of this model.
- HttpModel: a middleware of the application may write before and after, refuse or panic, but calls the wrapped handler
  at most once and with the same writer.
- NewRouter keeps the slice of global middlewares that the caller passed; a caller that changes it afterwards changes
  the router, as the array in the model would.
- `Router.Controller` and the error decorator: `HandleFunc` of an adapted controller.
- The gRPC interceptors and the database, cache and Kafka clients.
