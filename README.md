# dozer-stampede: the broker's distribution engine and the subscriber's consumption engine

This project models, in Dafny, the two state machines at the heart of dozer-stampede, an
at-least-once message distribution demo written in Go:

- **The broker** (`cmd/server/main.go`). `processMessages` takes each message off the queue.
  If some client is registered, it runs a counted loop of three iterations. An iteration
  with no client backs off. Otherwise it increments the message's retry counter and does
  one of three things:
  - if the message was never sent, it picks a random client and tries a non-blocking send,
    which delivers, sees the client's disconnect signal, or would block;
  - if it was sent and the counter is exactly 3, it stores the message in the bbolt bucket;
  - otherwise it only logs.

  `reportMessage` marks an id reported and drops its retry counter. `removeClient` filters
  the client list by Id. `sendMessages` appends a client whose Id is the list's length.
- **The subscriber** (`cmd/client/main.go`). `main` draws a batch size in [2, 10].
  `receiveMessage` drops ids it has already seen and spawns one `processMessage` goroutine
  per new id. Each goroutine takes a slot of the atomic `workerCount`, or gives it back and
  returns when the increment went past the batch size. An admitted goroutine appends its id
  to `msgIds` and then acts on its `Period`:
  - above 900, `os.Exit(1)`;
  - in (800, 900], a panic that its deferred `recover` catches;
  - otherwise, a report of its id.

  `main` returns after `batchSize` calls of `wg.Done`.

Layout:

| file | module | contents |
|---|---|---|
| messages.dfy | `Messages` | `internal.Message`, `Option`, the ids of a list of messages |
| registry.dfy | `Registry` | clients, `removeClient` as the filter `Without` and the loop `RemoveClient`, the append `Joined` |
| distribution.dfy | `Distribution` | the broker's bookkeeping as a value; one loop iteration `Iterate`; the three-iteration loop `Rounds` and `Handle`; the queue `HandleAll`; `Store`, `Report`, `ReportRequest`; the properties |
| broker.dfy | `Broker` | class `Server` with the fields of the Go `server` struct; every method changes them exactly as the `Distribution` function it names |
| consumption.dfy | `Consumption` | the Period outcome `Classify`, `BatchSize`, the reference deduplication `Spawned` over a stream |
| workers.dfy | `Workers` | the subscriber's shared state as a value; the atomic steps of its goroutines; the invariant, proved for every schedule |
| subscriber.dfy | `Subscriber` | class `Consumer` with the shared variables of `main` as fields; every method is one step of `Workers` |

Goroutines, channels, mutexes and the WaitGroup are flattened into atomic steps. On the
broker, each method runs as one step. On the subscriber, each step is the code between
two synchronisation points of one goroutine:
- a turn of the receive loop;
- the atomic increment and its comparison;
- the refused task's decrement and return;
- the append to `msgIds`;
- the Period outcome with the deferred calls.

A schedule (`Workers.Run`) is any sequence of these steps. Random draws, send outcomes
and decode results are inputs:
- the client index drawn at line 138 is `pick % |clients|` for an arbitrary `pick`;
- the arm the `select` at 142-151 takes is a `SendResult`;
- the JSON decoder's verdict on a report body is a `Body`;
- the batch size draw is a parameter of `Workers.Initial`.

Where the code does something other than what the protocol evidently intends, the model follows the code:
- **Malformed report.** It gets a 400, but the handler does not return after `http.Error`.
  It records the zero-value id `""` as reported and drops that id's counter. A malformed
  report is meant to change nothing.
- **Client Ids.** They are the list length at join time, so after a removal two live
  clients can share an Id (`Registry.DuplicateIdAfterRemoval`), and removing that Id
  drops both. Connection ids are meant to be unique among live clients.
- **Shadowed `count`.** The `count = 3` at line 157 assigns the `count` declared by the
  `else if` at line 152, not the loop counter. A dispatched message that is not reported
  goes through all three iterations and is stored on the third
  (`Distribution.FreshDeliveryIsArchived`).
- **Backoff iterations.** An iteration that finds no client still uses up one of the
  three iterations (`continue` advances the counter), though it does not touch the retry
  counter.
- **Worker counter.** `workerCount` is meant never to exceed `batchSize`, but a refused
  task keeps its increment until the decrement at line 74, so the counter itself can go
  above the bound (`Workers.CounterCanExceedBatch`: batchSize 2, three increments, counter
  3). What the code does bound is the number of admitted tasks not yet finished
  (`Workers.CapacityBound`).
- **Never-dispatched messages.** A message no client accepted is abandoned, never stored
  (`Distribution.NeverAcceptedIsAbandoned`). This asymmetry is kept as written.

## Model

| member | source | states |
|---|---|---|
| `Registry.Without` | cmd/server/main.go:267-278 | the filtered list is no longer than the input and holds only input clients whose Id differs from the removed one |
| `Registry.RemoveClient` | cmd/server/main.go:267-278 | the loop that appends the kept clients one by one returns exactly `Without(clients, clientId)`; the input is a value and stays as it was |
| `Registry.WithoutMembers` | cmd/server/main.go:271-275 | a client is kept if and only if it was in the input and its Id differs from the removed one |
| `Registry.WithoutAppend` | cmd/server/main.go:270-276 | filtering distributes over concatenation, so kept clients stay in their original order |
| `Registry.WithoutIdempotent` | cmd/server/main.go:267-278 | removing the same Id twice gives the same list as removing it once |
| `Registry.WithoutLength` | cmd/server/main.go:267-278 | removing an Id that no client has returns the list unchanged; removing a present Id makes it strictly shorter |
| `Registry.Joined` | cmd/server/main.go:212-227 | the new client goes at the end of the list, the old ones unchanged before it, and its Id is the old length |
| `Registry.DuplicateIdAfterRemoval` | cmd/server/main.go:213 | join, join, remove Id 0, join yields two live clients with Id 1, and removing Id 1 then drops both |
| `Distribution.Chosen` | cmd/server/main.go:138 | the drawn client is a member of the current client list |
| `Distribution.Store` | cmd/server/main.go:169-195 | the store maps the message's id to the message, its keys gain exactly that id, other entries and all other bookkeeping are unchanged, and every stored value stays under its own id |
| `Distribution.StoreIdempotent` | cmd/server/main.go:181-184 | storing the same message twice is the same as storing it once, and storing a message already held under its id changes nothing |
| `Distribution.Report` | cmd/server/main.go:257-262 | afterwards the id is reported and has no retry counter; reportedMsgs gains exactly the id; the other counters and the rest of the state are unchanged |
| `Distribution.ReportIdempotent` | cmd/server/main.go:257-262 | reporting the same id twice gives the same state as reporting it once |
| `Distribution.ReportUnknown` | cmd/server/main.go:257-262 | reporting an id with no counter leaves the counters alone; if that id was already reported, the state is unchanged |
| `Distribution.ReportRequest` | cmd/server/main.go:248-265 | status 400 exactly for an undecodable body, 200 exactly for a decoded one; a decoded id is reported; an undecodable body still records the zero-value id `""` |
| `Distribution.Iterate` | cmd/server/main.go:128-160 | no client means backoff with the state unchanged; otherwise the counter rises by exactly one and no other counter or reported id changes; a send is tried exactly when the id is not yet sent, to the drawn client; the id enters sentMsgs exactly on delivery; only a disconnect removes clients, by the chosen client's Id; the store changes exactly on the archive step, which happens exactly when the id was sent and the counter was 2 before the increment |
| `Distribution.Rounds` | cmd/server/main.go:127-162 | the first n iterations of the attempt loop produce exactly n events |
| `Distribution.Handle` | cmd/server/main.go:124-165 | a dequeued message gets exactly three iterations if a client is registered at dequeue, and none otherwise, with the state untouched (dropped after the backoff) |
| `Distribution.RoundsRetries` | cmd/server/main.go:126-135 | over the iterations, the message's counter rises by exactly the number of iterations that found a client; no other id's counter and no reported id changes |
| `Distribution.RoundsSent` | cmd/server/main.go:137-144 | sentMsgs gains the message's id exactly when some iteration delivered it, and nothing else |
| `Distribution.RoundsStore` | cmd/server/main.go:152-154 | the store changes only through an archive step, and then only by putting the message under its id |
| `Distribution.NoSendOnceSent` | cmd/server/main.go:137-144 | once the id is in sentMsgs, before the loop or through an earlier delivery, no later iteration tries a send for it, so it is delivered at most once |
| `Distribution.ArchiveNeedsDispatch` | cmd/server/main.go:137-154 | an archive step happens only for a message sent before the loop or delivered by an earlier iteration |
| `Distribution.ArchivedOnce` | cmd/server/main.go:152-154 | within one dequeue a message is archived at most once |
| `Distribution.HandleRetryBound` | cmd/server/main.go:126-135 | a dequeue raises the counter by between 0 and 3, so a message with no counter ends with at most 3; other counters are unchanged |
| `Distribution.HandleStoresOnlyDispatched` | cmd/server/main.go:137-154 | a message left outside sentMsgs is never stored; otherwise the store gains at most this message under its id; sentMsgs gains at most this id; nothing becomes reported |
| `Distribution.FreshDeliveryIsArchived` | cmd/server/main.go:127-157 | a fresh message whose first send goes through yields events sent, max-retries, archived: the counter goes to 3, and the message is stored on the third iteration despite the `count = 3` |
| `Distribution.NeverAcceptedIsAbandoned` | cmd/server/main.go:137-158 | a fresh message whose three sends all would block ends with counter 3, outside sentMsgs and out of the store |
| `Distribution.HandleAll` | cmd/server/main.go:123-166 | over the whole queue, sentMsgs and the store's keys only grow, nothing becomes reported, and every stored value stays under its own id |
| `Broker.Server.constructor` | cmd/server/main.go:109-115 | the client list, the retry map, both id sets and the store start empty |
| `Broker.Server.AddClient` | cmd/server/main.go:212-227 | the new client's Id is the old length and it is appended; nothing else changes |
| `Broker.Server.StoreMessage` | cmd/server/main.go:169-195 | the new state is `Store` of the old one |
| `Broker.Server.ReportMessage` | cmd/server/main.go:248-265 | the new state and the returned status are `ReportRequest` of the old state and the body |
| `Broker.Server.Attempt` | cmd/server/main.go:128-160 | the new state and the event are `Iterate` of the old state |
| `Broker.Server.ProcessMessage` | cmd/server/main.go:123-165 | the new state and events are `Handle` of the old state; three events if a client was registered at dequeue, none otherwise |
| `Broker.Server.ProcessMessages` | cmd/server/main.go:122-167 | the new state is `HandleAll` of the old state over the queue |
| `Consumption.Classify` | cmd/client/main.go:85-94 | Fatal if and only if Period > 900, LocalFault if and only if 800 < Period ≤ 900, Completed if and only if Period ≤ 800 |
| `Consumption.BatchSize` | cmd/client/main.go:24 | every draw of `rand.Intn(9)` gives a batch size in [2, 10] |
| `Consumption.BatchSizeOnto` | cmd/client/main.go:24 | every size in [2, 10] comes from exactly one draw |
| `Consumption.Readable` | cmd/client/main.go:41-45 | the receive loop gets through exactly the leading well-formed events and stops at the first malformed one |
| `Consumption.Spawned` | cmd/client/main.go:49-60 | every spawned message was delivered and its id was not seen before |
| `Consumption.SpawnedDistinct` | cmd/client/main.go:49-60 | no two spawned tasks share an id |
| `Consumption.SpawnedIds` | cmd/client/main.go:49-60 | the ids that spawn a task are exactly the delivered ids not seen before |
| `Consumption.SpawnedAppend` | cmd/client/main.go:41-60 | receiving `a` then `b` spawns `a`'s tasks, then those of `b` whose ids neither the earlier seen set nor `a` holds |
| `Consumption.RedeliveryIsNoop` | cmd/client/main.go:51-55 | delivering a stream a second time spawns no further task |
| `Workers.Initial` | cmd/client/main.go:20-35 | the batch size is in [2, 10]; no id is seen; no worker, recorded id, report or `wg.Done` |
| `Workers.Receive` | cmd/client/main.go:42-60 | a malformed payload ends the process with code 1 and changes nothing else; a well-formed one adds its id to seenMsgs and spawns exactly the task `Spawned` picks for it (none for a seen id); seenMsgs never shrinks |
| `Workers.Start` | cmd/client/main.go:72 | the counter rises by one; the task is admitted if and only if the value its increment returned is at most batchSize, and otherwise waits to give the slot back; nothing is recorded, reported or done |
| `Workers.Refuse` | cmd/client/main.go:65-76 | a refused task takes the counter back down by one and calls `wg.Done`; msgIds, reports and seenMsgs are unchanged |
| `Workers.Record` | cmd/client/main.go:79-83 | the admitted task's id is appended to msgIds and the task starts working; counter, reports and `wg.Done` count are unchanged |
| `Workers.Finish` | cmd/client/main.go:65-95 | Period > 900 ends the process and changes nothing else (no deferred call); otherwise the counter drops by one and `wg.Done` is called once, and the id is reported exactly when Period ≤ 800 |
| `Workers.InitialInv` | cmd/client/main.go:20-37 | the starting state satisfies the invariant, and the process is running |
| `Workers.ReceiveKeepsInv` | cmd/client/main.go:49-60 | a receive turn keeps seenMsgs equal to the spawned ids, with no id spawned twice, and keeps the rest of the invariant |
| `Workers.StartKeepsInv` | cmd/client/main.go:72 | the increment keeps the invariant: admitted tasks stay within batchSize |
| `Workers.RefuseKeepsInv` | cmd/client/main.go:73-76 | the refusal keeps the invariant: `wg.Done` calls stay at most batchSize |
| `Workers.RecordKeepsInv` | cmd/client/main.go:79-83 | the append keeps msgIds equal to the recorded ids in order |
| `Workers.FinishKeepsInv` | cmd/client/main.go:85-95 | ending a task keeps the invariant: reports are exactly the ids of completed tasks, in order |
| `Workers.Next` | cmd/client/main.go:40-95 | one step of the receive goroutine or of one task: seenMsgs only grows and batchSize is fixed |
| `Workers.Run` | cmd/client/main.go:40-95 | a schedule of steps, disabled ones skipped: seenMsgs only grows and batchSize is fixed (the invariant is `RunKeepsInv`) |
| `Workers.NextKeepsInv` | cmd/client/main.go:40-95 | every enabled step keeps the invariant |
| `Workers.RunKeepsInv` | cmd/client/main.go:40-95 | every schedule of steps keeps the invariant |
| `Workers.CapacityBound` | cmd/client/main.go:72-77 | from the start of main, under every schedule, the admitted and unfinished tasks never exceed batchSize, which stays in [2, 10] |
| `Workers.RunOnlyGrows` | cmd/client/main.go:56 | under every schedule the spawned, refused, recorded and finished histories and msgIds and reports are only extended |
| `Workers.RejectedNeverRecorded` | cmd/client/main.go:72-81 | a task refused for capacity was spawned, and its id is not in msgIds |
| `Workers.RejectedStaysUnprocessed` | cmd/client/main.go:51-76 | an id refused for capacity stays in seenMsgs and out of msgIds under every later schedule, so it is never processed |
| `Workers.Solo` | cmd/client/main.go:64-95 | a processMessage run alone is admitted if and only if the increment stays within batchSize; it ends the process if and only if it is admitted with Period > 900; otherwise workerCount ends where it was and `wg.Done` is called exactly once; only an admitted task appends its id; only an admitted task with Period ≤ 800 reports it |
| `Workers.AdmittedKeepsInv` | cmd/client/main.go:77-95 | an admitted task recording its id and then ending keeps the invariant |
| `Workers.SoloKeepsInv` | cmd/client/main.go:64-95 | a processMessage run alone keeps the invariant |
| `Workers.Deliveries` | cmd/client/main.go:49-60 | a run of deliveries adds exactly the delivered ids to seenMsgs and leaves the exit code, counter, msgIds, reports, `wg.Done` count and batchSize untouched |
| `Workers.DeliveriesSpawn` | cmd/client/main.go:49-60 | a run of deliveries spawns exactly `Spawned` of the messages |
| `Workers.ReceiveAll` | cmd/client/main.go:40-62 | the receive loop over a stream: seenMsgs gains the ids of its leading well-formed messages; the process ends exactly when an event is malformed; counter, msgIds, reports, `wg.Done` count and batchSize are untouched |
| `Workers.ReceiveAllSpawns` | cmd/client/main.go:40-62 | the receive loop over a stream spawns exactly `Spawned` of its leading well-formed messages |
| `Workers.CounterCanExceedBatch` | cmd/client/main.go:72-75 | with batchSize 2 and three fresh messages, three increments in a row leave workerCount at 3 with one task refusing, in a state satisfying the invariant |
| `Workers.ReceiveAllKeepsInv` | cmd/client/main.go:40-62 | the receive loop keeps the invariant |
| `Workers.DeliveriesKeepInv` | cmd/client/main.go:49-60 | a run of deliveries keeps the invariant and the process running |
| `Workers.RedeliveryChangesNothing` | cmd/client/main.go:51-55 | delivering a stream a second time leaves the subscriber state exactly as it was |
| `Subscriber.Consumer.constructor` | cmd/client/main.go:19-35 | the fields are `Initial(draw)`, which satisfies the invariant, and the batch size is in [2, 10] |
| `Subscriber.Consumer.Receive` | cmd/client/main.go:42-60 | the new state is `Workers.Receive` of the old; a new id is added to seenMsgs and spawns its task, a seen id spawns nothing, a malformed payload exits with code 1 |
| `Subscriber.Consumer.ReceiveMessages` | cmd/client/main.go:40-62 | the loop's new state is `ReceiveAll` of the old state over the stream |
| `Subscriber.Consumer.StartTask` | cmd/client/main.go:72 | the new state is `Start` of the old; admitted if and only if the old counter plus one is at most batchSize |
| `Subscriber.Consumer.RefuseTask` | cmd/client/main.go:73-76 | the new state is `Refuse` of the old |
| `Subscriber.Consumer.RecordId` | cmd/client/main.go:79-83 | the new state is `Record` of the old |
| `Subscriber.Consumer.FinishTask` | cmd/client/main.go:85-94 | the new state is `Finish` of the old, and the outcome is `Classify` of the task's Period |
| `Subscriber.Consumer.ProcessMessage` | cmd/client/main.go:64-95 | the new state is `Solo` of the old; admitted if and only if the increment stays within batchSize; the outcome is the Period class exactly when admitted |

## Left out

- The HTTP and SSE transport is not modelled: the headers, flusher and streaming loop of
  `sendMessages` (cmd/server/main.go:197-211, 228-246), including the deferred removal when
  the stream ends; the CloseNotifier goroutine (218-225); the parsed but unused `batchsize`
  query (198-201); the client's subscription (cmd/client/main.go:29-33). Only the registry
  append of `sendMessages` is modelled.
- `sendReport` (cmd/client/main.go:97-107) is reduced to appending the id to `reports`. Its
  JSON encoding, its POST and the `log.Fatal` on a failed POST are not modelled.
- bbolt is not modelled: opening the database, creating the bucket (89-120), the transaction
  in `storeMessage` and its `log.Fatal` branches. The store is a map from id to message.
- JSON encoding and decoding are opaque. Decode success is an input: `Body` on the broker,
  `Wire` on the subscriber.
- `time.Sleep` backoffs and the simulated work (cmd/server/main.go:129, 164;
  cmd/client/main.go:92) are no-ops. Log lines are not modelled.
- `math/rand` draws are inputs: the client index, the batch-size draw and the message
  periods.
- Broker concurrency is not modelled. `processMessages` runs each dequeued message's three
  iterations as uninterrupted steps. A `reportMessage` that deletes the counter under
  `reportedMsgsMtx` while the loop increments it under `sentMsgsMtx` (cmd/server/main.go:133,
  257-260) is not interleaved with the loop. Clients that join during a message's iterations
  are not modelled either.
- The server's `main` (cmd/server/main.go:41-87) is not modelled: the message generator
  (including the shadowed `id` at line 51, which makes every generated Id `""`), the signal
  handler and the HTTP router. Messages arrive as the sequence given to `ProcessMessages`.
- Integer widths are not modelled. `workerCount` is an `int32` in the source and `Period` a
  `uint64`. Here they are unbounded, since the counter is bounded by the number of tasks.
- The receive loop's `log.Fatal` on a malformed payload and a task's `os.Exit(1)` are the
  exit code `Some(1)`. After it, and after `main` has seen `batchSize` calls of `wg.Done`,
  no step is enabled. The process ends without waiting for running goroutines.
- cmd/client/main_test.go is not modelled: it only checks the SSE library's URL field.
- `Subscriber.Consumer` methods do not carry the invariant in their own contracts. Each
  method equals one step function of `Workers`, and the invariant is proved of those
  functions for every schedule (`Workers.RunKeepsInv`, `Workers.CapacityBound`).
