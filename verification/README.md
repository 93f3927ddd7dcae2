# Vehicle cloud gateway: a Dafny model

The gateway takes commands for a vehicle from MQTT, decodes them, and writes them to the gRPC
stream of the vehicle's Autoware client. It signs in to a backend over HTTP, registers the
vehicle there, and takes its settings from the environment and a `.env` file. This project
models the parts of it that carry state or protocol, and proves properties of that model over
all inputs, runs and interleavings.

`dafny verify dfyconfig.toml` checks the whole project.

## What is modelled

- **The command stream** (`streams.dfy`, `stream_theorems.dfy`, `stream_life.dfy`,
  `stream_service.dfy`): many
  `VehicleStreamHandler` objects that share the static `active_` pointer and pending queue.
  *Coarse* granularity: one completion-queue tag or one `push_command` call is one step. The
  order theorem holds here. `stream_service.dfy` has the classes with the real queues and flags,
  each method proved to take the step of the coarse model.
- **The same at fine granularity** (`fine_*.dfy`): every access that threads can interleave is a
  step: the load of `active_`, each lock, each store, each turn of `flush_pending`. Any number
  of producer threads and the completion-queue thread run. Conservation, order within a stream,
  at most one Write, lock order, absence of deadlock and of lost wake-ups hold here. Four coarse
  laws do not, and `FineRaces` has the runs that break them. Exactly which runs keep them:
  - order across streams: `FineOrder.OrderIff`, for each of any number of producers;
  - an empty pending queue while a stream is active: `FineRaces.UnstrandedIff`;
  - nothing more is enqueued after a failed Read: `FineFinish.FrozenAfterFinishIff`;
  - a Write follows Finish only after a successful completion: `FineFinish.NoWriteAfterFinishIff`,
    with `DecidedBy` for who issues it.

  `stream_refinement.dfy` shows that every coarse run in which Finish comes last is a fine run
  with the same calls and deliveries, and `FinePhases` says, for every interleaving, which tags
  lead to the phase of each handler and to `active_`.
  `fine_lifetime.dfy` is the same machine without the assumption that Finish does not complete
  while a producer holds the handler.
- **The inbound path** (`json.dfy`, `float64.dfy`, `inbound.dfy`, `messages.dfy`,
  `trip_orchestrator.dfy`, `gateway.dfy`): router, orchestrator and the callbacks of `main`, from MQTT messages to stream
  writes. A request id is an int64 kept in a `double`, rounded as section 4.3.1 of IEEE 754-2019
  says.
- **URLs and redirects** (`text.dfy`, `urls.dfy`, `url_text.dfy`, `redirects.dfy`, `rfc3986.dfy`,
  `http_client.dfy`): the URL expression as a scanner with its grammar, relative resolution and
  its comparison with RFC 3986, and the counted recursion over redirects against a server that
  answers whatever it likes.
- **The `.env` loader** (`text.dfy`, `dotenv.dfy`, `dotenv_lines.dfy`).
- **`AuthService`** (`auth.dfy`, `auth_theorems.dfy`, `auth_trace.dfy`, `auth_service.dfy`): login, setup, and
  registration with two retry flags, one of which is reset by the other's retry.
- **The MQTT client's subscriptions** (`mqtt.dfy`, `mqtt_sessions.dfy`, `mqtt_client.dfy`).

In each part the functions state what one step does, the lemmas what follows over all steps, and
where the program changes state in place a class has its fields and loops, with methods proved
against the functions.

## What the proofs found

- A client that only half-closes makes the code issue a Write after Finish:
  `on_write_done` does not look at `state_` (`StreamTheorems.HalfCloseWritesLate`; exactly when at
  coarse granularity, `NoLateWritesIff`). Under interleaving a producer that loaded `active_`
  before the failed Read also enqueues and writes after Finish, without any completion
  (`FineRaces.PushWritesAfterFinish`; exactly when, `FineFinish.NoWriteAfterFinishIff`).
- Nothing keeps such a producer from locking and pushing to the handler after it has been deleted
  (`FineLifetime.PushCanUseDeleted`; exactly when, `DanglesIff`).
- A command pushed while a client connects can stay in the pending queue although a stream is
  active, until the next connection, and a later command can overtake an earlier pending one
  (`FineRaces`; exactly when, `FineRaces.UnstrandedIff` and `FineOrder.OrderIff`).
- A request id of 2^63 - 512 or more rounds to 2^63, outside int64, so reading it back is not
  defined by C++ (`Float64.IdsStayInRange`).
- A base such as `http://h:80x/y` loses its origin on a relative redirect
  (`Redirects.OriginIsLost`; exactly which bases keep it, `OriginKeptIff`).
- Relative resolution differs from section 5.2 of RFC 3986 where the last '/' of a base is in its
  query, as in `http://h?next=/a` (`Redirects.PathlessBaseDiffers`), and for some empty and
  query-only references and all dot segments (exactly when, `Rfc3986.AgreesIff`). A location that
  starts with `//` or with another scheme is taken for a path on the base's origin
  (`Redirects.RelativeStaysOnOrigin`), where the RFC reads an authority or a scheme.
- `is_redirect` leaves out 303, though a comment in `do_request` names it. The look-up of headers
  is exact, though a comment calls it case-insensitive: only `Location` and `location` are found.
  `restrict_redirect_to_same_host` is never read. The model follows the code.
- A 201 whose body lacks a key makes `create_vehicle` false, while the vehicle counts as
  registered from then on and later calls are true (`AuthTheorems.ResultTellsIff`).
- An access token that is the empty string makes `login` and `setup` true without a usable token
  (`AuthTheorems.EmptyTokenIff`).
- A topic requested after the start is subscribed twice if a flush or a message comes after the
  call, and once if not (`Mqtt.TwiceIffFlushed`).

## Assumptions

- Atomics and mutexes are sequentially consistent; accesses to `pending_topics_` are atomic steps.
- The completion queue delivers each tag once. The refinement and the fine model assume that
  Finish completes after an outstanding Write (what fails without it, `NoStrayTags` says exactly);
  the fine model, except `FineLifetime`, also assumes that Finish does not complete while a
  producer still holds a pointer to the handler.
- Coordinates are `real`; ids kept in a double are the integers they stand for.
- `start` and `stop` of the MQTT client are not called at the same time.

## Model

| member | source | states |
|---|---|---|
| StreamTheorems.Ordering | src/services/vehicle_stream_handler.h:68-158 | coarse: after any run, the commands pushed are, stream by stream in accept order, submitted to Write ++ write queue (fixed at deletion), then the pending queue; pending is empty while a stream is active |
| StreamTheorems.PushedIsPushes | src/services/vehicle_stream_handler.h:124-133 | coarse: the history the order theorem speaks of is exactly the arguments of push_command, in order |
| Streams.StepKeeps | src/services/vehicle_stream_handler.h:61-158 | coarse: every event keeps the invariant of writes, handlers, census, active stream and order |
| Streams.RunKeeps | src/services/vehicle_stream_handler.h:61-158 | coarse: the invariant over whole runs from any state that has it |
| Streams.EnqueueAllKeeps | src/services/vehicle_stream_handler.h:149-158 | flush_pending gives a stream the whole pending queue in order, behind what it had |
| StreamTheorems.ActiveIsNewest | src/services/vehicle_stream_handler.h:76-101 | coarse: active_ is the most recently accepted stream while that is in READING, and null exactly when there is none or it disconnected |
| StreamTheorems.FinishExchangeIsNoOp | src/services/vehicle_stream_handler.h:85-100 | coarse: the compare-exchange in FINISH, and in READING of an older stream, never finds the handler in active_ |
| StreamTheorems.Census | src/services/vehicle_stream_handler.h:49-104 | coarse: exactly one handler in ACCEPTING until an accept fails and none after; one main tag in flight per live handler; Finish and delete at most once |
| StreamTheorems.RunGrows | src/services/vehicle_stream_handler.h:107-122 | coarse: along any run what a stream was given only grows, at its end, and each successful completion counts once |
| StreamLife.PhaseIff | src/services/vehicle_stream_handler.h:61-104 | coarse: a stream is open exactly from its accept to its first failed Read, waits for Finish from there, and is deleted exactly by a refused accept or the completion of Finish; messages that are read, commands and Writes end nothing |
| StreamLife.ActiveIff | src/services/vehicle_stream_handler.h:76-101 | coarse: active_ is stream i exactly from its accept to its first failed Read or the next accept |
| StreamTheorems.DisconnectedStreamIsFrozen | src/services/vehicle_stream_handler.h:82-102 | coarse only: after a failed Read nothing more is enqueued to the handler; after deletion its submissions and queue are fixed. FineFinish.FrozenAfterFinishIff says when the first holds of the interleaved code |
| StreamTheorems.LateWriteIff | src/services/vehicle_stream_handler.h:107-116 | coarse only: a Write follows Finish exactly at a successful completion on a finished stream that still has queued commands; FineFinish.WritesAfterFinish counts those of the interleaved code |
| StreamTheorems.NoLateWritesIff | src/services/vehicle_stream_handler.h:82-116 | coarse only: no Write follows Finish over a run if and only if no such completion occurs in it; for the interleaved code FineFinish.NoWriteAfterFinishIff |
| StreamTheorems.HalfCloseWritesLate | src/services/vehicle_stream_handler.h:107-116 | coarse: a run in which a half-closed client makes the code issue a Write after Finish |
| StreamTheorems.NoStrayTags | src/services/vehicle_stream_handler.h:97-116 | coarse: no tag has reached a deleted handler, and none is due to one, if and only if every Finish completed after the outstanding Write of its stream |
| StreamTheorems.WriteTagCanStray | src/services/vehicle_stream_handler.h:97-116 | coarse: a run outside that condition, which delivers a write tag to a deleted handler |
| StreamTheorems.NoStall | src/services/vehicle_stream_handler.h:107-122 | coarse: a live stream with queued commands and no write in flight has had a Write fail; with no failure the commands submitted are the first enqueued, one more than completed |
| StreamTheorems.Drain | src/services/vehicle_stream_handler.h:107-147 | coarse: between two points with no Write that fails in between (earlier ones may have), k successful completions submit exactly the first k commands queued or enqueued since, in order |
| StreamTheorems.FailedWriteRecovers | src/services/vehicle_stream_handler.h:107-122 | a failed Write leaves the queue standing; the next enqueue submits its oldest command and keeps the order |
| StreamService.VehicleStreamHandler.constructor | src/services/vehicle_stream_handler.h:49-66 | a new handler waits for a connection with empty queue and one accept tag |
| StreamService.VehicleStreamHandler.FlushWriteQueueLocked | src/services/vehicle_stream_handler.h:142-147 | submits the front of the queue unless it is empty or a write is in flight |
| StreamService.VehicleStreamHandler.Enqueue | src/services/vehicle_stream_handler.h:118-122 | appends, then flushes if no write is in flight |
| StreamService.VehicleStreamHandler.OnWriteDone | src/services/vehicle_stream_handler.h:107-116 | a failure only clears the flag; a success clears it and flushes |
| StreamService.CommandStream.constructor | src/services/vehicle_stream_handler.h:135-137 | the static members at server start, with the first handler |
| StreamService.CommandStream.PushCommand | src/services/vehicle_stream_handler.h:124-133 | the objects after push_command are those of the coarse step |
| StreamService.CommandStream.FlushPending | src/services/vehicle_stream_handler.h:149-158 | the loop empties the pending queue into the stream, command by command |
| StreamService.CommandStream.OpenStream | src/services/vehicle_stream_handler.h:77-79 | from flush_pending to the first Read: the stream is given the whole pending queue in order and is READING |
| StreamService.CommandStream.Accept | src/services/vehicle_stream_handler.h:68-80 | a successful accept on the objects is the coarse accept step; only new handlers are added |
| StreamService.CommandStream.Read | src/services/vehicle_stream_handler.h:82-95 | the READING branch on the objects is the coarse step |
| StreamService.CommandStream.Proceed | src/services/vehicle_stream_handler.h:61-104 | every branch of Proceed on the objects is the coarse step |
| StreamService.CommandStream.WriterProceed | src/services/vehicle_stream_handler.h:248 | a write completion on the objects is the coarse step |
| FineStreams.SectionStepKeeps | src/services/vehicle_stream_handler.h:113-147 | fine: each access under mu_ keeps the stream's own invariant |
| FineStreams.ClearUnlockedKeeps | src/services/vehicle_stream_handler.h:107-112 | fine: the store to writing_ without mu_ after a failed Write keeps that invariant |
| FineInvariant.StepKeeps | src/services/vehicle_stream_handler.h:61-158 | fine: every access of every thread keeps the invariant of threads, locks and handlers |
| FineInvariant.RunKeeps | src/services/vehicle_stream_handler.h:61-158 | fine: the invariant over all interleavings with any number of producers |
| FineAccesses.OneAccess | src/services/vehicle_stream_handler.h:61-158 | fine: each step writes at most one of active_, the pending lock and queue, the list of handlers, and the lock, queue, flag, state and Writes of a handler, so threads interleave at each of these |
| FinePhases.PhaseIff | src/services/vehicle_stream_handler.h:61-104 | fine: over every interleaving, the phase of each handler from the tags delivered to it and the point that the completion-queue thread has reached |
| FinePhases.OnlyFailuresEnd | src/services/vehicle_stream_handler.h:82-104 | fine: without a failed Read and a refused accept a stream is never finished or deleted |
| FinePhases.ActiveIff | src/services/vehicle_stream_handler.h:76-101 | fine: over every interleaving, active_ is stream h exactly from the store in its accept to the exchange after its first failed Read, or the store in the next accept |
| FinePlaces.HoldersIsPlace | src/services/vehicle_stream_handler.h:118-158 | fine: the places that hold a command, read off hands and queues, are exactly the one recorded; a front of the pending queue already copied, and a front of a write queue already written, count as gone from there |
| FinePlaces.ExactlyOnePlace | src/services/vehicle_stream_handler.h:118-158 | fine: at every moment each pushed command is in exactly one of a producer's hand, pending, or one stream; each stream's submissions ++ queue is its enqueue order, without duplicates |
| FinePlaces.AtMostOneWrite | src/services/vehicle_stream_handler.h:107-147 | fine: at most one Write per stream is outstanding; writing_ is true exactly when a tag is in flight, delivered and not cleared, or a lock holder is between store and Write |
| FineLocks.LocksAreOrdered | src/services/vehicle_stream_handler.h:113-153 | fine: pending_mu_ is only ever taken before a mu_, and nothing is taken under a mu_ |
| FineLocks.NoWaitCycle | src/services/vehicle_stream_handler.h:113-153 | fine: no cycle of any length in the waits-for graph of any reachable state |
| FineLocks.SomebodyAdvances | src/services/vehicle_stream_handler.h:113-153 | fine: while a thread is inside the code, some thread can take its next step |
| FineLocks.DeletedIsUnused | src/services/vehicle_stream_handler.h:97-102 | fine, under the assumption that Finish does not complete while a producer holds the handler: a deleted handler is referred to by no thread, unlocked and owed no tag; FineLifetime.DanglesIff is about the code without it |
| FineRaces.PushCanBeStranded | src/services/vehicle_stream_handler.h:124-131 | fine: a run that leaves a command in pending while a stream is active and all threads are idle |
| FineRaces.PushCanOvertake | src/services/vehicle_stream_handler.h:76-78 | fine: a run in which a later command reaches the stream before an earlier pending one; FineOrder.OrderIff says which runs do that |
| FineRaces.PushWritesAfterFinish | src/services/vehicle_stream_handler.h:118-133 | fine: a run in which a producer that loaded the handler before its client disconnected enqueues and issues a Write after Finish, with no write completion delivered |
| FineFinish.WritesAfterFinish | src/services/vehicle_stream_handler.h:82-147 | fine: over every interleaving, the Writes issued after Finish, and one more if a holder of mu_ has decided to Write, are as many as the times since that flush_write_queue_locked found a command and no Write in flight, and one more if a holder had decided when Finish was called |
| FineFinish.NoWriteAfterFinishIff | src/services/vehicle_stream_handler.h:82-147 | fine: with nobody inside mu_, nothing was written after Finish if and only if there was no such decision |
| FineFinish.DecidedBy | src/services/vehicle_stream_handler.h:107-122 | fine: such a decision on a finished stream is taken by on_write_done or by a producer in enqueue, and by nobody else |
| FineFinish.FrozenAfterFinishIff | src/services/vehicle_stream_handler.h:118-133 | fine: what a stream has been given stays the same after Finish if and only if no producer on its way to enqueue arrives there |
| FineFinish.FrozenOnceReleased | src/services/vehicle_stream_handler.h:85-133 | fine: from the first state after Finish in which no producer holds the handler, it is given nothing more, over every further run |
| FineLifetime.DanglesIff | src/services/vehicle_stream_handler.h:97-133 | fine, without an assumption on when Finish completes: over every interleaving, no thread holds a pointer to a deleted handler if and only if no handler is deleted while a producer is on its way to its enqueue or inside; then no thread steps on a deleted one |
| FineLifetime.PushCanUseDeleted | src/services/vehicle_stream_handler.h:97-131 | fine: a run in which a producer locks and pushes to a handler that has been deleted since it loaded active_ |
| FineOrder.OrderIff | src/services/vehicle_stream_handler.h:118-158 | fine, for any number of producers and each of them: over every interleaving, its commands, as clients are given them stream by stream and then the pending ones, are in the order of its calls if and only if it never puts a command into a stream while an earlier one of its own is pending or with a later stream |
| FineOrder.OneProducerOrderIff | src/main.cpp:64-150 | fine: with the one producer of main the same holds of all commands |
| FineOrder.StepOrder | src/services/vehicle_stream_handler.h:118-158 | fine: the same step by step; accepts, moves of flush_pending, pushes to pending, deliveries, Writes and steps of other producers never change the order |
| FineWakeup.NoLostWakeup | src/services/vehicle_stream_handler.h:107-147 | fine: over every interleaving, a stream none of whose Writes failed, with nobody in mu_ and no completion being handled, has a Write in flight if its queue is not empty |
| FineRaces.StrandsIff | src/services/vehicle_stream_handler.h:124-131 | fine: from a state with nothing stranded, the one step that strands a command is a push to pending by a producer that found no stream, after one became active and locked the pending queue |
| FineRaces.UnstrandedIff | src/services/vehicle_stream_handler.h:124-131 | fine: over every interleaving with any number of producers, no state has a stranded command if and only if no such step is taken |
| FineRuns.FlushPendingRun | src/services/vehicle_stream_handler.h:149-158 | fine: the accesses of flush_pending, uninterrupted, reach the state of the loop's specification |
| FineRuns.AcceptRun | src/services/vehicle_stream_handler.h:68-80 | fine: the accesses of a successful accept, uninterrupted, reach the specified state |
| StreamRefinement.StepIsRun | src/services/vehicle_stream_handler.h:61-158 | each coarse event is a run of the fine machine in which that call or delivery happens and no other, between states that look the same |
| StreamRefinement.CoarseRunIsFineRun | src/services/vehicle_stream_handler.h:61-158 | every coarse run in which Finish comes last is a run of the fine machine with the same calls and deliveries in the same order, whichever producers make the calls, for any positive number of them |
| Float64.RoundsToNearest | src/application/trip_orchestrator.h:112 | storing an id gives a double, and no double is nearer |
| Float64.TiesToEven | src/application/trip_orchestrator.h:112 | for ids of either sign: when another double is as near, the stored one has an even significand |
| Float64.SmallIdsAreExact | src/application/trip_orchestrator.h:103-112 | ids up to 2^53 in magnitude are stored exactly |
| Float64.DoubleIsMonotone | src/application/trip_orchestrator.h:103-112 | storing keeps the order of ids |
| Float64.IdsStayInRange | src/application/trip_orchestrator.h:103-112 | over int64 the error is at most 512, and the stored value is in int64 range exactly for ids below 2^63 - 512 |
| Json.WrapInt64 | src/application/trip_orchestrator.cc:36 | an integer value is read as int64 by wrap-around, exactly if it fits |
| Json.DoubleToInt64 | src/application/trip_orchestrator.h:103 | a double in range is truncated toward zero |
| Json.GetInt64 | src/application/trip_orchestrator.cc:36 | an id that is read is always an int64 |
| Json.StringIff | src/application/trip_orchestrator.cc:35 | typed access to a member gives a string exactly if the object has that string under the key |
| Json.Int64Iff | src/application/trip_orchestrator.cc:36 | and an int64 exactly if the member is an integer equal to it modulo 2^64, or a number that it is the whole part of; beyond the range of int64 the bound |
| Json.DoubleIff | src/application/trip_orchestrator.cc:37-40 | and a double exactly if the member is that number, or an integer that it is nearest to |
| Messages.TripInitIff | src/application/trip_orchestrator.cc:32-53 | a message on topic/trip/init is the command cmd if and only if the document has each field of cmd under its own name |
| Messages.TripMoveIff | src/application/trip_orchestrator.cc:55-72 | likewise for topic/trip/move |
| Messages.TripParkIff | src/application/trip_orchestrator.cc:74-86 | likewise for topic/trip/park |
| Messages.OrderUpdateLocationIff | src/application/trip_orchestrator.cc:88-98 | likewise for topic/update_location/order |
| Messages.OrderUpdateStatusIff | src/application/trip_orchestrator.cc:100-109 | likewise for topic/update_status/order |
| Messages.TripCancelIff | src/application/trip_orchestrator.cc:111-122 | likewise for topic/trip/cancel |
| Messages.OtherTopics | src/main.cpp:152-189 | no message on another topic is a command |
| Messages.MissingMember | src/application/trip_orchestrator.cc:32-122 | on every topic a message without one of its members is rejected |
| Messages.TripInitArrives | src/main.cpp:66-82 | an id of 64 bits, and coordinates with a fraction or integers up to 2^53, arrive unchanged |
| Inbound.RunProjects | src/main.cpp:64-189 | inside any run of messages and tags the stream makes a coarse run whose pushes are the decoded messages; trip and request ids are those of the last valid move and init |
| Inbound.EndToEnd | src/main.cpp:64-189 | over any run of messages, connects and completions, the in-order decode of the well-formed messages is the streams' record ++ pending; trip id and request id are those of the last valid move and init |
| Inbound.RejectedLeaveNoTrace | src/services/mqtt_router.cc:29-44 | over any run: without its malformed and unrouted messages it is a run still, and leads to the same ids, streams and pending commands |
| Inbound.RequestIdReadBack | src/application/trip_orchestrator.h:103-112 | after any run the request id read back is the last valid one up to 2^53, and the double nearest to it, within 512, below 2^63 - 512 |
| Inbound.RequestIdsAreInt64 | src/application/trip_orchestrator.cc:36 | every stored request id came from an int64 |
| TripOrchestration.TripOrchestrator.HandleTripInit | src/application/trip_orchestrator.cc:32-53 | throws exactly on ill-formed payloads, then unchanged; else stores the id as a double and pushes what the callback builds from the fields in its parameter order |
| TripOrchestration.TripOrchestrator.HandleTripMove | src/application/trip_orchestrator.cc:55-72 | likewise, storing the trip id |
| TripOrchestration.TripOrchestrator.HandleTripPark | src/application/trip_orchestrator.cc:74-86 | likewise, storing nothing; the callback takes longitude before latitude |
| TripOrchestration.TripOrchestrator.HandleOrderUpdateLocation | src/application/trip_orchestrator.cc:88-98 | likewise, with the vehicle number alone |
| TripOrchestration.TripOrchestrator.HandleOrderUpdateStatus | src/application/trip_orchestrator.cc:100-109 | likewise, with the vehicle number alone |
| TripOrchestration.TripOrchestrator.HandleTripCancel | src/application/trip_orchestrator.cc:111-122 | likewise, storing nothing |
| TripOrchestration.TripOrchestrator.ActiveRequestId | src/application/trip_orchestrator.h:103 | the stored double converted back to int64 |
| TripOrchestration.TripOrchestrator.SetTripId | src/application/trip_orchestrator.h:106 | overwrites the trip id alone |
| Gateway.MqttRouter.On | src/services/mqtt_router.cc:25-27 | a registration replaces the earlier one for its topic |
| Gateway.MqttRouter.RegisterAll | src/main.cpp:152-189 | exactly the six topics are routed, each to its handler |
| Gateway.Application.constructor | src/main.cpp:62-189 | orchestrator, callbacks and router are wired, ids 0 |
| Gateway.Application.Dispatch | src/services/mqtt_router.cc:29-44 | on the objects, with main's callbacks: the effect of a message is that of its decode, fields in their right places; unknown topics and exceptions change nothing |
| Urls.ScanIff | src/transport/http_client/http_client.cpp:46-68 | the scanner gives exactly the split of the text over the groups in which host and port are as long as they can be; printing and scanning are inverse |
| Urls.ScanPrefersLonger | src/transport/http_client/http_client.cpp:48-51 | a text that matches in any way is matched, and with the match that greedy groups prefer |
| Urls.AuthorityExists | src/transport/http_client/http_client.cpp:48-51 | after the scheme a text matches exactly when the host is not empty and its fragment has no line break |
| Urls.AuthorityOf | src/transport/http_client/http_client.cpp:48-51 | where host and port end is forced, and the rest is matched on its own |
| Text.Span | src/transport/http_client/http_client.cpp:48-51 | the longest prefix of characters of a class |
| UrlText.ReadIff | src/transport/http_client/http_client.cpp:46-68 | a text is read as a URL if and only if it is put together from a scheme, host, port, path, query and fragment of the right characters, and then the URL has these, with 80 or 443 for no port and / for no path |
| Redirects.ParsedUrl | src/transport/http_client/http_client.cpp:55-67 | a parsed URL has a host, a numeric port, and a non-empty path without '#'; with a port other than the default the path does not start with a digit |
| UrlText.AbsoluteIsKept | src/transport/http_client/http_client.cpp:72-73 | on every base that parses, a location that starts with http:// or https:// is the result as it stands |
| UrlText.UrlIsKept | src/transport/http_client/http_client.cpp:72-73 | so a location that is a URL leads to that URL, of either scheme |
| UrlText.RootedIsAppended | src/transport/http_client/http_client.cpp:74-79 | a location with a leading / gives scheme, host, port unless it is the default, and the location, as text |
| UrlText.RelativeIsAppended | src/transport/http_client/http_client.cpp:74-82 | any other location without scheme: the same followed by the base's path and query up to their last /, and the location |
| Redirects.ReparseTarget | src/transport/http_client/http_client.cpp:70-83 | root ++ target parses to protocol, host and port of the base: leaving out the default port is undone |
| Redirects.RelativeStaysOnOrigin | src/transport/http_client/http_client.cpp:70-83 | for a '/'-rooted base and any relative location the result parses exactly when its fragment has no line break, has the origin of the base and is rooted again |
| Redirects.ChainStaysOnOrigin | src/transport/http_client/http_client.cpp:70-83 | a chain of such locations of any length never leaves protocol, host and port |
| Redirects.OriginKeptIff | src/transport/http_client/http_client.cpp:70-83 | for every base that parses: the result parses exactly when the fragment is clean, and keeps the origin exactly under a condition on port and path that a caller can check |
| Redirects.OriginIsLost | src/transport/http_client/http_client.cpp:70-83 | the family of bases, as http://h:80x/y, that lose their origin |
| Redirects.PathOfTarget | src/transport/http_client/http_client.cpp:80-82 | a location of path characters replaces what follows the last '/' of path and query |
| Redirects.MergesLikeRfc3986Iff | src/transport/http_client/http_client.cpp:80-81 | for an empty or rooted path: the directory is that of section 5.2.3 of RFC 3986 exactly when the query has no '/' |
| Redirects.RedirectMergesIff | src/transport/http_client/http_client.cpp:70-83 | through resolve_redirect: a location of path characters is merged as in section 5.2.3 exactly when the query of the base has no '/' |
| Redirects.PathlessBaseDiffers | src/transport/http_client/http_client.cpp:70-83 | the family of bases, as http://h?next=/a, that are merged differently |
| Rfc3986.AgreesIff | src/transport/http_client/http_client.cpp:70-83 | for every base with an empty or rooted path and every relative reference, empty and query-only ones, dot segments and //authority included: the result stays on the base's origin, and path and query requested are those of section 5.2.2 exactly under a condition on base and reference |
| Rfc3986.RemoveDotsIff | src/transport/http_client/http_client.cpp:79-82 | dot segments, which the code keeps: removing them (section 5.2.4) leaves a path alone if it has none, and shortens it if it has |
| HttpClient.Trace | src/transport/http_client/http_client.cpp:247-306 | for every server: at most redirects + 1 exchanges, each with a URL that parses and the verb of its method, each linked by its 301, 302, 307 or 308 to the one before, and the reason the call ended |
| HttpClient.HopIsFold | src/transport/http_client/http_client.cpp:284-297 | method and body of each hop as a function of the earlier statuses; headers unchanged |
| HttpClient.CallIsBounded | src/transport/http_client/http_client.cpp:308-342 | one client call: at most n + 1 exchanges, linked, each hop's method, body and headers decided by the earlier statuses |
| HttpClient.StandardHop | src/transport/http_client/http_client.cpp:279 | resolve_redirect is only applied to a URL that parses, and gives the next exchange its URL |
| HttpClient.StandardKeepsOrigins | src/transport/http_client/http_client.cpp:46-83 | the code's two URL functions keep origins of rooted bases for relative locations |
| HttpClient.RelativeCallStaysOnOrigin | src/transport/http_client/http_client.cpp:247-306 | if the server only redirects relatively (other answers may carry any Location), every exchange of a call is with the first origin and no URL is found invalid |
| HttpClient.CallFollows | src/transport/http_client/http_client.cpp:247-306 | for every server and with the code's URL functions: an exchange has a successor if and only if redirects are followed, fewer than allowed have been, the answer is a 301, 302, 307 or 308 with a Location or location header, and that leads to a URL that parses |
| HttpClient.CallReturns | src/transport/http_client/http_client.cpp:247-306 | the call returns its last answer, or status 0 and the invalid URL if that answer is to be followed to a URL that does not parse |
| HttpClient.DefaultCallFollowsFive | src/transport/http_client/http_client.h:54-59 | with the default options five redirects in a row are followed and no sixth |
| Dotenv.Environment.SetEnv | src/infra/config.h:92 | sets a name that is not empty and not set, and nothing else |
| Dotenv.Environment.LoadLine | src/infra/config.h:77-92 | one line: blanks and comment, then the definition |
| Dotenv.Environment.LoadBody | src/infra/config.h:80-92 | the rest of a line: '=', trimming, quotes, setenv |
| Dotenv.Environment.LoadDotenv | src/infra/config.h:72-94 | the loop over lines loads the file; a missing file changes nothing |
| Dotenv.Environment.LoadConfiguredFile | src/infra/config.h:123-125 | from_env loads the file that GATEWAY_ENV_FILE names, .env by default |
| Text.PopTrailing | src/infra/config.h:84-88 | the popping loops leave the text without its trailing characters of a class |
| Text.TrimRight | src/infra/config.h:84-88 | the result is a prefix, ends with a character to keep, and only characters to drop are gone |
| DotenvLines.LineSets | src/infra/config.h:77-92 | a line KEY=VALUE, with blanks before and behind the key and blanks or line ends behind the value, sets the key to what stands in quotes of one kind, else to the whole value |
| DotenvLines.LineSetsNothing | src/infra/config.h:77-83 | a blank line, a comment, and a line without '=' or key set nothing |
| DotenvLines.FileLoaded | src/infra/config.h:123-125 | the file loaded is the one that GATEWAY_ENV_FILE names, .env if it names none, and a missing one changes nothing |
| DotenvLines.OneLineIsRead | src/infra/config.h:72-99 | a file of one such line, loaded into an empty environment, gives the setting that value, or the default for an empty one |
| Dotenv.FirstDefinitionWins | src/infra/config.h:69-94 | a name is set exactly if it was or a line defines it; what was set stays; a new name has the value of its first defining line, an empty one included |
| Dotenv.LoadIsIdempotent | src/infra/config.h:69-94 | loading twice equals loading once |
| Dotenv.LoadTwoFiles | src/infra/config.h:69-94 | loading two files in turn equals loading their text joined by a newline |
| Dotenv.LinesAreTheText | src/infra/config.h:75-76 | the lines, each ended by a newline, are the text |
| Dotenv.PrintedLineIff | src/infra/config.h:77-92 | a printed line reads back as its key and value exactly when the key is non-empty, has no '=', NUL or outer blank and no '#' in front, and the value has no NUL |
| Dotenv.RoundTrip | src/infra/config.h:72-94 | pairs with different keys, printed and loaded into an empty environment, come back as exactly those pairs |
| Dotenv.SettingOf | src/infra/config.h:96-99 | a setting is the variable, else its first definition, else the default; an empty value counts as none but hides later ones |
| AuthServices.AuthService.PostTo | src/services/auth_services.cc:89-91 | one request, answered by the world and recorded |
| AuthServices.AuthService.Login | src/services/auth_services.cc:167-191 | the token changes exactly on a successful answer that says success and holds an access token |
| AuthServices.AuthService.Signup | src/services/auth_services.cc:273-303 | true on 201 and 409 |
| AuthServices.AuthService.VerifyCode | src/services/auth_services.cc:249-271 | true on 200 |
| AuthServices.AuthService.Setup | src/services/auth_services.cc:39-68 | login; else signup, verification and login again |
| AuthServices.AuthService.EnsureAuthHeaders | src/services/auth_services.cc:193-200 | the headers carry the current token if there is one |
| AuthServices.AuthService.SaveVehicleCredentials | src/services/auth_services.cc:305-333 | the file holds the credentials if it can be written |
| AuthServices.AuthService.LoadVehicleCredentials | src/services/auth_services.cc:335-355 | members are read one by one, those before a bad one are kept |
| AuthServices.AuthService.CaptureCredentials | src/services/auth_services.cc:94-112 | registered at once; false if a key is missing |
| AuthServices.AuthService.CreateVehicle | src/services/auth_services.cc:70-165 | the recursion over mutated fields takes the steps of the specification and terminates |
| AuthServices.AuthService.constructor | src/services/auth_services.cc:33-37 | no token, not registered, nothing sent |
| AuthTheorems.CreateVehicleKeeps | src/services/auth_services.cc:70-165 | every call: at most measure + 1 registration requests and one login; result and registration are those of the last answer; every earlier answer asked for a retry |
| AuthTheorems.TopLevelCall | src/services/auth_services.cc:70-165 | a top-level call: at most four registration requests and one login; true only if registered, which no call undoes |
| AuthTheorems.FourPosts | src/services/auth_services.cc:126-159 | failure, expired token, login, failure, failure: any world that answers so draws exactly four registration requests |
| AuthTheorems.FourPostsAreReached | src/services/auth_services.cc:126-159 | from every session with a token and no registration some server draws four requests, so the bound is tight |
| AuthTrace.CallFollowsAnswers | src/services/auth_services.cc:70-165 | a top-level call from its requests and answers alone: nothing is sent exactly if registered or without token; else a registration; request k has a successor if and only if it is a registration answered 401 before any login, a registration that failed when none since the latest login had, or a login that granted a token; a 401 is followed by a login, the others by a registration |
| AuthTrace.CallEndsAsAnswered | src/services/auth_services.cc:94-124 | a call ends as its last answer says: a 201 registers and, with both keys, keeps them and writes the file; a 409 registers exactly if the file holds credentials, which it then has; any other leaves credentials, file and registration alone |
| AuthTrace.ExpiredTokenIsDropped | src/services/auth_services.cc:127-142 | a call with a login ends with the token granted, or with none if the login failed; a call without one keeps its token |
| AuthTrace.CredentialsSurvive | src/services/auth_services.cc:305-355 | the credentials that one process stored after a 201 are those that another has after a 409 |
| AuthTrace.GrantsIff | src/services/auth_services.cc:167-191 | an answer grants a token if and only if it is a success whose body has true under success and that string under accessToken of data |
| AuthTrace.SetupFollowsAnswers | src/services/auth_services.cc:39-68 | setup without token, from its answers alone: a signup exactly after a login that grants nothing, a verification exactly after a 201 or 409, another login exactly after a 200; true exactly if the last answer grants a token, which it has |
| AuthTheorems.SetupKeeps | src/services/auth_services.cc:39-68 | with a token setup does nothing; else it sends a prefix of login, signup, verification, login, is true exactly if the last was a successful login, and keeps its token |
| AuthTheorems.ResultTellsIff | src/services/auth_services.cc:94-124 | after a call that sent a request, the result tells whether the vehicle is registered exactly when the last answer is not a 201 without keys; after such an answer the call is false and the next one true |
| AuthTheorems.KeysCanLack | src/services/auth_services.cc:94-112 | a 201 without a body brings that about, from every session with a token and no registration |
| AuthTheorems.EmptyTokenIff | src/services/auth_services.cc:39-68 | after setup from no token: true and yet without a usable token exactly when the last request is a login that grants the empty token |
| AuthTheorems.TokenCanBeEmpty | src/services/auth_services.cc:167-191 | a server that grants the empty token at once brings that about, and create_vehicle then sends nothing |
| AuthTheorems.WholeRun | src/services/auth_services.cc:39-165 | any sequence of setup and create_vehicle calls: every request is sent as JSON, every registration request carries the non-empty token of the latest successful login, at most four per call, none once registered |
| MqttClients.MqttClient.Start | src/transport/mqtt_client/mqtt_client.cpp:37-73 | a second start changes nothing; else a new session with the flush posted |
| MqttClients.MqttClient.BeginStop | src/transport/mqtt_client/mqtt_client.cpp:75-83 | no effect unless started |
| MqttClients.MqttClient.FinishStop | src/transport/mqtt_client/mqtt_client.cpp:85-88 | client and posted work are gone, pending topics stay |
| MqttClients.MqttClient.Subscribe | src/transport/mqtt_client/mqtt_client.cpp:111-117 | always stored; posted as well while the client runs |
| MqttClients.MqttClient.DoSubscribe | src/transport/mqtt_client/mqtt_client.cpp:148-167 | one subscription is requested |
| MqttClients.MqttClient.FlushPendingTopics | src/transport/mqtt_client/mqtt_client.cpp:136-141 | the loop requests the pending topics in order, then clears them |
| MqttClients.MqttClient.RunPosted | src/transport/mqtt_client/mqtt_client.cpp:57-64 | a posted callback flushes, or subscribes one topic |
| MqttClients.MqttClient.OnReceive | src/transport/mqtt_client/mqtt_client.cpp:123-146 | an error rearms unless stopped; a message flushes pending topics first |
| MqttClients.MqttClient.constructor | src/transport/mqtt_client/mqtt_client.cpp:25-33 | nothing started, pending or sent |
| Mqtt.StepKeeps | src/transport/mqtt_client/mqtt_client.cpp:37-146 | every call and callback keeps the per-topic sums and the presence of the client |
| MqttSessions.RestartSends | src/transport/mqtt_client/mqtt_client.cpp:37-88 | a stop and a new start give a session with one receive armed that requests the topics that stayed pending, once each and in order, by the time its flush has run |
| MqttSessions.RestartIsPossible | src/transport/mqtt_client/mqtt_client.cpp:75-88 | from every running session the client can be stopped and started again |
| MqttSessions.StopDisarms | src/transport/mqtt_client/mqtt_client.cpp:123-146 | after a stop has begun, at most the receive that was armed completes, and none is armed again |
| MqttSessions.SecondCallsAreIgnored | src/transport/mqtt_client/mqtt_client.cpp:38-76 | a second start, and a stop without a start, change nothing |
| Mqtt.Conservation | src/transport/mqtt_client/mqtt_client.cpp:57-141 | per topic, in a session: sent + posted + pending = calls before the start + 2 * calls since (+ calls since stop began); callbacks only run with a client |
| Mqtt.Drained | src/transport/mqtt_client/mqtt_client.cpp:57-141 | per topic, once posted work has drained: sent at least as often as called before the start and since, and at most once more for each call since (and for each since stop began) |
| Mqtt.BeforeStartIsExact | src/transport/mqtt_client/mqtt_client.cpp:57-64 | a topic requested only before the start is sent exactly as often, after the flush |
| Mqtt.OnceOrTwice | src/transport/mqtt_client/mqtt_client.cpp:111-117 | a topic requested once after the start is sent n times for exactly n = 1 and n = 2 |
| Mqtt.SentTwiceIff | src/transport/mqtt_client/mqtt_client.cpp:57-141 | drained, a topic called once since the start was sent once if it is still pending and twice if it is not |
| Mqtt.TwiceIffFlushed | src/transport/mqtt_client/mqtt_client.cpp:57-141 | by events: it was sent twice if and only if a posted flush or a message ran after the call, else once |
| Mqtt.TopicsOfMain | src/main.cpp:192-203 | topics subscribed before start are requested once each, in order, whatever arrives meanwhile |

## Left out

- gRPC, Boost.Asio, Beast, MQTT5, OpenSSL and Zenoh themselves: they are an environment that delivers tags, callbacks, messages and responses.
- `impl::do_request` and `send_and_receive`: network I/O, an arbitrary function that gives a response.
- JSON text and protobuf bytes: a payload is a parsed document or nothing, a command a value with typed fields.
- `handle_incoming`: a flat case split that publishes and does not touch the state of the stream.
- The unary handlers in `src/services/rpc_dispatcher.cc`: nothing makes their first `Proceed` call.
- `vechile_login` and `publish`: single requests whose properties could be read from one body.
- The request bodies of `AuthService`: constants of the configuration.
- The fields of `Config`, `env_int` and `env_double`: look-ups one by one, and number parsing of the standard library.
- Logging, signals, sleeps, Docker and CMake.
- Effects of a weak memory model, and reuse of a handler's address after its deletion.
- Inbound.RequestIdReadBack: says nothing close about ids from 2^63 - 512 on, because the conversion back is undefined there; the model saturates, as AArch64 does.
- Json.DoubleToInt64: saturates outside int64, where C++ leaves the result undefined.
- FineOrder.OrderIff: says nothing about the order between commands of different producers, whose calls overlap.
- FineLocks.DeletedIsUnused: holds under the assumption on Finish above, which the code does not enforce.
- FineLifetime.DanglesIff: a deleted handler keeps its fields in the model, so what a thread reads there is not modelled.
- Rfc3986.AgreesIff: leaves out locations with a scheme of their own, which are no relative references.
- StreamService.CommandStream.Proceed: does not model what `handle_incoming` publishes.
- MqttClients.MqttClient.OnReceive: does not model the call of the message handler, whose effect is that of Gateway.Application.Dispatch.
- AuthServices.AuthService.PostTo: records endpoint and headers, not the body.
