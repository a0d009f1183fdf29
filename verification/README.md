# Verified model of the realm control protocol, layout and ledger

This project models the parts of the realm desktop whose correctness is hard to see by reading one
function, and proves what they promise over every input and every run.

* **Connections.** `Protocol` is the connection automaton as functions on a value, `Connection` the
  same automaton as an object updated in place. `ConnectionRuns` says which events may happen;
  `ConnectionStreams`, `ConnectionOutput`, `ConnectionTheorems` and `ConnectionTiming` hold what every
  run keeps, stated on the byte streams read and written; `ConnectionGate` says what it takes a gate for.
  `ConnectionEffects` and `ConnectionShutdown` say what each operation does, as seen from outside.
* **The server.** `Server` and `ControlServers` run up to 64 connections. `ServerRuns`,
  `ServerTheorems`, `ServerEvents` and `ServerPhases` hold the invariant, receipts, what a call does to
  one connection, the barrier and shutdown; `ServerEffects` says who is admitted and removed, what is
  reported and what is polled. `ServerTraces` joins the two levels: each connection ever
  admitted, finished or not, is a permitted run of its automaton, so the connection theorems hold of it.
* **The client.** `ClientModel`, `ClientTheorems` and `Clients` read frames from any chunking, write
  requests and iterate a subscription; `ClientEffects` says what decides each call. `EndToEnd` joins client and connection.
* **The endpoint.** `Endpoint` is the ownership protocol of any number of processes, one label for
  each system call, with crashes that close descriptors in any order. `EndpointOwner` holds the
  procedures and shows that their calls are legal runs.
* **Ledger and layout.** `LedgerModel`, `LedgerTheorems`, `LedgerSwaps`, `LedgerEffects` and `Ledgers`;
  `Partition`, `Layouts` and `LayoutRatios`.
* **Unit ordering.** `UnitOrder` is the cycle search and reachability test of the systemd units.

A frame is text without LF followed by LF. Instants are milliseconds. System calls, the clock and the
JSON codec enter as parameters: outcomes of calls, readings, and a decoding function. Theorems about a
server assume that its fixed replies fit a frame (`Wire.Fits`) and that the application completes each
request it was handed once, with the matching call (`Permitted`).

Some properties one might expect do not hold. Each has its exact condition and an instance of the
failure.

* Not every window of a triptych is placed: `ProjectPlaces`, `CrowdedHappens`.
* Not every mono stack shows one window: `MonoShowsOne`, `NothingShown`.
* An unlink may remove the entry of a socket that is still open, but only one that a process left when
  it crashed before it listened: `UnlinkIsSafe`, `CrashedUnlistened`.
* The client does not give a frame two seconds from its own first byte: `SessionDeadline` says what it
  gives, `GivesUpEarly`.
* Banishing an unfocused window may move the focus: `BanishFocus`, `FocusMoves`.
* The connection automaton alone may overwrite a started frame: `UngatedReadOverwrites` says when,
  `OverwriteHappens` gives a run that leads to it, and `GateHolds` says that the server never lets it.

## Model

| member | source | states |
|---|---|---|
| Frames.Encode | crates/realm-core/src/ipc.rs:241-259 | a document becomes a frame exactly when its text and LF fit in 65536 bytes; the frame is the text and one final LF |
| Frames.EncodeInjective | crates/realm-core/src/ipc.rs:241-259 | distinct documents have distinct frames |
| Frames.FrameWriter.Write | crates/realm-core/src/ipc.rs:20-37 | a chunk is appended whole or refused whole, and a refusal is remembered |
| Frames.EncodeChunks | crates/realm-core/src/ipc.rs:14-37 | however the serialiser chunks a document, the result depends on its text alone |
| Frames.SplitWhole | crates/realm-control/src/protocol.rs:53-72 | splitting a stream at LFs loses nothing and yields only frames and an LF-free rest |
| Frames.SplitUnique | crates/realm-control/src/protocol.rs:53-72 | that is the only split of a stream into frames and an LF-free rest |
| Connection.ConnectionMachine.constructor | crates/realm-control/src/protocol.rs:145-163 | a new connection awaits Hello with one second to live |
| Connection.ConnectionMachine.Enabled | crates/realm-control/src/protocol.rs:169-181 | when the connection wants input |
| Connection.ConnectionMachine.EarliestDeadline | crates/realm-control/src/protocol.rs:187-204 | the minimum of the deadlines in force; `DeadlineIffWaiting` says when there is none |
| Connection.ConnectionMachine.ExpireAt | crates/realm-control/src/protocol.rs:206-211 | closes exactly from the earliest deadline on |
| Connection.ConnectionMachine.Push | crates/realm-control/src/protocol.rs:53-63 | LF hands over the whole frame and empties the buffer; any other byte is kept, and the 65536th is too large |
| Connection.ConnectionMachine.TakeFrame | crates/realm-control/src/protocol.rs:247-316 | one complete frame in each phase: Hello, pipelined frame, request, refusal, close |
| Connection.ConnectionMachine.TakeByte | crates/realm-control/src/protocol.rs:231-316 | one byte of input, with the partial-frame deadline and the limit on pipelining |
| Connection.ConnectionMachine.Receive | crates/realm-control/src/protocol.rs:213-316 | the loop over a read performs `Ingest` on the machine |
| Connection.ConnectionMachine.Eof | crates/realm-control/src/protocol.rs:318-334 | end of file: closes, or half-closes a connection that owes work |
| Connection.ConnectionMachine.Advance | crates/realm-control/src/protocol.rs:336-381 | bytes taken by the socket move the cursor; a finished frame triggers what follows it |
| Connection.ConnectionMachine.HelloSent | crates/realm-control/src/protocol.rs:354-370 | after the Hello reply a retained frame is emitted or refused |
| Connection.ConnectionMachine.SubscriberFrameSent | crates/realm-control/src/protocol.rs:457-467 | the coalesced state goes next, or a pending shutdown closes |
| Connection.ConnectionMachine.Respond | crates/realm-control/src/protocol.rs:383-393 | a response is queued exactly for a pending ordinary request |
| Connection.ConnectionMachine.AcceptSubscriber | crates/realm-control/src/protocol.rs:395-407 | a pending subscribe becomes a subscription with its initial state queued |
| Connection.ConnectionMachine.Publish | crates/realm-control/src/protocol.rs:409-424 | a state is queued, replacing one that has not been started |
| Connection.ConnectionMachine.StartShutdown | crates/realm-control/src/protocol.rs:426-455 | a subscriber is given the shutdown event and 100 ms, any other connection is closed |
| Connection.ConnectionMachine.SendHello | crates/realm-control/src/protocol.rs:469-486 | the Hello reply, matching or closing |
| Connection.ConnectionMachine.Refuse | crates/realm-control/src/protocol.rs:488-503 | a terminal error closes after it is sent |
| Connection.ConnectionMachine.Queue | crates/realm-control/src/protocol.rs:505-508 | the current frame and its deadline |
| Connection.ConnectionMachine.Stop | crates/realm-control/src/protocol.rs:510-523 | closing clears buffers, flags and deadlines |
| ConnectionRuns.StepKeeps | crates/realm-control/src/protocol.rs:126-523 | every permitted operation keeps the relation between phase, buffers, flags and deadlines |
| ConnectionTheorems.RunKeeps | crates/realm-control/src/protocol.rs:126-523 | over every run, that shape together with the agreement of the input and output streams, the counts and the Hello order |
| ConnectionTheorems.OutgoingStream | crates/realm-control/src/protocol.rs:336-467 | over every run the bytes released are whole frames and a prefix of the next one: Hello reply, responses in order, then for a subscriber the initial state, an in-order selection of the published states and perhaps Shutdown, or a single refusal at the end |
| ConnectionTheorems.RepliesDelivered | crates/realm-control/src/protocol.rs:336-393 | a ready connection with nothing in flight has sent exactly the Hello reply and every accepted response |
| ConnectionTheorems.NewestStateDelivered | crates/realm-control/src/protocol.rs:395-467 | a drained subscriber that is not shutting down was sent the newest published state last |
| ConnectionTheorems.RequestsInOrder | crates/realm-control/src/protocol.rs:213-407 | no request leaves before a matching Hello arrived and its reply went out whole; requests are what the following frames decode to, in order; requests and completions alternate |
| ConnectionTheorems.NothingLost | crates/realm-control/src/protocol.rs:213-316 | on a live connection every complete frame after Hello was handed over or is retained, and the buffer is the rest |
| ConnectionTheorems.HalfClosedOwesWork | crates/realm-control/src/protocol.rs:318-381 | a half-closed ready connection has a pending request or undrained output |
| ConnectionTheorems.OneRequestAfterEof | crates/realm-control/src/protocol.rs:318-381 | after end of file at most one more request is emitted |
| ConnectionGate.UngatedReadOverwrites | crates/realm-control/src/protocol.rs:213-316 | without the gate, a ready connection in the middle of a reply has it replaced if and only if the first frame read fits and decodes to no request or to another Hello |
| ConnectionGate.OverwriteHappens | crates/realm-control/src/protocol.rs:213-316 | a reachable instance: after greeting, command and the first byte of the answer, a second Hello read without the gate replaces the answer |
| ConnectionGate.UngatedTextIsSafe | crates/realm-control/src/protocol.rs:213-316 | a read without a complete frame never replaces it |
| ConnectionTheorems.ClosingIsReported | crates/realm-control/src/protocol.rs:206-523 | when the fixed replies fit, an operation closes exactly when it returns a close action |
| ConnectionTiming.DeadlineIffWaiting | crates/realm-control/src/protocol.rs:187-204 | a reachable machine has no deadline exactly when nothing is expected of its peer |
| ConnectionTiming.DeadlineStep | crates/realm-control/src/protocol.rs:206-523 | no operation moves a terminal, shutdown or Hello deadline; the output deadline moves only with bytes taken |
| ConnectionTiming.HelloDeadlineFixed | crates/realm-control/src/protocol.rs:145-211 | until its Hello a connection lives for at most one second, whatever it sends |
| ConnectionTiming.DeadlinesNeverMove | crates/realm-control/src/protocol.rs:426-503 | a terminal or shutdown deadline seen once stands until the connection is closed |
| ConnectionTiming.PartialDeadlineExact | crates/realm-control/src/protocol.rs:235-248 | the partial-frame deadline is two seconds after the first byte of the frame, read off the input alone |
| ConnectionTiming.ChunkingIndependent | crates/realm-control/src/protocol.rs:213-316 | two reads at one instant act as their concatenation, also when that ends in the excess-pipeline close |
| ConnectionTiming.AnyChunking | crates/realm-control/src/protocol.rs:213-316 | the same for any number of reads |
| ConnectionTiming.OutputDeadlineExact | crates/realm-control/src/protocol.rs:336-348 | the deadline of the frame in flight is two seconds after the last bytes were taken or the frame was put in flight |
| ConnectionTiming.TerminalDeadline | crates/realm-control/src/protocol.rs:469-503 | a last reply has 100 ms from the moment it is queued |
| ConnectionEffects.FirstFrame | crates/realm-control/src/protocol.rs:250-271 | the first frame: a Hello is answered, in its own version or for the last time; any other request or document is refused; what does not decode closes |
| ConnectionEffects.FrameAhead | crates/realm-control/src/protocol.rs:272-288 | one frame may be sent ahead of the Hello reply: kept as request or refusal, the reply undisturbed |
| ConnectionEffects.ExcessAhead | crates/realm-control/src/protocol.rs:232-234 | input behind that frame closes |
| ConnectionEffects.HelloReplyOut | crates/realm-control/src/protocol.rs:354-370 | with the last byte of the Hello reply the kept frame is emitted or refused; without one the connection is ready, or closes if half-closed |
| ConnectionEffects.ReadyFrame | crates/realm-control/src/protocol.rs:289-309 | a ready connection emits r if and only if the frame decodes to the request r, closes if and only if it does not decode, and refuses the rest |
| ConnectionEffects.ReadyExcess | crates/realm-control/src/protocol.rs:289-309 | with input behind the frame a request closes instead |
| ConnectionEffects.TooLong | crates/realm-control/src/protocol.rs:53-63 | a frame that outgrows the buffer closes |
| ConnectionEffects.UnwantedInput | crates/realm-control/src/protocol.rs:213-228 | input from a subscriber, or while an answer is owed or after end of file, closes; an empty read does nothing |
| ConnectionEffects.LastByte | crates/realm-control/src/protocol.rs:351-380 | the last byte of a final reply closes, of an ordinary one leaves the connection ready for input |
| ConnectionEffects.SomeBytes | crates/realm-control/src/protocol.rs:336-348 | fewer bytes move the frame in flight on by as many |
| ConnectionEffects.EofOutcome | crates/realm-control/src/protocol.rs:318-334 | end of file closes if and only if nothing is owed or a frame was cut off; otherwise it is only marked |
| ConnectionEffects.HalfClosedFinishes | crates/realm-control/src/protocol.rs:371-377 | a half-closed connection closes with the last byte it owes |
| ConnectionEffects.RespondOutcome | crates/realm-control/src/protocol.rs:383-393 | the answer to a pending request is what the socket is offered next; too large leaves the request pending; otherwise nothing happens |
| ConnectionEffects.SubscribeOutcome | crates/realm-control/src/protocol.rs:395-407 | the initial state answers a pending subscribe and makes a subscriber |
| ConnectionEffects.PublishOutcome | crates/realm-control/src/protocol.rs:409-424 | a published state is offered next, after the frame in flight |
| ConnectionEffects.PublishBad | crates/realm-control/src/protocol.rs:413-416 | a state that is no fitting frame closes |
| ConnectionEffects.ShutdownOthers | crates/realm-control/src/protocol.rs:426-440 | a shutdown closes whoever is no subscriber; a second one changes nothing |
| ConnectionEffects.InputWanted | crates/realm-control/src/protocol.rs:169-181 | input is wanted if and only if the peer is owed nothing, or subscribed, and has not ended its side |
| ConnectionEffects.NeverStuck | crates/realm-control/src/protocol.rs:165-204 | a connection that is not closing waits for input, for its output to be taken or for the application; only a half-closed subscriber may wait for the next state |
| ConnectionEffects.NextIsLeast | crates/realm-control/src/protocol.rs:187-204 | the next deadline is the least of those in force |
| ConnectionEffects.ExpireOutcome | crates/realm-control/src/protocol.rs:206-211 | expiry closes exactly from then on |
| ConnectionShutdown.ShutdownQueues | crates/realm-control/src/protocol.rs:426-455 | a shutdown leaves to be sent a frame already begun and nothing else, or an initial state not yet begun and the event; a state not yet begun is not sent |
| ConnectionShutdown.ShutdownTold | crates/realm-control/src/protocol.rs:426-467 | from a shutdown at any moment of any run, the subscriber is sent a prefix of what it had and that farewell, all of it exactly when the shutdown completes by draining |
| ConnectionShutdown.LastWord | crates/realm-control/src/protocol.rs:426-467 | the last frame of it is the event if and only if no frame was partly sent as the shutdown began |
| ControlServers.ControlServer.constructor | crates/realm-control/src/server.rs:129-158 | no connections, identities and tokens from one |
| ControlServers.ControlServer.InterestIn | crates/realm-control/src/server.rs:178-196 | what is polled of one connection, under a barrier and without |
| ControlServers.ControlServer.Interests | crates/realm-control/src/server.rs:170-197 | the interests of listener and peers |
| ControlServers.ControlServer.ServiceOnce | crates/realm-control/src/server.rs:199-259 | one readiness event: expiry, barrier, listener, then read, terminal or write |
| ControlServers.ControlServer.AcceptFrom | crates/realm-control/src/server.rs:261-299 | admission, with the limit of 64 and identities that run out |
| ControlServers.ControlServer.IdForToken | crates/realm-control/src/server.rs:325-332 | the connection a token names |
| ControlServers.ControlServer.ReceiveFrom | crates/realm-control/src/server.rs:334-368 | one receive and its outcomes |
| ControlServers.ControlServer.SendTo | crates/realm-control/src/server.rs:397-436 | one send, and the settling of a drained response |
| ControlServers.ControlServer.Apply | crates/realm-control/src/server.rs:479-499 | emit, close or nothing |
| ControlServers.ControlServer.NextWake | crates/realm-control/src/server.rs:501-516 | the earliest deadline among the connections that matter; none exactly when there is none |
| ControlServers.ControlServer.ExpireNow | crates/realm-control/src/server.rs:518-530 | removes exactly the connections whose deadline has passed |
| ControlServers.ControlServer.Respond | crates/realm-control/src/server.rs:532-561 | completion of a request and its receipt, with every error |
| ControlServers.ControlServer.SettlementOf | crates/realm-control/src/server.rs:563-577 | pending, drained or closed |
| ControlServers.ControlServer.WaitFor | crates/realm-control/src/server.rs:579-598 | raises the barrier for a pending receipt, refuses a second one |
| ControlServers.ControlServer.Subscribe | crates/realm-control/src/server.rs:600-620 | completion of a subscribe, with every error |
| ControlServers.ControlServer.PublishNow | crates/realm-control/src/server.rs:622-659 | one encoded state offered to every subscriber |
| ControlServers.ControlServer.Offer | crates/realm-control/src/server.rs:647-657 | the loop over the subscribers, dropping those that close |
| ControlServers.ControlServer.ShutdownNow | crates/realm-control/src/server.rs:661-679 | tells every connection once, drops those that close, lifts the barrier |
| ServerRuns.ReachableInv | crates/realm-control/src/server.rs:128-683 | every reachable server keeps: machines in shape and not closing, distinct tokens, fresh identities, sequences without gaps, a pending receipt with undrained ordinary output, and agreement with what the application was handed |
| ServerTheorems.PerformMoves | crates/realm-control/src/server.rs:199-436 | every server call moves every surviving machine by at most one event the machine permits, and its receipts only forward |
| ServerEvents.GateHolds | crates/realm-control/src/server.rs:247-258 | every event the server feeds a machine, the last one included, is one the machine permits: the gate that the connection theorems need |
| ServerEvents.LastEvent | crates/realm-control/src/server.rs:479-499 | a connection is removed by an event if and only if its machine answers with a close or with a completion too large to send |
| ServerTheorems.OnlyAcceptAdds | crates/realm-control/src/server.rs:261-299 | only an accept adds a connection, under an identity never used before |
| ServerTheorems.LiveReceipts | crates/realm-control/src/server.rs:532-577 | an issued receipt is closed exactly when its connection is gone, and pending exactly while it is the newest and its response is undrained |
| ServerTheorems.ReceiptBacked | crates/realm-control/src/server.rs:532-561 | a receipt is issued even where nothing was pending; a reply is queued exactly where one was |
| ServerTheorems.SettlementStep | crates/realm-control/src/server.rs:418-434 | one call moves a receipt from pending to drained or closed, from drained to closed, never back |
| ServerTheorems.SettlementMonotone | crates/realm-control/src/server.rs:532-577 | the same over every run |
| ServerEvents.DeliversAll | crates/realm-control/src/server.rs:479-499 | what a call hands to the application is what that connection's machine emitted, whether or not it survives the call |
| ServerPhases.ShutdownStep | crates/realm-control/src/server.rs:199-259 | while shutting down no call emits a request, admits a peer or moves the bound, repeated shutdown calls included |
| ServerPhases.ShutdownBounded | crates/realm-control/src/server.rs:518-683 | from any reachable state, whatever follows a shutdown at t: no request, no new peer, and an expiry at t + 100 ms or later leaves it complete |
| ServerPhases.BarrierStep | crates/realm-control/src/server.rs:204-225 | under a barrier a service call accepts nobody, reads nothing and emits nothing; the only events are expiries and sends to the receipt's connection |
| ServerPhases.BarrierInterests | crates/realm-control/src/server.rs:170-197 | under a barrier exactly one write-only interest while the receipt is pending, none once it settled |
| ServerPhases.BarrierRun | crates/realm-control/src/server.rs:170-225 | over every run until shutdown: before each call and at the end at most that one interest, and each call silent, admitting nobody and only sending |
| ServerTraces.ConnectionsAreRuns | crates/realm-control/src/server.rs:199-436 | every connection ever admitted, gone or not, has seen only permitted events, the one that ended it included; the application was handed exactly what that run emits; a live machine is in the state the run leads to |
| ServerTraces.EveryoneTraced | crates/realm-control/src/server.rs:261-299 | every connection alive at any moment of the run is among them |
| ServerTraces.EveryConversationLegal | crates/realm-control/src/server.rs:199-659 | so every peer ever admitted was sent a legal conversation, finished or not, and every request handed out is what a frame after a matching Hello decodes to |
| ServerEffects.AdmitsExactly | crates/realm-control/src/server.rs:261-299 | a call admits a connection if and only if the listener is readable, not hung up, there is no barrier and no shutdown, the accepted peer is the same user, fewer than 64 remain after expiry and both counters are left; it gets the next identity |
| ServerEffects.EveryoneSameUser | crates/realm-control/src/server.rs:271-274 | every connection ever traced came from such an accept, at the instant its trace starts |
| ServerEffects.RemovedExactly | crates/realm-control/src/server.rs:199-436 | a connection is removed if and only if its machine ends, it expired, its socket failed or hung up, its receipts ran out or a state could not be encoded |
| ServerEffects.ServiceReports | crates/realm-control/src/server.rs:199-436 | a readiness event is an error if and only if the listener hung up or could not accept, or the connection reached failed, and each has its own |
| ServerEffects.RespondReports | crates/realm-control/src/server.rs:532-561 | a completion fails for exactly four reasons and otherwise gets the next receipt |
| ServerEffects.SubscribeReports | crates/realm-control/src/server.rs:600-620 | the same for a subscribe |
| ServerEffects.PublishReports | crates/realm-control/src/server.rs:622-659 | a publication fails exactly while shutting down, or when somebody listens and the state is too large |
| ServerEffects.PollMatchesService | crates/realm-control/src/server.rs:170-197 | readable is polled exactly when arriving bytes would be read, writable exactly when a frame would be offered |
| ServerEffects.ListenerPolled | crates/realm-control/src/server.rs:170-177 | the listener is polled exactly while peers may be admitted |
| ServerEffects.SettlementExactly | crates/realm-control/src/server.rs:563-577 | for a live connection: pending while its response is, drained if issued before, closed if never issued |
| ServerEffects.WakesExactly | crates/realm-control/src/server.rs:501-516 | without a barrier expiry acts exactly from the first wake-up time on |
| ServerEffects.BarrierFromCall | crates/realm-control/src/server.rs:579-598 | waiting for a pending receipt mutes the server until shutdown, whatever is called in between |
| ServerEffects.BarrierOtherwise | crates/realm-control/src/server.rs:579-598 | a second wait is refused, waiting for a settled receipt raises nothing |
| Clients.Wait | crates/realm-control/src/client.rs:277-300 | waiting for the socket: retries interruptions, times out at the deadline |
| Clients.FramedTransport.constructor | crates/realm-control/src/client.rs:212-220 | an empty buffer without a deadline |
| Clients.FramedTransport.ReceiveOnce | crates/realm-control/src/client.rs:375-407 | one attempt to read: deadline, capacity, end of file, overrun, interruption |
| Clients.FramedTransport.TakeBuffered | crates/realm-control/src/client.rs:361-370 | hands over the first buffered frame; the assertion on the remaining deadline holds |
| Clients.FramedTransport.ReadFrame | crates/realm-control/src/client.rs:359-409 | the loop performs `Read`, and what was buffered plus what arrived is what is returned plus what stays buffered |
| Clients.FramedTransport.WriteFrame | crates/realm-control/src/client.rs:315-342 | the socket has taken exactly the prefix of the frame up to the offset |
| Clients.FramedTransport.SendRequest | crates/realm-control/src/client.rs:302-343 | succeeds exactly when the whole frame was taken; a request too large sends nothing |
| Clients.Subscription.constructor | crates/realm-control/src/client.rs:172-176 | a subscription holds back its initial state |
| Clients.Subscription.Next | crates/realm-control/src/client.rs:188-202 | yields the initial state, then events; finishes on shutdown or error |
| ClientTheorems.ReadConserves | crates/realm-control/src/client.rs:359-409 | one call returns at most one frame, conserves bytes, keeps the deadline set exactly while the buffer is non-empty, and reports too large exactly for a full buffer without LF |
| ClientTheorems.PartialDeadlineKept | crates/realm-control/src/client.rs:361-392 | while bytes stay buffered their deadline does not move, even when a frame among them is returned |
| ClientTheorems.SessionDeadline | crates/realm-control/src/client.rs:361-392 | over any series of calls the deadline is two seconds after the last chunk that found the buffer empty, and unset exactly for an empty buffer |
| ClientTheorems.GivesUpEarly | crates/realm-control/src/client.rs:361-392 | so a subscription may time out one millisecond after the first byte of the frame it waits for: the run |
| ClientTheorems.SessionKeeps | crates/realm-control/src/client.rs:359-409 | over any calls and any chunking, the frames returned followed by the buffer are the bytes received |
| ClientTheorems.FramesReturned | crates/realm-control/src/client.rs:359-409 | the frames returned are the first complete frames of the stream, in order |
| ClientTheorems.NextFrame | crates/realm-control/src/client.rs:361-370 | once a further frame has arrived the next call returns it without reading |
| ClientTheorems.TooLargeIff | crates/realm-control/src/client.rs:371-373 | too large is reported exactly when the frame in progress has filled the buffer |
| ClientTheorems.NeverTooLarge | crates/realm-control/src/client.rs:359-409 | from a stream of encoded frames it is never reported, and the frames read are a prefix of those sent |
| ClientTheorems.WriteWhole | crates/realm-control/src/client.rs:315-342 | a write is done exactly when the whole frame was taken |
| ClientTheorems.SubscriptionStream | crates/realm-control/src/client.rs:160-202 | the items are the initial state and then the frames as decoded, in order; the first shutdown or error is the last |
| ClientTheorems.FinishedStays | crates/realm-control/src/client.rs:189-191 | after it nothing is read or yielded |
| ClientEffects.PollOutcome | crates/realm-control/src/client.rs:277-300 | a wait is decided by the first reply that is no interruption in time |
| ClientEffects.AttemptOutcome | crates/realm-control/src/client.rs:375-407 | one attempt to read, reply by reply; only bytes that fit change the buffer |
| ClientEffects.ReadOutcome | crates/realm-control/src/client.rs:359-409 | a call goes on until a frame, a full buffer or a failed attempt decides it |
| ClientEffects.ReadDecided | crates/realm-control/src/client.rs:359-409 | one of these always does |
| ClientEffects.WriteOutcome | crates/realm-control/src/client.rs:315-342 | a write ends with the whole frame, or with the first reply that neither moves it on nor lets it try again |
| ClientEffects.PullOutcome | crates/realm-control/src/client.rs:188-202 | what each pull gives, and what finishes the subscription |
| EndToEnd.RunFits | crates/realm-control/src/protocol.rs:336-530 | nothing a connection sends is longer than a frame |
| EndToEnd.ClientReadsWhatWasSent | crates/realm-control/src/client.rs:359-409 | a client that received any part of what a connection sent, in any chunks, has read a prefix of its frames, lost nothing and is never told too large |
| EndToEnd.RequestsArrive | crates/realm-control/src/protocol.rs:213-316 | the requests a connection emits are, in order, what the client's frames after the Hello decode to |
| Endpoint.RunKeeps | crates/realm-control/src/endpoint.rs:140-428 | in every interleaving with crashes, exactly the lock's holder is between acquire and release and what it knows of the entry is true |
| Endpoint.AtMostOneOwner | crates/realm-control/src/endpoint.rs:74-79 | at most one process owns the endpoint, its socket is the one the entry names, and nobody else is past the lock |
| Endpoint.ReachableApart | crates/realm-control/src/endpoint.rs:140-428 | in every interleaving nobody else listens at an inode found stale, and nobody else has an owned one open |
| Endpoint.UnlinkIsSafe | crates/realm-control/src/endpoint.rs:216-252 | with crashes at any step: no unlink removes an entry whose socket is listening, a drop never one whose socket is open, and an unlink of a stale entry one with an open socket only if its process crashed before it listened |
| Endpoint.CrashedUnlistened | crates/realm-control/src/endpoint.rs:216-252 | that last case does occur: a run in which it happens |
| Endpoint.BoundLooksStale | crates/realm-control/src/endpoint.rs:467-499 | a bound socket that does not listen would be called stale, but nobody can be probing it |
| Endpoint.DropFindsItsEntry | crates/realm-control/src/endpoint.rs:382-405 | a drop always finds its own entry and its unlink removes it |
| Endpoint.UnsafeEntrySurvives | crates/realm-control/src/endpoint.rs:216-252 | an entry that is not our socket survives every run of all processes |
| Endpoint.EntrySurvives | crates/realm-control/src/endpoint.rs:216-252 | an entry that somebody listens on, or that is not ours, stays for as long as it is so, whatever all processes do |
| Endpoint.NotReclaimed | crates/realm-control/src/endpoint.rs:216-252 | in particular a process alone gets nowhere with it |
| Endpoint.RecheckNeverFails | crates/realm-control/src/endpoint.rs:235-250 | in no run does the recheck find another entry |
| Endpoint.LeftoverIsReclaimable | crates/realm-control/src/endpoint.rs:216-252 | with the lock free, a leftover socket of ours can be reclaimed if and only if no crashed process still listens on it |
| Endpoint.RecoversAmongOthers | crates/realm-control/src/endpoint.rs:140-185 | from the lock on, in every interleaving with others and their crashes in which its own calls meet no error, a process that found a reclaimable entry comes one call closer with each of its calls and then owns the endpoint |
| Endpoint.NeverBlocked | crates/realm-control/src/endpoint.rs:140-185 | its next call is always possible |
| Endpoint.Recovers | crates/realm-control/src/endpoint.rs:140-185 | in particular a process alone with the lock free reclaims the entry and binds |
| EndpointOwner.Probe | crates/realm-control/src/endpoint.rs:484-499 | stale only for a refused connection, at once or after polling |
| EndpointOwner.Host.ReclaimStaleEntry | crates/realm-control/src/endpoint.rs:216-252 | succeeds exactly when there is no entry, or a valid stale one and no call fails; otherwise the entry is untouched and the lock gone |
| EndpointOwner.Host.UnlinkStale | crates/realm-control/src/endpoint.rs:235-252 | recheck and unlink |
| EndpointOwner.Host.DropOwnership | crates/realm-control/src/endpoint.rs:382-405 | socket, entry, lock, in that order; the entry is removed unless a call fails |
| EndpointOwner.Host.BindUsing | crates/realm-control/src/endpoint.rs:140-185 | succeeds exactly when the lock is free, the entry is reclaimable and no call fails; its calls are a legal run of the protocol |
| EndpointOwner.Host.BindCleared | crates/realm-control/src/endpoint.rs:146-185 | socket, bind, check; what each failure leaves behind |
| EndpointOwner.Host.ActivateUsing | crates/realm-control/src/endpoint.rs:288-302 | listens, or drops the endpoint |
| Partition.PartitionLoop | crates/realm-core/src/layout.rs:299-335 | the loop computes `Split` |
| Partition.AllotLoop | crates/realm-core/src/layout.rs:311-334 | floors, remainders and the handing out of what is left |
| Partition.HandLoop | crates/realm-core/src/layout.rs:328-333 | leftover pixels go round in order of remainder |
| Partition.OrderOrdered | crates/realm-core/src/layout.rs:323-327 | the order is by falling remainder, ties by position, and a permutation |
| Partition.DistributeSum | crates/realm-core/src/layout.rs:311-334 | for any shares whatever the sum is exact if and only if their floors do not exceed the total |
| Partition.RoundedSharesSuffice | crates/realm-core/src/layout.rs:311-334 | for non-negative shares within one of the total, however rounded, the sum is exact and the largest remainders get one extra pixel each |
| Partition.SplitExact | crates/realm-core/src/layout.rs:299-335 | for all weights, NaN and negative ones included, the parts are non-negative and add up, by the largest-remainder rule |
| Partition.EqualWeights | crates/realm-core/src/layout.rs:299-335 | equal weights differ by at most one |
| Partition.ZeroWeightGetsNothing | crates/realm-core/src/layout.rs:299-335 | a zero or NaN weight gets nothing while another is positive |
| Layouts.Clamped | crates/realm-core/src/layout.rs:160-166 | a ratio in range, NaN kept |
| Layouts.GridLoop | crates/realm-core/src/layout.rs:257-291 | the loops compute `Grid`, whose tiling and count are proved below |
| Layouts.RowStarts | crates/realm-core/src/layout.rs:262-277 | no row is empty, so the guard that would stop the loop early never fires |
| Layouts.GridCount | crates/realm-core/src/layout.rs:257-291 | exactly n rectangles on a positive area, none otherwise |
| Layouts.GridTiles | crates/realm-core/src/layout.rs:257-291 | every pixel of the area is in exactly one rectangle, every other in none |
| Layouts.TriptychTiles | crates/realm-core/src/layout.rs:231-245 | the same for master column and stack, for all parameters |
| Layouts.TriptychCount | crates/realm-core/src/layout.rs:231-245 | one rectangle per window, except that a stack without width leaves only the master |
| Layouts.StackWidth | crates/realm-core/src/layout.rs:237-239 | the stack has width if and only if its exact share passes half a pixel, which four pixels guarantee |
| Layouts.EvenTiles | crates/realm-core/src/layout.rs:248-251 | the even layout tiles exactly with one rectangle per window |
| Layouts.EvenHeights | crates/realm-core/src/layout.rs:248-251 | its cells differ in height by at most one pixel |
| Layouts.EvenWidths | crates/realm-core/src/layout.rs:248-251 | and the cells of one row in width by at most one |
| Layouts.CeilRoot | crates/realm-core/src/layout.rs:249 | the least number of columns whose square suffices |
| Layouts.ProjectTiles | crates/realm-core/src/layout.rs:187-228 | the placements tile the area exactly, also where a window got none |
| Layouts.ProjectPlaces | crates/realm-core/src/layout.rs:217-227 | windows are placed in ledger order, all of them if and only if it is not a triptych whose stack has no width |
| Layouts.CrowdedHappens | crates/realm-core/src/layout.rs:217-227 | two windows on one pixel with ratio 0.85: the second is not placed |
| Layouts.FullscreenAlone | crates/realm-core/src/layout.rs:191-198 | a visible fullscreen window covers the output alone |
| Layouts.MonoShowsOne | crates/realm-core/src/layout.rs:210-227 | a mono stack shows exactly one window, or none if the focused one is stowed |
| Layouts.NothingShown | crates/realm-core/src/layout.rs:210-227 | two summons, mono, stow: the one window placed is occluded |
| Layouts.ReachableProjection | crates/realm-core/src/layout.rs:187-228 | for every ledger history no window is placed twice, and mono shows one exactly when the focused window is not stowed |
| LayoutRatios.PartNear | crates/realm-core/src/layout.rs:299-335 | every part is less than one pixel from its exact share |
| LayoutRatios.ProportionalPart | crates/realm-core/src/layout.rs:299-335 | in terms of the weights alone: every part is in proportion to its weight to within a pixel |
| LayoutRatios.LargerFirst | crates/realm-core/src/layout.rs:323-333 | of two shares with the same whole part the larger remainder, and of equal ones the earlier, gets no less |
| LayoutRatios.EvenWithoutWeights | crates/realm-core/src/layout.rs:306-309 | without a positive weight the parts are even |
| LayoutRatios.GridKeepsRatios | crates/realm-core/src/layout.rs:257-291 | a grid is laid out row by row, as many columns as asked for; two rows keep to the row ratio and two cells of a row to the column ratio to within a pixel; any other number is even |
| LayoutRatios.TriptychKeepsRatios | crates/realm-core/src/layout.rs:231-245 | the master keeps to its ratio to within a pixel at full height, and the stack beside it to the other two |
| LayoutRatios.ReferenceDesktop | crates/realm-core/src/layout.rs:128-156 | the default ratios on the reference desktop give a master of 640, columns of 700 and 580, rows of 580 and 442 |
| LayoutRatios.ColumnsAre | crates/realm-core/src/layout.rs:261 | at least one column and at most one for each cell |
| LayoutRatios.SanitisedOutcome | crates/realm-core/src/layout.rs:160-166 | each ratio goes to the nearest end of its range and NaN stays; columns to one to four |
| LayoutRatios.PlacementFlags | crates/realm-core/src/layout.rs:191-227 | focus is flagged exactly on the focused window; only mono hides windows, and gives all the whole area |
| LayoutRatios.NothingPlaced | crates/realm-core/src/layout.rs:191-202 | nothing is placed exactly without a visible window, or without area and fullscreen |
| Ledgers.Ledger.constructor | crates/realm-core/src/ledger.rs:175-182 | six empty orbits |
| Ledgers.Ledger.Holder | crates/realm-core/src/ledger.rs:210-215 | the first orbit that holds a window |
| Ledgers.Ledger.TakeCheckpoint | crates/realm-core/src/ledger.rs:233-242 | remembers the present, forgets the oldest beyond 64, clears redo |
| Ledgers.Ledger.DiscardUndoHistory | crates/realm-core/src/ledger.rs:430-433 | both stacks emptied |
| Ledgers.Ledger.Summons | crates/realm-core/src/ledger.rs:248-257 | a new window beside the focused one takes the focus; a known one changes nothing |
| Ledgers.Ledger.Banishes | crates/realm-core/src/ledger.rs:260-277 | a window leaves its orbit, stow and fullscreen, and the focus settles |
| Ledgers.Ledger.Focus | crates/realm-core/src/ledger.rs:280-289 | focus by window |
| Ledgers.Ledger.StepFocus | crates/realm-core/src/ledger.rs:292-305 | focus by direction, wrapping |
| Ledgers.Ledger.SwapFocused | crates/realm-core/src/ledger.rs:311-327 | exchange with the neighbour, focus carried along |
| Ledgers.Ledger.MoveFocused | crates/realm-core/src/ledger.rs:330-351 | the focused window moves to another orbit |
| Ledgers.Ledger.Show | crates/realm-core/src/ledger.rs:354-360 | another orbit becomes active |
| Ledgers.Ledger.StowFocused | crates/realm-core/src/ledger.rs:363-375 | stow and unstow |
| Ledgers.Ledger.FullscreenFocused | crates/realm-core/src/ledger.rs:378-390 | fullscreen and back |
| Ledgers.Ledger.ChooseLayout | crates/realm-core/src/ledger.rs:393-399 | layout of the active orbit |
| Ledgers.Ledger.UndoLast | crates/realm-core/src/ledger.rs:402-413 | back to the last checkpoint |
| Ledgers.Ledger.RedoLast | crates/realm-core/src/ledger.rs:416-427 | forward again |
| LedgerTheorems.ChangeKeeps | crates/realm-core/src/ledger.rs:280-399 | every user action keeps orbits sound and the set of windows the same |
| LedgerTheorems.ReachableInv | crates/realm-core/src/ledger.rs:233-439 | every reachable ledger: windows distinct across orbits, focus absent exactly in empty orbits and in range otherwise, stow and fullscreen from their own orbit, both stacks together at most 64 deep and every snapshot of exactly the live windows |
| LedgerTheorems.UndoKeepsWindows | crates/realm-core/src/ledger.rs:402-427 | undo and redo neither resurrect a banished window nor lose a live one |
| LedgerTheorems.LiveWindows | crates/realm-core/src/ledger.rs:248-277 | one event changes the live windows only by the window it summons or banishes |
| LedgerTheorems.BanishFocus | crates/realm-core/src/ledger.rs:260-277 | banishing an unfocused window keeps the focused one if and only if that stands right after it, or right before it at the end |
| LedgerTheorems.FocusMoves | crates/realm-core/src/ledger.rs:260-277 | three windows, the last focused: banishing the first moves the focus to the second |
| LedgerEffects.FocusStepMoves | crates/realm-core/src/ledger.rs:292-305 | forward focuses the next window, backward the one before, going round; the lists stay |
| LedgerEffects.FocusStepUndone | crates/realm-core/src/ledger.rs:292-305 | a step one way and one the other leave everything as it was |
| LedgerEffects.FocusRuns | crates/realm-core/src/ledger.rs:292-305 | after any focus steps the focus stands the net number of places further, modulo n, and nothing else differs |
| LedgerEffects.FocusOutcome | crates/realm-core/src/ledger.rs:280-289 | focusing a window shows its orbit with it focused |
| LedgerEffects.SummonOutcome | crates/realm-core/src/ledger.rs:248-257 | a new window stands right after the focused one of its orbit and takes the focus; order, other orbits and a known window stay; both stacks are emptied |
| LedgerEffects.BanishOutcome | crates/realm-core/src/ledger.rs:260-277 | a window leaves all lists of its orbit alone, the others keep their order; both stacks are emptied |
| LedgerEffects.BanishFocused | crates/realm-core/src/ledger.rs:260-277 | when the focused window goes, the next takes the focus, or the new last one |
| LedgerEffects.MoveOutcome | crates/realm-core/src/ledger.rs:330-351 | the focused window arrives in the other orbit as if summoned there; here the one before it is focused; nothing else moves |
| LedgerEffects.SwitchOutcome | crates/realm-core/src/ledger.rs:354-360 | only the shown orbit changes |
| LedgerEffects.StowOutcome | crates/realm-core/src/ledger.rs:363-375 | the visibility of the focused window alone is turned over |
| LedgerEffects.FullscreenOutcome | crates/realm-core/src/ledger.rs:378-390 | fullscreen goes to the focused window or away from it, nothing else |
| LedgerEffects.LayoutOutcome | crates/realm-core/src/ledger.rs:393-399 | only the layout of the shown orbit changes, and choosing the same leaves no trace |
| LedgerTheorems.LiveHistory | crates/realm-core/src/ledger.rs:233-439 | after any history, undos and redos included, a window is live if and only if its last summons came after its last banishing |
| LedgerTheorems.UndoMovesCursor | crates/realm-core/src/ledger.rs:402-427 | undo and redo move a cursor along one timeline and change nothing on it |
| LedgerTheorems.ActionCutsFuture | crates/realm-core/src/ledger.rs:233-242 | an action cuts the future off and forgets the oldest past beyond the depth |
| LedgerTheorems.UndoRedoInverse | crates/realm-core/src/ledger.rs:402-427 | k undos and k redos restore the whole ledger, both stacks included |
| LedgerTheorems.UndoRestores | crates/realm-core/src/ledger.rs:233-242 | up to 64 checkpointed actions are taken back by as many undos |
| LedgerSwaps.LedgerRotates | crates/realm-core/src/ledger.rs:311-327 | after any swaps nothing but order and focus of the active orbit differs: the focused window is the same, stands the net number of places further, and the others are rotated by that number |
| LedgerSwaps.LedgerRestores | crates/realm-core/src/ledger.rs:311-327 | orbits and active orbit are restored if and only if the net number is a multiple of n and of n - 1 |
| LedgerSwaps.LedgerFullCircle | crates/realm-core/src/ledger.rs:311-327 | n swaps one way return the focused window to its slot; n(n - 1), or none in all, restore everything |
| LedgerSwaps.LedgerSwapsNothing | crates/realm-core/src/ledger.rs:311-327 | with fewer than two windows swaps change nothing, history included |
| LedgerSwaps.LedgerSwap | crates/realm-core/src/ledger.rs:311-327 | a swap of the ledger is that swap of its active orbit |
| UnitOrder.Search.Visit | packaging/systemd/test-session-ordering.py:61-74 | returns a closed walk, or leaves the unit and all it leads to finished; terminates |
| UnitOrder.FindCycle | packaging/systemd/test-session-ordering.py:57-80 | none if and only if no closed walk exists; what is returned is one along real edges |
| UnitOrder.NoCycleLeft | packaging/systemd/test-session-ordering.py:72-74 | a finished search leaves no cycle |
| UnitOrder.Reachable | packaging/systemd/test-session-ordering.py:83-93 | true if and only if a walk leads there |

## Left out

- Syscalls, descriptor flags, umask, paths through procfs and peer credentials: only their outcomes appear.
- The JSON and TOML codecs: decoding is a function parameter, encoding adds LF to LF-free text.
- Field values of Hello and of the fixed errors: they are the texts of a `Wire` record.
- `ControlServer` owns its connections as values, so a machine is replaced in the map rather than updated through a reference; the socket itself is not modelled.
- Iteration order of the server's connection map: loops take connections in any order, and the results do not depend on it.
- Connection.ConnectionMachine.Advance: requires that no more bytes are reported than were offered, where the source asserts it.
- EndpointOwner.Host.BindUsing: runs alone between its calls; `RecoversAmongOthers` and the safety theorems of `Endpoint` cover every interleaving of the same calls. Device, owner and mode of an entry are one flag, and an open socket's inode is not handed out again.
- Endpoint lock validation and directory creation: only that the lock is taken, busy or fails.
- 32-bit widths and floating-point rounding in layouts: arithmetic is over integers and reals with NaN. `DistributeSum` and `RoundedSharesSuffice` hold for shares rounded in any way; infinite ratios are left out.
- The remainders are sorted by an insertion function instead of the library's stable sort; `OrderOrdered` determines the result.
- Layouts.CeilRoot: the exact ceiling of the root, where the source takes it of a 64-bit float.
- Orbit identifiers, names and runes, and ledger accessors: they would only add easy members.
- Ledgers.Ledger.SwapFocused: requires the focus to be in range, as `ReachableInv` shows it always is.
- Clients.FramedTransport.ReadFrame: the operating system's replies are a finite script; a call they do not finish is `Waiting`.
- Connecting, the client's Hello exchange and error texts.
- The order in which the unit search visits successors: any order, where the source sorts.
- Parsing of unit files and the Home Manager text checks.
- The bar, colours, palettes, command-line tools, session start and record checks: drawing, font measurement, text and schema checks.
