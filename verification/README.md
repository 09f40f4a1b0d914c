# The relay client and its authenticated data, verified

This project models two parts of the repository in Dafny and proves what they promise.

**The relay client** (`relay-client/src`). `Actor.dfy` is the actor task: the class `RelayActor` updates the two
pending maps, the heartbeat flag and the outbound queue in place, with the loop of `connect`, the biased select and the
receive loop; each method is proved against a function on values (`OnAck`, `OnPayload`, `OnMsg`, `OnAll`).
`Protocol.dfy` turns these functions into a state machine: concurrent callers, the mailbox, sleeping timers, the actor,
and the loop that dials, serves and redials. `Forwarder.dfy` is the task that moves items from the queue that outlives
connections into a connection's buffer of four. `Relay.dfy` joins the two with a server that may do anything except
acknowledge a sequence number it never received. Payloads and heartbeats carry such a number (proto/relay.proto:27-29
and 75-80); the server is a parameter and acknowledges both (`AcksNumbered`) or payloads only (`AcksPayloads`). A run is
any sequence of events, and an event that the state does not allow changes nothing, so a statement about every run
covers every interleaving of sends, asks, replies, timers, responses, losses, failures, reconnects and stops. The
invariants are in `Provenance`, `Waiters`, `Retries`, `Attempts`, `Mailbox` and `Firings`; the theorems about runs are
in `Guarantees`, `Firings`, `Timers`, `Budgets`, `Routing`, `Answers`, `Progress`, `Relay` and `Openings`; `History` and
`Contents` read off the events of a run what its calls, its mailbox and its requests are, field by field; `Witnesses`,
`SharedKey`, `Collision` and `Early` hold the runs that show which promises the code does not keep, built from the parts
in `Scenes`; `Connection`, `RunLoop` and `ClientHandle` tie the loops and the callers' code to the state machine.

**The authenticated data** (`rust/src/lib.rs`). `AppData.dfy` has the three hash formats, as loops that feed a hasher
and as functions, a parser for the length-prefixed ones, and `verify`. `OrbData.dfy` has the proto3 encoding of the
Orb's record (the sections "Base 128 Varints" and "Length-Delimited Records" of the Protocol Buffers Encoding
specification), a decoder that skips unknown fields, and the two `verify` functions around it.

Every call of `send`, `ask` or `reply` has a number, and mailbox messages, timers and queued items carry the number of
the call they belong to. No branch of the model reads these numbers; they say in the theorems which copy is whose.

## Where the code differs from what it says

- `max_message_attempts` is documented as the way to configure retries (relay-client/src/lib.rs:76). A retry timer that
  finds its message pending sets up the next timer with the configured maximum less one, and not with its own budget
  less one (relay-client/src/actor.rs:287-294 and 323-331). The state machine has both handovers; the program is
  `MaximumLessOne`. For a message that is alone under its key, the bound of n retransmissions holds in every run exactly
  when n is 0 or 1, and with the other handover for every n (`Budgets.BoundAloneExact`). For n of two or more, and
  without a maximum, every number of retransmissions is reached, and the branch that gives up is never taken for a
  message that asked for delivery (`Guarantees.RetryNeverStops`).
- Two at-least-once replies to one received message, or such a reply and a `send` with the same number, wait under one
  key (relay-client/src/actor.rs:230). The later wait overwrites the entry, but both timers stay and both retransmit it.
  So for messages in general the bound holds exactly when n is 0, whichever budget is handed over
  (`Budgets.BoundAllExact`); with k calls under the key and n of 0 or 1 there are at most n times k retransmissions
  (`Budgets.RetransmissionsShared`).
- `send` with at-least-once delivery is documented to confirm that the server received the message
  (relay-client/src/lib.rs:361). A `reply` registers its ack under the peer's sequence number, from the peer's own
  counter (relay-client/src/lib.rs:156), so an ack for the reply can settle a `send` that was never delivered. Every
  heartbeat carries the number 0 (relay-client/src/actor.rs:337-348), which is also the number of a client's first
  message, so if the server acknowledges heartbeats, the ack of one can settle an undelivered first `send`
  (`Collision.HeartbeatUnsound`). Acks are sound for exactly the sequence numbers that no reply may use, without 0 when
  the server acknowledges heartbeats (`Collision.AcksSoundExact`). The repository's test server does not
  (relay-client/tests/heartbeat.rs:21-24); what holds of such a server is said of `AcksPayloads`.
- A call's message and its wait are posted one after the other (relay-client/src/lib.rs:388-402 and 432-446). A response
  that is handled in between does not count: a call has its answer exactly when a matching response is handled after its
  wait (`Answers.AnsweredExactly`). A reply that comes too early goes to the client, and an `ask` that did not ask for
  delivery is then never sent again (`Early.EarlyReply`); an ack that comes too early is lost (`Early.EarlyAck`).
- The queue outlives connections, and a connection's request is queued like any other item
  (relay-client/src/actor.rs:440-464). So a stream begins with the connection's own request exactly when the queue was
  empty when it was dialed (`Openings.FirstItem`), and else with a leftover, perhaps the request of a former connection
  (`Openings.StaleRequest`).
- `verify` of the app data accepts version 0 records too, whose fields are hashed without lengths. Next to every record
  of version 1 or 2 there is one of version 0 with the same verdicts (`AppData.VersionDropped`), so what is bound is the
  record given that its version is not 0.
- `connect` returns Ok when the stream ends before any `ConnectResponse` (relay-client/src/actor.rs:466-493); the
  heartbeat starts then too, and the budget counts the failure one step later.
- A timer that gives up leaves its entry pending (relay-client/src/actor.rs:272-278): a late ack or reply still settles
  the call (`Guarantees.PendingLeaves`).
- The attempt count is never reset by a successful connection (relay-client/src/actor.rs:89-131), so the budget is one
  for the whole run (`Guarantees.ConnectionBudget`).

## Model

| member | source | states |
|---|---|---|
| Relay.SendOkMeansReceived | relay-client/src/lib.rs:361-411 | In every run with an honest server, through any losses and reconnects, a `send` settled by an ack had its own payload received by the server: from the client's own id, type and namespace, to the message's target, with its bytes, under the call's number; if no reply uses that number, at most 2^64 tickets were drawn, and the server acknowledges payloads only or the number is not 0 |
| Relay.AckedMeansDelivered | relay-client/src/actor.rs:384-388 | The same for any acknowledged call, reply included, whose sequence number no other call and no acknowledged heartbeat uses |
| Relay.SendUnshared | relay-client/src/lib.rs:385 | With at most 2^64 tickets the atomic counter keeps the sequence numbers of `send` and `ask` apart, so that only a reply can share one |
| Collision.SharedSeqUnsound | relay-client/src/lib.rs:156 | For every sequence number q, a run, after q messages that were sent and received, with replies under q only, in which a `send` under q is settled by the ack of a reply while its own payload never reached the server |
| Collision.HeartbeatUnsound | relay-client/src/actor.rs:337-348 | A run without replies in which the ack of a heartbeat settles the first `send`, whose payload never reached the server |
| Collision.AcksSoundExact | relay-client/src/lib.rs:112-167 | For every set of numbers that replies may use and either server: the Ok of a `send` numbered q implies delivery in all runs if and only if q is not in the set and, when the server acknowledges heartbeats, not 0 |
| Relay.AtMostOnceOnWire | relay-client/src/lib.rs:74-81 | With at most 2^64 tickets, a message that did not ask for delivery is on all the streams of a run together at most once, whatever timers fire and connections break |
| Relay.OutboundConserved | relay-client/src/actor.rs:457-464 | In every run each item the actor pushed is in exactly one of queue, hand, buffer, stream or lost; what the streams took, joined in connection order, is a subsequence of the pushes; each connection loses at most five items |
| Openings.FirstItem | relay-client/src/actor.rs:440-464 | In every run, however it goes on after a dial: what the connection takes is a consecutive part of the pushes, starting with its own request if and only if the queue was empty at the dial; the first item on its stream is the first left over in the queue, or its own request |
| Openings.StaleRequest | relay-client/src/actor.rs:440-464 | For any two tokens, a run in which the second stream begins with the first connection's request |
| Relay.CoreRun | relay-client/src/actor.rs:84-135 | With outbound path and server attached the client runs exactly its own machine, so all theorems about its runs carry over |
| Guarantees.WaitersConserved | relay-client/src/actor.rs:225-268 | In every reachable state the channel of a waiting caller is in exactly one of mailbox, pending map, or settled (acked, answered, overwritten, released at the end), once; a caller that does not wait has none |
| Guarantees.PendingLeaves | relay-client/src/actor.rs:270-388 | A pending entry changes only by a matching response, a wait under the same key, or the end of the actor: never by a timer giving up and never by a reconnect |
| Guarantees.CopiesIdentical | relay-client/src/actor.rs:280-284 | Every copy of a message that is ever pushed, first or retransmitted, is the same request; for `send`, `ask` and a retriable reply its fields are the client's own id, type and namespace, the message's target and bytes, and the call's sequence number |
| Messages.ReplyCopiesAgree | relay-client/src/lib.rs:117-158 | A reply goes from the client's own identity to the sender of the message, with its number and the given bytes; its retransmission, rebuilt through the checked entity type, equals that first copy field for field, and exists exactly for the four known entity types |
| Contents.RequestsSay | relay-client/src/lib.rs:455-477 | In every run each request on the outbound queue, by its fields: first copies and retransmissions are from the client's own id, type (0 to 3) and namespace, to the entity and with the bytes their caller gave, under the call's number; heartbeats carry 0; anything else is a connection request of the client itself |
| Contents.HellosSay | relay-client/src/actor.rs:440-455 | In every run the connection requests are one for each stream opened, in order, each from the client itself and with the token of its dial |
| Contents.HeartbeatsSent | relay-client/src/actor.rs:337-357 | In every run the heartbeat requests on the queue, all numbered 0, are as many as the heartbeat messages the actor has taken |
| History.CallsBegun | relay-client/src/lib.rs:384-453 | In every run the calls are exactly those begun while a handle lives (a reply only to a received message), in order, each with its caller's message; call for call the tickets of `send` and `ask` count up and give the number modulo 2^64, while a reply draws none and has its message's number |
| History.MailboxIs | relay-client/src/actor.rs:84-135 | In every run what was posted and what was taken are what the events say: callers' posts, fired timers and responses while `run` has not returned, nothing afterwards; the mailbox is the difference; handles live until the last is dropped |
| Guarantees.AtMostOnceQueued | relay-client/src/actor.rs:253-256 | With at most 2^64 tickets, a call that did not ask for delivery is queued at most once |
| Guarantees.SettledForGood | relay-client/src/actor.rs:364-388 | A settled call is settled by that one note for ever, and no further copy of its message is ever pushed |
| Guarantees.OneTimerPerKey | relay-client/src/actor.rs:225-335 | A key registered by one call has at most one retry timer, asleep or in the mailbox, and exactly one while its entry is pending and the chain has not given up |
| Firings.CopiesFollowFirings | relay-client/src/actor.rs:270-335 | While the actor runs, for a call alone under its key whose wait was taken: the copies of its message pushed are exactly as many as its timers fired, and one more while its next timer exists |
| Guarantees.RetryNeverStops | relay-client/src/actor.rs:287-296 | In the program with a maximum of two or more, or without one, a pending at-least-once message always has its timer and never gives up: the exhaustion branch is unreachable |
| Guarantees.TimerBudgets | relay-client/src/actor.rs:233-238 | The only budgets timers ever carry: the maximum, the maximum less one (saturating), and zero for an `ask` that did not ask for delivery |
| Timers.TimersExact | relay-client/src/actor.rs:230-297 | In every run the budget of each retry timer is exact: the configured maximum until its chain has pushed a copy, the maximum less one from then on, and zero for an `ask` that did not ask for delivery; with the other handover the maximum less the copies pushed |
| Budgets.RetransmissionsShared | relay-client/src/actor.rs:225-297 | When every copy costs an attempt (a maximum of 0 or 1, or timers that count down), a message is retransmitted in any run at most the maximum times the number of calls registered under its key |
| Budgets.RetransmissionsAlone | relay-client/src/actor.rs:270-297 | Under the same condition a message alone under its key is retransmitted at most the maximum times |
| Budgets.CountingDownKeepsBound | relay-client/src/actor.rs:270-297 | In every run of the actor whose retry hands on its incoming budget less one, for every maximum n, a message alone under its key is retransmitted at most n times |
| Budgets.BoundAloneExact | relay-client/src/actor.rs:287-294 | For messages alone under their keys the bound holds in every run if and only if timers count down or n is 0 or 1; so of the program exactly for 0 and 1 |
| Budgets.BoundAllExact | relay-client/src/actor.rs:225-297 | For all messages the bound holds in every run if and only if n is 0, with either handover |
| SharedKey.OneTooMany | relay-client/src/actor.rs:230-240 | For every maximum n of 1 or more under which copies cost attempts: a run in which two replies share a key and one message is retransmitted n + 1 times |
| Witnesses.AnyNumberOfRetransmissions | relay-client/src/actor.rs:287-294 | When timers never carry zero (no maximum, or the program with two or more), for every k a run with exactly k retransmissions of one message |
| Witnesses.AnyNumberInBudget | relay-client/src/actor.rs:280-296 | When every copy costs an attempt, for every k up to the maximum a run with exactly k retransmissions of one message |
| Guarantees.InboundOrder | relay-client/src/actor.rs:161-180 | The responses handled, then those in the mailbox, are all responses read from any stream (but those `connect` consumed) in the order they were read: early responses are never overtaken |
| Guarantees.StopCuts | relay-client/src/actor.rs:107-108 | When `run` returns Ok, the messages taken are exactly those up to the first Stop in posting order, over all connections, and the first copies pushed are those of the `Send`s before it |
| Guarantees.OneHeartbeat | relay-client/src/actor.rs:151-159 | From the first established connection until the actor ends there is exactly one heartbeat timer, through every reconnect and offline period |
| Guarantees.ConnectionBudget | relay-client/src/actor.rs:89-131 | The attempt count is one more than the failures counted; with limit n the run ends with an error exactly at failure count max(1, n); without a limit it never does. `RunLoop.FailuresCounted` says what the failures are |
| Progress.StepsBounded | relay-client/src/actor.rs:91-131 | With a finite limit, the effective steps of the actor task are bounded by the limit, the Reconnects posted, the responses read and the messages posted |
| Progress.RestsExactly | relay-client/src/actor.rs:161-175 | Until `run` has returned, the task can do something without the stream if and only if it is neither in the handshake nor in the select with an open stream and an empty mailbox |
| Progress.Returns | relay-client/src/actor.rs:91-131 | With a finite limit, finitely many Reconnects and boundedly many messages and responses per connection, `run` returns in every infinite schedule that keeps the task running and in which every wait for the stream ends |
| Routing.RoutedOnce | relay-client/src/actor.rs:192-204 | In every run the payloads handled, with source and body present, are handed on each exactly once, in order, each with the source, the number and the bytes of its payload |
| Routing.RoutedArrived | relay-client/src/actor.rs:192-204 | Whatever is handed to an ask or to the client came off a stream: some payload read has that source, number and bytes |
| Routing.RepliesMatch | relay-client/src/actor.rs:364-371 | An ask is answered at most once, by what a payload that arrived brings (source, number, bytes), from the entity asked and under the ask's sequence number |
| Routing.AskTakesFirst | relay-client/src/actor.rs:242-250 | Once an ask is pending, with at most 2^64 tickets in the whole run, the first matching payload answers it; every later one goes to the client while a handle lives, and to no ask in any case; together they are the matching payloads handled since, in order; until the first comes the ask stays pending, unless the actor ends |
| Answers.AnsweredExactly | relay-client/src/actor.rs:225-268 | In every run a call alone under its key has its ack or reply if and only if a matching response was handled after its wait, and it is pending exactly from the wait to that response or the end of the actor |
| Early.EarlyReply | relay-client/src/lib.rs:428-453 | For every `ask` without delivery and every body: a run in which its message was received and the reply came before the wait and went to the client, and the ask is pending with no timer left |
| Early.EarlyAck | relay-client/src/lib.rs:384-411 | A run in which the server received and acknowledged a message before its wait was taken: the ack is lost and the caller waits on |
| Actor.RelayActor.HandleMsg | relay-client/src/actor.rs:185-362 | Applies exactly the outcome that `OnMsg` specifies to the maps, the outbound queue, the timers and the callers' channels, with its status; what it does to payloads is stated by fields in `Actor.PayloadHanded` |
| Actor.PayloadHanded | relay-client/src/actor.rs:192-204 | A payload with source and body is handed to exactly one receiver with its source, number and bytes; any other payload does nothing |
| Actor.RelayActor.HandlePayload | relay-client/src/actor.rs:364-382 | Removes and answers the pending ask under (source, sequence number); otherwise hands the payload to the client, or fails when no client is left |
| Actor.RelayActor.HandleAck | relay-client/src/actor.rs:384-388 | Removes and settles the waiter under the sequence number, if there is one |
| Actor.RelayActor.Drain | relay-client/src/actor.rs:466-491 | Reads up to the first deciding response; all earlier ones are posted to the mailbox in order; a stream that ends undecided counts as established |
| Actor.RelayActor.StartHeartbeat | relay-client/src/actor.rs:151-159 | The first connection, and no later one, starts the heartbeat timer |
| Actor.RelayActor.Select | relay-client/src/actor.rs:161-175 | The head of the mailbox when there is one; the stream only when the mailbox is empty |
| Actor.RelayActor.Connect | relay-client/src/actor.rs:439-493 | Queues exactly one connection request, then posts the early responses in order; Ok, ended or refused as the first deciding response says |
| Actor.RelayActor.MainLoop | relay-client/src/actor.rs:137-181 | A whole connection: a refused one changes only the queue and the mailbox; on an established one the heartbeat starts if it never did, and the old mailbox, the early responses and the input are served in this order up to the first message that ends it, whenever the last client handle is dropped |
| Actor.RelayActor.Serve | relay-client/src/actor.rs:151-181 | The heartbeat starts if it never did, and the mailbox and then the input are handled in order up to the first message that ends the connection |
| Actor.RelayActor.Receive | relay-client/src/actor.rs:161-180 | For any mailbox, any sequence of posts, responses and a break, and any moment at which the last client handle is dropped: handles exactly the mailbox followed by the input before the break, in order, up to the first message that ends the loop, which it leaves with that status |
| Connection.ReceiveLoop | relay-client/src/actor.rs:161-180 | On a live connection, for every interleaving of callers, timers, responses, the break, the drop of the last client handle and the actor, the state machine's state, queue, notes, timers and mailbox are what the receive loop is proved to make of that input |
| Connection.ConnectLoop | relay-client/src/actor.rs:466-491 | The state machine reading early responses does exactly what the loop of `connect` does |
| Connection.OneConnection | relay-client/src/actor.rs:137-181 | For every handshake (accepted, refused, ended) and every run on the connection that follows, the state machine does exactly what `main_loop` is proved to do |
| RunLoop.RunConnections | relay-client/src/actor.rs:91-131 | Over the results of successive connections: Ok at the first Stop, an error at failure number max(1, n) and no earlier, otherwise still running; Reconnects cost nothing |
| RunLoop.RunsToOnce | relay-client/src/actor.rs:91-131 | Any results bring the loop to one verdict only, after one number of connections |
| RunLoop.LoopAgrees | relay-client/src/actor.rs:91-131 | In every run the loop, fed with the results that phases and events give (an error of a failed dial, a refused or failed handshake, an ended or broken stream or an undeliverable payload; a Stop; a Reconnect), uses them all and returns exactly when the state machine is over, with the same verdict |
| RunLoop.FailuresCounted | relay-client/src/actor.rs:115-131 | In every run the failures are exactly those error results, and with limit n the run has ended with an error if and only if there are max(1, n) of them; without a limit it never does |
| RunLoop.DialsFail | relay-client/src/actor.rs:115-131 | k failed dials in a row from the start: with limit n the run ends with an error on dial max(1, n) and not before; without a limit it dials on for every k |
| RunLoop.PhasesFollow | relay-client/src/actor.rs:91-181 | In every reachable state, for every event: a dial opens the stream, its acceptance or its end establishes it, each result ends it, and nothing else changes the phase; a Stop and the error that uses up the attempts end the run, every other result leads to the next dial |
| ClientHandle.Client.FetchAdd | relay-client/src/lib.rs:385 | Returns the counter and advances it, wrapping at 2^64 |
| ClientHandle.Client.SendMsg | relay-client/src/lib.rs:384-411 | Draws one ticket and posts the `Send` of a payload with the client's identity, the message's target and bytes and the counter's value, and, if delivery was asked for, the wait under the same number; returns Ok at once without it, fails if the actor had ended before either post, and otherwise ends as its channel says |
| ClientHandle.Client.AskMsg | relay-client/src/lib.rs:428-453 | Draws one ticket, posts the `Send` of such a payload and the wait for the reply under its number, fails where the actor had ended, and otherwise gives the body that its channel brings |
| ClientHandle.Client.Reply | relay-client/src/lib.rs:112-167 | Draws no ticket; posts a first copy from the client itself to the sender under the number of what it sent and, if delivery was asked for, the wait; with the actor alive and its channel not closed it fails, after the first copy, exactly when delivery was asked for and the peer's entity type is unknown |
| ClientHandle.CallerAgrees | relay-client/src/lib.rs:384-453 | A caller's steps in the state machine post exactly what these methods post and end at the same stage, whatever other callers, timers and the actor do between its two posts, its end included |
| ClientHandle.ResultExactly | relay-client/src/lib.rs:399-452 | In every run a waiting call gives its caller Ok exactly when its ack or reply is among the notes, an `ask` with the bytes of a payload that arrived from the entity asked under the ask's number; it fails exactly when it could not post or its channel was closed; it waits exactly while its channel is in the mailbox or pending |
| ClientHandle.PlainResult | relay-client/src/lib.rs:384-411 | In every run a `send` or `reply` without delivery gives its caller Ok exactly when its message was posted, and fails or has not tried yet otherwise |
| Forwarder.Task.Resume | relay-client/src/flume_receiver_stream.rs:22-38 | The task's loop, run until it ends or waits, takes its connection and the shared queue exactly where `Settle` says |
| Forwarder.SettleSteps | relay-client/src/flume_receiver_stream.rs:15-44 | What the loop does is a sequence of the single steps that the run theorems are about |
| Forwarder.SettleFills | relay-client/src/flume_receiver_stream.rs:22-38 | On an open connection the buffer gets the first four items in line, the hand the fifth, and the queue keeps the rest |
| Forwarder.SettleCancelled | relay-client/src/flume_receiver_stream.rs:22-38 | Once cancelled, on a connection still open, the task takes nothing more from the queue: what it holds goes to the buffer and it ends, or it waits with it while the buffer is full |
| Forwarder.SettleClosed | relay-client/src/flume_receiver_stream.rs:26-36 | On a closed connection the task loses one item at most before it ends, and none when it was cancelled with empty hands |
| Forwarder.WireOkStep | relay-client/src/flume_receiver_stream.rs:15-44 | Every step of task, stream and network keeps: what a connection took is what it sent, lost, buffers and holds, in this order, with a buffer of at most four and at most five items lost |
| Forwarder.EveryItemOnePlace | relay-client/src/actor.rs:457-464 | Multiset conservation of queued items over queue, hands, buffers, streams and losses |
| Forwarder.SentInOrder | relay-client/src/flume_receiver_stream.rs:26-36 | The streams joined in connection order are a subsequence of the queue's history |
| Forwarder.LossBounded | relay-client/src/actor.rs:457-464 | Each connection loses at most its buffer and one item |
| Forwarder.FiveLost | relay-client/src/actor.rs:457-464 | The bound on losses is reached: of five queued items or more a new connection can lose the first five, and the queue keeps the rest |
| AppData.ComputeHash | rust/src/lib.rs:225-258 | The loop's output is the output stream, cut to length, of the functional version 2 encoding; the two errors and the panic come on exactly their conditions |
| AppData.HashExactly | rust/src/lib.rs:225-258 | For every record `hash` gives one of its two errors, a panic or bytes of the output stream, each on exactly its condition on version, device key and field lengths |
| AppData.ComputeHashV1 | rust/src/lib.rs:261-284 | The same for version 1 |
| AppData.PrefixedBytes | rust/src/lib.rs:225-284 | What versions 1 and 2 hash, spelled out: custody key, identity commitment, os, os version and, for version 2, device key, each after its length, then the two version words |
| AppData.ComputeLegacyHash | rust/src/lib.rs:291-312 | The loop's output is the output stream for commitment, custody key, os version and os joined, followed by the pcp version unless it is 2 |
| AppData.LegacyByPosition | rust/src/lib.rs:286-312 | The legacy bytes by position: each field at its offset, then nothing for pcp version 2 and otherwise four bytes that read as it |
| AppData.Verify | rust/src/lib.rs:201-219 | Computes the verdict of `VerifyOf` through the three routines; the version 1 routine's assertion never fires |
| AppData.AcceptedExactly | rust/src/lib.rs:201-219 | `verify` accepts exactly the non-empty prefixes of the output stream of a verifiable record |
| AppData.VerdictExactly | rust/src/lib.rs:201-219 | For every record and hash, the exact condition of each verdict of `verify`: every error, the panic and acceptance |
| AppData.ShorterHashAccepted | rust/src/lib.rs:201-211 | An accepted hash may be cut to any non-empty prefix and is still accepted |
| AppData.SameVerdicts | rust/src/lib.rs:201-219 | Two verifiable records get equal verdicts from every hash function and hash if and only if the same bytes are hashed for them |
| AppData.WordRoundTrip | rust/src/lib.rs:249-254 | The little-endian bytes of a 32-bit word read back as the word |
| AppData.BytesRoundTrip | rust/src/lib.rs:249-254 | Any four bytes are the little-endian form of the word they read as |
| AppData.ParseInverts | rust/src/lib.rs:225-284 | Parsing the bytes hashed for any verifiable record of version 1 or 2 gives the record back |
| AppData.ParseExact | rust/src/lib.rs:225-284 | Whatever the parser accepts is exactly what is hashed for the record it returns |
| AppData.PreimageInjective | rust/src/lib.rs:225-284 | Hashed bytes of versions 1 and 2 are equal if and only if the records are, across versions too |
| AppData.AcceptedTogether | rust/src/lib.rs:201-219 | Two records of version 1 or 2 accepted against one hash are equal, or an explicit collision at the hash's length |
| AppData.VersionDropped | rust/src/lib.rs:201-219 | Every verifiable record of version 1 or 2 has a version 0 record with the same verdicts from every hash function, so the hypothesis on the version is necessary |
| AppData.AloneExactly | rust/src/lib.rs:201-312 | Over all versions together, a verifiable record shares its hashed bytes with another one if and only if they are not empty |
| AppData.LegacyLoss | rust/src/lib.rs:286-312 | Legacy bytes are equal if and only if commitment, custody key, os version and os joined agree and the pcp versions do, or a default record's joined fields end in the other's pcp word |
| AppData.ResplitSameVerdict | rust/src/lib.rs:201-219 | Two version 0 records get equal verdicts from every hash function and hash if and only if they are re-splittings of each other in this sense |
| AppData.PcpWordAbsorbed | rust/src/lib.rs:306-308 | Every version 0 record with another pcp version has a different record, with the default one and the pcp word in its os, that gets the same verdicts |
| OrbData.DecodesBack | rust/tests/ipcp_pairing_messages.rs:89-125 | Decoding the proto3 encoding gives the record back, also with any well-formed unknown fields after it |
| OrbData.EncodedBytes | proto/common/v1/orb.proto:68-76 | The encoding by its key bytes: 0x08 version, 0x12 key, 0x1a Orb nonce, 0x22 request nonce, in this order, defaults left out |
| OrbData.DomainReads | rust/src/lib.rs:80-81 | The domain separator is the text that the source names, byte for byte |
| OrbData.VarintReads | proto/common/v1/orb.proto:68-76 | Every 64-bit varint reads back, within ten bytes |
| OrbData.VarintDigits | proto/common/v1/orb.proto:68-76 | A varint's base-128 digits have its value, every byte but the last is marked as continued, and none is superfluous |
| OrbData.SignedBytesInjective | rust/src/lib.rs:138-142 | The domain-prefixed bytes that are signed are equal if and only if all four fields are |
| OrbData.OrbExactly | rust/src/lib.rs:132-158 | For every record, signature and expected request nonce, the exact condition of each verdict of the Orb data's `verify`: the four checks in their order and acceptance |
| OrbData.AcceptedWasIssued | rust/src/lib.rs:132-158 | With a key that signed only issued records, `verify` accepts only issued records, of the current version, with a 32-byte nonce and exactly the expected request nonce |
| OrbData.AnnouncementExactly | rust/src/lib.rs:168-192 | For every announcement, hash and Orb data, the exact condition of each verdict: accepted if and only if app data is there and matches the hash, an iPCP payload comes with protocol version 4 or later, and from that version on the Orb's nonce is echoed if Orb data is given; the errors in the order of the checks |
| OrbData.AnnouncementsAgree | rust/src/lib.rs:168-192 | Two announcements accepted against one QR hash, version 1 or 2, carry the same app data or a collision; each echoes the Orb's nonce from protocol version 4 on, and with an iPCP payload |
| OrbData.VersionZeroBesides | rust/src/lib.rs:168-192 | Next to every accepted announcement of version 1 or 2 there is an accepted one with other app data, of version 0, without a collision |

## Left out

- Relay.SendOkMeansReceived: assumes at most 2^64 tickets, as the counter wraps around, and that no reply and no
  acknowledged heartbeat shares the sequence number, which `Collision.AcksSoundExact` shows to be necessary.
- Guarantees.OneTimerPerKey: speaks of keys that one call registered; two calls share a key only through replies or
  after 2^64 tickets.
- AppData.AcceptedTogether: collision freedom is not assumed; the alternative is an explicit collision.
- AppData.PcpWordAbsorbed: is about bytes; the absorbing record is valid text when the bytes of the pcp word are, as
  they are for every version below 128.
- Progress.StepsBounded: an empty response envelope is a step without effect and is not counted.
- Forwarder.WireOkStep: an item counts as sent when the stream takes it; that it may be lost on the way to the server is
  the difference between `sent` and `arrived`, which is not bounded.
- Progress.Returns: nothing is claimed for a stream that stays open and silent; then the source waits for ever too.
- Time: durations and sleeps. A timer may fire, and a connection attempt may time out, at any step.
- TLS, endpoint validation, gRPC, metadata headers and keep-alive: a connection is an outbound consumer that takes items
  and closes, and an arbitrary inbound sequence.
- The internals of the channels and of the runtime: unbounded queues and the bounded buffer are first-in first-out, and
  a poll of a select, an increment of the counter and a step of the actor are atomic.
- What becomes of messages that are still in the mailbox when the actor has ended, and of a call whose caller drops its
  future: such a call stays where it was.
- Authentication variants: the token is a parameter of the dial event, and `Auth::Zkp`, which is unimplemented in the
  source, has none.
- Panics and abortion of the actor task.
- BLAKE3 and P-256: the extendable-output function and the signature check are parameters.
- Text encoding: the strings of the app data are their bytes, so the statements cover more inputs than valid text.
- Protobuf groups, and all messages other than `OrbAuthenticatedData`.
- `Display`, `Debug` and JSON forms, builders, generated code and the test server.
