# ChannelMessenger, modelled in Dafny

This project models `ChannelMessenger`, a point-to-point messaging endpoint. The endpoint links two browser contexts over a private message channel. It:

- performs a CONNECT handshake;
- buffers outbound messages while disconnected and flushes them in FIFO order once connected;
- can tie each sent message to a promise that resolves when an ACK arrives, or rejects with `'ACK not received'` when its timer fires;
- routes inbound envelopes by opcode (CONNECT, CLOSE, ACK, or anything else for the listeners).

There are three modules:

- `Envelope` (`envelope.dfy`) holds the wire envelope `{id, opcode, payload}` and the four opcode strings. It also builds messages, routes an inbound opcode, coerces an ACK payload to a lookup key, and applies the constructor's option defaults.
- `Acknowledgment` (`acknowledgment.dfy`) treats the acknowledgment tracker as a value. `Tracker` holds three things: the table of promises (`Pending`, `Resolved(message)` or `Rejected(reason)`), the waiters keyed by message id, and the armed timers keyed by promise handle. Sending, an ACK arriving and a timer firing are the functions `Track`, `Acknowledge` and `Expire`. `Run` applies any sequence of these events, and the lemmas below are proved about them.
- `Messenger` (`messenger.dfy`) holds the class `ChannelMessenger`. Its fields are the source's state: `connected`, `port`, `messageBuffer`, the global listener list, the error handler, and the tracker's tables. Its methods update those fields in place. Each method's `ensures` ties the new state to the `Acknowledgment` functions applied to the old state.

The host transport becomes logs that the methods append to:

- `outbox`: messages posted on the bound port;
- `handshakes`: CONNECT envelopes posted to the target context;
- `closedPorts`: ports released;
- `deliveries`: listener calls;
- `errorReports`: error-handler calls.

Message ids come from the caller. A ghost set `issued` and the precondition `id !in issued` stand for the uniqueness the identifier generator provides. A timer firing is the event `Timeout(h)`. The `.then` reaction that `close()` chains on its CLOSE message is the event `RunCloseReaction(c)`.

The flush quirk is modelled as written. `#handleConnect` re-sends each buffered message through `#send`, and `#send` calls `#ackPromise` again (src/channel-messenger.js:76, 113-115). With acknowledgment on, a buffered message therefore gets a second promise, a second timer and a second waiter under the same id, and the second waiter replaces the first. So timers are keyed by promise handle: one id can have two timers armed. `FlushOrphansBufferedHandle` states which handle an ACK resolves:

- the ACK resolves the flush's own promise;
- the promise `send` returned while disconnected has no waiter left, so it can never resolve. It can only stay pending or be rejected by its own timer.

The first timer also deletes whatever waiter is stored under the id when it fires, so it can remove the flush's waiter too.

The model also keeps these behaviours of the code:

- The promise `close()` returns resolves with the CLOSE envelope, although the chained callback names its parameter `id`: the value it receives is the message that `resolve(message)` passed on (src/channel-messenger.js:44-47, 102).
- "Connected implies a port" is not an invariant of the code. An inbound CONNECT whose event carries no channel end stores `undefined` as the port and then throws (src/channel-messenger.js:108-109). If the endpoint was connected, it stays connected with no port. `Bound()` states the implication. `HandleConnect` and `HandleMessage` re-establish it whenever a port is supplied.
- In that connected-without-a-port state, every send throws at `this.port.postMessage` (src/channel-messenger.js:71), before its promise is created. The two-state predicate `SendOutcome` states this, and `Send`, `Close`, `AckId` and `HandleMessage` pass the throw on. `close()` throws instead of returning a promise. With acknowledgment on, an inbound CLOSE or MESSAGE throws inside its ACK, so the port is not closed and no listener is called.
- An inbound CLOSE on an endpoint that was never connected first buffers its ACK (when acks are on) and then throws, because there is no port to close.
- Nothing prevents connecting again after a close: `Connect` works in any state.

## Model

| member | source | states |
|---|---|---|
| Envelope.WithDefaults | src/channel-messenger.js:13-18 | timeout defaults to 5000 and ack to false; every option the caller supplies overrides its default |
| Envelope.BuildMessage | src/channel-messenger.js:165-171 | the envelope carries the given id and payload; its opcode is the given one, or MESSAGE when none is given |
| Envelope.AckReply | src/channel-messenger.js:79-85 | an acknowledgment has opcode ACK and carries the acknowledged id as its payload |
| Envelope.RouteOf | src/channel-messenger.js:126-141 | CONNECT, CLOSE and ACK each go to their own handler, and exactly the other opcodes go to the listeners |
| Envelope.AckKey | src/channel-messenger.js:153-158 | an ACK looks up the waiter under its payload text; a null payload looks up the key "null" |
| Acknowledgment.Settle | src/channel-messenger.js:88-104 | a promise settles once: only a pending promise takes the new outcome, and every other promise is unchanged |
| Acknowledgment.Track | src/channel-messenger.js:87-105 | with ack off or for an ACK, the new promise is resolved with the message and nothing is registered; otherwise it is pending, exactly one waiter is stored under the message id (replacing an earlier one) and one timer is armed; earlier promises are unchanged |
| Acknowledgment.Acknowledge | src/channel-messenger.js:98-103 | an ACK for an id with no waiter changes nothing; otherwise the waiter is removed, its timer is cleared and its promise is resolved with its message |
| Acknowledgment.Expire | src/channel-messenger.js:93-96 | a firing timer removes the waiter stored under its message id and rejects its promise with 'ACK not received'; a cleared timer does nothing |
| Acknowledgment.TrackAll | src/channel-messenger.js:113-115 | sending a sequence of messages adds one promise per message and leaves earlier promises unchanged |
| Acknowledgment.TrackKeepsConsistent | src/channel-messenger.js:87-105 | sending keeps the tracker consistent: a promise is pending exactly when its timer is armed, and each waiter sits under its own message id |
| Acknowledgment.AcknowledgeKeepsConsistent | src/channel-messenger.js:98-103 | an inbound ACK keeps the tracker consistent |
| Acknowledgment.ExpireKeepsConsistent | src/channel-messenger.js:93-96 | a firing timer keeps the tracker consistent |
| Acknowledgment.TrackAllKeepsConsistent | src/channel-messenger.js:113-115 | flushing a whole buffer keeps the tracker consistent |
| Acknowledgment.TrackAllRegisters | src/channel-messenger.js:113-115 | after a flush, a waiter exists under an id exactly when one existed before or a flushed message with that id needs acknowledgment |
| Acknowledgment.RunKeepsConsistent | src/channel-messenger.js:87-105 | any sequence of sends, ACKs and timeouts keeps the tracker consistent |
| Acknowledgment.SettledIsFinal | src/channel-messenger.js:88-104 | once resolved or rejected, a promise keeps that outcome whatever happens later, so it never ends both ways |
| Acknowledgment.OrphanNeverResolves | src/channel-messenger.js:93-103 | a promise that no waiter refers to is never resolved by any later sequence of events |
| Acknowledgment.AckEndsWaiter | src/channel-messenger.js:98-103 | an ACK for a registered id resolves that waiter's promise with its message, removes the waiter and clears its timer, so its timeout can no longer fire |
| Acknowledgment.TimeoutEndsWaiter | src/channel-messenger.js:93-96 | every pending promise has an armed timer; when it fires the promise is rejected with 'ACK not received' and no waiter for it is left, so no later ACK resolves it |
| Acknowledgment.FlushOrphansBufferedHandle | src/channel-messenger.js:113-115 | re-sending a message whose id has a waiter makes an ACK for that id resolve the new promise, and the earlier promise is never resolved afterwards |
| Messenger.Fanout | src/channel-messenger.js:161-163 | one listener call per registered listener, in registration order, each with the same envelope |
| Messenger.PortOf | src/channel-messenger.js:128 | the channel end bound on CONNECT is the first one the event carries, if any |
| Messenger.ChannelMessenger.constructor | src/channel-messenger.js:13-27 | options get their defaults; the endpoint starts disconnected with an empty buffer, no listeners, no waiters and no error handler |
| Messenger.ChannelMessenger.Connect | src/channel-messenger.js:29-37 | posts the CONNECT envelope to the target, binds the local port, flushes the buffer into the outbox in order, then creates the CONNECT message's promise |
| Messenger.ChannelMessenger.Close | src/channel-messenger.js:39-49 | when not connected, fails with the not-connected error and sends, buffers and registers nothing; when connected without a port, the CLOSE send throws and nothing but the used id changes; otherwise posts CLOSE and returns a promise chained on CLOSE's promise |
| Messenger.ChannelMessenger.RunCloseReaction | src/channel-messenger.js:44-48 | once CLOSE's promise resolves, the port is released, the endpoint is disconnected and the chained promise resolves with the CLOSE envelope; a rejection is passed on without teardown |
| Messenger.ChannelMessenger.Send | src/channel-messenger.js:51-55 | builds the envelope from the given id, payload and opcode (MESSAGE by default), and sends it as SendOutcome says, throwing when connected without a port |
| Messenger.ChannelMessenger.OnMessage | src/channel-messenger.js:61-63 | appends the listener to the end of the list |
| Messenger.ChannelMessenger.OnError | src/channel-messenger.js:65-67 | the given handler replaces any earlier one; passing none clears it |
| Messenger.ChannelMessenger.SendMessage | src/channel-messenger.js:69-77 | when connected with a port, posts exactly the message and leaves the buffer unchanged; when not connected, appends exactly the message to the buffer and posts nothing; in both cases the message's promise is then created; when connected without a port, throws and changes nothing |
| Messenger.ChannelMessenger.AckId | src/channel-messenger.js:79-85 | with ack off, changes nothing; with ack on, sends one ACK carrying the acknowledged id, which gets no waiter; it throws exactly when ack is on and the endpoint is connected without a port |
| Messenger.ChannelMessenger.AckPromise | src/channel-messenger.js:87-105 | the tables change as Acknowledgment.Track says, and the tracker stays consistent |
| Messenger.ChannelMessenger.HandleConnect | src/channel-messenger.js:107-116 | binds the port and marks the endpoint connected before flushing; a missing port throws after being stored, and nothing else changes |
| Messenger.ChannelMessenger.Flush | src/channel-messenger.js:113-115 | the buffer ends empty and the outbox gains exactly the buffered messages, each once, in their original order; each one is promised a second time |
| Messenger.ChannelMessenger.HandleClose | src/channel-messenger.js:118-121 | releases the port and marks the endpoint disconnected; with no port it throws and changes nothing |
| Messenger.ChannelMessenger.HandleMessage | src/channel-messenger.js:123-142 | an inbound ACK only reaches the tracker and is never acknowledged or delivered; CONNECT flushes the buffer before posting its ACK, and without a port throws with nothing else changed; CLOSE posts its ACK while still connected and then disconnects; every other opcode is acked (when acks are on) and then given to each listener in order; an ACK that throws stops the teardown or the delivery; the used ids grow by the reply id exactly when an ACK is sent |
| Messenger.ChannelMessenger.HandleError | src/channel-messenger.js:144-151 | the event data goes to the error handler if one is registered, and is dropped otherwise |
| Messenger.ChannelMessenger.HandleAck | src/channel-messenger.js:153-159 | the tables change as Acknowledgment.Acknowledge says for the payload's key |
| Messenger.ChannelMessenger.Timeout | src/channel-messenger.js:93-96 | the tables change as Acknowledgment.Expire says for that timer's promise |
| Messenger.ChannelMessenger.ProcessMessage | src/channel-messenger.js:161-163 | the delivery log gains exactly Fanout of the listeners with the envelope |

## Left out

- The identifier generator (src/util/unique-id.js) draws on random bytes and a clock. Ids are parameters of the methods, and their uniqueness is a precondition.
- Opening the channel, the target and origin arguments of `connect`, and binding `onmessage`/`onmessageerror` on the port are host APIs. Their effect is the `port` field, and the posts are the `outbox` and `handshakes` logs.
- `waitForConnection` only registers the endpoint's handler with the host; inbound events are calls of `HandleMessage` and `HandleError`.
- Timer durations and promise scheduling are not modelled. `options.timeout` is stored but never consulted, because a timer firing is the explicit event `Timeout`. Microtask order is reduced to the explicit event `RunCloseReaction`.
- What listener and error-handler callbacks do, and any exception they throw, is outside the model; their calls are recorded in `deliveries` and `errorReports`.
- The `.catch(this.#handleError)` on the promises created during the flush is left out. It passes an unbound private method, so what it does at run time is outside this model.
- The error handler is modelled as a function or absent. A falsy non-function value passed to `onError` (`0`, `""`) would also disable it, and a truthy non-function value would throw when called; neither case is modelled.
- Payloads are modelled as `null` or a string. An option key present with the value `undefined` is treated like an absent key.
- An inbound event whose data is not an envelope is not modelled.
- ACK payloads that name inherited object properties (such as `toString`) are not modelled; those payloads find a "waiter" in the plain-object table.
