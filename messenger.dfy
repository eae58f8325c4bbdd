/** The messenger endpoint: connection state, the outbound buffer, inbound
    routing by opcode, listener fan-out and the acknowledgment tracker's
    tables, updated in place. The host transport is reduced to logs of what
    was posted, closed and delivered. */
module Messenger {
  import opened Envelope
  import opened Acknowledgment

  type ListenerId = nat
  type HandlerId = nat

  /** One call of a global listener with an envelope. */
  datatype Delivery = Delivery(listener: ListenerId, message: Message)

  /** One call of the error handler with the failed event's data. */
  datatype ErrorReport = ErrorReport(handler: HandlerId, data: Value)

  /** An inbound transport event: the envelope and the channel ends it carries. */
  datatype Inbound = Inbound(data: Message, ports: seq<PortId>)

  /** The promise `close()` returns, chained on the CLOSE message's promise. */
  datatype ClosePromise = ClosePromise(source: Handle, outcome: Outcome)

  /** How a call ends: normally, or with an exception thrown to its caller. */
  datatype Completion = Normal | Threw(error: string)

  datatype Result<T> = Ok(value: T) | Err(error: string)

  const NOT_CONNECTED: string := "Cannot close connection. Not connected."

  /** What the host raises when the endpoint uses a port it does not have. */
  const NO_PORT: string := "TypeError: port is undefined"

  /** The listener calls one inbound envelope causes, in registration order. */
  function Fanout(ls: seq<ListenerId>, m: Message): (r: seq<Delivery>)
    ensures |r| == |ls|
    ensures forall i :: 0 <= i < |ls| ==> r[i] == Delivery(ls[i], m)
  {
    if ls == [] then [] else [Delivery(ls[0], m)] + Fanout(ls[1..], m)
  }

  /** The first channel end an inbound event carries, if any. */
  function PortOf(ev: Inbound): (p: Option<PortId>)
    ensures p.Some? <==> |ev.ports| > 0
    ensures p.Some? ==> p.value == ev.ports[0]
  {
    if |ev.ports| > 0 then Some(ev.ports[0]) else None
  }

  class ChannelMessenger {
    const options: Options

    var connected: bool
    var port: Option<PortId>
    var messageBuffer: seq<Message>
    var globalListeners: seq<ListenerId>
    var errorHandler: Option<HandlerId>

    // the acknowledgment tracker's tables
    var promises: seq<Outcome>
    var ackWaiters: map<Id, Waiter>
    var timers: map<Handle, Id>
    var closePromises: seq<ClosePromise>

    // what the endpoint did to the outside world
    var outbox: seq<Message>          // posted on the bound port
    var handshakes: seq<Message>      // posted to the target context by connect
    var closedPorts: seq<PortId>      // ports released
    var deliveries: seq<Delivery>     // global listener calls
    var errorReports: seq<ErrorReport>

    /** Every id this endpoint has used for a message it built. */
    ghost var issued: set<Id>

    ghost function Tracked(): Tracker
      reads this
    {
      Tracker(promises, ackWaiters, timers)
    }

    ghost predicate Valid()
      reads this
    {
      && Consistent(Tracked())
      && (forall c :: 0 <= c < |closePromises| ==> closePromises[c].source < |promises|)
    }

    /** A connected endpoint has a port. */
    predicate Bound()
      reads this
    {
      connected ==> port.Some?
    }

    /** What `#send` of `m` did, from the state before it to the state after
        it. Connected without a port, posting throws before anything changes;
        otherwise `m` is posted (connected) or buffered (not connected), and
        its promise is created as `Track` says. */
    twostate predicate SendOutcome(m: Message, new r: Result<Handle>)
      reads this
    {
      if old(connected) && old(port).None? then
        && r == Err(NO_PORT)
        && outbox == old(outbox) && messageBuffer == old(messageBuffer)
        && Tracked() == old(Tracked())
      else
        && r == Ok(old(|promises|))
        && (old(connected) ==> outbox == old(outbox) + [m] && messageBuffer == old(messageBuffer))
        && (!old(connected) ==> messageBuffer == old(messageBuffer) + [m] && outbox == old(outbox))
        && Tracked() == Track(old(Tracked()), options.ack, m)
    }

    /** What `#ack(acked)` did, using `id` for the reply: nothing when
        acknowledgment is off; otherwise the send of the ACK reply. */
    twostate predicate AckOutcome(acked: Id, id: Id, done: Completion)
      reads this
    {
      if options.ack then
        && issued == old(issued) + {id}
        && SendOutcome(AckReply(id, acked), if done.Normal? then Ok(old(|promises|)) else Err(NO_PORT))
        && (done.Threw? ==> done == Threw(NO_PORT))
      else
        && done == Normal && issued == old(issued)
        && outbox == old(outbox) && messageBuffer == old(messageBuffer)
        && Tracked() == old(Tracked())
    }

    constructor (user: UserOptions)
      ensures options == WithDefaults(user)
      ensures !connected && port.None? && errorHandler.None?
      ensures messageBuffer == [] && globalListeners == []
      ensures promises == [] && ackWaiters == map[] && timers == map[] && closePromises == []
      ensures outbox == [] && handshakes == [] && closedPorts == [] && deliveries == [] && errorReports == []
      ensures issued == {}
      ensures Valid() && Bound()
    {
      options := WithDefaults(user);
      connected := false;
      port := None;
      messageBuffer := [];
      globalListeners := [];
      errorHandler := None;
      promises, ackWaiters, timers, closePromises := [], map[], map[], [];
      outbox, handshakes, closedPorts, deliveries, errorReports := [], [], [], [], [];
      issued := {};
    }

    /** `connect`: post a CONNECT envelope carrying the remote channel end to
        the target, bind the local end (which flushes the buffer), and
        return the CONNECT envelope's promise. */
    method Connect(id: Id, local: PortId) returns (h: Handle)
      requires Valid() && id !in issued
      modifies this`handshakes, this`issued, this`port, this`connected, this`outbox,
               this`messageBuffer, this`promises, this`ackWaiters, this`timers
      ensures Valid() && Bound()
      ensures handshakes == old(handshakes) + [Message(id, CONNECT, Null)]
      ensures issued == old(issued) + {id}
      ensures connected && port == Some(local) && messageBuffer == []
      ensures outbox == old(outbox) + old(messageBuffer)
      ensures h == old(|promises|) + old(|messageBuffer|)
      ensures Tracked() == Track(TrackAll(old(Tracked()), options.ack, old(messageBuffer)),
                                 options.ack, Message(id, CONNECT, Null))
    {
      var m := BuildMessage(id, Null, Some(CONNECT));
      issued := issued + {id};
      handshakes := handshakes + [m];
      var c := HandleConnect(Some(local));
      h := AckPromise(m);
    }

    /** `close`: throws when not connected; otherwise sends CLOSE and returns
        a promise chained on it. The teardown runs later, in
        `RunCloseReaction`, once the CLOSE message's promise has resolved. */
    method Close(id: Id) returns (r: Result<nat>)
      requires Valid() && id !in issued
      modifies this`issued, this`outbox, this`messageBuffer, this`promises,
               this`ackWaiters, this`timers, this`closePromises
      ensures Valid()
      ensures !old(connected) ==>
                && r == Err(NOT_CONNECTED)
                && issued == old(issued) && outbox == old(outbox) && messageBuffer == old(messageBuffer)
                && Tracked() == old(Tracked()) && closePromises == old(closePromises)
      ensures old(connected) && old(port).None? ==>
                && r == Err(NO_PORT)
                && issued == old(issued) + {id}
                && outbox == old(outbox) && messageBuffer == old(messageBuffer)
                && Tracked() == old(Tracked()) && closePromises == old(closePromises)
      ensures old(connected) && old(port).Some? ==>
                && r == Ok(old(|closePromises|))
                && issued == old(issued) + {id}
                && outbox == old(outbox) + [Message(id, CLOSE, Null)]
                && messageBuffer == old(messageBuffer)
                && Tracked() == Track(old(Tracked()), options.ack, Message(id, CLOSE, Null))
                && closePromises == old(closePromises) + [ClosePromise(old(|promises|), Pending)]
    {
      if !connected {
        return Err(NOT_CONNECTED);
      }
      var sent := Send(Null, Some(CLOSE), id);
      if sent.Err? {
        return Err(sent.error);
      }
      r := Ok(|closePromises|);
      closePromises := closePromises + [ClosePromise(sent.value, Pending)];
    }

    /** The reaction `close()` chained on the CLOSE message's promise, run
        once that promise has settled: on resolution it releases the port and
        resolves with the CLOSE envelope; on rejection it passes the
        rejection on and leaves the connection as it is. */
    method RunCloseReaction(c: nat)
      requires Valid() && c < |closePromises|
      requires closePromises[c].outcome.Pending?
      requires !promises[closePromises[c].source].Pending?
      modifies this`closePromises, this`connected, this`closedPorts
      ensures Valid()
      ensures |closePromises| == old(|closePromises|)
      ensures forall i :: 0 <= i < |closePromises| && i != c ==> closePromises[i] == old(closePromises[i])
      ensures closePromises[c].source == old(closePromises[c].source)
      ensures var o := promises[closePromises[c].source];
              && (o.Rejected? ==>
                    closePromises[c].outcome == o && connected == old(connected) && closedPorts == old(closedPorts))
              && (o.Resolved? && port.Some? ==>
                    closePromises[c].outcome == o && !connected && closedPorts == old(closedPorts) + [port.value])
              && (o.Resolved? && port.None? ==>
                    closePromises[c].outcome == Rejected(NO_PORT) && connected == old(connected)
                    && closedPorts == old(closedPorts))
    {
      var source := closePromises[c].source;
      var outcome := promises[source];
      if outcome.Resolved? {
        var done := HandleClose();
        if done.Threw? {
          outcome := Rejected(done.error);
        }
      }
      closePromises := closePromises[c := ClosePromise(source, outcome)];
    }

    /** `send`: build an envelope (MESSAGE when no opcode is given) and send it. */
    method Send(payload: Value, opcode: Option<Opcode>, id: Id) returns (r: Result<Handle>)
      requires Valid() && id !in issued
      modifies this`issued, this`outbox, this`messageBuffer, this`promises, this`ackWaiters, this`timers
      ensures Valid()
      ensures issued == old(issued) + {id}
      ensures SendOutcome(BuildMessage(id, payload, opcode), r)
    {
      var m := BuildMessage(id, payload, opcode);
      issued := issued + {id};
      r := SendMessage(m);
    }

    /** `onMessage`: one more global listener, at the end; no deduplication. */
    method OnMessage(listener: ListenerId)
      modifies this`globalListeners
      ensures globalListeners == old(globalListeners) + [listener]
    {
      globalListeners := globalListeners + [listener];
    }

    /** `onError`: the single error handler, replacing any earlier one;
        passing no handler (`null` or nothing) clears it. */
    method OnError(handler: Option<HandlerId>)
      modifies this`errorHandler
      ensures errorHandler == handler
    {
      errorHandler := handler;
    }

    /** `#send`: post on the port when connected, otherwise append to the
        buffer; then return the message's promise. Posting with no port
        throws, and the promise is never created. */
    method SendMessage(m: Message) returns (r: Result<Handle>)
      requires Valid()
      modifies this`outbox, this`messageBuffer, this`promises, this`ackWaiters, this`timers
      ensures Valid()
      ensures SendOutcome(m, r)
    {
      if connected {
        if port.None? {
          return Err(NO_PORT);
        }
        outbox := outbox + [m];
      } else {
        messageBuffer := messageBuffer + [m];
      }
      var h := AckPromise(m);
      r := Ok(h);
    }

    /** `#ack`: when acknowledgment is on, send an ACK whose payload is the
        acknowledged id; otherwise do nothing. */
    method AckId(acked: Id, id: Id) returns (done: Completion)
      requires Valid() && id !in issued
      modifies this`issued, this`outbox, this`messageBuffer, this`promises, this`ackWaiters, this`timers
      ensures Valid()
      ensures AckOutcome(acked, id, done)
      ensures done.Threw? <==> options.ack && old(connected) && old(port).None?
    {
      if !options.ack {
        return Normal;
      }
      var sent := Send(Text(acked), Some(ACK), id);
      done := if sent.Ok? then Normal else Threw(sent.error);
    }

    /** `#ackPromise`: the promise for a sent message (see `Track`). */
    method AckPromise(m: Message) returns (h: Handle)
      requires Valid()
      modifies this`promises, this`ackWaiters, this`timers
      ensures Valid()
      ensures h == old(|promises|)
      ensures Tracked() == Track(old(Tracked()), options.ack, m)
    {
      TrackKeepsConsistent(Tracked(), options.ack, m);
      h := |promises|;
      if !options.ack || m.opcode == ACK {
        promises := promises + [Resolved(m)];
        return;
      }
      promises := promises + [Pending];
      timers := timers[h := m.id];
      ackWaiters := ackWaiters[m.id := Waiter(h, m)];
    }

    /** `#handleConnect`: bind the port, mark the endpoint connected, then
        flush the buffer. A missing port throws after it has been stored,
        before anything else changes. */
    method HandleConnect(p: Option<PortId>) returns (done: Completion)
      requires Valid()
      modifies this`port, this`connected, this`outbox, this`messageBuffer,
               this`promises, this`ackWaiters, this`timers
      ensures Valid()
      ensures port == p
      ensures p.None? ==>
                && done == Threw(NO_PORT) && connected == old(connected)
                && outbox == old(outbox) && messageBuffer == old(messageBuffer)
                && Tracked() == old(Tracked())
      ensures p.Some? ==>
                && done == Normal && connected && Bound() && messageBuffer == []
                && outbox == old(outbox) + old(messageBuffer)
                && Tracked() == TrackAll(old(Tracked()), options.ack, old(messageBuffer))
    {
      port := p;
      if p.None? {
        return Threw(NO_PORT);
      }
      connected := true;
      Flush();
      return Normal;
    }

    /** The loop of `#handleConnect`: take buffered messages from the front
        and send each through `SendMessage`, which, now that the endpoint is
        connected, posts it and registers a second promise for it. */
    method Flush()
      requires Valid() && connected && port.Some?
      modifies this`outbox, this`messageBuffer, this`promises, this`ackWaiters, this`timers
      ensures Valid() && messageBuffer == []
      ensures outbox == old(outbox) + old(messageBuffer)
      ensures Tracked() == TrackAll(old(Tracked()), options.ack, old(messageBuffer))
    {
      ghost var buffered := messageBuffer;
      ghost var sent := 0;
      while |messageBuffer| > 0
        invariant Valid() && connected
        invariant 0 <= sent <= |buffered|
        invariant messageBuffer == buffered[sent..]
        invariant outbox == old(outbox) + buffered[..sent]
        invariant Tracked() == TrackAll(old(Tracked()), options.ack, buffered[..sent])
        decreases |messageBuffer|
      {
        var m := messageBuffer[0];
        messageBuffer := messageBuffer[1..];
        var r := SendMessage(m);
        assert buffered[..sent + 1] == buffered[..sent] + [m];
        TrackAllSnoc(old(Tracked()), options.ack, buffered[..sent], m);
        sent := sent + 1;
      }
      assert buffered[..sent] == buffered;
    }

    /** `#handleClose`: release the port and mark the endpoint disconnected;
        with no port the call throws and nothing changes. */
    method HandleClose() returns (done: Completion)
      modifies this`closedPorts, this`connected
      ensures port.None? ==> done == Threw(NO_PORT) && closedPorts == old(closedPorts) && connected == old(connected)
      ensures port.Some? ==> done == Normal && closedPorts == old(closedPorts) + [port.value] && !connected
    {
      if port.None? {
        return Threw(NO_PORT);
      }
      closedPorts := closedPorts + [port.value];
      connected := false;
      return Normal;
    }

    /** `#handleMessage`: route an inbound envelope by opcode.
        CONNECT binds the carried port (flushing the buffer) and then acks;
        CLOSE acks while still connected and then tears down; ACK goes to
        the tracker only; anything else is acked and then handed to every
        global listener. An ack that throws (connected without a port) ends
        the call before teardown or delivery. `ackId` is the fresh id an ACK
        reply would use. */
    method HandleMessage(ev: Inbound, ackId: Id) returns (done: Completion)
      requires Valid() && ackId !in issued
      modifies this`port, this`connected, this`outbox, this`messageBuffer, this`promises,
               this`ackWaiters, this`timers, this`closedPorts, this`deliveries, this`issued
      ensures Valid()
      ensures var m := ev.data;
              var ackThrows := options.ack && old(connected) && old(port).None?;
              && (RouteOf(m.opcode) == ToAck ==>
                    && done == Normal
                    && Tracked() == Acknowledge(old(Tracked()), AckKey(m.payload))
                    && issued == old(issued)
                    && outbox == old(outbox) && messageBuffer == old(messageBuffer)
                    && deliveries == old(deliveries)
                    && connected == old(connected) && port == old(port) && closedPorts == old(closedPorts))
              && (RouteOf(m.opcode) == ToListeners ==>
                    && AckOutcome(m.id, ackId, done)
                    && (done.Threw? <==> ackThrows)
                    && (done.Normal? ==> deliveries == old(deliveries) + Fanout(globalListeners, m))
                    && (done.Threw? ==> deliveries == old(deliveries))
                    && connected == old(connected) && port == old(port) && closedPorts == old(closedPorts))
              && (RouteOf(m.opcode) == ToConnect && PortOf(ev).Some? ==>
                    && done == Normal
                    && connected && Bound() && port == PortOf(ev) && messageBuffer == []
                    && issued == old(issued) + (if options.ack then {ackId} else {})
                    && outbox == old(outbox) + old(messageBuffer) + (if options.ack then [AckReply(ackId, m.id)] else [])
                    && Tracked() == (if options.ack
                                     then Track(TrackAll(old(Tracked()), true, old(messageBuffer)), true, AckReply(ackId, m.id))
                                     else TrackAll(old(Tracked()), false, old(messageBuffer)))
                    && deliveries == old(deliveries) && closedPorts == old(closedPorts))
              && (RouteOf(m.opcode) == ToConnect && PortOf(ev).None? ==>
                    && done == Threw(NO_PORT) && port.None? && connected == old(connected)
                    && issued == old(issued)
                    && outbox == old(outbox) && messageBuffer == old(messageBuffer)
                    && Tracked() == old(Tracked()) && deliveries == old(deliveries)
                    && closedPorts == old(closedPorts))
              && (RouteOf(m.opcode) == ToClose ==>
                    && AckOutcome(m.id, ackId, if ackThrows then Threw(NO_PORT) else Normal)
                    && deliveries == old(deliveries) && port == old(port)
                    && (ackThrows ==>
                          done == Threw(NO_PORT) && connected == old(connected) && closedPorts == old(closedPorts))
                    && (!ackThrows && old(port).Some? ==>
                          done == Normal && !connected && closedPorts == old(closedPorts) + [old(port).value])
                    && (!ackThrows && old(port).None? ==>
                          done == Threw(NO_PORT) && connected == old(connected) && closedPorts == old(closedPorts)))
    {
      var m := ev.data;
      match RouteOf(m.opcode) {
        case ToConnect =>
          done := HandleConnect(PortOf(ev));
          if done.Normal? {
            var acked := AckId(m.id, ackId);
          }
        case ToClose =>
          var acked := AckId(m.id, ackId);
          if acked.Threw? {
            done := acked;
          } else {
            done := HandleClose();
          }
        case ToAck =>
          HandleAck(m.payload);
          done := Normal;
        case ToListeners =>
          done := AckId(m.id, ackId);
          if done.Normal? {
            ProcessMessage(m);
          }
      }
    }

    /** `#handleError`: pass the failed event's data to the error handler,
        or drop it when none is registered. */
    method HandleError(data: Value)
      modifies this`errorReports
      ensures errorHandler.None? ==> errorReports == old(errorReports)
      ensures errorHandler.Some? ==> errorReports == old(errorReports) + [ErrorReport(errorHandler.value, data)]
    {
      if errorHandler.None? {
        return;
      }
      errorReports := errorReports + [ErrorReport(errorHandler.value, data)];
    }

    /** `#handleAck`: call the waiter stored under the payload's key, if any. */
    method HandleAck(payload: Value)
      requires Valid()
      modifies this`promises, this`ackWaiters, this`timers
      ensures Valid()
      ensures Tracked() == Acknowledge(old(Tracked()), AckKey(payload))
    {
      var key := AckKey(payload);
      if key !in ackWaiters {
        return;
      }
      AcknowledgeKeepsConsistent(Tracked(), key);
      var w := ackWaiters[key];
      timers := timers - {w.handle};
      ackWaiters := ackWaiters - {w.message.id};
      promises := Settle(promises, w.handle, Resolved(w.message));
    }

    /** The timer armed for promise `h` fires. */
    method Timeout(h: Handle)
      requires Valid() && h in timers
      modifies this`promises, this`ackWaiters, this`timers
      ensures Valid()
      ensures Tracked() == Expire(old(Tracked()), h)
    {
      ExpireKeepsConsistent(Tracked(), h);
      var id := timers[h];
      ackWaiters := ackWaiters - {id};
      promises := Settle(promises, h, Rejected(NOT_RECEIVED));
      timers := timers - {h};
    }

    /** `#processMessage`: call every global listener with the envelope, in
        registration order. */
    method ProcessMessage(m: Message)
      modifies this`deliveries
      ensures deliveries == old(deliveries) + Fanout(globalListeners, m)
    {
      var i := 0;
      while i < |globalListeners|
        invariant 0 <= i <= |globalListeners|
        invariant deliveries == old(deliveries) + Fanout(globalListeners[..i], m)
      {
        assert globalListeners[..i + 1] == globalListeners[..i] + [globalListeners[i]];
        deliveries := deliveries + [Delivery(globalListeners[i], m)];
        i := i + 1;
      }
      assert globalListeners[..i] == globalListeners;
    }
  }
}
