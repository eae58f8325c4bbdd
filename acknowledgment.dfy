/** The acknowledgment tracker: the promise each send returns, the table of
    waiters keyed by message id, and the armed timeout timers. Timers firing
    and ACKs arriving are explicit events; no time passes in this model. */
module Acknowledgment {
  import opened Envelope

  /** A promise handle: its index in the table of promises. */
  type Handle = nat

  const NOT_RECEIVED: string := "ACK not received"

  datatype Outcome = Pending | Resolved(message: Message) | Rejected(reason: string)

  /** The callback stored under a message id: it resolves `handle` with `message`. */
  datatype Waiter = Waiter(handle: Handle, message: Message)

  /** `timers` maps the handle whose timer is armed to the id that timer
      deletes from `waiters` when it fires. */
  datatype Tracker = Tracker(promises: seq<Outcome>, waiters: map<Id, Waiter>, timers: map<Handle, Id>)

  /** Whether a sent message gets a waiter and a timer. */
  predicate NeedsAck(ack: bool, m: Message)
  {
    ack && m.opcode != ACK
  }

  /** Every armed timer belongs to a pending promise and every pending
      promise has its timer armed; every waiter is stored under its own
      message's id, and that id is what its promise's timer deletes. */
  ghost predicate Consistent(t: Tracker)
  {
    && (forall h :: h in t.timers ==> h < |t.promises|)
    && (forall h :: 0 <= h < |t.promises| ==> (t.promises[h].Pending? <==> h in t.timers))
    && (forall id :: id in t.waiters ==>
          t.waiters[id].message.id == id &&
          t.waiters[id].handle in t.timers &&
          t.timers[t.waiters[id].handle] == id)
  }

  /** Resolving or rejecting a promise: a promise settles once, and any
      later resolve or reject of it is ignored. */
  function Settle(ps: seq<Outcome>, h: Handle, o: Outcome): (r: seq<Outcome>)
    ensures |r| == |ps|
    ensures forall i :: 0 <= i < |ps| && i != h ==> r[i] == ps[i]
    ensures forall i :: 0 <= i < |ps| && !ps[i].Pending? ==> r[i] == ps[i]
    ensures h < |ps| && ps[h].Pending? ==> r[h] == o
  {
    if h < |ps| && ps[h].Pending? then ps[h := o] else ps
  }

  /** The promise built for a sent message. Without acknowledgment, or for an
      ACK, it resolves at once and nothing is registered; otherwise it stays
      pending, one waiter is stored under the message id (replacing any
      earlier one) and one timer is armed. */
  function Track(t: Tracker, ack: bool, m: Message): (r: Tracker)
    ensures |r.promises| == |t.promises| + 1
    ensures r.promises[..|t.promises|] == t.promises
    ensures !NeedsAck(ack, m) ==>
              r.promises[|t.promises|] == Resolved(m) && r.waiters == t.waiters && r.timers == t.timers
    ensures NeedsAck(ack, m) ==>
              && r.promises[|t.promises|] == Pending
              && r.waiters == t.waiters[m.id := Waiter(|t.promises|, m)]
              && r.timers == t.timers[|t.promises| := m.id]
  {
    var h := |t.promises|;
    if NeedsAck(ack, m) then
      Tracker(t.promises + [Pending], t.waiters[m.id := Waiter(h, m)], t.timers[h := m.id])
    else
      Tracker(t.promises + [Resolved(m)], t.waiters, t.timers)
  }

  /** An inbound ACK whose payload is `key`. With no waiter under `key`
      nothing happens; otherwise the waiter clears its promise's timer,
      removes itself and resolves its promise with its message. */
  function Acknowledge(t: Tracker, key: Id): (r: Tracker)
    ensures key !in t.waiters ==> r == t
    ensures key in t.waiters ==>
              var w := t.waiters[key];
              && r.waiters == t.waiters - {w.message.id}
              && r.timers == t.timers - {w.handle}
              && r.promises == Settle(t.promises, w.handle, Resolved(w.message))
  {
    if key !in t.waiters then t
    else
      var w := t.waiters[key];
      Tracker(Settle(t.promises, w.handle, Resolved(w.message)), t.waiters - {w.message.id}, t.timers - {w.handle})
  }

  /** The timer of promise `h` fires: it deletes whatever waiter is stored
      under its message id and rejects `h`. A cleared timer never fires. */
  function Expire(t: Tracker, h: Handle): (r: Tracker)
    ensures h !in t.timers ==> r == t
    ensures h in t.timers ==>
              && r.waiters == t.waiters - {t.timers[h]}
              && r.timers == t.timers - {h}
              && r.promises == Settle(t.promises, h, Rejected(NOT_RECEIVED))
  {
    if h !in t.timers then t
    else Tracker(Settle(t.promises, h, Rejected(NOT_RECEIVED)), t.waiters - {t.timers[h]}, t.timers - {h})
  }

  /** The tracker after each message of `ms` has been sent, in order. */
  function TrackAll(t: Tracker, ack: bool, ms: seq<Message>): (r: Tracker)
    ensures |r.promises| == |t.promises| + |ms|
    ensures r.promises[..|t.promises|] == t.promises
  {
    if ms == [] then t
    else Track(TrackAll(t, ack, ms[..|ms| - 1]), ack, ms[|ms| - 1])
  }

  /** Sending one more message after a sequence extends the sequence. */
  lemma TrackAllSnoc(t: Tracker, ack: bool, ms: seq<Message>, m: Message)
    ensures TrackAll(t, ack, ms + [m]) == Track(TrackAll(t, ack, ms), ack, m)
  {
  }

  /** Everything that can happen to the tracker. */
  datatype Event = Sent(m: Message) | AckArrived(key: Id) | TimerFired(h: Handle)

  function Apply(t: Tracker, ack: bool, e: Event): Tracker
  {
    match e
    case Sent(m) => Track(t, ack, m)
    case AckArrived(key) => Acknowledge(t, key)
    case TimerFired(h) => Expire(t, h)
  }

  function Run(t: Tracker, ack: bool, es: seq<Event>): Tracker
    decreases |es|
  {
    if es == [] then t else Run(Apply(t, ack, es[0]), ack, es[1..])
  }

  lemma TrackKeepsConsistent(t: Tracker, ack: bool, m: Message)
    requires Consistent(t)
    ensures Consistent(Track(t, ack, m))
  {
  }

  lemma AcknowledgeKeepsConsistent(t: Tracker, key: Id)
    requires Consistent(t)
    ensures Consistent(Acknowledge(t, key))
  {
  }

  lemma ExpireKeepsConsistent(t: Tracker, h: Handle)
    requires Consistent(t)
    ensures Consistent(Expire(t, h))
  {
  }

  lemma {:induction false} TrackAllKeepsConsistent(t: Tracker, ack: bool, ms: seq<Message>)
    requires Consistent(t)
    ensures Consistent(TrackAll(t, ack, ms))
  {
    if ms != [] {
      TrackAllKeepsConsistent(t, ack, ms[..|ms| - 1]);
      TrackKeepsConsistent(TrackAll(t, ack, ms[..|ms| - 1]), ack, ms[|ms| - 1]);
    }
  }

  /** After sending `ms` in order, a waiter exists under exactly the ids that
      had one before or belong to a sent message that needs acknowledgment. */
  lemma {:induction false} TrackAllRegisters(t: Tracker, ack: bool, ms: seq<Message>, id: Id)
    ensures id in TrackAll(t, ack, ms).waiters <==>
              id in t.waiters || exists i :: 0 <= i < |ms| && NeedsAck(ack, ms[i]) && ms[i].id == id
  {
    if ms != [] {
      var init := ms[..|ms| - 1];
      TrackAllRegisters(t, ack, init, id);
      if exists i :: 0 <= i < |init| && NeedsAck(ack, init[i]) && init[i].id == id {
        var i :| 0 <= i < |init| && NeedsAck(ack, init[i]) && init[i].id == id;
        assert ms[i] == init[i];
      }
      if exists i :: 0 <= i < |ms| && NeedsAck(ack, ms[i]) && ms[i].id == id {
        var i :| 0 <= i < |ms| && NeedsAck(ack, ms[i]) && ms[i].id == id;
        if i < |init| {
          assert init[i] == ms[i];
        }
      }
    }
  }

  lemma {:induction false} RunKeepsConsistent(t: Tracker, ack: bool, es: seq<Event>)
    requires Consistent(t)
    ensures Consistent(Run(t, ack, es))
    decreases |es|
  {
    if es != [] {
      match es[0] {
        case Sent(m) => TrackKeepsConsistent(t, ack, m);
        case AckArrived(key) => AcknowledgeKeepsConsistent(t, key);
        case TimerFired(h) => ExpireKeepsConsistent(t, h);
      }
      RunKeepsConsistent(Apply(t, ack, es[0]), ack, es[1..]);
    }
  }

  /** No promise is settled twice: whatever happens later, a resolved
      promise stays resolved and a rejected one stays rejected. */
  lemma {:induction false} SettledIsFinal(t: Tracker, ack: bool, es: seq<Event>, h: Handle)
    requires h < |t.promises| && !t.promises[h].Pending?
    ensures h < |Run(t, ack, es).promises|
    ensures Run(t, ack, es).promises[h] == t.promises[h]
    decreases |es|
  {
    if es != [] {
      var t' := Apply(t, ack, es[0]);
      assert h < |t'.promises| && t'.promises[h] == t.promises[h] by {
        match es[0]
        case Sent(m) => assert t'.promises[..|t.promises|] == t.promises;
        case AckArrived(key) =>
        case TimerFired(x) =>
      }
      SettledIsFinal(t', ack, es[1..], h);
    }
  }

  /** A pending promise that no waiter refers to can never be resolved:
      whatever happens, it ends rejected by its timer or stays pending. */
  lemma {:induction false} OrphanNeverResolves(t: Tracker, ack: bool, es: seq<Event>, h: Handle)
    requires h < |t.promises| && !t.promises[h].Resolved?
    requires forall id :: id in t.waiters ==> t.waiters[id].handle != h
    ensures h < |Run(t, ack, es).promises|
    ensures !Run(t, ack, es).promises[h].Resolved?
    decreases |es|
  {
    if es != [] {
      var t' := Apply(t, ack, es[0]);
      assert h < |t'.promises| && !t'.promises[h].Resolved? by {
        match es[0]
        case Sent(m) => assert t'.promises[..|t.promises|] == t.promises;
        case AckArrived(key) =>
        case TimerFired(x) =>
      }
      OrphanNeverResolves(t', ack, es[1..], h);
    }
  }

  /** An ACK for a registered id ends that waiter: its promise is resolved
      with its message and its timer is cleared, so it cannot fire later. */
  lemma AckEndsWaiter(t: Tracker, key: Id)
    requires Consistent(t) && key in t.waiters
    ensures var w := t.waiters[key];
            && Acknowledge(t, key).promises[w.handle] == Resolved(w.message)
            && key !in Acknowledge(t, key).waiters
            && w.handle !in Acknowledge(t, key).timers
  {
  }

  /** Every pending promise has its timer armed, and when that timer fires
      the promise is rejected and no waiter is left that could resolve it. */
  lemma TimeoutEndsWaiter(t: Tracker, h: Handle)
    requires Consistent(t) && h < |t.promises| && t.promises[h].Pending?
    ensures h in t.timers
    ensures Expire(t, h).promises[h] == Rejected(NOT_RECEIVED)
    ensures forall id :: id in Expire(t, h).waiters ==> Expire(t, h).waiters[id].handle != h
  {
    assert h in t.timers;
    forall id | id in Expire(t, h).waiters
      ensures Expire(t, h).waiters[id].handle != h
    {
      assert id in t.waiters && id != t.timers[h];
    }
  }

  /** Sending a message whose id already has a waiter — what the flush of a
      buffered message does — makes an ACK for that id resolve the new
      promise, and leaves the earlier promise with no waiter: whatever
      happens next, it is never resolved. */
  lemma FlushOrphansBufferedHandle(t: Tracker, ack: bool, m: Message, es: seq<Event>)
    requires Consistent(t) && NeedsAck(ack, m) && m.id in t.waiters
    ensures Acknowledge(Track(t, ack, m), m.id).promises[|t.promises|] == Resolved(m)
    ensures var h := t.waiters[m.id].handle;
            && h < |Run(Track(t, ack, m), ack, es).promises|
            && !Run(Track(t, ack, m), ack, es).promises[h].Resolved?
  {
    var h := t.waiters[m.id].handle;
    var t' := Track(t, ack, m);
    assert h in t.timers && h < |t.promises|;
    assert t'.promises[h] == t.promises[h];
    forall id | id in t'.waiters
      ensures t'.waiters[id].handle != h
    {
      if id != m.id {
        assert t.waiters[id].handle in t.timers && t.timers[t.waiters[id].handle] == id;
      }
    }
    OrphanNeverResolves(t', ack, es, h);
  }
}
