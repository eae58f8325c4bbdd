/** The wire envelope exchanged by two messenger endpoints, its opcodes,
    the routing of an inbound envelope by opcode, and the endpoint's options. */
module Envelope {

  datatype Option<T> = None | Some(value: T)

  /** Message ids are opaque strings produced by an identifier generator
      outside this model; callers hand them in. */
  type Id = string

  /** Opcodes are strings: the four below are the protocol's own, and any
      other string is an application-defined opcode. */
  type Opcode = string

  /** A private channel end, as handed over by the host transport. */
  type PortId = nat

  const CONNECT: Opcode := "messenger::connect"
  const CLOSE: Opcode := "messenger::close"
  const ACK: Opcode := "messenger::ack"
  const MESSAGE: Opcode := "messenger::message"

  /** Payloads are opaque application data; this model distinguishes only
      `null` from string data (an ACK carries the acknowledged id as text). */
  datatype Value = Null | Text(text: string)

  datatype Message = Message(id: Id, opcode: Opcode, payload: Value)

  /** The envelope `send` builds: a caller that passes no opcode gets MESSAGE. */
  function BuildMessage(id: Id, payload: Value, opcode: Option<Opcode>): (m: Message)
    ensures m.id == id && m.payload == payload
    ensures opcode.Some? ==> m.opcode == opcode.value
    ensures opcode.None? ==> m.opcode == MESSAGE
  {
    Message(id, if opcode.Some? then opcode.value else MESSAGE, payload)
  }

  /** The reply that acknowledges the message with id `acked`. */
  function AckReply(id: Id, acked: Id): (m: Message)
    ensures m.opcode == ACK && m.id == id
    ensures m.payload.Text? && m.payload.text == acked
  {
    BuildMessage(id, Text(acked), Some(ACK))
  }

  /** Where an inbound envelope is dispatched. */
  datatype Route = ToConnect | ToClose | ToAck | ToListeners

  function RouteOf(op: Opcode): (r: Route)
    ensures r == ToConnect <==> op == CONNECT
    ensures r == ToClose <==> op == CLOSE
    ensures r == ToAck <==> op == ACK
    ensures r == ToListeners <==> op != CONNECT && op != CLOSE && op != ACK
  {
    if op == CONNECT then ToConnect
    else if op == CLOSE then ToClose
    else if op == ACK then ToAck
    else ToListeners
  }

  /** The key an ACK's payload looks up in the waiter table: the payload
      is used as an object property name, so `null` becomes "null". */
  function AckKey(payload: Value): (k: Id)
    ensures payload.Text? ==> k == payload.text
    ensures payload.Null? ==> k == "null"
  {
    match payload
    case Null => "null"
    case Text(s) => s
  }

  const DEFAULT_TIMEOUT: int := 5000

  /** Options as the caller passes them: an absent key is `None`. */
  datatype UserOptions = UserOptions(timeout: Option<int>, ack: Option<bool>)

  datatype Options = Options(timeout: int, ack: bool)

  /** The constructor's options: defaults first, then every key the caller gave. */
  function WithDefaults(user: UserOptions): (o: Options)
    ensures user.timeout.None? ==> o.timeout == DEFAULT_TIMEOUT
    ensures user.ack.None? ==> !o.ack
    ensures user.timeout.Some? ==> o.timeout == user.timeout.value
    ensures user.ack.Some? ==> o.ack == user.ack.value
  {
    Options(
      if user.timeout.Some? then user.timeout.value else DEFAULT_TIMEOUT,
      if user.ack.Some? then user.ack.value else false)
  }
}
