/** The records that travel between client, actor and relay server. */
module Messages {
  import opened Amounts
  import opened Sequences

  type Byte = n: int | 0 <= n < 256
  type Bytes = seq<Byte>
  type ClientId = string
  type Seq = U64

  datatype EntityType = Unspecified | App | Orb | Service

  function AsI32(t: EntityType): int {
    match t
    case Unspecified => 0
    case App => 1
    case Orb => 2
    case Service => 3
  }

  /** The checked conversion from the wire's integer. */
  function TryFromI32(i: int): Option<EntityType> {
    if i == 0 then Some(Unspecified)
    else if i == 1 then Some(App)
    else if i == 2 then Some(Orb)
    else if i == 3 then Some(Service)
    else None
  }

  /** `entityType` is the open enumeration of the wire: any integer may arrive. */
  datatype Entity = Entity(id: ClientId, entityType: int, space: string)

  datatype QoS = AtMostOnce | AtLeastOnce

  datatype SendMessage =
    SendMessage(targetType: EntityType, data: Bytes, targetId: ClientId, targetSpace: string, qos: QoS)

  datatype Any = Any(typeUrl: string, value: Bytes)

  datatype RelayPayload =
    RelayPayload(src: Option<Entity>, dst: Option<Entity>, seqNo: Seq, payload: Option<Any>)

  /** What the client puts on the outbound stream. */
  datatype Request =
    | PayloadRequest(payload: RelayPayload)
    | HeartbeatRequest(seqNo: Seq)
    | ConnectRequest(clientId: Entity, token: string)

  /** What the server puts on the inbound stream. */
  datatype Response =
    | Payload(payload: RelayPayload)
    | Ack(seqNo: Seq)
    | ConnectResponse(success: bool)

  /** A received payload, as the actor hands it on. */
  datatype Received = Received(from: Entity, payload: Bytes, seqNo: Seq)

  /** `got` is what the wire's payload says: its source, its number and the bytes of its body. */
  predicate Brings(p: RelayPayload, got: Received) {
    && p.src == Some(got.from) && p.seqNo == got.seqNo
    && p.payload.Some? && p.payload.value.value == got.payload
  }

  /** Which budget a retry hands to the next timer: the configured maximum less one, as the program
      does, or its own less one, as the name of the option suggests. */
  datatype Handover = MaximumLessOne | OwnLessOne

  /** The options of a client. `handover` is not an option of the program: the state machine is
      studied with both, and the class `RelayActor` has the program's. */
  datatype ClientOpts = ClientOpts(
    entityType: EntityType,
    clientId: ClientId,
    space: string,
    maxConnectionAttempts: Amount,
    maxMessageAttempts: Amount,
    handover: Handover)

  type ProgramOpts = opts: ClientOpts | opts.handover == MaximumLessOne
    witness ClientOpts(Unspecified, "", "", Infinite, Infinite, MaximumLessOne)

  function Self(opts: ClientOpts): Entity {
    Entity(opts.clientId, AsI32(opts.entityType), opts.space)
  }

  /** The number of an entity type on the wire (proto/relay.proto:42-47). */
  predicate Numbered(t: EntityType, n: int) {
    match t
    case Unspecified => n == 0
    case App => n == 1
    case Orb => n == 2
    case Service => n == 3
  }

  /** The entity is the client itself. */
  predicate IsSelf(opts: ClientOpts, e: Entity) {
    e.id == opts.clientId && e.space == opts.space && Numbered(opts.entityType, e.entityType)
  }

  /** The payload carries these bytes from the client itself, under this number. */
  predicate OfClient(opts: ClientOpts, p: RelayPayload, q: Seq, data: Bytes) {
    && p.src.Some? && IsSelf(opts, p.src.value)
    && p.seqNo == q && p.payload == Some(Any("", data))
  }

  /** It carries this message. */
  predicate IsMessage(opts: ClientOpts, msg: SendMessage, q: Seq, p: RelayPayload) {
    && OfClient(opts, p, q, msg.data)
    && p.dst.Some? && p.dst.value.id == msg.targetId && p.dst.value.space == msg.targetSpace
    && Numbered(msg.targetType, p.dst.value.entityType)
  }

  /** It carries this answer to a received message, to the entity that sent it. */
  predicate IsReply(opts: ClientOpts, to: Received, data: Bytes, p: RelayPayload) {
    OfClient(opts, p, to.seqNo, data) && p.dst == Some(to.from)
  }

  /** The payload of a message under a sequence number: every first copy of `send` and `ask`,
      and every retransmission, is built here. */
  function PayloadOf(opts: ClientOpts, msg: SendMessage, seqNo: Seq): RelayPayload {
    RelayPayload(
      Some(Self(opts)),
      Some(Entity(msg.targetId, AsI32(msg.targetType), msg.targetSpace)),
      seqNo,
      Some(Any("", msg.data)))
  }

  /** The first copy of a reply is built directly from the entity that sent the message. */
  function ReplyPayload(opts: ClientOpts, to: Received, data: Bytes): RelayPayload {
    RelayPayload(
      Some(Self(opts)),
      Some(Entity(to.from.id, to.from.entityType, to.from.space)),
      to.seqNo,
      Some(Any("", data)))
  }

  /** The message kept for retransmitting a reply, when the peer's entity type is a known one. */
  function ReplyMessage(to: Received, data: Bytes, qos: QoS): Option<SendMessage> {
    match TryFromI32(to.from.entityType)
    case None => None
    case Some(t) => Some(SendMessage(t, data, to.from.id, to.from.space, qos))
  }

  /** A retransmitted reply equals its first copy field for field, both carry the answer from the client to
      the sender under the number of what it sent, and there is a message to retransmit exactly when the
      peer's entity type is one of the four known ones. */
  lemma ReplyCopiesAgree(opts: ClientOpts, to: Received, data: Bytes, qos: QoS)
    ensures IsReply(opts, to, data, ReplyPayload(opts, to, data))
    ensures ReplyMessage(to, data, qos).Some? <==> 0 <= to.from.entityType <= 3
    ensures ReplyMessage(to, data, qos).Some? ==>
              PayloadOf(opts, ReplyMessage(to, data, qos).value, to.seqNo) == ReplyPayload(opts, to, data)
  {
  }

  /** The fields of a payload leave nothing open. */
  lemma PayloadByFields(opts: ClientOpts, msg: SendMessage, q: Seq, p: RelayPayload)
    ensures IsMessage(opts, msg, q, p) <==> p == PayloadOf(opts, msg, q)
  {
  }
}
