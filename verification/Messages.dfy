/** The values the actors of one endpoint exchange. The six user types of a parser
    are collapsed into one abstract `Payload`; a oneshot sender is named by the
    number `Tx` of the request call that created it. */
module Messages {
  type Payload(==, !new)

  type Tx = nat

  /** A request as it travels on the wire. */
  datatype Request = Request(id: nat, data: Payload)

  /** A reply as it travels on the wire. */
  datatype Reply = Reply(id: nat, data: Payload)

  datatype Message = MRequest(request: Request) | MReply(reply: Reply) | MEvent(event: Payload)

  /** What a `ConnectionHdl` puts into the Connection's external queue. */
  datatype ConnectionMessage = CClose | CRequest(data: Payload, tx: Tx) | CEvent(event: Payload)

  /** What the Receiver and the Sender put into the Connection's internal queue. */
  datatype InternalMessage = IClose | INew(message: Message)

  /** What the Connection and the request handles put into the Sender's queue. */
  datatype SenderMessage = SMessage(message: Message) | SClose

  /** What the Connection tells its user. A request event carries a handle, which is the request. */
  datatype ConnectionEvent = EClose | EEvent(event: Payload) | ERequest(request: Request)

  /** What a oneshot sender was used for by the Connection; dropping it unused is `Dropped`.
      A send that failed, because the receiving half was gone, is `Unheard`. */
  datatype Outcome = Ok(data: Payload) | Canceled | Dropped | Unheard

  /** `Sender::send` on a oneshot: what becomes of `o` when the receivers in `gone` were dropped. */
  function Delivered(gone: set<Tx>, tx: Tx, o: Outcome): Outcome {
    if tx in gone then Unheard else o
  }

  /** What the Connection puts into the Receiver's queue. */
  datatype ReceiverMessage = RClose

  /** Every channel an endpoint or a server makes for itself has room for one message. */
  const CAPACITY: nat := 1

  predicate Room<T>(queue: seq<T>) { |queue| < CAPACITY }

  datatype Option<T> = None | Some(value: T)

  /** The reply `RequestHandle::complete` builds: the id of the request, the data of the caller. */
  function CompletionOf(request: Request, data: Payload): Message {
    MReply(Reply(request.id, data))
  }

  // ----- projections of messages, used with Sequences.FlatMap -----

  /** The event with which the peer's Connection surfaces a message; a reply is not surfaced. */
  function AsEvent(m: Message): seq<ConnectionEvent> {
    match m
    case MRequest(r) => [ERequest(r)]
    case MEvent(d) => [EEvent(d)]
    case MReply(_) => []
  }

  function AsRequest(m: Message): seq<Request> {
    if m.MRequest? then [m.request] else []
  }

  function AsReply(m: Message): seq<Reply> {
    if m.MReply? then [m.reply] else []
  }

  function AsHandle(e: ConnectionEvent): seq<Request> {
    if e.ERequest? then [e.request] else []
  }

  function Queued(m: SenderMessage): seq<Message> {
    if m.SMessage? then [m.message] else []
  }

  function Incoming(m: InternalMessage): seq<Message> {
    if m.INew? then [m.message] else []
  }

  /** The oneshots waiting in a Connection's external channel. */
  function QueuedTxs(ext: seq<ConnectionMessage>): set<Tx> {
    set m | m in ext && m.CRequest? :: m.tx
  }

  predicate IsReplyTo(m: Message, id: nat) {
    m.MReply? && m.reply.id == id
  }
}
