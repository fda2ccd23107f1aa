/** One endpoint: the Connection, its Sender, its Receiver, the channels between them,
    the callers that hold a `ConnectionHdl` and the user that drains the events and
    completes requests. Every label is one actor running from one await point to the
    next; frames and errors of the websocket are arguments of the labels. */
module EndpointSpec {
  import opened Messages
  import opened Machines
  import opened ConnectionCore
  import opened SenderCore

  /** Where the Receiver is parked: on its channel and the stream, or on the internal channel. */
  datatype ReceiverAt = RListening | RForwarding(message: Message) | RReporting | RExited
  {
    function Hand(): seq<Message> { if RForwarding? then [message] else [] }
  }

  /** `framed` is history: the frames that were decoded. */
  datatype Receiver = Receiver(at: ReceiverAt, queue: seq<ReceiverMessage>, framed: seq<Message>)

  const NEW_RECEIVER := Receiver(RListening, [], [])

  /** The task that drains the events may stop to wait for one `complete`. */
  datatype UserAt = Idle | Completing(request: Request, data: Payload)

  datatype Completion = Completion(request: Request, data: Payload)

  /** The user's side: `events` is the content of its channel, of a `capacity` it chose.
      `emitted`, `received` and `completions` are history. */
  datatype User = User(
    at: UserAt, open: bool, capacity: nat, events: seq<ConnectionEvent>,
    emitted: seq<ConnectionEvent>, received: seq<ConnectionEvent>, completions: seq<Completion>)
  {
    predicate Accepts() { |events| < capacity }
  }

  /** Why a caller got no answer through its oneshot. */
  datatype Failure = SendError | RecvError | GaveUp

  /** Request call `tx` asked `data[tx]`. `blocked` calls wait for room in the external channel;
      nobody listens to the oneshots in `gone` any more. */
  datatype Calls = Calls(data: seq<Payload>, blocked: set<Tx>, failed: map<Tx, Failure>, gone: set<Tx>)

  /** `ext` and `inq` are the contents of the Connection's external and internal channel. */
  datatype Endpoint = Endpoint(
    conn: Conn, sender: Sender, receiver: Receiver, user: User, calls: Calls,
    ext: seq<ConnectionMessage>, inq: seq<InternalMessage>)

  function Fresh(capacity: nat): Endpoint {
    Endpoint(INIT, NEW_SENDER, NEW_RECEIVER, User(Idle, true, capacity, [], [], [], []),
             Calls([], {}, map[], {}), [], [])
  }

  datatype Label =
    | Caller(caller: CallerLabel)
    | Using(user: UserLabel)
    | Connecting(conn: ConnLabel)
    | Sending(sender: SenderLabel)
    | Receiving(receiver: ReceiverLabel)

  datatype CallerLabel =
    | Call(data: Payload) | Enqueue(tx: Tx) | CallFails(tx: Tx) | Withdraw(tx: Tx) | Abandon(tx: Tx)
    | SendEvent(data: Payload) | SendClose

  datatype UserLabel =
    | Recv | DropEvents
    | BeginComplete(request: Request, data: Payload) | FinishComplete
    | CompleteElsewhere(request: Request, data: Payload)

  datatype ConnLabel =
    | TakeExternal | TakeInternal | SendMessage | OfferEvent | CloseReceiver | CloseSender | OfferClose

  datatype SenderLabel = SenderTake | SenderWrite | SenderFail(closing: bool, wrote: bool) | SenderReport | SenderExit

  datatype ReceiverLabel = RecvFrame(message: Message) | RecvEnd | Forward | ReceiverReport | TakeClose

  // ----- callers: connection_hdl.rs -----

  // A timeout drops what the caller still has: the receiving half of its oneshot
  // (`Abandon`), and the message, if this did not enter the channel yet (`Withdraw`).

  predicate CallerCan(e: Endpoint, l: CallerLabel) {
    match l
    case Call(_) => true
    case Enqueue(tx) => tx in e.calls.blocked && tx < |e.calls.data| && Room(e.ext) && !e.conn.at.Returned?
    case CallFails(tx) => tx in e.calls.blocked && e.conn.at.Returned?
    case Withdraw(tx) => tx in e.calls.blocked
    case Abandon(tx) => tx < |e.calls.data|
    case SendEvent(_) => Room(e.ext) && !e.conn.at.Returned?
    case SendClose => Room(e.ext) && !e.conn.at.Returned?
  }

  function CallerDoes(e: Endpoint, l: CallerLabel): Endpoint
    requires CallerCan(e, l)
  {
    match l
    case Call(d) => e.(calls := e.calls.(data := e.calls.data + [d], blocked := e.calls.blocked + {|e.calls.data|}))
    case Enqueue(tx) =>
      e.(calls := e.calls.(blocked := e.calls.blocked - {tx}), ext := e.ext + [CRequest(e.calls.data[tx], tx)])
    case CallFails(tx) => e.(calls := GiveUp(e.calls, tx, SendError))
    case Withdraw(tx) => e.(calls := GiveUp(e.calls, tx, GaveUp))
    case Abandon(tx) => e.(calls := e.calls.(gone := e.calls.gone + {tx}))
    case SendEvent(d) => e.(ext := e.ext + [CEvent(d)])
    case SendClose => e.(ext := e.ext + [CClose])
  }

  function GiveUp(c: Calls, tx: Tx, why: Failure): Calls {
    c.(blocked := c.blocked - {tx}, failed := c.failed[tx := why])
  }

  // ----- the user: the event channel and request_handle.rs -----

  predicate UserCan(e: Endpoint, l: UserLabel) {
    match l
    case Recv => e.user.open && e.user.at.Idle? && e.user.events != []
    case DropEvents => e.user.open
    case BeginComplete(r, _) => e.user.at.Idle? && ERequest(r) in e.user.received
    case FinishComplete => e.user.at.Completing? && (e.sender.Accepts() || e.sender.at.SExited?)
    case CompleteElsewhere(r, _) => ERequest(r) in e.user.received && e.sender.Accepts()
  }

  function UserDoes(e: Endpoint, l: UserLabel): Endpoint
    requires UserCan(e, l)
  {
    match l
    case Recv =>
      e.(user := e.user.(received := e.user.received + [e.user.events[0]], events := e.user.events[1..]))
    case DropEvents => e.(user := e.user.(open := false, at := Idle, events := []))
    case BeginComplete(r, d) => e.(user := e.user.(at := Completing(r, d)))
    case FinishComplete =>
      var e' := e.(user := e.user.(at := Idle));
      if e.sender.at.SExited? then e' else Complete(e', e.user.at.request, e.user.at.data)
    case CompleteElsewhere(r, d) => Complete(e, r, d)
  }

  function Complete(e: Endpoint, r: Request, d: Payload): Endpoint {
    e.(sender := Push(e.sender, CompletionOf(r, d)),
       user := e.user.(completions := e.user.completions + [Completion(r, d)]))
  }

  // ----- the Connection: connection.rs -----

  predicate ConnCan(e: Endpoint, l: ConnLabel) {
    match l
    case TakeExternal => e.ext != [] && CanTake(e.conn, External(e.ext[0]))
    case TakeInternal => e.inq != [] && CanTake(e.conn, Internal(e.inq[0], e.calls.gone))
    case SendMessage => e.conn.at.SendingMessage? && (e.sender.Accepts() || e.sender.at.SExited?)
    case OfferEvent => e.conn.at.OfferingEvent? && (e.user.Accepts() || !e.user.open)
    case CloseReceiver => e.conn.at.ClosingReceiver? && (Room(e.receiver.queue) || e.receiver.at.RExited?)
    case CloseSender => e.conn.at.ClosingSender? && (e.sender.Accepts() || e.sender.at.SExited?)
    case OfferClose => e.conn.at.OfferingClose? && (e.user.Accepts() || !e.user.open)
  }

  function ConnDoes(e: Endpoint, l: ConnLabel): Endpoint
    requires ConnCan(e, l)
  {
    match l
    case TakeExternal => e.(conn := Next(e.conn, External(e.ext[0])), ext := e.ext[1..])
    case TakeInternal => e.(conn := Next(e.conn, Internal(e.inq[0], e.calls.gone)), inq := e.inq[1..])
    case SendMessage =>
      e.(conn := Next(e.conn, Sent(!e.sender.at.SExited?)),
         sender := if e.sender.at.SExited? then e.sender else Push(e.sender, e.conn.at.message))
    case OfferEvent =>
      e.(conn := Next(e.conn, Offered(e.user.open)), user := Emit(e.user, e.conn.at.event))
    case CloseReceiver =>
      e.(conn := Next(e.conn, ReceiverClosed),
         receiver := if e.receiver.at.RExited? then e.receiver else e.receiver.(queue := e.receiver.queue + [RClose]))
    case CloseSender =>
      e.(conn := Next(e.conn, SenderClosed(e.calls.gone)),
         sender := if e.sender.at.SExited? then e.sender else PushClose(e.sender))
    case OfferClose =>
      // `run` returns: the two channels are dropped with what is in them
      e.(conn := Next(e.conn, CloseOffered), user := Emit(e.user, EClose), ext := [], inq := [],
         calls := e.calls.(failed := e.calls.failed + map tx | tx in QueuedTxs(e.ext) :: RecvError))
  }

  /** An event is put into the user's channel, unless the user has dropped it. */
  function Emit(u: User, event: ConnectionEvent): User {
    if u.open then u.(events := u.events + [event], emitted := u.emitted + [event]) else u
  }

  // ----- the Sender: sender.rs -----

  predicate SenderCan(e: Endpoint, l: SenderLabel) {
    match l
    case SenderTake => e.sender.at.SWaiting? && e.sender.queue != []
    case SenderWrite => e.sender.at.SWriting?
    case SenderFail(_, _) => e.sender.at.SWriting?
    case SenderReport => e.sender.at.SReporting? && (Room(e.inq) || e.conn.at.Returned?)
    case SenderExit => e.sender.at.SClosing?
  }

  function SenderDoes(e: Endpoint, l: SenderLabel): Endpoint
    requires SenderCan(e, l)
  {
    match l
    case SenderTake => e.(sender := Take(e.sender))
    case SenderWrite => e.(sender := Write(e.sender))
    case SenderFail(closing, wrote) => e.(sender := Fail(e.sender, closing, wrote))
    case SenderReport => Tell(e.(sender := Reported(e.sender)), IClose)
    case SenderExit => e.(sender := Exit(e.sender))
  }

  /** `InternalHdl`: a message for the Connection, lost if it has returned. */
  function Tell(e: Endpoint, m: InternalMessage): Endpoint {
    if e.conn.at.Returned? then e else e.(inq := e.inq + [m])
  }

  // ----- the Receiver: receiver.rs -----

  predicate ReceiverCan(e: Endpoint, l: ReceiverLabel) {
    match l
    case RecvFrame(_) => e.receiver.at.RListening?
    case RecvEnd => e.receiver.at.RListening?
    case Forward => e.receiver.at.RForwarding? && (Room(e.inq) || e.conn.at.Returned?)
    case ReceiverReport => e.receiver.at.RReporting? && (Room(e.inq) || e.conn.at.Returned?)
    case TakeClose => e.receiver.at.RListening? && e.receiver.queue != []
  }

  function ReceiverDoes(e: Endpoint, l: ReceiverLabel): Endpoint
    requires ReceiverCan(e, l)
  {
    match l
    case RecvFrame(m) => e.(receiver := e.receiver.(at := RForwarding(m), framed := e.receiver.framed + [m]))
    case RecvEnd => e.(receiver := e.receiver.(at := RReporting))
    case Forward => Tell(e.(receiver := e.receiver.(at := RListening)), INew(e.receiver.at.message))
    case ReceiverReport => Tell(e.(receiver := e.receiver.(at := RExited, queue := [])), IClose)
    case TakeClose => e.(receiver := e.receiver.(at := RExited, queue := []))
  }

  // ----- the endpoint -----

  /** What the label needs in order not to block. A send to a dropped channel does not
      block, it fails. */
  predicate Enabled(e: Endpoint, l: Label) {
    match l
    case Caller(l) => CallerCan(e, l)
    case Using(l) => UserCan(e, l)
    case Connecting(l) => ConnCan(e, l)
    case Sending(l) => SenderCan(e, l)
    case Receiving(l) => ReceiverCan(e, l)
  }

  function Apply(e: Endpoint, l: Label): Endpoint
    requires Enabled(e, l)
  {
    match l
    case Caller(l) => CallerDoes(e, l)
    case Using(l) => UserDoes(e, l)
    case Connecting(l) => ConnDoes(e, l)
    case Sending(l) => SenderDoes(e, l)
    case Receiving(l) => ReceiverDoes(e, l)
  }

  function TryApply(e: Endpoint, l: Label): Option<Endpoint> {
    if Enabled(e, l) then Some(Apply(e, l)) else None
  }

  /** The state after a whole run; `None` if a label was not enabled. */
  ghost function Run(e: Endpoint, labels: seq<Label>): Option<Endpoint> {
    After(TryApply, e, labels)
  }
}
