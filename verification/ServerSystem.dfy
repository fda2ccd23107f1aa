/** The server with all its connections: the Server actor, the acceptor, and for every
    accepted stream a Connection and the passer that forwards its events. The Sender, the
    Receiver and the peer of a Connection are left arbitrary here: it hears any internal
    message at any time. */
module ServerSystem {
  import opened Messages
  import opened Machines
  import opened ServerCore
  import C = ConnectionCore

  datatype Passer = PWaiting | PHolding(event: ConnectionEvent) | PExited
  {
    function Hand(): seq<ConnectionEvent> { if PHolding? then [event] else [] }
  }

  /** One connection: `ext` and `events` are its channels from the server and to its passer;
      `emitted` is history. */
  datatype Link = Link(
    addr: Addr, conn: C.Conn, ext: seq<ConnectionMessage>, events: seq<ConnectionEvent>, passer: Passer,
    emitted: seq<ConnectionEvent>)

  datatype AcceptorAt = Listening | Announcing(conn: ConnId, addr: Addr) | Gone

  /** A call of `ServerHandle::request`. */
  datatype Ask = Ask(to: Addr, data: Payload)

  /** `lost` are the oneshots dropped outside the actors, `gone` those nobody listens to any
      more; `shown` is what was put into the
      user's channel; `told` are the connections a Close was handed to. */
  datatype System = System(
    srv: Srv, queue: seq<ServerMessage>, acceptor: AcceptorAt, links: seq<Link>,
    calls: seq<Ask>, blocked: set<Tx>, lost: set<Tx>, gone: set<Tx>,
    userOpen: bool, shown: seq<ServerEvent>, told: set<ConnId>)

  const BEGIN := System(START, [], Listening, [], [], {}, {}, {}, true, [], {})

  datatype Label =
    | User(user: UserLabel)
    | Accepting(acceptor: AcceptorLabel)
    | AtLink(conn: ConnId, link: LinkLabel)
    | Serving(server: ServerLabel)

  datatype UserLabel =
    | Call(to: Addr, data: Payload) | Enqueue(tx: Tx) | Withdraw(tx: Tx) | Abandon(tx: Tx)
    | Post(message: ServerMessage) | DropEvents

  datatype AcceptorLabel = Accept(addr: Addr) | Announce | AnnounceFails | Stop

  datatype LinkLabel =
    | LTake | LHear(message: InternalMessage) | LSent(ok: bool) | LOffer
    | LReceiverClosed | LSenderClosed | LOfferClose
    | PTake | PPush | PFail | PEnd

  datatype ServerLabel = STake | SHand | SEmit | STell(addr: Addr) | SStop

  // ----- the user: server_handle.rs -----

  predicate UserCan(s: System, l: UserLabel) {
    match l
    case Call(_, _) => true
    case Enqueue(tx) => tx in s.blocked && tx < |s.calls| && Room(s.queue) && !s.srv.at.Stopped?
    case Withdraw(tx) => tx in s.blocked
    case Abandon(tx) => tx < |s.calls|
    case Post(m) => (m.MSendEvent? || m.MClose? || m.MGetClients?) && Room(s.queue) && !s.srv.at.Stopped?
    case DropEvents => true
  }

  function UserDoes(s: System, l: UserLabel): System
    requires UserCan(s, l)
  {
    match l
    case Call(to, d) => s.(calls := s.calls + [Ask(to, d)], blocked := s.blocked + {|s.calls|})
    case Enqueue(tx) =>
      s.(blocked := s.blocked - {tx}, queue := s.queue + [MSendRequest(s.calls[tx].to, s.calls[tx].data, tx)])
    case Withdraw(tx) => s.(blocked := s.blocked - {tx}, lost := s.lost + {tx})
    case Abandon(tx) => s.(gone := s.gone + {tx})
    case Post(m) => s.(queue := s.queue + [m])
    case DropEvents => s.(userOpen := false)
  }

  // ----- the acceptor: acceptor.rs -----

  predicate AcceptorCan(s: System, l: AcceptorLabel) {
    match l
    case Accept(_) => s.acceptor.Listening?
    case Announce => s.acceptor.Announcing? && Room(s.queue) && !s.srv.at.Stopped?
    case AnnounceFails => s.acceptor.Announcing? && s.srv.at.Stopped?
    case Stop => s.acceptor.Listening?
  }

  /** The Connection and its passer run before the server is told of them. */
  function AcceptorDoes(s: System, l: AcceptorLabel): System
    requires AcceptorCan(s, l)
  {
    match l
    case Accept(a) =>
      s.(links := s.links + [Link(a, C.INIT, [], [], PWaiting, [])], acceptor := Announcing(|s.links|, a))
    case Announce => s.(queue := s.queue + [MNewConnection(s.acceptor.conn, s.acceptor.addr)], acceptor := Listening)
    case AnnounceFails => s.(acceptor := Gone)
    case Stop => s.(acceptor := Gone)
  }

  // ----- a connection and its passer: connection.rs, connection_passer.rs -----

  predicate LinkCan(s: System, c: ConnId, l: LinkLabel) {
    c < |s.links| &&
    var k := s.links[c];
    match l
    case LTake => k.ext != [] && C.CanTake(k.conn, C.External(k.ext[0]))
    case LHear(m) => C.CanTake(k.conn, C.Internal(m, s.gone))
    case LSent(ok) => C.CanTake(k.conn, C.Sent(ok))
    case LOffer => k.conn.at.OfferingEvent? && (Room(k.events) || k.passer.PExited?)
    case LReceiverClosed => C.CanTake(k.conn, C.ReceiverClosed)
    case LSenderClosed => C.CanTake(k.conn, C.SenderClosed(s.gone))
    case LOfferClose => k.conn.at.OfferingClose? && (Room(k.events) || k.passer.PExited?)
    case PTake => k.passer.PWaiting? && k.events != []
    case PPush => k.passer.PHolding? && Room(s.queue) && !s.srv.at.Stopped?
    case PFail => k.passer.PHolding? && s.srv.at.Stopped?
    case PEnd => k.passer.PWaiting? && k.events == [] && k.conn.at.Returned?
  }

  function LinkDoes(k: Link, c: ConnId, l: LinkLabel, s: System): Link
    requires LinkCan(s, c, l) && k == s.links[c]
  {
    match l
    case LTake => k.(conn := C.Next(k.conn, C.External(k.ext[0])), ext := k.ext[1..])
    case LHear(m) => k.(conn := C.Next(k.conn, C.Internal(m, s.gone)))
    case LSent(ok) => k.(conn := C.Next(k.conn, C.Sent(ok)))
    case LOffer => Emit(k.(conn := C.Next(k.conn, C.Offered(!k.passer.PExited?))), k.conn.at.event)
    case LReceiverClosed => k.(conn := C.Next(k.conn, C.ReceiverClosed))
    case LSenderClosed => k.(conn := C.Next(k.conn, C.SenderClosed(s.gone)))
    case LOfferClose => Emit(k.(conn := C.Next(k.conn, C.CloseOffered), ext := []), EClose)
    case PTake => k.(passer := PHolding(k.events[0]), events := k.events[1..])
    case PPush => k.(passer := PWaiting)
    case PFail => k.(passer := PExited, events := [])
    case PEnd => k.(passer := PExited)
  }

  function Emit(k: Link, event: ConnectionEvent): Link {
    if k.passer.PExited? then k else k.(events := k.events + [event], emitted := k.emitted + [event])
  }

  function LinkSystem(s: System, c: ConnId, l: LinkLabel): System
    requires LinkCan(s, c, l)
  {
    var k := s.links[c];
    var s' := s.(links := s.links[c := LinkDoes(k, c, l, s)]);
    match l
    case LOfferClose => s'.(lost := s.lost + QueuedTxs(k.ext))
    case PPush => s'.(queue := s.queue + [MConnectionEvent(k.addr, k.passer.event, c)])
    case _ => s'
  }

  function AskedTxs(queue: seq<ServerMessage>): set<Tx> {
    set m | m in queue && m.MSendRequest? :: m.tx
  }

  // ----- the Server: server.rs -----

  predicate HandingTo(at: ServerAt) { at.HandingRequest? || at.HandingEvent? }

  function HandedMessage(at: ServerAt): ConnectionMessage
    requires HandingTo(at)
  {
    if at.HandingRequest? then CRequest(at.data, at.tx) else CEvent(at.data)
  }

  /** The queue of connection c takes a message, or its Connection is gone. */
  predicate Answers(s: System, c: ConnId) {
    c < |s.links| && (Room(s.links[c].ext) || s.links[c].conn.at.Returned?)
  }

  predicate ServerCan(s: System, l: ServerLabel) {
    match l
    case STake => s.srv.at.Idle? && s.queue != []
    case SHand => HandingTo(s.srv.at) && Answers(s, s.srv.at.conn)
    case SEmit => s.srv.at.Emitting?
    case STell(a) =>
      s.srv.at.Closing? && a in s.srv.at.todo && a in s.srv.connections && Answers(s, s.srv.connections[a])
    case SStop => s.srv.at.Closing? && s.srv.at.todo == {}
  }

  function ServerDoes(s: System, l: ServerLabel): System
    requires ServerCan(s, l)
  {
    match l
    case STake => s.(srv := Next(s.srv, Take(s.queue[0])), queue := s.queue[1..])
    case SHand =>
      var c := s.srv.at.conn;
      var s' := s.(srv := Next(s.srv, Handed(!s.links[c].conn.at.Returned?)));
      if s.links[c].conn.at.Returned? then s'
      else Deliver(s', c, HandedMessage(s.srv.at))
    case SEmit =>
      s.(srv := Next(s.srv, Shown(s.userOpen)), shown := if s.userOpen then s.shown + [s.srv.at.event] else s.shown)
    case STell(a) =>
      var c := s.srv.connections[a];
      var s' := s.(srv := Next(s.srv, Told(a)));
      if s.links[c].conn.at.Returned? then s'
      else Deliver(s', c, CClose).(told := s.told + {c})
    case SStop => s.(srv := Next(s.srv, AllTold), queue := [], lost := s.lost + AskedTxs(s.queue))
  }

  function Deliver(s: System, c: ConnId, m: ConnectionMessage): System
    requires c < |s.links|
  {
    s.(links := s.links[c := s.links[c].(ext := s.links[c].ext + [m])])
  }

  // ----- the whole -----

  predicate Enabled(s: System, l: Label) {
    match l
    case User(l) => UserCan(s, l)
    case Accepting(l) => AcceptorCan(s, l)
    case AtLink(c, l) => LinkCan(s, c, l)
    case Serving(l) => ServerCan(s, l)
  }

  function Apply(s: System, l: Label): System
    requires Enabled(s, l)
  {
    match l
    case User(l) => UserDoes(s, l)
    case Accepting(l) => AcceptorDoes(s, l)
    case AtLink(c, l) => LinkSystem(s, c, l)
    case Serving(l) => ServerDoes(s, l)
  }

  function TryApply(s: System, l: Label): Option<System> {
    if Enabled(s, l) then Some(Apply(s, l)) else None
  }

  /** The state after a whole run; `None` if a label was not enabled. */
  ghost function Run(s: System, labels: seq<Label>): Option<System> {
    After(TryApply, s, labels)
  }
}
