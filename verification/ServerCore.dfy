/** The Server actor as a machine that is resumed at its await points: the registry of
    connections and the merge of their events. `Next` is the specification the methods of
    the class `Server` are proved against. */
module ServerCore {
  import opened Messages
  import opened Machines

  /** A socket address, and the number of the connection the acceptor made. Messages and
      events carry the number of their connection for history's sake; the actor never
      looks at it. */
  type Addr(==, !new)
  type ConnId = nat

  datatype ServerMessage =
    | MClose
    | MGetClients
    | MNewConnection(conn: ConnId, addr: Addr)
    | MConnectionEvent(from: Addr, event: ConnectionEvent, src: ConnId)
    | MSendRequest(to: Addr, data: Payload, tx: Tx)
    | MSendEvent(to: Addr, data: Payload)

  datatype ServerEvent =
    | SNew(addr: Addr)
    | SClosed(from: Addr, src: ConnId)
    | SRequest(from: Addr, request: Request, src: ConnId)
    | SEvent(from: Addr, data: Payload, src: ConnId)

  /** Where the actor is parked: on its queue, on the queue of a connection, on the user's
      channel; when it is closing, on the queues of the connections in `todo`. */
  datatype ServerAt =
    | Idle
    | HandingRequest(to: Addr, conn: ConnId, data: Payload, tx: Tx)
    | HandingEvent(to: Addr, conn: ConnId, data: Payload)
    | Emitting(event: ServerEvent)
    | Closing(todo: set<Addr>)
    | Stopped
  {
    predicate Running() { !Closing? && !Stopped? }
  }

  /** What happened to the registry: a connection was announced, closed, or found gone. */
  datatype RegistryOp =
    | Announced(addr: Addr, conn: ConnId)
    | Departed(addr: Addr, conn: ConnId)
    | Evicted(addr: Addr, conn: ConnId)
  {
    predicate Removes(a: Addr) { !Announced? && addr == a }
    predicate Announces(a: Addr) { Announced? && addr == a }
  }

  /** `log` is history, `dropped` the oneshots the actor has let go. */
  datatype Srv = Srv(connections: map<Addr, ConnId>, at: ServerAt, log: seq<RegistryOp>, dropped: set<Tx>)

  const START := Srv(map[], Idle, [], {})

  datatype Input =
    | Take(message: ServerMessage)
    | Handed(ok: bool)
    | Shown(ok: bool)
    | Told(addr: Addr)
    | AllTold

  predicate CanTake(s: Srv, i: Input) {
    match i
    case Take(_) => s.at.Idle?
    case Handed(_) => s.at.HandingRequest? || s.at.HandingEvent?
    case Shown(_) => s.at.Emitting?
    case Told(a) => s.at.Closing? && a in s.at.todo
    case AllTold => s.at.Closing? && s.at.todo == {}
  }

  function Next(s: Srv, i: Input): Srv
    requires CanTake(s, i)
  {
    match i
    case Take(m) => Handle(s, m)
    case Handed(ok) => if ok then s.(at := Idle) else Evict(s)
    case Shown(ok) => if ok || s.at.event.SNew? then s.(at := Idle) else Close(s)
    case Told(a) => s.(at := Closing(s.at.todo - {a}))
    case AllTold => s.(at := Stopped)
  }

  function Handle(s: Srv, m: ServerMessage): Srv {
    match m
    case MClose => Close(s)
    case MGetClients => s
    case MNewConnection(c, a) => Announce(s, c, a)
    case MConnectionEvent(from, EClose, src) =>
      s.(connections := s.connections - {from}, log := s.log + [Departed(from, src)],
         at := Emitting(SClosed(from, src)))
    case MConnectionEvent(from, EEvent(d), src) => s.(at := Emitting(SEvent(from, d, src)))
    case MConnectionEvent(from, ERequest(r), src) => s.(at := Emitting(SRequest(from, r, src)))
    case MSendRequest(to, d, tx) =>
      if to in s.connections then s.(at := HandingRequest(to, s.connections[to], d, tx))
      else s.(dropped := s.dropped + {tx})
    case MSendEvent(to, d) =>
      if to in s.connections then s.(at := HandingEvent(to, s.connections[to], d)) else s
  }

  /** The loop is left: every connection there is will be told to close. */
  function Close(s: Srv): Srv {
    s.(at := Closing(s.connections.Keys))
  }

  /** `new_connection`: the address of a connection that is already there is not taken over. */
  function Announce(s: Srv, c: ConnId, a: Addr): Srv {
    var s := s.(log := s.log + [Announced(a, c)]);
    if a in s.connections then s
    else s.(connections := s.connections[a := c], at := Emitting(SNew(a)))
  }

  /** A send to a connection failed: its entry is dropped, and the message with its oneshot. */
  function Evict(s: Srv): Srv
    requires s.at.HandingRequest? || s.at.HandingEvent?
  {
    s.(connections := s.connections - {s.at.to}, at := Idle, log := s.log + [Evicted(s.at.to, s.at.conn)],
       dropped := if s.at.HandingRequest? then s.dropped + {s.at.tx} else s.dropped)
  }

  function TryNext(s: Srv, i: Input): Option<Srv> {
    if CanTake(s, i) then Some(Next(s, i)) else None
  }

  /** The state after a whole run of inputs; `None` if an input did not fit. */
  ghost function Exec(s: Srv, inputs: seq<Input>): Option<Srv> {
    After(TryNext, s, inputs)
  }

  // ----- the registry is a function of its history -----

  /** Since its last removal, `a` was announced first by `c`. */
  ghost predicate FirstSince(log: seq<RegistryOp>, a: Addr, c: ConnId) {
    exists i :: FirstSinceAt(log, a, c, i)
  }

  ghost predicate FirstSinceAt(log: seq<RegistryOp>, a: Addr, c: ConnId, i: int) {
    && 0 <= i < |log| && log[i] == Announced(a, c)
    && (forall j | i < j < |log| :: !log[j].Removes(a))
    && (forall j | 0 <= j < i && log[j].Announces(a) :: exists r | j < r < i :: log[r].Removes(a))
  }

  /** Nobody announced `a` since its last removal. */
  ghost predicate Absent(log: seq<RegistryOp>, a: Addr) {
    forall j | 0 <= j < |log| && log[j].Announces(a) :: exists r | j < r < |log| :: log[r].Removes(a)
  }

  ghost predicate RegistryInv(connections: map<Addr, ConnId>, log: seq<RegistryOp>) {
    forall a: Addr :: if a in connections then FirstSince(log, a, connections[a]) else Absent(log, a)
  }

  lemma {:induction false} FirstSinceUnique(log: seq<RegistryOp>, a: Addr, c: ConnId, d: ConnId)
    requires FirstSince(log, a, c) && FirstSince(log, a, d)
    ensures c == d
  {
    var i :| FirstSinceAt(log, a, c, i);
    var j :| FirstSinceAt(log, a, d, j);
    if i < j {
      assert log[i].Announces(a);
    } else if j < i {
      assert log[j].Announces(a);
    }
  }

  lemma {:induction false} AbsentIsNotFirst(log: seq<RegistryOp>, a: Addr, c: ConnId)
    requires Absent(log, a)
    ensures !FirstSince(log, a, c)
  {
    forall i
      ensures !FirstSinceAt(log, a, c, i)
    {
      assert 0 <= i < |log| && log[i] == Announced(a, c) ==> log[i].Announces(a);
    }
  }

  lemma {:induction false} LogGrows(log: seq<RegistryOp>, op: RegistryOp, a: Addr, c: ConnId)
    ensures FirstSince(log, a, c) && !op.Removes(a) ==> FirstSince(log + [op], a, c)
    ensures Absent(log, a) && !op.Announces(a) ==> Absent(log + [op], a)
    ensures Absent(log, a) && op == Announced(a, c) ==> FirstSince(log + [op], a, c)
    ensures op.Removes(a) ==> Absent(log + [op], a)
  {
    var log' := log + [op];
    if FirstSince(log, a, c) && !op.Removes(a) {
      var i :| FirstSinceAt(log, a, c, i);
      assert forall r | 0 <= r < |log| :: log'[r] == log[r];
      assert FirstSinceAt(log', a, c, i);
    }
    if Absent(log, a) && !op.Announces(a) {
      forall j | 0 <= j < |log'| && log'[j].Announces(a)
        ensures exists r | j < r < |log'| :: log'[r].Removes(a)
      {
        assert j < |log| && log[j].Announces(a);
        var r :| j < r < |log| && log[r].Removes(a);
        assert log'[r].Removes(a);
      }
    }
    if Absent(log, a) && op == Announced(a, c) {
      forall j | 0 <= j < |log| && log'[j].Announces(a)
        ensures exists r | j < r < |log| :: log'[r].Removes(a)
      {
        assert log[j].Announces(a);
        var r :| j < r < |log| && log[r].Removes(a);
        assert log'[r].Removes(a);
      }
      assert FirstSinceAt(log', a, c, |log|);
    }
    if op.Removes(a) {
      assert log'[|log|].Removes(a);
    }
  }

  /** Every step keeps the registry equal to what its history says. */
  lemma {:induction false} NextRegistry(s: Srv, i: Input)
    requires RegistryInv(s.connections, s.log) && CanTake(s, i)
    ensures RegistryInv(Next(s, i).connections, Next(s, i).log)
  {
    var s' := Next(s, i);
    if s'.log != s.log {
      var op := s'.log[|s.log|];
      assert s'.log == s.log + [op];
      forall a: Addr
        ensures if a in s'.connections then FirstSince(s'.log, a, s'.connections[a]) else Absent(s'.log, a)
      {
        LogGrows(s.log, op, a, if a in s'.connections then s'.connections[a] else 0);
      }
    }
  }

  /** The registry maps an address to c exactly if, by its log, c was the first to announce it
      since its last removal. */
  lemma {:induction false} RegistryFollowsLog(inputs: seq<Input>, a: Addr, c: ConnId)
    requires Exec(START, inputs).Some?
    ensures var s := Exec(START, inputs).value;
            && RegistryInv(s.connections, s.log)
            && (a in s.connections && s.connections[a] == c <==> FirstSince(s.log, a, c))
  {
    if inputs != [] {
      var n := |inputs| - 1;
      RegistryFollowsLog(inputs[..n], a, c);
      NextRegistry(Exec(START, inputs[..n]).value, inputs[n]);
    }
    var s := Exec(START, inputs).value;
    if FirstSince(s.log, a, c) {
      if a in s.connections {
        FirstSinceUnique(s.log, a, c, s.connections[a]);
      } else {
        AbsentIsNotFirst(s.log, a, c);
      }
    }
  }
}
