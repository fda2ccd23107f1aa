/** The Server actor, the acceptor and the passers as objects. The methods of the Server
    run it from one await point to the next and realise the steps of `ServerCore.Next`. */
module Servers {
  import opened Messages
  import opened Sequences
  import opened Machines
  import opened Channels
  import opened ServerCore
  import System = ServerSystem

  class Server {
    var connections: map<Addr, ConnId>
    var at: ServerAt

    ghost var log: seq<RegistryOp>
    ghost var dropped: set<Tx>

    const rx: Channel<ServerMessage>

    ghost function State(): Srv
      reads this
    {
      Srv(connections, at, log, dropped)
    }

    constructor (rx: Channel<ServerMessage>)
      ensures State() == START && this.rx == rx
    {
      this.rx := rx;
      connections, at, log, dropped := map[], Idle, [], {};
    }

    // ----- handlers: they run up to the next await -----

    /** `handle_message`, and the Close that `run` looks for before it. */
    method HandleMessage(message: ServerMessage) returns (clients: Option<seq<Addr>>)
      requires at.Idle?
      modifies this
      ensures State() == Handle(old(State()), message)
      ensures clients.Some? <==> message.MGetClients?
      ensures clients.Some? ==> Lists(clients.value, connections.Keys)
    {
      clients := None;
      match message
      case MClose => StartClosing();
      case MGetClients =>
        var listed := GetClients();
        clients := Some(listed);
      case MNewConnection(conn, addr) => NewConnection(conn, addr);
      case MConnectionEvent(from, event, src) => OnConnectionEvent(event, from, src);
      case MSendRequest(to, data, tx) => SendRequest(to, data, tx);
      case MSendEvent(to, data) =>
        if to in connections {
          at := HandingEvent(to, connections[to], data);
        }
    }

    /** Every address there is, once. */
    method GetClients() returns (clients: seq<Addr>)
      ensures Lists(clients, connections.Keys)
    {
      clients := [];
      var keys := connections.Keys;
      while keys != {}
        invariant keys <= connections.Keys
        invariant Lists(clients, connections.Keys - keys)
        decreases keys
      {
        var key :| key in keys;
        keys := keys - {key};
        clients := clients + [key];
      }
    }

    method NewConnection(conn: ConnId, addr: Addr)
      requires at.Idle?
      modifies this
      ensures State() == Announce(old(State()), conn, addr)
    {
      log := log + [Announced(addr, conn)];
      if addr in connections {
        return;
      }
      connections := connections[addr := conn];
      at := Emitting(SNew(addr));
    }

    method OnConnectionEvent(event: ConnectionEvent, from: Addr, src: ConnId)
      requires at.Idle?
      modifies this
      ensures State() == Handle(old(State()), MConnectionEvent(from, event, src))
    {
      match event
      case EClose =>
        connections := connections - {from};
        log := log + [Departed(from, src)];
        at := Emitting(SClosed(from, src));
      case EEvent(data) => at := Emitting(SEvent(from, data, src));
      case ERequest(request) => at := Emitting(SRequest(from, request, src));
    }

    method SendRequest(to: Addr, data: Payload, tx: Tx)
      requires at.Idle?
      modifies this
      ensures State() == Handle(old(State()), MSendRequest(to, data, tx))
    {
      if to in connections {
        at := HandingRequest(to, connections[to], data, tx);
      } else {
        dropped := dropped + {tx};
      }
    }

    /** What follows a send to a connection: one that failed costs the connection its entry. */
    method AfterHanding(ok: bool)
      requires at.HandingRequest? || at.HandingEvent?
      modifies this
      ensures State() == Next(old(State()), Handed(ok))
    {
      if !ok {
        connections := connections - {at.to};
        log := log + [Evicted(at.to, at.conn)];
        dropped := if at.HandingRequest? then dropped + {at.tx} else dropped;
      }
      at := Idle;
    }

    /** What follows a send to the user: only a lost NewConnection is forgiven. */
    method AfterEmitting(ok: bool)
      requires at.Emitting?
      modifies this
      ensures State() == Next(old(State()), Shown(ok))
    {
      if ok || at.event.SNew? {
        at := Idle;
      } else {
        StartClosing();
      }
    }

    method StartClosing()
      modifies this`at
      ensures State() == Close(old(State()))
    {
      at := Closing(connections.Keys);
    }

    method AfterTelling(addr: Addr)
      requires at.Closing? && addr in at.todo
      modifies this`at
      ensures State() == Next(old(State()), Told(addr))
    {
      at := Closing(at.todo - {addr});
    }

    /** One turn of the actor. */
    method Wake(i: Input)
      requires CanTake(State(), i)
      modifies this
      ensures State() == Next(old(State()), i)
    {
      match i
      case Take(message) => var clients := HandleMessage(message);
      case Handed(ok) => AfterHanding(ok);
      case Shown(ok) => AfterEmitting(ok);
      case Told(addr) => AfterTelling(addr);
      case AllTold => at := Stopped;
    }

    /** `run`, for any course of the channels around it. */
    method Run(inputs: seq<Input>)
      requires Exec(State(), inputs).Some?
      modifies this
      ensures Exec(old(State()), inputs) == Some(State())
    {
      for n := 0 to |inputs|
        invariant Exec(old(State()), inputs[..n]) == Some(State())
      {
        AfterGoesOn(TryNext, old(State()), inputs, n);
        Wake(inputs[n]);
      }
      assert inputs[..|inputs|] == inputs;
    }

    /** `rx.recv()` and the handling of what it gives. */
    method PollTake() returns (ready: bool)
      requires rx.Valid() && at.Idle?
      modifies this, rx
      ensures rx.Valid() && rx.open == old(rx.open)
      ensures ready <==> old(rx.buf) != []
      ensures !ready ==> State() == old(State()) && rx.buf == []
      ensures ready ==> rx.buf == old(rx.buf)[1..] && State() == Next(old(State()), Take(old(rx.buf)[0]))
    {
      var x := rx.TryRecv();
      ready := x.Some?;
      if ready {
        Wake(Take(x.value));
      }
    }
  }

  /** A listing of `keys` without repetition. */
  ghost predicate Lists(clients: seq<Addr>, keys: set<Addr>) {
    && (forall a :: a in clients <==> a in keys)
    && (forall i, j | 0 <= i < j < |clients| :: clients[i] != clients[j])
  }

  /** `pass_messages`: forwards the events of connection `conn`, tagged with its address. */
  class PasserActor {
    var at: System.Passer
    const rx: Channel<ConnectionEvent>
    const serverTx: Channel<ServerMessage>
    const addr: Addr
    const conn: ConnId

    ghost predicate Wired()
      reads this, rx, serverTx
    {
      rx.Valid() && serverTx.Valid() && rx.open == !at.PExited?
    }

    constructor (rx: Channel<ConnectionEvent>, serverTx: Channel<ServerMessage>, addr: Addr, conn: ConnId)
      ensures at == System.PWaiting && this.rx == rx && this.serverTx == serverTx
      ensures this.addr == addr && this.conn == conn
    {
      at, this.rx, this.serverTx, this.addr, this.conn := System.PWaiting, rx, serverTx, addr, conn;
    }

    method PollTake() returns (ready: bool)
      requires Wired() && at.PWaiting?
      modifies this`at, rx
      ensures Wired() && (ready <==> old(rx.buf) != [])
      ensures ready ==> at == System.PHolding(old(rx.buf)[0]) && rx.buf == old(rx.buf)[1..]
      ensures !ready ==> at == System.PWaiting && rx.buf == []
    {
      var x := rx.TryRecv();
      ready := x.Some?;
      if ready {
        at := System.PHolding(x.value);
      }
    }

    /** `new_connection_event`: the server is gone when the send fails, and the passer gives up. */
    method PollPush() returns (ready: bool)
      requires Wired() && at.PHolding?
      modifies this`at, rx, serverTx
      ensures Wired() && serverTx.open == old(serverTx.open)
      ensures ready <==> old(serverTx.SendReady())
      ensures at == if !ready then old(at) else if old(serverTx.open) then System.PWaiting else System.PExited
      ensures serverTx.buf ==
        if ready && old(serverTx.open) then old(serverTx.buf) + [MConnectionEvent(addr, old(at).event, conn)]
        else old(serverTx.buf)
      ensures rx.buf == if at.PExited? then [] else old(rx.buf)
    {
      var r := serverTx.TrySend(MConnectionEvent(addr, at.event, conn));
      ready := !r.Full?;
      if r.Accepted? {
        at := System.PWaiting;
      } else if r.Disconnected? {
        End();
      }
    }

    method End()
      modifies this`at, rx
      ensures at == System.PExited && !rx.open && rx.buf == [] && rx.Valid()
    {
      at := System.PExited;
      rx.Drop();
    }

    /** One turn of the loop; the event stays in hand when the server's queue is full. */
    method PassOne() returns (passed: bool)
      requires Wired() && at.PWaiting? && serverTx.open && rx.buf != []
      modifies this`at, rx, serverTx
      ensures Wired() && serverTx.open && rx.buf == old(rx.buf)[1..]
      ensures passed ==> at.PWaiting? && serverTx.buf == old(serverTx.buf) + [Tagged(old(rx.buf)[0])]
      ensures !passed ==> at == System.PHolding(old(rx.buf)[0]) && serverTx.buf == old(serverTx.buf)
      ensures !passed ==> |serverTx.buf| == serverTx.capacity
    {
      var ready := PollTake();
      passed := PollPush();
    }

    /** The loop, up to where it has to wait: `n` events moved, in order and each with its tag. */
    method PassMessages() returns (n: nat)
      requires Wired() && at.PWaiting? && serverTx.open
      modifies this`at, rx, serverTx
      ensures Wired() && serverTx.open && n <= |old(rx.buf)|
      ensures serverTx.buf == old(serverTx.buf) + AllTagged(old(rx.buf)[..n])
      ensures at.Hand() + rx.buf == old(rx.buf)[n..]
      ensures if at.PWaiting? then n == |old(rx.buf)| else at.PHolding? && |serverTx.buf| == serverTx.capacity
    {
      ghost var events, queued := rx.buf, serverTx.buf;
      n := 0;
      var more := true;
      while more && rx.buf != []
        invariant Wired() && serverTx.open && n <= |events|
        invariant more ==> at.PWaiting? && rx.buf == events[n..]
        invariant !more ==> n < |events| && at == System.PHolding(events[n]) && rx.buf == events[n + 1..]
        invariant !more ==> |serverTx.buf| == serverTx.capacity
        invariant serverTx.buf == queued + AllTagged(events[..n])
        decreases |rx.buf|
      {
        more := PassOne();
        if more {
          AllTaggedSnoc(events, n);
          Associate(queued, AllTagged(events[..n]), [Tagged(events[n])]);
          n := n + 1;
        }
      }
    }

    ghost function Tagged(event: ConnectionEvent): ServerMessage {
      MConnectionEvent(addr, event, conn)
    }

    ghost function AllTagged(events: seq<ConnectionEvent>): seq<ServerMessage> {
      seq(|events|, i requires 0 <= i < |events| => Tagged(events[i]))
    }

    lemma AllTaggedSnoc(events: seq<ConnectionEvent>, n: nat)
      requires n < |events|
      ensures AllTagged(events[..n + 1]) == AllTagged(events[..n]) + [Tagged(events[n])]
    {}
  }
}
