/** The server made of actor objects: the Server, the acceptor, and for every accepted
    stream a Connection with its passer. Every step of `ServerSystem` is a method here. */
module Hubs {
  import opened Messages
  import opened Machines
  import opened Channels
  import opened Actors
  import opened Connections
  import opened Servers
  import opened ServerCore
  import Sys = ServerSystem
  import Core = ConnectionCore

  /** A Connection, its handle, and the passer its events go to. */
  class LinkNode {
    const connection: Connection
    const hdl: ConnectionHdl
    const passer: PasserActor
    ghost var emitted: seq<ConnectionEvent>

    ghost function Repr(): set<object> {
      {this, connection, connection.rx, connection.internalRx, connection.receiverTx, connection.senderTx,
       connection.eventTx, passer}
    }

    ghost function View(): Sys.Link
      reads Repr()
    {
      Sys.Link(passer.addr, connection.State(), connection.rx.buf, connection.eventTx.buf, passer.at, emitted)
    }

    ghost predicate Valid()
      reads Repr()
    {
      && connection.Wired() && hdl.tx == connection.rx && passer.rx == connection.eventTx
      && connection.rx.capacity == connection.eventTx.capacity == CAPACITY
      && connection.rx.open == !connection.at.Returned?
      && connection.eventTx.open == !passer.at.PExited?
    }

    /** The first half of `accept_stream`: the Connection and its passer start. */
    constructor (addr: Addr, conn: ConnId, serverTx: Channel<ServerMessage>)
      ensures Valid() && fresh(Repr()) && View() == Sys.Link(addr, Core.INIT, [], [], Sys.PWaiting, [])
      ensures passer.serverTx == serverTx && passer.conn == conn
    {
      var rx := new Channel<ConnectionMessage>(CAPACITY);
      var events := new Channel<ConnectionEvent>(CAPACITY);
      var internalRx := new Channel<InternalMessage>(CAPACITY);
      var receiverTx := new Channel<ReceiverMessage>(CAPACITY);
      var senderTx := new Channel<SenderMessage>(CAPACITY);
      connection := new Connection(rx, internalRx, receiverTx, senderTx, events);
      hdl := new ConnectionHdl(rx);
      passer := new PasserActor(events, serverTx, addr, conn);
      emitted := [];
    }

    /** A step of the Connection. What it hears from its Receiver and its Sender is arbitrary. */
    method ConnectionStep(ghost s: Sys.System, ghost c: ConnId, l: Sys.LinkLabel, gone: set<Tx>)
      requires gone == s.gone && Valid() && Sys.LinkCan(s, c, l) && s.links[c] == View()
      requires !l.PTake? && !l.PPush? && !l.PFail? && !l.PEnd?
      modifies Repr()
      ensures Valid() && View() == Sys.LinkDoes(old(View()), c, l, s)
    {
      match l
      case LTake => ChannelStep(s, c, l);
      case LHear(m) => connection.HandleInternal(m, gone);
      case LSent(ok) => connection.Wake(Core.Sent(ok));
      case LOffer => ChannelStep(s, c, l);
      case LReceiverClosed => connection.Wake(Core.ReceiverClosed);
      case LSenderClosed => connection.Wake(Core.SenderClosed(gone));
      case LOfferClose => ChannelStep(s, c, l);
    }

    /** A step that takes from a channel or puts something into one. */
    method ChannelStep(ghost s: Sys.System, ghost c: ConnId, l: Sys.LinkLabel)
      requires Valid() && Sys.LinkCan(s, c, l) && s.links[c] == View()
      requires l.LTake? || l.LOffer? || l.LOfferClose?
      modifies Repr()
      ensures Valid() && View() == Sys.LinkDoes(old(View()), c, l, s)
    {
      match l
      case LTake => var ready := connection.PollExternal();
      case LOffer =>
        ghost var event := connection.at.event;
        var ready := connection.PollOffer();
        emitted := if passer.at.PExited? then emitted else emitted + [event];
      case LOfferClose =>
        var ready := connection.PollOfferClose();
        emitted := if passer.at.PExited? then emitted else emitted + [EClose];
    }

    /** A step of the passer; `PPush` is the one that puts something into the server's queue. */
    method PasserStep(ghost s: Sys.System, ghost c: ConnId, l: Sys.LinkLabel)
      requires Valid() && Sys.LinkCan(s, c, l) && s.links[c] == View()
      requires l.PTake? || l.PPush? || l.PFail? || l.PEnd?
      requires passer.serverTx.Valid() && passer.serverTx !in Repr()
      requires passer.serverTx.capacity == CAPACITY
      requires passer.serverTx.buf == s.queue && passer.serverTx.open == !s.srv.at.Stopped?
      modifies Repr(), passer.serverTx
      ensures Valid() && View() == Sys.LinkDoes(old(View()), c, l, s)
      ensures passer.serverTx.Valid() && passer.serverTx.open == old(passer.serverTx.open)
      ensures passer.serverTx.buf ==
        if l.PPush? then s.queue + [MConnectionEvent(passer.addr, old(passer.at).event, passer.conn)] else s.queue
    {
      match l
      case PTake => var ready := passer.PollTake();
      case PPush => var ready := passer.PollPush();
      case PFail => var ready := passer.PollPush();
      case PEnd => passer.End();
    }

    /** A message for the Connection; it is refused once the Connection has returned. */
    method Offer(m: ConnectionMessage) returns (ok: bool)
      requires Valid() && (Room(View().ext) || connection.at.Returned?)
      modifies connection.rx
      ensures Valid() && ok == !connection.at.Returned?
      ensures View() == if ok then old(View()).(ext := old(View()).ext + [m]) else old(View())
    {
      var r;
      match m {
        case CRequest(data, tx) => r := hdl.RequestWithSender(data, tx);
        case CEvent(data) => r := hdl.Event(data);
        case CClose => r := hdl.Close();
      }
      ok := r.Accepted?;
    }
  }

  class Hub {
    const server: Server
    const queue: Channel<ServerMessage>
    var acceptor: Sys.AcceptorAt
    var links: seq<LinkNode>
    var calls: seq<Sys.Ask>
    var blocked: set<Tx>
    var gone: set<Tx>
    var userOpen: bool
    ghost var lost: set<Tx>
    ghost var shown: seq<ServerEvent>
    ghost var told: set<ConnId>

    ghost var linksRepr: set<object>

    ghost function Repr(): set<object>
      reads this
    {
      {this, server, queue} + linksRepr
    }

    /** The objects of different connections are different. */
    ghost predicate Apart()
      reads this
    {
      && linksRepr !! {this, server, queue}
      && (forall i | 0 <= i < |links| :: links[i].Repr() <= linksRepr)
      && (forall i, j | 0 <= i < j < |links| :: links[i].Repr() !! links[j].Repr())
    }

    ghost function Views(n: nat): (views: seq<Sys.Link>)
      requires Apart() && n <= |links|
      reads this, linksRepr
      ensures |views| == n
      ensures forall i | 0 <= i < n :: views[i] == links[i].View()
    {
      if n == 0 then [] else Views(n - 1) + [links[n - 1].View()]
    }

    ghost function View(): Sys.System
      requires Apart()
      reads this, Repr()
    {
      Sys.System(server.State(), queue.buf, acceptor, Views(|links|), calls, blocked, lost, gone, userOpen, shown, told)
    }

    ghost predicate LinkValid(i: nat)
      requires Apart() && i < |links|
      reads this, linksRepr
    {
      links[i].Valid() && links[i].passer.serverTx == queue && links[i].passer.conn == i
    }

    ghost predicate Valid()
      reads Repr()
    {
      && server.rx == queue && queue.Valid() && queue.capacity == CAPACITY
      && queue.open == !server.at.Stopped?
      && Apart()
      && (forall i | 0 <= i < |links| :: LinkValid(i))
    }

    constructor ()
      ensures Valid() && fresh(Repr()) && View() == Sys.BEGIN
    {
      var queue := new Channel<ServerMessage>(CAPACITY);
      this.queue := queue;
      server := new Server(queue);
      acceptor, links, linksRepr := Sys.Listening, [], {};
      calls, blocked, gone, userOpen, lost, shown, told := [], {}, {}, true, {}, [], {};
    }

    /** What happens at one connection leaves the others alone. */
    twostate lemma OthersStay(c: ConnId)
      requires old(Valid()) && c < |links|
      requires links == old(links) && linksRepr == old(linksRepr) && links[c].Valid()
      requires unchanged(linksRepr - links[c].Repr())
      ensures Apart() && forall i | 0 <= i < |links| :: LinkValid(i)
      ensures Views(|links|) == old(View()).links[c := links[c].View()]
    {
      forall i | 0 <= i < |links| && i != c
        ensures LinkValid(i) && links[i].View() == old(links[i].View())
      {
        assert links[i].Repr() !! links[c].Repr();
        assert old(LinkValid(i));
      }
      assert old(LinkValid(c));
    }

    method LinkPasserStep(c: ConnId, l: Sys.LinkLabel)
      requires Valid() && Sys.LinkCan(View(), c, l)
      requires l.PTake? || l.PPush? || l.PFail? || l.PEnd?
      modifies Repr()
      ensures Valid() && View() == Sys.LinkSystem(old(View()), c, l) && linksRepr == old(linksRepr)
    {
      ghost var s := View();
      assert LinkValid(c);
      links[c].PasserStep(s, c, l);
      OthersStay(c);
    }

    method LinkConnectionStep(c: ConnId, l: Sys.LinkLabel)
      requires Valid() && Sys.LinkCan(View(), c, l)
      requires !l.PTake? && !l.PPush? && !l.PFail? && !l.PEnd? && !l.LOfferClose?
      modifies linksRepr
      ensures Valid() && View() == Sys.LinkSystem(old(View()), c, l)
    {
      ghost var s := View();
      assert LinkValid(c);
      links[c].ConnectionStep(s, c, l, gone);
      OthersStay(c);
    }

    /** What is in the queue of a Connection that returns is lost. */
    method LinkReturnStep(c: ConnId)
      requires Valid() && Sys.LinkCan(View(), c, Sys.LOfferClose)
      modifies Repr()
      ensures Valid() && View() == Sys.LinkSystem(old(View()), c, Sys.LOfferClose) && linksRepr == old(linksRepr)
    {
      ghost var s := View();
      assert LinkValid(c);
      lost := lost + QueuedTxs(s.links[c].ext);
      links[c].ConnectionStep(s, c, Sys.LOfferClose, gone);
      OthersStay(c);
    }

    /** So does what happens at none of them, a new connection included. */
    twostate lemma EarlierStay()
      requires old(Valid()) && Apart() && unchanged(old(linksRepr))
      requires |old(links)| <= |links| && links[..|old(links)|] == old(links)
      ensures forall i | 0 <= i < |old(links)| :: LinkValid(i)
      ensures Views(|old(links)|) == old(View()).links
    {
      forall i | 0 <= i < |old(links)|
        ensures LinkValid(i) && links[i].View() == old(View()).links[i]
      {
        assert links[i] == old(links)[i] && old(LinkValid(i));
      }
    }

    twostate lemma AllStay()
      requires old(Valid()) && links == old(links) && linksRepr == old(linksRepr) && unchanged(linksRepr)
      ensures Apart() && forall i | 0 <= i < |links| :: LinkValid(i)
      ensures Views(|links|) == old(View()).links
    {
      EarlierStay();
    }

    twostate lemma AllSame()
      requires old(Valid()) && unchanged(old(Repr()))
      ensures Valid() && View() == old(View())
    {
      AllStay();
    }

    // ----- the user -----

    method UserStep(l: Sys.UserLabel)
      requires Valid() && Sys.UserCan(View(), l)
      modifies Repr()
      ensures Valid() && View() == Sys.UserDoes(old(View()), l) && linksRepr == old(linksRepr)
    {
      match l
      case Call(to, data) => CallStep(to, data);
      case Enqueue(tx) => EnqueueStep(tx);
      case Withdraw(_) => LeaveStep(l);
      case Abandon(_) => LeaveStep(l);
      case Post(m) => Post(m);
      case DropEvents => LeaveStep(l);
    }

    method LeaveStep(l: Sys.UserLabel)
      requires Valid() && Sys.UserCan(View(), l) && (l.Withdraw? || l.Abandon? || l.DropEvents?)
      modifies this
      ensures Valid() && View() == Sys.UserDoes(old(View()), l) && linksRepr == old(linksRepr)
    {
      match l
      case Withdraw(tx) => WithdrawStep(tx);
      case Abandon(tx) => AbandonStep(tx);
      case DropEvents =>
        userOpen := false;
        AllStay();
    }

    method WithdrawStep(tx: Tx)
      requires Valid()
      modifies this`blocked, this`lost
      ensures Valid()
      ensures View() == old(View()).(blocked := old(View()).blocked - {tx}, lost := old(View()).lost + {tx})
    {
      blocked, lost := blocked - {tx}, lost + {tx};
      AllStay();
    }

    method AbandonStep(tx: Tx)
      requires Valid()
      modifies this`gone
      ensures Valid() && View() == old(View()).(gone := old(View()).gone + {tx})
    {
      gone := gone + {tx};
      AllStay();
    }

    method CallStep(to: Addr, data: Payload)
      requires Valid()
      modifies this`blocked, this`calls
      ensures Valid() && View() == Sys.UserDoes(old(View()), Sys.Call(to, data))
    {
      blocked, calls := blocked + {|calls|}, calls + [Sys.Ask(to, data)];
      AllStay();
    }

    method EnqueueStep(tx: Tx)
      requires Valid() && Sys.UserCan(View(), Sys.Enqueue(tx))
      modifies Repr()
      ensures Valid() && View() == Sys.UserDoes(old(View()), Sys.Enqueue(tx)) && linksRepr == old(linksRepr)
    {
      blocked := blocked - {tx};
      AllStay();
      Post(MSendRequest(calls[tx].to, calls[tx].data, tx));
    }

    /** A message enters the server's queue, unless the server is gone. */
    method Post(m: ServerMessage)
      requires Valid() && (Room(queue.buf) || server.at.Stopped?)
      modifies queue
      ensures Valid() && linksRepr == old(linksRepr)
      ensures View() == if server.at.Stopped? then old(View()) else old(View()).(queue := old(View()).queue + [m])
    {
      var r := queue.TrySend(m);
      AllStay();
    }

    // ----- the acceptor -----

    method AcceptorStep(l: Sys.AcceptorLabel)
      requires Valid() && Sys.AcceptorCan(View(), l)
      modifies Repr()
      ensures Valid() && View() == Sys.AcceptorDoes(old(View()), l) && fresh(linksRepr - old(linksRepr))
    {
      match l
      case Accept(addr) => AcceptStream(addr);
      case Announce =>
        var message := MNewConnection(acceptor.conn, acceptor.addr);
        SetAcceptor(Sys.Listening);
        Post(message);
      case AnnounceFails =>
        var message := MNewConnection(acceptor.conn, acceptor.addr);
        SetAcceptor(Sys.Gone);
        Post(message);
      case Stop => SetAcceptor(Sys.Gone);
    }

    method SetAcceptor(at: Sys.AcceptorAt)
      requires Valid()
      modifies this`acceptor
      ensures Valid() && View() == old(View()).(acceptor := at)
    {
      acceptor := at;
      AllStay();
    }

    /** A connection and its passer start before the server hears of them. */
    method AcceptStream(addr: Addr)
      requires Valid() && acceptor.Listening?
      modifies this
      ensures Valid() && fresh(linksRepr - old(linksRepr))
      ensures View() == old(View()).(
        links := old(View()).links + [Sys.Link(addr, Core.INIT, [], [], Sys.PWaiting, [])],
        acceptor := Sys.Announcing(|old(links)|, addr))
    {
      var link := new LinkNode(addr, |links|, queue);
      AllSame();
      Admit(link);
    }

    method Admit(link: LinkNode)
      requires Valid() && link.Valid() && link.Repr() !! Repr()
      requires link.passer.serverTx == queue && link.passer.conn == |links|
      modifies this
      ensures Valid() && linksRepr == old(linksRepr) + link.Repr()
      ensures View() == old(View()).(
        links := old(View()).links + [link.View()], acceptor := Sys.Announcing(|old(links)|, link.passer.addr))
    {
      SetAcceptor(Sys.Announcing(|links|, link.passer.addr));
      Adopt(link);
    }

    method Adopt(link: LinkNode)
      requires Valid() && link.Valid() && link.Repr() !! Repr()
      requires link.passer.serverTx == queue && link.passer.conn == |links|
      modifies this`links, this`linksRepr
      ensures Valid() && linksRepr == old(linksRepr) + link.Repr()
      ensures View() == old(View()).(links := old(View()).links + [link.View()])
    {
      links := links + [link];
      linksRepr := linksRepr + link.Repr();
      NewcomerApart(link);
      NewcomerStays(link);
    }

    twostate lemma NewcomerApart(link: LinkNode)
      requires old(Apart()) && old(link.Repr() !! Repr())
      requires links == old(links) + [link] && linksRepr == old(linksRepr) + link.Repr()
      ensures Apart()
    {
      forall i | 0 <= i < |links| - 1
        ensures links[i].Repr() <= old(linksRepr) && links[i].Repr() !! link.Repr()
      {
        assert links[i] == old(links)[i];
      }
    }

    twostate lemma NewcomerStays(link: LinkNode)
      requires old(Valid()) && old(link.Valid()) && Apart()
      requires link.passer.serverTx == queue && link.passer.conn == |old(links)|
      requires links == old(links) + [link] && unchanged(old(linksRepr)) && unchanged(link.Repr())
      ensures forall i | 0 <= i < |links| :: LinkValid(i)
      ensures Views(|links|) == old(View()).links + [old(link.View())]
    {
      EarlierStay();
      assert link.View() == old(link.View());
    }

    // ----- the Server -----

    method ServerStep(l: Sys.ServerLabel)
      requires Valid() && Sys.ServerCan(View(), l)
      modifies Repr()
      ensures Valid() && View() == Sys.ServerDoes(old(View()), l) && linksRepr == old(linksRepr)
    {
      match l
      case STake =>
        var ready := server.PollTake();
        AllStay();
      case SHand => HandStep();
      case SEmit => EmitStep();
      case STell(addr) => TellStep(addr);
      case SStop => StopStep();
    }

    method EmitStep()
      requires Valid() && Sys.ServerCan(View(), Sys.SEmit)
      modifies Repr()
      ensures Valid() && View() == Sys.ServerDoes(old(View()), Sys.SEmit) && linksRepr == old(linksRepr)
    {
      shown := if userOpen then shown + [server.at.event] else shown;
      server.AfterEmitting(userOpen);
      AllStay();
    }

    method Deliver(c: ConnId, m: ConnectionMessage) returns (ok: bool)
      requires Valid() && Sys.Answers(View(), c)
      modifies linksRepr
      ensures Valid() && ok == !old(View()).links[c].conn.at.Returned?
      ensures View() == if ok then Sys.Deliver(old(View()), c, m) else old(View())
    {
      ghost var before := View().links;
      assert LinkValid(c);
      ok := links[c].Offer(m);
      OthersStay(c);
      assert !ok ==> before[c := before[c]] == before;
    }

    /** `send_request` or `send_event` gets an answer from the connection's queue. */
    method HandStep()
      requires Valid() && Sys.ServerCan(View(), Sys.SHand)
      modifies Repr()
      ensures Valid() && View() == Sys.ServerDoes(old(View()), Sys.SHand) && linksRepr == old(linksRepr)
    {
      var at := server.at;
      var ok := Deliver(at.conn, Sys.HandedMessage(at));
      label Answered:
      server.AfterHanding(ok);
      AllStay@Answered();
    }

    method TellStep(addr: Addr)
      requires Valid() && Sys.ServerCan(View(), Sys.STell(addr))
      modifies Repr()
      ensures Valid() && View() == Sys.ServerDoes(old(View()), Sys.STell(addr)) && linksRepr == old(linksRepr)
    {
      var c := server.connections[addr];
      var ok := Deliver(c, CClose);
      CountTold(addr, c, ok);
    }

    method CountTold(addr: Addr, c: ConnId, ok: bool)
      requires Valid() && server.at.Closing? && addr in server.at.todo
      modifies this, server
      ensures Valid() && linksRepr == old(linksRepr)
      ensures View() == old(View()).(
        srv := Next(old(View()).srv, Told(addr)), told := if ok then old(View()).told + {c} else old(View()).told)
    {
      told := if ok then told + {c} else told;
      server.AfterTelling(addr);
      AllStay();
    }

    method StopStep()
      requires Valid() && Sys.ServerCan(View(), Sys.SStop)
      modifies Repr()
      ensures Valid() && View() == Sys.ServerDoes(old(View()), Sys.SStop) && linksRepr == old(linksRepr)
    {
      lost := lost + Sys.AskedTxs(queue.buf);
      server.Wake(AllTold);
      queue.Drop();
      AllStay();
    }

    // ----- runs -----

    method Step(l: Sys.Label)
      requires Valid() && Sys.Enabled(View(), l)
      modifies Repr()
      ensures Valid() && View() == Sys.Apply(old(View()), l) && fresh(linksRepr - old(linksRepr))
    {
      match l
      case User(l) => UserStep(l);
      case Accepting(l) => AcceptorStep(l);
      case AtLink(c, l) =>
        if l.PTake? || l.PPush? || l.PFail? || l.PEnd? {
          LinkPasserStep(c, l);
        } else if l.LOfferClose? {
          LinkReturnStep(c);
        } else {
          LinkConnectionStep(c, l);
        }
      case Serving(l) => ServerStep(l);
    }

    method StepOfRun(ghost start: Sys.System, labels: seq<Sys.Label>, n: nat)
      requires Sys.Run(start, labels).Some? && n < |labels|
      requires Valid() && Sys.Run(start, labels[..n]) == Some(View())
      modifies Repr()
      ensures Valid() && Sys.Run(start, labels[..n + 1]) == Some(View())
      ensures fresh(linksRepr - old(linksRepr))
    {
      AfterGoesOn(Sys.TryApply, start, labels, n);
      Step(labels[n]);
    }

    /** The objects go through every run of the server that the specification allows. */
    method Perform(labels: seq<Sys.Label>)
      requires Valid() && Sys.Run(View(), labels).Some?
      modifies Repr()
      ensures Valid() && Sys.Run(old(View()), labels) == Some(View())
    {
      ghost var start := View();
      for n := 0 to |labels|
        invariant Valid() && fresh(linksRepr - old(linksRepr))
        invariant Sys.Run(start, labels[..n]) == Some(View())
      {
        StepOfRun(start, labels, n);
      }
      assert labels[..|labels|] == labels;
    }
  }
}
