/** A server one of whose connections is real to the end: behind connection `c` there is an
    endpoint with its Sender and its Receiver, the wire, and the endpoint of the peer. The
    server is the caller of that endpoint, and the passer is its user. */
module ServerEndToEnd {
  import opened Messages
  import opened Machines
  import opened ServerCore
  import opened EndpointSpec
  import Sys = ServerSystem
  import Tags = ServerInvariants
  import Runs = ServerRuns
  import O = ServerOneshots
  import Core = ConnectionCore
  import Joined = Duplex

  /** `d.a` is the endpoint behind connection `c` of the server, `d.b` the peer's. */
  datatype Whole = Whole(c: ConnId, s: Sys.System, d: Joined.Duplex)

  /** Before connection `c` is accepted its endpoint is there, with nothing to do. */
  function Beginning(c: ConnId, capacity: nat): Whole {
    Whole(c, Sys.BEGIN, Joined.Connected(CAPACITY, capacity))
  }

  /** Server, acceptor, passers and user take the first kind of turns, and so do all the other
      connections. The endpoint behind `c`, the wire and the peer take the second kind. */
  datatype Turn = Serve(act: Sys.Label) | Move(step: Joined.Step)

  predicate ByPasser(l: Sys.LinkLabel) { l.PTake? || l.PPush? || l.PFail? || l.PEnd? }

  /** The actors of an endpoint, and whoever holds one of its request handles. */
  predicate Inside(l: Label) {
    l.Connecting? || l.Sending? || l.Receiving? || (l.Using? && l.user.CompleteElsewhere?)
  }

  predicate Can(w: Whole, t: Turn) {
    match t
    case Serve(l) => Sys.Enabled(w.s, l) && (l.AtLink? && l.conn == w.c ==> ByPasser(l.link))
    case Move(t) => w.c < |w.s.links| && Joined.CanStep(w.d, t) && (t.A? ==> Inside(t.move))
  }

  /** What the endpoint behind `c` makes of a turn of the server: calls are made of it, its
      channel takes what it is handed, and the passer drains its events. */
  function Felt(w: Whole, l: Sys.Label): Option<Label>
    requires Sys.Enabled(w.s, l)
  {
    match l
    case User(Call(_, data)) => Some(Caller(Call(data)))
    case User(Abandon(tx)) => Some(Caller(Abandon(tx)))
    case AtLink(c, PTake) => if c == w.c then Some(Using(Recv)) else None
    case AtLink(c, PFail) => if c == w.c then Some(Using(DropEvents)) else None
    case AtLink(c, PEnd) => if c == w.c then Some(Using(DropEvents)) else None
    case Serving(SHand) => if Reachable(w, w.s.srv.at.conn) then Some(Caller(HandedCall(w.s.srv.at))) else None
    case Serving(STell(a)) => if Reachable(w, w.s.srv.connections[a]) then Some(Caller(SendClose)) else None
    case _ => None
  }

  predicate Reachable(w: Whole, c: ConnId) {
    c == w.c && c < |w.s.links| && !w.s.links[c].conn.at.Returned?
  }

  function HandedCall(at: ServerAt): CallerLabel
    requires Sys.HandingTo(at)
  {
    if at.HandingRequest? then Enqueue(at.tx) else SendEvent(at.data)
  }

  /** What the server's side sees of a step of the Connection behind `c`. */
  function Seen(e: Endpoint, l: ConnLabel): Sys.LinkLabel
    requires ConnCan(e, l)
  {
    match l
    case TakeExternal => Sys.LTake
    case TakeInternal => Sys.LHear(e.inq[0])
    case SendMessage => Sys.LSent(!e.sender.at.SExited?)
    case OfferEvent => Sys.LOffer
    case CloseReceiver => Sys.LReceiverClosed
    case CloseSender => Sys.LSenderClosed
    case OfferClose => Sys.LOfferClose
  }

  function Do(w: Whole, t: Turn): Whole
    requires Can(w, t)
  {
    match t
    case Serve(l) => w.(s := Sys.Apply(w.s, l), d := Feel(w.d, Felt(w, l)))
    case Move(t) => w.(s := if t.A? && t.move.Connecting? then Follow(w, t.move.conn) else w.s, d := Joined.Do(w.d, t))
  }

  /** In the states there are, `l` is always enabled (`FeltIsEnabled`). */
  function Feel(d: Joined.Duplex, l: Option<Label>): Joined.Duplex {
    if l.Some? && Joined.CanStep(d, Joined.A(l.value)) then Joined.Do(d, Joined.A(l.value)) else d
  }

  /** And so is what the server's side sees (`SeenIsEnabled`). */
  function Follow(w: Whole, l: ConnLabel): Sys.System
    requires ConnCan(w.d.a, l)
  {
    var k := Seen(w.d.a, l);
    if Sys.LinkCan(w.s, w.c, k) then Sys.LinkSystem(w.s, w.c, k) else w.s
  }

  function TryDo(w: Whole, t: Turn): Option<Whole> {
    if Can(w, t) then Some(Do(w, t)) else None
  }

  ghost function Ran(w: Whole, turns: seq<Turn>): Option<Whole> {
    After(TryDo, w, turns)
  }

  // ----- the two sides agree -----

  ghost predicate LinkAgrees(k: Sys.Link, e: Endpoint) {
    && k.conn == e.conn && k.ext == e.ext && k.events == e.user.events
    && (e.user.open <==> !k.passer.PExited?)
  }

  ghost predicate Idling(e: Endpoint) {
    e.conn == Core.INIT && e.ext == [] && e.user.events == [] && e.user.open
  }

  /** The request is on its way to the Connection it will be handed to. */
  ghost predicate OnItsWay(s: Sys.System, tx: Tx) {
    O.IsAt(s, tx, O.WithCaller) || O.IsAt(s, tx, O.InQueue) || O.IsAt(s, tx, O.InHand)
  }

  ghost predicate CallsAgree(s: Sys.System, calls: Calls) {
    && |calls.data| == |s.calls| && (forall tx | 0 <= tx < |s.calls| :: calls.data[tx] == s.calls[tx].data)
    && calls.gone == s.gone
    && (forall tx: Tx | OnItsWay(s, tx) :: tx in calls.blocked)
  }

  ghost predicate InStep(w: Whole) {
    && (if w.c < |w.s.links| then LinkAgrees(w.s.links[w.c], w.d.a) else Idling(w.d.a))
    && w.d.a.user.capacity == CAPACITY && w.d.a.user.at.Idle?
    && CallsAgree(w.s, w.d.a.calls)
  }

  // ----- turns of the server -----

  lemma {:induction false} FeltIsEnabled(w: Whole, l: Sys.Label)
    requires InStep(w) && O.Owned(w.s) && Can(w, Serve(l)) && Felt(w, l).Some?
    ensures Joined.CanStep(w.d, Joined.A(Felt(w, l).value))
  {
    if l == Sys.Serving(Sys.SHand) && w.s.srv.at.HandingRequest? {
      assert O.IsAt(w.s, w.s.srv.at.tx, O.InHand);
      assert OnItsWay(w.s, w.s.srv.at.tx) && O.Placed(w.s, w.s.srv.at.tx);
    }
  }

  lemma {:induction false} UserAgrees(w: Whole, l: Sys.UserLabel)
    requires InStep(w) && O.Owned(w.s) && Sys.UserCan(w.s, l)
    ensures InStep(Do(w, Serve(Sys.User(l))))
  {
    var s' := Sys.UserDoes(w.s, l);
    Tags.StepFrame(w.s, Sys.User(l));
    forall tx: Tx | OnItsWay(s', tx)
      ensures OnItsWay(w.s, tx) || (l.Call? && tx == |w.s.calls|)
    {}
  }

  /** Nothing sets out, and the link and the endpoint are as they were. */
  ghost predicate SameWays(s: Sys.System, s': Sys.System) {
    && s'.calls == s.calls && s'.gone == s.gone
    && (forall tx: Tx | OnItsWay(s', tx) :: OnItsWay(s, tx))
  }

  lemma {:induction false} AcceptorAgrees(w: Whole, l: Sys.AcceptorLabel)
    requires InStep(w) && Sys.AcceptorCan(w.s, l)
    ensures InStep(Do(w, Serve(Sys.Accepting(l))))
  {
    var s' := Sys.AcceptorDoes(w.s, l);
    Tags.StepFrame(w.s, Sys.Accepting(l));
    assert l.Announce? ==> s'.queue == w.s.queue + [MNewConnection(w.s.acceptor.conn, w.s.acceptor.addr)];
    assert Sys.AskedTxs(s'.queue) == Sys.AskedTxs(w.s.queue);
    assert SameWays(w.s, s');
  }

  lemma {:induction false} PasserWays(s: Sys.System, c: ConnId, l: Sys.LinkLabel)
    requires Sys.LinkCan(s, c, l)
    ensures SameWays(s, Sys.LinkSystem(s, c, l)) && Sys.LinkSystem(s, c, l).srv == s.srv
  {
    var s' := Sys.LinkSystem(s, c, l);
    Tags.StepFrame(s, Sys.AtLink(c, l));
    assert l.PPush? ==> s'.queue == s.queue + [MConnectionEvent(s.links[c].addr, s.links[c].passer.event, c)];
    assert Sys.AskedTxs(s'.queue) == Sys.AskedTxs(s.queue);
  }

  lemma {:induction false} LinkAgreesStep(w: Whole, c: ConnId, l: Sys.LinkLabel)
    requires InStep(w) && Sys.LinkCan(w.s, c, l) && (c == w.c ==> ByPasser(l))
    ensures InStep(Do(w, Serve(Sys.AtLink(c, l))))
  {
    PasserWays(w.s, c, l);
  }

  lemma {:induction false} TakeAgrees(w: Whole)
    requires InStep(w) && Sys.ServerCan(w.s, Sys.STake)
    ensures InStep(Do(w, Serve(Sys.Serving(Sys.STake))))
  {
    var s', m := Sys.ServerDoes(w.s, Sys.STake), w.s.queue[0];
    assert w.s.queue == [m] + s'.queue;
    assert m.MSendRequest? ==> O.IsAt(w.s, m.tx, O.InQueue);
    assert Sys.AskedTxs(s'.queue) <= Sys.AskedTxs(w.s.queue);
    assert SameWays(w.s, s');
  }

  /** The oneshot in hand goes to the connection, and is on its way no longer. */
  lemma {:induction false} HandWays(s: Sys.System)
    requires O.Owned(s) && Sys.ServerCan(s, Sys.SHand)
    ensures var s' := Sys.ServerDoes(s, Sys.SHand);
            && SameWays(s, s')
            && (s.srv.at.HandingRequest? ==> !OnItsWay(s', s.srv.at.tx))
  {
    if s.srv.at.HandingRequest? {
      var tx := s.srv.at.tx;
      assert O.IsAt(s, tx, O.InHand);
      assert !O.IsAt(s, tx, O.InQueue) && !O.IsAt(s, tx, O.WithCaller);
    }
  }

  lemma {:induction false} HandAgrees(w: Whole)
    requires InStep(w) && O.Owned(w.s) && O.Carried(w.s) && Sys.ServerCan(w.s, Sys.SHand)
    ensures InStep(Do(w, Serve(Sys.Serving(Sys.SHand))))
  {
    HandWays(w.s);
    if Felt(w, Sys.Serving(Sys.SHand)).Some? {
      FeltIsEnabled(w, Sys.Serving(Sys.SHand));
    }
  }

  lemma {:induction false} RestAgrees(w: Whole, l: Sys.ServerLabel)
    requires InStep(w) && O.Owned(w.s) && Sys.ServerCan(w.s, l) && !l.STake? && !l.SHand?
    ensures InStep(Do(w, Serve(Sys.Serving(l))))
  {
    var s' := Sys.ServerDoes(w.s, l);
    assert Sys.AskedTxs(s'.queue) <= Sys.AskedTxs(w.s.queue);
    assert SameWays(w.s, s');
    if Felt(w, Sys.Serving(l)).Some? {
      FeltIsEnabled(w, Sys.Serving(l));
    }
  }

  lemma {:induction false} ServeAgrees(w: Whole, l: Sys.Label)
    requires InStep(w) && O.Owned(w.s) && O.Carried(w.s) && Can(w, Serve(l))
    ensures InStep(Do(w, Serve(l)))
  {
    match l
    case User(l) => UserAgrees(w, l);
    case Accepting(l) => AcceptorAgrees(w, l);
    case AtLink(c, l) => LinkAgreesStep(w, c, l);
    case Serving(l) =>
      if l.STake? {
        TakeAgrees(w);
      } else if l.SHand? {
        HandAgrees(w);
      } else {
        RestAgrees(w, l);
      }
  }

  // ----- turns behind connection `c` -----

  lemma {:induction false} SeenIsEnabled(w: Whole, l: ConnLabel)
    requires InStep(w) && w.c < |w.s.links| && ConnCan(w.d.a, l)
    ensures Sys.LinkCan(w.s, w.c, Seen(w.d.a, l))
  {}

  lemma {:induction false} ConnectionAgrees(w: Whole, l: ConnLabel)
    requires InStep(w) && Can(w, Move(Joined.A(Connecting(l))))
    ensures InStep(Do(w, Move(Joined.A(Connecting(l)))))
  {
    SeenIsEnabled(w, l);
    PasserWays(w.s, w.c, Seen(w.d.a, l));
  }

  lemma {:induction false} OthersAgree(w: Whole, t: Joined.Step)
    requires InStep(w) && Can(w, Move(t)) && !(t.A? && t.move.Connecting?)
    ensures InStep(Do(w, Move(t)))
  {}

  lemma {:induction false} AgreeStep(w: Whole, t: Turn)
    requires InStep(w) && O.Owned(w.s) && O.Carried(w.s) && Can(w, t)
    ensures InStep(Do(w, t))
  {
    match t
    case Serve(l) => ServeAgrees(w, l);
    case Move(t) =>
      if t.A? && t.move.Connecting? {
        ConnectionAgrees(w, t.move.conn);
      } else {
        OthersAgree(w, t);
      }
  }

  // ----- runs -----

  /** The server's part of a turn, and the endpoints' part: at most one step each. */
  lemma {:induction false} PartsOfTurn(w: Whole, t: Turn)
    requires InStep(w) && O.Owned(w.s) && Can(w, t)
    ensures Do(w, t).s == w.s || exists l :: Sys.Enabled(w.s, l) && Do(w, t).s == Sys.Apply(w.s, l)
    ensures Do(w, t).d == w.d || exists t' :: Joined.CanStep(w.d, t') && Do(w, t).d == Joined.Do(w.d, t')
  {
    match t
    case Serve(l) =>
      assert Do(w, t).s == Sys.Apply(w.s, l);
      if Felt(w, l).Some? {
        FeltIsEnabled(w, l);
        assert Do(w, t).d == Joined.Do(w.d, Joined.A(Felt(w, l).value));
      }
    case Move(t') =>
      assert Do(w, t).d == Joined.Do(w.d, t');
      if t'.A? && t'.move.Connecting? {
        SeenIsEnabled(w, t'.move.conn);
        var l := Sys.AtLink(w.c, Seen(w.d.a, t'.move.conn));
        assert Sys.Enabled(w.s, l) && Do(w, t).s == Sys.Apply(w.s, l);
      }
  }

  /** In every run the two sides agree, and each of them goes through a run of its own: what
      was proved of the runs of a server and of two joined endpoints holds of the whole. */
  lemma {:induction false} WholeRuns(c: ConnId, capacity: nat, turns: seq<Turn>, w: Whole)
    returns (labels: seq<Sys.Label>, steps: seq<Joined.Step>)
    requires Ran(Beginning(c, capacity), turns) == Some(w)
    ensures w.c == c && InStep(w)
    ensures Sys.Run(Sys.BEGIN, labels) == Some(w.s)
    ensures Joined.Play(Joined.Connected(CAPACITY, capacity), steps) == Some(w.d)
  {
    if turns == [] {
      labels, steps := [], [];
    } else {
      var n := |turns| - 1;
      var v := Ran(Beginning(c, capacity), turns[..n]).value;
      labels, steps := WholeRuns(c, capacity, turns[..n], v);
      Runs.ReachedInv(labels, v.s);
      AgreeStep(v, turns[n]);
      PartsOfTurn(v, turns[n]);
      if w.s != v.s {
        var l :| Sys.Enabled(v.s, l) && w.s == Sys.Apply(v.s, l);
        AfterSnoc(Sys.TryApply, Sys.BEGIN, labels, l);
        labels := labels + [l];
      }
      if w.d != v.d {
        var t :| Joined.CanStep(v.d, t) && w.d == Joined.Do(v.d, t);
        AfterSnoc(Joined.TryDo, Joined.Connected(CAPACITY, capacity), steps, t);
        steps := steps + [t];
      }
    }
  }

  /** What a caller of the server is answered by `c`: the peer's user received a handle with
      exactly what this caller asked, and called `complete` with exactly this data on it; and
      the caller had asked for the address of `c`. */
  ghost predicate Completed(w: Whole, tx: Tx, data: Payload) {
    && w.c < |w.s.links| && tx < |w.s.calls| && w.s.calls[tx].to == w.s.links[w.c].addr
    && exists k, j | 0 <= k < |w.d.a.conn.issued| && 0 <= j < |w.d.b.user.completions| ::
         && w.d.a.conn.issued[k].tx == tx
         && w.d.b.user.completions[j] == Completion(Request(k, w.s.calls[tx].data), data)
         && ERequest(Request(k, w.s.calls[tx].data)) in w.d.b.user.received
  }

  /** In every run of the whole, whatever is lost and whoever completes what: if a caller of the
      server got `Ok(data)` from `c`, this is what the peer's user completed its request with. */
  lemma {:induction false} AnswersAreCompletions(
    c: ConnId, capacity: nat, turns: seq<Turn>, w: Whole, tx: Tx, data: Payload)
    requires Ran(Beginning(c, capacity), turns) == Some(w)
    requires Runs.IdsSuffice(w.s) && |w.d.b.conn.issued| <= Core.USIZE
    requires Runs.Holds(w.s, Runs.Used(c, Ok(data)), tx)
    ensures Completed(w, tx, data)
  {
    var labels, steps := WholeRuns(c, capacity, turns, w);
    Joined.PlayedInv(CAPACITY, capacity, steps, w.d);
    var k, j := Joined.OkIsAnswer(w.d.a, w.d.ab, w.d.b, w.d.ba, tx, data);
    CarriedData(labels, w.s, c, k);
    assert w.d.b.user.completions[j] == Completion(Request(k, w.s.calls[tx].data), data);
  }

  /** What a connection issued is what was asked of the server. */
  lemma {:induction false} CarriedData(labels: seq<Sys.Label>, s: Sys.System, c: ConnId, k: nat)
    requires Sys.Run(Sys.BEGIN, labels) == Some(s) && c < |s.links| && k < |s.links[c].conn.issued|
    ensures var issue := s.links[c].conn.issued[k];
            issue.tx < |s.calls| && s.calls[issue.tx] == Sys.Ask(s.links[c].addr, issue.data)
  {
    Runs.ReachedInv(labels, s);
    assert O.LinkCarries(s, s.links[c]);
  }

  // ----- an answer -----

  lemma {:induction false} Onward(turns: seq<Turn>, w: Whole, t: Turn) returns (turns': seq<Turn>, w': Whole)
    requires Ran(Beginning(0, 1), turns) == Some(w) && Can(w, t)
    ensures w' == Do(w, t) && Ran(Beginning(0, 1), turns') == Some(w')
  {
    turns', w' := turns + [t], Do(w, t);
    AfterSnoc(TryDo, Beginning(0, 1), turns, t);
  }

  lemma {:induction false} ClientConnects(a: Addr) returns (turns: seq<Turn>, w: Whole)
    ensures Ran(Beginning(0, 1), turns) == Some(w)
    ensures w == Beginning(0, 1).(s := Sys.BEGIN.(
      srv := Srv(map[a := 0], ServerAt.Idle, [Announced(a, 0)], {}), acceptor := Sys.Listening, shown := [SNew(a)],
      links := [Sys.Link(a, Core.INIT, [], [], Sys.PWaiting, [])]))
  {
    turns, w := [], Beginning(0, 1);
    turns, w := Onward(turns, w, Serve(Sys.Accepting(Sys.Accept(a))));
    turns, w := Onward(turns, w, Serve(Sys.Accepting(Sys.Announce)));
    turns, w := Onward(turns, w, Serve(Sys.Serving(Sys.STake)));
    turns, w := Onward(turns, w, Serve(Sys.Serving(Sys.SEmit)));
  }

  /** The request is with the Server actor. */
  lemma {:induction false} ServerIsAsked(a: Addr, ask: Payload) returns (turns: seq<Turn>, w: Whole)
    ensures Ran(Beginning(0, 1), turns) == Some(w)
    ensures w.c == 0 && w.s.links == [Sys.Link(a, Core.INIT, [], [], Sys.PWaiting, [])]
    ensures w.s.srv.at == HandingRequest(a, 0, ask, 0) && w.s.gone == {}
    ensures w.d == Joined.Connected(1, 1).(a := Fresh(1).(calls := Calls([ask], {0}, map[], {})))
  {
    turns, w := ClientConnects(a);
    turns, w := Onward(turns, w, Serve(Sys.User(Sys.Call(a, ask))));
    turns, w := Onward(turns, w, Serve(Sys.User(Sys.Enqueue(0))));
    turns, w := Onward(turns, w, Serve(Sys.Serving(Sys.STake)));
  }

  /** The Connection after it sent one request. */
  function AskedConn(ask: Payload): Core.Conn {
    Core.Conn(1, map[0 := 0], Core.Selecting, map[], [MRequest(Request(0, ask))], [Core.Issue(0, ask, 0)], [])
  }

  /** The endpoint behind the connection has sent the request and waits. */
  ghost predicate AwaitsReply(w: Whole, ask: Payload) {
    && w.c == 0 && |w.s.links| == 1 && w.d.a.calls.gone == {} && w.s.gone == {}
    && w.d.a.conn == AskedConn(ask) && w.d.a.receiver == NEW_RECEIVER && w.d.a.inq == []
  }

  lemma {:induction false} RequestHanded(a: Addr, ask: Payload) returns (turns: seq<Turn>, w: Whole)
    ensures Ran(Beginning(0, 1), turns) == Some(w) && w.c == 0 && |w.s.links| == 1 && w.s.gone == {}
    ensures w.d == Joined.Connected(1, 1).(
      a := Fresh(1).(calls := Calls([ask], {}, map[], {}), ext := [CRequest(ask, 0)]))
  {
    turns, w := ServerIsAsked(a, ask);
    turns, w := Onward(turns, w, Serve(Sys.Serving(Sys.SHand)));
  }

  lemma {:induction false} RequestTaken(a: Addr, ask: Payload) returns (turns: seq<Turn>, w: Whole)
    ensures Ran(Beginning(0, 1), turns) == Some(w) && w.c == 0 && |w.s.links| == 1 && w.s.gone == {}
    ensures w.d == Joined.Connected(1, 1).(
      a := Fresh(1).(calls := Calls([ask], {}, map[], {}),
                     conn := AskedConn(ask).(at := Core.SendingMessage(MRequest(Request(0, ask))))))
  {
    turns, w := RequestHanded(a, ask);
    turns, w := Onward(turns, w, Move(Joined.A(Connecting(TakeExternal))));
  }

  lemma {:induction false} RequestSent(a: Addr, ask: Payload) returns (turns: seq<Turn>, w: Whole)
    ensures Ran(Beginning(0, 1), turns) == Some(w) && AwaitsReply(w, ask)
    ensures w.d.a.sender.at.SWaiting? && w.d.a.sender.queue == [SMessage(MRequest(Request(0, ask)))]
    ensures w.d.b == Fresh(1) && w.d.ab.frames == [] && w.d.ba.frames == []
  {
    turns, w := RequestTaken(a, ask);
    turns, w := Onward(turns, w, Move(Joined.A(Connecting(SendMessage))));
  }

  lemma {:induction false} RequestWritten(a: Addr, ask: Payload) returns (turns: seq<Turn>, w: Whole)
    ensures Ran(Beginning(0, 1), turns) == Some(w) && AwaitsReply(w, ask)
    ensures w.d.b == Fresh(1) && w.d.ab.frames == [MRequest(Request(0, ask))] && w.d.ba.frames == []
  {
    turns, w := RequestSent(a, ask);
    turns, w := Onward(turns, w, Move(Joined.A(Sending(SenderTake))));
    turns, w := Onward(turns, w, Move(Joined.A(Sending(SenderWrite))));
  }

  lemma {:induction false} RequestArrived(a: Addr, ask: Payload) returns (turns: seq<Turn>, w: Whole)
    ensures Ran(Beginning(0, 1), turns) == Some(w) && AwaitsReply(w, ask) && w.d.ba.frames == []
    ensures w.d.b == Fresh(1).(inq := [INew(MRequest(Request(0, ask)))], receiver := w.d.b.receiver)
  {
    turns, w := RequestWritten(a, ask);
    turns, w := Onward(turns, w, Move(Joined.B(Receiving(RecvFrame(MRequest(Request(0, ask)))))));
    turns, w := Onward(turns, w, Move(Joined.B(Receiving(Forward))));
  }

  lemma {:induction false} RequestSurfaced(a: Addr, ask: Payload) returns (turns: seq<Turn>, w: Whole)
    ensures Ran(Beginning(0, 1), turns) == Some(w) && AwaitsReply(w, ask) && w.d.ba.frames == []
    ensures w.d.b.user.received == [ERequest(Request(0, ask))] && w.d.b.conn.issued == []
    ensures w.d.b.sender.at.SWaiting? && w.d.b.sender.queue == []
  {
    turns, w := RequestArrived(a, ask);
    turns, w := Onward(turns, w, Move(Joined.B(Connecting(TakeInternal))));
    turns, w := Onward(turns, w, Move(Joined.B(Connecting(OfferEvent))));
    turns, w := Onward(turns, w, Move(Joined.B(Using(Recv))));
  }

  lemma {:induction false} ReplyWritten(a: Addr, ask: Payload, answer: Payload) returns (turns: seq<Turn>, w: Whole)
    ensures Ran(Beginning(0, 1), turns) == Some(w) && AwaitsReply(w, ask)
    ensures w.d.ba.frames == [MReply(Reply(0, answer))] && w.d.b.conn.issued == []
  {
    turns, w := RequestSurfaced(a, ask);
    turns, w := Onward(turns, w, Move(Joined.B(Using(CompleteElsewhere(Request(0, ask), answer)))));
    turns, w := Onward(turns, w, Move(Joined.B(Sending(SenderTake))));
    turns, w := Onward(turns, w, Move(Joined.B(Sending(SenderWrite))));
  }

  lemma {:induction false} ReplyTaken(a: Addr, ask: Payload, answer: Payload) returns (turns: seq<Turn>, w: Whole)
    ensures Ran(Beginning(0, 1), turns) == Some(w) && w.c == 0 && |w.s.links| == 1
    ensures w.d.a.conn.issued == AskedConn(ask).issued && w.d.b.conn.issued == []
    ensures 0 in w.d.a.conn.outcomes && w.d.a.conn.outcomes[0] == Ok(answer)
  {
    turns, w := ReplyWritten(a, ask, answer);
    turns, w := Onward(turns, w, Move(Joined.A(Receiving(RecvFrame(MReply(Reply(0, answer)))))));
    turns, w := Onward(turns, w, Move(Joined.A(Receiving(Forward))));
    turns, w := Onward(turns, w, Move(Joined.A(Connecting(TakeInternal))));
  }

  /** There is a run in which a caller of the server is answered. */
  lemma {:induction false} AnswerIsReachable(a: Addr, ask: Payload, answer: Payload)
    returns (turns: seq<Turn>, w: Whole)
    ensures Ran(Beginning(0, 1), turns) == Some(w) && Runs.IdsSuffice(w.s) && |w.d.b.conn.issued| <= Core.USIZE
    ensures Runs.Holds(w.s, Runs.Used(0, Ok(answer)), 0)
  {
    turns, w := ReplyTaken(a, ask, answer);
    var labels, steps := WholeRuns(0, 1, turns, w);
  }
}
