/** What holds of every run of a server with any number of connections, whatever the
    peers, the user and the callers do. */
module ServerRuns {
  import opened Messages
  import opened Machines
  import opened Sequences
  import opened ServerCore
  import opened ServerSystem
  import opened ServerInvariants
  import opened ServerMerge
  import opened ServerRegistry
  import opened ServerNews
  import O = ServerOneshots
  import C = ConnectionCore

  /** No connection has issued more than 2^64 requests. */
  ghost predicate IdsSuffice(s: System) {
    forall c | 0 <= c < |s.links| :: |s.links[c].conn.issued| <= C.USIZE
  }

  ghost predicate ConnsInv(s: System) {
    forall c | 0 <= c < |s.links| :: C.ConnInv(s.links[c].conn)
  }

  ghost predicate ServerInv(s: System) {
    && LinksOk(s.links, s.srv.at.Stopped?) && Tagged(s)
    && RegistryInv(s.srv.connections, s.srv.log)
    && Merged(s) && Removals(s) && Farewells(s)
    && AnnouncedOnce(s) && NewsFollow(s)
    && O.Owned(s) && O.Carried(s)
  }

  lemma {:induction false} RegistryStep(s: System, l: Label)
    requires RegistryInv(s.srv.connections, s.srv.log) && Enabled(s, l)
    ensures RegistryInv(Apply(s, l).srv.connections, Apply(s, l).srv.log)
  {
    match l
    case Serving(STake) => NextRegistry(s.srv, Take(s.queue[0]));
    case Serving(SHand) => NextRegistry(s.srv, Handed(!s.links[s.srv.at.conn].conn.at.Returned?));
    case _ => assert Apply(s, l).srv.connections == s.srv.connections && Apply(s, l).srv.log == s.srv.log;
  }

  lemma {:induction false} ServerStep(s: System, l: Label)
    requires ServerInv(s) && Enabled(s, l)
    ensures ServerInv(Apply(s, l))
  {
    LinksStep(s, l);
    TaggedStep(s, l);
    RegistryStep(s, l);
    MergedStep(s, l);
    RemovalsStep(s, l);
    FarewellsStep(s, l);
    AnnouncedOnceStep(s, l);
    NewsStep(s, l);
    O.OwnedStep(s, l);
    O.CarriedStep(s, l);
  }

  lemma BeginOwned()
    ensures O.Owned(BEGIN) && O.Carried(BEGIN)
  {}

  lemma BeginMerged()
    ensures LinksOk(BEGIN.links, false) && Tagged(BEGIN) && Merged(BEGIN)
  {}

  lemma BeginRegistry()
    ensures RegistryInv(START.connections, START.log) && Removals(BEGIN) && Farewells(BEGIN)
  {}

  lemma BeginNews()
    ensures AnnouncedOnce(BEGIN) && NewsFollow(BEGIN)
  {}

  lemma BeginInv()
    ensures ServerInv(BEGIN)
  {
    BeginOwned();
    BeginMerged();
    BeginRegistry();
    BeginNews();
  }

  lemma {:induction false} ReachedInv(labels: seq<Label>, s: System)
    requires Run(BEGIN, labels) == Some(s)
    ensures ServerInv(s)
  {
    BeginInv();
    if labels != [] {
      var n := |labels| - 1;
      var r := Run(BEGIN, labels[..n]).value;
      ReachedInv(labels[..n], r);
      ServerStep(r, labels[n]);
    }
  }

  lemma {:induction false} ReachedInvolved(labels: seq<Label>, s: System)
    requires Run(BEGIN, labels) == Some(s) && FreshAddrs(s)
    ensures ServerInv(s) && Involved(s)
  {
    ReachedInv(labels, s);
    if labels != [] {
      var n := |labels| - 1;
      var r := Run(BEGIN, labels[..n]).value;
      AddrsStay(r, labels[n]);
      ReachedInvolved(labels[..n], r);
      InvolvedStep(r, labels[n]);
    }
  }

  lemma LinkIssuedStays(s: System, c: ConnId, l: LinkLabel)
    requires LinkCan(s, c, l)
    ensures |s.links[c].conn.issued| <= |LinkDoes(s.links[c], c, l, s).conn.issued|
  {}

  lemma IssuedStays(s: System, l: Label, c: ConnId)
    requires Enabled(s, l) && c < |s.links|
    ensures |s.links[c].conn.issued| <= |Apply(s, l).links[c].conn.issued|
  {
    if l.AtLink? {
      LinkIssuedStays(s, l.conn, l.link);
    }
  }

  lemma {:induction false} LinkConn(s: System, c: ConnId, l: LinkLabel)
    requires LinkCan(s, c, l) && C.ConnInv(s.links[c].conn)
    requires |LinkDoes(s.links[c], c, l, s).conn.issued| <= C.USIZE
    ensures C.ConnInv(LinkDoes(s.links[c], c, l, s).conn)
  {
    var k := s.links[c];
    match l
    case LTake => C.NextInv(k.conn, C.External(k.ext[0]));
    case LHear(m) => C.NextInv(k.conn, C.Internal(m, s.gone));
    case LSent(ok) => C.NextInv(k.conn, C.Sent(ok));
    case LOffer => C.NextInv(k.conn, C.Offered(!k.passer.PExited?));
    case LReceiverClosed => C.NextInv(k.conn, C.ReceiverClosed);
    case LSenderClosed => C.NextInv(k.conn, C.SenderClosed(s.gone));
    case LOfferClose => C.NextInv(k.conn, C.CloseOffered);
    case _ =>
  }

  lemma {:induction false} ConnsStep(s: System, l: Label)
    requires ConnsInv(s) && Enabled(s, l) && IdsSuffice(Apply(s, l))
    ensures ConnsInv(Apply(s, l))
  {
    match l
    case User(_) =>
    case Accepting(_) => C.InitInv();
    case AtLink(c, l') =>
      assert Apply(s, l).links == s.links[c := LinkDoes(s.links[c], c, l', s)];
      assert Apply(s, l).links[c] == LinkDoes(s.links[c], c, l', s);
      LinkConn(s, c, l');
    case Serving(_) =>
  }

  lemma {:induction false} IdsSufficeBefore(s: System, l: Label)
    requires Enabled(s, l) && IdsSuffice(Apply(s, l))
    ensures IdsSuffice(s)
  {
    AddrsStay(s, l);
    forall c | 0 <= c < |s.links|
      ensures |s.links[c].conn.issued| <= C.USIZE
    {
      IssuedStays(s, l, c);
    }
  }

  lemma {:induction false} ReachedConns(labels: seq<Label>, s: System)
    requires Run(BEGIN, labels) == Some(s) && IdsSuffice(s)
    ensures ConnsInv(s)
  {
    if labels != [] {
      var n := |labels| - 1;
      var r := Run(BEGIN, labels[..n]).value;
      IdsSufficeBefore(r, labels[n]);
      ReachedConns(labels[..n], r);
      ConnsStep(r, labels[n]);
    }
  }

  /** The Server's queue and those of the connections hold one message at most, and the user waits
      exactly as long as there is one in it. */
  lemma {:induction false} QueuesHoldOne(labels: seq<Label>, s: System, m: ServerMessage)
    requires Run(BEGIN, labels) == Some(s) && (m.MSendEvent? || m.MClose? || m.MGetClients?)
    ensures |s.queue| <= 1 && forall c | 0 <= c < |s.links| :: |s.links[c].ext| <= 1 && |s.links[c].events| <= 1
    ensures !s.srv.at.Stopped? ==> (Enabled(s, User(Post(m))) <==> s.queue == [])
  {
    ReachedInv(labels, s);
    assert forall c | 0 <= c < |s.links| :: LinkOk(s.links[c]);
  }

  // ----- merged streams -----

  /** What the user can see of an address. */
  function EventFrom(a: Addr): ServerEvent -> seq<ConnectionEvent> {
    (e: ServerEvent) => if !e.SNew? && e.from == a then ShownAs(e, e.src) else []
  }

  /** The user's stream, projected to one connection: a first part of what this connection
      emitted, under its own address, with its Close, if any, at the end and only once. With
      fresh addresses the user gets this projection by looking at the address. */
  lemma {:induction false} StreamsStayFaithful(labels: seq<Label>, s: System, c: ConnId)
    requires Run(BEGIN, labels) == Some(s) && c < |s.links|
    ensures var seen := FlatMap(EventOf(c), s.shown);
            && seen <= s.links[c].emitted && CloseLast(seen)
            && (EClose in seen ==> s.links[c].conn.at.Returned?)
    ensures forall e | e in s.shown && !e.SNew? && e.src == c :: e.from == s.links[c].addr
    ensures FreshAddrs(s) ==> FlatMap(EventFrom(s.links[c].addr), s.shown) == FlatMap(EventOf(c), s.shown)
    ensures s.srv.at.Running() ==> Handled(s, c) + Waiting(s, c) == s.links[c].emitted
  {
    ReachedInv(labels, s);
    assert MergedAt(s, c) && LinkOk(s.links[c]);
    assert forall e | e in s.shown :: ShownTag(s.links, e);
    if FreshAddrs(s) {
      AddressesTell(s, c);
    }
  }

  lemma {:induction false} AddressesTell(s: System, c: ConnId)
    requires FreshAddrs(s) && c < |s.links| && forall e | e in s.shown :: ShownTag(s.links, e)
    ensures FlatMap(EventFrom(s.links[c].addr), s.shown) == FlatMap(EventOf(c), s.shown)
  {
    forall e | e in s.shown
      ensures EventFrom(s.links[c].addr)(e) == EventOf(c)(e)
    {
      assert ShownTag(s.links, e);
    }
    FlatMapSame(EventFrom(s.links[c].addr), EventOf(c), s.shown);
  }

  /** With fresh addresses the user is told of each connection at most once, and only of
      connections that were announced. */
  lemma {:induction false} NewsOnce(labels: seq<Label>, s: System)
    requires Run(BEGIN, labels) == Some(s) && FreshAddrs(s)
    ensures NoDuplicates(FlatMap(AsNews, s.shown))
    ensures SubSeq(FlatMap(AsNews, s.shown), FlatMap(AnnouncedAddr, s.srv.log))
  {
    ReachedInv(labels, s);
    var log := s.srv.log;
    forall i, j | 0 <= i < j < |log| && log[i].Announced? && log[j].Announced?
      ensures log[i].addr != log[j].addr
    {
      assert OpTag(s.links, log[i]) && OpTag(s.links, log[j]);
    }
    AnnouncedAddrsDistinct(log);
    SubSeqCutTail(FlatMap(AsNews, s.shown), NewsHand(s.srv.at), FlatMap(AnnouncedAddr, log));
    SelectionHasNoDuplicates(FlatMap(AsNews, s.shown), FlatMap(AnnouncedAddr, log));
  }

  // ----- eviction -----

  /** The server drops a connection for a failed send only after its Connection has returned:
      all its requests were answered or canceled, and its Close was emitted. */
  lemma {:induction false} EvictionIsSound(labels: seq<Label>, s: System, op: RegistryOp)
    requires Run(BEGIN, labels) == Some(s) && IdsSuffice(s) && op in s.srv.log && op.Evicted?
    ensures op.conn < |s.links| && s.links[op.conn].addr == op.addr
    ensures var k := s.links[op.conn];
            && k.conn.at.Returned? && k.conn.replyMap == map[] && k.ext == []
            && (forall i | 0 <= i < |k.conn.issued| :: k.conn.issued[i].tx in k.conn.outcomes)
            && (!s.srv.at.Stopped? ==> EClose in k.emitted)
  {
    ReachedInv(labels, s);
    ReachedConns(labels, s);
    assert OpTag(s.links, op);
    var k := s.links[op.conn];
    assert LinkOk(k) && C.ConnInv(k.conn);
    forall i | 0 <= i < |k.conn.issued|
      ensures k.conn.issued[i].tx in k.conn.outcomes
    {
      assert C.FateAgrees(k.conn, i);
    }
  }

  // ----- oneshots -----

  /** The holder of a oneshot, anywhere between `ServerHandle::request` and its answer. */
  datatype Holder =
    | CallerHand | ServerQueue | ServerHand | Channel(conn: ConnId)
    | ReplyMap(conn: ConnId, id: nat) | Used(conn: ConnId, outcome: Outcome) | LetGo

  ghost predicate Holds(s: System, h: Holder, tx: Tx) {
    match h
    case CallerHand => tx in s.blocked
    case ServerQueue => tx in AskedTxs(s.queue)
    case ServerHand => s.srv.at.HandingRequest? && s.srv.at.tx == tx
    case Channel(c) => c < |s.links| && tx in QueuedTxs(s.links[c].ext)
    case ReplyMap(c, id) => c < |s.links| && id in s.links[c].conn.replyMap && s.links[c].conn.replyMap[id] == tx
    case Used(c, o) => c < |s.links| && tx in s.links[c].conn.outcomes && s.links[c].conn.outcomes[tx] == o
    case LetGo => tx in s.lost || tx in s.srv.dropped
  }

  function PlaceOf(h: Holder): O.Place {
    match h
    case CallerHand => O.WithCaller
    case ServerQueue => O.InQueue
    case ServerHand => O.InHand
    case Channel(c) => O.InChannel(c)
    case ReplyMap(c, _) => O.Issued(c)
    case Used(c, _) => O.Issued(c)
    case LetGo => O.LetGo
  }

  lemma {:induction false} HolderPlace(s: System, h: Holder, tx: Tx)
    requires ConnsInv(s) && Holds(s, h, tx)
    ensures O.IsAt(s, tx, PlaceOf(h))
  {
    match h
    case ReplyMap(c, id) => assert s.links[c].conn.issued[id].tx == tx;
    case Used(c, _) => assert C.ConnInv(s.links[c].conn) && !C.FreshTx(s.links[c].conn, tx);
    case _ =>
  }

  lemma {:induction false} HolderAt(s: System, p: O.Place, tx: Tx) returns (h: Holder)
    requires ConnsInv(s) && O.IsAt(s, tx, p)
    ensures Holds(s, h, tx) && PlaceOf(h) == p
  {
    match p
    case WithCaller => h := CallerHand;
    case InQueue => h := ServerQueue;
    case InHand => h := ServerHand;
    case InChannel(c) => h := Channel(c);
    case Issued(c) =>
      var conn := s.links[c].conn;
      var k :| 0 <= k < |conn.issued| && conn.issued[k].tx == tx;
      assert C.ConnInv(conn) && C.FateAgrees(conn, k);
      h := if k in conn.replyMap then ReplyMap(c, k) else Used(c, conn.outcomes[tx]);
    case LetGo => h := LetGo;
  }

  lemma {:induction false} SamePlaceSameHolder(s: System, h: Holder, h': Holder, tx: Tx)
    requires ConnsInv(s) && Holds(s, h, tx) && Holds(s, h', tx) && PlaceOf(h) == PlaceOf(h')
    ensures h == h'
  {
    if h.ReplyMap? || h'.ReplyMap? {
      var c := PlaceOf(h).conn;
      var conn := s.links[c].conn;
      assert C.ConnInv(conn);
      forall id | id in conn.replyMap && conn.replyMap[id] == tx
        ensures tx !in conn.outcomes
      {
        assert C.FateAgrees(conn, id);
      }
    }
  }

  /** Every oneshot there is has exactly one holder. */
  lemma {:induction false} OneshotsAreLinear(labels: seq<Label>, s: System, tx: Tx)
    requires Run(BEGIN, labels) == Some(s) && IdsSuffice(s)
    ensures tx < |s.calls| <==> exists h :: Holds(s, h, tx)
    ensures forall h, h' | Holds(s, h, tx) && Holds(s, h', tx) :: h == h'
  {
    ReachedInv(labels, s);
    ReachedConns(labels, s);
    assert O.Placed(s, tx) <==> tx < |s.calls|;
    if tx < |s.calls| {
      var p :| O.IsAt(s, tx, p);
      var h := HolderAt(s, p, tx);
    }
    forall h | Holds(s, h, tx)
      ensures O.IsAt(s, tx, PlaceOf(h))
    {
      HolderPlace(s, h, tx);
    }
    forall h, h' | Holds(s, h, tx) && Holds(s, h', tx)
      ensures h == h'
    {
      SamePlaceSameHolder(s, h, h', tx);
    }
  }

  /** What a caller of the server is answered comes from the connection at the address it
      asked, as the reply to a request with exactly its data. */
  lemma {:induction false} AnswersComeFromTheAsked(labels: seq<Label>, s: System, tx: Tx, c: ConnId, data: Payload)
    returns (k: nat)
    requires Run(BEGIN, labels) == Some(s) && IdsSuffice(s) && Holds(s, Used(c, Ok(data)), tx)
    ensures tx < |s.calls| && s.calls[tx].to == s.links[c].addr
    ensures var conn := s.links[c].conn;
            && k < |conn.issued| && conn.issued[k].tx == tx && conn.issued[k].at <= |conn.taken|
            && MRequest(Request(k, s.calls[tx].data)) in conn.accepted
            && C.FirstReply(conn.taken, conn.issued[k].at, k) == Some(data)
  {
    ReachedInv(labels, s);
    ReachedConns(labels, s);
    assert O.LinkCarries(s, s.links[c]);
    k := AnswerOfRequest(s.links[c].conn, tx, data);
  }

  lemma {:induction false} AnswerOfRequest(conn: C.Conn, tx: Tx, data: Payload) returns (k: nat)
    requires C.ConnInv(conn) && tx in conn.outcomes && conn.outcomes[tx] == Ok(data)
    ensures k < |conn.issued| && conn.issued[k].tx == tx && conn.issued[k].at <= |conn.taken|
    ensures MRequest(Request(k, conn.issued[k].data)) in conn.accepted
    ensures C.FirstReply(conn.taken, conn.issued[k].at, k) == Some(data)
  {
    assert !C.FreshTx(conn, tx);
    k :| 0 <= k < |conn.issued| && conn.issued[k].tx == tx;
    assert C.FateAgrees(conn, k);
    RequestAccepted(conn, k);
  }

  lemma {:induction false} RequestAccepted(conn: C.Conn, k: nat)
    requires C.IdsInOrder(conn) && k < |conn.issued|
    ensures MRequest(Request(k, conn.issued[k].data)) in conn.accepted
  {
    var m := FlatMapSource(AsRequest, conn.accepted, FlatMap(AsRequest, conn.accepted)[k]);
  }

  /** A request in a connection's channel has a oneshot that is new to its Connection, so the
      Connection takes whatever there is when it is selecting. */
  lemma {:induction false} TakingIsFree(labels: seq<Label>, s: System, c: ConnId)
    requires Run(BEGIN, labels) == Some(s)
    requires c < |s.links| && s.links[c].conn.at.Selecting? && s.links[c].ext != []
    ensures Enabled(s, AtLink(c, LTake))
  {
    ReachedInv(labels, s);
    var m := s.links[c].ext[0];
    if m.CRequest? {
      assert O.IsAt(s, m.tx, O.InChannel(c));
      assert !O.IsAt(s, m.tx, O.Issued(c));
    }
  }

  lemma {:induction false} UsedOutOfReach(s: System, c: ConnId, o: Outcome, tx: Tx)
    requires O.Owned(s) && ConnsInv(s) && Holds(s, Used(c, o), tx)
    ensures tx !in QueuedTxs(s.links[c].ext)
    ensures forall id | id in s.links[c].conn.replyMap :: s.links[c].conn.replyMap[id] != tx
  {
    HolderPlace(s, Used(c, o), tx);
    assert !O.IsAt(s, tx, O.InChannel(c));
    forall id | id in s.links[c].conn.replyMap
      ensures s.links[c].conn.replyMap[id] != tx
    {
      assert C.ConnInv(s.links[c].conn) && C.FateAgrees(s.links[c].conn, id);
    }
  }

  lemma OtherConnsStay(s: System, l: Label, c: ConnId)
    requires Enabled(s, l) && c < |s.links| && !(l.AtLink? && l.conn == c)
    ensures c < |Apply(s, l).links| && Apply(s, l).links[c].conn == s.links[c].conn
  {}

  lemma {:induction false} SettledStep(s: System, l: Label, h: Holder, tx: Tx)
    requires O.Owned(s) && ConnsInv(s) && Enabled(s, l) && Holds(s, h, tx) && (h.Used? || h.LetGo?)
    ensures Holds(Apply(s, l), h, tx)
  {
    if h.LetGo? {
      LetGoStays(s, l, tx);
    } else if l.AtLink? && l.conn == h.conn {
      UsedOutOfReach(s, h.conn, h.outcome, tx);
      SettledAtLink(s, h.conn, l.link, h, tx);
    } else {
      OtherConnsStay(s, l, h.conn);
    }
  }

  lemma LetGoStays(s: System, l: Label, tx: Tx)
    requires Enabled(s, l) && Holds(s, LetGo, tx)
    ensures Holds(Apply(s, l), LetGo, tx)
  {}

  lemma SettledAtLink(s: System, c: ConnId, l: LinkLabel, h: Holder, tx: Tx)
    requires LinkCan(s, c, l) && h.Used? && h.conn == c && Holds(s, h, tx) && tx !in QueuedTxs(s.links[c].ext)
    requires forall id | id in s.links[c].conn.replyMap :: s.links[c].conn.replyMap[id] != tx
    ensures Holds(LinkSystem(s, c, l), h, tx)
  {}

  /** A oneshot that was used or let go stays so, with its outcome, in every continuation. */
  lemma {:induction false} SettledStays(s: System, labels: seq<Label>, r: System, h: Holder, tx: Tx)
    requires ServerInv(s) && ConnsInv(s) && Run(s, labels) == Some(r) && IdsSuffice(r)
    requires Holds(s, h, tx) && (h.Used? || h.LetGo?)
    ensures ServerInv(r) && ConnsInv(r) && Holds(r, h, tx)
  {
    if labels != [] {
      var n := |labels| - 1;
      var q := Run(s, labels[..n]).value;
      IdsSufficeBefore(q, labels[n]);
      SettledStays(s, labels[..n], q, h, tx);
      ServerStep(q, labels[n]);
      ConnsStep(q, labels[n]);
      SettledStep(q, labels[n], h, tx);
    }
  }

  // ----- shutdown -----

  /** If the server has stopped, every connection registered at the end of its loop had a
      Close accepted by its queue, or had already returned. */
  lemma {:induction false} ShutdownReachesAll(labels: seq<Label>, s: System, a: Addr)
    requires Run(BEGIN, labels) == Some(s) && s.srv.at.Stopped? && a in s.srv.connections
    ensures ToldOrGone(s, s.srv.connections[a]) && WillClose(s, s.srv.connections[a])
  {
    ReachedInv(labels, s);
  }

  /** And once those connections have returned as well, the oneshot of a request is used or
      let go, or still with a caller, whose send cannot succeed any more; or, if an address
      came twice, it is at an open connection that has no entry. */
  lemma {:induction false} ShutdownLeavesNothingPending(labels: seq<Label>, s: System, tx: Tx) returns (h: Holder)
    requires Run(BEGIN, labels) == Some(s) && IdsSuffice(s) && s.srv.at.Stopped? && tx < |s.calls|
    requires forall c: ConnId | Registered(s, c) :: s.links[c].conn.at.Returned?
    ensures Holds(s, h, tx)
    ensures h.Used? || h.LetGo? || h.CallerHand? || (LeftOut(s, h) && !FreshAddrs(s))
    ensures h.CallerHand? ==> Enabled(s, User(Withdraw(tx))) && !Enabled(s, User(Enqueue(tx)))
  {
    ReachedInv(labels, s);
    ReachedConns(labels, s);
    assert O.Placed(s, tx);
    var p :| O.IsAt(s, tx, p);
    h := HolderAt(s, p, tx);
    if h.Channel? || h.ReplyMap? {
      StillOpen(s, h, tx);
      if FreshAddrs(s) {
        ReachedInvolved(labels, s);
      }
    }
  }

  /** The holder is a connection that has not returned and is not in the registry. */
  ghost predicate LeftOut(s: System, h: Holder) {
    && (h.Channel? || h.ReplyMap?) && h.conn < |s.links|
    && !s.links[h.conn].conn.at.Returned? && !Registered(s, h.conn)
  }

  lemma {:induction false} StillOpen(s: System, h: Holder, tx: Tx)
    requires ServerInv(s) && ConnsInv(s) && Holds(s, h, tx) && (h.Channel? || h.ReplyMap?)
    ensures h.conn < |s.links| && !s.links[h.conn].conn.at.Returned?
  {
    assert LinkOk(s.links[h.conn]) && C.ConnInv(s.links[h.conn].conn);
  }

  lemma {:induction false} Go(labels: seq<Label>, s: System, l: Label) returns (labels': seq<Label>, s': System)
    requires Run(BEGIN, labels) == Some(s) && Enabled(s, l)
    ensures s' == Apply(s, l) && labels' == labels + [l] && Run(BEGIN, labels') == Some(s')
  {
    labels', s' := labels + [l], Apply(s, l);
    AfterSnoc(TryApply, BEGIN, labels, l);
  }
}
