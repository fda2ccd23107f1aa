/** What every reachable state of the server and its connections satisfies. */
module ServerInvariants {
  import opened Messages
  import opened Sequences
  import opened ServerCore
  import opened ServerSystem
  import C = ConnectionCore

  /** Who changes what. */
  lemma StepFrame(s: System, l: Label)
    requires Enabled(s, l)
    ensures var d := Apply(s, l);
            && (l.User? ==>
                  d == s.(queue := d.queue, calls := d.calls, blocked := d.blocked, lost := d.lost, gone := d.gone,
                          userOpen := d.userOpen))
            && (l.Accepting? ==> d == s.(queue := d.queue, links := d.links, acceptor := d.acceptor))
            && (l.AtLink? ==> d == s.(queue := d.queue, links := d.links, lost := d.lost))
            && (l.Serving? ==>
                  d == s.(srv := d.srv, queue := d.queue, links := d.links, lost := d.lost, shown := d.shown,
                          told := d.told))
  {}

  // ----- one connection -----

  ghost predicate CloseLast(emitted: seq<ConnectionEvent>) {
    forall i | 0 <= i < |emitted| - 1 :: emitted[i] != EClose
  }

  ghost predicate LinkOk(k: Link) {
    && |k.ext| <= CAPACITY && |k.events| <= CAPACITY
    && (k.conn.at.Returned? ==> k.ext == [])
    && (k.passer.PExited? ==> k.events == [])
    && CloseLast(k.emitted) && (EClose in k.emitted ==> k.conn.at.Returned?)
    && C.HandsFit(k.conn.at)
  }

  /** While the server has not stopped, a passer stays until its Connection is gone, and so a
      Connection that is gone has emitted its Close. */
  ghost predicate LinkLive(k: Link) {
    && (k.passer.PExited? ==> k.conn.at.Returned?)
    && (k.conn.at.Returned? ==> EClose in k.emitted)
  }

  ghost predicate LinksOk(links: seq<Link>, stopped: bool) {
    forall c | 0 <= c < |links| :: LinkOk(links[c]) && (!stopped ==> LinkLive(links[c]))
  }

  lemma {:induction false} EmitOk(k: Link, conn: C.Conn, ext: seq<ConnectionMessage>, event: ConnectionEvent)
    requires LinkOk(k) && (Room(k.events) || k.passer.PExited?) && C.HandsFit(conn.at)
    requires EClose !in k.emitted && (event == EClose ==> conn.at.Returned?)
    requires ext == (if conn.at.Returned? then [] else k.ext)
    ensures LinkOk(Emit(k.(conn := conn, ext := ext), event))
  {}

  lemma {:induction false} LinkStays(s: System, c: ConnId, l: LinkLabel)
    requires LinkCan(s, c, l) && LinkOk(s.links[c])
    ensures LinkOk(LinkDoes(s.links[c], c, l, s))
  {
    var k := s.links[c];
    match l
    case LOffer => EmitOk(k, C.Next(k.conn, C.Offered(!k.passer.PExited?)), k.ext, k.conn.at.event);
    case LOfferClose => EmitOk(k, C.Next(k.conn, C.CloseOffered), [], EClose);
    case _ =>
  }

  lemma {:induction false} LinkLives(s: System, c: ConnId, l: LinkLabel)
    requires LinkCan(s, c, l) && LinkOk(s.links[c]) && LinkLive(s.links[c]) && !s.srv.at.Stopped?
    ensures LinkLive(LinkDoes(s.links[c], c, l, s))
  {
    var k := s.links[c];
    if l.LOfferClose? {
      assert LinkDoes(k, c, l, s).emitted[|k.emitted|] == EClose;
    }
  }

  lemma {:induction false} LinksStep(s: System, l: Label)
    requires LinksOk(s.links, s.srv.at.Stopped?) && Enabled(s, l)
    ensures LinksOk(Apply(s, l).links, Apply(s, l).srv.at.Stopped?)
  {
    var s' := Apply(s, l);
    match l
    case User(_) =>
    case Accepting(_) =>
    case AtLink(c, l) =>
      assert s'.links == s.links[c := LinkDoes(s.links[c], c, l, s)];
      LinkStays(s, c, l);
      if !s.srv.at.Stopped? {
        LinkLives(s, c, l);
      }
    case Serving(l) => DeliverOk(s, l);
  }

  lemma {:induction false} DeliverOk(s: System, l: ServerLabel)
    requires LinksOk(s.links, s.srv.at.Stopped?) && ServerCan(s, l)
    ensures LinksOk(ServerDoes(s, l).links, ServerDoes(s, l).srv.at.Stopped?)
  {
    var s' := ServerDoes(s, l);
    forall c | 0 <= c < |s'.links|
      ensures LinkOk(s'.links[c]) && (!s'.srv.at.Stopped? ==> LinkLive(s'.links[c]))
    {
      assert LinkOk(s.links[c]);
    }
  }

  // ----- names and addresses -----

  ghost predicate ShownTag(links: seq<Link>, e: ServerEvent) {
    !e.SNew? ==> e.src < |links| && e.from == links[e.src].addr
  }

  ghost predicate QueueTag(links: seq<Link>, m: ServerMessage) {
    && (m.MConnectionEvent? ==> m.src < |links| && m.from == links[m.src].addr)
    && (m.MNewConnection? ==> m.conn < |links| && m.addr == links[m.conn].addr)
  }

  ghost predicate AtTag(links: seq<Link>, srv: Srv) {
    && (srv.at.Emitting? ==> ShownTag(links, srv.at.event))
    && (HandingTo(srv.at) ==> srv.at.to in srv.connections && srv.connections[srv.at.to] == srv.at.conn)
    && (srv.at.Closing? ==> srv.at.todo <= srv.connections.Keys)
  }

  ghost predicate OpTag(links: seq<Link>, op: RegistryOp) {
    op.conn < |links| && op.addr == links[op.conn].addr
  }

  /** Whatever speaks of a connection speaks of one that was accepted, under its own address. */
  ghost predicate Tagged(s: System) {
    && (forall e | e in s.shown :: ShownTag(s.links, e))
    && (forall m | m in s.queue :: QueueTag(s.links, m))
    && AtTag(s.links, s.srv)
    && (s.acceptor.Announcing? ==> s.acceptor.conn < |s.links| && s.acceptor.addr == s.links[s.acceptor.conn].addr)
    && (forall op | op in s.srv.log :: OpTag(s.links, op))
    && (forall a | a in s.srv.connections ::
          s.srv.connections[a] < |s.links| && s.links[s.srv.connections[a]].addr == a)
  }

  ghost predicate SameAddrs(links: seq<Link>, links': seq<Link>) {
    |links| <= |links'| && forall c | 0 <= c < |links| :: links'[c].addr == links[c].addr
  }

  lemma AddrsStay(s: System, l: Label)
    requires Enabled(s, l)
    ensures SameAddrs(s.links, Apply(s, l).links)
  {}

  /** Nothing but the links changes. */
  lemma {:induction false} TagsStay(s: System, links: seq<Link>)
    requires Tagged(s) && SameAddrs(s.links, links)
    ensures Tagged(s.(links := links))
  {}

  lemma {:induction false} TakeTagged(s: System)
    requires Tagged(s) && ServerCan(s, STake)
    ensures Tagged(ServerDoes(s, STake))
  {
    var m := s.queue[0];
    assert QueueTag(s.links, m);
    var s' := ServerDoes(s, STake);
    forall op | op in s'.srv.log
      ensures OpTag(s.links, op)
    {
      assert op in s.srv.log || op == s'.srv.log[|s.srv.log|];
    }
  }

  lemma {:induction false} HandTagged(s: System)
    requires Tagged(s) && ServerCan(s, SHand)
    ensures Tagged(ServerDoes(s, SHand))
  {
    var s' := ServerDoes(s, SHand);
    forall op | op in s'.srv.log
      ensures OpTag(s'.links, op)
    {
      assert op in s.srv.log || op == Evicted(s.srv.at.to, s.srv.at.conn);
    }
  }

  lemma {:induction false} EmitTagged(s: System)
    requires Tagged(s) && ServerCan(s, SEmit)
    ensures Tagged(ServerDoes(s, SEmit))
  {}

  lemma {:induction false} CloseTagged(s: System, l: ServerLabel)
    requires Tagged(s) && ServerCan(s, l) && (l.STell? || l.SStop?)
    ensures Tagged(ServerDoes(s, l))
  {
    AddrsStay(s, Serving(l));
    TagsStay(s, ServerDoes(s, l).links);
  }

  lemma {:induction false} ServerTagged(s: System, l: ServerLabel)
    requires Tagged(s) && ServerCan(s, l)
    ensures Tagged(ServerDoes(s, l))
  {
    match l
    case STake => TakeTagged(s);
    case SHand => HandTagged(s);
    case SEmit => EmitTagged(s);
    case STell(_) => CloseTagged(s, l);
    case SStop => CloseTagged(s, l);
  }

  lemma {:induction false} UserTagged(s: System, l: UserLabel)
    requires Tagged(s) && UserCan(s, l)
    ensures Tagged(UserDoes(s, l))
  {
    StepFrame(s, User(l));
  }

  lemma {:induction false} AcceptorTagged(s: System, l: AcceptorLabel)
    requires Tagged(s) && AcceptorCan(s, l)
    ensures Tagged(AcceptorDoes(s, l))
  {
    StepFrame(s, Accepting(l));
    AddrsStay(s, Accepting(l));
    TagsStay(s, AcceptorDoes(s, l).links);
  }

  lemma {:induction false} LinkTagged(s: System, c: ConnId, l: LinkLabel)
    requires Tagged(s) && LinkCan(s, c, l)
    ensures Tagged(LinkSystem(s, c, l))
  {
    StepFrame(s, AtLink(c, l));
    AddrsStay(s, AtLink(c, l));
    TagsStay(s, LinkSystem(s, c, l).links);
  }

  lemma {:induction false} TaggedStep(s: System, l: Label)
    requires Tagged(s) && Enabled(s, l)
    ensures Tagged(Apply(s, l))
  {
    match l
    case User(l) => UserTagged(s, l);
    case Accepting(l) => AcceptorTagged(s, l);
    case AtLink(c, l) => LinkTagged(s, c, l);
    case Serving(l) => ServerTagged(s, l);
  }
}
