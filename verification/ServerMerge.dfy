/** The events of all connections are merged into one stream. For each connection, what the
    user is shown and what is on its way to the user is what the connection emitted. */
module ServerMerge {
  import opened Messages
  import opened Sequences
  import opened ServerCore
  import opened ServerSystem
  import opened ServerInvariants

  /** A server event as the event of connection c it is. */
  function ShownAs(e: ServerEvent, c: ConnId): seq<ConnectionEvent> {
    match e
    case SNew(_) => []
    case SClosed(_, src) => if src == c then [EClose] else []
    case SRequest(_, r, src) => if src == c then [ERequest(r)] else []
    case SEvent(_, d, src) => if src == c then [EEvent(d)] else []
  }

  function EventOf(c: ConnId): ServerEvent -> seq<ConnectionEvent> { e => ShownAs(e, c) }

  function MessageOf(c: ConnId): ServerMessage -> seq<ConnectionEvent> {
    (m: ServerMessage) => if m.MConnectionEvent? && m.src == c then [m.event] else []
  }

  function HandOf(at: ServerAt, c: ConnId): seq<ConnectionEvent> {
    if at.Emitting? then ShownAs(at.event, c) else []
  }

  /** What the server has shown or is about to show of connection c. */
  function Handled(s: System, c: ConnId): seq<ConnectionEvent> {
    FlatMap(EventOf(c), s.shown) + HandOf(s.srv.at, c)
  }

  /** What of connection c is between its Connection and the server. */
  function Waiting(s: System, c: ConnId): seq<ConnectionEvent>
    requires c < |s.links|
  {
    FlatMap(MessageOf(c), s.queue) + s.links[c].passer.Hand() + s.links[c].events
  }

  ghost predicate MergedAt(s: System, c: ConnId)
    requires c < |s.links|
  {
    && (s.srv.at.Running() ==> Handled(s, c) + Waiting(s, c) == s.links[c].emitted)
    && FlatMap(EventOf(c), s.shown) <= s.links[c].emitted
  }

  ghost predicate Merged(s: System) {
    forall c | 0 <= c < |s.links| :: MergedAt(s, c)
  }

  lemma {:induction false} QueueGrows(s: System, s': System, m: ServerMessage, c: ConnId)
    requires c < |s.links| && MergedAt(s, c) && s'.queue == s.queue + [m] && MessageOf(c)(m) == []
    requires c < |s'.links| && s'.links[c] == s.links[c] && s'.srv == s.srv && s'.shown == s.shown
    ensures MergedAt(s', c)
  {
    FlatMapSnoc(MessageOf(c), s.queue, m);
    assert FlatMap(MessageOf(c), s'.queue) == FlatMap(MessageOf(c), s.queue);
  }

  /** Nothing in the system speaks of a connection that does not exist yet. */
  lemma {:induction false} NothingYet(s: System)
    requires Tagged(s)
    ensures Handled(s, |s.links|) == [] && FlatMap(EventOf(|s.links|), s.shown) == []
    ensures FlatMap(MessageOf(|s.links|), s.queue) == []
  {
    var c := |s.links|;
    assert forall e | e in s.shown :: ShownTag(s.links, e);
    assert forall e | e in s.shown :: EventOf(c)(e) == [];
    FlatMapNone(EventOf(c), s.shown);
    assert forall m | m in s.queue :: QueueTag(s.links, m);
    assert forall m | m in s.queue :: MessageOf(c)(m) == [];
    FlatMapNone(MessageOf(c), s.queue);
  }

  lemma {:induction false} AcceptMerged(s: System, a: Addr, c: ConnId)
    requires Tagged(s) && Merged(s) && s.acceptor.Listening? && c <= |s.links|
    ensures MergedAt(AcceptorDoes(s, Accept(a)), c)
  {
    if c == |s.links| {
      NothingYet(s);
    } else {
      assert MergedAt(s, c);
    }
  }

  lemma {:induction false} OtherLinkMerged(s: System, c: ConnId, l: LinkLabel, d: ConnId)
    requires d < |s.links| && MergedAt(s, d) && LinkCan(s, c, l) && d != c
    ensures MergedAt(LinkSystem(s, c, l), d)
  {
    if l.PPush? {
      QueueGrows(s, LinkSystem(s, c, l), MConnectionEvent(s.links[c].addr, s.links[c].passer.event, c), d);
    }
  }

  lemma {:induction false} PassMerged(s: System, c: ConnId)
    requires c < |s.links| && MergedAt(s, c) && LinkCan(s, c, PPush)
    ensures MergedAt(LinkSystem(s, c, PPush), c)
  {
    var k := s.links[c];
    FlatMapSnoc(MessageOf(c), s.queue, MConnectionEvent(k.addr, k.passer.event, c));
    var s' := LinkSystem(s, c, PPush);
    assert FlatMap(MessageOf(c), s'.queue) == FlatMap(MessageOf(c), s.queue) + [k.passer.event];
    assert Waiting(s', c) == Waiting(s, c);
  }

  lemma {:induction false} EmitMerged(s: System, c: ConnId, l: LinkLabel, event: ConnectionEvent)
    requires c < |s.links| && MergedAt(s, c) && LinkCan(s, c, l)
    requires (l.LOffer? && event == s.links[c].conn.at.event) || (l.LOfferClose? && event == EClose)
    requires s.srv.at.Running() ==> !s.links[c].passer.PExited?
    ensures MergedAt(LinkSystem(s, c, l), c)
  {
    var k, s' := s.links[c], LinkSystem(s, c, l);
    assert Handled(s', c) == Handled(s, c);
    if !k.passer.PExited? {
      assert s'.links[c].emitted == k.emitted + [event];
      assert Waiting(s', c) == Waiting(s, c) + [event];
    }
  }

  lemma {:induction false} OwnLinkMerged(s: System, c: ConnId, l: LinkLabel)
    requires c < |s.links| && MergedAt(s, c) && LinkCan(s, c, l) && !l.PPush?
    requires LinkOk(s.links[c]) && (!s.srv.at.Stopped? ==> LinkLive(s.links[c]))
    ensures MergedAt(LinkSystem(s, c, l), c)
  {
    var s' := LinkSystem(s, c, l);
    match l
    case LOffer => EmitMerged(s, c, l, s.links[c].conn.at.event);
    case LOfferClose => EmitMerged(s, c, l, EClose);
    case PTake => assert Waiting(s', c) == Waiting(s, c);
    case _ => assert !l.PFail? ==> Waiting(s', c) == Waiting(s, c);
  }

  lemma TakeHead(handled: seq<ConnectionEvent>, head: seq<ConnectionEvent>, rest: seq<ConnectionEvent>,
                 hand: seq<ConnectionEvent>, events: seq<ConnectionEvent>)
    ensures (handled + head) + (rest + hand + events) == handled + ((head + rest) + hand + events)
  {
    Associate(handled, head, rest + hand + events);
    Associate(rest, hand, events);
    Associate(head, rest, hand + events);
    Associate(head + rest, hand, events);
  }

  lemma {:induction false} QueueHead(queue: seq<ServerMessage>, c: ConnId)
    requires queue != []
    ensures FlatMap(MessageOf(c), queue) == MessageOf(c)(queue[0]) + FlatMap(MessageOf(c), queue[1..])
  {
    assert queue == [queue[0]] + queue[1..];
    FlatMapConcat(MessageOf(c), [queue[0]], queue[1..]);
    FlatMapOne(MessageOf(c), queue[0]);
  }

  lemma {:induction false} TakeMerged(s: System, c: ConnId)
    requires c < |s.links| && MergedAt(s, c) && ServerCan(s, STake)
    ensures MergedAt(ServerDoes(s, STake), c)
  {
    TakeHand(s, c);
    QueueHead(s.queue, c);
    Nothing(FlatMap(EventOf(c), s.shown));
    TakeHead(FlatMap(EventOf(c), s.shown), MessageOf(c)(s.queue[0]), FlatMap(MessageOf(c), s.queue[1..]),
             s.links[c].passer.Hand(), s.links[c].events);
  }

  lemma TakeHand(s: System, c: ConnId)
    requires ServerCan(s, STake)
    ensures var at := ServerDoes(s, STake).srv.at;
            at.Running() ==> HandOf(s.srv.at, c) == [] && HandOf(at, c) == MessageOf(c)(s.queue[0])
  {}

  lemma {:induction false} ShowMerged(s: System, c: ConnId)
    requires c < |s.links| && MergedAt(s, c) && ServerCan(s, SEmit)
    ensures MergedAt(ServerDoes(s, SEmit), c)
  {
    var s' := ServerDoes(s, SEmit);
    if s.userOpen {
      FlatMapSnoc(EventOf(c), s.shown, s.srv.at.event);
      assert FlatMap(EventOf(c), s'.shown) == Handled(s, c) && Handled(s', c) == Handled(s, c);
      assert Waiting(s', c) == Waiting(s, c);
    }
  }

  lemma ServerFrame(s: System, l: ServerLabel, c: ConnId)
    requires c < |s.links| && ServerCan(s, l) && !l.STake? && !l.SEmit?
    ensures var s' := ServerDoes(s, l);
            && c < |s'.links| && s'.links[c].(ext := []) == s.links[c].(ext := []) && s'.shown == s.shown
            && (l.SHand? ==> s'.queue == s.queue && !s.srv.at.Emitting? && s'.srv.at.Idle?)
            && (!l.SHand? ==> !s'.srv.at.Running())
  {}

  lemma {:induction false} ServerMerged(s: System, l: ServerLabel, c: ConnId)
    requires c < |s.links| && MergedAt(s, c) && ServerCan(s, l)
    ensures c < |ServerDoes(s, l).links| && MergedAt(ServerDoes(s, l), c)
  {
    if l.STake? {
      TakeMerged(s, c);
    } else if l.SEmit? {
      ShowMerged(s, c);
    } else {
      ServerFrame(s, l, c);
    }
  }

  lemma {:induction false} AcceptorMerged(s: System, l: AcceptorLabel, c: ConnId)
    requires Tagged(s) && Merged(s) && AcceptorCan(s, l) && c < |AcceptorDoes(s, l).links|
    ensures MergedAt(AcceptorDoes(s, l), c)
  {
    if l.Accept? {
      AcceptMerged(s, l.addr, c);
    } else {
      assert MergedAt(s, c);
      if l.Announce? {
        QueueGrows(s, AcceptorDoes(s, l), MNewConnection(s.acceptor.conn, s.acceptor.addr), c);
      }
    }
  }

  lemma {:induction false} UserMerged(s: System, l: UserLabel, c: ConnId)
    requires c < |s.links| && MergedAt(s, c) && UserCan(s, l)
    ensures MergedAt(UserDoes(s, l), c)
  {
    if l.Enqueue? {
      QueueGrows(s, UserDoes(s, l), MSendRequest(s.calls[l.tx].to, s.calls[l.tx].data, l.tx), c);
    } else if l.Post? {
      QueueGrows(s, UserDoes(s, l), l.message, c);
    }
  }

  lemma {:induction false} LinkMerged(s: System, d: ConnId, l: LinkLabel, c: ConnId)
    requires c < |s.links| && MergedAt(s, c) && LinkCan(s, d, l)
    requires LinkOk(s.links[c]) && (!s.srv.at.Stopped? ==> LinkLive(s.links[c]))
    ensures MergedAt(LinkSystem(s, d, l), c)
  {
    if c != d {
      OtherLinkMerged(s, d, l, c);
    } else if l.PPush? {
      PassMerged(s, c);
    } else {
      OwnLinkMerged(s, c, l);
    }
  }

  lemma {:induction false} MergedStepAt(s: System, l: Label, c: ConnId)
    requires LinksOk(s.links, s.srv.at.Stopped?) && Tagged(s) && Merged(s) && Enabled(s, l)
    requires c < |Apply(s, l).links|
    ensures MergedAt(Apply(s, l), c)
  {
    assert c < |s.links| ==> MergedAt(s, c);
    match l
    case User(l) => UserMerged(s, l, c);
    case Accepting(l) => AcceptorMerged(s, l, c);
    case AtLink(d, l) => LinkMerged(s, d, l, c);
    case Serving(l) => ServerMerged(s, l, c);
  }

  lemma {:induction false} MergedStep(s: System, l: Label)
    requires LinksOk(s.links, s.srv.at.Stopped?) && Tagged(s) && Merged(s) && Enabled(s, l)
    ensures Merged(Apply(s, l))
  {
    forall c | 0 <= c < |Apply(s, l).links|
      ensures MergedAt(Apply(s, l), c)
    {
      MergedStepAt(s, l, c);
    }
  }
}
