/** What every reachable state of one endpoint satisfies, against an arbitrary peer,
    an arbitrary user and arbitrary callers. */
module EndpointInvariants {
  import opened Messages
  import opened Sequences
  import opened ConnectionCore
  import opened SenderCore
  import opened EndpointSpec

  /** Lifetimes are nested: the Sender serves until the Connection has closed it, the
      Receiver is told to close at most once, and a dropped channel is empty. */
  ghost predicate Lifetimes(e: Endpoint) {
    var at := e.conn.at;
    && |e.ext| <= CAPACITY && |e.inq| <= CAPACITY
    && |e.receiver.queue| <= CAPACITY && |e.user.events| <= e.user.capacity
    && (at.InService() ==> e.sender.Serving() && SClose !in e.sender.queue)
    && (at.Running() || at.ClosingReceiver? ==> e.receiver.queue == [])
    && (!at.InService() ==> SClose in e.sender.queue || !e.sender.Serving())
    && (e.receiver.at.RExited? ==> e.receiver.queue == [])
    && (at.Returned? ==> e.ext == [] && e.inq == [])
    && (!e.user.open ==> e.user.events == [])
  }

  function ReplyOf(c: Completion): seq<Reply> { AsReply(CompletionOf(c.request, c.data)) }

  /** What has entered the Sender's channel: the accepted messages, and one reply for each completion. */
  ghost predicate Handover(c: Conn, entered: seq<Message>, completions: seq<Completion>) {
    && Surfaced(entered) + Surfaced(c.at.OutHand()) == Surfaced(c.accepted)
    && FlatMap(AsReply, entered) == FlatMap(ReplyOf, completions)
  }

  /** Everything the Connection has taken from its peer or will find in front of it, in order. */
  function InPipe(c: Conn, inq: seq<InternalMessage>, r: Receiver): seq<Message> {
    c.taken + FlatMap(Incoming, inq) + r.at.Hand()
  }

  /** From the wire to the Connection. */
  ghost predicate InFlow(c: Conn, inq: seq<InternalMessage>, r: Receiver) {
    && SubSeq(InPipe(c, inq, r), r.framed)
    && c.taken <= r.framed
    && (!c.at.Returned? ==> InPipe(c, inq, r) == r.framed)
  }

  /** `p` is a first stretch of what was surfaced, possibly ended by one Close event. */
  ghost predicate EmittedFrom(p: seq<ConnectionEvent>, surfaced: seq<ConnectionEvent>, at: Await) {
    || p <= surfaced
    || (at.Returned? && p != [] && p[|p| - 1] == EClose && p[..|p| - 1] <= surfaced)
  }

  /** From the Connection to the user. */
  ghost predicate UserSees(c: Conn, u: User) {
    && (c.at.Running() ==> u.emitted + c.at.UserHand() == Surfaced(c.taken))
    && EmittedFrom(u.emitted, Surfaced(c.taken), c.at)
    && u.received <= u.emitted
    && (u.open ==> u.received + u.events == u.emitted)
    && (u.at.Completing? ==> ERequest(u.at.request) in u.received)
    && (forall j | 0 <= j < |u.completions| :: ERequest(u.completions[j].request) in u.received)
  }

  /** Where the oneshot of a call is. */
  datatype Place = WithCaller | InQueue | WithConnection | Gone

  predicate IsAt(calls: Calls, ext: seq<ConnectionMessage>, issued: seq<Issue>, tx: Tx, p: Place) {
    match p
    case WithCaller => tx in calls.blocked
    case InQueue => tx in QueuedTxs(ext)
    case WithConnection => exists k | 0 <= k < |issued| :: issued[k].tx == tx
    case Gone => tx in calls.failed
  }

  ghost predicate Placed(calls: Calls, ext: seq<ConnectionMessage>, issued: seq<Issue>, tx: Tx) {
    exists p :: IsAt(calls, ext, issued, tx, p)
  }

  /** Every oneshot is in exactly one place, and travels with the data of its call. */
  ghost predicate Ownership(calls: Calls, ext: seq<ConnectionMessage>, issued: seq<Issue>) {
    && (forall tx: Tx :: Placed(calls, ext, issued, tx) <==> tx < |calls.data|)
    && (forall tx: Tx, p, q | IsAt(calls, ext, issued, tx, p) && IsAt(calls, ext, issued, tx, q) :: p == q)
    && (forall m | m in ext && m.CRequest? :: m.tx < |calls.data| && m.data == calls.data[m.tx])
    && (forall k | 0 <= k < |issued| ::
          issued[k].tx < |calls.data| && issued[k].data == calls.data[issued[k].tx])
  }

  ghost predicate EndpointInv(e: Endpoint) {
    && ConnInv(e.conn)
    && SenderInv(e.sender)
    && Lifetimes(e)
    && Handover(e.conn, e.sender.entered, e.user.completions)
    && InFlow(e.conn, e.inq, e.receiver)
    && UserSees(e.conn, e.user)
    && Ownership(e.calls, e.ext, e.conn.issued)
  }

  lemma FreshInv(capacity: nat)
    ensures EndpointInv(Fresh(capacity))
  {
    NewSenderInv();
    assert InPipe(INIT, [], NEW_RECEIVER) == [];
  }

  /** An actor changes its own part of the endpoint and the channels it sends to. */
  lemma StepFrame(e: Endpoint, l: Label)
    requires Enabled(e, l)
    ensures var d := Apply(e, l);
            && (l.Caller? ==> d == e.(calls := d.calls, ext := d.ext))
            && (l.Using? ==> d == e.(user := d.user, sender := d.sender))
            && (l.Sending? ==> d == e.(sender := d.sender, inq := d.inq))
            && (l.Receiving? ==> d == e.(receiver := d.receiver, inq := d.inq))
  {}

  // ----- lifetimes -----

  lemma {:induction false} ConnLifetimes(e: Endpoint, l: ConnLabel)
    requires Lifetimes(e) && |e.sender.queue| <= CAPACITY && ConnCan(e, l)
    ensures Lifetimes(ConnDoes(e, l))
  {}

  lemma {:induction false} CallerLifetimes(e: Endpoint, l: CallerLabel)
    requires Lifetimes(e) && CallerCan(e, l)
    ensures Lifetimes(CallerDoes(e, l))
  {}

  lemma {:induction false} UserLifetimes(e: Endpoint, l: UserLabel)
    requires Lifetimes(e) && UserCan(e, l)
    ensures Lifetimes(UserDoes(e, l))
  {}

  lemma {:induction false} SenderLifetimes(e: Endpoint, l: SenderLabel)
    requires Lifetimes(e) && SenderInv(e.sender) && SenderCan(e, l)
    ensures Lifetimes(SenderDoes(e, l))
  {}

  lemma {:induction false} ReceiverLifetimes(e: Endpoint, l: ReceiverLabel)
    requires Lifetimes(e) && ReceiverCan(e, l)
    ensures Lifetimes(ReceiverDoes(e, l))
  {}

  lemma {:induction false} LifetimesStep(e: Endpoint, l: Label)
    requires Lifetimes(e) && SenderInv(e.sender) && Enabled(e, l)
    ensures Lifetimes(Apply(e, l))
  {
    match l
    case Caller(l) => CallerLifetimes(e, l);
    case Using(l) => UserLifetimes(e, l);
    case Connecting(l) => ConnLifetimes(e, l);
    case Sending(l) => SenderLifetimes(e, l);
    case Receiving(l) => ReceiverLifetimes(e, l);
  }

  // ----- the Sender's pipe -----

  lemma {:induction false} ConnSender(e: Endpoint, l: ConnLabel)
    requires Lifetimes(e) && SenderInv(e.sender) && ConnCan(e, l)
    ensures SenderInv(ConnDoes(e, l).sender)
  {
    match l
    case SendMessage => PushInv(e.sender, e.conn.at.message);
    case CloseSender => PushCloseInv(e.sender);
    case _ =>
  }

  lemma {:induction false} UserSender(e: Endpoint, l: UserLabel)
    requires SenderInv(e.sender) && UserCan(e, l)
    ensures SenderInv(UserDoes(e, l).sender)
  {
    match l
    case FinishComplete =>
      if e.sender.Accepts() {
        PushInv(e.sender, CompletionOf(e.user.at.request, e.user.at.data));
      }
    case CompleteElsewhere(r, d) => PushInv(e.sender, CompletionOf(r, d));
    case _ =>
  }

  lemma {:induction false} SenderSender(e: Endpoint, l: SenderLabel)
    requires SenderInv(e.sender) && SenderCan(e, l)
    ensures SenderInv(SenderDoes(e, l).sender)
  {
    match l
    case SenderTake => TakeInv(e.sender);
    case SenderWrite => WriteInv(e.sender);
    case SenderFail(closing, wrote) => FailInv(e.sender, closing, wrote);
    case SenderReport => assert Pipe(Reported(e.sender)) == Pipe(e.sender);
    case SenderExit => ExitInv(e.sender);
  }

  lemma {:induction false} SenderStep(e: Endpoint, l: Label)
    requires Lifetimes(e) && SenderInv(e.sender) && Enabled(e, l)
    ensures SenderInv(Apply(e, l).sender)
  {
    StepFrame(e, l);
    match l
    case Caller(_) =>
    case Using(l) => UserSender(e, l);
    case Connecting(l) => ConnSender(e, l);
    case Sending(l) => SenderSender(e, l);
    case Receiving(_) =>
  }

  // ----- what enters the Sender's channel -----

  lemma {:induction false} CompleteHandover(
    c: Conn, entered: seq<Message>, completions: seq<Completion>, r: Request, d: Payload)
    requires Handover(c, entered, completions)
    ensures Handover(c, entered + [CompletionOf(r, d)], completions + [Completion(r, d)])
  {
    var m := CompletionOf(r, d);
    FlatMapSnoc(AsEvent, entered, m);
    Nothing(Surfaced(entered));
    assert Surfaced(entered + [m]) == Surfaced(entered);
    FlatMapSnoc(AsReply, entered, m);
    FlatMapSnoc(ReplyOf, completions, Completion(r, d));
    assert AsReply(m) == ReplyOf(Completion(r, d));
  }

  lemma {:induction false} SendHandover(c: Conn, entered: seq<Message>, completions: seq<Completion>)
    requires Handover(c, entered, completions) && c.at.SendingMessage? && HandsFit(c.at)
    ensures Handover(Next(c, Sent(true)), entered + [c.at.message], completions)
  {
    FlatMapSnoc(AsEvent, entered, c.at.message);
    FlatMapSnoc(AsReply, entered, c.at.message);
    FlatMapOne(AsEvent, c.at.message);
  }

  lemma AcceptedGrows(c: Conn, i: Input)
    requires CanTake(c, i) && !i.Sent?
    ensures c.at.OutHand() == [] && Next(c, i).accepted == c.accepted + Next(c, i).at.OutHand()
  {}

  lemma {:induction false} AcceptHandover(c: Conn, i: Input, entered: seq<Message>, completions: seq<Completion>)
    requires Handover(c, entered, completions) && CanTake(c, i) && !i.Sent?
    ensures Handover(Next(c, i), entered, completions)
  {
    AcceptedGrows(c, i);
    FlatMapConcat(AsEvent, c.accepted, Next(c, i).at.OutHand());
    assert Surfaced(c.accepted) == Surfaced(entered) + Surfaced([]);
  }

  lemma {:induction false} ConnHandover(e: Endpoint, l: ConnLabel)
    requires Lifetimes(e) && ConnCan(e, l) && HandsFit(e.conn.at)
    requires Handover(e.conn, e.sender.entered, e.user.completions)
    ensures var e' := ConnDoes(e, l); Handover(e'.conn, e'.sender.entered, e'.user.completions)
  {
    var entered, completions := e.sender.entered, e.user.completions;
    match l
    case TakeExternal => AcceptHandover(e.conn, External(e.ext[0]), entered, completions);
    case TakeInternal => AcceptHandover(e.conn, Internal(e.inq[0], e.calls.gone), entered, completions);
    case SendMessage => SendHandover(e.conn, entered, completions);
    case OfferEvent => AcceptHandover(e.conn, Offered(e.user.open), entered, completions);
    case CloseReceiver => AcceptHandover(e.conn, ReceiverClosed, entered, completions);
    case CloseSender => AcceptHandover(e.conn, SenderClosed(e.calls.gone), entered, completions);
    case OfferClose => AcceptHandover(e.conn, CloseOffered, entered, completions);
  }

  lemma {:induction false} UserHandover(e: Endpoint, l: UserLabel)
    requires UserCan(e, l) && Handover(e.conn, e.sender.entered, e.user.completions)
    ensures var e' := UserDoes(e, l); Handover(e.conn, e'.sender.entered, e'.user.completions)
  {
    match l
    case FinishComplete =>
      CompleteHandover(e.conn, e.sender.entered, e.user.completions, e.user.at.request, e.user.at.data);
    case CompleteElsewhere(r, d) =>
      CompleteHandover(e.conn, e.sender.entered, e.user.completions, r, d);
    case _ =>
  }

  lemma OthersDoNotEnter(e: Endpoint, l: Label)
    requires Enabled(e, l) && !l.Using? && !l.Connecting?
    ensures Apply(e, l).sender.entered == e.sender.entered
  {}

  lemma {:induction false} HandoverStep(e: Endpoint, l: Label)
    requires Lifetimes(e) && Enabled(e, l) && HandsFit(e.conn.at)
    requires Handover(e.conn, e.sender.entered, e.user.completions)
    ensures var e' := Apply(e, l); Handover(e'.conn, e'.sender.entered, e'.user.completions)
  {
    if l.Using? {
      UserHandover(e, l.user);
    } else if l.Connecting? {
      ConnHandover(e, l.conn);
    } else {
      StepFrame(e, l);
      OthersDoNotEnter(e, l);
    }
  }

  // ----- the way in -----

  lemma {:induction false} PushInFlow(c: Conn, inq: seq<InternalMessage>, r: Receiver, m: InternalMessage, r': Receiver)
    requires InFlow(c, inq, r) && r'.framed == r.framed && r'.at.Hand() == []
    requires r.at.Hand() == Incoming(m)
    ensures InFlow(c, inq + [m], r')
  {
    FlatMapSnoc(Incoming, inq, m);
    Associate(c.taken, FlatMap(Incoming, inq), Incoming(m));
    Nothing(InPipe(c, inq, r));
  }

  lemma TakenGrows(c: Conn, m: InternalMessage, gone: set<Tx>)
    requires CanTake(c, Internal(m, gone))
    ensures Next(c, Internal(m, gone)).taken == c.taken + Incoming(m)
    ensures !c.at.Returned? && !Next(c, Internal(m, gone)).at.Returned?
  {}

  lemma Reassociate<T>(a: seq<T>, b: seq<T>, c: seq<T>, d: seq<T>)
    ensures (a + b) + c + d == a + (b + c) + d
  {}

  lemma {:induction false} TakeInFlow(c: Conn, inq: seq<InternalMessage>, r: Receiver, gone: set<Tx>)
    requires InFlow(c, inq, r) && inq != [] && CanTake(c, Internal(inq[0], gone))
    ensures InFlow(Next(c, Internal(inq[0], gone)), inq[1..], r)
  {
    TakenGrows(c, inq[0], gone);
    assert inq == [inq[0]] + inq[1..];
    FlatMapConcat(Incoming, [inq[0]], inq[1..]);
    FlatMapOne(Incoming, inq[0]);
    Reassociate(c.taken, Incoming(inq[0]), FlatMap(Incoming, inq[1..]), r.at.Hand());
  }

  /** Once the Connection has returned, what is on its way in is lost. */
  lemma {:induction false} DropInFlow(c: Conn, inq: seq<InternalMessage>, r: Receiver, c': Conn, r': Receiver)
    requires InFlow(c, inq, r) && c'.taken == c.taken && c'.at.Returned?
    requires r'.framed == r.framed && (r'.at.Hand() == r.at.Hand() || r'.at.Hand() == [])
    ensures InFlow(c', [], r')
  {
    SubSeqCut(c.taken, FlatMap(Incoming, inq), r.at.Hand(), r.framed);
    assert InPipe(c', [], r) == c.taken + r.at.Hand();
    if r'.at.Hand() == [] {
      SubSeqCutTail(c.taken, r.at.Hand(), r.framed);
      assert InPipe(c', [], r') == c.taken;
    }
  }

  lemma {:induction false} FrameInFlow(c: Conn, inq: seq<InternalMessage>, r: Receiver, m: Message)
    requires InFlow(c, inq, r) && r.at.RListening?
    ensures InFlow(c, inq, r.(at := RForwarding(m), framed := r.framed + [m]))
  {
    var r' := r.(at := RForwarding(m), framed := r.framed + [m]);
    assert InPipe(c, inq, r') == InPipe(c, inq, r) + [m];
    SubSeqRefl([m]);
    SubSeqConcat(InPipe(c, inq, r), r.framed, [m], [m]);
  }

  lemma {:induction false} ReceiverInFlow(e: Endpoint, l: ReceiverLabel)
    requires Lifetimes(e) && InFlow(e.conn, e.inq, e.receiver) && ReceiverCan(e, l)
    ensures var e' := ReceiverDoes(e, l); InFlow(e'.conn, e'.inq, e'.receiver)
  {
    var e' := ReceiverDoes(e, l);
    match l {
      case RecvFrame(m) => FrameInFlow(e.conn, e.inq, e.receiver, m);
      case Forward =>
        if e.conn.at.Returned? {
          DropInFlow(e.conn, e.inq, e.receiver, e.conn, e'.receiver);
        } else {
          PushInFlow(e.conn, e.inq, e.receiver, INew(e.receiver.at.message), e'.receiver);
        }
      case ReceiverReport =>
        if !e.conn.at.Returned? {
          PushInFlow(e.conn, e.inq, e.receiver, IClose, e'.receiver);
        }
      case _ =>
    }
  }

  lemma {:induction false} InFlowStep(e: Endpoint, l: Label)
    requires Lifetimes(e) && InFlow(e.conn, e.inq, e.receiver) && Enabled(e, l)
    ensures var e' := Apply(e, l); InFlow(e'.conn, e'.inq, e'.receiver)
  {
    StepFrame(e, l);
    match l
    case Caller(_) =>
    case Using(_) =>
    case Connecting(l') => ConnInFlow(e, l');
    case Sending(l') => SenderInFlow(e, l');
    case Receiving(l') => ReceiverInFlow(e, l');
  }

  lemma {:induction false} ConnInFlow(e: Endpoint, l: ConnLabel)
    requires Lifetimes(e) && InFlow(e.conn, e.inq, e.receiver) && ConnCan(e, l)
    ensures var e' := ConnDoes(e, l); InFlow(e'.conn, e'.inq, e'.receiver)
  {
    var e' := ConnDoes(e, l);
    if l.TakeInternal? {
      TakeInFlow(e.conn, e.inq, e.receiver, e.calls.gone);
    } else if l.OfferClose? {
      DropInFlow(e.conn, e.inq, e.receiver, e'.conn, e'.receiver);
    } else {
      ConnInFrame(e, l);
      InFlowFrame(e.conn, e.inq, e.receiver, e'.conn, e'.receiver);
    }
  }

  lemma InFlowFrame(c: Conn, inq: seq<InternalMessage>, r: Receiver, c': Conn, r': Receiver)
    requires InFlow(c, inq, r) && c'.taken == c.taken && c'.at.Returned? == c.at.Returned?
    requires r'.at == r.at && r'.framed == r.framed
    ensures InFlow(c', inq, r')
  {
    assert InPipe(c', inq, r') == InPipe(c, inq, r);
  }

  lemma {:induction false} SenderInFlow(e: Endpoint, l: SenderLabel)
    requires Lifetimes(e) && InFlow(e.conn, e.inq, e.receiver) && SenderCan(e, l)
    ensures var e' := SenderDoes(e, l); InFlow(e'.conn, e'.inq, e'.receiver)
  {
    if l.SenderReport? && !e.conn.at.Returned? {
      ClosePipe(e.conn, e.inq, e.receiver);
    } else {
      assert SenderDoes(e, l).inq == e.inq;
    }
  }

  lemma {:induction false} ClosePipe(c: Conn, inq: seq<InternalMessage>, r: Receiver)
    ensures InPipe(c, inq + [IClose], r) == InPipe(c, inq, r)
  {
    FlatMapSnoc(Incoming, inq, IClose);
    Nothing(FlatMap(Incoming, inq));
  }

  lemma ConnInFrame(e: Endpoint, l: ConnLabel)
    requires ConnCan(e, l) && !l.TakeInternal? && !l.OfferClose?
    ensures var e' := ConnDoes(e, l);
            && e'.conn.taken == e.conn.taken && e'.inq == e.inq
            && e'.receiver.at == e.receiver.at && e'.receiver.framed == e.receiver.framed
            && e'.conn.at.Returned? == e.conn.at.Returned?
  {}

  // ----- what the user sees -----

  lemma {:induction false} TakenUserSees(c: Conn, i: Input, u: User)
    requires UserSees(c, u) && CanTake(c, i) && i.Internal?
    ensures UserSees(Next(c, i), u)
  {
    if i.incoming.INew? {
      TakenHand(c, i.incoming.message, i.gone);
      SurfacesNext(c, Next(c, i), u, i.incoming.message);
    }
  }

  lemma TakenHand(c: Conn, m: Message, gone: set<Tx>)
    requires c.at.Selecting?
    ensures var d := Next(c, Internal(INew(m), gone));
            d.taken == c.taken + [m] && d.at.Running() && d.at.UserHand() == AsEvent(m)
  {}

  lemma {:induction false} SurfacesNext(c: Conn, d: Conn, u: User, m: Message)
    requires UserSees(c, u) && c.at.Selecting?
    requires d.taken == c.taken + [m] && d.at.Running() && d.at.UserHand() == AsEvent(m)
    ensures UserSees(d, u)
  {
    Nothing(u.emitted);
    assert u.emitted == Surfaced(c.taken);
    FlatMapSnoc(AsEvent, c.taken, m);
  }

  lemma {:induction false} EmitUserSees(c: Conn, i: Input, u: User, event: ConnectionEvent)
    requires UserSees(c, u) && CanTake(c, i)
    requires (i == Offered(u.open) && event == c.at.event) || (i == CloseOffered && event == EClose)
    ensures UserSees(Next(c, i), Emit(u, event))
  {
    var u' := Emit(u, event);
    if u.open {
      assert u'.received + u'.events == u'.emitted;
      assert u'.emitted[..|u'.emitted| - 1] == u.emitted;
    }
  }

  lemma {:induction false} ConnUserSees(e: Endpoint, l: ConnLabel)
    requires UserSees(e.conn, e.user) && ConnCan(e, l)
    ensures UserSees(ConnDoes(e, l).conn, ConnDoes(e, l).user)
  {
    match l
    case TakeInternal => TakenUserSees(e.conn, Internal(e.inq[0], e.calls.gone), e.user);
    case OfferEvent => EmitUserSees(e.conn, Offered(e.user.open), e.user, e.conn.at.event);
    case OfferClose => EmitUserSees(e.conn, CloseOffered, e.user, EClose);
    case _ =>
  }

  lemma {:induction false} UserUserSees(e: Endpoint, l: UserLabel)
    requires UserSees(e.conn, e.user) && UserCan(e, l)
    ensures UserSees(e.conn, UserDoes(e, l).user)
  {
    var u' := UserDoes(e, l).user;
    if l.Recv? {
      assert u'.received + u'.events == e.user.received + e.user.events;
      assert forall r :: ERequest(r) in e.user.received ==> ERequest(r) in u'.received;
    }
  }

  lemma {:induction false} UserSeesStep(e: Endpoint, l: Label)
    requires UserSees(e.conn, e.user) && Enabled(e, l)
    ensures UserSees(Apply(e, l).conn, Apply(e, l).user)
  {
    StepFrame(e, l);
    match l
    case Caller(_) =>
    case Using(l) => UserUserSees(e, l);
    case Connecting(l) => ConnUserSees(e, l);
    case Sending(_) =>
    case Receiving(_) =>
  }

  // ----- oneshots -----

  /** One oneshot goes from one place to another; all others stay. */
  ghost predicate Moved(calls: Calls, ext: seq<ConnectionMessage>, issued: seq<Issue>,
                        calls': Calls, ext': seq<ConnectionMessage>, issued': seq<Issue>,
                        moved: Tx, from: Place, to: Place) {
    && IsAt(calls, ext, issued, moved, from)
    && forall tx: Tx, p :: IsAt(calls', ext', issued', tx, p) <==>
         if tx == moved && p in {from, to} then p == to else IsAt(calls, ext, issued, tx, p)
  }

  lemma {:induction false} MovedKeepsPlaces(calls: Calls, ext: seq<ConnectionMessage>, issued: seq<Issue>,
                                            calls': Calls, ext': seq<ConnectionMessage>, issued': seq<Issue>,
                                            moved: Tx, from: Place, to: Place)
    requires Ownership(calls, ext, issued) && Moved(calls, ext, issued, calls', ext', issued', moved, from, to)
    ensures forall tx: Tx :: Placed(calls', ext', issued', tx) <==> tx < |calls.data|
    ensures forall tx: Tx, p, q | IsAt(calls', ext', issued', tx, p) && IsAt(calls', ext', issued', tx, q) :: p == q
  {
    forall tx: Tx
      ensures Placed(calls', ext', issued', tx) <==> tx < |calls.data|
    {
      assert Placed(calls, ext, issued, tx) <==> tx < |calls.data|;
      if tx == moved {
        assert IsAt(calls', ext', issued', tx, to) && IsAt(calls, ext, issued, tx, from);
      } else if Placed(calls, ext, issued, tx) {
        var p :| IsAt(calls, ext, issued, tx, p);
        assert IsAt(calls', ext', issued', tx, p);
      }
    }
  }

  lemma {:induction false} CallOwnership(calls: Calls, ext: seq<ConnectionMessage>, issued: seq<Issue>, d: Payload)
    requires Ownership(calls, ext, issued)
    ensures Ownership(calls.(data := calls.data + [d], blocked := calls.blocked + {|calls.data|}), ext, issued)
  {
    var n := |calls.data|;
    var calls' := calls.(data := calls.data + [d], blocked := calls.blocked + {n});
    assert !Placed(calls, ext, issued, n);
    assert IsAt(calls', ext, issued, n, WithCaller);
    forall tx: Tx, p
      ensures IsAt(calls', ext, issued, tx, p) <==> if tx == n then p == WithCaller else IsAt(calls, ext, issued, tx, p)
    {
      assert tx == n ==> !IsAt(calls, ext, issued, tx, p);
    }
    forall tx: Tx
      ensures Placed(calls', ext, issued, tx) <==> tx < |calls'.data|
    {
      assert Placed(calls, ext, issued, tx) <==> tx < |calls.data|;
      if Placed(calls, ext, issued, tx) {
        var p :| IsAt(calls, ext, issued, tx, p);
        assert IsAt(calls', ext, issued, tx, p);
      }
    }
  }

  lemma {:induction false} EnqueueOwnership(calls: Calls, issued: seq<Issue>, tx: Tx)
    requires Ownership(calls, [], issued) && tx in calls.blocked && tx < |calls.data|
    ensures Ownership(calls.(blocked := calls.blocked - {tx}), [CRequest(calls.data[tx], tx)], issued)
  {
    assert IsAt(calls, [], issued, tx, WithCaller);
    MovedKeepsPlaces(calls, [], issued, calls.(blocked := calls.blocked - {tx}), [CRequest(calls.data[tx], tx)], issued,
                     tx, WithCaller, InQueue);
  }

  lemma {:induction false} GiveUpOwnership(
    calls: Calls, ext: seq<ConnectionMessage>, issued: seq<Issue>, tx: Tx, why: Failure)
    requires Ownership(calls, ext, issued) && tx in calls.blocked
    ensures Ownership(GiveUp(calls, tx, why), ext, issued)
  {
    assert IsAt(calls, ext, issued, tx, WithCaller);
    MovedKeepsPlaces(calls, ext, issued, GiveUp(calls, tx, why), ext, issued, tx, WithCaller, Gone);
  }

  lemma {:induction false} DropOwnership(calls: Calls, ext: seq<ConnectionMessage>, issued: seq<Issue>)
    requires Ownership(calls, ext, issued) && |ext| <= 1
    ensures Ownership(calls.(failed := calls.failed + map tx | tx in QueuedTxs(ext) :: RecvError), [], issued)
  {
    var calls' := calls.(failed := calls.failed + map tx | tx in QueuedTxs(ext) :: RecvError);
    if ext != [] && ext[0].CRequest? {
      assert IsAt(calls, ext, issued, ext[0].tx, InQueue);
      MovedKeepsPlaces(calls, ext, issued, calls', [], issued, ext[0].tx, InQueue, Gone);
    } else {
      SamePlaces(calls, ext, issued, calls', []);
    }
  }

  lemma {:induction false} SamePlaces(calls: Calls, ext: seq<ConnectionMessage>, issued: seq<Issue>,
                                      calls': Calls, ext': seq<ConnectionMessage>)
    requires Ownership(calls, ext, issued)
    requires calls'.data == calls.data && calls'.blocked == calls.blocked && calls'.failed.Keys == calls.failed.Keys
    requires QueuedTxs(ext) == QueuedTxs(ext') && forall m | m in ext' && m.CRequest? :: m in ext
    ensures Ownership(calls', ext', issued)
  {
    assert forall tx: Tx, p :: IsAt(calls', ext', issued, tx, p) <==> IsAt(calls, ext, issued, tx, p);
    forall tx: Tx
      ensures Placed(calls', ext', issued, tx) <==> tx < |calls.data|
    {
      assert Placed(calls, ext, issued, tx) <==> tx < |calls.data|;
      if Placed(calls, ext, issued, tx) {
        var p :| IsAt(calls, ext, issued, tx, p);
        assert IsAt(calls', ext', issued, tx, p);
      }
    }
  }

  lemma {:induction false} IssueOwnership(calls: Calls, ext: seq<ConnectionMessage>, issued: seq<Issue>, n: nat)
    requires Ownership(calls, ext, issued) && |ext| == 1 && ext[0].CRequest?
    ensures Ownership(calls, [], issued + [Issue(ext[0].tx, ext[0].data, n)])
  {
    var issue := Issue(ext[0].tx, ext[0].data, n);
    var issued' := issued + [issue];
    assert IsAt(calls, ext, issued, issue.tx, InQueue);
    forall tx: Tx
      ensures IsAt(calls, [], issued', tx, WithConnection) <==>
        tx == issue.tx || IsAt(calls, ext, issued, tx, WithConnection)
    {
      assert issued'[|issued|] == issue;
      assert forall k | 0 <= k < |issued| :: issued'[k] == issued[k];
    }
    MovedKeepsPlaces(calls, ext, issued, calls, [], issued', issue.tx, InQueue, WithConnection);
  }

  lemma {:induction false} CallerOwnership(e: Endpoint, l: CallerLabel)
    requires Ownership(e.calls, e.ext, e.conn.issued) && CallerCan(e, l)
    ensures var e' := CallerDoes(e, l); Ownership(e'.calls, e'.ext, e.conn.issued)
  {
    var e' := CallerDoes(e, l);
    match l
    case Call(d) => CallOwnership(e.calls, e.ext, e.conn.issued, d);
    case Enqueue(tx) =>
      assert e.ext == [] && e'.ext == [CRequest(e.calls.data[tx], tx)];
      EnqueueOwnership(e.calls, e.conn.issued, tx);
    case CallFails(tx) => GiveUpOwnership(e.calls, e.ext, e.conn.issued, tx, SendError);
    case Withdraw(tx) => GiveUpOwnership(e.calls, e.ext, e.conn.issued, tx, GaveUp);
    case _ => SamePlaces(e.calls, e.ext, e.conn.issued, e'.calls, e'.ext);
  }

  lemma IssuedStays(e: Endpoint, l: ConnLabel)
    requires ConnCan(e, l) && !l.TakeExternal?
    ensures ConnDoes(e, l).conn.issued == e.conn.issued
    ensures !l.OfferClose? ==> ConnDoes(e, l).calls == e.calls && ConnDoes(e, l).ext == e.ext
  {}

  lemma {:induction false} ConnOwnership(e: Endpoint, l: ConnLabel)
    requires Lifetimes(e) && Ownership(e.calls, e.ext, e.conn.issued) && ConnCan(e, l)
    ensures var e' := ConnDoes(e, l); Ownership(e'.calls, e'.ext, e'.conn.issued)
  {
    var e' := ConnDoes(e, l);
    if l.TakeExternal? {
      IssuedGrows(e.conn, e.ext[0]);
      assert e.ext[1..] == [];
      if e.ext[0].CRequest? {
        IssueOwnership(e.calls, e.ext, e.conn.issued, |e.conn.taken|);
      } else {
        SamePlaces(e.calls, e.ext, e.conn.issued, e'.calls, e'.ext);
      }
    } else {
      IssuedStays(e, l);
      if l.OfferClose? {
        DropOwnership(e.calls, e.ext, e.conn.issued);
      }
    }
  }

  lemma {:induction false} OwnershipStep(e: Endpoint, l: Label)
    requires Lifetimes(e) && Ownership(e.calls, e.ext, e.conn.issued) && Enabled(e, l)
    ensures var e' := Apply(e, l); Ownership(e'.calls, e'.ext, e'.conn.issued)
  {
    StepFrame(e, l);
    match l
    case Caller(l) => CallerOwnership(e, l);
    case Using(_) =>
    case Connecting(l) => ConnOwnership(e, l);
    case Sending(_) =>
    case Receiving(_) =>
  }

  // ----- the whole endpoint -----

  lemma {:induction false} ConnStep(e: Endpoint, l: ConnLabel)
    requires ConnInv(e.conn) && ConnCan(e, l) && |ConnDoes(e, l).conn.issued| <= USIZE
    ensures ConnInv(ConnDoes(e, l).conn)
  {
    match l
    case TakeExternal => NextInv(e.conn, External(e.ext[0]));
    case TakeInternal => NextInv(e.conn, Internal(e.inq[0], e.calls.gone));
    case SendMessage => NextInv(e.conn, Sent(!e.sender.at.SExited?));
    case OfferEvent => NextInv(e.conn, Offered(e.user.open));
    case CloseReceiver => NextInv(e.conn, ReceiverClosed);
    case CloseSender => NextInv(e.conn, SenderClosed(e.calls.gone));
    case OfferClose => NextInv(e.conn, CloseOffered);
  }

  /** Every step of any actor keeps the invariant. */
  lemma {:induction false} EndpointStep(e: Endpoint, l: Label)
    requires EndpointInv(e) && Enabled(e, l) && |Apply(e, l).conn.issued| <= USIZE
    ensures EndpointInv(Apply(e, l))
  {
    LifetimesStep(e, l);
    SenderStep(e, l);
    HandoverStep(e, l);
    InFlowStep(e, l);
    UserSeesStep(e, l);
    OwnershipStep(e, l);
    StepFrame(e, l);
    if l.Connecting? {
      ConnStep(e, l.conn);
    }
  }

  lemma IssuedMonotone(e: Endpoint, l: Label)
    requires Enabled(e, l)
    ensures e.conn.issued <= Apply(e, l).conn.issued
  {
    StepFrame(e, l);
    if l.Connecting? {
      if l.conn.TakeExternal? {
        IssuedGrows(e.conn, e.ext[0]);
      } else {
        IssuedStays(e, l.conn);
      }
    }
  }

  /** Every run of an endpoint in which no id has been handed out twice keeps the invariant. */
  lemma {:induction false} RunInv(e: Endpoint, labels: seq<Label>)
    requires EndpointInv(e) && Run(e, labels).Some? && |Run(e, labels).value.conn.issued| <= USIZE
    ensures EndpointInv(Run(e, labels).value)
  {
    if labels != [] {
      var n := |labels| - 1;
      IssuedMonotone(Run(e, labels[..n]).value, labels[n]);
      RunInv(e, labels[..n]);
      EndpointStep(Run(e, labels[..n]).value, labels[n]);
    }
  }
}
