/** What holds of every run of one endpoint, whatever its peer sends, and however its
    user and its callers behave. */
module EndpointRuns {
  import opened Messages
  import opened Machines
  import opened Sequences
  import opened ConnectionCore
  import opened ConnectionRuns
  import opened SenderCore
  import opened EndpointSpec
  import opened EndpointInvariants

  /** `labels` leads a new endpoint to `e`, with at most 2^64 requests issued. */
  ghost predicate Reaches(capacity: nat, labels: seq<Label>, e: Endpoint) {
    Run(Fresh(capacity), labels) == Some(e) && |e.conn.issued| <= USIZE
  }

  lemma {:induction false} ReachedInv(capacity: nat, labels: seq<Label>, e: Endpoint)
    requires Reaches(capacity, labels, e)
    ensures EndpointInv(e)
  {
    FreshInv(capacity);
    RunInv(Fresh(capacity), labels);
  }

  /** The Connection of an endpoint goes through a run of its own, so all that holds of the
      runs of a Connection holds of it. */
  lemma {:induction false} ConnectionOfRun(capacity: nat, labels: seq<Label>, e: Endpoint) returns (inputs: seq<Input>)
    requires Run(Fresh(capacity), labels) == Some(e)
    ensures Exec(INIT, inputs) == Some(e.conn)
  {
    inputs := [];
    if labels != [] {
      var n := |labels| - 1;
      var d := Run(Fresh(capacity), labels[..n]).value;
      inputs := ConnectionOfRun(capacity, labels[..n], d);
      if labels[n].Connecting? {
        var i := InputOf(d, labels[n].conn);
        AfterSnoc(TryNext, INIT, inputs, i);
        inputs := inputs + [i];
      }
    }
  }

  function InputOf(e: Endpoint, l: ConnLabel): (i: Input)
    requires ConnCan(e, l)
    ensures CanTake(e.conn, i) && ConnDoes(e, l).conn == Next(e.conn, i)
  {
    match l
    case TakeExternal => External(e.ext[0])
    case TakeInternal => Internal(e.inq[0], e.calls.gone)
    case SendMessage => Sent(!e.sender.at.SExited?)
    case OfferEvent => Offered(e.user.open)
    case CloseReceiver => ReceiverClosed
    case CloseSender => SenderClosed(e.calls.gone)
    case OfferClose => CloseOffered
  }

  // ----- request ids -----

  ghost predicate IncreasingIds(rs: seq<Request>) {
    forall i, j | 0 <= i < j < |rs| :: rs[i].id < rs[j].id
  }

  lemma {:induction false} IncreasingSelection(rs: seq<Request>, all: seq<Request>)
    requires SubSeq(rs, all) && forall k | 0 <= k < |all| :: all[k].id == k
    ensures IncreasingIds(rs)
  {
    var at := SubSeqEmbeds(rs, all);
    assert forall i | 0 <= i < |rs| :: rs[i].id == at[i];
  }

  lemma {:induction false} HandlesOfSurfaced(s: seq<Message>)
    ensures FlatMap(AsHandle, Surfaced(s)) == FlatMap(AsRequest, s)
  {
    if s != [] {
      var n := |s| - 1;
      HandlesOfSurfaced(s[..n]);
      FlatMapConcat(AsHandle, Surfaced(s[..n]), AsEvent(s[n]));
      if s[n].MRequest? {
        FlatMapOne(AsHandle, ERequest(s[n].request));
      } else if s[n].MEvent? {
        FlatMapOne(AsHandle, EEvent(s[n].event));
      }
    }
  }

  /** What a message of ours surfaces as at the peer is what our Connection accepted, in part and in order. */
  lemma {:induction false} SurfacedSelection(e: Endpoint, s: seq<Message>)
    requires EndpointInv(e) && SubSeq(s, e.sender.entered)
    ensures SubSeq(Surfaced(s), Surfaced(e.conn.accepted))
  {
    SubSeqFlatMap(AsEvent, s, e.sender.entered);
    PrefixSubSeq(Surfaced(e.sender.entered), Surfaced(e.conn.accepted));
    SubSeqTrans(Surfaced(s), Surfaced(e.sender.entered), Surfaced(e.conn.accepted));
  }

  /** A request that a peer can see has a fresh id, larger than those before it, and the
      data of the call that was given this id. */
  ghost predicate GenuineRequests(e: Endpoint, rs: seq<Request>) {
    && IncreasingIds(rs)
    && forall r | r in rs :: IssuedAs(e, r)
  }

  ghost predicate IssuedAs(e: Endpoint, r: Request) {
    && r.id < |e.conn.issued|
    && e.conn.issued[r.id].tx < |e.calls.data|
    && r.data == e.calls.data[e.conn.issued[r.id].tx]
  }

  lemma {:induction false} SurfacedRequestsAreGenuine(e: Endpoint, events: seq<ConnectionEvent>)
    requires EndpointInv(e) && SubSeq(events, Surfaced(e.conn.accepted))
    ensures GenuineRequests(e, FlatMap(AsHandle, events))
  {
    var rs := FlatMap(AsHandle, events);
    var all := FlatMap(AsRequest, e.conn.accepted);
    SubSeqFlatMap(AsHandle, events, Surfaced(e.conn.accepted));
    HandlesOfSurfaced(e.conn.accepted);
    IncreasingSelection(rs, all);
    forall r | r in rs
      ensures IssuedAs(e, r)
    {
      SubSeqIn(rs, all, r);
      AcceptedIsIssued(e, r);
    }
  }

  lemma AcceptedIsIssued(e: Endpoint, r: Request)
    requires IdsInOrder(e.conn) && Ownership(e.calls, e.ext, e.conn.issued)
    requires r in FlatMap(AsRequest, e.conn.accepted)
    ensures IssuedAs(e, r)
  {}

  /** Ids on the wire: strictly increasing, none used twice, each with its caller's data. */
  lemma {:induction false} RequestsOnTheWire(capacity: nat, labels: seq<Label>, e: Endpoint)
    requires Reaches(capacity, labels, e)
    ensures GenuineRequests(e, FlatMap(AsRequest, e.sender.written))
  {
    ReachedInv(capacity, labels, e);
    WrittenSelection(e.sender);
    SurfacedSelection(e, e.sender.written);
    SurfacedRequestsAreGenuine(e, Surfaced(e.sender.written));
    HandlesOfSurfaced(e.sender.written);
  }

  // ----- oneshots -----

  /** Every call's oneshot is in exactly one place: its caller's hand, the external channel,
      the reply map, or used up by the Connection, or lost with its reason. */
  datatype Holder = CallerHand | Channel | ReplyMap(id: nat) | Used(outcome: Outcome) | Lost(why: Failure)

  ghost predicate Holds(e: Endpoint, h: Holder, tx: Tx) {
    match h
    case CallerHand => tx in e.calls.blocked
    case Channel => tx in QueuedTxs(e.ext)
    case ReplyMap(id) => id in e.conn.replyMap && e.conn.replyMap[id] == tx
    case Used(o) => tx in e.conn.outcomes && e.conn.outcomes[tx] == o
    case Lost(why) => tx in e.calls.failed && e.calls.failed[tx] == why
  }

  lemma {:induction false} OneshotsAreLinear(capacity: nat, labels: seq<Label>, e: Endpoint, tx: Tx)
    requires Reaches(capacity, labels, e)
    ensures tx < |e.calls.data| <==> exists h :: Holds(e, h, tx)
    ensures forall h, h' | Holds(e, h, tx) && Holds(e, h', tx) :: h == h'
  {
    ReachedInv(capacity, labels, e);
    forall h | Holds(e, h, tx)
      ensures IsAt(e.calls, e.ext, e.conn.issued, tx, PlaceOf(h))
    {
      HolderPlace(e, h, tx);
    }
    assert Placed(e.calls, e.ext, e.conn.issued, tx) <==> tx < |e.calls.data|;
    if tx < |e.calls.data| {
      var p :| IsAt(e.calls, e.ext, e.conn.issued, tx, p);
      var h := HolderAt(e, p, tx);
      assert Holds(e, h, tx);
    }
    forall h, h' | Holds(e, h, tx) && Holds(e, h', tx)
      ensures h == h'
    {
      assert IsAt(e.calls, e.ext, e.conn.issued, tx, PlaceOf(h));
      assert IsAt(e.calls, e.ext, e.conn.issued, tx, PlaceOf(h'));
      SamePlaceSameHolder(e, h, h', tx);
    }
  }

  function PlaceOf(h: Holder): Place {
    match h
    case CallerHand => WithCaller
    case Channel => InQueue
    case ReplyMap(_) => WithConnection
    case Used(_) => WithConnection
    case Lost(_) => Gone
  }

  lemma {:induction false} HolderPlace(e: Endpoint, h: Holder, tx: Tx)
    requires FatesAgree(e.conn) && OneshotsDistinct(e.conn) && Holds(e, h, tx)
    ensures IsAt(e.calls, e.ext, e.conn.issued, tx, PlaceOf(h))
  {
    match h
    case ReplyMap(id) => assert e.conn.issued[id].tx == tx;
    case Used(_) => assert !FreshTx(e.conn, tx);
    case _ =>
  }

  lemma {:induction false} HolderAt(e: Endpoint, p: Place, tx: Tx) returns (h: Holder)
    requires EndpointInv(e) && IsAt(e.calls, e.ext, e.conn.issued, tx, p)
    ensures Holds(e, h, tx)
  {
    match p
    case WithCaller => h := CallerHand;
    case InQueue => h := Channel;
    case WithConnection =>
      var k :| 0 <= k < |e.conn.issued| && e.conn.issued[k].tx == tx;
      assert FateAgrees(e.conn, k);
      h := if k in e.conn.replyMap then ReplyMap(k) else Used(e.conn.outcomes[tx]);
    case Gone => h := Lost(e.calls.failed[tx]);
  }

  lemma {:induction false} SamePlaceSameHolder(e: Endpoint, h: Holder, h': Holder, tx: Tx)
    requires FatesAgree(e.conn) && OneshotsDistinct(e.conn)
    requires Holds(e, h, tx) && Holds(e, h', tx) && PlaceOf(h) == PlaceOf(h')
    ensures h == h'
  {
    if tx in e.conn.outcomes {
      UsedHasNoEntry(e.conn, tx);
    }
    OneEntry(e.conn, tx);
  }

  lemma OneEntry(c: Conn, tx: Tx)
    requires FatesAgree(c) && OneshotsDistinct(c)
    ensures forall i, j | i in c.replyMap && j in c.replyMap && c.replyMap[i] == tx == c.replyMap[j] :: i == j
  {
    forall i, j | i in c.replyMap && j in c.replyMap && c.replyMap[i] == tx == c.replyMap[j]
      ensures i == j
    {
      assert c.issued[i].tx == c.issued[j].tx;
    }
  }

  /** Nobody who could use the oneshot still has it. */
  ghost predicate OutOfReach(e: Endpoint, tx: Tx) {
    && tx !in e.calls.blocked && tx !in QueuedTxs(e.ext)
    && forall id | id in e.conn.replyMap :: e.conn.replyMap[id] != tx
  }

  lemma {:induction false} SettledOutOfReach(e: Endpoint, h: Holder, tx: Tx)
    requires FatesAgree(e.conn) && OneshotsDistinct(e.conn) && Ownership(e.calls, e.ext, e.conn.issued)
    requires Holds(e, h, tx) && (h.Used? || h.Lost?)
    ensures OutOfReach(e, tx)
  {
    HolderPlace(e, h, tx);
    OnePlace(e, tx, PlaceOf(h), WithCaller);
    OnePlace(e, tx, PlaceOf(h), InQueue);
    if h.Lost? {
      OnePlace(e, tx, Gone, WithConnection);
      LostHasNoEntry(e.conn, tx);
    } else {
      UsedHasNoEntry(e.conn, tx);
    }
  }

  lemma OnePlace(e: Endpoint, tx: Tx, p: Place, q: Place)
    requires Ownership(e.calls, e.ext, e.conn.issued) && IsAt(e.calls, e.ext, e.conn.issued, tx, p) && p != q
    ensures !IsAt(e.calls, e.ext, e.conn.issued, tx, q)
  {}

  lemma LostHasNoEntry(c: Conn, tx: Tx)
    requires FatesAgree(c) && FreshTx(c, tx)
    ensures forall id | id in c.replyMap :: c.replyMap[id] != tx
  {}

  lemma {:induction false} SettledStep(e: Endpoint, l: Label, h: Holder, tx: Tx)
    requires Enabled(e, l) && OutOfReach(e, tx)
    requires Holds(e, h, tx) && (h.Used? || h.Lost?)
    ensures Holds(Apply(e, l), h, tx)
  {
    if l.Connecting? {
      SettledConnStep(e, l.conn, h, tx);
    }
  }

  lemma {:induction false} SettledConnStep(e: Endpoint, l: ConnLabel, h: Holder, tx: Tx)
    requires ConnCan(e, l) && OutOfReach(e, tx)
    requires Holds(e, h, tx) && (h.Used? || h.Lost?)
    ensures Holds(ConnDoes(e, l), h, tx)
  {}

  /** A oneshot that has been used or lost stays so, with the same outcome, in every continuation. */
  lemma {:induction false} SettledStays(e: Endpoint, labels: seq<Label>, h: Holder, tx: Tx)
    requires EndpointInv(e) && Run(e, labels).Some? && |Run(e, labels).value.conn.issued| <= USIZE
    requires Holds(e, h, tx) && (h.Used? || h.Lost?)
    ensures Holds(Run(e, labels).value, h, tx)
  {
    if labels != [] {
      var n := |labels| - 1;
      var d := Run(e, labels[..n]).value;
      IssuedMonotone(d, labels[n]);
      SettledStays(e, labels[..n], h, tx);
      RunInv(e, labels[..n]);
      SettledOutOfReach(d, h, tx);
      SettledStep(d, labels[n], h, tx);
    }
  }

  // ----- timeouts -----

  /** Equal but for this, and for whether anybody listens to `tx`. */
  ghost predicate SameButUnheard(e: Endpoint, d: Endpoint, tx: Tx) {
    && d == e.(conn := d.conn, calls := d.calls)
    && SameButCell(e.conn, d.conn, tx)
    && d.calls == e.calls.(gone := e.calls.gone + {tx})
  }

  lemma {:induction false} ConnUnheard(e: Endpoint, d: Endpoint, l: ConnLabel, tx: Tx)
    requires SameButUnheard(e, d, tx)
    ensures ConnCan(e, l) <==> ConnCan(d, l)
    ensures ConnCan(e, l) ==> SameButUnheard(ConnDoes(e, l), ConnDoes(d, l), tx)
  {
    SameFresh(e.conn, d.conn);
    if ConnCan(e, l) {
      match l
      case TakeExternal => ExternalUnheard(e.conn, d.conn, tx, e.ext[0]);
      case TakeInternal => ReplyUnheard(e.conn, d.conn, tx, e.inq[0], e.calls.gone);
      case CloseSender => CancelUnheard(e.conn, d.conn, tx, e.calls.gone);
      case _ =>
    }
  }

  lemma {:induction false} CallerUnheard(e: Endpoint, d: Endpoint, l: CallerLabel, tx: Tx)
    requires SameButUnheard(e, d, tx)
    ensures CallerCan(e, l) <==> CallerCan(d, l)
    ensures CallerCan(e, l) ==> SameButUnheard(CallerDoes(e, l), CallerDoes(d, l), tx)
  {
    if l.Abandon? {
      assert e.calls.gone + {tx} + {l.tx} == e.calls.gone + {l.tx} + {tx};
    }
  }

  lemma {:induction false} UserUnheard(e: Endpoint, d: Endpoint, l: UserLabel, tx: Tx)
    requires SameButUnheard(e, d, tx)
    ensures UserCan(e, l) <==> UserCan(d, l)
    ensures UserCan(e, l) ==> SameButUnheard(UserDoes(e, l), UserDoes(d, l), tx)
  {}

  lemma {:induction false} SenderUnheard(e: Endpoint, d: Endpoint, l: SenderLabel, tx: Tx)
    requires SameButUnheard(e, d, tx)
    ensures SenderCan(e, l) <==> SenderCan(d, l)
    ensures SenderCan(e, l) ==> SameButUnheard(SenderDoes(e, l), SenderDoes(d, l), tx)
  {}

  lemma {:induction false} ReceiverUnheard(e: Endpoint, d: Endpoint, l: ReceiverLabel, tx: Tx)
    requires SameButUnheard(e, d, tx)
    ensures ReceiverCan(e, l) <==> ReceiverCan(d, l)
    ensures ReceiverCan(e, l) ==> SameButUnheard(ReceiverDoes(e, l), ReceiverDoes(d, l), tx)
  {}

  lemma {:induction false} UnheardStep(e: Endpoint, d: Endpoint, l: Label, tx: Tx)
    requires SameButUnheard(e, d, tx)
    ensures Enabled(e, l) <==> Enabled(d, l)
    ensures Enabled(e, l) ==> SameButUnheard(Apply(e, l), Apply(d, l), tx)
  {
    match l
    case Caller(l) => CallerUnheard(e, d, l, tx);
    case Using(l) => UserUnheard(e, d, l, tx);
    case Connecting(l) => ConnUnheard(e, d, l, tx);
    case Sending(l) => SenderUnheard(e, d, l, tx);
    case Receiving(l) => ReceiverUnheard(e, d, l, tx);
  }

  /** Two runs of the same labels: both are possible or neither, and they end alike. */
  ghost predicate UnheardRuns(r: Option<Endpoint>, r': Option<Endpoint>, tx: Tx) {
    && (r.Some? <==> r'.Some?)
    && (r.Some? ==> SameButUnheard(r.value, r'.value, tx))
  }

  lemma {:induction false} UnheardRun(e: Endpoint, d: Endpoint, tx: Tx, labels: seq<Label>)
    requires SameButUnheard(e, d, tx)
    ensures UnheardRuns(Run(e, labels), Run(d, labels), tx)
  {
    if labels != [] {
      var n := |labels| - 1;
      UnheardRun(e, d, tx, labels[..n]);
      if Run(e, labels[..n]).Some? {
        UnheardStep(Run(e, labels[..n]).value, Run(d, labels[..n]).value, labels[n], tx);
      }
    }
  }

  /** A caller may drop its receiver at any moment. The send it no longer hears then fails,
      and this is all that happens: the continuations with it are those without it, and they
      end in states that differ in the oneshot of this call alone. */
  lemma {:induction false} TimeoutIsUnseen(e: Endpoint, tx: Tx, labels: seq<Label>)
    requires tx < |e.calls.data|
    ensures Enabled(e, Caller(Abandon(tx)))
    ensures UnheardRuns(Run(e, labels), Run(Apply(e, Caller(Abandon(tx))), labels), tx)
  {
    UnheardRun(e, Apply(e, Caller(Abandon(tx))), tx, labels);
  }

  lemma {:induction false} IssuedStayInRun(e: Endpoint, labels: seq<Label>)
    requires Run(e, labels).Some?
    ensures e.conn.issued <= Run(e, labels).value.conn.issued
  {
    if labels != [] {
      var n := |labels| - 1;
      IssuedStayInRun(e, labels[..n]);
      IssuedMonotone(Run(e, labels[..n]).value, labels[n]);
    }
  }

  /** The id of a request stays taken in every continuation, whether its caller still waits
      or not. */
  lemma {:induction false} TimedOutIdStays(capacity: nat, past: seq<Label>, e: Endpoint, k: nat, labels: seq<Label>)
    requires Reaches(capacity, past, e) && k < |e.conn.issued|
    requires Run(e, labels).Some? && |Run(e, labels).value.conn.issued| <= USIZE
    ensures IdIsTaken(Run(e, labels).value.conn, k, e.conn.issued[k].tx)
    ensures e.conn.issued[k].tx in e.calls.gone ==> e.conn.issued[k].tx in Run(e, labels).value.calls.gone
  {
    ReachedInv(capacity, past, e);
    RunInv(e, labels);
    IssuedStayInRun(e, labels);
    GoneStay(e, labels);
    IssuedIdIsTaken(Run(e, labels).value.conn, k);
  }

  lemma {:induction false} GoneStay(e: Endpoint, labels: seq<Label>)
    requires Run(e, labels).Some?
    ensures e.calls.gone <= Run(e, labels).value.calls.gone
  {
    if labels != [] {
      var n := |labels| - 1;
      GoneStay(e, labels[..n]);
      GoneStays(Run(e, labels[..n]).value, labels[n]);
    }
  }

  lemma GoneStays(e: Endpoint, l: Label)
    requires Enabled(e, l)
    ensures e.calls.gone <= Apply(e, l).calls.gone
  {}

  /** Only a caller that left can miss its answer. */
  lemma {:induction false} OnlyTheGoneMissAnswers(capacity: nat, labels: seq<Label>, e: Endpoint, tx: Tx)
    requires Run(Fresh(capacity), labels) == Some(e)
    requires tx in e.conn.outcomes && e.conn.outcomes[tx] == Unheard
    ensures tx in e.calls.gone
  {
    var n := |labels| - 1;
    var d := Run(Fresh(capacity), labels[..n]).value;
    GoneStays(d, labels[n]);
    if tx in d.conn.outcomes && d.conn.outcomes[tx] == Unheard {
      OnlyTheGoneMissAnswers(capacity, labels[..n], d, tx);
    } else {
      MissedNow(d, labels[n], tx);
    }
  }

  lemma {:induction false} MissedNow(e: Endpoint, l: Label, tx: Tx)
    requires Enabled(e, l) && tx in Apply(e, l).conn.outcomes && Apply(e, l).conn.outcomes[tx] == Unheard
    requires !(tx in e.conn.outcomes && e.conn.outcomes[tx] == Unheard)
    ensures tx in e.calls.gone
  {
    if l.Connecting? {
      var i := InputOf(e, l.conn);
    }
  }

  // ----- shutdown -----

  /** When `run` has returned, no oneshot is left in the Connection or in its channel: each
      is used up, lost, or still with a caller, whose send fails at once. */
  lemma {:induction false} ReturnedResolvesAll(capacity: nat, labels: seq<Label>, e: Endpoint, tx: Tx)
    requires Reaches(capacity, labels, e) && e.conn.at.Returned? && tx < |e.calls.data|
    ensures (exists o :: Holds(e, Used(o), tx)) || (exists why :: Holds(e, Lost(why), tx))
            || (Holds(e, CallerHand, tx) && Enabled(e, Caller(CallFails(tx))))
  {
    ReachedInv(capacity, labels, e);
    assert Placed(e.calls, e.ext, e.conn.issued, tx);
    var p :| IsAt(e.calls, e.ext, e.conn.issued, tx, p);
    var h := HolderAt(e, p, tx);
    assert Holds(e, h, tx);
  }

  /** The events of a Connection: what its peer sent, in order, then at most one Close, which
      is the last event; the user has received a first part of them. */
  lemma {:induction false} EventsThenOneClose(capacity: nat, labels: seq<Label>, e: Endpoint)
    requires Reaches(capacity, labels, e)
    ensures e.user.received <= e.user.emitted
    ensures EClose !in Body(e.user.emitted) && (e.user.emitted != Body(e.user.emitted) ==> e.conn.at.Returned?)
    ensures Body(e.user.emitted) <= Surfaced(e.conn.taken)
    ensures SubSeq(Body(e.user.emitted), Surfaced(e.receiver.framed))
  {
    ReachedInv(capacity, labels, e);
    EmittedShape(e.user.emitted, Surfaced(e.conn.taken), e.conn.at) by {
      SurfacedNoClose(e.conn.taken);
    }
    TakenSelection(e);
    SubSeqFlatMap(AsEvent, e.conn.taken, e.receiver.framed);
    PrefixSubSeq(Body(e.user.emitted), Surfaced(e.conn.taken));
    SubSeqTrans(Body(e.user.emitted), Surfaced(e.conn.taken), Surfaced(e.receiver.framed));
  }

  /** The events without the final Close. */
  function Body(emitted: seq<ConnectionEvent>): seq<ConnectionEvent> {
    var n := |emitted|;
    if n > 0 && emitted[n - 1] == EClose then emitted[..n - 1] else emitted
  }

  lemma EmittedShape(emitted: seq<ConnectionEvent>, surfaced: seq<ConnectionEvent>, at: Await)
    requires EmittedFrom(emitted, surfaced, at) && EClose !in surfaced
    ensures Body(emitted) <= surfaced && EClose !in Body(emitted)
    ensures Body(emitted) != emitted ==> at.Returned?
  {}

  lemma {:induction false} TakenSelection(e: Endpoint)
    requires InFlow(e.conn, e.inq, e.receiver)
    ensures SubSeq(e.conn.taken, e.receiver.framed)
  {
    var rest := FlatMap(Incoming, e.inq) + e.receiver.at.Hand();
    assert InPipe(e.conn, e.inq, e.receiver) == e.conn.taken + rest;
    SubSeqCutTail(e.conn.taken, rest, e.receiver.framed);
  }

  lemma {:induction false} SurfacedNoClose(s: seq<Message>)
    ensures EClose !in Surfaced(s)
  {
    if EClose in Surfaced(s) {
      var m := FlatMapSource(AsEvent, s, EClose);
    }
  }

  /** Every channel of the endpoint holds one message at most, and a caller waits exactly as
      long as there is one in it. */
  lemma {:induction false} ChannelsHoldOne(capacity: nat, labels: seq<Label>, e: Endpoint, data: Payload)
    requires Reaches(capacity, labels, e)
    ensures |e.ext| <= 1 && |e.inq| <= 1 && |e.sender.queue| <= 1 && |e.receiver.queue| <= 1
    ensures !e.conn.at.Returned? ==> (Enabled(e, Caller(SendEvent(data))) <==> e.ext == [])
    ensures !e.conn.at.Returned? ==> (Enabled(e, Caller(SendClose)) <==> e.ext == [])
  {
    ReachedInv(capacity, labels, e);
  }

  /** While the Connection is running its Sender serves it, so no send to the Sender fails;
      and telling the Receiver to close never blocks. */
  lemma {:induction false} LifetimesAreNested(capacity: nat, labels: seq<Label>, e: Endpoint)
    requires Reaches(capacity, labels, e)
    ensures e.conn.at.InService() ==> e.sender.Serving()
    ensures Enabled(e, Connecting(SendMessage)) ==>
      Apply(e, Connecting(SendMessage)).conn == Next(e.conn, Sent(true))
    ensures e.conn.at.ClosingReceiver? ==> Enabled(e, Connecting(CloseReceiver))
  {
    ReachedInv(capacity, labels, e);
    SenderServes(e);
  }

  lemma SenderServes(e: Endpoint)
    requires Lifetimes(e)
    ensures e.conn.at.InService() ==> e.sender.Serving()
    ensures Enabled(e, Connecting(SendMessage)) ==>
      Apply(e, Connecting(SendMessage)).conn == Next(e.conn, Sent(true))
    ensures e.conn.at.ClosingReceiver? ==> Enabled(e, Connecting(CloseReceiver))
  {}

  function Closings(l: Label): seq<bool> {
    if l == Connecting(CloseReceiver) then [true]
    else if l == Connecting(CloseSender) then [false]
    else []
  }

  ghost predicate ClosedSoFar(at: Await, closings: seq<bool>) {
    match at
    case ClosingSender => closings == [true]
    case OfferingClose => closings == [true, false]
    case Returned => closings == [true, false]
    case _ => closings == []
  }

  lemma ClosesStep(e: Endpoint, l: Label, closings: seq<bool>)
    requires Enabled(e, l) && ClosedSoFar(e.conn.at, closings)
    ensures ClosedSoFar(Apply(e, l).conn.at, closings + Closings(l))
  {
    assert closings + [] == closings;
  }

  /** The Receiver and the Sender are each told to close at most once, in this order. */
  lemma {:induction false} ClosesOnce(capacity: nat, labels: seq<Label>)
    requires Run(Fresh(capacity), labels).Some?
    ensures ClosedSoFar(Run(Fresh(capacity), labels).value.conn.at, FlatMap(Closings, labels))
  {
    if labels != [] {
      var n := |labels| - 1;
      ClosesOnce(capacity, labels[..n]);
      ClosesStep(Run(Fresh(capacity), labels[..n]).value, labels[n], FlatMap(Closings, labels[..n]));
    }
  }

  /** No frame is written once the Sender has taken its Close. */
  lemma {:induction false} NothingWrittenAfterClose(e: Endpoint, labels: seq<Label>)
    requires !e.sender.Serving() && Run(e, labels).Some?
    ensures Run(e, labels).value.sender.written == e.sender.written && !Run(e, labels).value.sender.Serving()
  {
    if labels != [] {
      var n := |labels| - 1;
      NothingWrittenAfterClose(e, labels[..n]);
      ClosedStays(Run(e, labels[..n]).value, labels[n]);
    }
  }

  lemma ClosedStays(e: Endpoint, l: Label)
    requires !e.sender.Serving() && Enabled(e, l)
    ensures Apply(e, l).sender.written == e.sender.written && !Apply(e, l).sender.Serving()
  {
    StepFrame(e, l);
  }
}
