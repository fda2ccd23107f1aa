/** What an endpoint must do, read off what happened to it. The functions here are defined on
    the labels of a run alone: a channel is the sequence of all that was ever put into it, and
    what was taken is a first part of this. The lemmas say that the endpoint is in the state
    the labels call for. */
module EndpointLaws {
  import opened Messages
  import opened Machines
  import opened Sequences
  import opened ConnectionCore
  import opened SenderCore
  import opened EndpointSpec
  import opened EndpointInvariants
  import Law = ConnectionLaws

  // ----- callers -----

  function AskedBy(l: Label): seq<Payload> {
    if l.Caller? && l.caller.Call? then [l.caller.data] else []
  }

  /** The data of the request calls, in the order of the calls. */
  function Asked(labels: seq<Label>): seq<Payload> { FlatMap(AskedBy, labels) }

  function Gone(labels: seq<Label>): set<Tx> {
    set l | l in labels && l.Caller? && l.caller.Abandon? :: l.caller.tx
  }

  /** Everything that was put into the Connection's external channel. */
  function Posted(labels: seq<Label>): seq<ConnectionMessage> {
    if labels == [] then []
    else
      var before, l := labels[..|labels| - 1], labels[|labels| - 1];
      Posted(before) + PostedBy(before, l)
  }

  function PostedBy(before: seq<Label>, l: Label): seq<ConnectionMessage> {
    match l
    case Caller(Enqueue(tx)) => if tx < |Asked(before)| then [CRequest(Asked(before)[tx], tx)] else []
    case Caller(SendEvent(d)) => [CEvent(d)]
    case Caller(SendClose) => [CClose]
    case _ => []
  }

  // ----- the Receiver -----

  function FrameBy(l: Label): seq<Message> {
    if l.Receiving? && l.receiver.RecvFrame? then [l.receiver.message] else []
  }

  function Frames(labels: seq<Label>): seq<Message> { FlatMap(FrameBy, labels) }

  function ReceiverIs(labels: seq<Label>): ReceiverAt {
    if labels == [] then RListening
    else
      match labels[|labels| - 1]
      case Receiving(RecvFrame(m)) => RForwarding(m)
      case Receiving(RecvEnd) => RReporting
      case Receiving(Forward) => RListening
      case Receiving(_) => RExited
      case _ => ReceiverIs(labels[..|labels| - 1])
  }

  function CloseBy(l: Label): seq<ReceiverMessage> { if l == Connecting(CloseReceiver) then [RClose] else [] }

  /** What the Connection had for the Receiver. */
  function Closes(labels: seq<Label>): seq<ReceiverMessage> { FlatMap(CloseBy, labels) }

  /** Everything the Receiver and the Sender had for the Connection's internal channel. */
  function Told(labels: seq<Label>): seq<InternalMessage> {
    if labels == [] then []
    else
      var before, l := labels[..|labels| - 1], labels[|labels| - 1];
      Told(before) + ToldBy(before, l)
  }

  function ToldBy(before: seq<Label>, l: Label): seq<InternalMessage> {
    match l
    case Receiving(Forward) => if ReceiverIs(before).RForwarding? then [INew(ReceiverIs(before).message)] else []
    case Receiving(ReceiverReport) => [IClose]
    case Sending(SenderReport) => [IClose]
    case _ => []
  }

  // ----- the Connection -----

  function ExternalIn(i: Input): seq<ConnectionMessage> { if i.External? then [i.message] else [] }

  function InternalIn(i: Input): seq<InternalMessage> { if i.Internal? then [i.incoming] else [] }

  /** What the Connection was woken up with. */
  function InputsOf(labels: seq<Label>): seq<Input> {
    if labels == [] then []
    else
      var before, l := labels[..|labels| - 1], labels[|labels| - 1];
      if l.Connecting? then InputsOf(before) + InputBy(before, InputsOf(before), l.conn) else InputsOf(before)
  }

  function InputBy(before: seq<Label>, inputs: seq<Input>, l: ConnLabel): seq<Input> {
    match l
    case TakeExternal =>
      var n := |FlatMap(ExternalIn, inputs)|;
      if n < |Posted(before)| then [External(Posted(before)[n])] else []
    case TakeInternal =>
      var n := |FlatMap(InternalIn, inputs)|;
      if n < |Told(before)| then [Internal(Told(before)[n], Gone(before))] else []
    case SendMessage => [Sent(Sending(SenderExit) !in before)]
    case OfferEvent => [Offered(Using(DropEvents) !in before)]
    case CloseReceiver => [ReceiverClosed]
    case CloseSender => [SenderClosed(Gone(before))]
    case OfferClose => [CloseOffered]
  }

  ghost predicate CallersRead(e: Endpoint, labels: seq<Label>) {
    && e.calls.data == Asked(labels) && e.calls.gone == Gone(labels)
    && (e.user.open <==> Using(DropEvents) !in labels)
    && (e.sender.at.SExited? <==> Sending(SenderExit) in labels)
    && e.receiver.at == ReceiverIs(labels) && e.receiver.framed == Frames(labels)
    && (!e.receiver.at.RExited? ==> e.receiver.queue == Closes(labels))
  }

  /** What was taken from a channel and what is in it is what was put into it; when the
      Connection has returned, the rest is lost. */
  ghost predicate Queue<T>(taken: seq<T>, waiting: seq<T>, put: seq<T>, returned: bool) {
    if returned then taken <= put else taken + waiting == put
  }

  ghost predicate ConnectionRead(e: Endpoint, labels: seq<Label>) {
    var inputs := InputsOf(labels);
    && Exec(INIT, inputs) == Some(e.conn)
    && Queue(FlatMap(ExternalIn, inputs), e.ext, Posted(labels), e.conn.at.Returned?)
    && Queue(FlatMap(InternalIn, inputs), e.inq, Told(labels), e.conn.at.Returned?)
  }

  lemma {:induction false} Snoc(labels: seq<Label>, l: Label)
    ensures var all := labels + [l]; all[..|labels|] == labels && all[|labels|] == l
    ensures forall k :: k in labels + [l] <==> k in labels || k == l
  {}

  lemma {:induction false} CallersReadStep(e: Endpoint, labels: seq<Label>, l: Label)
    requires CallersRead(e, labels) && Enabled(e, l)
    ensures CallersRead(Apply(e, l), labels + [l])
  {
    Snoc(labels, l);
    FlatMapSnoc(AskedBy, labels, l);
    FlatMapSnoc(FrameBy, labels, l);
    FlatMapSnoc(CloseBy, labels, l);
    Nothing(Closes(labels));
    Nothing(Asked(labels));
    Nothing(Frames(labels));
    StepFrame(e, l);
    match l
    case Caller(l) => CallerReads(e, labels, l);
    case Using(l) => UserReads(e, labels, l);
    case Connecting(l) => ConnReads(e, labels, l);
    case Sending(l) => SenderReads(e, labels, l);
    case Receiving(_) =>
  }

  lemma CallerReads(e: Endpoint, labels: seq<Label>, l: CallerLabel)
    requires CallerCan(e, l) && e.calls.gone == Gone(labels)
    ensures CallerDoes(e, l).calls.gone == Gone(labels + [Caller(l)])
    ensures CallerDoes(e, l).calls.data == e.calls.data + AskedBy(Caller(l))
  {
    Snoc(labels, Caller(l));
  }

  lemma UserReads(e: Endpoint, labels: seq<Label>, l: UserLabel)
    requires UserCan(e, l)
    ensures UserDoes(e, l).user.open == (e.user.open && l != DropEvents)
    ensures UserDoes(e, l).sender.at == e.sender.at
    ensures Gone(labels + [Using(l)]) == Gone(labels)
  {
    Snoc(labels, Using(l));
  }

  lemma ConnReads(e: Endpoint, labels: seq<Label>, l: ConnLabel)
    requires ConnCan(e, l)
    ensures var d := ConnDoes(e, l);
            && d.user.open == e.user.open && d.sender.at == e.sender.at && d.receiver.at == e.receiver.at
            && (!e.receiver.at.RExited? ==> d.receiver.queue == e.receiver.queue + CloseBy(Connecting(l)))
            && d.receiver.framed == e.receiver.framed && d.calls.data == e.calls.data && d.calls.gone == e.calls.gone
    ensures Gone(labels + [Connecting(l)]) == Gone(labels)
  {
    Snoc(labels, Connecting(l));
    Nothing(e.receiver.queue);
  }

  lemma SenderReads(e: Endpoint, labels: seq<Label>, l: SenderLabel)
    requires SenderCan(e, l)
    ensures SenderDoes(e, l).sender.at.SExited? == (l == SenderExit)
    ensures !e.sender.at.SExited?
    ensures Gone(labels + [Sending(l)]) == Gone(labels)
  {
    Snoc(labels, Sending(l));
  }

  // ----- the Connection's channels, and the Connection -----

  lemma {:induction false} QueueTake<T>(taken: seq<T>, waiting: seq<T>, put: seq<T>)
    requires Queue(taken, waiting, put, false) && waiting != []
    ensures |taken| < |put| && put[|taken|] == waiting[0]
    ensures Queue(taken + [waiting[0]], waiting[1..], put, false)
  {
    assert waiting == [waiting[0]] + waiting[1..];
    Associate(taken, [waiting[0]], waiting[1..]);
  }

  lemma {:induction false} QueuePut<T>(taken: seq<T>, waiting: seq<T>, put: seq<T>, more: seq<T>, returned: bool)
    requires Queue(taken, waiting, put, returned)
    ensures Queue(taken, waiting + more, put + more, returned)
    ensures returned ==> Queue(taken, waiting, put + more, returned)
  {
    Associate(taken, waiting, more);
  }

  /** The label is not one of the Connection: its channels may only grow. */
  lemma {:induction false} OtherRead(e: Endpoint, labels: seq<Label>, l: Label)
    requires ConnectionRead(e, labels) && CallersRead(e, labels) && Enabled(e, l) && !l.Connecting?
    ensures ConnectionRead(Apply(e, l), labels + [l])
  {
    Snoc(labels, l);
    StepFrame(e, l);
    var d := Apply(e, l);
    PutsIn(e, labels, l);
    QueuePut(FlatMap(ExternalIn, InputsOf(labels)), e.ext, Posted(labels), PostedBy(labels, l), e.conn.at.Returned?);
    QueuePut(FlatMap(InternalIn, InputsOf(labels)), e.inq, Told(labels), ToldBy(labels, l), e.conn.at.Returned?);
  }

  lemma {:induction false} PutsIn(e: Endpoint, labels: seq<Label>, l: Label)
    requires CallersRead(e, labels) && Enabled(e, l) && !l.Connecting?
    ensures var d := Apply(e, l);
            && d.conn == e.conn
            && d.ext == e.ext + PostedBy(labels, l)
            && d.inq == if e.conn.at.Returned? then e.inq else e.inq + ToldBy(labels, l)
  {
    Nothing(e.ext);
    Nothing(e.inq);
    match l
    case Caller(l) => CallerPuts(e, labels, l);
    case Using(l) => UserPuts(e, l);
    case Sending(_) =>
    case Receiving(l) => ReceiverPuts(e, labels, l);
  }

  lemma CallerPuts(e: Endpoint, labels: seq<Label>, l: CallerLabel)
    requires CallersRead(e, labels) && CallerCan(e, l)
    ensures CallerDoes(e, l).ext == e.ext + PostedBy(labels, Caller(l)) && CallerDoes(e, l).inq == e.inq
    ensures CallerDoes(e, l).conn == e.conn
  {}

  lemma UserPuts(e: Endpoint, l: UserLabel)
    requires UserCan(e, l)
    ensures UserDoes(e, l).ext == e.ext && UserDoes(e, l).inq == e.inq && UserDoes(e, l).conn == e.conn
  {}

  lemma ReceiverPuts(e: Endpoint, labels: seq<Label>, l: ReceiverLabel)
    requires CallersRead(e, labels) && ReceiverCan(e, l)
    ensures var d := ReceiverDoes(e, l);
            && d.conn == e.conn && d.ext == e.ext
            && d.inq == if e.conn.at.Returned? then e.inq else e.inq + ToldBy(labels, Receiving(l))
  {}

  lemma {:induction false} OwnRead(e: Endpoint, labels: seq<Label>, l: ConnLabel)
    requires ConnectionRead(e, labels) && CallersRead(e, labels) && ConnCan(e, l)
    ensures ConnectionRead(ConnDoes(e, l), labels + [Connecting(l)])
  {
    var inputs := InputsOf(labels);
    Snoc(labels, Connecting(l));
    Nothing(Posted(labels));
    Nothing(Told(labels));
    if l.TakeExternal? {
      QueueTake(FlatMap(ExternalIn, inputs), e.ext, Posted(labels));
    } else if l.TakeInternal? {
      QueueTake(FlatMap(InternalIn, inputs), e.inq, Told(labels));
    }
    var i := OneInput(e, labels, l);
    AfterSnoc(TryNext, INIT, inputs, i);
    FlatMapSnoc(ExternalIn, inputs, i);
    FlatMapSnoc(InternalIn, inputs, i);
    Nothing(FlatMap(ExternalIn, inputs));
    Nothing(FlatMap(InternalIn, inputs));
    StaysOpen(e, l);
  }

  lemma StaysOpen(e: Endpoint, l: ConnLabel)
    requires ConnCan(e, l)
    ensures !e.conn.at.Returned? && (ConnDoes(e, l).conn.at.Returned? <==> l.OfferClose?)
    ensures !l.OfferClose? ==> ConnDoes(e, l).ext == if l.TakeExternal? then e.ext[1..] else e.ext
    ensures !l.OfferClose? ==> ConnDoes(e, l).inq == if l.TakeInternal? then e.inq[1..] else e.inq
  {}

  /** The input the labels call for is the one the Connection gets. */
  lemma {:induction false} OneInput(e: Endpoint, labels: seq<Label>, l: ConnLabel) returns (i: Input)
    requires ConnectionRead(e, labels) && CallersRead(e, labels) && ConnCan(e, l)
    ensures InputBy(labels, InputsOf(labels), l) == [i] && CanTake(e.conn, i) && ConnDoes(e, l).conn == Next(e.conn, i)
    ensures ExternalIn(i) == if l.TakeExternal? then [e.ext[0]] else []
    ensures InternalIn(i) == if l.TakeInternal? then [e.inq[0]] else []
  {
    var inputs := InputsOf(labels);
    match l
    case TakeExternal =>
      QueueTake(FlatMap(ExternalIn, inputs), e.ext, Posted(labels));
      i := External(e.ext[0]);
    case TakeInternal =>
      QueueTake(FlatMap(InternalIn, inputs), e.inq, Told(labels));
      i := Internal(e.inq[0], e.calls.gone);
    case SendMessage => i := Sent(!e.sender.at.SExited?);
    case OfferEvent => i := Offered(e.user.open);
    case CloseReceiver => i := ReceiverClosed;
    case CloseSender => i := SenderClosed(e.calls.gone);
    case OfferClose => i := CloseOffered;
  }

  /** In every run the Connection got what was put into its channels, and nothing else, and
      found Sender, user and receivers there or gone as the run says. */
  lemma {:induction false} ConnectionReadsRun(capacity: nat, labels: seq<Label>, e: Endpoint)
    requires Run(Fresh(capacity), labels) == Some(e)
    ensures CallersRead(e, labels) && ConnectionRead(e, labels)
  {
    if labels != [] {
      var n := |labels| - 1;
      LastApart(labels);
      var d := Run(Fresh(capacity), labels[..n]).value;
      ConnectionReadsRun(capacity, labels[..n], d);
      CallersReadStep(d, labels[..n], labels[n]);
      ConnectionReadStep(d, labels[..n], labels[n]);
    }
  }

  lemma {:induction false} ConnectionReadStep(e: Endpoint, labels: seq<Label>, l: Label)
    requires ConnectionRead(e, labels) && CallersRead(e, labels) && Enabled(e, l)
    ensures ConnectionRead(Apply(e, l), labels + [l])
  {
    if l.Connecting? {
      OwnRead(e, labels, l.conn);
    } else {
      OtherRead(e, labels, l);
    }
  }

  // ----- events of callers -----

  function SentBy(l: Label): seq<Payload> {
    if l.Caller? && l.caller.SendEvent? then [l.caller.data] else []
  }

  /** The events callers have sent, in order. */
  function SentEvents(labels: seq<Label>): seq<Payload> { FlatMap(SentBy, labels) }

  function EventPosted(m: ConnectionMessage): seq<Payload> { if m.CEvent? then [m.event] else [] }

  lemma {:induction false} SentIsPosted(labels: seq<Label>)
    ensures SentEvents(labels) == FlatMap(EventPosted, Posted(labels))
  {
    if labels != [] {
      var n := |labels| - 1;
      SentIsPosted(labels[..n]);
      FlatMapConcat(EventPosted, Posted(labels[..n]), PostedBy(labels[..n], labels[n]));
      if PostedBy(labels[..n], labels[n]) != [] {
        FlatMapOne(EventPosted, PostedBy(labels[..n], labels[n])[0]);
      }
    }
  }

  lemma {:induction false} TakenEvents(inputs: seq<Input>)
    ensures FlatMap(Law.EventIn, inputs) == FlatMap(EventPosted, FlatMap(ExternalIn, inputs))
  {
    if inputs != [] {
      var n := |inputs| - 1;
      TakenEvents(inputs[..n]);
      FlatMapConcat(EventPosted, FlatMap(ExternalIn, inputs[..n]), ExternalIn(inputs[n]));
      if inputs[n].External? {
        FlatMapOne(EventPosted, inputs[n].message);
      }
    }
  }

  /** Every event a caller sends is accepted for the peer, once and in order, or still waits in
      the external channel; only a Connection that has returned has left some behind. */
  lemma {:induction false} EventsAreAccepted(capacity: nat, labels: seq<Label>, e: Endpoint)
    requires Run(Fresh(capacity), labels) == Some(e)
    ensures FlatMap(Law.EventOf, e.conn.accepted) <= SentEvents(labels)
    ensures !e.conn.at.Returned? ==>
      FlatMap(Law.EventOf, e.conn.accepted) + FlatMap(EventPosted, e.ext) == SentEvents(labels)
  {
    ConnectionReadsRun(capacity, labels, e);
    Law.EventsAreAccepted(InputsOf(labels));
    TakenEvents(InputsOf(labels));
    SentIsPosted(labels);
    var taken := FlatMap(ExternalIn, InputsOf(labels));
    if e.conn.at.Returned? {
      FlatMapPrefix(EventPosted, taken, Posted(labels));
    } else {
      FlatMapConcat(EventPosted, taken, e.ext);
    }
  }

  // ----- the Sender -----

  /** The completion the user is waiting for. */
  function Begun(labels: seq<Label>): UserAt {
    if labels == [] then Idle
    else
      match labels[|labels| - 1]
      case Using(BeginComplete(r, d)) => Completing(r, d)
      case Using(FinishComplete) => Idle
      case Using(DropEvents) => Idle
      case _ => Begun(labels[..|labels| - 1])
  }

  /** Everything that was put into the Sender's channel. */
  function Handed(labels: seq<Label>): seq<SenderMessage> {
    if labels == [] then []
    else
      var before, l := labels[..|labels| - 1], labels[|labels| - 1];
      Handed(before) + if Sending(SenderExit) in before then [] else HandedBy(before, l)
  }

  function HandedBy(before: seq<Label>, l: Label): seq<SenderMessage> {
    match l
    case Connecting(SendMessage) => FlatMap(AsHanded, Law.ForSender(InputsOf(before)))
    case Connecting(CloseSender) => [SClose]
    case Using(CompleteElsewhere(r, d)) => [SMessage(MReply(Reply(r.id, d)))]
    case Using(FinishComplete) =>
      var at := Begun(before);
      if at.Completing? then [SMessage(MReply(Reply(at.request.id, at.data)))] else []
    case _ => []
  }

  function AsHanded(m: Message): seq<SenderMessage> { [SMessage(m)] }

  function TakeBy(l: Label): seq<bool> { if l == Sending(SenderTake) then [true] else [] }

  /** How many messages the Sender has taken. */
  function Takes(labels: seq<Label>): nat { |FlatMap(TakeBy, labels)| }

  function SenderIs(labels: seq<Label>): SenderAt {
    if labels == [] then SWaiting
    else
      var before, l := labels[..|labels| - 1], labels[|labels| - 1];
      if l.Sending? then SenderAfter(before, l.sender) else SenderIs(before)
  }

  function SenderAfter(before: seq<Label>, l: SenderLabel): SenderAt {
    match l
    case SenderTake =>
      if Takes(before) >= |Handed(before)| then SWaiting
      else if Handed(before)[Takes(before)].SClose? then SClosing
      else SWriting(Handed(before)[Takes(before)].message)
    case SenderFail(closing, _) => if closing then SReporting else SWaiting
    case SenderExit => SExited
    case _ => SWaiting
  }

  /** The frames that got onto the wire. */
  function OnWire(labels: seq<Label>): seq<Message> {
    if labels == [] then []
    else
      var before, l := labels[..|labels| - 1], labels[|labels| - 1];
      OnWire(before) + if Writing(l) then SenderIs(before).Hand() else []
  }

  predicate Writing(l: Label) {
    l.Sending? && (l.sender.SenderWrite? || (l.sender.SenderFail? && l.sender.wrote))
  }

  ghost predicate SenderRead(e: Endpoint, labels: seq<Label>) {
    && e.user.at == Begun(labels) && e.sender.at == SenderIs(labels)
    && (!e.sender.at.SExited? ==>
          Takes(labels) <= |Handed(labels)| && e.sender.queue == Handed(labels)[Takes(labels)..])
    && e.sender.entered == FlatMap(Queued, Handed(labels))
    && e.sender.written == OnWire(labels)
    && (e.sender.fault <==> Failed(labels))
  }

  /** A write has failed. */
  predicate Failed(labels: seq<Label>) {
    exists l :: l in labels && Failing(l)
  }

  predicate Failing(l: Label) { l.Sending? && l.sender.SenderFail? }

  lemma {:induction false} FailedSnoc(labels: seq<Label>, l: Label)
    ensures Failed(labels + [l]) <==> Failed(labels) || Failing(l)
  {
    Snoc(labels, l);
  }

  /** A label that is not of the Sender leaves it where it is. */
  lemma SenderStays(e: Endpoint, l: Label)
    requires Enabled(e, l) && !l.Sending?
    ensures Apply(e, l).sender.at == e.sender.at && Apply(e, l).sender.written == e.sender.written
    ensures Apply(e, l).sender.fault == e.sender.fault
  {
    StepFrame(e, l);
  }

  lemma UserIs(e: Endpoint, labels: seq<Label>, l: Label)
    requires Enabled(e, l) && e.user.at == Begun(labels)
    ensures Apply(e, l).user.at == Begun(labels + [l])
  {
    Snoc(labels, l);
    StepFrame(e, l);
  }

  /** What a label puts into the Sender's channel. */
  lemma {:induction false} HandsIn(e: Endpoint, labels: seq<Label>, l: Label)
    requires SenderRead(e, labels) && CallersRead(e, labels) && Enabled(e, l) && !l.Sending?
    requires e.conn.at.OutHand() == Law.ForSender(InputsOf(labels))
    ensures var d := Apply(e, l);
            var more := if e.sender.at.SExited? then [] else HandedBy(labels, l);
            d.sender.queue == e.sender.queue + more && d.sender.entered == e.sender.entered + FlatMap(Queued, more)
  {
    Nothing(e.sender.queue);
    Nothing(e.sender.entered);
    StepFrame(e, l);
    match l
    case Using(l) => UserHands(e, labels, l);
    case Connecting(l) => ConnHands(e, labels, l);
    case _ =>
  }

  lemma {:induction false} UserHands(e: Endpoint, labels: seq<Label>, l: UserLabel)
    requires e.user.at == Begun(labels) && UserCan(e, l)
    ensures var d := UserDoes(e, l);
            var more := if e.sender.at.SExited? then [] else HandedBy(labels, Using(l));
            d.sender.queue == e.sender.queue + more && d.sender.entered == e.sender.entered + FlatMap(Queued, more)
  {
    Nothing(e.sender.queue);
    Nothing(e.sender.entered);
    if HandedBy(labels, Using(l)) != [] {
      FlatMapOne(Queued, HandedBy(labels, Using(l))[0]);
    }
  }

  lemma {:induction false} ConnHands(e: Endpoint, labels: seq<Label>, l: ConnLabel)
    requires e.conn.at.OutHand() == Law.ForSender(InputsOf(labels)) && ConnCan(e, l)
    ensures var d := ConnDoes(e, l);
            var more := if e.sender.at.SExited? then [] else HandedBy(labels, Connecting(l));
            d.sender.queue == e.sender.queue + more && d.sender.entered == e.sender.entered + FlatMap(Queued, more)
  {
    Nothing(e.sender.queue);
    Nothing(e.sender.entered);
    if l.SendMessage? {
      FlatMapOne(AsHanded, e.conn.at.message);
      FlatMapOne(Queued, SMessage(e.conn.at.message));
    } else if l.CloseSender? {
      FlatMapOne(Queued, SClose);
    }
  }

  lemma {:induction false} OtherHands(e: Endpoint, labels: seq<Label>, l: Label)
    requires SenderRead(e, labels) && CallersRead(e, labels) && Enabled(e, l) && !l.Sending?
    requires e.conn.at.OutHand() == Law.ForSender(InputsOf(labels))
    ensures SenderRead(Apply(e, l), labels + [l])
  {
    Snoc(labels, l);
    FailedSnoc(labels, l);
    UserIs(e, labels, l);
    SenderStays(e, l);
    HandsIn(e, labels, l);
    FlatMapSnoc(TakeBy, labels, l);
    Nothing(FlatMap(TakeBy, labels));
    Nothing(Handed(labels));
    Nothing(OnWire(labels));
    var more := if e.sender.at.SExited? then [] else HandedBy(labels, l);
    FlatMapConcat(Queued, Handed(labels), more);
    if !e.sender.at.SExited? {
      DropLater(Handed(labels), more, Takes(labels));
    }
  }

  lemma DropLater<T>(s: seq<T>, more: seq<T>, n: nat)
    requires n <= |s|
    ensures (s + more)[n..] == s[n..] + more
  {}

  /** What a step of the Sender adds to what is read off the labels. */
  lemma {:induction false} SenderAdds(labels: seq<Label>, l: SenderLabel)
    ensures var all := labels + [Sending(l)];
            && Begun(all) == Begun(labels) && Handed(all) == Handed(labels)
            && Takes(all) == Takes(labels) + (if l.SenderTake? then 1 else 0)
            && SenderIs(all) == SenderAfter(labels, l)
            && OnWire(all) == OnWire(labels) + (if Writing(Sending(l)) then SenderIs(labels).Hand() else [])
  {
    Snoc(labels, Sending(l));
    FlatMapSnoc(TakeBy, labels, Sending(l));
    Nothing(Handed(labels));
  }

  lemma {:induction false} SenderTakes(e: Endpoint, labels: seq<Label>)
    requires SenderRead(e, labels) && CallersRead(e, labels) && SenderCan(e, SenderTake)
    ensures SenderRead(SenderDoes(e, SenderTake), labels + [Sending(SenderTake)])
  {
    SenderAdds(labels, SenderTake);
    FailedSnoc(labels, Sending(SenderTake));
    Nothing(OnWire(labels));
    TailTake(Handed(labels), Takes(labels));
    TakenFrom(e);
  }

  lemma TailTake<T>(s: seq<T>, n: nat)
    requires n <= |s| && s[n..] != []
    ensures n < |s| && s[n..][0] == s[n] && s[n..][1..] == s[n + 1..]
  {}

  lemma TakenFrom(e: Endpoint)
    requires SenderCan(e, SenderTake)
    ensures var d, m := SenderDoes(e, SenderTake), e.sender.queue[0];
            && d.sender.at == (if m.SClose? then SClosing else SWriting(m.message))
            && d.sender.queue == e.sender.queue[1..]
            && d.sender.entered == e.sender.entered && d.sender.written == e.sender.written && d.user == e.user
            && d.sender.fault == e.sender.fault
  {}

  lemma {:induction false} SenderGoesOn(e: Endpoint, labels: seq<Label>, l: SenderLabel)
    requires SenderRead(e, labels) && CallersRead(e, labels) && SenderCan(e, l) && !l.SenderTake?
    ensures SenderRead(SenderDoes(e, l), labels + [Sending(l)])
  {
    SenderAdds(labels, l);
    FailedSnoc(labels, Sending(l));
    Nothing(OnWire(labels));
    WentOn(e, l);
  }

  lemma WentOn(e: Endpoint, l: SenderLabel)
    requires SenderCan(e, l) && !l.SenderTake?
    ensures var d := SenderDoes(e, l);
            && d.user == e.user && d.sender.entered == e.sender.entered
            && d.sender.at == SenderAfter([], l) && d.sender.fault == (e.sender.fault || l.SenderFail?)
            && (!l.SenderExit? ==> d.sender.queue == e.sender.queue)
            && d.sender.written == e.sender.written + (if Writing(Sending(l)) then e.sender.at.Hand() else [])
  {
    Nothing(e.sender.written);
  }

  lemma {:induction false} SenderSteps(e: Endpoint, labels: seq<Label>, l: SenderLabel)
    requires SenderRead(e, labels) && CallersRead(e, labels) && SenderCan(e, l)
    ensures SenderRead(SenderDoes(e, l), labels + [Sending(l)])
  {
    if l.SenderTake? {
      SenderTakes(e, labels);
    } else {
      SenderGoesOn(e, labels, l);
    }
  }

  /** In every run the Sender got what was handed to it, one reply for each completion among
      it, and wrote what it took. */
  lemma {:induction false} SenderReadsRun(capacity: nat, labels: seq<Label>, e: Endpoint)
    requires Run(Fresh(capacity), labels) == Some(e)
    ensures SenderRead(e, labels)
  {
    if labels != [] {
      var n := |labels| - 1;
      LastApart(labels);
      var d := Run(Fresh(capacity), labels[..n]).value;
      ConnectionReadsRun(capacity, labels[..n], d);
      Law.ConnectionDoes(InputsOf(labels[..n]));
      SenderReadsRun(capacity, labels[..n], d);
      SenderReadStep(d, labels[..n], labels[n]);
    }
  }

  lemma {:induction false} SenderReadStep(e: Endpoint, labels: seq<Label>, l: Label)
    requires SenderRead(e, labels) && CallersRead(e, labels) && Enabled(e, l)
    requires e.conn.at.OutHand() == Law.ForSender(InputsOf(labels))
    ensures SenderRead(Apply(e, l), labels + [l])
  {
    if l.Sending? {
      SenderSteps(e, labels, l.sender);
    } else {
      OtherHands(e, labels, l);
    }
  }

  // ----- the user -----

  /** The events that were put into the user's channel: what the Connection had in hand when
      it offered it, and the Close when it returned. */
  function Offers(labels: seq<Label>): seq<ConnectionEvent> {
    if labels == [] then []
    else
      var before, l := labels[..|labels| - 1], labels[|labels| - 1];
      Offers(before) + if Using(DropEvents) in before then [] else OfferedBy(before, l)
  }

  function OfferedBy(before: seq<Label>, l: Label): seq<ConnectionEvent> {
    match l
    case Connecting(OfferEvent) => Law.ForUser(InputsOf(before))
    case Connecting(OfferClose) => [EClose]
    case _ => []
  }

  function RecvBy(l: Label): seq<bool> { if l == Using(Recv) then [true] else [] }

  /** The completions whose reply was put into the Sender's channel. */
  function Completed(labels: seq<Label>): seq<Completion> {
    if labels == [] then []
    else
      var before, l := labels[..|labels| - 1], labels[|labels| - 1];
      Completed(before) + if Sending(SenderExit) in before then [] else CompletedBy(before, l)
  }

  function CompletedBy(before: seq<Label>, l: Label): seq<Completion> {
    match l
    case Using(CompleteElsewhere(r, d)) => [Completion(r, d)]
    case Using(FinishComplete) =>
      var at := Begun(before);
      if at.Completing? then [Completion(at.request, at.data)] else []
    case _ => []
  }

  ghost predicate UserRead(e: Endpoint, labels: seq<Label>) {
    && e.user.emitted == Offers(labels)
    && Queue(e.user.received, e.user.events, Offers(labels), !e.user.open)
    && |e.user.received| == |FlatMap(RecvBy, labels)|
    && e.user.completions == Completed(labels)
  }

  lemma {:induction false} UserReadStep(e: Endpoint, labels: seq<Label>, l: Label)
    requires UserRead(e, labels) && CallersRead(e, labels) && e.user.at == Begun(labels) && Enabled(e, l)
    requires e.conn.at.UserHand() == Law.ForUser(InputsOf(labels))
    ensures UserRead(Apply(e, l), labels + [l])
  {
    Snoc(labels, l);
    StepFrame(e, l);
    FlatMapSnoc(RecvBy, labels, l);
    Nothing(FlatMap(RecvBy, labels));
    Nothing(Offers(labels));
    Nothing(Completed(labels));
    match l
    case Using(l) => UserGets(e, labels, l);
    case Connecting(l) => ConnOffers(e, labels, l);
    case _ =>
  }

  lemma {:induction false} UserGets(e: Endpoint, labels: seq<Label>, l: UserLabel)
    requires UserRead(e, labels) && CallersRead(e, labels) && e.user.at == Begun(labels) && UserCan(e, l)
    ensures var d := UserDoes(e, l);
            && d.user.emitted == Offers(labels)
            && Queue(d.user.received, d.user.events, Offers(labels), !d.user.open)
            && d.user.received == e.user.received + (if l.Recv? then [e.user.events[0]] else [])
            && d.user.completions ==
               Completed(labels) + if e.sender.at.SExited? then [] else CompletedBy(labels, Using(l))
  {
    Nothing(Completed(labels));
    Nothing(e.user.received);
    if l.Recv? {
      QueueTake(e.user.received, e.user.events, Offers(labels));
    }
  }

  lemma {:induction false} ConnOffers(e: Endpoint, labels: seq<Label>, l: ConnLabel)
    requires UserRead(e, labels) && CallersRead(e, labels) && ConnCan(e, l)
    requires e.conn.at.UserHand() == Law.ForUser(InputsOf(labels))
    ensures var d := ConnDoes(e, l);
            var more := if e.user.open then OfferedBy(labels, Connecting(l)) else [];
            && d.user.emitted == Offers(labels) + more
            && Queue(d.user.received, d.user.events, Offers(labels) + more, !d.user.open)
            && d.user.received == e.user.received && d.user.completions == e.user.completions
  {
    var more := if e.user.open then OfferedBy(labels, Connecting(l)) else [];
    Nothing(Offers(labels));
    Nothing(e.user.events);
    QueuePut(e.user.received, e.user.events, Offers(labels), more, !e.user.open);
    assert ConnDoes(e, l).user.events == e.user.events + more;
  }

  /** In every run the user's channel got what was offered, the user got one event for each
      receive, in order, and what it completed is what its labels say. */
  lemma {:induction false} UserReadsRun(capacity: nat, labels: seq<Label>, e: Endpoint)
    requires Run(Fresh(capacity), labels) == Some(e)
    ensures UserRead(e, labels)
  {
    if labels != [] {
      var n := |labels| - 1;
      LastApart(labels);
      var d := Run(Fresh(capacity), labels[..n]).value;
      ConnectionReadsRun(capacity, labels[..n], d);
      SenderReadsRun(capacity, labels[..n], d);
      Law.ConnectionDoes(InputsOf(labels[..n]));
      UserReadsRun(capacity, labels[..n], d);
      UserReadStep(d, labels[..n], labels[n]);
    }
  }

  // ----- completions are replies -----

  lemma {:induction false} RepliesHanded(labels: seq<Label>)
    ensures FlatMap(AsReply, FlatMap(Queued, Handed(labels))) == FlatMap(ReplyTo, Completed(labels))
  {
    if labels != [] {
      var n := |labels| - 1;
      var before, l := labels[..n], labels[n];
      RepliesHanded(before);
      if Sending(SenderExit) in before {
        Nothing(Handed(before));
        Nothing(Completed(before));
      } else {
        FlatMapConcat(Queued, Handed(before), HandedBy(before, l));
        FlatMapConcat(AsReply, FlatMap(Queued, Handed(before)), FlatMap(Queued, HandedBy(before, l)));
        FlatMapConcat(ReplyTo, Completed(before), CompletedBy(before, l));
        ReplyHanded(before, l);
      }
    }
  }

  function ReplyTo(c: Completion): seq<Reply> { [Reply(c.request.id, c.data)] }

  lemma {:induction false} ReplyHanded(before: seq<Label>, l: Label)
    ensures FlatMap(AsReply, FlatMap(Queued, HandedBy(before, l))) == FlatMap(ReplyTo, CompletedBy(before, l))
  {
    match l
    case Connecting(SendMessage) => OwnMessageHanded(before);
    case Connecting(CloseSender) => FlatMapOne(Queued, SClose);
    case Using(CompleteElsewhere(r, d)) => OneReply(r, d);
    case Using(FinishComplete) =>
      if Begun(before).Completing? {
        OneReply(Begun(before).request, Begun(before).data);
      }
    case _ =>
  }

  lemma {:induction false} OneReply(r: Request, d: Payload)
    ensures FlatMap(AsReply, FlatMap(Queued, [SMessage(MReply(Reply(r.id, d)))])) == [Reply(r.id, d)]
    ensures FlatMap(ReplyTo, [Completion(r, d)]) == [Reply(r.id, d)]
  {
    var m := MReply(Reply(r.id, d));
    FlatMapOne(Queued, SMessage(m));
    FlatMapOne(AsReply, m);
    FlatMapOne(ReplyTo, Completion(r, d));
  }

  /** The Connection itself hands over no reply. */
  lemma {:induction false} OwnMessageHanded(before: seq<Label>)
    ensures FlatMap(AsReply, FlatMap(Queued, FlatMap(AsHanded, Law.ForSender(InputsOf(before))))) == []
  {
    var own := Law.ForSender(InputsOf(before));
    if own != [] {
      FlatMapOne(AsHanded, own[0]);
      FlatMapOne(Queued, SMessage(own[0]));
      FlatMapOne(AsReply, own[0]);
    }
  }

  /** Completing a handle, here or in another task, puts exactly one reply into the Sender's
      channel, with the id of the handle and the data given, in the order of the completions. */
  lemma {:induction false} CompletionsAreReplies(capacity: nat, labels: seq<Label>, e: Endpoint)
    requires Run(Fresh(capacity), labels) == Some(e)
    ensures FlatMap(AsReply, e.sender.entered) == FlatMap(ReplyTo, Completed(labels))
    ensures e.user.completions == Completed(labels)
  {
    SenderReadsRun(capacity, labels, e);
    UserReadsRun(capacity, labels, e);
    RepliesHanded(labels);
  }

  // ----- what became of the calls -----

  function BlockedIn(labels: seq<Label>): set<Tx> {
    if labels == [] then {}
    else
      var before := labels[..|labels| - 1];
      match labels[|labels| - 1]
      case Caller(Call(_)) => BlockedIn(before) + {|Asked(before)|}
      case Caller(Enqueue(tx)) => BlockedIn(before) - {tx}
      case Caller(CallFails(tx)) => BlockedIn(before) - {tx}
      case Caller(Withdraw(tx)) => BlockedIn(before) - {tx}
      case _ => BlockedIn(before)
  }

  function TxPosted(m: ConnectionMessage): seq<Tx> { if m.CRequest? then [m.tx] else [] }

  /** A send to a Connection that has returned ends as `SendError`; a request that was in its
      channel when it returned ends as `RecvError`. */
  function FailedIn(labels: seq<Label>): map<Tx, Failure> {
    if labels == [] then map[]
    else
      var before := labels[..|labels| - 1];
      match labels[|labels| - 1]
      case Caller(CallFails(tx)) => FailedIn(before)[tx := SendError]
      case Caller(Withdraw(tx)) => FailedIn(before)[tx := GaveUp]
      case Connecting(OfferClose) => FailedIn(before) + map tx | tx in LeftIn(before) :: RecvError
      case _ => FailedIn(before)
  }

  /** The oneshots in the external channel. */
  function LeftIn(labels: seq<Label>): set<Tx> {
    var n := |FlatMap(ExternalIn, InputsOf(labels))|;
    if n > |Posted(labels)| then {}
    else set m | m in Posted(labels)[n..] && m.CRequest? :: m.tx
  }

  lemma {:induction false} CallsReadStep(e: Endpoint, labels: seq<Label>, l: Label)
    requires ConnectionRead(e, labels) && CallersRead(e, labels) && Enabled(e, l)
    requires e.calls.blocked == BlockedIn(labels) && e.calls.failed == FailedIn(labels)
    ensures Apply(e, l).calls.blocked == BlockedIn(labels + [l]) && Apply(e, l).calls.failed == FailedIn(labels + [l])
  {
    Snoc(labels, l);
    if l == Connecting(OfferClose) {
      LeftWaiting(e, labels);
    } else if l.Connecting? {
      CallsStay(e, l.conn);
    } else {
      StepFrame(e, l);
    }
  }

  lemma {:induction false} LeftWaiting(e: Endpoint, labels: seq<Label>)
    requires ConnectionRead(e, labels) && !e.conn.at.Returned?
    ensures LeftIn(labels) == QueuedTxs(e.ext)
  {
    var taken := FlatMap(ExternalIn, InputsOf(labels));
    assert Posted(labels)[|taken|..] == e.ext;
  }

  lemma CallsStay(e: Endpoint, l: ConnLabel)
    requires ConnCan(e, l) && !l.OfferClose?
    ensures ConnDoes(e, l).calls == e.calls
  {}

  /** In every run it is settled by the labels which calls are blocked and which have failed,
      and how. */
  lemma {:induction false} CallsReadRun(capacity: nat, labels: seq<Label>, e: Endpoint)
    requires Run(Fresh(capacity), labels) == Some(e)
    ensures e.calls.data == Asked(labels) && e.calls.gone == Gone(labels)
    ensures e.calls.blocked == BlockedIn(labels) && e.calls.failed == FailedIn(labels)
  {
    ConnectionReadsRun(capacity, labels, e);
    if labels != [] {
      var n := |labels| - 1;
      LastApart(labels);
      var d := Run(Fresh(capacity), labels[..n]).value;
      ConnectionReadsRun(capacity, labels[..n], d);
      CallsReadRun(capacity, labels[..n], d);
      CallsReadStep(d, labels[..n], labels[n]);
    }
  }
}
