/** An endpoint made of actor objects and the channels between them. Every step of
    `EndpointSpec` is a method here: what is proved of the runs of an endpoint holds of
    the objects. */
module Nodes {
  import opened Messages
  import opened Machines
  import opened Channels
  import opened Actors
  import opened Connections
  import opened EndpointSpec
  import Core = ConnectionCore
  import SenderCore

  class Node {
    const connection: Connection
    const sender: SenderActor
    const receiver: ReceiverActor
    const ext: Channel<ConnectionMessage>
    const inq: Channel<InternalMessage>
    const senderQ: Channel<SenderMessage>
    const receiverQ: Channel<ReceiverMessage>
    const events: Channel<ConnectionEvent>
    const hdl: ConnectionHdl
    var userAt: UserAt
    var calls: Calls
    ghost var emitted: seq<ConnectionEvent>
    ghost var received: seq<ConnectionEvent>
    ghost var completions: seq<Completion>

    ghost function Repr(): set<object> {
      {this, connection, sender, receiver, ext, inq, senderQ, receiverQ, events}
    }

    ghost function View(): Endpoint
      reads Repr()
    {
      Endpoint(
        connection.State(),
        SenderCore.Sender(sender.at, senderQ.buf, sender.entered, sender.written, sender.fault),
        Receiver(receiver.at, receiverQ.buf, receiver.framed),
        User(userAt, events.open, events.capacity, events.buf, emitted, received, completions),
        calls, ext.buf, inq.buf)
    }

    /** The actors are wired to these channels, and a channel is open while its actor has not returned. */
    ghost predicate Valid()
      reads Repr()
    {
      && connection.rx == ext && connection.internalRx == inq && connection.receiverTx == receiverQ
      && connection.senderTx == senderQ && connection.eventTx == events
      && sender.rx == senderQ && sender.connectionHdl.tx == inq
      && receiver.rx == receiverQ && receiver.connectionHdl.tx == inq && hdl.tx == ext
      && connection.Wired()
      && ext.capacity == inq.capacity == senderQ.capacity == receiverQ.capacity == CAPACITY
      && ext.open == inq.open == !connection.at.Returned?
      && senderQ.open == !sender.at.SExited?
      && receiverQ.open == !receiver.at.RExited?
    }

    /** `Connection::new`: the actors are built around their channels. */
    constructor (ext: Channel<ConnectionMessage>, inq: Channel<InternalMessage>, senderQ: Channel<SenderMessage>,
                 receiverQ: Channel<ReceiverMessage>, events: Channel<ConnectionEvent>)
      requires ext.IsNew(CAPACITY) && inq.IsNew(CAPACITY) && senderQ.IsNew(CAPACITY) && receiverQ.IsNew(CAPACITY)
      requires events.IsNew(events.capacity)
      ensures Valid() && View() == Fresh(events.capacity)
      ensures this.ext == ext && this.inq == inq && this.senderQ == senderQ
      ensures this.receiverQ == receiverQ && this.events == events
      ensures fresh(connection) && fresh(sender) && fresh(receiver)
    {
      var internalHdl := new InternalHdl(inq);
      this.sender := new SenderActor(senderQ, internalHdl);
      this.receiver := new ReceiverActor(receiverQ, internalHdl);
      this.connection := new Connection(ext, inq, receiverQ, senderQ, events);
      this.hdl := new ConnectionHdl(ext);
      this.ext, this.inq, this.senderQ, this.receiverQ, this.events := ext, inq, senderQ, receiverQ, events;
      userAt, emitted, received, completions := Idle, [], [], [];
      calls := Calls([], {}, map[], {});
    }

    /** A fresh endpoint whose user chose an event channel of this capacity. */
    static method Open(capacity: nat) returns (node: Node)
      ensures node.Valid() && fresh(node.Repr()) && node.View() == Fresh(capacity)
    {
      var ext := new Channel<ConnectionMessage>(CAPACITY);
      var inq := new Channel<InternalMessage>(CAPACITY);
      var senderQ := new Channel<SenderMessage>(CAPACITY);
      var receiverQ := new Channel<ReceiverMessage>(CAPACITY);
      var events := new Channel<ConnectionEvent>(capacity);
      node := new Node(ext, inq, senderQ, receiverQ, events);
    }

    // ----- the Connection -----

    method ConnStep(l: ConnLabel)
      requires Valid() && ConnCan(View(), l)
      modifies Repr()
      ensures Valid() && View() == ConnDoes(old(View()), l)
    {
      match l
      case TakeExternal => ConnTakeStep(l);
      case TakeInternal => ConnTakeStep(l);
      case SendMessage => ConnSendStep();
      case OfferEvent => ConnOfferStep();
      case CloseReceiver => ConnCloseStep(l);
      case CloseSender => ConnCloseStep(l);
      case OfferClose => ConnReturnStep();
    }

    method ConnTakeStep(l: ConnLabel)
      requires Valid() && ConnCan(View(), l) && (l.TakeExternal? || l.TakeInternal?)
      modifies Repr()
      ensures Valid() && View() == ConnDoes(old(View()), l)
    {
      if l.TakeExternal? {
        var ready := connection.PollExternal();
      } else {
        var ready := connection.PollInternal(calls.gone);
      }
    }

    method ConnCloseStep(l: ConnLabel)
      requires Valid() && ConnCan(View(), l) && (l.CloseReceiver? || l.CloseSender?)
      modifies Repr()
      ensures Valid() && View() == ConnDoes(old(View()), l)
    {
      if l.CloseReceiver? {
        var ready := connection.PollCloseReceiver();
      } else {
        var ready := connection.PollCloseSender(calls.gone);
      }
    }

    method ConnSendStep()
      requires Valid() && ConnCan(View(), SendMessage)
      modifies Repr()
      ensures Valid() && View() == ConnDoes(old(View()), SendMessage)
    {
      ghost var m := connection.at.message;
      var ready := connection.PollSend();
      if senderQ.open {
        sender.entered := sender.entered + [m];
      }
    }

    method ConnOfferStep()
      requires Valid() && ConnCan(View(), OfferEvent)
      modifies Repr()
      ensures Valid() && View() == ConnDoes(old(View()), OfferEvent)
    {
      ghost var event := connection.at.event;
      var ready := connection.PollOffer();
      if events.open {
        emitted := emitted + [event];
      }
    }

    method ConnReturnStep()
      requires Valid() && ConnCan(View(), OfferClose)
      modifies Repr()
      ensures Valid() && View() == ConnDoes(old(View()), OfferClose)
    {
      LoseQueuedRequests();
      var ready := connection.PollOfferClose();
      if events.open {
        emitted := emitted + [EClose];
      }
    }

    /** The oneshots in the Connection's channel go down with it. */
    method LoseQueuedRequests()
      modifies this`calls
      ensures calls == old(calls).(failed := old(calls).failed + map tx | tx in QueuedTxs(ext.buf) :: RecvError)
    {
      calls := calls.(failed := calls.failed + map tx | tx in QueuedTxs(ext.buf) :: RecvError);
    }

    // ----- the Sender and the Receiver -----

    method SenderStep(l: SenderLabel)
      requires Valid() && SenderCan(View(), l)
      modifies Repr()
      ensures Valid() && View() == SenderDoes(old(View()), l)
    {
      match l
      case SenderTake => var ready := sender.PollTake();
      case SenderWrite => sender.SinkDone(Written);
      case SenderFail(closing, wrote) => sender.SinkDone(Refused(closing, wrote));
      case SenderReport => var ready := sender.PollReport();
      case SenderExit => sender.Finish();
    }

    method ReceiverStep(l: ReceiverLabel)
      requires Valid() && ReceiverCan(View(), l)
      modifies Repr()
      ensures Valid() && View() == ReceiverDoes(old(View()), l)
    {
      match l
      case RecvFrame(m) => receiver.OnFrame(m);
      case RecvEnd => receiver.OnEnd();
      case Forward => var ready := receiver.PollForward();
      case ReceiverReport => var ready := receiver.PollReport();
      case TakeClose => var ready := receiver.PollClose();
    }

    // ----- callers -----

    method CallerStep(l: CallerLabel)
      requires Valid() && CallerCan(View(), l)
      modifies Repr()
      ensures Valid() && View() == CallerDoes(old(View()), l)
    {
      match l
      case Call(d) => calls := calls.(data := calls.data + [d], blocked := calls.blocked + {|calls.data|});
      case Enqueue(tx) => EnqueueRequest(tx, calls.data[tx]);
      case CallFails(tx) => calls := GiveUp(calls, tx, SendError);
      case Withdraw(tx) => calls := GiveUp(calls, tx, GaveUp);
      case Abandon(tx) => calls := calls.(gone := calls.gone + {tx});
      case SendEvent(d) => var r := hdl.Event(d);
      case SendClose => var r := hdl.Close();
    }

    method EnqueueRequest(tx: Tx, data: Payload)
      requires Valid() && CallerCan(View(), Enqueue(tx)) && calls.data[tx] == data
      modifies Repr()
      ensures Valid() && View() == CallerDoes(old(View()), Enqueue(tx))
    {
      var r := hdl.RequestWithSender(data, tx);
      calls := calls.(blocked := calls.blocked - {tx});
    }

    // ----- the user -----

    method UserStep(l: UserLabel)
      requires Valid() && UserCan(View(), l)
      modifies Repr()
      ensures Valid() && View() == UserDoes(old(View()), l)
    {
      match l
      case Recv =>
        var x := events.TryRecv();
        received := received + [x.value];
      case DropEvents =>
        events.Drop();
        userAt := Idle;
      case BeginComplete(r, d) => userAt := Completing(r, d);
      case FinishComplete => FinishStep();
      case CompleteElsewhere(r, d) => CompleteElsewhereStep(r, d);
    }

    method FinishStep()
      requires Valid() && UserCan(View(), FinishComplete)
      modifies Repr()
      ensures Valid() && View() == UserDoes(old(View()), FinishComplete)
    {
      var handle := new RequestHandle(userAt.request, senderQ);
      CompleteHandle(handle, userAt.data);
      userAt := Idle;
    }

    method CompleteElsewhereStep(r: Request, d: Payload)
      requires Valid() && UserCan(View(), CompleteElsewhere(r, d))
      modifies Repr()
      ensures Valid() && View() == UserDoes(old(View()), CompleteElsewhere(r, d))
    {
      var handle := new RequestHandle(r, senderQ);
      CompleteHandle(handle, d);
    }

    /** A handle is completed; a reply that enters the Sender's channel is recorded. */
    method CompleteHandle(handle: RequestHandle, d: Payload)
      requires Valid() && handle.senderTx == senderQ && senderQ.SendReady()
      modifies Repr()
      ensures Valid() && userAt == old(userAt)
      ensures View() == if sender.at.SExited? then old(View()) else Complete(old(View()), handle.request, d)
    {
      var r := handle.Complete(d);
      if r.Accepted? {
        sender.entered := sender.entered + [CompletionOf(handle.request, d)];
        completions := completions + [Completion(handle.request, d)];
      }
    }

    // ----- runs -----

    method Step(l: Label)
      requires Valid() && Enabled(View(), l)
      modifies Repr()
      ensures Valid() && View() == Apply(old(View()), l)
    {
      match l
      case Caller(l) => CallerStep(l);
      case Using(l) => UserStep(l);
      case Connecting(l) => ConnStep(l);
      case Sending(l) => SenderStep(l);
      case Receiving(l) => ReceiverStep(l);
    }

    /** The objects go through every run of the endpoint that the specification allows. */
    method Perform(labels: seq<Label>)
      requires Valid() && Run(View(), labels).Some?
      modifies Repr()
      ensures Valid() && Run(old(View()), labels) == Some(View())
    {
      ghost var start := View();
      for n := 0 to |labels|
        invariant Valid() && Run(start, labels[..n]) == Some(View())
      {
        AfterGoesOn(TryApply, start, labels, n);
        Step(labels[n]);
      }
      assert labels[..|labels|] == labels;
    }
  }
}
