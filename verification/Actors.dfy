/** The Sender and the Receiver actors and the handles, as objects that share channels. */
module Actors {
  import opened Messages
  import opened Channels
  import opened SenderCore
  import opened EndpointSpec

  /** What came of handing a frame to the sink. */
  datatype WriteResult = Written | Refused(closing: bool, wrote: bool)

  class SenderActor {
    var at: SenderAt
    const rx: Channel<SenderMessage>
    const connectionHdl: InternalHdl
    ghost var entered: seq<Message>
    ghost var written: seq<Message>
    ghost var fault: bool

    ghost function State(): Sender
      reads this, rx
    {
      Sender(at, rx.buf, entered, written, fault)
    }

    constructor (rx: Channel<SenderMessage>, connectionHdl: InternalHdl)
      requires rx.buf == []
      ensures this.rx == rx && this.connectionHdl == connectionHdl && State() == NEW_SENDER
    {
      this.rx, this.connectionHdl := rx, connectionHdl;
      at := SWaiting;
      entered, written, fault := [], [], false;
    }

    /** `rx.recv()` and the start of `handle_message`. */
    method PollTake() returns (ready: bool)
      requires rx.Valid() && at.SWaiting?
      modifies this`at, rx
      ensures rx.Valid() && rx.open == old(rx.open)
      ensures ready <==> old(rx.buf) != []
      ensures State() == if ready then Take(old(State())) else old(State())
    {
      var x := rx.TryRecv();
      ready := x.Some?;
      match x
      case Some(SMessage(m)) => at := SWriting(m);
      case Some(SClose) => at := SClosing;
      case None =>
    }

    /** The end of `send`: a closing error is reported to the Connection, others are only logged. */
    method SinkDone(result: WriteResult)
      requires at.SWriting?
      modifies this
      ensures State() ==
        if result.Written? then Write(old(State())) else Fail(old(State()), result.closing, result.wrote)
    {
      match result
      case Written =>
        written := written + [at.message];
        at := SWaiting;
      case Refused(closing, wrote) =>
        fault := true;
        if wrote {
          written := written + [at.message];
        }
        at := if closing then SReporting else SWaiting;
    }

    method PollReport() returns (ready: bool)
      requires connectionHdl.tx.Valid() && at.SReporting?
      modifies this`at, connectionHdl.tx
      ensures connectionHdl.tx.Valid() && connectionHdl.tx.open == old(connectionHdl.tx.open)
      ensures ready <==> old(connectionHdl.tx.SendReady())
      ensures connectionHdl.tx.buf ==
        if ready && old(connectionHdl.tx.open) then old(connectionHdl.tx.buf) + [IClose] else old(connectionHdl.tx.buf)
      ensures at == if ready then SWaiting else old(at)
    {
      ready := connectionHdl.Close();
      if ready {
        at := SWaiting;
      }
    }

    /** The sink is closed, `run` returns and drops its channel. */
    method Finish()
      requires at.SClosing?
      modifies this`at, rx
      ensures rx.Valid() && !rx.open && State() == Exit(old(State()))
    {
      at := SExited;
      rx.Drop();
    }
  }

  class ReceiverActor {
    var at: ReceiverAt
    const rx: Channel<ReceiverMessage>
    const connectionHdl: InternalHdl
    ghost var framed: seq<Message>

    ghost function State(): Receiver
      reads this, rx
    {
      Receiver(at, rx.buf, framed)
    }

    constructor (rx: Channel<ReceiverMessage>, connectionHdl: InternalHdl)
      requires rx.buf == []
      ensures this.rx == rx && this.connectionHdl == connectionHdl && State() == NEW_RECEIVER
    {
      this.rx, this.connectionHdl := rx, connectionHdl;
      at := RListening;
      framed := [];
    }

    /** The stream yields a frame that decodes to `m`. */
    method OnFrame(m: Message)
      requires at.RListening?
      modifies this
      ensures State() == old(State()).(at := RForwarding(m), framed := old(framed) + [m])
    {
      framed := framed + [m];
      at := RForwarding(m);
    }

    /** The stream ends, or yields an error that closes it. */
    method OnEnd()
      requires at.RListening?
      modifies this`at
      ensures State() == old(State()).(at := RReporting)
    {
      at := RReporting;
    }

    method PollForward() returns (ready: bool)
      requires connectionHdl.tx.Valid() && at.RForwarding?
      modifies this`at, connectionHdl.tx
      ensures connectionHdl.tx.Valid() && connectionHdl.tx.open == old(connectionHdl.tx.open)
      ensures ready <==> old(connectionHdl.tx.SendReady())
      ensures connectionHdl.tx.buf ==
        if ready && old(connectionHdl.tx.open) then old(connectionHdl.tx.buf) + [INew(old(at).message)]
        else old(connectionHdl.tx.buf)
      ensures at == if ready then RListening else old(at)
    {
      ready := connectionHdl.NewMessage(at.message);
      if ready {
        at := RListening;
      }
    }

    /** The Connection is told, `run` returns and drops its channel. */
    method PollReport() returns (ready: bool)
      requires connectionHdl.tx.Valid() && rx.Valid() && at.RReporting?
      modifies this`at, connectionHdl.tx, rx
      ensures connectionHdl.tx.Valid() && rx.Valid() && connectionHdl.tx.open == old(connectionHdl.tx.open)
      ensures ready <==> old(connectionHdl.tx.SendReady())
      ensures connectionHdl.tx.buf ==
        if ready && old(connectionHdl.tx.open) then old(connectionHdl.tx.buf) + [IClose] else old(connectionHdl.tx.buf)
      ensures State() == if ready then old(State()).(at := RExited, queue := []) else old(State())
      ensures rx.open == (!ready && old(rx.open))
    {
      ready := connectionHdl.Close();
      if ready {
        at := RExited;
        rx.Drop();
      }
    }

    /** The Close arm of `select!`. */
    method PollClose() returns (ready: bool)
      requires rx.Valid() && at.RListening?
      modifies this`at, rx
      ensures rx.Valid() && (ready <==> old(rx.buf) != [])
      ensures State() == if ready then old(State()).(at := RExited, queue := []) else old(State())
      ensures rx.open == (!ready && old(rx.open))
    {
      var x := rx.TryRecv();
      ready := x.Some?;
      if ready {
        at := RExited;
        rx.Drop();
      }
    }
  }

  /** `InternalHdl`: a failed send is not an error. The results say whether the send is over. */
  class InternalHdl {
    const tx: Channel<InternalMessage>

    constructor (tx: Channel<InternalMessage>)
      ensures this.tx == tx
    {
      this.tx := tx;
    }

    method Tell(m: InternalMessage) returns (over: bool)
      requires tx.Valid()
      modifies tx
      ensures tx.Valid() && tx.open == old(tx.open)
      ensures over <==> old(tx.SendReady())
      ensures tx.buf == if over && old(tx.open) then old(tx.buf) + [m] else old(tx.buf)
    {
      var r := tx.TrySend(m);
      over := !r.Full?;
    }

    method Close() returns (over: bool)
      requires tx.Valid()
      modifies tx
      ensures tx.Valid() && tx.open == old(tx.open)
      ensures over <==> old(tx.SendReady())
      ensures tx.buf == if over && old(tx.open) then old(tx.buf) + [IClose] else old(tx.buf)
    {
      over := Tell(IClose);
    }

    method NewMessage(m: Message) returns (over: bool)
      requires tx.Valid()
      modifies tx
      ensures tx.Valid() && tx.open == old(tx.open)
      ensures over <==> old(tx.SendReady())
      ensures tx.buf == if over && old(tx.open) then old(tx.buf) + [INew(m)] else old(tx.buf)
    {
      over := Tell(INew(m));
    }
  }

  /** `ConnectionHdl`: the messages callers put into the external channel. */
  class ConnectionHdl {
    const tx: Channel<ConnectionMessage>

    constructor (tx: Channel<ConnectionMessage>)
      ensures this.tx == tx
    {
      this.tx := tx;
    }

    method RequestWithSender(data: Payload, oneshot: Tx) returns (r: SendResult)
      requires tx.Valid()
      modifies tx
      ensures tx.Valid() && tx.open == old(tx.open)
      ensures (r.Full? <==> !old(tx.SendReady())) && (r.Disconnected? <==> !old(tx.open))
      ensures tx.buf == if r.Accepted? then old(tx.buf) + [CRequest(data, oneshot)] else old(tx.buf)
    {
      r := tx.TrySend(CRequest(data, oneshot));
    }

    method Event(data: Payload) returns (r: SendResult)
      requires tx.Valid()
      modifies tx
      ensures tx.Valid() && tx.open == old(tx.open)
      ensures (r.Full? <==> !old(tx.SendReady())) && (r.Disconnected? <==> !old(tx.open))
      ensures tx.buf == if r.Accepted? then old(tx.buf) + [CEvent(data)] else old(tx.buf)
    {
      r := tx.TrySend(CEvent(data));
    }

    method Close() returns (r: SendResult)
      requires tx.Valid()
      modifies tx
      ensures tx.Valid() && tx.open == old(tx.open)
      ensures (r.Full? <==> !old(tx.SendReady())) && (r.Disconnected? <==> !old(tx.open))
      ensures tx.buf == if r.Accepted? then old(tx.buf) + [CClose] else old(tx.buf)
    {
      r := tx.TrySend(CClose);
    }
  }

  /** `RequestHandle`: may be cloned and completed any number of times. */
  class RequestHandle {
    const request: Request
    const senderTx: Channel<SenderMessage>

    constructor (request: Request, senderTx: Channel<SenderMessage>)
      ensures this.request == request && this.senderTx == senderTx
    {
      this.request, this.senderTx := request, senderTx;
    }

    method Complete(reply: Payload) returns (r: SendResult)
      requires senderTx.Valid()
      modifies senderTx
      ensures senderTx.Valid() && senderTx.open == old(senderTx.open)
      ensures (r.Full? <==> !old(senderTx.SendReady())) && (r.Disconnected? <==> !old(senderTx.open))
      ensures senderTx.buf ==
        if r.Accepted? then old(senderTx.buf) + [SMessage(CompletionOf(request, reply))] else old(senderTx.buf)
    {
      var message := MReply(Messages.Reply(request.id, reply));
      r := senderTx.TrySend(SMessage(message));
    }
  }
}
