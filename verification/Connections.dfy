/** The Connection actor as an object. Its methods run it from one await point to the next
    and realise the steps of `ConnectionCore.Next`. */
module Connections {
  import opened Messages
  import opened Machines
  import opened Channels
  import Core = ConnectionCore

  class Connection {
    var nextId: nat
    var replyMap: map<nat, Tx>
    var at: Core.Await

    /** The oneshot cells this actor has written to. */
    var outcomes: map<Tx, Outcome>

    ghost var accepted: seq<Message>
    ghost var issued: seq<Core.Issue>
    ghost var taken: seq<Message>

    const rx: Channel<ConnectionMessage>
    const internalRx: Channel<InternalMessage>
    const receiverTx: Channel<ReceiverMessage>
    const senderTx: Channel<SenderMessage>
    const eventTx: Channel<ConnectionEvent>

    ghost function State(): Core.Conn
      reads this
    {
      Core.Conn(nextId, replyMap, at, outcomes, accepted, issued, taken)
    }

    constructor (rx: Channel<ConnectionMessage>, internalRx: Channel<InternalMessage>,
                 receiverTx: Channel<ReceiverMessage>, senderTx: Channel<SenderMessage>,
                 eventTx: Channel<ConnectionEvent>)
      ensures State() == Core.INIT
      ensures this.rx == rx && this.internalRx == internalRx && this.receiverTx == receiverTx
      ensures this.senderTx == senderTx && this.eventTx == eventTx
    {
      this.rx, this.internalRx := rx, internalRx;
      this.receiverTx, this.senderTx, this.eventTx := receiverTx, senderTx, eventTx;
      nextId, replyMap, at, outcomes := 0, map[], Core.Selecting, map[];
      accepted, issued, taken := [], [], [];
    }

    // ----- handlers: they run up to the next await -----

    method HandleExternal(message: ConnectionMessage)
      requires Core.CanTake(State(), Core.External(message))
      modifies this
      ensures State() == Core.Next(old(State()), Core.External(message))
    {
      match message
      case CEvent(event) => StartSend(MEvent(event));
      case CRequest(data, tx) => SendRequest(data, tx);
      case CClose => at := Core.ClosingReceiver;
    }

    method StartSend(message: Message)
      modifies this
      ensures State() == Core.Accept(old(State()), message)
    {
      at := Core.SendingMessage(message);
      accepted := accepted + [message];
    }

    method SendRequest(data: Payload, tx: Tx)
      modifies this
      ensures State() == Core.SendRequest(old(State()), data, tx)
    {
      var id := nextId;
      nextId := (nextId + 1) % Core.USIZE;
      issued := issued + [Core.Issue(tx, data, |taken|)];
      if id in replyMap {
        outcomes := outcomes[tx := Dropped];
        return;
      }
      replyMap := replyMap[id := tx];
      StartSend(MRequest(Request(id, data)));
    }

    method HandleInternal(message: InternalMessage, gone: set<Tx>)
      requires Core.CanTake(State(), Core.Internal(message, gone))
      modifies this
      ensures State() == Core.Next(old(State()), Core.Internal(message, gone))
    {
      match message
      case IClose => at := Core.ClosingReceiver;
      case INew(m) =>
        taken := taken + [m];
        match m {
          case MRequest(request) => at := Core.OfferingEvent(ERequest(request));
          case MEvent(event) => at := Core.OfferingEvent(EEvent(event));
          case MReply(reply) => HandleInternalReply(reply, gone);
        }
    }

    /** `send` on a oneshot: it fails if the receiving half, like those in `gone`, was dropped. */
    method Answer(tx: Tx, o: Outcome, gone: set<Tx>) returns (heard: bool)
      modifies this`outcomes
      ensures heard <==> tx !in gone
      ensures outcomes == old(outcomes)[tx := Delivered(gone, tx, o)]
    {
      heard := tx !in gone;
      outcomes := outcomes[tx := if heard then o else Unheard];
    }

    /** An answer that nobody hears is only logged. */
    method HandleInternalReply(reply: Reply, gone: set<Tx>)
      modifies this
      ensures State() == Core.TakeReply(old(State()), reply, gone)
    {
      if reply.id in replyMap {
        var tx := replyMap[reply.id];
        replyMap := replyMap - {reply.id};
        var heard := Answer(tx, Ok(reply.data), gone);
      }
    }

    /** Every pending request is canceled, in whatever order the keys come, and each entry is
        used for this once. */
    method CancelRequests(gone: set<Tx>) returns (ghost order: seq<nat>)
      modifies this
      ensures State() == Core.CancelRequests(old(State()), gone)
      ensures Once(order, old(replyMap).Keys)
      ensures outcomes == AfterCancel(old(outcomes), old(replyMap), order, gone)
    {
      ghost var pending, before := replyMap, outcomes;
      var keys := replyMap.Keys;
      order := [];
      while keys != {}
        invariant keys == replyMap.Keys && keys <= pending.Keys
        invariant forall key | key in keys :: replyMap[key] == pending[key]
        invariant Once(order, pending.Keys - keys)
        invariant outcomes == AfterCancel(before, pending, order, gone)
        invariant at == old(at) && nextId == old(nextId)
        invariant accepted == old(accepted) && issued == old(issued) && taken == old(taken)
        decreases keys
      {
        var key :| key in keys;
        keys := keys - {key};
        if key in replyMap {
          CancelOne(key, gone);
          OnceMore(order, pending.Keys - keys - {key}, key);
          CanceledSnoc(before, pending, order, key, gone);
          order := order + [key];
        }
      }
      AllCanceled(before, pending, order, gone);
    }

    method CancelOne(key: nat, gone: set<Tx>)
      requires key in replyMap
      modifies this`replyMap, this`outcomes
      ensures replyMap == old(replyMap) - {key}
      ensures outcomes == old(outcomes)[old(replyMap)[key] := Delivered(gone, old(replyMap)[key], Canceled)]
    {
      var tx := replyMap[key];
      replyMap := replyMap - {key};
      var heard := Answer(tx, Canceled, gone);
    }

    /** One turn of the actor. */
    method Wake(i: Core.Input)
      requires Core.CanTake(State(), i)
      modifies this
      ensures State() == Core.Next(old(State()), i)
    {
      match i
      case External(message) => HandleExternal(message);
      case Internal(message, gone) => HandleInternal(message, gone);
      case Sent(ok) => at := if ok then Core.Selecting else Core.ClosingReceiver;
      case Offered(ok) => at := if ok then Core.Selecting else Core.ClosingReceiver;
      case ReceiverClosed => at := Core.ClosingSender;
      case SenderClosed(gone) =>
        ghost var order := CancelRequests(gone);
        at := Core.OfferingClose;
      case CloseOffered => at := Core.Returned;
    }

    /** `run`, for any course of the channels around it. */
    method Run(inputs: seq<Core.Input>)
      requires Core.Exec(State(), inputs).Some?
      modifies this
      ensures Core.Exec(old(State()), inputs) == Some(State())
    {
      for n := 0 to |inputs|
        invariant Core.Exec(old(State()), inputs[..n]) == Some(State())
      {
        AfterGoesOn(Core.TryNext, old(State()), inputs, n);
        Wake(inputs[n]);
      }
      assert inputs[..|inputs|] == inputs;
    }

    // ----- one attempt to get past an await point -----

    ghost predicate Wired()
      reads rx, internalRx, receiverTx, senderTx, eventTx
    {
      rx.Valid() && internalRx.Valid() && receiverTx.Valid() && senderTx.Valid() && eventTx.Valid()
    }

    /** The first arm of `select!`. */
    method PollExternal() returns (ready: bool)
      requires Wired() && at.Selecting? && (rx.buf != [] ==> Core.CanTake(State(), Core.External(rx.buf[0])))
      modifies this, rx
      ensures Wired() && rx.open == old(rx.open)
      ensures ready <==> old(rx.buf) != []
      ensures !ready ==> State() == old(State()) && rx.buf == []
      ensures ready ==> rx.buf == old(rx.buf)[1..] && State() == Core.Next(old(State()), Core.External(old(rx.buf)[0]))
    {
      var x := rx.TryRecv();
      ready := x.Some?;
      if x.Some? {
        HandleExternal(x.value);
      }
    }

    /** The second arm of `select!`. */
    method PollInternal(gone: set<Tx>) returns (ready: bool)
      requires Wired() && at.Selecting?
      modifies this, internalRx
      ensures Wired() && internalRx.open == old(internalRx.open)
      ensures ready <==> old(internalRx.buf) != []
      ensures !ready ==> State() == old(State()) && internalRx.buf == []
      ensures ready ==>
        && internalRx.buf == old(internalRx.buf)[1..]
        && State() == Core.Next(old(State()), Core.Internal(old(internalRx.buf)[0], gone))
    {
      var x := internalRx.TryRecv();
      ready := x.Some?;
      if x.Some? {
        HandleInternal(x.value, gone);
      }
    }

    method PollSend() returns (ready: bool)
      requires Wired() && at.SendingMessage?
      modifies this, senderTx
      ensures Wired() && senderTx.open == old(senderTx.open)
      ensures ready <==> old(senderTx.SendReady())
      ensures !ready ==> State() == old(State()) && senderTx.buf == old(senderTx.buf)
      ensures ready ==> State() == Core.Next(old(State()), Core.Sent(old(senderTx.open)))
      ensures ready ==>
        senderTx.buf ==
        if old(senderTx.open) then old(senderTx.buf) + [SMessage(old(at).message)] else old(senderTx.buf)
    {
      var r := senderTx.TrySend(SMessage(at.message));
      ready := !r.Full?;
      if ready {
        Wake(Core.Sent(r.Accepted?));
      }
    }

    method PollOffer() returns (ready: bool)
      requires Wired() && at.OfferingEvent?
      modifies this, eventTx
      ensures Wired() && eventTx.open == old(eventTx.open)
      ensures ready <==> old(eventTx.SendReady())
      ensures !ready ==> State() == old(State()) && eventTx.buf == old(eventTx.buf)
      ensures ready ==> State() == Core.Next(old(State()), Core.Offered(old(eventTx.open)))
      ensures ready ==>
        eventTx.buf == if old(eventTx.open) then old(eventTx.buf) + [old(at).event] else old(eventTx.buf)
    {
      var r := eventTx.TrySend(at.event);
      ready := !r.Full?;
      if ready {
        Wake(Core.Offered(r.Accepted?));
      }
    }

    /** `close`: first the Receiver, then the Sender; neither result matters. */
    method PollCloseReceiver() returns (ready: bool)
      requires Wired() && at.ClosingReceiver?
      modifies this, receiverTx
      ensures Wired() && receiverTx.open == old(receiverTx.open)
      ensures ready <==> old(receiverTx.SendReady())
      ensures !ready ==> State() == old(State()) && receiverTx.buf == old(receiverTx.buf)
      ensures ready ==> State() == Core.Next(old(State()), Core.ReceiverClosed)
      ensures ready ==>
        receiverTx.buf == if old(receiverTx.open) then old(receiverTx.buf) + [RClose] else old(receiverTx.buf)
    {
      var r := receiverTx.TrySend(RClose);
      ready := !r.Full?;
      if ready {
        Wake(Core.ReceiverClosed);
      }
    }

    method PollCloseSender(gone: set<Tx>) returns (ready: bool)
      requires Wired() && at.ClosingSender?
      modifies this, senderTx
      ensures Wired() && senderTx.open == old(senderTx.open)
      ensures ready <==> old(senderTx.SendReady())
      ensures !ready ==> State() == old(State()) && senderTx.buf == old(senderTx.buf)
      ensures ready ==> State() == Core.Next(old(State()), Core.SenderClosed(gone))
      ensures ready ==> senderTx.buf == if old(senderTx.open) then old(senderTx.buf) + [SClose] else old(senderTx.buf)
    {
      var r := senderTx.TrySend(SClose);
      ready := !r.Full?;
      if ready {
        Wake(Core.SenderClosed(gone));
      }
    }

    /** The Close event; then `run` returns and drops its two queues. */
    method PollOfferClose() returns (ready: bool)
      requires Wired() && at.OfferingClose?
      modifies this, eventTx, rx, internalRx
      ensures Wired() && eventTx.open == old(eventTx.open)
      ensures ready <==> old(eventTx.SendReady())
      ensures !ready ==> State() == old(State()) && eventTx.buf == old(eventTx.buf)
      ensures !ready ==> rx.buf == old(rx.buf) && rx.open == old(rx.open)
      ensures !ready ==> internalRx.buf == old(internalRx.buf) && internalRx.open == old(internalRx.open)
      ensures ready ==> State() == Core.Next(old(State()), Core.CloseOffered)
      ensures ready ==> !rx.open && !internalRx.open && rx.buf == [] && internalRx.buf == []
      ensures ready ==> eventTx.buf == if old(eventTx.open) then old(eventTx.buf) + [EClose] else old(eventTx.buf)
    {
      var r := eventTx.TrySend(EClose);
      ready := !r.Full?;
      if ready {
        Wake(Core.CloseOffered);
        rx.Drop();
        internalRx.Drop();
      }
    }
  }

  /** `order` has each of `keys` exactly once. */
  ghost predicate Once(order: seq<nat>, keys: set<nat>) {
    && (forall key :: key in order <==> key in keys)
    && (forall i, j | 0 <= i < j < |order| :: order[i] != order[j])
  }

  lemma OnceMore(order: seq<nat>, keys: set<nat>, key: nat)
    requires Once(order, keys) && key !in keys
    ensures Once(order + [key], keys + {key})
  {
    var more := order + [key];
    assert forall i | 0 <= i < |order| :: more[i] == order[i] && order[i] in order;
  }

  /** What the oneshots hold when the entries in `order` were canceled one after the other. */
  ghost function AfterCancel(outcomes: map<Tx, Outcome>, pending: map<nat, Tx>, order: seq<nat>, gone: set<Tx>)
    : map<Tx, Outcome>
    requires forall key | key in order :: key in pending
  {
    if order == [] then outcomes
    else
      var n := |order| - 1;
      var tx := pending[order[n]];
      AfterCancel(outcomes, pending, order[..n], gone)[tx := Delivered(gone, tx, Canceled)]
  }

  lemma {:induction false} CanceledSnoc(
    outcomes: map<Tx, Outcome>, pending: map<nat, Tx>, order: seq<nat>, key: nat, gone: set<Tx>)
    requires key in pending && forall k | k in order :: k in pending
    ensures AfterCancel(outcomes, pending, order + [key], gone) ==
      AfterCancel(outcomes, pending, order, gone)[pending[key] := Delivered(gone, pending[key], Canceled)]
  {
    assert (order + [key])[..|order|] == order;
  }

  lemma {:induction false} CanceledIs(
    outcomes: map<Tx, Outcome>, pending: map<nat, Tx>, order: seq<nat>, gone: set<Tx>)
    requires forall key | key in order :: key in pending
    ensures var txs := set key | key in order :: pending[key];
            AfterCancel(outcomes, pending, order, gone) ==
            outcomes + map tx | tx in txs :: Delivered(gone, tx, Canceled)
  {
    if order != [] {
      var n := |order| - 1;
      CanceledIs(outcomes, pending, order[..n], gone);
      assert order == order[..n] + [order[n]];
    }
  }

  lemma {:induction false} AllCanceled(
    outcomes: map<Tx, Outcome>, pending: map<nat, Tx>, order: seq<nat>, gone: set<Tx>)
    requires Once(order, pending.Keys)
    ensures AfterCancel(outcomes, pending, order, gone) ==
      outcomes + map tx | tx in pending.Values :: Delivered(gone, tx, Canceled)
  {
    CanceledIs(outcomes, pending, order, gone);
    assert pending.Values == set key | key in order :: pending[key];
  }
}
