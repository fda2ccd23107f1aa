/** What a Connection must do, read off what it was given. Everything here is defined on the
    inputs alone; the lemmas say that the Connection is in the state the inputs call for. */
module ConnectionLaws {
  import opened Messages
  import opened Machines
  import opened Sequences
  import opened ConnectionCore

  // ----- what the inputs call for -----

  function EventIn(i: Input): seq<Payload> {
    if i.External? && i.message.CEvent? then [i.message.event] else []
  }

  /** A request of a caller, and its oneshot. */
  function RequestIn(i: Input): seq<(Payload, Tx)> {
    if i.External? && i.message.CRequest? then [(i.message.data, i.message.tx)] else []
  }

  function MessageIn(i: Input): seq<Message> {
    if i.Internal? && i.incoming.INew? then [i.incoming.message] else []
  }

  function RequestsIn(inputs: seq<Input>): seq<(Payload, Tx)> { FlatMap(RequestIn, inputs) }

  /** The id of the next request: how many there were, in 64 bits. */
  function NextId(inputs: seq<Input>): nat { |RequestsIn(inputs)| % 0x1_0000_0000_0000_0000 }

  /** An id is free, or a caller waits for the reply to it. */
  datatype IdState = Free | Awaited(tx: Tx)

  function IdAt(inputs: seq<Input>, id: nat): IdState {
    if inputs == [] then Free
    else
      var before, i := inputs[..|inputs| - 1], inputs[|inputs| - 1];
      var was := IdAt(before, id);
      match i
      case External(CRequest(_, tx)) => if was.Free? && NextId(before) == id then Awaited(tx) else was
      case Internal(INew(MReply(r)), _) => if r.id == id then Free else was
      case SenderClosed(_) => Free
      case _ => was
  }

  /** The messages for the peer: every event, and every request whose id was free. */
  function AcceptedIn(inputs: seq<Input>): seq<Message> {
    if inputs == [] then []
    else
      var before, i := inputs[..|inputs| - 1], inputs[|inputs| - 1];
      AcceptedIn(before) + AcceptedBy(before, i)
  }

  function AcceptedBy(before: seq<Input>, i: Input): seq<Message> {
    match i
    case External(CEvent(d)) => [MEvent(d)]
    case External(CRequest(d, _)) =>
      if IdAt(before, NextId(before)).Free? then [MRequest(Request(NextId(before), d))] else []
    case _ => []
  }

  /** The caller that owns a oneshot has not been seen, waits for a reply, or has an outcome. */
  datatype CallerState = Unseen | Waits(id: nat) | Has(outcome: Outcome)

  function CallerAt(inputs: seq<Input>, tx: Tx): CallerState {
    if inputs == [] then Unseen
    else
      var before, i := inputs[..|inputs| - 1], inputs[|inputs| - 1];
      var was := CallerAt(before, tx);
      match i
      case External(CRequest(_, t)) =>
        if t != tx then was
        else if IdAt(before, NextId(before)).Free? then Waits(NextId(before))
        else Has(Dropped)
      case Internal(INew(MReply(r)), gone) =>
        if was == Waits(r.id) then Has(if tx in gone then Unheard else Ok(r.data)) else was
      case SenderClosed(gone) => if was.Waits? then Has(if tx in gone then Unheard else Canceled) else was
      case _ => was
  }

  // ----- the Connection does it, for any number of requests -----

  ghost predicate IdsAgree(c: Conn, inputs: seq<Input>) {
    forall id: nat :: IdAgrees(c, inputs, id)
  }

  ghost predicate IdAgrees(c: Conn, inputs: seq<Input>, id: nat) {
    match IdAt(inputs, id)
    case Free => id !in c.replyMap
    case Awaited(tx) => id in c.replyMap && c.replyMap[id] == tx && CallerAt(inputs, tx) == Waits(id)
  }

  ghost predicate CallersAgree(c: Conn, inputs: seq<Input>) {
    forall tx: Tx :: CallerAgrees(c, inputs, tx)
  }

  ghost predicate CallerAgrees(c: Conn, inputs: seq<Input>, tx: Tx) {
    match CallerAt(inputs, tx)
    case Unseen => tx !in c.outcomes && FreshTx(c, tx)
    case Waits(id) => tx !in c.outcomes && !FreshTx(c, tx) && IdAt(inputs, id) == Awaited(tx)
    case Has(o) => tx in c.outcomes && c.outcomes[tx] == o && !FreshTx(c, tx)
  }

  ghost predicate RequestsAgree(c: Conn, inputs: seq<Input>) {
    && c.nextId == NextId(inputs)
    && |c.issued| == |RequestsIn(inputs)|
    && forall k | 0 <= k < |c.issued| :: (c.issued[k].data, c.issued[k].tx) == RequestsIn(inputs)[k]
  }

  ghost predicate Lawful(c: Conn, inputs: seq<Input>) {
    && RequestsAgree(c, inputs) && IdsAgree(c, inputs) && CallersAgree(c, inputs)
    && c.accepted == AcceptedIn(inputs)
    && c.taken == FlatMap(MessageIn, inputs)
  }

  lemma {:induction false} RequestsStep(c: Conn, before: seq<Input>, i: Input)
    requires RequestsAgree(c, before) && CanTake(c, i)
    ensures RequestsAgree(Next(c, i), before + [i])
  {
    FlatMapSnoc(RequestIn, before, i);
    if i.External? && i.message.CRequest? {
      IssuedGrows(c, i.message);
      Wraps(|c.issued|);
    } else {
      NoRequest(c, i);
      Nothing(RequestsIn(before));
    }
  }

  lemma Wraps(n: nat)
    ensures (n % 0x1_0000_0000_0000_0000 + 1) % 0x1_0000_0000_0000_0000 == (n + 1) % 0x1_0000_0000_0000_0000
  {}

  lemma NoRequest(c: Conn, i: Input)
    requires CanTake(c, i) && !(i.External? && i.message.CRequest?)
    ensures Next(c, i).nextId == c.nextId && Next(c, i).issued == c.issued
  {}

  /** The two maps of the Connection after a request. */
  lemma {:induction false} RequestStep(c: Conn, before: seq<Input>, data: Payload, tx: Tx)
    requires Lawful(c, before) && c.at.Selecting? && FreshTx(c, tx)
    ensures var d, inputs := SendRequest(c, data, tx), before + [External(CRequest(data, tx))];
            IdsAgree(d, inputs) && CallersAgree(d, inputs)
  {
    var i := External(CRequest(data, tx));
    var d, inputs := SendRequest(c, data, tx), before + [i];
    assert inputs[..|before|] == before && inputs[|before|] == i;
    assert CallerAgrees(c, before, tx);
    assert IdAgrees(c, before, c.nextId);
    forall t: Tx
      ensures FreshTx(d, t) <==> FreshTx(c, t) && t != tx
    {
      IssuedGrows(c, i.message);
      assert d.issued[|c.issued|].tx == tx && forall k | 0 <= k < |c.issued| :: d.issued[k] == c.issued[k];
    }
    forall id: nat
      ensures IdAgrees(d, inputs, id)
    {
      assert IdAgrees(c, before, id);
    }
    forall t: Tx
      ensures CallerAgrees(d, inputs, t)
    {
      assert CallerAgrees(c, before, t);
    }
  }

  lemma {:induction false} MessageStep(c: Conn, before: seq<Input>, m: Message, gone: set<Tx>)
    requires Lawful(c, before) && c.at.Selecting?
    ensures var i := Internal(INew(m), gone);
            IdsAgree(Next(c, i), before + [i]) && CallersAgree(Next(c, i), before + [i])
  {
    var i := Internal(INew(m), gone);
    var d, inputs := Next(c, i), before + [i];
    assert inputs[..|before|] == before && inputs[|before|] == i;
    NoRequest(c, i);
    assert forall t :: FreshTx(d, t) <==> FreshTx(c, t);
    forall id: nat
      ensures IdAgrees(d, inputs, id)
    {
      assert IdAgrees(c, before, id);
      assert m.MReply? ==> IdAgrees(c, before, m.reply.id);
    }
    forall t: Tx
      ensures CallerAgrees(d, inputs, t)
    {
      assert CallerAgrees(c, before, t);
      assert m.MReply? ==> IdAgrees(c, before, m.reply.id);
    }
  }

  lemma {:induction false} CancelStep(c: Conn, before: seq<Input>, gone: set<Tx>)
    requires Lawful(c, before) && c.at.ClosingSender?
    ensures var i := SenderClosed(gone);
            IdsAgree(Next(c, i), before + [i]) && CallersAgree(Next(c, i), before + [i])
  {
    var i := SenderClosed(gone);
    var d, inputs := Next(c, i), before + [i];
    assert inputs[..|before|] == before && inputs[|before|] == i;
    assert forall t :: FreshTx(d, t) <==> FreshTx(c, t);
    assert forall id: nat :: IdAgrees(d, inputs, id);
    forall t: Tx
      ensures CallerAgrees(d, inputs, t)
    {
      assert CallerAgrees(c, before, t);
      match CallerAt(before, t)
      case Waits(id) =>
        assert IdAgrees(c, before, id);
        assert c.replyMap[id] in c.replyMap.Values;
      case _ =>
        forall id | id in c.replyMap
          ensures c.replyMap[id] != t
        {
          assert IdAgrees(c, before, id);
        }
    }
  }

  lemma {:induction false} QuietStep(c: Conn, before: seq<Input>, i: Input)
    requires Lawful(c, before) && CanTake(c, i) && Quiet(i)
    ensures IdsAgree(Next(c, i), before + [i]) && CallersAgree(Next(c, i), before + [i])
  {
    var d, inputs := Next(c, i), before + [i];
    assert inputs[..|before|] == before && inputs[|before|] == i;
    QuietFrame(c, i);
    assert forall t :: FreshTx(d, t) <==> FreshTx(c, t);
    forall id: nat
      ensures IdAgrees(d, inputs, id)
    {
      assert IdAgrees(c, before, id);
    }
    forall t: Tx
      ensures CallerAgrees(d, inputs, t)
    {
      assert CallerAgrees(c, before, t);
    }
  }

  lemma Accepts(c: Conn, before: seq<Input>, i: Input)
    requires c.nextId == NextId(before) && IdAgrees(c, before, c.nextId) && CanTake(c, i)
    ensures Next(c, i).accepted == c.accepted + AcceptedBy(before, i)
    ensures Next(c, i).taken == c.taken + MessageIn(i)
  {
    Nothing(c.accepted);
    Nothing(c.taken);
  }

  lemma {:induction false} AcceptedStep(c: Conn, before: seq<Input>, i: Input)
    requires Lawful(c, before) && CanTake(c, i)
    ensures Next(c, i).accepted == AcceptedIn(before + [i])
    ensures Next(c, i).taken == FlatMap(MessageIn, before + [i])
  {
    assert (before + [i])[..|before|] == before;
    FlatMapSnoc(MessageIn, before, i);
    assert IdAgrees(c, before, c.nextId);
    Accepts(c, before, i);
  }

  lemma {:induction false} LawfulStep(c: Conn, before: seq<Input>, i: Input)
    requires Lawful(c, before) && CanTake(c, i)
    ensures Lawful(Next(c, i), before + [i])
  {
    RequestsStep(c, before, i);
    AcceptedStep(c, before, i);
    if Quiet(i) {
      QuietStep(c, before, i);
    } else if i.External? {
      RequestStep(c, before, i.message.data, i.message.tx);
    } else if i.Internal? {
      MessageStep(c, before, i.incoming.message, i.gone);
    } else {
      CancelStep(c, before, i.gone);
    }
  }

  /** After any inputs, and for any number of requests: which ids are awaited by whom, what
      each oneshot holds, and what was accepted for the peer is what the inputs call for. */
  lemma {:induction false} ConnectionIsLawful(inputs: seq<Input>)
    requires Exec(INIT, inputs).Some?
    ensures Lawful(Exec(INIT, inputs).value, inputs)
  {
    if inputs == [] {
      assert forall id: nat :: IdAgrees(INIT, [], id);
      assert forall tx: Tx :: CallerAgrees(INIT, [], tx);
    } else {
      var n := |inputs| - 1;
      LastApart(inputs);
      ConnectionIsLawful(inputs[..n]);
      LawfulStep(Exec(INIT, inputs[..n]).value, inputs[..n], inputs[n]);
    }
  }

  // ----- events -----

  function EventOf(m: Message): seq<Payload> {
    if m.MEvent? then [m.event] else []
  }

  /** The events accepted for the peer are those of the callers, each once and in order. */
  lemma {:induction false} EventsAreAccepted(inputs: seq<Input>)
    requires Exec(INIT, inputs).Some?
    ensures FlatMap(EventOf, Exec(INIT, inputs).value.accepted) == FlatMap(EventIn, inputs)
  {
    ConnectionIsLawful(inputs);
    EventsOfAccepted(inputs);
  }

  lemma {:induction false} EventsOfAccepted(inputs: seq<Input>)
    ensures FlatMap(EventOf, AcceptedIn(inputs)) == FlatMap(EventIn, inputs)
  {
    if inputs != [] {
      var n := |inputs| - 1;
      EventsOfAccepted(inputs[..n]);
      FlatMapConcat(EventOf, AcceptedIn(inputs[..n]), AcceptedBy(inputs[..n], inputs[n]));
      EventOfAccepted(inputs[..n], inputs[n]);
    }
  }

  lemma {:induction false} EventOfAccepted(before: seq<Input>, i: Input)
    ensures FlatMap(EventOf, AcceptedBy(before, i)) == EventIn(i)
  {
    if AcceptedBy(before, i) != [] {
      FlatMapOne(EventOf, AcceptedBy(before, i)[0]);
    }
  }

  // ----- up to 2^64 requests -----

  lemma {:induction false} AwaitedIsEarlier(inputs: seq<Input>, id: nat)
    requires |RequestsIn(inputs)| <= 0x1_0000_0000_0000_0000 && IdAt(inputs, id).Awaited?
    ensures id < |RequestsIn(inputs)|
  {
    var n := |inputs| - 1;
    assert |RequestsIn(inputs)| == |RequestsIn(inputs[..n])| + |RequestIn(inputs[n])|;
    if IdAt(inputs[..n], id).Awaited? {
      AwaitedIsEarlier(inputs[..n], id);
    }
  }

  /** Every request gets its own number as its id, and is accepted. */
  lemma {:induction false} IdsAreNumbers(inputs: seq<Input>)
    requires Exec(INIT, inputs).Some? && |RequestsIn(inputs)| <= 0x1_0000_0000_0000_0000
    ensures var rs := FlatMap(AsRequest, Exec(INIT, inputs).value.accepted);
            && |rs| == |RequestsIn(inputs)|
            && forall k | 0 <= k < |rs| :: rs[k] == Request(k, RequestsIn(inputs)[k].0)
  {
    ConnectionIsLawful(inputs);
    NumbersOfAccepted(inputs);
  }

  lemma {:induction false} NumbersOfAccepted(inputs: seq<Input>)
    requires |RequestsIn(inputs)| <= 0x1_0000_0000_0000_0000
    ensures var rs := FlatMap(AsRequest, AcceptedIn(inputs));
            && |rs| == |RequestsIn(inputs)|
            && forall k | 0 <= k < |rs| :: rs[k] == Request(k, RequestsIn(inputs)[k].0)
  {
    if inputs != [] {
      var n := |inputs| - 1;
      assert RequestsIn(inputs) == RequestsIn(inputs[..n]) + RequestIn(inputs[n]);
      NumbersOfAccepted(inputs[..n]);
      FlatMapConcat(AsRequest, AcceptedIn(inputs[..n]), AcceptedBy(inputs[..n], inputs[n]));
      NumberOfAccepted(inputs[..n], inputs[n]);
    }
  }

  lemma {:induction false} NumberOfAccepted(before: seq<Input>, i: Input)
    requires |RequestsIn(before)| + |RequestIn(i)| <= 0x1_0000_0000_0000_0000
    ensures FlatMap(AsRequest, AcceptedBy(before, i)) ==
      if RequestIn(i) == [] then [] else [Request(|RequestsIn(before)|, RequestIn(i)[0].0)]
  {
    if i.External? && i.message.CRequest? {
      SmallNumber(|RequestsIn(before)|);
      if IdAt(before, NextId(before)).Awaited? {
        AwaitedIsEarlier(before, NextId(before));
        assert false;
      }
      FlatMapOne(AsRequest, AcceptedBy(before, i)[0]);
    } else if i.External? && i.message.CEvent? {
      FlatMapOne(AsRequest, AcceptedBy(before, i)[0]);
    }
  }

  lemma SmallNumber(n: nat)
    requires n < 0x1_0000_0000_0000_0000
    ensures n % 0x1_0000_0000_0000_0000 == n
  {}

  /** No oneshot is dropped for want of an id. */
  lemma {:induction false} NoneIsDropped(inputs: seq<Input>, tx: Tx)
    requires Exec(INIT, inputs).Some? && |RequestsIn(inputs)| <= 0x1_0000_0000_0000_0000
    requires tx in Exec(INIT, inputs).value.outcomes
    ensures Exec(INIT, inputs).value.outcomes[tx] != Dropped
  {
    ConnectionIsLawful(inputs);
    assert CallerAgrees(Exec(INIT, inputs).value, inputs, tx);
    CallerNotDropped(inputs, tx);
  }

  lemma {:induction false} CallerNotDropped(inputs: seq<Input>, tx: Tx)
    requires |RequestsIn(inputs)| <= 0x1_0000_0000_0000_0000
    ensures CallerAt(inputs, tx) != Has(Dropped)
  {
    if inputs != [] {
      var n := |inputs| - 1;
      assert |RequestsIn(inputs)| == |RequestsIn(inputs[..n])| + |RequestIn(inputs[n])|;
      CallerNotDropped(inputs[..n], tx);
      if inputs[n].External? && inputs[n].message.CRequest? {
        SmallNumber(|RequestsIn(inputs[..n])|);
        if IdAt(inputs[..n], NextId(inputs[..n])).Awaited? {
          AwaitedIsEarlier(inputs[..n], NextId(inputs[..n]));
        }
      }
    }
  }

  // ----- what the Connection is doing -----

  /** The inputs that end the `select!` loop: a Close from either side, and a failed send. */
  predicate EndsLoop(i: Input) {
    match i
    case External(m) => m.CClose?
    case Internal(m, _) => m.IClose?
    case Sent(ok) => !ok
    case Offered(ok) => !ok
    case _ => false
  }

  ghost predicate LoopEnded(inputs: seq<Input>) {
    exists i :: i in inputs && EndsLoop(i)
  }

  ghost predicate SenderIsClosed(inputs: seq<Input>) {
    exists gone :: SenderClosed(gone) in inputs
  }

  /** What the last input makes the Connection hand to the Sender, and to the user. */
  function ForSender(inputs: seq<Input>): seq<Message> {
    if inputs == [] then [] else AcceptedBy(inputs[..|inputs| - 1], inputs[|inputs| - 1])
  }

  function ForUser(inputs: seq<Input>): seq<ConnectionEvent> {
    if inputs == [] then [] else FlatMap(AsEvent, MessageIn(inputs[|inputs| - 1]))
  }

  /** The loop goes on until an input ends it. Inside, the Connection is handing over what
      its last input called for, if anything; outside, it closes the Receiver, then the
      Sender, then offers the Close event, then returns. */
  ghost predicate Doing(at: Await, inputs: seq<Input>) {
    && (at.Running() <==> !LoopEnded(inputs))
    && at.OutHand() == ForSender(inputs) && at.UserHand() == ForUser(inputs)
    && (at.ClosingReceiver? <==> LoopEnded(inputs) && ReceiverClosed !in inputs)
    && (at.ClosingSender? <==> ReceiverClosed in inputs && !SenderIsClosed(inputs))
    && (at.OfferingClose? <==> SenderIsClosed(inputs) && CloseOffered !in inputs)
    && (at.Returned? <==> CloseOffered in inputs)
  }

  lemma ExternalHands(c: Conn, before: seq<Input>, m: ConnectionMessage)
    requires c.nextId == NextId(before) && IdAgrees(c, before, c.nextId) && CanTake(c, External(m))
    ensures Next(c, External(m)).at.OutHand() == AcceptedBy(before, External(m))
    ensures Next(c, External(m)).at.UserHand() == []
  {}

  lemma OtherHands(c: Conn, i: Input)
    requires CanTake(c, i) && !i.External?
    ensures Next(c, i).at.OutHand() == []
    ensures Next(c, i).at.UserHand() == if MessageIn(i) == [] then [] else AsEvent(MessageIn(i)[0])
  {}

  lemma {:induction false} HandsStep(c: Conn, before: seq<Input>, i: Input)
    requires Lawful(c, before) && CanTake(c, i)
    ensures Next(c, i).at.OutHand() == AcceptedBy(before, i)
    ensures Next(c, i).at.UserHand() == FlatMap(AsEvent, MessageIn(i))
  {
    if i.External? {
      assert IdAgrees(c, before, c.nextId);
      ExternalHands(c, before, i.message);
    } else {
      OtherHands(c, i);
      if MessageIn(i) != [] {
        FlatMapOne(AsEvent, MessageIn(i)[0]);
      }
    }
  }

  lemma {:induction false} SnocFacts(before: seq<Input>, i: Input)
    ensures var inputs := before + [i];
            && (LoopEnded(inputs) <==> LoopEnded(before) || EndsLoop(i))
            && (SenderIsClosed(inputs) <==> SenderIsClosed(before) || i.SenderClosed?)
            && (forall j :: j in inputs <==> j in before || j == i)
  {
    var inputs := before + [i];
    assert i in inputs && forall j :: j in before ==> j in inputs;
  }

  lemma PhaseStep(c: Conn, i: Input)
    requires CanTake(c, i)
    ensures var at := Next(c, i).at;
            && (at.Running() <==> c.at.Running() && !EndsLoop(i))
            && (at.ClosingReceiver? <==> c.at.Running() && EndsLoop(i))
            && (at.ClosingSender? <==> i.ReceiverClosed?) && (at.OfferingClose? <==> i.SenderClosed?)
            && (at.Returned? <==> i.CloseOffered?)
    ensures !c.at.Returned? && (i.ReceiverClosed? <==> c.at.ClosingReceiver?)
    ensures (i.SenderClosed? <==> c.at.ClosingSender?) && (i.CloseOffered? <==> c.at.OfferingClose?)
  {}

  lemma {:induction false} DoingStep(c: Conn, before: seq<Input>, i: Input)
    requires Lawful(c, before) && Doing(c.at, before) && CanTake(c, i)
    ensures Doing(Next(c, i).at, before + [i])
  {
    HandsStep(c, before, i);
    PhaseStep(c, i);
    DoingGoesOn(c.at, Next(c, i).at, before, i);
  }

  /** The phases of the Connection, and the inputs. */
  lemma {:induction false} DoingGoesOn(at: Await, at': Await, before: seq<Input>, i: Input)
    requires Doing(at, before) && !at.Returned?
    requires at'.OutHand() == AcceptedBy(before, i) && at'.UserHand() == FlatMap(AsEvent, MessageIn(i))
    requires at'.Running() <==> at.Running() && !EndsLoop(i)
    requires at'.ClosingReceiver? <==> at.Running() && EndsLoop(i)
    requires (at'.ClosingSender? <==> i.ReceiverClosed?) && (at'.OfferingClose? <==> i.SenderClosed?)
    requires at'.Returned? <==> i.CloseOffered?
    requires (i.ReceiverClosed? <==> at.ClosingReceiver?) && (i.SenderClosed? <==> at.ClosingSender?)
    requires i.CloseOffered? <==> at.OfferingClose?
    ensures Doing(at', before + [i])
  {
    var inputs := before + [i];
    assert inputs[..|before|] == before && inputs[|before|] == i;
    SnocFacts(before, i);
  }

  lemma {:induction false} ConnectionDoes(inputs: seq<Input>)
    requires Exec(INIT, inputs).Some?
    ensures Doing(Exec(INIT, inputs).value.at, inputs)
  {
    if inputs != [] {
      var n := |inputs| - 1;
      LastApart(inputs);
      ConnectionIsLawful(inputs[..n]);
      ConnectionDoes(inputs[..n]);
      DoingStep(Exec(INIT, inputs[..n]).value, inputs[..n], inputs[n]);
    }
  }
}
