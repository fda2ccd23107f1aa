/** When an endpoint can get stuck. The steps that finish what has been begun always come
    to an end, and some such step is possible in every state but the ones in which the
    Sender waits for the Connection while the Connection waits for the Sender. */
module EndpointProgress {
  import opened Messages
  import opened Machines
  import opened Sequences
  import opened ConnectionCore
  import opened SenderCore
  import opened EndpointSpec
  import opened EndpointInvariants
  import Runs = EndpointRuns

  /** The steps that finish a send, empty a channel or run an actor on; they bring in
      nothing new, and the sink may fail, but not so as to end the connection. */
  predicate Finishes(l: Label) {
    match l
    case Caller(l) => l.Enqueue? || l.CallFails?
    case Using(l) => l.Recv? || l.FinishComplete?
    case Connecting(_) => true
    case Sending(l) => !(l.SenderFail? && l.closing)
    case Receiving(l) => !l.RecvFrame? && !l.RecvEnd?
  }

  /** Nothing is under way. */
  predicate AtRest(e: Endpoint) {
    && e.calls.blocked == {} && e.ext == [] && e.inq == []
    && (e.conn.at.Selecting? || e.conn.at.Returned?)
    && (e.sender.at.SWaiting? || e.sender.at.SExited?) && e.sender.queue == []
    && (e.receiver.at.RListening? || e.receiver.at.RExited?) && e.receiver.queue == []
    && e.user.at.Idle? && e.user.events == []
  }

  /** The Sender waits to tell the Connection of a closed websocket, and has to wait for the
      Connection to take the message in front of it. */
  predicate Held(e: Endpoint) {
    e.sender.at.SReporting? && !Room(e.inq)
  }

  /** The user is in `complete` and will drain no event before it is done. */
  predicate UserBusy(e: Endpoint) {
    e.user.open && !e.user.Accepts() && e.user.at.Completing?
  }

  /** The states from which what is under way can not be finished: the Connection will never
      again take from its internal channel, because it waits for room in the held Sender's
      channel, or will have to, itself or through its user. */
  predicate Doomed(e: Endpoint) {
    var at := e.conn.at;
    && Held(e)
    && (|| (!Room(e.sender.queue) && (at.SendingMessage? || at.ClosingReceiver? || at.ClosingSender?
                                      || (at.OfferingEvent? && !e.user.open)))
        || (UserBusy(e) && (at.ClosingReceiver? || at.ClosingSender?
                            || (!Room(e.sender.queue) && (at.OfferingEvent? || at.OfferingClose?)))))
  }

  /** The plainest of them: Connection and Sender wait for each other. */
  predicate Jammed(e: Endpoint) {
    Held(e) && !Room(e.sender.queue) && (e.conn.at.SendingMessage? || e.conn.at.ClosingSender?)
  }

  // ----- some step is possible -----

  lemma {:induction false} QueuedIsFresh(e: Endpoint)
    requires Ownership(e.calls, e.ext, e.conn.issued) && e.ext != [] && e.ext[0].CRequest?
    ensures FreshTx(e.conn, e.ext[0].tx)
  {
    var tx := e.ext[0].tx;
    assert e.ext[0] in e.ext;
    assert IsAt(e.calls, e.ext, e.conn.issued, tx, InQueue);
    assert !IsAt(e.calls, e.ext, e.conn.issued, tx, WithConnection);
  }

  /** What the Connection can do when it is neither idle nor stuck. */
  lemma {:induction false} ConnMoves(e: Endpoint) returns (l: ConnLabel)
    requires EndpointInv(e) && !e.conn.at.Returned?
    requires e.conn.at.Selecting? ==> e.ext != [] || e.inq != []
    requires e.conn.at.SendingMessage? || e.conn.at.ClosingSender? ==> e.sender.Accepts()
    requires e.conn.at.OfferingEvent? || e.conn.at.OfferingClose? ==> !e.user.open || e.user.Accepts()
    ensures ConnCan(e, l) && (e.conn.at.Selecting? && e.inq != [] ==> l == TakeInternal)
  {
    match e.conn.at
    case Selecting =>
      if e.inq != [] {
        l := TakeInternal;
      } else {
        if e.ext[0].CRequest? {
          QueuedIsFresh(e);
        }
        l := TakeExternal;
      }
    case SendingMessage(_) => l := SendMessage;
    case OfferingEvent(_) => l := OfferEvent;
    case ClosingReceiver => l := CloseReceiver;
    case ClosingSender => l := CloseSender;
    case OfferingClose => l := OfferClose;
  }

  lemma {:induction false} SomeCallerMoves(e: Endpoint) returns (l: CallerLabel)
    requires EndpointInv(e) && e.calls.blocked != {} && (e.ext == [] || e.conn.at.Returned?)
    ensures CallerCan(e, l) && Finishes(Caller(l))
  {
    var tx :| tx in e.calls.blocked;
    assert IsAt(e.calls, e.ext, e.conn.issued, tx, WithCaller);
    assert Placed(e.calls, e.ext, e.conn.issued, tx);
    l := if e.conn.at.Returned? then CallFails(tx) else Enqueue(tx);
  }

  lemma {:induction false} HeldConnMoves(e: Endpoint, l: ConnLabel)
    requires Lifetimes(e) && Held(e) && !Doomed(e) && ConnCan(e, l) && l != TakeExternal
    ensures !Doomed(ConnDoes(e, l))
  {}

  /** What can be done while the Sender is held, without being doomed by it. */
  lemma {:induction false} SomethingMovesHeld(e: Endpoint) returns (l: Label)
    requires EndpointInv(e) && e.user.capacity > 0 && Held(e) && !Doomed(e) && !e.conn.at.Returned?
    ensures Finishes(l) && Enabled(e, l) && !Doomed(Apply(e, l))
  {
    var at := e.conn.at;
    if (at.OfferingEvent? || at.OfferingClose?) && e.user.open && !e.user.Accepts() {
      l := Using(if e.user.at.Idle? then Recv else FinishComplete);
    } else {
      var c := ConnMoves(e);
      HeldConnMoves(e, c);
      l := Connecting(c);
    }
  }

  /** What can be done otherwise. */
  lemma {:induction false} SomethingMovesFree(e: Endpoint) returns (l: Label)
    requires EndpointInv(e) && e.user.capacity > 0 && !AtRest(e) && !Held(e)
    ensures Finishes(l) && Enabled(e, l) && !Held(Apply(e, l))
  {
    var s := e.sender;
    if s.at.SReporting? {
      l := Sending(SenderReport);
    } else {
      if s.at.SWriting? {
        l := Sending(SenderWrite);
      } else if s.at.SClosing? {
        l := Sending(SenderExit);
      } else if s.at.SWaiting? && s.queue != [] {
        l := Sending(SenderTake);
      } else {
        l := SomethingMovesBehind(e);
      }
      OpenSinkStep(e, l);
    }
  }

  /** The same when the Sender has nothing to do. */
  lemma {:induction false} SomethingMovesBehind(e: Endpoint) returns (l: Label)
    requires EndpointInv(e) && e.user.capacity > 0 && !AtRest(e)
    requires e.sender.queue == [] && (e.sender.at.SWaiting? || e.sender.at.SExited?)
    ensures Finishes(l) && Enabled(e, l)
  {
    var r := e.receiver;
    if e.user.open && e.user.at.Idle? && e.user.events != [] {
      l := Using(Recv);
    } else if e.user.at.Completing? {
      l := Using(FinishComplete);
    } else if r.at.RListening? && r.queue != [] {
      l := Receiving(TakeClose);
    } else if e.conn.at.Returned? || (e.conn.at.Selecting? && e.ext == [] && e.inq == []) {
      if r.at.RForwarding? {
        l := Receiving(Forward);
      } else if r.at.RReporting? {
        l := Receiving(ReceiverReport);
      } else {
        var c := SomeCallerMoves(e);
        l := Caller(c);
      }
    } else {
      var c := ConnMoves(e);
      l := Connecting(c);
    }
  }

  lemma {:induction false} SomethingMoves(e: Endpoint) returns (l: Label)
    requires EndpointInv(e) && e.user.capacity > 0 && !AtRest(e) && !Doomed(e)
    ensures Finishes(l) && Enabled(e, l) && !Doomed(Apply(e, l))
  {
    if Held(e) && e.conn.at.Returned? {
      l := Sending(SenderReport);
    } else if Held(e) {
      l := SomethingMovesHeld(e);
    } else {
      l := SomethingMovesFree(e);
    }
  }

  // ----- and every way of finishing comes to an end -----

  function AtWeight(at: Await): nat {
    match at
    case Selecting => 31
    case SendingMessage(_) => 39
    case OfferingEvent(_) => 34
    case ClosingReceiver => 30
    case ClosingSender => 25
    case OfferingClose => 12
    case Returned => 0
  }

  function SenderWeight(at: SenderAt): nat {
    match at
    case SWriting(_) => 3
    case SReporting => 6
    case SClosing => 2
    case _ => 0
  }

  function ReceiverWeight(at: ReceiverAt): nat {
    match at
    case RForwarding(_) => 7
    case RReporting => 6
    case _ => 0
  }

  function UserWeight(at: UserAt): nat { if at.Completing? then 8 else 0 }

  /** A bound on the steps it takes to finish what is under way. */
  function Work(e: Endpoint): nat {
    12 * |e.calls.blocked| + 10 * |e.ext| + 5 * |e.inq| + AtWeight(e.conn.at)
    + 6 * |e.sender.queue| + SenderWeight(e.sender.at)
    + 2 * |e.receiver.queue| + ReceiverWeight(e.receiver.at)
    + |e.user.events| + UserWeight(e.user.at)
  }

  lemma CallerWorks(e: Endpoint, l: CallerLabel)
    requires CallerCan(e, l) && Finishes(Caller(l))
    ensures Work(CallerDoes(e, l)) < Work(e)
  {}

  lemma UserWorks(e: Endpoint, l: UserLabel)
    requires UserCan(e, l) && Finishes(Using(l))
    ensures Work(UserDoes(e, l)) < Work(e)
  {}

  lemma ConnWorks(e: Endpoint, l: ConnLabel)
    requires ConnCan(e, l)
    ensures Work(ConnDoes(e, l)) < Work(e)
  {}

  lemma SenderWorks(e: Endpoint, l: SenderLabel)
    requires SenderCan(e, l) && Finishes(Sending(l))
    ensures Work(SenderDoes(e, l)) < Work(e)
  {}

  lemma ReceiverWorks(e: Endpoint, l: ReceiverLabel)
    requires ReceiverCan(e, l) && Finishes(Receiving(l))
    ensures Work(ReceiverDoes(e, l)) < Work(e)
  {}

  /** Finishing steps use up the work there is, whichever are chosen. */
  lemma {:induction false} FinishingWorks(e: Endpoint, l: Label)
    requires Enabled(e, l) && Finishes(l)
    ensures Work(Apply(e, l)) < Work(e)
  {
    match l
    case Caller(l) => CallerWorks(e, l);
    case Using(l) => UserWorks(e, l);
    case Connecting(l) => ConnWorks(e, l);
    case Sending(l) => SenderWorks(e, l);
    case Receiving(l) => ReceiverWorks(e, l);
  }

  predicate AllFinish(labels: seq<Label>) {
    forall l | l in labels :: Finishes(l)
  }

  /** The requests the Connection may still get to see leave enough ids. */
  predicate IdsRemain(e: Endpoint) {
    |e.conn.issued| + |e.ext| + |e.calls.blocked| <= USIZE
  }

  lemma {:induction false} FinishingKeepsIds(e: Endpoint, l: Label)
    requires Enabled(e, l) && Finishes(l) && IdsRemain(e)
    ensures IdsRemain(Apply(e, l)) && |Apply(e, l).conn.issued| <= USIZE
  {
    if l.Connecting? {
      if l.conn.TakeExternal? {
        IssuedGrows(e.conn, e.ext[0]);
      } else {
        IssuedStays(e, l.conn);
      }
    }
  }

  ghost predicate Sound(e: Endpoint) {
    EndpointInv(e) && e.user.capacity > 0 && IdsRemain(e)
  }

  lemma {:induction false} FinishingStep(e: Endpoint, l: Label)
    requires Sound(e) && Enabled(e, l) && Finishes(l)
    ensures Sound(Apply(e, l)) && Work(Apply(e, l)) < Work(e)
    ensures !e.sender.at.SReporting? ==> !Apply(e, l).sender.at.SReporting?
  {
    FinishingWorks(e, l);
    FinishingKeepsIds(e, l);
    EndpointStep(e, l);
    CapacityStays(e, l);
  }

  /** Finishing never takes more steps than there is work. */
  lemma {:induction false} FinishingEnds(e: Endpoint, labels: seq<Label>, d: Endpoint)
    requires Sound(e) && AllFinish(labels) && Run(e, labels) == Some(d)
    ensures Sound(d) && |labels| + Work(d) <= Work(e)
    ensures !e.sender.at.SReporting? ==> !d.sender.at.SReporting?
  {
    if labels != [] {
      var n := |labels| - 1;
      var c := Run(e, labels[..n]).value;
      FinishingEnds(e, labels[..n], c);
      FinishingStep(c, labels[n]);
    }
  }

  /** A way of finishing that cannot be continued has finished everything; unless a websocket
      was closed under the Sender and the rest is doomed. */
  lemma {:induction false} FinishedOrDoomed(
    capacity: nat, past: seq<Label>, e: Endpoint, labels: seq<Label>, d: Endpoint)
    requires ReachedWithIds(capacity, past, e) && AllFinish(labels) && Run(e, labels) == Some(d)
    requires forall l | Finishes(l) :: !Enabled(d, l)
    ensures AtRest(d) || (Doomed(d) && e.sender.at.SReporting?)
  {
    ReachedIsSound(capacity, past, e);
    FinishingEnds(e, labels, d);
    if !AtRest(d) && !Doomed(d) {
      var l := SomethingMoves(d);
      assert false;
    }
  }

  /** A sink error of the class that ends the connection. */
  predicate ClosesSink(l: Label) {
    l.Sending? && l.sender.SenderFail? && l.sender.closing
  }

  ghost predicate SinkStaysOpen(labels: seq<Label>) {
    forall l | l in labels :: !ClosesSink(l)
  }

  /** Without such an error there is no doom, whatever else happens. */
  lemma {:induction false} OpenSinkIsNeverDoomed(capacity: nat, past: seq<Label>, e: Endpoint)
    requires Run(Fresh(capacity), past) == Some(e) && SinkStaysOpen(past)
    ensures !e.sender.at.SReporting? && !Doomed(e)
  {
    if past != [] {
      var n := |past| - 1;
      var d := Run(Fresh(capacity), past[..n]).value;
      OpenSinkIsNeverDoomed(capacity, past[..n], d);
      OpenSinkStep(d, past[n]);
    }
  }

  lemma OpenSinkStep(e: Endpoint, l: Label)
    requires Enabled(e, l) && !ClosesSink(l) && !e.sender.at.SReporting?
    ensures !Apply(e, l).sender.at.SReporting?
  {}

  /** The condition under which an endpoint is free of deadlock: the sink gave no error that
      ends the connection. Then finishing steps can be taken until everything is at rest and
      no longer, they are bounded in number, and it does not matter which are taken; during
      shutdown, too. */
  lemma {:induction false} OpenSinkDrains(
    capacity: nat, past: seq<Label>, e: Endpoint, labels: seq<Label>, d: Endpoint)
    requires ReachedWithIds(capacity, past, e) && SinkStaysOpen(past)
    requires AllFinish(labels) && Run(e, labels) == Some(d)
    ensures |labels| + Work(d) <= Work(e)
    ensures (forall l | Finishes(l) :: !Enabled(d, l)) <==> AtRest(d)
  {
    OpenSinkIsNeverDoomed(capacity, past, e);
    ReachedIsSound(capacity, past, e);
    FinishingEnds(e, labels, d);
    if AtRest(d) {
      forall l | Finishes(l)
        ensures !Enabled(d, l)
      {
        NothingMovesAtRest(d, l);
      }
    } else {
      var l := SomethingMoves(d);
    }
  }

  lemma CapacityStays(e: Endpoint, l: Label)
    requires Enabled(e, l)
    ensures Apply(e, l).user.capacity == e.user.capacity
    ensures Finishes(l) && !e.sender.at.SReporting? ==> !Apply(e, l).sender.at.SReporting?
  {}

  lemma {:induction false} NothingMovesAtRest(e: Endpoint, l: Label)
    requires AtRest(e) && Finishes(l)
    ensures !Enabled(e, l)
  {}

  lemma {:induction false} RestIsReached(e: Endpoint) returns (labels: seq<Label>)
    requires Sound(e) && !Doomed(e)
    ensures AllFinish(labels) && Run(e, labels).Some? && AtRest(Run(e, labels).value)
    decreases Work(e)
  {
    if AtRest(e) {
      labels := [];
    } else {
      var l := SomethingMoves(e);
      FinishingStep(e, l);
      var rest := RestIsReached(Apply(e, l));
      FinishingCons(e, l, rest);
      labels := [l] + rest;
    }
  }

  lemma {:induction false} FinishingCons(e: Endpoint, l: Label, rest: seq<Label>)
    requires Enabled(e, l) && Finishes(l) && FinishableBy(Apply(e, l), rest)
    ensures FinishableBy(e, [l] + rest)
  {
    AfterCons(TryApply, e, l, rest);
  }

  lemma ConnDoomed(e: Endpoint, l: ConnLabel)
    requires Lifetimes(e) && Doomed(e) && ConnCan(e, l)
    ensures Doomed(ConnDoes(e, l))
  {}

  lemma UserDoomed(e: Endpoint, l: UserLabel)
    requires Lifetimes(e) && Doomed(e) && UserCan(e, l) && !l.DropEvents?
    ensures Doomed(UserDoes(e, l))
  {}

  lemma ReceiverDoomed(e: Endpoint, l: ReceiverLabel)
    requires Doomed(e) && ReceiverCan(e, l)
    ensures Doomed(ReceiverDoes(e, l))
  {}

  lemma {:induction false} DoomStep(e: Endpoint, l: Label)
    requires Lifetimes(e) && Doomed(e) && Enabled(e, l) && l != Using(DropEvents)
    ensures Doomed(Apply(e, l))
  {
    StepFrame(e, l);
    match l
    case Caller(_) =>
    case Using(l) => UserDoomed(e, l);
    case Connecting(l) => ConnDoomed(e, l);
    case Sending(_) =>
    case Receiving(l) => ReceiverDoomed(e, l);
  }

  /** Whatever callers, peer and actors do, and whatever the user does but drop its events, a
      doomed endpoint stays doomed. */
  lemma {:induction false} DoomStays(e: Endpoint, labels: seq<Label>)
    requires Lifetimes(e) && SenderInv(e.sender) && Doomed(e)
    requires Run(e, labels).Some? && Using(DropEvents) !in labels
    ensures var d := Run(e, labels).value; Lifetimes(d) && SenderInv(d.sender) && Doomed(d)
  {
    if labels != [] {
      var n := |labels| - 1;
      var d := Run(e, labels[..n]).value;
      DoomStays(e, labels[..n]);
      LifetimesStep(d, labels[n]);
      SenderStep(d, labels[n]);
      DoomStep(d, labels[n]);
    }
  }

  ghost predicate FinishableBy(e: Endpoint, labels: seq<Label>) {
    AllFinish(labels) && Run(e, labels).Some? && AtRest(Run(e, labels).value)
  }

  lemma {:induction false} ReachedCapacity(capacity: nat, labels: seq<Label>, e: Endpoint)
    requires Run(Fresh(capacity), labels) == Some(e)
    ensures e.user.capacity == capacity
  {
    if labels != [] {
      var n := |labels| - 1;
      var d := Run(Fresh(capacity), labels[..n]).value;
      ReachedCapacity(capacity, labels[..n], d);
      CapacityStays(d, labels[n]);
    }
  }

  /** `e` is reached by an endpoint whose user can be told something and that has ids left
      for the requests under way. */
  ghost predicate ReachedWithIds(capacity: nat, labels: seq<Label>, e: Endpoint) {
    capacity > 0 && Runs.Reaches(capacity, labels, e) && IdsRemain(e)
  }

  lemma {:induction false} ReachedIsSound(capacity: nat, labels: seq<Label>, e: Endpoint)
    requires ReachedWithIds(capacity, labels, e)
    ensures Sound(e)
  {
    Runs.ReachedInv(capacity, labels, e);
    ReachedCapacity(capacity, labels, e);
  }

  /** What is under way in an endpoint can be finished exactly when it is not doomed. */
  lemma {:induction false} FinishableIffNotDoomed(capacity: nat, past: seq<Label>, e: Endpoint)
    requires ReachedWithIds(capacity, past, e)
    ensures (exists labels :: FinishableBy(e, labels)) <==> !Doomed(e)
  {
    ReachedIsSound(capacity, past, e);
    if !Doomed(e) {
      var labels := RestIsReached(e);
      assert FinishableBy(e, labels);
    } else if labels :| FinishableBy(e, labels) {
      DoomStays(e, labels);
      assert false;
    }
  }

  // ----- the deadlock there is -----

  /** A Connection that waits for the clogged Sender waits forever, whatever anybody does:
      its pending requests are neither answered nor canceled. */
  lemma {:induction false} JammedForever(e: Endpoint, labels: seq<Label>)
    requires Jammed(e) && Run(e, labels).Some?
    ensures Jammed(Run(e, labels).value) && Run(e, labels).value.conn == e.conn
  {
    if labels != [] {
      JammedForever(e, labels[..|labels| - 1]);
    }
  }

  lemma {:induction false} Go(labels: seq<Label>, e: Endpoint, l: Label) returns (labels': seq<Label>, e': Endpoint)
    requires Run(Fresh(1), labels) == Some(e) && Enabled(e, l)
    ensures e' == Apply(e, l) && labels' == labels + [l] && Run(Fresh(1), labels') == Some(e')
  {
    labels', e' := labels + [l], Apply(e, l);
    AfterSnoc(TryApply, Fresh(1), labels, l);
  }

  /** The Sender is writing a request, one frame waits for the Connection. */
  ghost predicate HalfJammed(e: Endpoint, data: Payload) {
    && e.conn.at.Selecting? && e.conn.replyMap == map[0 := 0] && e.ext == []
    && e.sender.at.SWriting? && e.sender.queue == [] && e.receiver.at.RListening? && e.receiver.queue == []
    && e.inq == [INew(MEvent(data))]
  }

  lemma {:induction false} HalfJamIsReachable(data: Payload) returns (labels: seq<Label>, e: Endpoint)
    ensures Run(Fresh(1), labels) == Some(e) && HalfJammed(e, data)
  {
    labels, e := [], Fresh(1);
    labels, e := Go(labels, e, Caller(Call(data)));
    labels, e := Go(labels, e, Caller(Enqueue(0)));
    labels, e := Go(labels, e, Connecting(TakeExternal));
    labels, e := Go(labels, e, Connecting(SendMessage));
    labels, e := Go(labels, e, Sending(SenderTake));
    labels, e := Go(labels, e, Receiving(RecvFrame(MEvent(data))));
    labels, e := Go(labels, e, Receiving(Forward));
  }

  /** The Sender has failed, and the channels to it and to the Connection are full. */
  ghost predicate AlmostJammed(e: Endpoint) {
    && e.conn.at.Selecting? && e.conn.replyMap == map[0 := 0] && e.ext == []
    && Held(e) && !Room(e.sender.queue) && e.receiver.at.RListening? && e.receiver.queue == []
  }

  lemma {:induction false} AlmostJamIsReachable(data: Payload) returns (labels: seq<Label>, e: Endpoint)
    ensures Run(Fresh(1), labels) == Some(e) && AlmostJammed(e)
  {
    labels, e := HalfJamIsReachable(data);
    labels, e := Go(labels, e, Caller(SendEvent(data)));
    labels, e := Go(labels, e, Connecting(TakeExternal));
    labels, e := Go(labels, e, Connecting(SendMessage));
    labels, e := Go(labels, e, Sending(SenderFail(true, false)));
  }

  /** A run to such a state: the sink reports a closed websocket while one peer message and
      one of our own are waiting, and a caller closes the Connection. Request 0 is lost. */
  lemma {:induction false} JamIsReachable(data: Payload) returns (labels: seq<Label>, e: Endpoint)
    ensures Run(Fresh(1), labels) == Some(e) && Jammed(e)
    ensures e.conn.at == ClosingSender && e.conn.replyMap == map[0 := 0]
  {
    labels, e := AlmostJamIsReachable(data);
    labels, e := Go(labels, e, Caller(SendClose));
    labels, e := Go(labels, e, Connecting(TakeExternal));
    labels, e := Go(labels, e, Connecting(CloseReceiver));
  }
}
