/** What two joined endpoints must do, read off what happened to each of them. */
module DuplexLaws {
  import opened Messages
  import opened Machines
  import opened Sequences
  import opened ConnectionCore
  import opened SenderCore
  import opened EndpointSpec
  import opened EndpointInvariants
  import opened EndpointRuns
  import opened Duplex
  import Law = ConnectionLaws
  import E = EndpointLaws

  function OfA(t: Step): seq<Label> { if t.A? then [t.move] else [] }

  function OfB(t: Step): seq<Label> { if t.B? then [t.move] else [] }

  /** What happened to each of the two. */
  function LabelsA(steps: seq<Step>): seq<Label> { FlatMap(OfA, steps) }

  function LabelsB(steps: seq<Step>): seq<Label> { FlatMap(OfB, steps) }

  lemma {:induction false} PartsOfPlay(capacityA: nat, capacityB: nat, steps: seq<Step>, s: Duplex)
    requires Play(Connected(capacityA, capacityB), steps) == Some(s)
    ensures Run(Fresh(capacityA), LabelsA(steps)) == Some(s.a)
    ensures Run(Fresh(capacityB), LabelsB(steps)) == Some(s.b)
  {
    if steps != [] {
      var n := |steps| - 1;
      LastApart(steps);
      var r := Play(Connected(capacityA, capacityB), steps[..n]).value;
      PartsOfPlay(capacityA, capacityB, steps[..n], r);
      var t := steps[n];
      FlatMapSnoc(OfA, steps[..n], t);
      FlatMapSnoc(OfB, steps[..n], t);
      Nothing(LabelsA(steps[..n]));
      Nothing(LabelsB(steps[..n]));
      if t.A? {
        AfterSnoc(TryApply, Fresh(capacityA), LabelsA(steps[..n]), t.move);
      } else if t.B? {
        AfterSnoc(TryApply, Fresh(capacityB), LabelsB(steps[..n]), t.move);
      }
    }
  }

  /** A frame was lost on the way to B, or to A. */
  predicate LossyAB(steps: seq<Step>) {
    steps != [] && (LossyAB(steps[..|steps| - 1]) || steps[|steps| - 1].LoseAB?)
  }

  predicate LossyBA(steps: seq<Step>) {
    steps != [] && (LossyBA(steps[..|steps| - 1]) || steps[|steps| - 1].LoseBA?)
  }

  /** A wire counts as lossy exactly if it has lost a frame. */
  lemma {:induction false} LossesOfPlay(capacityA: nat, capacityB: nat, steps: seq<Step>, s: Duplex)
    requires Play(Connected(capacityA, capacityB), steps) == Some(s)
    ensures s.ab.lost == LossyAB(steps) && s.ba.lost == LossyBA(steps)
  {
    if steps != [] {
      var n := |steps| - 1;
      LossesOfPlay(capacityA, capacityB, steps[..n], Play(Connected(capacityA, capacityB), steps[..n]).value);
    }
  }

  // ----- events -----

  function DataOf(e: ConnectionEvent): seq<Payload> { if e.EEvent? then [e.event] else [] }

  lemma {:induction false} DataOfSurfaced(s: seq<Message>)
    ensures FlatMap(DataOf, Surfaced(s)) == FlatMap(Law.EventOf, s)
  {
    if s != [] {
      var n := |s| - 1;
      DataOfSurfaced(s[..n]);
      FlatMapConcat(DataOf, Surfaced(s[..n]), AsEvent(s[n]));
      if AsEvent(s[n]) != [] {
        FlatMapOne(DataOf, AsEvent(s[n])[0]);
      }
    }
  }

  /** The data of the events y's user has received is a selection, in order and without
      repetition, of what x's callers have sent; without losses, together with what is in
      transit and what still waits for x's Connection, it is all of it. */
  lemma {:induction false} EventsOfCallers(x: Endpoint, xy: Wire, y: Endpoint, capacity: nat, labels: seq<Label>)
    requires Run(Fresh(capacity), labels) == Some(x)
    requires EndpointInv(x) && EndpointInv(y) && Link(x, xy, y)
    ensures SubSeq(FlatMap(DataOf, y.user.received), E.SentEvents(labels))
    ensures !x.sender.fault && !xy.lost && y.conn.at.Running() && y.user.open && !x.conn.at.Returned? ==>
      FlatMap(DataOf, y.user.received) + FlatMap(DataOf, InTransit(x, xy, y)) + FlatMap(E.EventPosted, x.ext)
      == E.SentEvents(labels)
  {
    E.EventsAreAccepted(capacity, labels, x);
    DataOfSurfaced(x.conn.accepted);
    ReceivedData(x, xy, y);
    var sent, accepted := E.SentEvents(labels), FlatMap(Law.EventOf, x.conn.accepted);
    PrefixSubSeq(accepted, sent);
    SubSeqTrans(FlatMap(DataOf, y.user.received), accepted, sent);
    if !x.sender.fault && !xy.lost && y.conn.at.Running() && y.user.open && !x.conn.at.Returned? {
      OneQueue(x, xy, y);
      FlatMapConcat(DataOf, y.user.received, InTransit(x, xy, y));
    }
  }

  lemma {:induction false} ReceivedData(x: Endpoint, xy: Wire, y: Endpoint)
    requires EndpointInv(x) && EndpointInv(y) && Link(x, xy, y)
    ensures SubSeq(FlatMap(DataOf, y.user.received), FlatMap(DataOf, Surfaced(x.conn.accepted)))
  {
    ReceivedSelection(x, xy, y);
    BodyOfPrefix(y.user.received, y.user.emitted);
    SubSeqTrans(Body(y.user.received), Body(y.user.emitted), Surfaced(x.conn.accepted));
    SubSeqFlatMap(DataOf, Body(y.user.received), Surfaced(x.conn.accepted));
    DataOfBody(y.user.received);
  }

  lemma {:induction false} DataOfBody(emitted: seq<ConnectionEvent>)
    ensures FlatMap(DataOf, Body(emitted)) == FlatMap(DataOf, emitted)
  {
    if Body(emitted) != emitted {
      FlatMapSnoc(DataOf, Body(emitted), EClose);
      Nothing(FlatMap(DataOf, Body(emitted)));
      LastApart(emitted);
    }
  }

  lemma {:induction false} EventsArrive(capacityA: nat, capacityB: nat, steps: seq<Step>, s: Duplex)
    requires Played(capacityA, capacityB, steps, s)
    ensures SubSeq(FlatMap(DataOf, s.b.user.received), E.SentEvents(LabelsA(steps)))
    ensures SubSeq(FlatMap(DataOf, s.a.user.received), E.SentEvents(LabelsB(steps)))
    ensures !s.a.sender.fault && !s.ab.lost && s.b.conn.at.Running() && s.b.user.open && !s.a.conn.at.Returned? ==>
      FlatMap(DataOf, s.b.user.received) + FlatMap(DataOf, InTransit(s.a, s.ab, s.b)) + FlatMap(E.EventPosted, s.a.ext)
      == E.SentEvents(LabelsA(steps))
    ensures !s.b.sender.fault && !s.ba.lost && s.a.conn.at.Running() && s.a.user.open && !s.b.conn.at.Returned? ==>
      FlatMap(DataOf, s.a.user.received) + FlatMap(DataOf, InTransit(s.b, s.ba, s.a)) + FlatMap(E.EventPosted, s.b.ext)
      == E.SentEvents(LabelsB(steps))
  {
    PlayedInv(capacityA, capacityB, steps, s);
    PartsOfPlay(capacityA, capacityB, steps, s);
    EventsOfCallers(s.a, s.ab, s.b, capacityA, LabelsA(steps));
    EventsOfCallers(s.b, s.ba, s.a, capacityB, LabelsB(steps));
  }

  // ----- requests -----

  function Requests(m: ConnectionMessage): seq<Payload> { if m.CRequest? then [m.data] else [] }

  /** The requests that were put into the external channel, numbered. */
  function Numbered(data: seq<Payload>): seq<Request> {
    seq(|data|, k requires 0 <= k < |data| => Request(k, data[k]))
  }

  function RequestsSent(labels: seq<Label>): seq<Request> {
    Numbered(FlatMap(Requests, E.Posted(labels)))
  }

  lemma {:induction false} TakenRequests(inputs: seq<Input>)
    ensures var data := FlatMap(Requests, FlatMap(E.ExternalIn, inputs));
            && |data| == |Law.RequestsIn(inputs)|
            && forall k | 0 <= k < |data| :: data[k] == Law.RequestsIn(inputs)[k].0
  {
    if inputs != [] {
      var n := |inputs| - 1;
      TakenRequests(inputs[..n]);
      FlatMapConcat(Requests, FlatMap(E.ExternalIn, inputs[..n]), E.ExternalIn(inputs[n]));
      if inputs[n].External? {
        FlatMapOne(Requests, inputs[n].message);
      }
    }
  }

  /** Up to 2^64 requests, those accepted for the peer are the first of those that callers put
      into the channel, each with its number as its id. */
  lemma {:induction false} AcceptedRequests(capacity: nat, labels: seq<Label>, e: Endpoint)
    requires Run(Fresh(capacity), labels) == Some(e)
    requires |RequestsSent(labels)| <= 0x1_0000_0000_0000_0000
    ensures FlatMap(AsRequest, e.conn.accepted) <= RequestsSent(labels)
  {
    E.ConnectionReadsRun(capacity, labels, e);
    var inputs := E.InputsOf(labels);
    TakenRequests(inputs);
    FlatMapPrefix(Requests, FlatMap(E.ExternalIn, inputs), E.Posted(labels));
    Law.IdsAreNumbers(inputs);
  }

  /** The handles y's user has received are a selection of the numbered requests of x's
      callers, in order and without repetition. */
  lemma {:induction false} HandlesOfCallers(x: Endpoint, xy: Wire, y: Endpoint, capacity: nat, labels: seq<Label>)
    requires Run(Fresh(capacity), labels) == Some(x) && |RequestsSent(labels)| <= 0x1_0000_0000_0000_0000
    requires EndpointInv(x) && EndpointInv(y) && Link(x, xy, y)
    ensures SubSeq(FlatMap(AsHandle, y.user.received), RequestsSent(labels))
  {
    AcceptedRequests(capacity, labels, x);
    ReceivedSelection(x, xy, y);
    BodyOfPrefix(y.user.received, y.user.emitted);
    SubSeqTrans(Body(y.user.received), Body(y.user.emitted), Surfaced(x.conn.accepted));
    SubSeqFlatMap(AsHandle, Body(y.user.received), Surfaced(x.conn.accepted));
    HandlesOfBody(y.user.received);
    HandlesOfSurfaced(x.conn.accepted);
    PrefixSubSeq(FlatMap(AsRequest, x.conn.accepted), RequestsSent(labels));
    SubSeqTrans(FlatMap(AsHandle, y.user.received), FlatMap(AsRequest, x.conn.accepted), RequestsSent(labels));
  }

  lemma {:induction false} HandlesArrive(capacityA: nat, capacityB: nat, steps: seq<Step>, s: Duplex)
    requires Played(capacityA, capacityB, steps, s)
    ensures |RequestsSent(LabelsA(steps))| <= 0x1_0000_0000_0000_0000 ==>
      SubSeq(FlatMap(AsHandle, s.b.user.received), RequestsSent(LabelsA(steps)))
    ensures |RequestsSent(LabelsB(steps))| <= 0x1_0000_0000_0000_0000 ==>
      SubSeq(FlatMap(AsHandle, s.a.user.received), RequestsSent(LabelsB(steps)))
  {
    PlayedInv(capacityA, capacityB, steps, s);
    PartsOfPlay(capacityA, capacityB, steps, s);
    if |RequestsSent(LabelsA(steps))| <= 0x1_0000_0000_0000_0000 {
      HandlesOfCallers(s.a, s.ab, s.b, capacityA, LabelsA(steps));
    }
    if |RequestsSent(LabelsB(steps))| <= 0x1_0000_0000_0000_0000 {
      HandlesOfCallers(s.b, s.ba, s.a, capacityB, LabelsB(steps));
    }
  }

  // ----- answers -----

  /** `data` is what was given to `complete` for the request of call `tx`, as the labels have it. */
  ghost predicate AnsweredBy(asked: seq<Payload>, completed: seq<Completion>, tx: Tx, data: Payload) {
    tx < |asked| && exists k: nat :: Completion(Request(k, asked[tx]), data) in completed
  }

  lemma {:induction false} AnswersAreCompletions(
    capacityA: nat, capacityB: nat, steps: seq<Step>, s: Duplex, tx: Tx, data: Payload)
    requires Played(capacityA, capacityB, steps, s)
    ensures tx in s.a.conn.outcomes && s.a.conn.outcomes[tx] == Ok(data) ==>
      AnsweredBy(E.Asked(LabelsA(steps)), E.Completed(LabelsB(steps)), tx, data)
    ensures tx in s.b.conn.outcomes && s.b.conn.outcomes[tx] == Ok(data) ==>
      AnsweredBy(E.Asked(LabelsB(steps)), E.Completed(LabelsA(steps)), tx, data)
  {
    PartsOfPlay(capacityA, capacityB, steps, s);
    EndToEnd(capacityA, capacityB, steps, s, tx, data);
    E.CallsReadRun(capacityA, LabelsA(steps), s.a);
    E.CallsReadRun(capacityB, LabelsB(steps), s.b);
    E.CompletionsAreReplies(capacityA, LabelsA(steps), s.a);
    E.CompletionsAreReplies(capacityB, LabelsB(steps), s.b);
  }
}
