/** Two endpoints joined by a wire that keeps frames in order but may lose any of them.
    A frame that does not decode is one that is lost. */
module Duplex {
  import opened Messages
  import opened Machines
  import opened Sequences
  import opened ConnectionCore
  import opened SenderCore
  import opened EndpointSpec
  import opened EndpointInvariants
  import opened EndpointRuns

  /** The frames on their way, oldest first, and whether one was ever lost. */
  datatype Wire = Wire(frames: seq<Message>, lost: bool)

  datatype Duplex = Duplex(a: Endpoint, b: Endpoint, ab: Wire, ba: Wire)

  datatype Step = A(move: Label) | B(move: Label) | LoseAB(at: nat) | LoseBA(at: nat)

  function Connected(capacityA: nat, capacityB: nat): Duplex {
    Duplex(Fresh(capacityA), Fresh(capacityB), Wire([], false), Wire([], false))
  }

  /** A Receiver can only be given the frame that arrives. */
  predicate Arrives(l: Label, w: Wire) {
    l.Receiving? && l.receiver.RecvFrame? ==> w.frames != [] && w.frames[0] == l.receiver.message
  }

  function AfterRead(l: Label, w: Wire): Wire
    requires Arrives(l, w)
  {
    if l.Receiving? && l.receiver.RecvFrame? then w.(frames := w.frames[1..]) else w
  }

  /** The frame in the Sender's hand gets onto the wire, whatever the sink says. */
  predicate Writes(l: Label) {
    l.Sending? && (l.sender.SenderWrite? || (l.sender.SenderFail? && l.sender.wrote))
  }

  function AfterWrite(e: Endpoint, l: Label, w: Wire): Wire
    requires Enabled(e, l)
  {
    if Writes(l) then
      w.(frames := w.frames + [e.sender.at.message])
    else w
  }

  function Lose(w: Wire, at: nat): Wire
    requires at < |w.frames|
  {
    Wire(w.frames[..at] + w.frames[at + 1..], true)
  }

  predicate CanStep(s: Duplex, t: Step) {
    match t
    case A(l) => Enabled(s.a, l) && Arrives(l, s.ba)
    case B(l) => Enabled(s.b, l) && Arrives(l, s.ab)
    case LoseAB(at) => at < |s.ab.frames|
    case LoseBA(at) => at < |s.ba.frames|
  }

  function Do(s: Duplex, t: Step): Duplex
    requires CanStep(s, t)
  {
    match t
    case A(l) => s.(a := Apply(s.a, l), ab := AfterWrite(s.a, l, s.ab), ba := AfterRead(l, s.ba))
    case B(l) => s.(b := Apply(s.b, l), ba := AfterWrite(s.b, l, s.ba), ab := AfterRead(l, s.ab))
    case LoseAB(at) => s.(ab := Lose(s.ab, at))
    case LoseBA(at) => s.(ba := Lose(s.ba, at))
  }

  function TryDo(s: Duplex, t: Step): Option<Duplex> {
    if CanStep(s, t) then Some(Do(s, t)) else None
  }

  /** The state after a whole run; `None` if a step was not possible. */
  ghost function Play(s: Duplex, steps: seq<Step>): Option<Duplex> {
    After(TryDo, s, steps)
  }

  // ----- one direction: x writes, the wire carries, y reads -----

  ghost predicate Link(x: Endpoint, w: Wire, y: Endpoint) {
    && SubSeq(y.receiver.framed + w.frames, x.sender.written)
    && (!w.lost ==> y.receiver.framed + w.frames == x.sender.written)
  }

  lemma {:induction false} WriteKeepsLink(x: Endpoint, w: Wire, y: Endpoint, l: Label)
    requires Link(x, w, y) && Enabled(x, l)
    ensures Link(Apply(x, l), AfterWrite(x, l, w), y)
  {
    WrittenFrame(x, l);
    if Writes(l) {
      FrameLinked(y.receiver.framed, w.frames, x.sender.written, x.sender.at.message);
    }
  }

  lemma WrittenFrame(x: Endpoint, l: Label)
    requires Enabled(x, l)
    ensures !Writes(l) ==> Apply(x, l).sender.written == x.sender.written
    ensures Writes(l) ==> x.sender.at.SWriting?
                          && Apply(x, l).sender.written == x.sender.written + [x.sender.at.message]
  {}

  lemma {:induction false} FrameLinked(framed: seq<Message>, frames: seq<Message>, written: seq<Message>, m: Message)
    requires SubSeq(framed + frames, written)
    ensures SubSeq(framed + (frames + [m]), written + [m])
    ensures framed + frames == written ==> framed + (frames + [m]) == written + [m]
  {
    SubSeqRefl([m]);
    SubSeqConcat(framed + frames, written, [m], [m]);
    Associate(framed, frames, [m]);
  }

  lemma {:induction false} ReadKeepsLink(x: Endpoint, w: Wire, y: Endpoint, l: Label)
    requires Link(x, w, y) && Enabled(y, l) && Arrives(l, w)
    ensures Link(x, AfterRead(l, w), Apply(y, l))
  {
    if l.Receiving? && l.receiver.RecvFrame? {
      assert w.frames == [w.frames[0]] + w.frames[1..];
      Associate(y.receiver.framed, [w.frames[0]], w.frames[1..]);
    } else {
      UnreadFrame(y, l);
    }
  }

  lemma UnreadFrame(y: Endpoint, l: Label)
    requires Enabled(y, l) && !(l.Receiving? && l.receiver.RecvFrame?)
    ensures Apply(y, l).receiver.framed == y.receiver.framed
  {}

  lemma {:induction false} LossKeepsLink(x: Endpoint, w: Wire, y: Endpoint, at: nat)
    requires Link(x, w, y) && at < |w.frames|
    ensures Link(x, Lose(w, at), y)
  {
    var before, cut, after := y.receiver.framed + w.frames[..at], [w.frames[at]], w.frames[at + 1..];
    assert w.frames == w.frames[..at] + (cut + after);
    Associate(y.receiver.framed, w.frames[..at], cut + after);
    Associate(before, cut, after);
    SubSeqCut(before, cut, after, x.sender.written);
    Associate(y.receiver.framed, w.frames[..at], after);
  }

  /** Whatever x's Connection finds in front of it, or has taken, was written into the
      channel of y's Sender, in this order; the same order, if something was lost. */
  lemma {:induction false} InComesFromOut(x: Endpoint, w: Wire, y: Endpoint)
    requires InFlow(x.conn, x.inq, x.receiver) && SenderInv(y.sender) && Link(y, w, x)
    ensures SubSeq(InPipe(x.conn, x.inq, x.receiver), y.sender.entered)
  {
    SubSeqCutTail(x.receiver.framed, w.frames, y.sender.written);
    WrittenSelection(y.sender);
    SubSeqTrans(x.receiver.framed, y.sender.written, y.sender.entered);
    SubSeqTrans(InPipe(x.conn, x.inq, x.receiver), x.receiver.framed, y.sender.entered);
  }

  lemma {:induction false} TakenComesFromOut(x: Endpoint, w: Wire, y: Endpoint)
    requires InFlow(x.conn, x.inq, x.receiver) && SenderInv(y.sender) && Link(y, w, x)
    ensures SubSeq(x.conn.taken, y.sender.entered)
  {
    InComesFromOut(x, w, y);
    var queued, hand := FlatMap(Incoming, x.inq), x.receiver.at.Hand();
    Associate(x.conn.taken, queued, hand);
    SubSeqCutTail(x.conn.taken, queued + hand, y.sender.entered);
  }

  // ----- replies are answers -----

  /** Completion j is a `complete(data)` on a handle that carries the id k and exactly the
      data of the call that was given this id. */
  ghost predicate Answers(x: Endpoint, c: Completion, k: nat, data: Payload) {
    && k < |x.conn.issued| && x.conn.issued[k].tx < |x.calls.data|
    && c == Completion(Request(k, x.calls.data[x.conn.issued[k].tx]), data)
  }

  /** A reply anywhere between y's Sender and x's Connection answers a request of x. */
  lemma {:induction false} RepliesAnswer(x: Endpoint, xy: Wire, y: Endpoint, yx: Wire, r: Reply) returns (j: nat)
    requires EndpointInv(x) && EndpointInv(y) && Link(x, xy, y) && Link(y, yx, x)
    requires MReply(r) in InPipe(x.conn, x.inq, x.receiver)
    ensures j < |y.user.completions| && Answers(x, y.user.completions[j], r.id, r.data)
  {
    InComesFromOut(x, yx, y);
    SubSeqIn(InPipe(x.conn, x.inq, x.receiver), y.sender.entered, MReply(r));
    FlatMapHas(AsReply, y.sender.entered, MReply(r), r);
    j := ReplyIsCompletion(y.user.completions, r);
    assert ERequest(y.user.completions[j].request) in y.user.received;
    HandlesAreRequests(x, xy, y, y.user.completions[j].request);
  }

  lemma {:induction false} ReplyIsCompletion(completions: seq<Completion>, r: Reply) returns (j: nat)
    requires r in FlatMap(ReplyOf, completions)
    ensures j < |completions| && completions[j].request.id == r.id && completions[j].data == r.data
  {
    var c := FlatMapSource(ReplyOf, completions, r);
    j :| 0 <= j < |completions| && completions[j] == c;
  }

  lemma {:induction false} ReceivedSelection(x: Endpoint, xy: Wire, y: Endpoint)
    requires EndpointInv(x) && EndpointInv(y) && Link(x, xy, y)
    ensures SubSeq(Body(y.user.emitted), Surfaced(x.conn.accepted))
  {
    TakenComesFromOut(y, xy, x);
    SurfacedSelection(x, y.conn.taken);
    EmittedSelection(y.user.emitted, y.conn);
    SubSeqTrans(Body(y.user.emitted), Surfaced(y.conn.taken), Surfaced(x.conn.accepted));
  }

  lemma {:induction false} EmittedSelection(emitted: seq<ConnectionEvent>, c: Conn)
    requires EmittedFrom(emitted, Surfaced(c.taken), c.at)
    ensures SubSeq(Body(emitted), Surfaced(c.taken))
  {
    SurfacedNoClose(c.taken);
    EmittedShape(emitted, Surfaced(c.taken), c.at);
    PrefixSubSeq(Body(emitted), Surfaced(c.taken));
  }

  /** A handle y's user has received is a request x issued, with its caller's data. */
  lemma {:induction false} HandlesAreRequests(x: Endpoint, xy: Wire, y: Endpoint, r: Request)
    requires EndpointInv(x) && EndpointInv(y) && Link(x, xy, y) && ERequest(r) in y.user.received
    ensures IssuedAs(x, r)
  {
    ReceivedSelection(x, xy, y);
    SurfacedRequestsAreGenuine(x, Body(y.user.emitted));
    assert ERequest(r) in y.user.emitted;
    InBody(y.user.emitted, r);
    FlatMapHas(AsHandle, Body(y.user.emitted), ERequest(r), r);
  }

  lemma InBody(emitted: seq<ConnectionEvent>, r: Request)
    requires ERequest(r) in emitted
    ensures ERequest(r) in Body(emitted)
  {
    var i :| 0 <= i < |emitted| && emitted[i] == ERequest(r);
    assert i < |Body(emitted)| && Body(emitted)[i] == emitted[i];
  }

  // ----- every run -----

  /** Every reply x's Connection has taken came after the request it answers was issued. */
  ghost predicate RepliesFollow(c: Conn) {
    forall j | 0 <= j < |c.taken| && c.taken[j].MReply? ::
      c.taken[j].reply.id < |c.issued| && c.issued[c.taken[j].reply.id].at <= j
  }

  ghost predicate DuplexInv(s: Duplex) {
    && EndpointInv(s.a) && EndpointInv(s.b)
    && Link(s.a, s.ab, s.b) && Link(s.b, s.ba, s.a)
    && RepliesFollow(s.a.conn) && RepliesFollow(s.b.conn)
  }

  /** A reply in front of the Connection names a request that was issued. */
  ghost predicate FrontIssued(x: Endpoint) {
    x.inq != [] && x.inq[0].INew? && x.inq[0].message.MReply? ==> x.inq[0].message.reply.id < |x.conn.issued|
  }

  lemma {:induction false} RepliesAreIssued(x: Endpoint, xy: Wire, y: Endpoint, yx: Wire)
    requires EndpointInv(x) && EndpointInv(y) && Link(x, xy, y) && Link(y, yx, x)
    ensures FrontIssued(x)
  {
    if x.inq != [] && x.inq[0].INew? && x.inq[0].message.MReply? {
      var r := x.inq[0].message.reply;
      InFront(x, r);
      var j := RepliesAnswer(x, xy, y, yx, r);
    }
  }

  lemma {:induction false} StepFollows(x: Endpoint, l: Label)
    requires RepliesFollow(x.conn) && FatesAgree(x.conn) && FrontIssued(x) && Enabled(x, l)
    ensures RepliesFollow(Apply(x, l).conn)
  {
    if l == Connecting(TakeInternal) && x.inq[0].INew? && x.inq[0].message.MReply? {
      ReplyFollows(x.conn, x.inq[0].message.reply, x.calls.gone);
    } else if l.Connecting? {
      ConnFollows(x, l.conn);
    }
  }

  lemma {:induction false} InFront(x: Endpoint, r: Reply)
    requires x.inq != [] && x.inq[0] == INew(MReply(r))
    ensures MReply(r) in InPipe(x.conn, x.inq, x.receiver)
  {
    FlatMapHas(Incoming, x.inq, x.inq[0], MReply(r));
  }

  lemma {:induction false} ReplyFollows(c: Conn, r: Reply, gone: set<Tx>)
    requires RepliesFollow(c) && FatesAgree(c) && r.id < |c.issued| && CanTake(c, Internal(INew(MReply(r)), gone))
    ensures RepliesFollow(Next(c, Internal(INew(MReply(r)), gone)))
  {
    assert Next(c, Internal(INew(MReply(r)), gone)).taken == c.taken + [MReply(r)];
  }

  lemma {:induction false} ConnFollows(x: Endpoint, l: ConnLabel)
    requires RepliesFollow(x.conn) && ConnCan(x, l)
    requires l.TakeInternal? ==> x.inq[0].INew? ==> !x.inq[0].message.MReply?
    ensures RepliesFollow(ConnDoes(x, l).conn)
  {
    if l.TakeExternal? {
      IssuedGrows(x.conn, x.ext[0]);
      assert ConnDoes(x, l).conn.taken == x.conn.taken;
    } else {
      IssuedStays(x, l);
    }
  }

  lemma {:induction false} DuplexStep(s: Duplex, t: Step)
    requires DuplexInv(s) && CanStep(s, t)
    requires |Do(s, t).a.conn.issued| <= USIZE && |Do(s, t).b.conn.issued| <= USIZE
    ensures DuplexInv(Do(s, t))
  {
    match t
    case A(l) =>
      EndpointStep(s.a, l);
      WriteKeepsLink(s.a, s.ab, s.b, l);
      ReadKeepsLink(s.b, s.ba, s.a, l);
      RepliesAreIssued(s.a, s.ab, s.b, s.ba);
      StepFollows(s.a, l);
    case B(l) =>
      EndpointStep(s.b, l);
      WriteKeepsLink(s.b, s.ba, s.a, l);
      ReadKeepsLink(s.a, s.ab, s.b, l);
      RepliesAreIssued(s.b, s.ba, s.a, s.ab);
      StepFollows(s.b, l);
    case LoseAB(at) => LossKeepsLink(s.a, s.ab, s.b, at);
    case LoseBA(at) => LossKeepsLink(s.b, s.ba, s.a, at);
  }

  lemma {:induction false} IssuedInStep(s: Duplex, t: Step)
    requires CanStep(s, t)
    ensures |s.a.conn.issued| <= |Do(s, t).a.conn.issued| && |s.b.conn.issued| <= |Do(s, t).b.conn.issued|
  {
    match t
    case A(l) => IssuedMonotone(s.a, l);
    case B(l) => IssuedMonotone(s.b, l);
    case _ =>
  }

  /** `steps` leads two newly connected endpoints to `s`, neither having issued more than 2^64 requests. */
  ghost predicate Played(capacityA: nat, capacityB: nat, steps: seq<Step>, s: Duplex) {
    && Play(Connected(capacityA, capacityB), steps) == Some(s)
    && |s.a.conn.issued| <= USIZE && |s.b.conn.issued| <= USIZE
  }

  lemma {:induction false} PlayedInv(capacityA: nat, capacityB: nat, steps: seq<Step>, s: Duplex)
    requires Played(capacityA, capacityB, steps, s)
    ensures DuplexInv(s)
  {
    if steps == [] {
      FreshInv(capacityA);
      FreshInv(capacityB);
    } else {
      var n := |steps| - 1;
      var r := Play(Connected(capacityA, capacityB), steps[..n]).value;
      IssuedInStep(r, steps[n]);
      PlayedInv(capacityA, capacityB, steps[..n], r);
      DuplexStep(r, steps[n]);
    }
  }

  // ----- the main results, for each of the two directions -----

  /** If a call of x got `Ok(data)`, then y's user called `complete(data)` on a handle with the
      id of this request, and that handle shows exactly what this caller sent. Whatever is
      lost, whoever completes what, in which order, and how often. */
  lemma {:induction false} OkIsAnswer(x: Endpoint, xy: Wire, y: Endpoint, yx: Wire, tx: Tx, data: Payload)
    returns (k: nat, j: nat)
    requires EndpointInv(x) && EndpointInv(y) && Link(x, xy, y) && Link(y, yx, x)
    requires tx in x.conn.outcomes && x.conn.outcomes[tx] == Ok(data)
    ensures k < |x.conn.issued| && x.conn.issued[k].tx == tx && tx < |x.calls.data|
    ensures j < |y.user.completions| && y.user.completions[j] == Completion(Request(k, x.calls.data[tx]), data)
    ensures ERequest(Request(k, x.calls.data[tx])) in y.user.received
  {
    k := OkIsReply(x.conn, tx, data);
    assert MReply(Reply(k, data)) in InPipe(x.conn, x.inq, x.receiver);
    j := RepliesAnswer(x, xy, y, yx, Reply(k, data));
  }

  /** `Ok(data)` is the data of a reply the Connection took, to the request of this oneshot. */
  lemma {:induction false} OkIsReply(c: Conn, tx: Tx, data: Payload) returns (k: nat)
    requires FatesAgree(c) && OneshotsDistinct(c) && tx in c.outcomes && c.outcomes[tx] == Ok(data)
    ensures k < |c.issued| && c.issued[k].tx == tx && MReply(Reply(k, data)) in c.taken
  {
    assert !FreshTx(c, tx);
    k :| 0 <= k < |c.issued| && c.issued[k].tx == tx;
    assert FateAgrees(c, k);
    FirstReplyIsFirst(c.taken, c.issued[k].at, k);
  }

  lemma {:induction false} EndToEnd(capacityA: nat, capacityB: nat, steps: seq<Step>, s: Duplex, tx: Tx, data: Payload)
    requires Played(capacityA, capacityB, steps, s)
    ensures tx in s.a.conn.outcomes && s.a.conn.outcomes[tx] == Ok(data) ==>
      Answered(s.a, s.b, tx, data)
    ensures tx in s.b.conn.outcomes && s.b.conn.outcomes[tx] == Ok(data) ==>
      Answered(s.b, s.a, tx, data)
  {
    PlayedInv(capacityA, capacityB, steps, s);
    if tx in s.a.conn.outcomes && s.a.conn.outcomes[tx] == Ok(data) {
      var k, j := OkIsAnswer(s.a, s.ab, s.b, s.ba, tx, data);
    }
    if tx in s.b.conn.outcomes && s.b.conn.outcomes[tx] == Ok(data) {
      var k, j := OkIsAnswer(s.b, s.ba, s.a, s.ab, tx, data);
    }
  }

  ghost predicate Answered(x: Endpoint, y: Endpoint, tx: Tx, data: Payload) {
    && tx < |x.calls.data|
    && exists k, j | 0 <= k < |x.conn.issued| && 0 <= j < |y.user.completions| ::
         && x.conn.issued[k].tx == tx
         && y.user.completions[j] == Completion(Request(k, x.calls.data[tx]), data)
         && ERequest(Request(k, x.calls.data[tx])) in y.user.received
  }

  /** The reply in front of a running Connection finds its request in the reply map, unless a
      reply with the same id was taken before: only a repeated completion is without a match. */
  lemma {:induction false} NoReplyBeatsItsRequest(capacityA: nat, capacityB: nat, steps: seq<Step>, s: Duplex)
    requires Played(capacityA, capacityB, steps, s)
    ensures FrontExpected(s.a) && FrontExpected(s.b)
  {
    PlayedInv(capacityA, capacityB, steps, s);
    RepliesAreIssued(s.a, s.ab, s.b, s.ba);
    RepliesAreIssued(s.b, s.ba, s.a, s.ab);
    FrontIssuedIsExpected(s.a);
    FrontIssuedIsExpected(s.b);
  }

  ghost predicate FrontExpected(x: Endpoint) {
    x.conn.at.Selecting? && x.inq != [] && x.inq[0].INew? && x.inq[0].message.MReply? ==>
      Expected(x.conn, x.inq[0].message.reply.id)
  }

  lemma {:induction false} FrontIssuedIsExpected(x: Endpoint)
    requires FrontIssued(x) && FatesAgree(x.conn) && RepliesFollow(x.conn)
    ensures FrontExpected(x)
  {
    if x.conn.at.Selecting? && x.inq != [] && x.inq[0].INew? && x.inq[0].message.MReply? {
      ExpectedIfIssued(x.conn, x.inq[0].message.reply.id);
    }
  }

  /** Exactly the ids that were not answered yet are in the reply map. */
  ghost predicate Expected(c: Conn, id: nat) {
    id in c.replyMap <==> forall j | 0 <= j < |c.taken| :: !IsReplyTo(c.taken[j], id)
  }

  lemma {:induction false} ExpectedIfIssued(c: Conn, id: nat)
    requires FatesAgree(c) && RepliesFollow(c) && id < |c.issued| && c.at.InService()
    ensures Expected(c, id)
  {
    assert FateAgrees(c, id);
    FirstReplyIsFirst(c.taken, c.issued[id].at, id);
  }

  // ----- the pipeline -----

  /** All messages between x's Connection and y's user, as the events they are or will be. */
  function InTransit(x: Endpoint, w: Wire, y: Endpoint): seq<ConnectionEvent> {
    y.user.events + y.conn.at.UserHand()
    + Surfaced(FlatMap(Incoming, y.inq) + y.receiver.at.Hand())
    + Surfaced(w.frames)
    + Surfaced(x.sender.at.Hand() + FlatMap(Queued, x.sender.queue))
    + Surfaced(x.conn.at.OutHand())
  }

  /** All stages together are one queue: what y's user has received, followed by what is in
      transit, is what x's Connection has accepted. It holds also while x shuts down. */
  lemma {:induction false} OneQueue(x: Endpoint, w: Wire, y: Endpoint)
    requires EndpointInv(x) && EndpointInv(y) && Link(x, w, y)
    requires !x.sender.fault && !w.lost && y.conn.at.Running() && y.user.open
    ensures y.user.received + InTransit(x, w, y) == Surfaced(x.conn.accepted)
  {
    SurfacedOut(x);
    SurfacedIn(y);
    FlatMapConcat(AsEvent, y.receiver.framed, w.frames);
    JoinStages(y.user.received, y.user.events, y.conn.at.UserHand(),
               Surfaced(FlatMap(Incoming, y.inq) + y.receiver.at.Hand()), Surfaced(w.frames),
               Surfaced(x.sender.at.Hand() + FlatMap(Queued, x.sender.queue)), Surfaced(x.conn.at.OutHand()));
  }

  lemma {:induction false} SurfacedOut(x: Endpoint)
    requires SenderInv(x.sender) && Handover(x.conn, x.sender.entered, x.user.completions) && !x.sender.fault
    ensures Surfaced(x.conn.accepted) ==
      Surfaced(x.sender.written) + Surfaced(x.sender.at.Hand() + FlatMap(Queued, x.sender.queue))
      + Surfaced(x.conn.at.OutHand())
  {
    var hand, queued := x.sender.at.Hand(), FlatMap(Queued, x.sender.queue);
    Associate(x.sender.written, hand, queued);
    FlatMapConcat(AsEvent, x.sender.written, hand + queued);
  }

  lemma {:induction false} SurfacedIn(y: Endpoint)
    requires InFlow(y.conn, y.inq, y.receiver) && UserSees(y.conn, y.user) && y.conn.at.Running() && y.user.open
    ensures Surfaced(y.receiver.framed) ==
      y.user.received + y.user.events + y.conn.at.UserHand()
      + Surfaced(FlatMap(Incoming, y.inq) + y.receiver.at.Hand())
  {
    var queued, hand := FlatMap(Incoming, y.inq), y.receiver.at.Hand();
    Associate(y.conn.taken, queued, hand);
    FlatMapConcat(AsEvent, y.conn.taken, queued + hand);
  }

  lemma {:induction false} JoinStages<T>(a: seq<T>, b: seq<T>, c: seq<T>, d: seq<T>, e: seq<T>, f: seq<T>, g: seq<T>)
    ensures a + (b + c + d + e + f + g) == a + b + c + d + e + f + g
  {
    Associate(a, b, c);
    Associate(a, b + c, d);
    Associate(a, b + c + d, e);
    Associate(a, b + c + d + e, f);
    Associate(a, b + c + d + e + f, g);
  }

  lemma {:induction false} PipelineIsOneQueue(capacityA: nat, capacityB: nat, steps: seq<Step>, s: Duplex)
    requires Played(capacityA, capacityB, steps, s)
    ensures !s.a.sender.fault && !s.ab.lost && s.b.conn.at.Running() && s.b.user.open ==>
      s.b.user.received + InTransit(s.a, s.ab, s.b) == Surfaced(s.a.conn.accepted)
    ensures !s.b.sender.fault && !s.ba.lost && s.a.conn.at.Running() && s.a.user.open ==>
      s.a.user.received + InTransit(s.b, s.ba, s.a) == Surfaced(s.b.conn.accepted)
    ensures SubSeq(Body(s.b.user.emitted), Surfaced(s.a.conn.accepted)) && s.b.user.received <= s.b.user.emitted
    ensures SubSeq(Body(s.a.user.emitted), Surfaced(s.b.conn.accepted)) && s.a.user.received <= s.a.user.emitted
  {
    PlayedInv(capacityA, capacityB, steps, s);
    if !s.a.sender.fault && !s.ab.lost && s.b.conn.at.Running() && s.b.user.open {
      OneQueue(s.a, s.ab, s.b);
    }
    if !s.b.sender.fault && !s.ba.lost && s.a.conn.at.Running() && s.a.user.open {
      OneQueue(s.b, s.ba, s.a);
    }
    ReceivedSelection(s.a, s.ab, s.b);
    ReceivedSelection(s.b, s.ba, s.a);
  }

  lemma {:induction false} HandlesOfBody(emitted: seq<ConnectionEvent>)
    ensures FlatMap(AsHandle, Body(emitted)) == FlatMap(AsHandle, emitted)
  {
    if Body(emitted) != emitted {
      FlatMapSnoc(AsHandle, Body(emitted), EClose);
      assert emitted == Body(emitted) + [EClose];
    }
  }

  lemma {:induction false} BodyOfPrefix(received: seq<ConnectionEvent>, emitted: seq<ConnectionEvent>)
    requires received <= emitted
    ensures SubSeq(Body(received), Body(emitted))
  {
    PrefixSubSeq(Body(received), Body(emitted));
  }

  /** The handles y's user has received: requests of x with their callers' data, in the order
      of issue, each at most once. */
  lemma {:induction false} HandlesOnce(x: Endpoint, xy: Wire, y: Endpoint)
    requires EndpointInv(x) && EndpointInv(y) && Link(x, xy, y)
    ensures GenuineRequests(x, FlatMap(AsHandle, y.user.received))
  {
    ReceivedSelection(x, xy, y);
    BodyOfPrefix(y.user.received, y.user.emitted);
    SubSeqTrans(Body(y.user.received), Body(y.user.emitted), Surfaced(x.conn.accepted));
    SurfacedRequestsAreGenuine(x, Body(y.user.received));
    HandlesOfBody(y.user.received);
  }

  lemma {:induction false} HandlesSurfaceOnce(capacityA: nat, capacityB: nat, steps: seq<Step>, s: Duplex)
    requires Played(capacityA, capacityB, steps, s)
    ensures GenuineRequests(s.a, FlatMap(AsHandle, s.b.user.received))
    ensures GenuineRequests(s.b, FlatMap(AsHandle, s.a.user.received))
  {
    PlayedInv(capacityA, capacityB, steps, s);
    HandlesOnce(s.a, s.ab, s.b);
    HandlesOnce(s.b, s.ba, s.a);
  }

  // ----- which completion wins -----

  lemma {:induction false} CompletionReplies(completions: seq<Completion>)
    ensures var replies := FlatMap(ReplyOf, completions);
            && |replies| == |completions|
            && forall j | 0 <= j < |completions| :: replies[j] == Reply(completions[j].request.id, completions[j].data)
  {
    if completions != [] {
      CompletionReplies(completions[..|completions| - 1]);
    }
  }

  lemma {:induction false} RepliesBefore(s: seq<Message>, id: nat)
    requires forall i | 0 <= i < |s| :: !IsReplyTo(s[i], id)
    ensures forall r | r in FlatMap(AsReply, s) :: r.id != id
  {
    forall r | r in FlatMap(AsReply, s)
      ensures r.id != id
    {
      var m := FlatMapSource(AsReply, s, r);
    }
  }

  /** The p-th message is the first reply to `id`: it is the first completion of this id. */
  lemma {:induction false} FirstReplyIsFirstCompletion(
    entered: seq<Message>, completions: seq<Completion>, p: nat, r: Reply) returns (j: nat)
    requires FlatMap(AsReply, entered) == FlatMap(ReplyOf, completions)
    requires p < |entered| && entered[p] == MReply(r) && forall i | 0 <= i < p :: !IsReplyTo(entered[i], r.id)
    ensures j < |completions| && completions[j].request.id == r.id && completions[j].data == r.data
    ensures forall i | 0 <= i < j :: completions[i].request.id != r.id
  {
    var before := FlatMap(AsReply, entered[..p]);
    j := |before|;
    assert entered == entered[..p] + [entered[p]] + entered[p + 1..];
    FlatMapConcat(AsReply, entered[..p] + [entered[p]], entered[p + 1..]);
    FlatMapSnoc(AsReply, entered[..p], entered[p]);
    CompletionReplies(completions);
    RepliesBefore(entered[..p], r.id);
    assert forall i | 0 <= i < j :: FlatMap(ReplyOf, completions)[i] == before[i];
  }

  lemma {:induction false} TakenIsPrefix(x: Endpoint, y: Endpoint, yx: Wire)
    requires InFlow(x.conn, x.inq, x.receiver) && SenderInv(y.sender) && Link(y, yx, x)
    requires !y.sender.fault && !yx.lost
    ensures x.conn.taken <= y.sender.entered
  {
    assert x.conn.taken <= x.receiver.framed;
    assert x.receiver.framed <= y.sender.written;
    assert y.sender.written <= y.sender.entered;
  }

  /** Of several completions of request k, number j is the earliest. */
  ghost predicate FirstAnswered(x: Endpoint, y: Endpoint, tx: Tx, data: Payload) {
    exists k, j | 0 <= k < |x.conn.issued| && 0 <= j < |y.user.completions| ::
      && x.conn.issued[k].tx == tx
      && y.user.completions[j].request.id == k && y.user.completions[j].data == data
      && forall i | 0 <= i < j :: y.user.completions[i].request.id != k
  }

  lemma {:induction false} FirstCompletionWins(x: Endpoint, y: Endpoint, tx: Tx, data: Payload)
    requires FatesAgree(x.conn) && RepliesFollow(x.conn) && !FreshTx(x.conn, tx)
    requires tx in x.conn.outcomes && x.conn.outcomes[tx] == Ok(data)
    requires FlatMap(AsReply, y.sender.entered) == FlatMap(ReplyOf, y.user.completions)
    requires x.conn.taken <= y.sender.entered
    ensures FirstAnswered(x, y, tx, data)
  {
    var k :| 0 <= k < |x.conn.issued| && x.conn.issued[k].tx == tx;
    assert FateAgrees(x.conn, k);
    var p := FirstReplyAt(x.conn, k, data);
    assert forall i | 0 <= i <= p :: y.sender.entered[i] == x.conn.taken[i];
    var j := FirstReplyIsFirstCompletion(y.sender.entered, y.user.completions, p, Reply(k, data));
  }

  lemma {:induction false} FirstReplyAt(c: Conn, k: nat, data: Payload) returns (p: nat)
    requires RepliesFollow(c) && k < |c.issued| && c.issued[k].at <= |c.taken|
    requires FirstReply(c.taken, c.issued[k].at, k) == Some(data)
    ensures p < |c.taken| && c.taken[p] == MReply(Reply(k, data))
    ensures forall i | 0 <= i < p :: !IsReplyTo(c.taken[i], k)
  {
    var at := c.issued[k].at;
    FirstReplyIsFirst(c.taken, at, k);
    p :| at <= p < |c.taken| && c.taken[p] == MReply(Reply(k, data))
         && forall i | at <= i < p :: !IsReplyTo(c.taken[i], k);
  }

  /** As long as nothing is lost on the way back, the earliest completion decides. */
  lemma {:induction false} EarliestCompletionDecides(
    capacityA: nat, capacityB: nat, steps: seq<Step>, s: Duplex, tx: Tx, data: Payload)
    requires Played(capacityA, capacityB, steps, s)
    ensures !s.b.sender.fault && !s.ba.lost && tx in s.a.conn.outcomes && s.a.conn.outcomes[tx] == Ok(data) ==>
      FirstAnswered(s.a, s.b, tx, data)
    ensures !s.a.sender.fault && !s.ab.lost && tx in s.b.conn.outcomes && s.b.conn.outcomes[tx] == Ok(data) ==>
      FirstAnswered(s.b, s.a, tx, data)
  {
    PlayedInv(capacityA, capacityB, steps, s);
    if !s.b.sender.fault && !s.ba.lost && tx in s.a.conn.outcomes && s.a.conn.outcomes[tx] == Ok(data) {
      TakenIsPrefix(s.a, s.b, s.ba);
      FirstCompletionWins(s.a, s.b, tx, data);
    }
    if !s.a.sender.fault && !s.ab.lost && tx in s.b.conn.outcomes && s.b.conn.outcomes[tx] == Ok(data) {
      TakenIsPrefix(s.b, s.a, s.ab);
      FirstCompletionWins(s.b, s.a, tx, data);
    }
  }
}
