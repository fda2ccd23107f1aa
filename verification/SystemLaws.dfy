/** What the server and its connections must do, read off what happened to them. As for an
    endpoint, everything here is defined on the labels of a run alone: a queue is the sequence
    of all that was ever put into it. */
module SystemLaws {
  import opened Messages
  import opened Machines
  import opened Sequences
  import opened ServerCore
  import opened ServerSystem
  import opened ServerInvariants
  import C = ConnectionCore
  import Law = ServerLaws
  import ConnLaw = ConnectionLaws
  import E = EndpointLaws
  import Registry = ServerRegistry
  import Runs = ServerRuns

  // ----- user and acceptor -----

  function AskBy(l: Label): seq<Ask> { if l.User? && l.user.Call? then [Ask(l.user.to, l.user.data)] else [] }

  /** The requests that were asked of the server. */
  function Asks(labels: seq<Label>): seq<Ask> { FlatMap(AskBy, labels) }

  function Gone(labels: seq<Label>): set<Tx> {
    set l | l in labels && l.User? && l.user.Abandon? :: l.user.tx
  }

  function StreamBy(l: Label): seq<Addr> {
    if l.Accepting? && l.acceptor.Accept? then [l.acceptor.addr] else []
  }

  /** The addresses of the accepted streams: connection c is the c-th. */
  function Streams(labels: seq<Label>): seq<Addr> { FlatMap(StreamBy, labels) }

  function AcceptorIs(labels: seq<Label>): AcceptorAt {
    if labels == [] then Listening
    else
      var before := labels[..|labels| - 1];
      match labels[|labels| - 1]
      case Accepting(Accept(a)) => Announcing(|Streams(before)|, a)
      case Accepting(Announce) => Listening
      case Accepting(_) => AcceptorAt.Gone
      case _ => AcceptorIs(before)
  }

  // ----- a connection and its passer -----

  predicate Returned(labels: seq<Label>, c: ConnId) { AtLink(c, LOfferClose) in labels }

  predicate PasserLeft(labels: seq<Label>, c: ConnId) { AtLink(c, PFail) in labels || AtLink(c, PEnd) in labels }

  function PTakeBy(c: ConnId): Label -> seq<bool> { (l: Label) => if l == AtLink(c, PTake) then [true] else [] }

  /** How many events the passer of c has taken. */
  function PTakes(labels: seq<Label>, c: ConnId): nat { |FlatMap(PTakeBy(c), labels)| }

  /** The events that were put into the passer's channel. */
  function Emissions(labels: seq<Label>, c: ConnId): seq<ConnectionEvent>
    decreases |labels|, 0
  {
    if labels == [] then []
    else
      var before, l := labels[..|labels| - 1], labels[|labels| - 1];
      Emissions(before, c) + EmissionBy(before, l, c)
  }

  function EmissionBy(before: seq<Label>, l: Label, c: ConnId): seq<ConnectionEvent>
    decreases |before|, 1
  {
    if PasserLeft(before, c) then []
    else if l == AtLink(c, LOffer) then ConnLaw.ForUser(LinkInputs(before, c))
    else if l == AtLink(c, LOfferClose) then [EClose]
    else []
  }

  /** What Connection c was woken up with. */
  function LinkInputs(labels: seq<Label>, c: ConnId): seq<C.Input>
    decreases |labels|, 0
  {
    if labels == [] then []
    else
      var before, l := labels[..|labels| - 1], labels[|labels| - 1];
      LinkInputs(before, c) + if l.AtLink? && l.conn == c then LinkInputBy(before, l.link, c) else []
  }

  function LinkInputBy(before: seq<Label>, l: LinkLabel, c: ConnId): seq<C.Input>
    decreases |before|, 1
  {
    match l
    case LTake =>
      var n := |FlatMap(E.ExternalIn, LinkInputs(before, c))|;
      if n < |Delivered(before, c)| then [C.External(Delivered(before, c)[n])] else []
    case LHear(m) => [C.Internal(m, Gone(before))]
    case LSent(ok) => [C.Sent(ok)]
    case LOffer => [C.Offered(!PasserLeft(before, c))]
    case LReceiverClosed => [C.ReceiverClosed]
    case LSenderClosed => [C.SenderClosed(Gone(before))]
    case LOfferClose => [C.CloseOffered]
    case _ => []
  }

  /** Everything the Server put into the queue of connection c: the requests and events for its
      address while it had the entry, and a Close. */
  function Delivered(labels: seq<Label>, c: ConnId): seq<ConnectionMessage>
    decreases |labels|, 0
  {
    if labels == [] then []
    else
      var before, l := labels[..|labels| - 1], labels[|labels| - 1];
      Delivered(before, c) + DeliveredBy(before, l, c)
  }

  function DeliveredBy(before: seq<Label>, l: Label, c: ConnId): seq<ConnectionMessage>
    decreases |before|, 1
  {
    if Returned(before, c) then []
    else
      match l
      case Serving(SHand) =>
        var p := Law.InHand(ServerInputs(before));
        if p.Some? && p.value.conn == c then [p.value.message] else []
      case Serving(STell(a)) => if Law.Entry(Law.History(ServerInputs(before)), a) == Some(c) then [CClose] else []
      case _ => []
  }

  // ----- the Server -----

  /** Everything that was put into the Server's queue. */
  function Arrived(labels: seq<Label>): seq<ServerMessage>
    decreases |labels|, 0
  {
    if labels == [] then []
    else
      var before, l := labels[..|labels| - 1], labels[|labels| - 1];
      Arrived(before) + ArrivedBy(before, l)
  }

  function ArrivedBy(before: seq<Label>, l: Label): seq<ServerMessage>
    decreases |before|, 1
  {
    match l
    case User(Enqueue(tx)) =>
      if tx < |Asks(before)| then [MSendRequest(Asks(before)[tx].to, Asks(before)[tx].data, tx)] else []
    case User(Post(m)) => [m]
    case Accepting(Announce) =>
      var n := |Streams(before)|;
      if n > 0 then [MNewConnection(n - 1, Streams(before)[n - 1])] else []
    case AtLink(c, PPush) =>
      var n := PTakes(before, c);
      if c < |Streams(before)| && 0 < n <= |Emissions(before, c)| then
        [MConnectionEvent(Streams(before)[c], Emissions(before, c)[n - 1], c)]
      else []
    case _ => []
  }

  function TakeIn(i: Input): seq<ServerMessage> { if i.Take? then [i.message] else [] }

  /** What the Server was woken up with. */
  function ServerInputs(labels: seq<Label>): seq<Input>
    decreases |labels|, 0
  {
    if labels == [] then []
    else
      var before, l := labels[..|labels| - 1], labels[|labels| - 1];
      ServerInputs(before) + if l.Serving? then ServerInputBy(before, l.server) else []
  }

  function ServerInputBy(before: seq<Label>, l: ServerLabel): seq<Input>
    decreases |before|, 1
  {
    match l
    case STake =>
      var n := |FlatMap(TakeIn, ServerInputs(before))|;
      if n < |Arrived(before)| then [Take(Arrived(before)[n])] else []
    case SHand =>
      var p := Law.InHand(ServerInputs(before));
      if p.Some? then [Handed(!Returned(before, p.value.conn))] else []
    case SEmit => [Shown(User(DropEvents) !in before)]
    case STell(a) => [Told(a)]
    case SStop => [AllTold]
  }

  // ----- the system does it -----

  ghost predicate BasicsRead(s: System, labels: seq<Label>) {
    && s.calls == Asks(labels) && s.gone == Gone(labels) && (s.userOpen <==> User(DropEvents) !in labels)
    && s.acceptor == AcceptorIs(labels)
    && |s.links| == |Streams(labels)| && (forall c | 0 <= c < |s.links| :: s.links[c].addr == Streams(labels)[c])
    && (s.acceptor.Announcing? ==>
          |Streams(labels)| > 0 && s.acceptor.conn == |Streams(labels)| - 1
          && s.acceptor.addr == Streams(labels)[s.acceptor.conn])
  }

  ghost predicate ServerRead(s: System, labels: seq<Label>) {
    var inputs := ServerInputs(labels);
    && Exec(START, inputs) == Some(s.srv)
    && E.Queue(FlatMap(TakeIn, inputs), s.queue, Arrived(labels), s.srv.at.Stopped?)
    && s.shown == Law.Shows(inputs)
  }

  ghost predicate LinkRead(k: Link, labels: seq<Label>, c: ConnId) {
    var inputs, all, n := LinkInputs(labels, c), Emissions(labels, c), PTakes(labels, c);
    && C.Exec(C.INIT, inputs) == Some(k.conn)
    && (k.conn.at.Returned? <==> Returned(labels, c)) && (k.passer.PExited? <==> PasserLeft(labels, c))
    && E.Queue(FlatMap(E.ExternalIn, inputs), k.ext, Delivered(labels, c), k.conn.at.Returned?)
    && k.emitted == all && n <= |all| && (!k.passer.PExited? ==> k.events == all[n..])
    && (k.passer.PHolding? ==> n > 0 && k.passer.event == all[n - 1])
  }

  ghost predicate LinksRead(s: System, labels: seq<Label>) {
    && (forall c | 0 <= c < |s.links| :: LinkRead(s.links[c], labels, c))
    && (forall c: ConnId | c >= |s.links| :: NothingYet(labels, c))
  }

  ghost predicate NothingYet(labels: seq<Label>, c: ConnId) {
    && LinkInputs(labels, c) == [] && Emissions(labels, c) == [] && Delivered(labels, c) == []
    && PTakes(labels, c) == 0 && !Returned(labels, c) && !PasserLeft(labels, c)
  }

  lemma {:induction false} Snoc(labels: seq<Label>, l: Label)
    ensures var all := labels + [l]; all[..|labels|] == labels && all[|labels|] == l
    ensures forall k :: k in labels + [l] <==> k in labels || k == l
  {}

  lemma {:induction false} AddsToServer(labels: seq<Label>, l: Label)
    ensures ServerInputs(labels + [l]) ==
      ServerInputs(labels) + if l.Serving? then ServerInputBy(labels, l.server) else []
    ensures Arrived(labels + [l]) == Arrived(labels) + ArrivedBy(labels, l)
  {
    Snoc(labels, l);
  }

  lemma {:induction false} AddsToLink(labels: seq<Label>, l: Label, c: ConnId)
    ensures LinkInputs(labels + [l], c) ==
      LinkInputs(labels, c) + if l.AtLink? && l.conn == c then LinkInputBy(labels, l.link, c) else []
    ensures Emissions(labels + [l], c) == Emissions(labels, c) + EmissionBy(labels, l, c)
    ensures Delivered(labels + [l], c) == Delivered(labels, c) + DeliveredBy(labels, l, c)
    ensures PTakes(labels + [l], c) == PTakes(labels, c) + (if l == AtLink(c, PTake) then 1 else 0)
    ensures Returned(labels + [l], c) <==> Returned(labels, c) || l == AtLink(c, LOfferClose)
    ensures PasserLeft(labels + [l], c) <==> PasserLeft(labels, c) || l == AtLink(c, PFail) || l == AtLink(c, PEnd)
  {
    Snoc(labels, l);
    FlatMapSnoc(PTakeBy(c), labels, l);
  }

  // ----- user and acceptor -----

  lemma {:induction false} AddsToBasics(labels: seq<Label>, l: Label)
    ensures Asks(labels + [l]) == Asks(labels) + AskBy(l)
    ensures Streams(labels + [l]) == Streams(labels) + StreamBy(l)
    ensures Gone(labels + [l]) == Gone(labels) + if l.User? && l.user.Abandon? then {l.user.tx} else {}
    ensures User(DropEvents) in labels + [l] <==> User(DropEvents) in labels || l == User(DropEvents)
  {
    Snoc(labels, l);
    FlatMapSnoc(AskBy, labels, l);
    FlatMapSnoc(StreamBy, labels, l);
    GoneStep(labels, l);
  }

  lemma UserBasics(s: System, l: UserLabel)
    requires UserCan(s, l)
    ensures var d := UserDoes(s, l);
            && d.calls == s.calls + AskBy(User(l)) && d.gone == s.gone + (if l.Abandon? then {l.tx} else {})
            && d.userOpen == (s.userOpen && l != DropEvents)
  {
    Nothing(s.calls);
  }

  lemma {:induction false} AcceptorStep(s: System, labels: seq<Label>, l: AcceptorLabel)
    requires BasicsRead(s, labels) && AcceptorCan(s, l)
    ensures BasicsRead(AcceptorDoes(s, l), labels + [Accepting(l)])
  {
    StepFrame(s, Accepting(l));
    AddsToBasics(labels, Accepting(l));
    Snoc(labels, Accepting(l));
    CountStays(s, Accepting(l));
    AddrsStay(s, Accepting(l));
    Nothing(Asks(labels));
    Nothing(Streams(labels));
  }

  lemma {:induction false} BasicsStep(s: System, labels: seq<Label>, l: Label)
    requires BasicsRead(s, labels) && Enabled(s, l)
    ensures BasicsRead(Apply(s, l), labels + [l])
  {
    if l.Accepting? {
      AcceptorStep(s, labels, l.acceptor);
    } else {
      StepFrame(s, l);
      AddsToBasics(labels, l);
      Snoc(labels, l);
      CountStays(s, l);
      AddrsStay(s, l);
      Nothing(Asks(labels));
      Nothing(Streams(labels));
      if l.User? {
        UserBasics(s, l.user);
      }
    }
  }

  lemma GoneStep(labels: seq<Label>, l: Label)
    ensures Gone(labels + [l]) == Gone(labels) + if l.User? && l.user.Abandon? then {l.user.tx} else {}
  {
    Snoc(labels, l);
  }

  lemma CountStays(s: System, l: Label)
    requires Enabled(s, l)
    ensures |Apply(s, l).links| == |s.links| + (if l.Accepting? && l.acceptor.Accept? then 1 else 0)
    ensures l.Accepting? && l.acceptor.Accept? ==> Apply(s, l).links[|s.links|].addr == l.acceptor.addr
  {}

  // ----- the Server's queue, and the Server -----

  /** A label that is not of the Server may only put something into its queue. */
  lemma {:induction false} Arrives(s: System, labels: seq<Label>, l: Label)
    requires BasicsRead(s, labels) && LinksRead(s, labels) && Enabled(s, l) && !l.Serving?
    ensures var d := Apply(s, l);
            d.srv == s.srv && d.shown == s.shown && d.queue == s.queue + ArrivedBy(labels, l)
    ensures s.srv.at.Stopped? ==> ArrivedBy(labels, l) == []
  {
    StepFrame(s, l);
    Nothing(s.queue);
    match l
    case User(l) => UserArrives(s, labels, l);
    case Accepting(l) => AcceptorArrives(s, labels, l);
    case AtLink(c, l) => PasserArrives(s, labels, c, l);
  }

  lemma UserArrives(s: System, labels: seq<Label>, l: UserLabel)
    requires s.calls == Asks(labels) && UserCan(s, l)
    ensures UserDoes(s, l).queue == s.queue + ArrivedBy(labels, User(l))
    ensures s.srv.at.Stopped? ==> ArrivedBy(labels, User(l)) == []
  {
    Nothing(s.queue);
  }

  lemma AcceptorArrives(s: System, labels: seq<Label>, l: AcceptorLabel)
    requires BasicsRead(s, labels) && AcceptorCan(s, l)
    ensures AcceptorDoes(s, l).queue == s.queue + ArrivedBy(labels, Accepting(l))
    ensures s.srv.at.Stopped? ==> ArrivedBy(labels, Accepting(l)) == []
  {
    Nothing(s.queue);
  }

  lemma {:induction false} PasserArrives(s: System, labels: seq<Label>, c: ConnId, l: LinkLabel)
    requires BasicsRead(s, labels) && LinksRead(s, labels) && LinkCan(s, c, l)
    ensures LinkSystem(s, c, l).queue == s.queue + ArrivedBy(labels, AtLink(c, l))
    ensures s.srv.at.Stopped? ==> ArrivedBy(labels, AtLink(c, l)) == []
  {
    Nothing(s.queue);
    assert LinkRead(s.links[c], labels, c);
  }

  lemma {:induction false} OthersRead(s: System, labels: seq<Label>, l: Label)
    requires ServerRead(s, labels) && BasicsRead(s, labels) && LinksRead(s, labels) && Enabled(s, l) && !l.Serving?
    ensures ServerRead(Apply(s, l), labels + [l])
  {
    AddsToServer(labels, l);
    Arrives(s, labels, l);
    Nothing(ServerInputs(labels));
    var taken := FlatMap(TakeIn, ServerInputs(labels));
    E.QueuePut(taken, s.queue, Arrived(labels), ArrivedBy(labels, l), s.srv.at.Stopped?);
  }

  /** The input the labels call for is the one the Server gets. */
  lemma {:induction false} OneInput(s: System, labels: seq<Label>, l: ServerLabel) returns (i: Input)
    requires ServerRead(s, labels) && BasicsRead(s, labels) && LinksRead(s, labels) && ServerCan(s, l)
    ensures ServerInputBy(labels, l) == [i] && CanTake(s.srv, i) && ServerDoes(s, l).srv == Next(s.srv, i)
    ensures TakeIn(i) == if l.STake? then [s.queue[0]] else []
    ensures ServerDoes(s, l).shown == s.shown + if i == Shown(true) then Law.Showing(s.srv.at) else []
  {
    Nothing(s.shown);
    match l
    case STake =>
      E.QueueTake(FlatMap(TakeIn, ServerInputs(labels)), s.queue, Arrived(labels));
      i := Take(s.queue[0]);
    case SHand =>
      Law.ServerIsLawful(ServerInputs(labels));
      assert LinkRead(s.links[s.srv.at.conn], labels, s.srv.at.conn);
      i := Handed(!s.links[s.srv.at.conn].conn.at.Returned?);
    case SEmit => i := Shown(s.userOpen);
    case STell(a) => i := Told(a);
    case SStop => i := AllTold;
  }

  lemma ServerQueue(s: System, l: ServerLabel)
    requires ServerCan(s, l)
    ensures var d := ServerDoes(s, l);
            && !s.srv.at.Stopped? && (d.srv.at.Stopped? <==> l.SStop?)
            && (!l.SStop? ==> d.queue == if l.STake? then s.queue[1..] else s.queue)
  {}

  lemma {:induction false} OwnRead(s: System, labels: seq<Label>, l: ServerLabel)
    requires ServerRead(s, labels) && BasicsRead(s, labels) && LinksRead(s, labels) && ServerCan(s, l)
    ensures ServerRead(ServerDoes(s, l), labels + [Serving(l)])
  {
    var inputs := ServerInputs(labels);
    AddsToServer(labels, Serving(l));
    Nothing(Arrived(labels));
    var i := OneInput(s, labels, l);
    ServerQueue(s, l);
    if l.STake? {
      E.QueueTake(FlatMap(TakeIn, inputs), s.queue, Arrived(labels));
    }
    AfterSnoc(TryNext, START, inputs, i);
    FlatMapSnoc(TakeIn, inputs, i);
    Nothing(FlatMap(TakeIn, inputs));
    Law.ServerIsLawful(inputs);
    ShowsSnoc(inputs, i);
  }

  lemma {:induction false} ShowsSnoc(inputs: seq<Input>, i: Input)
    ensures Law.Shows(inputs + [i]) == Law.Shows(inputs) + if i == Shown(true) then Law.ToShow(inputs) else []
  {
    Law.Snoc(inputs, i);
  }

  lemma {:induction false} ServerReadStep(s: System, labels: seq<Label>, l: Label)
    requires ServerRead(s, labels) && BasicsRead(s, labels) && LinksRead(s, labels) && Enabled(s, l)
    ensures ServerRead(Apply(s, l), labels + [l])
  {
    if l.Serving? {
      OwnRead(s, labels, l.server);
    } else {
      OthersRead(s, labels, l);
    }
  }

  // ----- the connections -----

  /** The label does not concern connection c. */
  lemma {:induction false} LinkUntouched(k: Link, labels: seq<Label>, l: Label, c: ConnId)
    requires LinkRead(k, labels, c) && !(l.AtLink? && l.conn == c) && DeliveredBy(labels, l, c) == []
    ensures LinkRead(k, labels + [l], c)
  {
    AddsToLink(labels, l, c);
    Nothing(LinkInputs(labels, c));
    Nothing(Emissions(labels, c));
    Nothing(Delivered(labels, c));
  }

  lemma {:induction false} StillNothing(labels: seq<Label>, l: Label, c: ConnId)
    requires NothingYet(labels, c) && !(l.AtLink? && l.conn == c) && DeliveredBy(labels, l, c) == []
    ensures NothingYet(labels + [l], c)
  {
    AddsToLink(labels, l, c);
  }

  /** Something is put into the queue of connection c. */
  lemma {:induction false} LinkDelivered(k: Link, labels: seq<Label>, l: Label, c: ConnId, m: ConnectionMessage)
    requires LinkRead(k, labels, c) && !l.AtLink? && DeliveredBy(labels, l, c) == [m] && !k.conn.at.Returned?
    ensures LinkRead(k.(ext := k.ext + [m]), labels + [l], c)
  {
    AddsToLink(labels, l, c);
    Nothing(LinkInputs(labels, c));
    Nothing(Emissions(labels, c));
    E.QueuePut(FlatMap(E.ExternalIn, LinkInputs(labels, c)), k.ext, Delivered(labels, c), [m], false);
  }

  /** Of all links only link c takes something, and that only if its Connection is there. */
  ghost predicate OneTakes(s: System, d: System, c: ConnId, more: seq<ConnectionMessage>) {
    && |d.links| == |s.links| && |more| <= 1 && (c >= |s.links| ==> more == [])
    && (c < |s.links| ==>
          && d.links[c] == s.links[c].(ext := s.links[c].ext + more)
          && (more != [] ==> !s.links[c].conn.at.Returned?))
  }

  lemma HandLinks(s: System, c: ConnId)
    requires ServerCan(s, SHand)
    ensures OneTakes(s, ServerDoes(s, SHand), c,
                     if c == s.srv.at.conn && !s.links[c].conn.at.Returned? then [HandedMessage(s.srv.at)] else [])
  {
    if c < |s.links| {
      Nothing(s.links[c].ext);
    }
  }

  lemma TellLinks(s: System, a: Addr, c: ConnId)
    requires ServerCan(s, STell(a))
    ensures OneTakes(s, ServerDoes(s, STell(a)), c,
                     if c == s.srv.connections[a] && !s.links[c].conn.at.Returned? then [CClose] else [])
  {
    if c < |s.links| {
      Nothing(s.links[c].ext);
    }
  }

  lemma RestLinks(s: System, l: ServerLabel, c: ConnId)
    requires ServerCan(s, l) && !l.SHand? && !l.STell?
    ensures OneTakes(s, ServerDoes(s, l), c, [])
  {
    if c < |s.links| {
      Nothing(s.links[c].ext);
    }
  }

  lemma {:induction false} HandIsRead(s: System, labels: seq<Label>, c: ConnId)
    requires Law.Carrying(s.srv.at) == Law.InHand(ServerInputs(labels)) && ServerCan(s, SHand)
    requires c < |s.links| ==> (s.links[c].conn.at.Returned? <==> Returned(labels, c))
    ensures DeliveredBy(labels, Serving(SHand), c) ==
      if c == s.srv.at.conn && !s.links[c].conn.at.Returned? then [HandedMessage(s.srv.at)] else []
  {}

  lemma {:induction false} TellIsRead(s: System, labels: seq<Label>, a: Addr, c: ConnId)
    requires Law.EntryAgrees(s.srv, ServerInputs(labels), a) && ServerCan(s, STell(a))
    requires c < |s.links| ==> (s.links[c].conn.at.Returned? <==> Returned(labels, c))
    ensures DeliveredBy(labels, Serving(STell(a)), c) ==
      if c == s.srv.connections[a] && !s.links[c].conn.at.Returned? then [CClose] else []
  {}

  lemma {:induction false} LawfulServer(s: System, labels: seq<Label>)
    requires ServerRead(s, labels)
    ensures Law.Carrying(s.srv.at) == Law.InHand(ServerInputs(labels))
    ensures forall a :: Law.EntryAgrees(s.srv, ServerInputs(labels), a)
  {
    Law.ServerIsLawful(ServerInputs(labels));
  }

  /** What the Server puts into the queues of the connections. */
  lemma {:induction false} Delivers(s: System, labels: seq<Label>, l: ServerLabel, c: ConnId)
    requires ServerRead(s, labels) && LinksRead(s, labels) && ServerCan(s, l)
    ensures OneTakes(s, ServerDoes(s, l), c, DeliveredBy(labels, Serving(l), c))
  {
    LawfulServer(s, labels);
    assert c < |s.links| ==> LinkRead(s.links[c], labels, c);
    match l
    case SHand =>
      HandLinks(s, c);
      HandIsRead(s, labels, c);
    case STell(a) =>
      TellLinks(s, a, c);
      TellIsRead(s, labels, a, c);
    case _ => RestLinks(s, l, c);
  }

  lemma {:induction false} ServerLinks(s: System, labels: seq<Label>, l: ServerLabel)
    requires ServerRead(s, labels) && LinksRead(s, labels) && ServerCan(s, l)
    ensures LinksRead(ServerDoes(s, l), labels + [Serving(l)])
  {
    var d := ServerDoes(s, l);
    Delivers(s, labels, l, 0);
    forall c | 0 <= c < |s.links|
      ensures LinkRead(d.links[c], labels + [Serving(l)], c)
    {
      Delivers(s, labels, l, c);
      Nothing(s.links[c].ext);
      if DeliveredBy(labels, Serving(l), c) == [] {
        LinkUntouched(s.links[c], labels, Serving(l), c);
      } else {
        LinkDelivered(s.links[c], labels, Serving(l), c, DeliveredBy(labels, Serving(l), c)[0]);
      }
    }
    forall c: ConnId | c >= |s.links|
      ensures NothingYet(labels + [Serving(l)], c)
    {
      Delivers(s, labels, l, c);
      StillNothing(labels, Serving(l), c);
    }
  }

  lemma {:induction false} QuietLinks(s: System, labels: seq<Label>, l: Label)
    requires LinksRead(s, labels) && Enabled(s, l) && (l.User? || (l.Accepting? && !l.acceptor.Accept?))
    ensures LinksRead(Apply(s, l), labels + [l])
  {
    LinksStay(s, l);
    forall c | 0 <= c < |s.links|
      ensures LinkRead(s.links[c], labels + [l], c)
    {
      LinkUntouched(s.links[c], labels, l, c);
    }
    forall c: ConnId | c >= |s.links|
      ensures NothingYet(labels + [l], c)
    {
      StillNothing(labels, l, c);
    }
  }

  lemma LinksStay(s: System, l: Label)
    requires Enabled(s, l) && (l.User? || (l.Accepting? && !l.acceptor.Accept?))
    ensures Apply(s, l).links == s.links
  {}

  lemma FirstRead(k: Link, labels: seq<Label>, c: ConnId)
    requires NothingYet(labels, c) && k == Link(k.addr, C.INIT, [], [], PWaiting, [])
    ensures LinkRead(k, labels, c)
  {}

  lemma {:induction false} NewLinkAt(s: System, labels: seq<Label>, a: Addr, c: ConnId)
    requires LinksRead(s, labels) && c <= |s.links|
    ensures LinkRead((s.links + [Link(a, C.INIT, [], [], PWaiting, [])])[c], labels + [Accepting(Accept(a))], c)
  {
    if c < |s.links| {
      LinkUntouched(s.links[c], labels, Accepting(Accept(a)), c);
    } else {
      StillNothing(labels, Accepting(Accept(a)), c);
      FirstRead(Link(a, C.INIT, [], [], PWaiting, []), labels + [Accepting(Accept(a))], c);
    }
  }

  lemma {:induction false} NewLink(s: System, labels: seq<Label>, a: Addr)
    requires LinksRead(s, labels) && s.acceptor.Listening?
    ensures LinksRead(AcceptorDoes(s, Accept(a)), labels + [Accepting(Accept(a))])
  {
    forall c | 0 <= c <= |s.links|
      ensures LinkRead(AcceptorDoes(s, Accept(a)).links[c], labels + [Accepting(Accept(a))], c)
    {
      NewLinkAt(s, labels, a, c);
    }
    forall c: ConnId | c > |s.links|
      ensures NothingYet(labels + [Accepting(Accept(a))], c)
    {
      StillNothing(labels, Accepting(Accept(a)), c);
    }
  }

  // ----- a step of a connection or of its passer -----

  /** A step of the passer adds to the count of what it took, at most. */
  lemma {:induction false} PasserAdds(labels: seq<Label>, c: ConnId, l: LinkLabel)
    requires l.PTake? || l.PPush? || l.PFail? || l.PEnd?
    ensures var all := labels + [AtLink(c, l)];
            && LinkInputs(all, c) == LinkInputs(labels, c) && Emissions(all, c) == Emissions(labels, c)
            && Delivered(all, c) == Delivered(labels, c)
            && PTakes(all, c) == PTakes(labels, c) + (if l.PTake? then 1 else 0)
            && (Returned(all, c) <==> Returned(labels, c))
            && (PasserLeft(all, c) <==> PasserLeft(labels, c) || l.PFail? || l.PEnd?)
  {
    AddsToLink(labels, AtLink(c, l), c);
    Nothing(LinkInputs(labels, c));
    Nothing(Emissions(labels, c));
    Nothing(Delivered(labels, c));
  }

  lemma PasserDoes(s: System, c: ConnId, l: LinkLabel)
    requires LinkCan(s, c, l) && (l.PTake? || l.PPush? || l.PFail? || l.PEnd?)
    ensures var k, d := s.links[c], LinkDoes(s.links[c], c, l, s);
            && d == k.(passer := d.passer, events := d.events) && !k.passer.PExited?
            && (l.PTake? ==> k.events != [] && d.passer == PHolding(k.events[0]) && d.events == k.events[1..])
            && (l.PPush? ==> d.passer == PWaiting && d.events == k.events)
            && (l.PFail? || l.PEnd? ==> d.passer.PExited?)
  {}

  lemma {:induction false} PasserRead(s: System, labels: seq<Label>, c: ConnId, l: LinkLabel)
    requires LinkCan(s, c, l) && LinkRead(s.links[c], labels, c) && (l.PTake? || l.PPush? || l.PFail? || l.PEnd?)
    ensures LinkRead(LinkDoes(s.links[c], c, l, s), labels + [AtLink(c, l)], c)
  {
    PasserAdds(labels, c, l);
    PasserDoes(s, c, l);
    if l.PTake? {
      E.TailTake(Emissions(labels, c), PTakes(labels, c));
    }
  }

  lemma {:induction false} LinkInput(s: System, labels: seq<Label>, c: ConnId, l: LinkLabel) returns (i: C.Input)
    requires LinkCan(s, c, l) && LinkRead(s.links[c], labels, c) && s.gone == Gone(labels)
    requires !l.PTake? && !l.PPush? && !l.PFail? && !l.PEnd?
    ensures LinkInputBy(labels, l, c) == [i] && C.CanTake(s.links[c].conn, i)
    ensures LinkDoes(s.links[c], c, l, s).conn == C.Next(s.links[c].conn, i)
    ensures E.ExternalIn(i) == if l.LTake? then [s.links[c].ext[0]] else []
  {
    var k := s.links[c];
    match l
    case LTake =>
      E.QueueTake(FlatMap(E.ExternalIn, LinkInputs(labels, c)), k.ext, Delivered(labels, c));
      i := C.External(k.ext[0]);
    case LHear(m) => i := C.Internal(m, s.gone);
    case LSent(ok) => i := C.Sent(ok);
    case LOffer => i := C.Offered(!k.passer.PExited?);
    case LReceiverClosed => i := C.ReceiverClosed;
    case LSenderClosed => i := C.SenderClosed(s.gone);
    case LOfferClose => i := C.CloseOffered;
  }

  /** What a step of the Connection does to its two channels. */
  lemma LinkChannels(s: System, c: ConnId, l: LinkLabel)
    requires LinkCan(s, c, l) && !l.PTake? && !l.PPush? && !l.PFail? && !l.PEnd?
    ensures var k, d := s.links[c], LinkDoes(s.links[c], c, l, s);
            && d.passer == k.passer && !k.conn.at.Returned? && (d.conn.at.Returned? <==> l.LOfferClose?)
            && (!l.LOfferClose? ==> d.ext == if l.LTake? then k.ext[1..] else k.ext)
            && d.emitted == k.emitted + EmittedNow(k, l) && d.events == k.events + EmittedNow(k, l)
  {
    Nothing(s.links[c].emitted);
    Nothing(s.links[c].events);
  }

  function EmittedNow(k: Link, l: LinkLabel): seq<ConnectionEvent> {
    if k.passer.PExited? then []
    else if l.LOffer? then k.conn.at.UserHand()
    else if l.LOfferClose? then [EClose]
    else []
  }

  lemma {:induction false} EmittedAsRead(k: Link, labels: seq<Label>, c: ConnId, l: LinkLabel)
    requires LinkRead(k, labels, c)
    ensures EmittedNow(k, l) == EmissionBy(labels, AtLink(c, l), c)
  {
    ConnLaw.ConnectionDoes(LinkInputs(labels, c));
  }

  lemma {:induction false} ConnectionRead(s: System, labels: seq<Label>, c: ConnId, l: LinkLabel)
    requires LinkCan(s, c, l) && LinkRead(s.links[c], labels, c) && s.gone == Gone(labels)
    requires !l.PTake? && !l.PPush? && !l.PFail? && !l.PEnd?
    ensures LinkRead(LinkDoes(s.links[c], c, l, s), labels + [AtLink(c, l)], c)
  {
    var k, inputs := s.links[c], LinkInputs(labels, c);
    AddsToLink(labels, AtLink(c, l), c);
    Nothing(Delivered(labels, c));
    var i := LinkInput(s, labels, c, l);
    LinkChannels(s, c, l);
    EmittedAsRead(k, labels, c, l);
    AfterSnoc(C.TryNext, C.INIT, inputs, i);
    FlatMapSnoc(E.ExternalIn, inputs, i);
    Nothing(FlatMap(E.ExternalIn, inputs));
    if l.LTake? {
      E.QueueTake(FlatMap(E.ExternalIn, inputs), k.ext, Delivered(labels, c));
    }
    E.DropLater(Emissions(labels, c), EmissionBy(labels, AtLink(c, l), c), PTakes(labels, c));
  }

  lemma {:induction false} OwnLinkRead(s: System, labels: seq<Label>, c: ConnId, l: LinkLabel)
    requires LinkCan(s, c, l) && LinkRead(s.links[c], labels, c) && s.gone == Gone(labels)
    ensures LinkRead(LinkDoes(s.links[c], c, l, s), labels + [AtLink(c, l)], c)
  {
    if l.PTake? || l.PPush? || l.PFail? || l.PEnd? {
      PasserRead(s, labels, c, l);
    } else {
      ConnectionRead(s, labels, c, l);
    }
  }

  lemma OneLinkChanges(s: System, c: ConnId, l: LinkLabel)
    requires LinkCan(s, c, l)
    ensures LinkSystem(s, c, l).links == s.links[c := LinkDoes(s.links[c], c, l, s)]
  {}

  lemma {:induction false} LinkStepAt(s: System, labels: seq<Label>, c: ConnId, l: LinkLabel, b: ConnId)
    requires LinkCan(s, c, l) && b < |s.links| && LinkRead(s.links[b], labels, b) && s.gone == Gone(labels)
    ensures LinkRead(s.links[c := LinkDoes(s.links[c], c, l, s)][b], labels + [AtLink(c, l)], b)
  {
    if b != c {
      LinkUntouched(s.links[b], labels, AtLink(c, l), b);
    } else {
      OwnLinkRead(s, labels, c, l);
    }
  }

  lemma {:induction false} LinkStep(s: System, labels: seq<Label>, c: ConnId, l: LinkLabel)
    requires LinksRead(s, labels) && s.gone == Gone(labels) && LinkCan(s, c, l)
    ensures LinksRead(LinkSystem(s, c, l), labels + [AtLink(c, l)])
  {
    OneLinkChanges(s, c, l);
    forall b | 0 <= b < |s.links|
      ensures LinkRead(LinkSystem(s, c, l).links[b], labels + [AtLink(c, l)], b)
    {
      LinkStepAt(s, labels, c, l, b);
    }
    forall b: ConnId | b >= |s.links|
      ensures NothingYet(labels + [AtLink(c, l)], b)
    {
      StillNothing(labels, AtLink(c, l), b);
    }
  }

  lemma {:induction false} LinksReadStep(s: System, labels: seq<Label>, l: Label)
    requires ServerRead(s, labels) && BasicsRead(s, labels) && LinksRead(s, labels) && Enabled(s, l)
    ensures LinksRead(Apply(s, l), labels + [l])
  {
    match l
    case AtLink(c, l) => LinkStep(s, labels, c, l);
    case Serving(l) => ServerLinks(s, labels, l);
    case Accepting(Accept(a)) => NewLink(s, labels, a);
    case _ => QuietLinks(s, labels, l);
  }

  // ----- every run -----

  ghost predicate SystemRead(s: System, labels: seq<Label>) {
    BasicsRead(s, labels) && ServerRead(s, labels) && LinksRead(s, labels)
  }

  lemma {:induction false} ReadStep(s: System, labels: seq<Label>, l: Label)
    requires SystemRead(s, labels) && Enabled(s, l)
    ensures SystemRead(Apply(s, l), labels + [l])
  {
    BasicsStep(s, labels, l);
    ServerReadStep(s, labels, l);
    LinksReadStep(s, labels, l);
  }

  lemma BeginRead()
    ensures SystemRead(BEGIN, [])
  {}

  /** In every run: each actor got what was put into its queues, and nothing else, in order,
      and found the others there or gone as the run says. */
  lemma {:induction false} SystemReadsRun(labels: seq<Label>, s: System)
    requires Run(BEGIN, labels) == Some(s)
    ensures SystemRead(s, labels)
  {
    BeginRead();
    if labels != [] {
      var n := |labels| - 1;
      LastApart(labels);
      var r := Run(BEGIN, labels[..n]).value;
      SystemReadsRun(labels[..n], r);
      ReadStep(r, labels[..n], labels[n]);
    }
  }

  // ----- events for a connection -----

  /** The events the Server puts into the queue of a connection are accepted for the peer, each
      once and in order, or still wait; only a connection that returned has left some behind. */
  lemma {:induction false} SentEventsReach(labels: seq<Label>, s: System, c: ConnId)
    requires Run(BEGIN, labels) == Some(s) && c < |s.links|
    ensures var k, sent := s.links[c], FlatMap(E.EventPosted, Delivered(labels, c));
            && FlatMap(ConnLaw.EventOf, k.conn.accepted) <= sent
            && (!k.conn.at.Returned? ==>
                  FlatMap(ConnLaw.EventOf, k.conn.accepted) + FlatMap(E.EventPosted, k.ext) == sent)
  {
    SystemReadsRun(labels, s);
    var k, inputs := s.links[c], LinkInputs(labels, c);
    assert LinkRead(k, labels, c);
    ConnLaw.EventsAreAccepted(inputs);
    E.TakenEvents(inputs);
    var taken := FlatMap(E.ExternalIn, inputs);
    if k.conn.at.Returned? {
      FlatMapPrefix(E.EventPosted, taken, Delivered(labels, c));
    } else {
      FlatMapConcat(E.EventPosted, taken, k.ext);
    }
  }

  // ----- news -----

  lemma {:induction false} ListeningShows(labels: seq<Label>)
    requires User(DropEvents) !in labels
    ensures Shown(false) !in ServerInputs(labels)
  {
    if labels != [] {
      var n := |labels| - 1;
      LastApart(labels);
      AddsToServer(labels[..n], labels[n]);
      ListeningShows(labels[..n]);
    }
  }

  /** While the user listens it is shown, in order, each address whose announcement found no
      entry, and no other as new; the last one may still be in the Server's hand. */
  lemma {:induction false} NewsReachUser(labels: seq<Label>, s: System)
    requires Run(BEGIN, labels) == Some(s) && s.userOpen
    ensures FlatMap(Law.NewOf, s.shown) + FlatMap(Law.NewOf, Law.Showing(s.srv.at)) == Law.News(ServerInputs(labels))
  {
    SystemReadsRun(labels, s);
    var inputs := ServerInputs(labels);
    ListeningShows(labels);
    Law.NewsAreShown(inputs);
    Law.ServerIsLawful(inputs);
  }

  // ----- eviction -----

  /** A send to a connection that has returned takes the entry of the address it was for, which
      is the address its sender named. */
  lemma {:induction false} GoneIsEvicted(labels: seq<Label>, s: System)
    requires Run(BEGIN, labels) == Some(s) && Enabled(s, Serving(SHand))
    requires s.links[s.srv.at.conn].conn.at.Returned?
    ensures Law.InHand(ServerInputs(labels)).Some?
    ensures Law.InHand(ServerInputs(labels)).value.to !in Apply(s, Serving(SHand)).srv.connections
  {
    SystemReadsRun(labels, s);
    var inputs := ServerInputs(labels);
    Law.ServerIsLawful(inputs);
    AfterSnoc(TryNext, START, inputs, Handed(false));
    Law.FailedSendEvicts(inputs);
  }

  // ----- shutdown -----

  lemma ClosingStays(s: System, l: Label)
    requires Enabled(s, l) && !s.srv.at.Running()
    ensures !Apply(s, l).srv.at.Running() && Apply(s, l).srv.connections == s.srv.connections
  {
    StepFrame(s, l);
  }

  lemma {:induction false} ClosingStaysInRun(s: System, labels: seq<Label>, r: System)
    requires Run(s, labels) == Some(r) && !s.srv.at.Running()
    ensures !r.srv.at.Running() && r.srv.connections == s.srv.connections
  {
    if labels != [] {
      var n := |labels| - 1;
      ClosingStaysInRun(s, labels[..n], Run(s, labels[..n]).value);
      ClosingStays(Run(s, labels[..n]).value, labels[n]);
    }
  }

  /** Once the Server takes a Close it never serves again, and when it has stopped each
      connection that was registered then was told to close, or had returned. */
  lemma {:induction false} CloseIsFinal(past: seq<Label>, s: System, labels: seq<Label>, r: System)
    requires Run(BEGIN, past) == Some(s) && Enabled(s, Serving(STake)) && s.queue[0] == MClose
    requires Run(Apply(s, Serving(STake)), labels) == Some(r)
    ensures !r.srv.at.Running() && r.srv.connections == s.srv.connections
    ensures r.srv.at.Stopped? ==> forall a | a in s.srv.connections :: Registry.ToldOrGone(r, s.srv.connections[a])
  {
    var d := Apply(s, Serving(STake));
    AfterSnoc(TryApply, BEGIN, past, Serving(STake));
    TakesClose(s);
    ClosingStaysInRun(d, labels, r);
    AfterConcat(TryApply, BEGIN, past + [Serving(STake)], labels);
    if r.srv.at.Stopped? {
      forall a | a in s.srv.connections
        ensures Registry.ToldOrGone(r, s.srv.connections[a])
      {
        Runs.ShutdownReachesAll(past + [Serving(STake)] + labels, r, a);
      }
    }
  }

  lemma TakesClose(s: System)
    requires Enabled(s, Serving(STake)) && s.queue[0] == MClose
    ensures var d := Apply(s, Serving(STake)); !d.srv.at.Running() && d.srv.connections == s.srv.connections
  {}

  // ----- who was told to close -----

  lemma ToldByServer(s: System, l: ServerLabel)
    requires ServerCan(s, l)
    ensures ServerDoes(s, l).told ==
      if l.STell? && !s.links[s.srv.connections[l.addr]].conn.at.Returned? then s.told + {s.srv.connections[l.addr]}
      else s.told
  {}

  lemma {:induction false} ToldInStep(s: System, labels: seq<Label>, l: ServerLabel, c: ConnId)
    requires ServerRead(s, labels) && LinksRead(s, labels) && ServerCan(s, l)
    ensures c in ServerDoes(s, l).told <==> c in s.told || CClose in DeliveredBy(labels, Serving(l), c)
  {
    LawfulServer(s, labels);
    ToldByServer(s, l);
    assert c < |s.links| ==> LinkRead(s.links[c], labels, c);
    match l
    case SHand => HandIsRead(s, labels, c);
    case STell(a) => TellIsRead(s, labels, a, c);
    case _ => assert DeliveredBy(labels, Serving(l), c) == [];
  }

  lemma {:induction false} ToldStep(s: System, labels: seq<Label>, l: Label, c: ConnId)
    requires ServerRead(s, labels) && LinksRead(s, labels) && Enabled(s, l)
    ensures c in Apply(s, l).told <==> c in s.told || CClose in DeliveredBy(labels, l, c)
  {
    if l.Serving? {
      ToldInStep(s, labels, l.server, c);
    } else {
      StepFrame(s, l);
    }
  }

  /** Told to close are those a Close was put into the queue of. */
  lemma {:induction false} ToldIsDelivered(labels: seq<Label>, s: System, c: ConnId)
    requires Run(BEGIN, labels) == Some(s)
    ensures c in s.told <==> CClose in Delivered(labels, c)
  {
    if labels != [] {
      var n := |labels| - 1;
      LastApart(labels);
      var r := Run(BEGIN, labels[..n]).value;
      SystemReadsRun(labels[..n], r);
      ToldIsDelivered(labels[..n], r, c);
      ToldStep(r, labels[..n], labels[n], c);
      AddsToLink(labels[..n], labels[n], c);
    }
  }
}
