/** What the Server must do, read off what it was given. Everything here is defined on the
    inputs alone; the lemmas say that the Server is in the state the inputs call for. */
module ServerLaws {
  import opened Messages
  import opened Machines
  import opened Sequences
  import opened ServerCore

  // ----- what the inputs call for -----

  /** The connection that was announced first since the last removal. */
  function Entry(history: seq<RegistryOp>, a: Addr): Option<ConnId> {
    if history == [] then None
    else
      var was := Entry(history[..|history| - 1], a);
      match history[|history| - 1]
      case Announced(b, c) => if b == a && was.None? then Some(c) else was
      case Departed(b, _) => if b == a then None else was
      case Evicted(b, _) => if b == a then None else was
  }

  /** Announcements, closes, and the sends to a registered connection that failed. */
  function History(inputs: seq<Input>): seq<RegistryOp>
    decreases |inputs|, 0
  {
    if inputs == [] then []
    else
      var before, i := inputs[..|inputs| - 1], inputs[|inputs| - 1];
      History(before) + HistoryBy(before, i)
  }

  function HistoryBy(before: seq<Input>, i: Input): seq<RegistryOp>
    decreases |before|, 2
  {
    match i
    case Take(MNewConnection(c, a)) => [Announced(a, c)]
    case Take(MConnectionEvent(from, EClose, src)) => [Departed(from, src)]
    case Handed(ok) =>
      var h := InHand(before);
      if !ok && h.Some? then [Evicted(h.value.to, h.value.conn)] else []
    case _ => []
  }

  /** A message for a connection, and the address the user named. */
  datatype Parcel = Parcel(to: Addr, conn: ConnId, message: ConnectionMessage)

  /** What the last input makes the Server hand to a connection: the request or the event it
      took, if the address is registered. */
  function InHand(inputs: seq<Input>): Option<Parcel>
    decreases |inputs|, 1
  {
    if inputs == [] then None
    else HandBy(inputs[..|inputs| - 1], inputs[|inputs| - 1])
  }

  function HandBy(before: seq<Input>, i: Input): Option<Parcel>
    decreases |before|, 3
  {
    match i
    case Take(MSendRequest(to, d, tx)) => Addressed(Entry(History(before), to), to, CRequest(d, tx))
    case Take(MSendEvent(to, d)) => Addressed(Entry(History(before), to), to, CEvent(d))
    case _ => None
  }

  function Addressed(c: Option<ConnId>, to: Addr, m: ConnectionMessage): Option<Parcel> {
    if c.Some? then Some(Parcel(to, c.value, m)) else None
  }

  /** What the last input makes the Server show to the user: a new entry, or what a
      connection sent. */
  function ToShow(inputs: seq<Input>): seq<ServerEvent> {
    if inputs == [] then []
    else ShowBy(inputs[..|inputs| - 1], inputs[|inputs| - 1])
  }

  function ShowBy(before: seq<Input>, i: Input): seq<ServerEvent> {
    match i
    case Take(MNewConnection(c, a)) => if Entry(History(before), a).None? then [SNew(a)] else []
    case Take(MConnectionEvent(from, EClose, src)) => [SClosed(from, src)]
    case Take(MConnectionEvent(from, EEvent(d), src)) => [SEvent(from, d, src)]
    case Take(MConnectionEvent(from, ERequest(r), src)) => [SRequest(from, r, src)]
    case _ => []
  }

  /** A Close ends the loop, and so does a user that is gone when a connection's event is shown. */
  predicate EndsLoop(before: seq<Input>, i: Input) {
    match i
    case Take(m) => m.MClose?
    case Shown(ok) => !ok && ToShow(before) != [] && !ToShow(before)[0].SNew?
    case _ => false
  }

  function LoopEnded(inputs: seq<Input>): bool {
    inputs != []
    && (LoopEnded(inputs[..|inputs| - 1]) || EndsLoop(inputs[..|inputs| - 1], inputs[|inputs| - 1]))
  }

  /** The oneshots that were let go: for want of an entry, or with a send that failed. */
  function LetGo(inputs: seq<Input>): set<Tx> {
    if inputs == [] then {}
    else
      var before, i := inputs[..|inputs| - 1], inputs[|inputs| - 1];
      LetGo(before) + LetGoBy(before, i)
  }

  function LetGoBy(before: seq<Input>, i: Input): set<Tx> {
    match i
    case Take(MSendRequest(to, _, tx)) => if Entry(History(before), to).None? then {tx} else {}
    case Handed(ok) =>
      var h := InHand(before);
      if !ok && h.Some? && h.value.message.CRequest? then {h.value.message.tx} else {}
    case _ => {}
  }

  // ----- the Server does it -----

  ghost predicate RegistryAgrees(s: Srv, inputs: seq<Input>) {
    && s.log == History(inputs)
    && forall a: Addr :: EntryAgrees(s, inputs, a)
  }

  ghost predicate EntryAgrees(s: Srv, inputs: seq<Input>, a: Addr) {
    match Entry(History(inputs), a)
    case None => a !in s.connections
    case Some(c) => a in s.connections && s.connections[a] == c
  }

  function Carrying(at: ServerAt): Option<Parcel> {
    match at
    case HandingRequest(to, c, d, tx) => Some(Parcel(to, c, CRequest(d, tx)))
    case HandingEvent(to, c, d) => Some(Parcel(to, c, CEvent(d)))
    case _ => None
  }

  function Showing(at: ServerAt): seq<ServerEvent> { if at.Emitting? then [at.event] else [] }

  /** The loop goes on until an input ends it. Inside, the Server is handing over or showing
      what its last input called for, if anything; outside, it tells every connection there is
      an entry for, and then stops. */
  ghost predicate Doing(at: ServerAt, inputs: seq<Input>) {
    && (at.Running() <==> !LoopEnded(inputs))
    && Carrying(at) == InHand(inputs) && Showing(at) == ToShow(inputs)
    && (at.Stopped? <==> AllTold in inputs)
    && ToTell(at, History(inputs), inputs)
  }

  ghost predicate Lawful(s: Srv, inputs: seq<Input>) {
    RegistryAgrees(s, inputs) && Doing(s.at, inputs) && s.dropped == LetGo(inputs)
  }

  lemma {:induction false} EntryGrows(history: seq<RegistryOp>, op: RegistryOp, a: Addr)
    ensures Entry(history + [op], a) ==
      match op
      case Announced(b, c) => if b == a && Entry(history, a).None? then Some(c) else Entry(history, a)
      case Departed(b, _) => if b == a then None else Entry(history, a)
      case Evicted(b, _) => if b == a then None else Entry(history, a)
  {
    assert (history + [op])[..|history|] == history;
  }

  lemma {:induction false} Snoc(before: seq<Input>, i: Input)
    ensures var all := before + [i]; all[..|before|] == before && all[|before|] == i
    ensures forall j :: j in before + [i] <==> j in before || j == i
  {}

  /** What one input adds to what is read off the inputs. */
  lemma {:induction false} Adds(before: seq<Input>, i: Input)
    ensures var all := before + [i];
            && History(all) == History(before) + HistoryBy(before, i)
            && InHand(all) == HandBy(before, i)
            && ToShow(all) == ShowBy(before, i)
            && LoopEnded(all) == (LoopEnded(before) || EndsLoop(before, i))
            && LetGo(all) == LetGo(before) + LetGoBy(before, i)
  {
    Snoc(before, i);
  }

  lemma {:induction false} NothingNew(s: Srv, s': Srv, before: seq<Input>, i: Input)
    requires RegistryAgrees(s, before) && HistoryBy(before, i) == []
    requires s'.connections == s.connections && s'.log == s.log
    ensures RegistryAgrees(s', before + [i])
  {
    Adds(before, i);
    Nothing(History(before));
    forall a: Addr
      ensures EntryAgrees(s', before + [i], a)
    {
      assert EntryAgrees(s, before, a);
    }
  }

  lemma {:induction false} OneNew(s: Srv, s': Srv, before: seq<Input>, i: Input, op: RegistryOp)
    requires RegistryAgrees(s, before) && HistoryBy(before, i) == [op] && s'.log == s.log + [op]
    requires s'.connections ==
      match op
      case Announced(a, c) => if a in s.connections then s.connections else s.connections[a := c]
      case Departed(a, _) => s.connections - {a}
      case Evicted(a, _) => s.connections - {a}
    ensures RegistryAgrees(s', before + [i])
  {
    Adds(before, i);
    forall a: Addr
      ensures EntryAgrees(s', before + [i], a)
    {
      assert EntryAgrees(s, before, a);
      EntryGrows(History(before), op, a);
    }
  }

  lemma {:induction false} RegistryStep(s: Srv, before: seq<Input>, i: Input)
    requires Lawful(s, before) && CanTake(s, i)
    ensures RegistryAgrees(Next(s, i), before + [i])
  {
    var s' := Next(s, i);
    if HistoryBy(before, i) == [] {
      RegistryStays(s, before, i);
      NothingNew(s, s', before, i);
    } else {
      RegistryChanges(s, before, i);
      OneNew(s, s', before, i, HistoryBy(before, i)[0]);
    }
  }

  lemma RegistryStays(s: Srv, before: seq<Input>, i: Input)
    requires Lawful(s, before) && CanTake(s, i) && HistoryBy(before, i) == []
    ensures Next(s, i).connections == s.connections && Next(s, i).log == s.log
  {}

  lemma RegistryChanges(s: Srv, before: seq<Input>, i: Input)
    requires Lawful(s, before) && CanTake(s, i) && HistoryBy(before, i) != []
    ensures var s', op := Next(s, i), HistoryBy(before, i)[0];
            && HistoryBy(before, i) == [op] && s'.log == s.log + [op]
            && s'.connections ==
               match op
               case Announced(a, c) => if a in s.connections then s.connections else s.connections[a := c]
               case Departed(a, _) => s.connections - {a}
               case Evicted(a, _) => s.connections - {a}
  {}

  lemma {:induction false} CarryStep(s: Srv, before: seq<Input>, i: Input)
    requires RegistryAgrees(s, before) && CanTake(s, i)
    ensures Carrying(Next(s, i).at) == HandBy(before, i)
  {
    match i
    case Take(MSendRequest(to, _, _)) => assert EntryAgrees(s, before, to);
    case Take(MSendEvent(to, _)) => assert EntryAgrees(s, before, to);
    case Take(_) =>
    case _ =>
  }

  lemma {:induction false} ShowStep(s: Srv, before: seq<Input>, i: Input)
    requires RegistryAgrees(s, before) && CanTake(s, i)
    ensures Showing(Next(s, i).at) == ShowBy(before, i)
  {
    match i
    case Take(MNewConnection(_, a)) => assert EntryAgrees(s, before, a);
    case Take(_) =>
    case _ =>
  }

  lemma {:induction false} LetGoStep(s: Srv, before: seq<Input>, i: Input)
    requires RegistryAgrees(s, before) && CanTake(s, i) && Carrying(s.at) == InHand(before)
    ensures Next(s, i).dropped == s.dropped + LetGoBy(before, i)
  {
    match i
    case Take(MSendRequest(to, _, _)) => assert EntryAgrees(s, before, to);
    case Take(_) =>
    case _ =>
  }

  lemma {:induction false} HandStep(s: Srv, before: seq<Input>, i: Input)
    requires Lawful(s, before) && CanTake(s, i)
    ensures Carrying(Next(s, i).at) == InHand(before + [i]) && Showing(Next(s, i).at) == ToShow(before + [i])
    ensures Next(s, i).dropped == LetGo(before + [i])
  {
    Adds(before, i);
    CarryStep(s, before, i);
    ShowStep(s, before, i);
    LetGoStep(s, before, i);
  }

  lemma Leaves(s: Srv, i: Input)
    requires CanTake(s, i)
    ensures Next(s, i).at.Running() <==>
      s.at.Running() && i != Take(MClose) && (i.Shown? && !i.ok ==> s.at.event.SNew?)
    ensures Next(s, i).at.Stopped? <==> i.AllTold?
    ensures !s.at.Stopped?
  {}

  lemma EndsIt(at: ServerAt, before: seq<Input>, i: Input)
    requires Showing(at) == ToShow(before) && (i.Shown? ==> at.Emitting?)
    ensures EndsLoop(before, i) <==> i == Take(MClose) || (i.Shown? && !i.ok && !at.event.SNew?)
  {}

  lemma {:induction false} LoopStep(s: Srv, before: seq<Input>, i: Input)
    requires Doing(s.at, before) && CanTake(s, i)
    ensures Next(s, i).at.Running() <==> !LoopEnded(before + [i])
    ensures Next(s, i).at.Stopped? <==> AllTold in before + [i]
  {
    Snoc(before, i);
    Adds(before, i);
    Leaves(s, i);
    EndsIt(s.at, before, i);
  }

  /** Whom the Server still has to tell. */
  ghost predicate ToTell(at: ServerAt, history: seq<RegistryOp>, inputs: seq<Input>) {
    && (at.Closing? ==> forall a :: a in at.todo <==> Entry(history, a).Some? && Told(a) !in inputs)
    && (at.Running() ==> forall a :: Told(a) !in inputs)
    && (at.Stopped? ==> forall a :: Entry(history, a).Some? ==> Told(a) in inputs)
  }

  lemma {:induction false} TodoStep(s: Srv, before: seq<Input>, i: Input)
    requires ToTell(s.at, History(before), before) && CanTake(s, i)
    requires RegistryAgrees(s, before) && RegistryAgrees(Next(s, i), before + [i])
    ensures ToTell(Next(s, i).at, History(before + [i]), before + [i])
  {
    var s', all := Next(s, i), before + [i];
    Snoc(before, i);
    if s.at.Closing? {
      assert s'.log == s.log && History(all) == History(before);
    } else {
      FirstTodo(s, i);
      forall a: Addr
        ensures a in s'.connections <==> Entry(History(all), a).Some?
      {
        assert EntryAgrees(s', all, a);
      }
    }
  }

  lemma FirstTodo(s: Srv, i: Input)
    requires CanTake(s, i) && !s.at.Closing?
    ensures s.at.Running() && !i.Told? && !Next(s, i).at.Stopped?
    ensures Next(s, i).at.Closing? ==> Next(s, i).at.todo == Next(s, i).connections.Keys
  {}

  lemma {:induction false} LawfulStep(s: Srv, before: seq<Input>, i: Input)
    requires Lawful(s, before) && CanTake(s, i)
    ensures Lawful(Next(s, i), before + [i])
  {
    RegistryStep(s, before, i);
    HandStep(s, before, i);
    LoopStep(s, before, i);
    TodoStep(s, before, i);
  }

  /** After any inputs: the registry, what the Server is doing, and which oneshots it has let
      go is what the inputs call for. */
  lemma {:induction false} ServerIsLawful(inputs: seq<Input>)
    requires Exec(START, inputs).Some?
    ensures Lawful(Exec(START, inputs).value, inputs)
  {
    if inputs == [] {
      assert forall a: Addr :: EntryAgrees(START, [], a);
    } else {
      var n := |inputs| - 1;
      LastApart(inputs);
      ServerIsLawful(inputs[..n]);
      LawfulStep(Exec(START, inputs[..n]).value, inputs[..n], inputs[n]);
    }
  }

  // ----- the registry -----

  lemma {:induction false} EntryMeans(history: seq<RegistryOp>, a: Addr)
    ensures match Entry(history, a)
            case None => Absent(history, a)
            case Some(c) => FirstSince(history, a, c)
  {
    if history != [] {
      var n := |history| - 1;
      LastApart(history);
      EntryMeans(history[..n], a);
      EntryGrows(history[..n], history[n], a);
      var e := Entry(history, a);
      LogGrows(history[..n], history[n], a, if e.Some? then e.value else 0);
    }
  }

  /** After any inputs an address is registered to c exactly if, by the announcements, the
      closes and the failed sends among the inputs, c was the first to announce it since its
      last removal. */
  lemma {:induction false} RegistryIsHistory(inputs: seq<Input>, a: Addr, c: ConnId)
    requires Exec(START, inputs).Some?
    ensures var s := Exec(START, inputs).value;
            a in s.connections && s.connections[a] == c <==> FirstSince(History(inputs), a, c)
  {
    ServerIsLawful(inputs);
    var s, h := Exec(START, inputs).value, History(inputs);
    assert EntryAgrees(s, inputs, a);
    EntryMeans(h, a);
    if FirstSince(h, a, c) {
      if Entry(h, a).Some? {
        FirstSinceUnique(h, a, c, Entry(h, a).value);
      } else {
        AbsentIsNotFirst(h, a, c);
      }
    }
  }

  /** A failed send leaves the address it was for without an entry. */
  lemma {:induction false} FailedSendEvicts(inputs: seq<Input>)
    requires Exec(START, inputs + [Handed(false)]).Some?
    ensures InHand(inputs).Some?
    ensures InHand(inputs).value.to !in Exec(START, inputs + [Handed(false)]).value.connections
  {
    var all := inputs + [Handed(false)];
    AfterSnoc(TryNext, START, inputs, Handed(false));
    ServerIsLawful(inputs);
    ServerIsLawful(all);
    var p := InHand(inputs).value;
    Adds(inputs, Handed(false));
    EntryGrows(History(inputs), Evicted(p.to, p.conn), p.to);
    assert EntryAgrees(Exec(START, all).value, all, p.to);
  }

  // ----- the end of the loop -----

  /** The loop is left exactly on a Close, and when a connection's event finds the user gone. */
  lemma {:induction false} LoopIsLeft(inputs: seq<Input>, i: Input)
    requires Exec(START, inputs).Some? && Exec(START, inputs).value.at.Running()
    requires CanTake(Exec(START, inputs).value, i)
    ensures Next(Exec(START, inputs).value, i).at.Running() <==> !EndsLoop(inputs, i)
  {
    ServerIsLawful(inputs);
    LawfulStep(Exec(START, inputs).value, inputs, i);
    Adds(inputs, i);
  }

  /** Once a Close was taken the loop is over for good, the registry stays as it was then, and
      everyone in it is told before the Server stops. */
  lemma {:induction false} CloseEndsLoop(inputs: seq<Input>, k: nat)
    requires Exec(START, inputs).Some? && k < |inputs| && inputs[k] == Take(MClose)
    ensures var s := Exec(START, inputs).value;
            && !s.at.Running()
            && History(inputs) == History(inputs[..k])
            && (s.at.Stopped? ==> forall a | a in s.connections :: Told(a) in inputs)
  {
    var n := |inputs| - 1;
    LastApart(inputs);
    var before, i := inputs[..n], inputs[n];
    ServerIsLawful(before);
    ServerIsLawful(inputs);
    Adds(before, i);
    if k < n {
      CloseEndsLoop(before, k);
      assert inputs[..n][..k] == inputs[..k];
      AfterLoop(Exec(START, before).value, before, i);
      Nothing(History(before));
    }
    forall a | a in Exec(START, inputs).value.connections
      ensures Exec(START, inputs).value.at.Stopped? ==> Told(a) in inputs
    {
      assert EntryAgrees(Exec(START, inputs).value, inputs, a);
    }
  }

  lemma AfterLoop(s: Srv, before: seq<Input>, i: Input)
    requires !s.at.Running() && CanTake(s, i)
    ensures HistoryBy(before, i) == [] && ShowBy(before, i) == [] && NewsBy(before, i) == []
  {}

  // ----- news -----

  /** The addresses whose announcement found no entry. */
  function News(inputs: seq<Input>): seq<Addr> {
    if inputs == [] then []
    else News(inputs[..|inputs| - 1]) + NewsBy(inputs[..|inputs| - 1], inputs[|inputs| - 1])
  }

  function NewsBy(before: seq<Input>, i: Input): seq<Addr> {
    match i
    case Take(MNewConnection(c, a)) => if Entry(History(before), a).None? then [a] else []
    case _ => []
  }

  /** What was shown to the user. */
  function Shows(inputs: seq<Input>): seq<ServerEvent> {
    if inputs == [] then []
    else
      var before := inputs[..|inputs| - 1];
      Shows(before) + if inputs[|inputs| - 1] == Shown(true) then ToShow(before) else []
  }

  function NewOf(e: ServerEvent): seq<Addr> { if e.SNew? then [e.addr] else [] }

  lemma {:induction false} NewsOfShow(before: seq<Input>, i: Input)
    ensures FlatMap(NewOf, ShowBy(before, i)) == NewsBy(before, i)
  {
    if ShowBy(before, i) != [] {
      FlatMapOne(NewOf, ShowBy(before, i)[0]);
    }
  }

  /** As long as the user listens, every new entry is shown, in order, and nothing else is
      news; the last one may still be in hand. */
  lemma {:induction false} NewsAreShown(inputs: seq<Input>)
    requires Exec(START, inputs).Some? && Shown(false) !in inputs
    ensures FlatMap(NewOf, Shows(inputs)) + FlatMap(NewOf, ToShow(inputs)) == News(inputs)
  {
    if inputs != [] {
      var n := |inputs| - 1;
      LastApart(inputs);
      var before, i := inputs[..n], inputs[n];
      ServerIsLawful(before);
      assert forall j :: j in before ==> j in inputs;
      NewsAreShown(before);
      NewsOfShow(before, i);
      ShowThenNews(Exec(START, before).value.at, before, i);
    }
  }

  lemma {:induction false} ShowThenNews(at: ServerAt, before: seq<Input>, i: Input)
    requires Showing(at) == ToShow(before) && i != Shown(false)
    requires (i.Shown? <==> at.Emitting?) && (i.Take? ==> at.Idle?)
    requires FlatMap(NewOf, Shows(before)) + FlatMap(NewOf, ToShow(before)) == News(before)
    requires FlatMap(NewOf, ShowBy(before, i)) == NewsBy(before, i)
    ensures var all := before + [i];
            FlatMap(NewOf, Shows(all)) + FlatMap(NewOf, ToShow(all)) == News(all)
  {
    Snoc(before, i);
    Nothing(Shows(before));
    Nothing(News(before));
    if i.Shown? {
      FlatMapConcat(NewOf, Shows(before), ToShow(before));
    } else {
      Nothing(FlatMap(NewOf, Shows(before)));
    }
  }
}
