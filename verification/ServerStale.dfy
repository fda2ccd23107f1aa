/** Entries of connections that are gone: how they come about, and how long they stay. */
module ServerStale {
  import opened Messages
  import opened Sequences
  import opened Machines
  import opened ServerCore
  import opened ServerSystem
  import opened ServerInvariants
  import opened ServerMerge
  import opened ServerRegistry
  import opened ServerRuns
  import C = ConnectionCore

  /** The Close of c has not been offered yet, or is on its way to the server. */
  ghost predicate CloseToCome(s: System, c: ConnId)
    requires c < |s.links|
  {
    EClose !in s.links[c].emitted || EClose in Waiting(s, c)
  }

  /** The server handled the Close of c before it was told of c. */
  ghost predicate ClosedEarly(log: seq<RegistryOp>, c: ConnId) {
    exists i, j | 0 <= i < j < |log| ::
      log[i].Departed? && log[i].conn == c && log[j].Announced? && log[j].conn == c
  }

  /** A registered connection will have its entry removed by its Close, unless the Close
      overtook the announcement; that is the one way an entry becomes stale. */
  lemma {:induction false} StaleIffClosedEarly(labels: seq<Label>, s: System, c: ConnId)
    requires Run(BEGIN, labels) == Some(s) && FreshAddrs(s) && s.srv.at.Running() && Registered(s, c)
    ensures CloseToCome(s, c) <==> !ClosedEarly(s.srv.log, c)
  {
    ReachedInv(labels, s);
    assert FirstSince(s.srv.log, s.links[c].addr, c);
    DepartedMeansHandled(s, c);
    DepartedMeansEarly(s, c);
  }

  lemma {:induction false} DepartedMeansEarly(s: System, c: ConnId)
    requires (forall op | op in s.srv.log :: OpTag(s.links, op))
    requires c < |s.links| && FirstSince(s.srv.log, s.links[c].addr, c)
    ensures DepartedIn(s.srv.log, c) <==> ClosedEarly(s.srv.log, c)
  {
    var log, a := s.srv.log, s.links[c].addr;
    if DepartedIn(log, c) {
      var j :| FirstSinceAt(log, a, c, j);
      var i :| 0 <= i < |log| && log[i].Departed? && log[i].conn == c;
      assert OpTag(s.links, log[i]);
      assert log[i].Removes(a);
      assert i < j;
    }
  }

  lemma {:induction false} NotTwice(handled: seq<ConnectionEvent>, waiting: seq<ConnectionEvent>)
    requires CloseLast(handled + waiting)
    ensures EClose !in handled || EClose !in waiting
  {
    if waiting != [] {
      forall i | 0 <= i < |handled|
        ensures handled[i] != EClose
      {
        assert (handled + waiting)[i] == handled[i];
      }
    }
  }

  lemma {:induction false} DepartedMeansHandled(s: System, c: ConnId)
    requires LinksOk(s.links, s.srv.at.Stopped?) && Merged(s) && Removals(s) && s.srv.at.Running() && c < |s.links|
    ensures CloseToCome(s, c) <==> !DepartedIn(s.srv.log, c)
  {
    assert MergedAt(s, c) && LinkOk(s.links[c]);
    NotTwice(Handled(s, c), Waiting(s, c));
  }

  /** A departed connection cannot depart again: nothing but an eviction takes its entry. */
  lemma {:induction false} DepartsOnce(s: System, c: ConnId)
    requires LinksOk(s.links, s.srv.at.Stopped?) && Merged(s) && Removals(s)
    requires s.srv.at.Running() && c < |s.links| && DepartedIn(s.srv.log, c)
    ensures EClose !in Waiting(s, c)
  {
    assert MergedAt(s, c) && LinkOk(s.links[c]);
    NotTwice(Handled(s, c), Waiting(s, c));
  }

  lemma {:induction false} StaleTake(s: System, c: ConnId)
    requires LinksOk(s.links, s.srv.at.Stopped?) && Tagged(s) && Merged(s) && Removals(s) && FreshAddrs(s)
    requires ServerCan(s, STake) && Registered(s, c) && DepartedIn(s.srv.log, c)
    ensures Registered(ServerDoes(s, STake), c)
  {
    var m := s.queue[0];
    TakeKeepsRegistered(s, c);
    DepartsOnce(s, c);
    if m.MConnectionEvent? && m.event == EClose && m.src == c {
      FlatMapHas(MessageOf(c), s.queue, m, EClose);
    }
  }

  lemma {:induction false} LogGrowsOnly(s: System, l: Label, c: ConnId)
    requires Enabled(s, l) && DepartedIn(s.srv.log, c)
    ensures s.srv.log <= Apply(s, l).srv.log && DepartedIn(Apply(s, l).srv.log, c)
  {
    var log, log' := s.srv.log, Apply(s, l).srv.log;
    assert log <= log';
    var i :| 0 <= i < |log| && log[i].Departed? && log[i].conn == c;
    assert log'[i] == log[i];
  }

  lemma {:induction false} StaleStep(s: System, l: Label, c: ConnId)
    requires LinksOk(s.links, s.srv.at.Stopped?) && Tagged(s) && Merged(s) && Removals(s) && FreshAddrs(s)
    requires Enabled(s, l) && Registered(s, c) && DepartedIn(s.srv.log, c)
    ensures Registered(Apply(s, l), c) || Evicted(s.links[c].addr, c) in Apply(s, l).srv.log
  {
    if l == Serving(STake) {
      StaleTake(s, c);
    } else if l == Serving(SHand) {
      StaleHand(s, c);
    } else {
      RegistryStays(s, l);
      AddrsStay(s, l);
    }
  }

  lemma {:induction false} StaleHand(s: System, c: ConnId)
    requires Tagged(s) && ServerCan(s, SHand) && Registered(s, c)
    ensures Registered(ServerDoes(s, SHand), c) || Evicted(s.links[c].addr, c) in ServerDoes(s, SHand).srv.log
  {
    var s' := ServerDoes(s, SHand);
    HandKeepsRegistered(s, c);
    if !Registered(s', c) {
      assert s'.srv.log[|s.srv.log|] == Evicted(s.links[c].addr, c);
    }
  }

  /** A stale entry stays until a send to it fails, however long this takes. */
  lemma {:induction false} StaleUntilEvicted(past: seq<Label>, s: System, c: ConnId, labels: seq<Label>, r: System)
    requires Run(BEGIN, past) == Some(s) && Registered(s, c) && DepartedIn(s.srv.log, c)
    requires Run(s, labels) == Some(r) && FreshAddrs(r)
    ensures ServerInv(r) && c < |r.links| && r.links[c].addr == s.links[c].addr && DepartedIn(r.srv.log, c)
    ensures Registered(r, c) || Evicted(s.links[c].addr, c) in r.srv.log
  {
    if labels == [] {
      ReachedInv(past, s);
    } else {
      var n := |labels| - 1;
      var q := Run(s, labels[..n]).value;
      AddrsStay(q, labels[n]);
      StaleUntilEvicted(past, s, c, labels[..n], q);
      ServerStep(q, labels[n]);
      LogGrowsOnly(q, labels[n], c);
      assert r == Apply(q, labels[n]);
      if Registered(q, c) {
        StaleStep(q, labels[n], c);
      }
    }
  }

  /** It does happen: the passer runs before the server is told. The peer hangs up at once,
      the Close is handled first, and the announcement registers a connection that is gone. */
  lemma {:induction false} StaleEntryIsReachable(a: Addr) returns (labels: seq<Label>, s: System)
    ensures Run(BEGIN, labels) == Some(s) && FreshAddrs(s) && s.srv.at.Running()
    ensures Registered(s, 0) && s.links[0].conn.at.Returned? && !CloseToCome(s, 0)
  {
    labels, s := ClosedBeforeAnnounced(a);
    labels, s := Go(labels, s, Accepting(Announce));
    labels, s := Go(labels, s, Serving(STake));
    assert s.links[0].events == [] && s.links[0].passer.Hand() == [] && s.queue == [];
    assert Waiting(s, 0) == [];
  }

  lemma {:induction false} ClosedBeforeAnnounced(a: Addr) returns (labels: seq<Label>, s: System)
    ensures Run(BEGIN, labels) == Some(s) && s.acceptor == Announcing(0, a) && s.queue == []
    ensures s.srv.at.Idle? && s.srv.connections == map[] && |s.links| == 1
    ensures s.links[0].addr == a && s.links[0].conn.at.Returned? && s.links[0].emitted == [EClose]
    ensures s.links[0].events == [] && s.links[0].passer.PWaiting?
  {
    labels, s := ReturnedAtOnce(a);
    labels, s := Go(labels, s, AtLink(0, PTake));
    labels, s := Go(labels, s, AtLink(0, PPush));
    labels, s := Go(labels, s, Serving(STake));
    labels, s := Go(labels, s, Serving(SEmit));
  }

  lemma {:induction false} ReturnedAtOnce(a: Addr) returns (labels: seq<Label>, s: System)
    ensures Run(BEGIN, labels) == Some(s) && s.acceptor == Announcing(0, a) && s.queue == [] && s.userOpen
    ensures s.srv == START && |s.links| == 1 && s.links[0].addr == a && s.links[0].passer.PWaiting?
    ensures s.links[0].conn.at.Returned? && s.links[0].events == s.links[0].emitted == [EClose]
  {
    labels, s := HungUp(a);
    labels, s := Go(labels, s, AtLink(0, LOfferClose));
  }

  lemma {:induction false} HungUp(a: Addr) returns (labels: seq<Label>, s: System)
    ensures Run(BEGIN, labels) == Some(s)
    ensures s == BEGIN.(acceptor := Announcing(0, a),
                        links := [Link(a, C.INIT.(at := C.OfferingClose), [], [], PWaiting, [])])
  {
    labels, s := [], BEGIN;
    labels, s := Go(labels, s, Accepting(Accept(a)));
    labels, s := Go(labels, s, AtLink(0, LHear(IClose)));
    assert s.links == [Link(a, C.INIT.(at := C.ClosingReceiver), [], [], PWaiting, [])];
    labels, s := Go(labels, s, AtLink(0, LReceiverClosed));
    labels, s := Go(labels, s, AtLink(0, LSenderClosed));
  }

  // ----- an entry lost to another connection from the same address -----

  lemma {:induction false} FirstComes(a: Addr) returns (labels: seq<Label>, s: System)
    ensures Run(BEGIN, labels) == Some(s)
    ensures s == BEGIN.(srv := Srv(map[a := 0], ServerAt.Idle, [Announced(a, 0)], {}), shown := [SNew(a)],
                        links := [Link(a, C.INIT, [], [], PWaiting, [])])
  {
    labels, s := [], BEGIN;
    labels, s := Go(labels, s, Accepting(Accept(a)));
    labels, s := Go(labels, s, Accepting(Announce));
    labels, s := Go(labels, s, Serving(STake));
    labels, s := Go(labels, s, Serving(SEmit));
  }

  /** A second connection from `a` is refused an entry, but it is there. */
  lemma {:induction false} SecondComes(a: Addr) returns (labels: seq<Label>, s: System)
    ensures Run(BEGIN, labels) == Some(s)
    ensures s == BEGIN.(srv := Srv(map[a := 0], ServerAt.Idle, [Announced(a, 0), Announced(a, 1)], {}),
                        shown := [SNew(a)],
                        links := [Link(a, C.INIT, [], [], PWaiting, []), Link(a, C.INIT, [], [], PWaiting, [])])
  {
    labels, s := FirstComes(a);
    labels, s := Go(labels, s, Accepting(Accept(a)));
    labels, s := Go(labels, s, Accepting(Announce));
    labels, s := Go(labels, s, Serving(STake));
  }

  /** A request waits in the channel of the first. */
  ghost predicate FirstAsked(s: System, a: Addr, data: Payload) {
    && |s.links| == 2 && |s.calls| == 1 && s.queue == [] && s.userOpen && s.srv.dropped == {}
    && s.links[0] == Link(a, C.INIT, [CRequest(data, 0)], [], PWaiting, [])
    && s.srv.at.Idle?
  }

  lemma {:induction false} FirstIsAsked(a: Addr, data: Payload) returns (labels: seq<Label>, s: System)
    ensures Run(BEGIN, labels) == Some(s) && FirstAsked(s, a, data) && s.srv.connections == map[a := 0]
    ensures s.links[1] == Link(a, C.INIT, [], [], PWaiting, [])
  {
    labels, s := SecondComes(a);
    labels, s := Go(labels, s, User(Call(a, data)));
    labels, s := Go(labels, s, User(Enqueue(0)));
    labels, s := Go(labels, s, Serving(STake));
    labels, s := Go(labels, s, Serving(SHand));
  }

  lemma {:induction false} SecondHangsUp(a: Addr, data: Payload) returns (labels: seq<Label>, s: System)
    ensures Run(BEGIN, labels) == Some(s) && FirstAsked(s, a, data) && s.srv.connections == map[a := 0]
    ensures s.links[1] == Link(a, C.INIT.(at := C.OfferingClose), [], [], PWaiting, [])
  {
    labels, s := FirstIsAsked(a, data);
    labels, s := Go(labels, s, AtLink(1, LHear(IClose)));
    labels, s := Go(labels, s, AtLink(1, LReceiverClosed));
    labels, s := Go(labels, s, AtLink(1, LSenderClosed));
  }

  lemma {:induction false} SecondReturns(a: Addr, data: Payload) returns (labels: seq<Label>, s: System)
    ensures Run(BEGIN, labels) == Some(s) && s.srv.connections == map[a := 0]
    ensures s.queue == [MConnectionEvent(a, EClose, 1)]
    ensures |s.links| == 2 && FirstAsked(s.(queue := []), a, data)
  {
    labels, s := SecondHangsUp(a, data);
    labels, s := Go(labels, s, AtLink(1, LOfferClose));
    labels, s := Go(labels, s, AtLink(1, PTake));
    labels, s := Go(labels, s, AtLink(1, PPush));
  }

  /** The Close of the second takes the entry of the first, which is still open: when the
      server stops nobody tells it, and its request waits. */
  lemma {:induction false} LostEntryIsReachable(a: Addr, data: Payload) returns (labels: seq<Label>, s: System)
    ensures Run(BEGIN, labels) == Some(s) && s.srv.at.Stopped? && s.srv.connections == map[]
    ensures Holds(s, Channel(0), 0) && LeftOut(s, Channel(0))
  {
    labels, s := SecondReturns(a, data);
    labels, s := Go(labels, s, Serving(STake));
    labels, s := Go(labels, s, Serving(SEmit));
    labels, s := Go(labels, s, User(Post(MClose)));
    labels, s := Go(labels, s, Serving(STake));
    labels, s := Go(labels, s, Serving(SStop));
    assert CRequest(data, 0) in s.links[0].ext;
  }
}
