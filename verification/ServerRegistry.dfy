/** The registry and the lives of the connections it names. */
module ServerRegistry {
  import opened Messages
  import opened Sequences
  import opened ServerCore
  import opened ServerSystem
  import opened ServerInvariants
  import opened ServerMerge
  import C = ConnectionCore

  // ----- who has departed -----

  ghost predicate DepartedIn(log: seq<RegistryOp>, c: ConnId) {
    exists i | 0 <= i < |log| :: log[i].Departed? && log[i].conn == c
  }

  /** A connection that was removed has returned from `run`; and the Closes the server has
      handled are those it has shown or is about to show. */
  ghost predicate Removals(s: System) {
    && (forall op | op in s.srv.log && !op.Announced? :: op.conn < |s.links| && s.links[op.conn].conn.at.Returned?)
    && (s.srv.at.Running() ==> forall c: ConnId :: DepartedIn(s.srv.log, c) <==> EClose in Handled(s, c))
  }

  lemma ReturnedStays(s: System, l: Label, c: ConnId)
    requires Enabled(s, l) && c < |s.links| && s.links[c].conn.at.Returned?
    ensures c < |Apply(s, l).links| && Apply(s, l).links[c].conn.at.Returned?
  {}

  lemma {:induction false} DepartedGrows(log: seq<RegistryOp>, op: RegistryOp, c: ConnId)
    ensures DepartedIn(log + [op], c) <==> DepartedIn(log, c) || (op.Departed? && op.conn == c)
  {
    var log' := log + [op];
    assert log'[|log|] == op && forall i | 0 <= i < |log| :: log'[i] == log[i];
  }

  /** The Close in front of the server comes from a Connection that has returned. */
  lemma {:induction false} FrontCloseReturned(s: System)
    requires LinksOk(s.links, s.srv.at.Stopped?) && Tagged(s) && Merged(s)
    requires s.srv.at.Idle? && s.queue != [] && s.queue[0].MConnectionEvent? && s.queue[0].event == EClose
    ensures s.queue[0].src < |s.links| && s.links[s.queue[0].src].conn.at.Returned?
  {
    var c := s.queue[0].src;
    assert QueueTag(s.links, s.queue[0]);
    assert MergedAt(s, c) && LinkOk(s.links[c]);
    FlatMapHas(MessageOf(c), s.queue, s.queue[0], EClose);
    assert EClose in Waiting(s, c);
  }

  lemma {:induction false} TakeRemovals(s: System)
    requires LinksOk(s.links, s.srv.at.Stopped?) && Tagged(s) && Merged(s) && Removals(s) && ServerCan(s, STake)
    ensures Removals(ServerDoes(s, STake))
  {
    var s' := ServerDoes(s, STake);
    var m := s.queue[0];
    if m.MConnectionEvent? && m.event == EClose {
      FrontCloseReturned(s);
      var op := Departed(m.from, m.src);
      assert s'.srv.log == s.srv.log + [op];
      forall c: ConnId
        ensures DepartedIn(s'.srv.log, c) <==> EClose in Handled(s', c)
      {
        DepartedGrows(s.srv.log, op, c);
        TakeHand(s, c);
        assert Handled(s', c) == Handled(s, c) + MessageOf(c)(m);
      }
    } else if m.MNewConnection? {
      var op := Announced(m.addr, m.conn);
      assert s'.srv.log == s.srv.log + [op];
      forall c: ConnId
        ensures DepartedIn(s'.srv.log, c) <==> EClose in Handled(s', c)
      {
        DepartedGrows(s.srv.log, op, c);
        assert Handled(s', c) == Handled(s, c);
      }
    } else if s'.srv.at.Running() {
      forall c: ConnId
        ensures DepartedIn(s'.srv.log, c) <==> EClose in Handled(s', c)
      {
        TakeHand(s, c);
        assert EClose !in MessageOf(c)(m);
      }
    }
  }

  lemma {:induction false} HandRemovals(s: System)
    requires Removals(s) && ServerCan(s, SHand)
    ensures Removals(ServerDoes(s, SHand))
  {
    var s' := ServerDoes(s, SHand);
    if s.links[s.srv.at.conn].conn.at.Returned? {
      var op := Evicted(s.srv.at.to, s.srv.at.conn);
      assert s'.srv.log == s.srv.log + [op];
      forall c: ConnId
        ensures DepartedIn(s'.srv.log, c) <==> EClose in Handled(s', c)
      {
        DepartedGrows(s.srv.log, op, c);
        assert Handled(s', c) == Handled(s, c);
      }
    } else {
      assert forall c: ConnId :: Handled(s', c) == Handled(s, c);
    }
  }

  lemma {:induction false} ShowRemovals(s: System)
    requires Removals(s) && ServerCan(s, SEmit)
    ensures Removals(ServerDoes(s, SEmit))
  {
    var s' := ServerDoes(s, SEmit);
    if s'.srv.at.Running() {
      forall c: ConnId
        ensures Handled(s', c) == Handled(s, c)
      {
        if s.userOpen {
          FlatMapSnoc(EventOf(c), s.shown, s.srv.at.event);
        }
      }
    }
  }

  lemma {:induction false} RemovalsStep(s: System, l: Label)
    requires LinksOk(s.links, s.srv.at.Stopped?) && Tagged(s) && Merged(s) && Removals(s) && Enabled(s, l)
    ensures Removals(Apply(s, l))
  {
    var s' := Apply(s, l);
    match l
    case Serving(STake) => TakeRemovals(s);
    case Serving(SHand) => HandRemovals(s);
    case Serving(SEmit) => ShowRemovals(s);
    case _ =>
      assert s'.srv.log == s.srv.log && s'.shown == s.shown && (s'.srv.at.Running() ==> s'.srv.at == s.srv.at);
      forall op | op in s.srv.log && !op.Announced?
        ensures op.conn < |s'.links| && s'.links[op.conn].conn.at.Returned?
      {
        ReturnedStays(s, l, op.conn);
      }
      assert s'.srv.at.Running() ==> forall c: ConnId :: Handled(s', c) == Handled(s, c);
  }

  // ----- who has been told to close -----

  ghost predicate ToldOrGone(s: System, c: ConnId) {
    c in s.told || (c < |s.links| && s.links[c].conn.at.Returned?)
  }

  ghost predicate WillClose(s: System, c: ConnId) {
    c < |s.links| && (CClose in s.links[c].ext || !s.links[c].conn.at.Running())
  }

  /** A Close that was handed over is still in the queue, or the Connection has left its loop;
      and when the server is done closing nobody was left out. */
  ghost predicate Farewells(s: System) {
    && (forall c | c in s.told :: WillClose(s, c))
    && (s.srv.at.Closing? ==>
          forall a | a in s.srv.connections && a !in s.srv.at.todo :: ToldOrGone(s, s.srv.connections[a]))
    && (s.srv.at.Stopped? ==> s.queue == [] && forall a | a in s.srv.connections :: ToldOrGone(s, s.srv.connections[a]))
  }

  lemma {:induction false} LinkWillClose(s: System, d: ConnId, l: LinkLabel, c: ConnId)
    requires LinksOk(s.links, s.srv.at.Stopped?) && LinkCan(s, d, l) && WillClose(s, c)
    ensures WillClose(LinkSystem(s, d, l), c)
  {
    assert LinkOk(s.links[c]);
  }

  lemma {:induction false} WillCloseStays(s: System, l: Label, c: ConnId)
    requires LinksOk(s.links, s.srv.at.Stopped?) && Enabled(s, l) && WillClose(s, c)
    ensures WillClose(Apply(s, l), c)
  {
    match l
    case AtLink(d, l) => LinkWillClose(s, d, l, c);
    case _ =>
  }

  lemma NewlyTold(s: System, l: Label, c: ConnId)
    requires Enabled(s, l) && c in Apply(s, l).told && c !in s.told
    ensures WillClose(Apply(s, l), c)
  {
    StepFrame(s, l);
  }

  lemma ToldGrows(s: System, l: Label)
    requires Enabled(s, l)
    ensures s.told <= Apply(s, l).told
  {}

  lemma {:induction false} FarewellsStep(s: System, l: Label)
    requires LinksOk(s.links, s.srv.at.Stopped?) && Tagged(s) && Farewells(s) && Enabled(s, l)
    ensures Farewells(Apply(s, l))
  {
    var s' := Apply(s, l);
    forall c | c in s'.told
      ensures WillClose(s', c)
    {
      if c in s.told {
        WillCloseStays(s, l, c);
      } else {
        NewlyTold(s, l, c);
      }
    }
    ToldGrows(s, l);
    forall c | ToldOrGone(s, c)
      ensures ToldOrGone(s', c)
    {
      if c !in s.told {
        ReturnedStays(s, l, c);
      }
    }
    if l.Serving? {
      ToldStep(s, l.server);
    } else {
      OthersDoNotTell(s, l);
    }
  }

  lemma OthersDoNotTell(s: System, l: Label)
    requires Enabled(s, l) && !l.Serving?
    ensures Apply(s, l).srv == s.srv && (s.srv.at.Stopped? ==> Apply(s, l).queue == s.queue)
  {}

  lemma CloseTells(s: System, l: ServerLabel)
    requires Tagged(s) && ServerCan(s, l) && (l.STell? || l.SStop?)
    ensures var s' := ServerDoes(s, l);
            && s'.srv.connections == s.srv.connections
            && (l.SStop? ==> s'.srv.at.Stopped? && s'.queue == [] && s.srv.at.todo == {})
            && (l.STell? ==>
                  && s'.srv.at == Closing(s.srv.at.todo - {l.addr})
                  && ToldOrGone(s', s.srv.connections[l.addr]))
  {}

  lemma OpenStays(s: System, l: ServerLabel)
    requires ServerCan(s, l) && !l.STell? && !l.SStop?
    ensures var s' := ServerDoes(s, l);
            && s.srv.at.Running() && !s'.srv.at.Stopped?
            && (s'.srv.at.Closing? ==> s'.srv.at.todo == s'.srv.connections.Keys)
  {}

  lemma {:induction false} ToldStep(s: System, l: ServerLabel)
    requires Tagged(s) && Farewells(s) && ServerCan(s, l)
    requires forall c | ToldOrGone(s, c) :: ToldOrGone(ServerDoes(s, l), c)
    requires forall c | c in ServerDoes(s, l).told :: WillClose(ServerDoes(s, l), c)
    ensures Farewells(ServerDoes(s, l))
  {
    if l.STell? || l.SStop? {
      CloseTells(s, l);
    } else {
      OpenStays(s, l);
    }
  }

  // ----- who may have requests -----

  /** Every accepted stream came from an address of its own. */
  ghost predicate FreshAddrs(s: System) {
    forall c, d | 0 <= c < d < |s.links| :: s.links[c].addr != s.links[d].addr
  }

  ghost predicate Registered(s: System, c: ConnId) {
    c < |s.links| && s.links[c].addr in s.srv.connections && s.srv.connections[s.links[c].addr] == c
  }

  /** A connection that was ever handed anything is registered, or has returned. */
  ghost predicate Involved(s: System) {
    forall c | 0 <= c < |s.links| && (s.links[c].ext != [] || s.links[c].conn.issued != []) ::
      Registered(s, c) || s.links[c].conn.at.Returned?
  }

  lemma RegistryStays(s: System, l: Label)
    requires Enabled(s, l) && l != Serving(STake) && l != Serving(SHand)
    ensures Apply(s, l).srv.connections == s.srv.connections
  {}

  /** A Close in front of the server takes only the entry of the connection it comes from. */
  lemma {:induction false} TakeKeepsRegistered(s: System, c: ConnId)
    requires Tagged(s) && FreshAddrs(s) && ServerCan(s, STake) && Registered(s, c)
    ensures Registered(ServerDoes(s, STake), c)
            || (s.queue[0].MConnectionEvent? && s.queue[0].event == EClose && s.queue[0].src == c)
  {
    assert QueueTag(s.links, s.queue[0]);
  }

  lemma {:induction false} HandKeepsRegistered(s: System, c: ConnId)
    requires Tagged(s) && ServerCan(s, SHand) && Registered(s, c)
    ensures Registered(ServerDoes(s, SHand), c)
            || (s.srv.at.conn == c && s.srv.at.to == s.links[c].addr && s.links[c].conn.at.Returned?)
  {}

  lemma {:induction false} RegisteredStays(s: System, l: Label, c: ConnId)
    requires LinksOk(s.links, s.srv.at.Stopped?) && Tagged(s) && Merged(s) && FreshAddrs(s) && Enabled(s, l)
    requires Registered(s, c) && !s.links[c].conn.at.Returned?
    ensures Registered(Apply(s, l), c)
  {
    if l == Serving(STake) {
      TakeKeepsRegistered(s, c);
      if s.queue[0].MConnectionEvent? && s.queue[0].event == EClose {
        FrontCloseReturned(s);
      }
    } else if l == Serving(SHand) {
      HandKeepsRegistered(s, c);
    } else {
      AddrsStay(s, l);
      RegistryStays(s, l);
    }
  }

  lemma LinkGrows(s: System, d: ConnId, l: LinkLabel, c: ConnId)
    requires LinkCan(s, d, l) && c < |s.links| && s.links[c].ext == [] && s.links[c].conn.issued == []
    ensures var s' := LinkSystem(s, d, l);
            s'.links[c].ext == [] && s'.links[c].conn.issued == []
  {}

  lemma InvolvedGrows(s: System, l: Label, c: ConnId)
    requires Tagged(s) && Enabled(s, l) && c < |s.links|
    requires s.links[c].ext == [] && s.links[c].conn.issued == []
    ensures var s' := Apply(s, l);
            s'.links[c].ext != [] || s'.links[c].conn.issued != [] ==> Registered(s, c)
  {
    if l.AtLink? {
      LinkGrows(s, l.conn, l.link, c);
    }
  }

  lemma {:induction false} InvolvedStep(s: System, l: Label)
    requires LinksOk(s.links, s.srv.at.Stopped?) && Tagged(s) && Merged(s) && FreshAddrs(s) && Enabled(s, l)
    requires Involved(s)
    ensures Involved(Apply(s, l))
  {
    var s' := Apply(s, l);
    forall c | 0 <= c < |s'.links| && (s'.links[c].ext != [] || s'.links[c].conn.issued != [])
      ensures Registered(s', c) || s'.links[c].conn.at.Returned?
    {
      if c < |s.links| {
        if s.links[c].ext == [] && s.links[c].conn.issued == [] {
          InvolvedGrows(s, l, c);
        }
        if s.links[c].conn.at.Returned? {
          ReturnedStays(s, l, c);
        } else {
          RegisteredStays(s, l, c);
        }
      }
    }
  }
}
