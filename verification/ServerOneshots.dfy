/** Where the oneshot of a request call is, on its way from the caller through the server
    and a connection to its answer. */
module ServerOneshots {
  import opened Messages
  import opened Sequences
  import opened ServerCore
  import opened ServerSystem
  import opened ServerInvariants
  import C = ConnectionCore

  datatype Place = WithCaller | InQueue | InHand | InChannel(conn: ConnId) | Issued(conn: ConnId) | LetGo

  ghost predicate IsAt(s: System, tx: Tx, p: Place) {
    match p
    case WithCaller => tx in s.blocked
    case InQueue => tx in AskedTxs(s.queue)
    case InHand => s.srv.at.HandingRequest? && s.srv.at.tx == tx
    case InChannel(c) => c < |s.links| && tx in QueuedTxs(s.links[c].ext)
    case Issued(c) => c < |s.links| && !C.FreshTx(s.links[c].conn, tx)
    case LetGo => tx in s.lost || tx in s.srv.dropped
  }

  ghost predicate Placed(s: System, tx: Tx) {
    exists p :: IsAt(s, tx, p)
  }

  ghost predicate LinkCarries(s: System, k: Link) {
    && (forall m | m in k.ext && m.CRequest? :: m.tx < |s.calls| && s.calls[m.tx] == Ask(k.addr, m.data))
    && (forall i | 0 <= i < |k.conn.issued| ::
          k.conn.issued[i].tx < |s.calls| && s.calls[k.conn.issued[i].tx] == Ask(k.addr, k.conn.issued[i].data))
  }

  /** A request travels with what its caller asked, to the connection at the address it asked for. */
  ghost predicate Carried(s: System) {
    && (forall m | m in s.queue && m.MSendRequest? :: m.tx < |s.calls| && s.calls[m.tx] == Ask(m.to, m.data))
    && (s.srv.at.HandingRequest? ==> s.srv.at.tx < |s.calls| && s.calls[s.srv.at.tx] == Ask(s.srv.at.to, s.srv.at.data))
    && (forall c | 0 <= c < |s.links| :: LinkCarries(s, s.links[c]))
  }

  /** Every oneshot is in exactly one place. */
  ghost predicate Owned(s: System) {
    && |s.queue| <= CAPACITY
    && (forall tx: Tx :: Placed(s, tx) <==> tx < |s.calls|)
    && (forall tx: Tx, p, q | IsAt(s, tx, p) && IsAt(s, tx, q) :: p == q)
  }

  // ----- one oneshot moves, the others stay -----

  /** Two oneshots never leave their places in one step. */
  ghost predicate OneMoves(s: System, s': System) {
    forall t: Tx, u: Tx, p, q | Leaves(s, s', t, p) && Leaves(s, s', u, q) :: t == u
  }

  ghost predicate Leaves(s: System, s': System, tx: Tx, p: Place) {
    IsAt(s, tx, p) && !IsAt(s', tx, p)
  }

  ghost predicate Moved(s: System, s': System, moved: Tx, from: Place, to: Place) {
    && IsAt(s, moved, from)
    && forall tx: Tx, p :: IsAt(s', tx, p) <==> if tx == moved && p in {from, to} then p == to else IsAt(s, tx, p)
  }

  ghost predicate Unmoved(s: System, s': System) {
    forall tx: Tx, p :: IsAt(s', tx, p) <==> IsAt(s, tx, p)
  }

  lemma {:induction false} MovedOwned(s: System, s': System, moved: Tx, from: Place, to: Place)
    requires Owned(s) && Moved(s, s', moved, from, to) && |s'.queue| <= CAPACITY && |s'.calls| == |s.calls|
    ensures Owned(s') && OneMoves(s, s')
  {
    forall tx: Tx
      ensures Placed(s', tx) <==> tx < |s.calls|
    {
      assert Placed(s, tx) <==> tx < |s.calls|;
      if tx == moved {
        assert IsAt(s', tx, to) && IsAt(s, tx, from);
      } else if Placed(s, tx) {
        var p :| IsAt(s, tx, p);
        assert IsAt(s', tx, p);
      }
    }
  }

  lemma {:induction false} UnmovedOwned(s: System, s': System)
    requires Owned(s) && Unmoved(s, s') && |s'.queue| <= CAPACITY && |s'.calls| == |s.calls|
    ensures Owned(s') && OneMoves(s, s')
  {
    forall tx: Tx
      ensures Placed(s', tx) <==> tx < |s.calls|
    {
      assert Placed(s, tx) <==> tx < |s.calls|;
      if Placed(s, tx) {
        var p :| IsAt(s, tx, p);
        assert IsAt(s', tx, p);
      }
    }
  }

  lemma {:induction false} CallOwned(s: System, to: Addr, d: Payload)
    requires Owned(s)
    ensures Owned(UserDoes(s, Call(to, d))) && OneMoves(s, UserDoes(s, Call(to, d)))
  {
    var s', n := UserDoes(s, Call(to, d)), |s.calls|;
    assert !Placed(s, n);
    assert IsAt(s', n, WithCaller);
    forall tx: Tx, p
      ensures IsAt(s', tx, p) <==> if tx == n then p == WithCaller else IsAt(s, tx, p)
    {
      assert tx == n ==> !IsAt(s, tx, p);
    }
    forall tx: Tx
      ensures Placed(s', tx) <==> tx < |s'.calls|
    {
      assert Placed(s, tx) <==> tx < |s.calls|;
      if Placed(s, tx) {
        var p :| IsAt(s, tx, p);
        assert IsAt(s', tx, p);
      }
    }
  }

  lemma {:induction false} UserOwned(s: System, l: UserLabel)
    requires Owned(s) && UserCan(s, l)
    ensures Owned(UserDoes(s, l)) && OneMoves(s, UserDoes(s, l))
  {
    var s' := UserDoes(s, l);
    match l
    case Call(to, d) => CallOwned(s, to, d);
    case Enqueue(tx) =>
      assert s'.queue == [MSendRequest(s.calls[tx].to, s.calls[tx].data, tx)];
      assert Moved(s, s', tx, WithCaller, InQueue);
      MovedOwned(s, s', tx, WithCaller, InQueue);
    case Withdraw(tx) =>
      assert Moved(s, s', tx, WithCaller, LetGo);
      MovedOwned(s, s', tx, WithCaller, LetGo);
    case Post(m) =>
      assert s'.queue == [m];
      UnmovedOwned(s, s');
    case Abandon(_) => UnmovedOwned(s, s');
    case DropEvents => UnmovedOwned(s, s');
  }

  lemma {:induction false} AcceptorOwned(s: System, l: AcceptorLabel)
    requires Owned(s) && AcceptorCan(s, l)
    ensures Owned(AcceptorDoes(s, l)) && OneMoves(s, AcceptorDoes(s, l))
  {
    var s' := AcceptorDoes(s, l);
    assert l.Announce? ==> s'.queue == [MNewConnection(s.acceptor.conn, s.acceptor.addr)];
    UnmovedOwned(s, s');
  }

  lemma {:induction false} FreshGrows(c: C.Conn, c': C.Conn, issue: C.Issue, tx: Tx)
    requires c'.issued == c.issued + [issue]
    ensures C.FreshTx(c', tx) <==> C.FreshTx(c, tx) && tx != issue.tx
  {
    assert c'.issued[|c.issued|] == issue && forall k | 0 <= k < |c.issued| :: c'.issued[k] == c.issued[k];
  }

  lemma {:induction false} LinkTakeOwned(s: System, c: ConnId)
    requires Owned(s) && LinkCan(s, c, LTake) && |s.links[c].ext| <= CAPACITY
    ensures Owned(LinkSystem(s, c, LTake)) && OneMoves(s, LinkSystem(s, c, LTake))
  {
    var k, s' := s.links[c], LinkSystem(s, c, LTake);
    var m := k.ext[0];
    C.IssuedGrows(k.conn, m);
    assert s'.links[c].ext == [] && k.ext == [m];
    if m.CRequest? {
      forall tx: Tx
        ensures C.FreshTx(s'.links[c].conn, tx) <==> C.FreshTx(k.conn, tx) && tx != m.tx
      {
        FreshGrows(k.conn, s'.links[c].conn, C.Issue(m.tx, m.data, |k.conn.taken|), tx);
      }
      assert Moved(s, s', m.tx, InChannel(c), Issued(c));
      MovedOwned(s, s', m.tx, InChannel(c), Issued(c));
    } else {
      UnmovedOwned(s, s');
    }
  }

  lemma {:induction false} LinkReturnOwned(s: System, c: ConnId)
    requires Owned(s) && LinkCan(s, c, LOfferClose) && |s.links[c].ext| <= CAPACITY
    ensures Owned(LinkSystem(s, c, LOfferClose)) && OneMoves(s, LinkSystem(s, c, LOfferClose))
  {
    var k, s' := s.links[c], LinkSystem(s, c, LOfferClose);
    if k.ext != [] && k.ext[0].CRequest? {
      assert k.ext == [k.ext[0]];
      assert Moved(s, s', k.ext[0].tx, InChannel(c), LetGo);
      MovedOwned(s, s', k.ext[0].tx, InChannel(c), LetGo);
    } else {
      assert QueuedTxs(k.ext) == {};
      UnmovedOwned(s, s');
    }
  }

  lemma LinkKeeps(s: System, c: ConnId, l: LinkLabel)
    requires LinkCan(s, c, l) && !l.LTake? && !l.LOfferClose?
    ensures LinkDoes(s.links[c], c, l, s).conn.issued == s.links[c].conn.issued
    ensures LinkDoes(s.links[c], c, l, s).ext == s.links[c].ext
  {}

  lemma {:induction false} LinkOwned(s: System, c: ConnId, l: LinkLabel)
    requires Owned(s) && LinkCan(s, c, l) && |s.links[c].ext| <= CAPACITY
    ensures Owned(LinkSystem(s, c, l)) && OneMoves(s, LinkSystem(s, c, l))
  {
    var s' := LinkSystem(s, c, l);
    if l.LTake? {
      LinkTakeOwned(s, c);
    } else if l.LOfferClose? {
      LinkReturnOwned(s, c);
    } else {
      LinkKeeps(s, c, l);
      assert AskedTxs(s'.queue) == AskedTxs(s.queue);
      assert forall tx: Tx :: C.FreshTx(s'.links[c].conn, tx) == C.FreshTx(s.links[c].conn, tx);
      UnmovedOwned(s, s');
    }
  }

  lemma {:induction false} TakeOwned(s: System)
    requires Owned(s) && ServerCan(s, STake)
    ensures Owned(ServerDoes(s, STake)) && OneMoves(s, ServerDoes(s, STake))
  {
    var s', m := ServerDoes(s, STake), s.queue[0];
    assert s.queue == [m] && s'.queue == [];
    if m.MSendRequest? {
      assert IsAt(s, m.tx, InQueue);
      var to := if m.to in s.srv.connections then InHand else LetGo;
      assert Moved(s, s', m.tx, InQueue, to);
      MovedOwned(s, s', m.tx, InQueue, to);
    } else {
      UnmovedOwned(s, s');
    }
  }

  lemma {:induction false} HandOwned(s: System)
    requires Owned(s) && ServerCan(s, SHand)
    requires s.links[s.srv.at.conn].conn.at.Returned? ==> s.links[s.srv.at.conn].ext == []
    ensures Owned(ServerDoes(s, SHand)) && OneMoves(s, ServerDoes(s, SHand))
  {
    var s', c := ServerDoes(s, SHand), s.srv.at.conn;
    if s.srv.at.HandingRequest? {
      var tx := s.srv.at.tx;
      assert s.links[c].ext == [];
      var to := if s.links[c].conn.at.Returned? then LetGo else InChannel(c);
      assert !s.links[c].conn.at.Returned? ==> s'.links[c].ext == [CRequest(s.srv.at.data, tx)];
      assert Moved(s, s', tx, InHand, to);
      MovedOwned(s, s', tx, InHand, to);
    } else {
      assert QueuedTxs(s'.links[c].ext) == QueuedTxs(s.links[c].ext);
      UnmovedOwned(s, s');
    }
  }

  lemma {:induction false} StopOwned(s: System)
    requires Owned(s) && ServerCan(s, SStop)
    ensures Owned(ServerDoes(s, SStop)) && OneMoves(s, ServerDoes(s, SStop))
  {
    var s' := ServerDoes(s, SStop);
    if s.queue != [] && s.queue[0].MSendRequest? {
      assert s.queue == [s.queue[0]];
      assert Moved(s, s', s.queue[0].tx, InQueue, LetGo);
      MovedOwned(s, s', s.queue[0].tx, InQueue, LetGo);
    } else {
      assert AskedTxs(s.queue) == {};
      UnmovedOwned(s, s');
    }
  }

  lemma {:induction false} ServerOwned(s: System, l: ServerLabel)
    requires Owned(s) && ServerCan(s, l) && LinksOk(s.links, s.srv.at.Stopped?)
    ensures Owned(ServerDoes(s, l)) && OneMoves(s, ServerDoes(s, l))
  {
    var s' := ServerDoes(s, l);
    match l
    case STake => TakeOwned(s);
    case SHand => HandOwned(s);
    case SEmit => UnmovedOwned(s, s');
    case STell(a) =>
      var c := s.srv.connections[a];
      assert QueuedTxs(s'.links[c].ext) == QueuedTxs(s.links[c].ext);
      UnmovedOwned(s, s');
    case SStop => StopOwned(s);
  }

  lemma {:induction false} OwnedStep(s: System, l: Label)
    requires Owned(s) && LinksOk(s.links, s.srv.at.Stopped?) && Enabled(s, l)
    ensures Owned(Apply(s, l)) && OneMoves(s, Apply(s, l))
  {
    match l
    case User(l) => UserOwned(s, l);
    case Accepting(l) => AcceptorOwned(s, l);
    case AtLink(c, l) => LinkOwned(s, c, l);
    case Serving(l) => ServerOwned(s, l);
  }

  // ----- a request keeps its data and its destination -----

  lemma {:induction false} LinkCarried(s: System, c: ConnId, l: LinkLabel)
    requires LinkCan(s, c, l) && LinkCarries(s, s.links[c])
    ensures LinkCarries(s, LinkDoes(s.links[c], c, l, s))
  {
    if l.LTake? {
      C.IssuedGrows(s.links[c].conn, s.links[c].ext[0]);
    } else if !l.LOfferClose? {
      LinkKeeps(s, c, l);
    }
  }

  lemma {:induction false} CarriedStep(s: System, l: Label)
    requires Carried(s) && Tagged(s) && Enabled(s, l)
    ensures Carried(Apply(s, l))
  {
    match l
    case User(l) => UserCarried(s, l);
    case Accepting(l) => AcceptorCarried(s, l);
    case AtLink(c, l') =>
      LinkCarried(s, c, l');
      assert Apply(s, l).links == s.links[c := LinkDoes(s.links[c], c, l', s)];
    case Serving(l) => ServerCarried(s, l);
  }

  lemma {:induction false} AcceptorCarried(s: System, l: AcceptorLabel)
    requires Carried(s) && AcceptorCan(s, l)
    ensures Carried(AcceptorDoes(s, l))
  {
    var s' := AcceptorDoes(s, l);
    forall c | 0 <= c < |s'.links|
      ensures LinkCarries(s', s'.links[c])
    {
      assert c < |s.links| ==> LinkCarries(s, s.links[c]);
    }
  }

  lemma {:induction false} UserCarried(s: System, l: UserLabel)
    requires Carried(s) && UserCan(s, l)
    ensures Carried(UserDoes(s, l))
  {
    var s' := UserDoes(s, l);
    forall c | 0 <= c < |s.links|
      ensures LinkCarries(s', s.links[c])
    {
      assert LinkCarries(s, s.links[c]);
    }
  }

  lemma {:induction false} HandCarried(s: System)
    requires Carried(s) && Tagged(s) && ServerCan(s, SHand)
    ensures Carried(ServerDoes(s, SHand))
  {
    var s', h := ServerDoes(s, SHand), s.srv.at.conn;
    assert s.links[h].addr == s.srv.at.to;
    forall c | 0 <= c < |s'.links|
      ensures LinkCarries(s', s'.links[c])
    {
      assert LinkCarries(s, s.links[c]);
    }
  }

  lemma {:induction false} ServerCarried(s: System, l: ServerLabel)
    requires Carried(s) && Tagged(s) && ServerCan(s, l)
    ensures Carried(ServerDoes(s, l))
  {
    if l.SHand? {
      HandCarried(s);
    } else {
      var s' := ServerDoes(s, l);
      forall c | 0 <= c < |s'.links|
        ensures LinkCarries(s', s'.links[c])
      {
        assert LinkCarries(s, s.links[c]);
      }
    }
  }
}
