/** A caller of the server may drop its receiver at any moment. Nobody but the oneshot itself
    takes notice. */
module ServerTimeouts {
  import opened Messages
  import opened Sequences
  import opened Machines
  import opened ServerCore
  import opened ServerSystem
  import opened ServerInvariants
  import opened ServerRuns
  import C = ConnectionCore
  import R = ConnectionRuns

  ghost predicate LinkUnheard(k: Link, k': Link, tx: Tx) {
    k' == k.(conn := k'.conn) && R.SameButCell(k.conn, k'.conn, tx)
  }

  /** Equal but for what the oneshot `tx` holds, and for whether anybody listens to it. */
  ghost predicate SameButUnheard(s: System, r: System, tx: Tx) {
    && r == s.(links := r.links, gone := s.gone + {tx})
    && |r.links| == |s.links|
    && forall c | 0 <= c < |s.links| :: LinkUnheard(s.links[c], r.links[c], tx)
  }

  lemma {:induction false} LinkCanAlike(s: System, r: System, c: ConnId, l: LinkLabel, tx: Tx)
    requires SameButUnheard(s, r, tx)
    ensures LinkCan(s, c, l) <==> LinkCan(r, c, l)
  {
    if c < |s.links| {
      assert LinkUnheard(s.links[c], r.links[c], tx);
      R.SameFresh(s.links[c].conn, r.links[c].conn);
    }
  }

  lemma {:induction false} LinkStep(s: System, r: System, c: ConnId, l: LinkLabel, tx: Tx)
    requires SameButUnheard(s, r, tx) && LinkCan(s, c, l) && LinkCan(r, c, l)
    ensures LinkUnheard(LinkDoes(s.links[c], c, l, s), LinkDoes(r.links[c], c, l, r), tx)
  {
    var k, k' := s.links[c], r.links[c];
    assert LinkUnheard(k, k', tx);
    match l
    case LTake => R.ExternalUnheard(k.conn, k'.conn, tx, k.ext[0]);
    case LHear(m) => R.ReplyUnheard(k.conn, k'.conn, tx, m, s.gone);
    case LSenderClosed => R.CancelUnheard(k.conn, k'.conn, tx, s.gone);
    case _ =>
  }

  lemma {:induction false} LinkUnheardStep(s: System, r: System, c: ConnId, l: LinkLabel, tx: Tx)
    requires SameButUnheard(s, r, tx)
    ensures LinkCan(s, c, l) <==> LinkCan(r, c, l)
    ensures LinkCan(s, c, l) ==> SameButUnheard(LinkSystem(s, c, l), LinkSystem(r, c, l), tx)
  {
    LinkCanAlike(s, r, c, l, tx);
    if LinkCan(s, c, l) {
      LinkStep(s, r, c, l, tx);
      assert LinkUnheard(s.links[c], r.links[c], tx);
    }
  }

  lemma {:induction false} UserUnheard(s: System, r: System, l: UserLabel, tx: Tx)
    requires SameButUnheard(s, r, tx)
    ensures UserCan(s, l) <==> UserCan(r, l)
    ensures UserCan(s, l) ==> SameButUnheard(UserDoes(s, l), UserDoes(r, l), tx)
  {
    if l.Abandon? {
      assert s.gone + {tx} + {l.tx} == s.gone + {l.tx} + {tx};
    }
  }

  lemma {:induction false} AcceptorUnheard(s: System, r: System, l: AcceptorLabel, tx: Tx)
    requires SameButUnheard(s, r, tx)
    ensures AcceptorCan(s, l) <==> AcceptorCan(r, l)
    ensures AcceptorCan(s, l) ==> SameButUnheard(AcceptorDoes(s, l), AcceptorDoes(r, l), tx)
  {}

  lemma {:induction false} LinksAlike(s: System, r: System, tx: Tx)
    requires SameButUnheard(s, r, tx)
    ensures forall c | 0 <= c < |s.links| ::
      s.links[c].ext == r.links[c].ext && s.links[c].conn.at == r.links[c].conn.at
  {
    assert forall c | 0 <= c < |s.links| :: LinkUnheard(s.links[c], r.links[c], tx);
  }

  lemma {:induction false} ServerUnheard(s: System, r: System, l: ServerLabel, tx: Tx)
    requires SameButUnheard(s, r, tx)
    ensures ServerCan(s, l) <==> ServerCan(r, l)
    ensures ServerCan(s, l) ==> SameButUnheard(ServerDoes(s, l), ServerDoes(r, l), tx)
  {
    LinksAlike(s, r, tx);
  }

  lemma {:induction false} UnheardStep(s: System, r: System, l: Label, tx: Tx)
    requires SameButUnheard(s, r, tx)
    ensures Enabled(s, l) <==> Enabled(r, l)
    ensures Enabled(s, l) ==> SameButUnheard(Apply(s, l), Apply(r, l), tx)
  {
    match l
    case User(l) => UserUnheard(s, r, l, tx);
    case Accepting(l) => AcceptorUnheard(s, r, l, tx);
    case AtLink(c, l) => LinkUnheardStep(s, r, c, l, tx);
    case Serving(l) => ServerUnheard(s, r, l, tx);
  }

  /** Two runs of the same labels: both are possible or neither, and they end alike. */
  ghost predicate UnheardRuns(q: Option<System>, q': Option<System>, tx: Tx) {
    && (q.Some? <==> q'.Some?)
    && (q.Some? ==> SameButUnheard(q.value, q'.value, tx))
  }

  lemma {:induction false} UnheardRun(s: System, r: System, tx: Tx, labels: seq<Label>)
    requires SameButUnheard(s, r, tx)
    ensures UnheardRuns(Run(s, labels), Run(r, labels), tx)
  {
    if labels != [] {
      var n := |labels| - 1;
      UnheardRun(s, r, tx, labels[..n]);
      if Run(s, labels[..n]).Some? {
        UnheardStep(Run(s, labels[..n]).value, Run(r, labels[..n]).value, labels[n], tx);
      }
    }
  }

  /** Wherever the request is when its caller leaves: the continuations with it are those
      without it, and they end in states that differ in the oneshot of this call alone. */
  lemma {:induction false} TimeoutIsUnseen(s: System, tx: Tx, labels: seq<Label>)
    requires tx < |s.calls|
    ensures Enabled(s, User(Abandon(tx)))
    ensures UnheardRuns(Run(s, labels), Run(Apply(s, User(Abandon(tx))), labels), tx)
  {
    UnheardRun(s, Apply(s, User(Abandon(tx))), tx, labels);
  }

  ghost predicate IssuedGrow(s: System, r: System) {
    |s.links| <= |r.links| && forall c | 0 <= c < |s.links| :: s.links[c].conn.issued <= r.links[c].conn.issued
  }

  lemma IssuedGrowAtLink(s: System, c: ConnId, l: LinkLabel)
    requires LinkCan(s, c, l)
    ensures s.links[c].conn.issued <= LinkDoes(s.links[c], c, l, s).conn.issued
  {
    if l.LTake? {
      C.IssuedGrows(s.links[c].conn, s.links[c].ext[0]);
    }
  }

  lemma {:induction false} IssuedGrowInStep(s: System, l: Label)
    requires Enabled(s, l)
    ensures IssuedGrow(s, Apply(s, l))
  {
    AddrsStay(s, l);
    forall c | 0 <= c < |s.links|
      ensures s.links[c].conn.issued <= Apply(s, l).links[c].conn.issued
    {
      if l.AtLink? && l.conn == c {
        IssuedGrowAtLink(s, c, l.link);
      } else {
        OtherConnsStay(s, l, c);
      }
    }
  }

  lemma {:induction false} IssuedGrowInRun(s: System, labels: seq<Label>, r: System)
    requires Run(s, labels) == Some(r)
    ensures IssuedGrow(s, r)
  {
    if labels != [] {
      var n := |labels| - 1;
      var q := Run(s, labels[..n]).value;
      IssuedGrowInRun(s, labels[..n], q);
      IssuedGrowInStep(q, labels[n]);
    }
  }

  /** The id of a request stays taken, for the same oneshot, in every continuation, whether
      its caller still waits or not. */
  lemma {:induction false} TimedOutIdStays(
    past: seq<Label>, s: System, c: ConnId, k: nat, labels: seq<Label>, r: System)
    requires Run(BEGIN, past) == Some(s) && c < |s.links| && k < |s.links[c].conn.issued|
    requires Run(s, labels) == Some(r) && IdsSuffice(r)
    ensures c < |r.links| && R.IdIsTaken(r.links[c].conn, k, s.links[c].conn.issued[k].tx)
  {
    IssuedGrowInRun(s, labels, r);
    AfterConcat(TryApply, BEGIN, past, labels);
    ReachedConns(past + labels, r);
    R.IssuedIdIsTaken(r.links[c].conn, k);
  }

  /** Only a caller that left can miss its answer. */
  lemma {:induction false} OnlyTheGoneMissAnswers(labels: seq<Label>, s: System, tx: Tx, c: ConnId)
    requires Run(BEGIN, labels) == Some(s) && Holds(s, Used(c, Unheard), tx)
    ensures tx in s.gone
  {
    var n := |labels| - 1;
    var r := Run(BEGIN, labels[..n]).value;
    GoneStays(r, labels[n]);
    if Holds(r, Used(c, Unheard), tx) {
      OnlyTheGoneMissAnswers(labels[..n], r, tx, c);
    } else {
      MissedNow(r, labels[n], tx, c);
    }
  }

  lemma GoneStays(s: System, l: Label)
    requires Enabled(s, l)
    ensures s.gone <= Apply(s, l).gone
  {}

  lemma {:induction false} MissedNow(s: System, l: Label, tx: Tx, c: ConnId)
    requires Enabled(s, l) && Holds(Apply(s, l), Used(c, Unheard), tx) && !Holds(s, Used(c, Unheard), tx)
    ensures tx in s.gone
  {
    if l.AtLink? {
      MissedAtLink(s, l.conn, l.link, tx);
    }
  }

  lemma MissedAtLink(s: System, c: ConnId, l: LinkLabel, tx: Tx)
    requires LinkCan(s, c, l) && R.Misses(LinkDoes(s.links[c], c, l, s).conn, tx) && !R.Misses(s.links[c].conn, tx)
    ensures tx in s.gone
  {}
}
