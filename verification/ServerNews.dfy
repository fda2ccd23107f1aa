/** A connection is announced to the server once, and to the user at most once. */
module ServerNews {
  import opened Messages
  import opened Sequences
  import opened ServerCore
  import opened ServerSystem
  import opened ServerInvariants

  function AsNews(e: ServerEvent): seq<Addr> { if e.SNew? then [e.addr] else [] }

  function AnnouncedAddr(op: RegistryOp): seq<Addr> { if op.Announced? then [op.addr] else [] }

  function NewsHand(at: ServerAt): seq<Addr> { if at.Emitting? then AsNews(at.event) else [] }

  function News(s: System): seq<Addr> { FlatMap(AsNews, s.shown) + NewsHand(s.srv.at) }

  ghost predicate AnnouncedIn(log: seq<RegistryOp>, c: ConnId) {
    exists i | 0 <= i < |log| :: log[i].Announced? && log[i].conn == c
  }

  /** The announcement of a connection is with the acceptor, in the queue, or in the past. */
  ghost predicate AnnouncedOnce(s: System) {
    && |s.queue| <= CAPACITY
    && (forall i, j | 0 <= i < j < |s.srv.log| && s.srv.log[i].Announced? && s.srv.log[j].Announced? ::
          s.srv.log[i].conn != s.srv.log[j].conn)
    && (forall m | m in s.queue && m.MNewConnection? :: !AnnouncedIn(s.srv.log, m.conn))
    && (s.acceptor.Announcing? ==>
          !AnnouncedIn(s.srv.log, s.acceptor.conn)
          && forall m | m in s.queue && m.MNewConnection? :: m.conn != s.acceptor.conn)
  }

  /** Every piece of news is about an announcement of its own, in the same order. */
  ghost predicate NewsFollow(s: System) {
    SubSeq(News(s), FlatMap(AnnouncedAddr, s.srv.log))
  }

  lemma {:induction false} TakeAnnouncedOnce(s: System)
    requires AnnouncedOnce(s) && ServerCan(s, STake)
    ensures AnnouncedOnce(ServerDoes(s, STake))
  {
    var s', m := ServerDoes(s, STake), s.queue[0];
    assert s.queue == [m] && s'.queue == [];
    if s'.srv.log != s.srv.log {
      var op := s'.srv.log[|s.srv.log|];
      assert s'.srv.log == s.srv.log + [op] && (op.Announced? ==> m.MNewConnection? && op.conn == m.conn);
      assert forall i | 0 <= i < |s.srv.log| :: s'.srv.log[i] == s.srv.log[i];
    }
  }

  lemma {:induction false} HandAnnouncedOnce(s: System)
    requires AnnouncedOnce(s) && ServerCan(s, SHand)
    ensures AnnouncedOnce(ServerDoes(s, SHand))
  {
    var s' := ServerDoes(s, SHand);
    if s'.srv.log != s.srv.log {
      var op := Evicted(s.srv.at.to, s.srv.at.conn);
      assert s'.srv.log == s.srv.log + [op];
      assert forall i | 0 <= i < |s.srv.log| :: s'.srv.log[i] == s.srv.log[i];
    }
  }

  lemma {:induction false} AnnouncedOnceStep(s: System, l: Label)
    requires Tagged(s) && AnnouncedOnce(s) && Enabled(s, l)
    ensures AnnouncedOnce(Apply(s, l))
  {
    match l
    case Serving(STake) => TakeAnnouncedOnce(s);
    case Serving(SHand) => HandAnnouncedOnce(s);
    case Accepting(Accept(_)) => NotYetAnnounced(s);
    case _ => QueueFrame(s, l);
  }

  lemma {:induction false} NotYetAnnounced(s: System)
    requires Tagged(s)
    ensures !AnnouncedIn(s.srv.log, |s.links|)
    ensures forall m | m in s.queue && m.MNewConnection? :: m.conn != |s.links|
  {
    forall i | 0 <= i < |s.srv.log|
      ensures s.srv.log[i].conn < |s.links|
    {
      assert OpTag(s.links, s.srv.log[i]);
    }
    assert forall m | m in s.queue :: QueueTag(s.links, m);
  }

  lemma QueueFrame(s: System, l: Label)
    requires |s.queue| <= CAPACITY && Enabled(s, l)
    requires l != Serving(STake) && l != Serving(SHand) && !(l.Accepting? && l.acceptor.Accept?)
    ensures var s' := Apply(s, l);
            && |s'.queue| <= CAPACITY && s'.srv.log == s.srv.log
            && (forall m | m in s'.queue && m.MNewConnection? ::
                  m in s.queue || s.acceptor == Announcing(m.conn, m.addr))
            && (s'.acceptor.Announcing? ==>
                  s'.acceptor == s.acceptor && forall m | m in s'.queue && m.MNewConnection? :: m in s.queue)
  {}

  // ----- news -----

  lemma {:induction false} NewsLater(news: seq<Addr>, announced: seq<Addr>, more: seq<Addr>)
    requires SubSeq(news, announced)
    ensures SubSeq(news, announced + more)
  {
    SubSeqConcat(news, announced, [], more);
    assert news + [] == news;
  }

  /** Taking a message makes at most one entry in the log; news is made of an announcement. */
  lemma TakeMakesNews(s: System) returns (op: Option<RegistryOp>)
    requires ServerCan(s, STake)
    ensures var s' := ServerDoes(s, STake);
            && s'.shown == s.shown && NewsHand(s.srv.at) == []
            && s'.srv.log == s.srv.log + (if op.Some? then [op.value] else [])
            && (NewsHand(s'.srv.at) == [] || (op.Some? && NewsHand(s'.srv.at) == AnnouncedAddr(op.value)))
  {
    var log, log' := s.srv.log, ServerDoes(s, STake).srv.log;
    op := if log' == log then None else Some(log'[|log|]);
  }

  lemma {:induction false} TakeNews(s: System)
    requires NewsFollow(s) && ServerCan(s, STake)
    ensures NewsFollow(ServerDoes(s, STake))
  {
    var op := TakeMakesNews(s);
    var shown, announced := FlatMap(AsNews, s.shown), FlatMap(AnnouncedAddr, s.srv.log);
    Nothing(shown);
    Nothing(s.srv.log);
    if op.Some? {
      FlatMapSnoc(AnnouncedAddr, s.srv.log, op.value);
      NewsLater(shown, announced, AnnouncedAddr(op.value));
      SubSeqRefl(AnnouncedAddr(op.value));
      SubSeqConcat(shown, announced, AnnouncedAddr(op.value), AnnouncedAddr(op.value));
    }
  }

  lemma {:induction false} ShownNews(s: System)
    requires ServerCan(s, SEmit)
    ensures News(s) == FlatMap(AsNews, s.shown) + AsNews(s.srv.at.event)
    ensures News(ServerDoes(s, SEmit)) == if s.userOpen then News(s) else FlatMap(AsNews, s.shown)
  {
    FlatMapSnoc(AsNews, s.shown, s.srv.at.event);
  }

  lemma {:induction false} ShowNews(s: System)
    requires NewsFollow(s) && ServerCan(s, SEmit)
    ensures NewsFollow(ServerDoes(s, SEmit))
  {
    ShownNews(s);
    SubSeqCutTail(FlatMap(AsNews, s.shown), AsNews(s.srv.at.event), FlatMap(AnnouncedAddr, s.srv.log));
  }

  lemma {:induction false} HandNews(s: System)
    requires NewsFollow(s) && ServerCan(s, SHand)
    ensures NewsFollow(ServerDoes(s, SHand))
  {
    var s' := ServerDoes(s, SHand);
    if s'.srv.log != s.srv.log {
      var op := Evicted(s.srv.at.to, s.srv.at.conn);
      FlatMapSnoc(AnnouncedAddr, s.srv.log, op);
      assert FlatMap(AnnouncedAddr, s'.srv.log) == FlatMap(AnnouncedAddr, s.srv.log);
    }
    assert News(s') == News(s);
  }

  lemma {:induction false} NewsStep(s: System, l: Label)
    requires NewsFollow(s) && Enabled(s, l)
    ensures NewsFollow(Apply(s, l))
  {
    match l
    case Serving(STake) => TakeNews(s);
    case Serving(SHand) => HandNews(s);
    case Serving(SEmit) => ShowNews(s);
    case _ => NewsStay(s, l);
  }

  lemma {:induction false} NewsStay(s: System, l: Label)
    requires Enabled(s, l) && l != Serving(STake) && l != Serving(SHand) && l != Serving(SEmit)
    ensures var s' := Apply(s, l);
            s'.srv.log == s.srv.log && s'.shown == s.shown && NewsHand(s'.srv.at) == NewsHand(s.srv.at)
  {
    StepFrame(s, l);
  }

  // ----- no address is announced twice -----

  ghost predicate NoDuplicates<T>(s: seq<T>) {
    forall i, j | 0 <= i < j < |s| :: s[i] != s[j]
  }

  lemma {:induction false} SelectionHasNoDuplicates<T>(s: seq<T>, t: seq<T>)
    requires SubSeq(s, t) && NoDuplicates(t)
    ensures NoDuplicates(s)
  {
    var at := SubSeqEmbeds(s, t);
    forall i, j | 0 <= i < j < |s|
      ensures s[i] != s[j]
    {
      assert at[i] < at[j];
    }
  }

  lemma {:induction false} AnnouncedAddrsDistinct(log: seq<RegistryOp>)
    requires forall i, j | 0 <= i < j < |log| && log[i].Announced? && log[j].Announced? :: log[i].addr != log[j].addr
    ensures NoDuplicates(FlatMap(AnnouncedAddr, log))
  {
    if log != [] {
      var n := |log| - 1;
      AnnouncedAddrsDistinct(log[..n]);
      if log[n].Announced? {
        forall a | a in FlatMap(AnnouncedAddr, log[..n])
          ensures a != log[n].addr
        {
          var op := FlatMapSource(AnnouncedAddr, log[..n], a);
          var i :| 0 <= i < n && log[i] == op;
        }
        SnocHasNoDuplicates(FlatMap(AnnouncedAddr, log[..n]), log[n].addr);
      } else {
        assert FlatMap(AnnouncedAddr, log) == FlatMap(AnnouncedAddr, log[..n]);
      }
    }
  }

  lemma SnocHasNoDuplicates<T>(s: seq<T>, x: T)
    requires NoDuplicates(s) && x !in s
    ensures NoDuplicates(s + [x])
  {}
}
