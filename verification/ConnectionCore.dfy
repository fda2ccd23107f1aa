/** The Connection actor as a machine that is resumed at its await points, together
    with the history needed to say what a run did. `Next` is the specification the
    methods of the class `Connection` are proved against. */
module ConnectionCore {
  import opened Messages
  import opened Sequences
  import opened Machines

  /** Ids are a `usize` of 64 bits that wraps around, as in a release build. */
  const USIZE: nat := 0x1_0000_0000_0000_0000

  /** Where the actor is parked. The first three belong to the `select!` loop. */
  datatype Await =
    | Selecting
    | SendingMessage(message: Message)
    | OfferingEvent(event: ConnectionEvent)
    | ClosingReceiver
    | ClosingSender
    | OfferingClose
    | Returned
  {
    predicate Running() { Selecting? || SendingMessage? || OfferingEvent? }

    /** `cancel_requests` has not been executed yet. */
    predicate InService() { !OfferingClose? && !Returned? }

    /** The message the actor has accepted and not yet handed to the Sender. */
    function OutHand(): seq<Message> { if SendingMessage? then [message] else [] }

    /** The event the actor has made and not yet handed to the user. */
    function UserHand(): seq<ConnectionEvent> { if OfferingEvent? then [event] else [] }
  }

  /** One request the Connection took from its handle; `at` is how many peer messages it had taken before. */
  datatype Issue = Issue(tx: Tx, data: Payload, at: nat)

  /** `nextId`, `replyMap` and `at` are the actor; `outcomes` are the oneshot cells it
      has used; the rest is history: the messages accepted for sending, the k-th
      request taken, and the peer messages taken. */
  datatype Conn = Conn(
    nextId: nat, replyMap: map<nat, Tx>, at: Await,
    outcomes: map<Tx, Outcome>,
    accepted: seq<Message>, issued: seq<Issue>, taken: seq<Message>)

  const INIT := Conn(0, map[], Selecting, map[], [], [], [])

  /** What wakes the actor up: a message out of one of its two queues, or the end of an await.
      `gone` are the oneshots nobody listens to any more, as the sends of this turn find them. */
  datatype Input =
    | External(message: ConnectionMessage)
    | Internal(incoming: InternalMessage, gone: set<Tx>)
    | Sent(ok: bool)
    | Offered(ok: bool)
    | ReceiverClosed
    | SenderClosed(gone: set<Tx>)
    | CloseOffered

  /** An input fits the place where the actor is parked. A oneshot sender cannot be
      cloned, so a request never brings one that was brought before. */
  predicate CanTake(c: Conn, i: Input) {
    match i
    case External(m) => c.at.Selecting? && (m.CRequest? ==> FreshTx(c, m.tx))
    case Internal(_, _) => c.at.Selecting?
    case Sent(_) => c.at.SendingMessage?
    case Offered(_) => c.at.OfferingEvent?
    case ReceiverClosed => c.at.ClosingReceiver?
    case SenderClosed(_) => c.at.ClosingSender?
    case CloseOffered => c.at.OfferingClose?
  }

  predicate FreshTx(c: Conn, tx: Tx) {
    forall k | 0 <= k < |c.issued| :: c.issued[k].tx != tx
  }

  function Next(c: Conn, i: Input): Conn
    requires CanTake(c, i)
  {
    match i
    case External(CClose) => c.(at := ClosingReceiver)
    case External(CEvent(d)) => Accept(c, MEvent(d))
    case External(CRequest(d, tx)) => SendRequest(c, d, tx)
    case Internal(IClose, _) => c.(at := ClosingReceiver)
    case Internal(INew(m), gone) => TakeMessage(c.(taken := c.taken + [m]), m, gone)
    case Sent(ok) => c.(at := if ok then Selecting else ClosingReceiver)
    case Offered(ok) => c.(at := if ok then Selecting else ClosingReceiver)
    case ReceiverClosed => c.(at := ClosingSender)
    case SenderClosed(gone) => CancelRequests(c, gone).(at := OfferingClose)
    case CloseOffered => c.(at := Returned)
  }

  /** The actor starts handing `m` to the Sender. */
  function Accept(c: Conn, m: Message): Conn {
    c.(at := SendingMessage(m), accepted := c.accepted + [m])
  }

  /** `send_request`: the entry is made before the request can leave. */
  function SendRequest(c: Conn, data: Payload, tx: Tx): Conn {
    var id := c.nextId;
    var c := c.(nextId := (id + 1) % USIZE, issued := c.issued + [Issue(tx, data, |c.taken|)]);
    if id in c.replyMap then
      c.(outcomes := c.outcomes[tx := Dropped])
    else
      Accept(c.(replyMap := c.replyMap[id := tx]), MRequest(Request(id, data)))
  }

  function TakeMessage(c: Conn, m: Message, gone: set<Tx>): Conn {
    match m
    case MRequest(r) => c.(at := OfferingEvent(ERequest(r)))
    case MEvent(d) => c.(at := OfferingEvent(EEvent(d)))
    case MReply(r) => TakeReply(c, r, gone)
  }

  /** `handle_internal_reply`. Whether the send succeeds makes no difference to the loop. */
  function TakeReply(c: Conn, r: Reply, gone: set<Tx>): Conn {
    if r.id in c.replyMap then
      var tx := c.replyMap[r.id];
      c.(replyMap := c.replyMap - {r.id}, outcomes := c.outcomes[tx := Delivered(gone, tx, Ok(r.data))])
    else
      c
  }

  /** `cancel_requests`: every pending oneshot gets `Canceled`. */
  function CancelRequests(c: Conn, gone: set<Tx>): Conn {
    c.(replyMap := map[],
       outcomes := c.outcomes + map tx | tx in c.replyMap.Values :: Delivered(gone, tx, Canceled))
  }

  function TryNext(c: Conn, i: Input): Option<Conn> {
    if CanTake(c, i) then Some(Next(c, i)) else None
  }

  /** The state after a whole run of inputs; `None` if an input did not fit. */
  ghost function Exec(c: Conn, inputs: seq<Input>): Option<Conn> {
    After(TryNext, c, inputs)
  }

  // ----- the fate of one request, read off the history -----

  /** The data of the first reply to `id` among `log[from..]`. */
  function FirstReply(log: seq<Message>, from: nat, id: nat): (r: Option<Payload>)
    requires from <= |log|
    decreases |log| - from
  {
    if from == |log| then None
    else if IsReplyTo(log[from], id) then Some(log[from].reply.data)
    else FirstReply(log, from + 1, id)
  }

  /** A first reply is a reply, and nothing before it is. */
  lemma {:induction false} FirstReplyIsFirst(log: seq<Message>, from: nat, id: nat)
    requires from <= |log|
    ensures FirstReply(log, from, id).None? <==> forall j | from <= j < |log| :: !IsReplyTo(log[j], id)
    ensures FirstReply(log, from, id).Some? ==> exists j | from <= j < |log| ::
      log[j] == MReply(Reply(id, FirstReply(log, from, id).value)) && forall i | from <= i < j :: !IsReplyTo(log[i], id)
    decreases |log| - from
  {
    if from < |log| && !IsReplyTo(log[from], id) {
      FirstReplyIsFirst(log, from + 1, id);
    }
  }

  lemma {:induction false} FirstReplySnoc(log: seq<Message>, from: nat, id: nat, m: Message)
    requires from <= |log|
    ensures FirstReply(log + [m], from, id) ==
      if FirstReply(log, from, id).Some? then FirstReply(log, from, id)
      else if IsReplyTo(m, id) then Some(m.reply.data)
      else None
    decreases |log| - from
  {
    if from < |log| {
      FirstReplySnoc(log, from + 1, id, m);
    } else {
      assert FirstReply(log + [m], from + 1, id) == None;
    }
  }

  /** What was sent to the caller of request k: the first reply taken after it was issued, or
      the cancellation. */
  ghost function Fate(c: Conn, k: nat): Option<Outcome>
    requires k < |c.issued| && c.issued[k].at <= |c.taken|
  {
    var reply := FirstReply(c.taken, c.issued[k].at, k);
    if reply.Some? then Some(Ok(reply.value))
    else if c.at.InService() then None
    else Some(Canceled)
  }

  // ----- the invariant -----

  /** Ids are handed out in order, one for each request accepted. */
  ghost predicate IdsInOrder(c: Conn) {
    var requests := FlatMap(AsRequest, c.accepted);
    && c.nextId == |c.issued| % USIZE
    && |requests| == |c.issued|
    && forall k | 0 <= k < |requests| :: requests[k] == Request(k, c.issued[k].data)
  }

  ghost predicate OneshotsDistinct(c: Conn) {
    && (forall j, k | 0 <= j < k < |c.issued| :: c.issued[j].tx != c.issued[k].tx)
    && (forall tx | tx in c.outcomes :: !FreshTx(c, tx))
  }

  /** The two mutable maps are determined by the history. */
  ghost predicate FatesAgree(c: Conn) {
    && (forall k | 0 <= k < |c.issued| :: c.issued[k].at <= |c.taken|)
    && (forall id | id in c.replyMap :: id < |c.issued| && c.replyMap[id] == c.issued[id].tx)
    && forall k | 0 <= k < |c.issued| :: FateAgrees(c, k)
  }

  ghost predicate FateAgrees(c: Conn, k: nat)
    requires k < |c.issued| && c.issued[k].at <= |c.taken|
  {
    var tx := c.issued[k].tx;
    match Fate(c, k)
    case None => k in c.replyMap && tx !in c.outcomes
    case Some(o) => k !in c.replyMap && tx in c.outcomes && (c.outcomes[tx] == o || c.outcomes[tx] == Unheard)
  }

  /** The actor itself sends requests and events only, and offers no Close from the loop. */
  ghost predicate HandsFit(at: Await) {
    && (at.SendingMessage? ==> !at.message.MReply?)
    && (at.OfferingEvent? ==> at.event != EClose)
  }

  ghost predicate ConnInv(c: Conn) {
    && HandsFit(c.at)
    && IdsInOrder(c)
    && OneshotsDistinct(c)
    && FatesAgree(c)
    && (!c.at.InService() ==> c.replyMap == map[])
  }

  lemma InitInv()
    ensures ConnInv(INIT)
  {}

  lemma SmallId(n: nat)
    requires n < USIZE
    ensures n % USIZE == n
  {}

  lemma {:induction false} AcceptIds(c: Conn, data: Payload, tx: Tx)
    requires IdsInOrder(c) && |c.issued| < USIZE && c.nextId !in c.replyMap
    ensures IdsInOrder(SendRequest(c, data, tx))
  {
    SmallId(|c.issued|);
    var d := SendRequest(c, data, tx);
    var r := Request(c.nextId, data);
    FlatMapSnoc(AsRequest, c.accepted, MRequest(r));
    assert FlatMap(AsRequest, d.accepted) == FlatMap(AsRequest, c.accepted) + [r];
    assert d.issued == c.issued + [Issue(tx, data, |c.taken|)];
  }

  lemma StillUsed(c: Conn, c': Conn)
    requires OneshotsDistinct(c) && c'.outcomes == c.outcomes
    requires c.issued <= c'.issued
    ensures forall tx | tx in c'.outcomes :: !FreshTx(c', tx)
  {
    forall tx | tx in c'.outcomes
      ensures !FreshTx(c', tx)
    {
      var k :| 0 <= k < |c.issued| && c.issued[k].tx == tx;
      assert c'.issued[k].tx == tx;
    }
  }

  lemma {:induction false} SendRequestFates(c: Conn, data: Payload, tx: Tx)
    requires FatesAgree(c) && OneshotsDistinct(c) && FreshTx(c, tx) && c.at.Selecting?
    requires c.nextId == |c.issued|
    ensures c.nextId !in c.replyMap
    ensures FatesAgree(SendRequest(c, data, tx))
  {
    var n := |c.issued|;
    var c' := SendRequest(c, data, tx);
    assert tx !in c.outcomes;
    assert c'.issued[n] == Issue(tx, data, |c.taken|);
    forall k | 0 <= k < n
      ensures FateAgrees(c', k)
    {
      assert c'.issued[k] == c.issued[k] && FateAgrees(c, k);
      assert Fate(c', k) == Fate(c, k);
    }
    assert Fate(c', n) == None;
    assert FateAgrees(c', n);
  }

  lemma {:induction false} SendRequestInv(c: Conn, data: Payload, tx: Tx)
    requires ConnInv(c) && |c.issued| < USIZE && FreshTx(c, tx) && c.at.Selecting?
    ensures ConnInv(SendRequest(c, data, tx))
  {
    SmallId(|c.issued|);
    SendRequestFates(c, data, tx);
    AcceptIds(c, data, tx);
    SendRequestDistinct(c, data, tx);
    assert SendRequest(c, data, tx).at == SendingMessage(MRequest(Request(c.nextId, data)));
  }

  lemma {:induction false} SendRequestDistinct(c: Conn, data: Payload, tx: Tx)
    requires OneshotsDistinct(c) && FreshTx(c, tx) && c.nextId !in c.replyMap
    ensures OneshotsDistinct(SendRequest(c, data, tx))
  {
    StillUsed(c, SendRequest(c, data, tx));
  }

  lemma {:induction false} TakeMessageFates(c: Conn, m: Message, gone: set<Tx>)
    requires ConnInv(c) && c.at.Selecting?
    ensures FatesAgree(TakeMessage(c.(taken := c.taken + [m]), m, gone))
    ensures OneshotsDistinct(TakeMessage(c.(taken := c.taken + [m]), m, gone))
  {
    var c' := TakeMessage(c.(taken := c.taken + [m]), m, gone);
    forall k | 0 <= k < |c.issued|
      ensures FateAgrees(c', k)
    {
      FirstReplySnoc(c.taken, c.issued[k].at, k, m);
      assert FateAgrees(c, k);
      if m.MReply? && m.reply.id in c.replyMap {
        assert c.replyMap[m.reply.id] == c.issued[m.reply.id].tx;
      }
    }
  }

  lemma {:induction false} CancelFates(c: Conn, gone: set<Tx>)
    requires ConnInv(c) && c.at.ClosingSender?
    ensures FatesAgree(Next(c, SenderClosed(gone))) && OneshotsDistinct(Next(c, SenderClosed(gone)))
  {
    var c' := Next(c, SenderClosed(gone));
    forall k | 0 <= k < |c.issued|
      ensures FateAgrees(c', k)
    {
      assert FateAgrees(c, k);
      if Fate(c, k) == None {
        assert c.replyMap[k] in c.replyMap.Values;
      } else {
        forall j | j in c.replyMap
          ensures c.replyMap[j] != c.issued[k].tx
        {
          assert FateAgrees(c, j);
        }
      }
    }
    forall tx | tx in c'.outcomes
      ensures !FreshTx(c', tx)
    {
      if tx !in c.outcomes {
        var j :| j in c.replyMap && c.replyMap[j] == tx;
        assert c.issued[j].tx == tx;
      }
    }
  }

  lemma IssuedGrows(c: Conn, m: ConnectionMessage)
    requires CanTake(c, External(m))
    ensures Next(c, External(m)).issued ==
      if m.CRequest? then c.issued + [Issue(m.tx, m.data, |c.taken|)] else c.issued
  {}

  /** Inputs that neither issue, answer nor cancel a request. */
  predicate Quiet(i: Input) {
    match i
    case External(m) => !m.CRequest?
    case Internal(m, _) => m.IClose?
    case SenderClosed(_) => false
    case _ => true
  }

  lemma {:induction false} QuietFrame(c: Conn, i: Input)
    requires CanTake(c, i) && Quiet(i)
    ensures var c' := Next(c, i);
            && c'.nextId == c.nextId && c'.replyMap == c.replyMap && c'.outcomes == c.outcomes
            && c'.issued == c.issued && c'.taken == c.taken
            && c'.at.InService() == c.at.InService()
            && (c'.accepted == c.accepted || exists d :: c'.accepted == c.accepted + [MEvent(d)])
  {
    if i.External? && i.message.CEvent? {
      assert Next(c, i).accepted == c.accepted + [MEvent(i.message.event)];
    }
  }

  lemma {:induction false} QuietInv(c: Conn, i: Input)
    requires ConnInv(c) && CanTake(c, i) && Quiet(i)
    ensures ConnInv(Next(c, i))
  {
    QuietFrame(c, i);
    var c' := Next(c, i);
    SameHistory(c, c');
    if c'.accepted != c.accepted {
      var d :| c'.accepted == c.accepted + [MEvent(d)];
      FlatMapSnoc(AsRequest, c.accepted, MEvent(d));
      assert FlatMap(AsRequest, c'.accepted) == FlatMap(AsRequest, c.accepted);
    }
  }

  /** Every step keeps the invariant, as long as no id has been handed out twice. */
  lemma {:induction false} NextInv(c: Conn, i: Input)
    requires ConnInv(c) && CanTake(c, i) && |Next(c, i).issued| <= USIZE
    ensures ConnInv(Next(c, i))
  {
    if Quiet(i) {
      QuietInv(c, i);
    } else if i.External? {
      SendRequestInv(c, i.message.data, i.message.tx);
    } else if i.Internal? {
      TakeMessageInv(c, i.incoming.message, i.gone);
    } else {
      CancelInv(c, i.gone);
    }
  }

  lemma {:induction false} TakeMessageInv(c: Conn, m: Message, gone: set<Tx>)
    requires ConnInv(c) && c.at.Selecting?
    ensures ConnInv(Next(c, Internal(INew(m), gone)))
  {
    TakeMessageFates(c, m, gone);
    var d := Next(c, Internal(INew(m), gone));
    assert d.at.InService() && d.accepted == c.accepted && d.issued == c.issued && d.nextId == c.nextId;
  }

  lemma {:induction false} CancelInv(c: Conn, gone: set<Tx>)
    requires ConnInv(c) && c.at.ClosingSender?
    ensures ConnInv(Next(c, SenderClosed(gone)))
  {
    CancelFates(c, gone);
    var d := Next(c, SenderClosed(gone));
    assert d.accepted == c.accepted && d.issued == c.issued && d.nextId == c.nextId;
  }

  lemma {:induction false} SameHistory(c: Conn, c': Conn)
    requires FatesAgree(c) && OneshotsDistinct(c)
    requires c'.issued == c.issued && c'.taken == c.taken && c'.replyMap == c.replyMap && c'.outcomes == c.outcomes
    requires c'.at.InService() == c.at.InService()
    ensures FatesAgree(c') && OneshotsDistinct(c')
  {
    forall k | 0 <= k < |c.issued|
      ensures FateAgrees(c', k)
    {
      assert FateAgrees(c, k);
      assert Fate(c', k) == Fate(c, k);
    }
  }
}
