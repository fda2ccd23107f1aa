/** The Sender actor: its channel, the sink it writes to, and what became of every
    message that entered the channel. */
module SenderCore {
  import opened Messages
  import opened Sequences

  /** Where the actor is parked: on its channel, on the sink, on the Connection's internal
      channel, or on closing the sink. */
  datatype SenderAt = SWaiting | SWriting(message: Message) | SReporting | SClosing | SExited
  {
    function Hand(): seq<Message> { if SWriting? then [message] else [] }
  }

  /** `entered` and `written` are history; `fault` records that a message was not
      serialized or that the sink refused a frame. */
  datatype Sender = Sender(
    at: SenderAt, queue: seq<SenderMessage>, entered: seq<Message>, written: seq<Message>, fault: bool)
  {
    predicate Serving() { !at.SClosing? && !at.SExited? }

    /** A handle can put a message into the channel right now. */
    predicate Accepts() { Room(queue) && !at.SExited? }
  }

  const NEW_SENDER := Sender(SWaiting, [], [], [], false)

  function Push(s: Sender, m: Message): Sender {
    s.(queue := s.queue + [SMessage(m)], entered := s.entered + [m])
  }

  function PushClose(s: Sender): Sender {
    s.(queue := s.queue + [SClose])
  }

  function Take(s: Sender): Sender
    requires s.at.SWaiting? && s.queue != []
  {
    s.(queue := s.queue[1..], at := if s.queue[0].SClose? then SClosing else SWriting(s.queue[0].message))
  }

  function Write(s: Sender): Sender
    requires s.at.SWriting?
  {
    s.(at := SWaiting, written := s.written + [s.at.message])
  }

  /** The write ends in an error. Only an error that closes the websocket is reported; in
      either case the frame may have got out. */
  function Fail(s: Sender, closing: bool, wrote: bool): Sender
    requires s.at.SWriting?
  {
    s.(at := if closing then SReporting else SWaiting, fault := true,
       written := if wrote then s.written + [s.at.message] else s.written)
  }

  function Reported(s: Sender): Sender {
    s.(at := SWaiting)
  }

  /** The sink is closed; the channel is dropped with what is in it. */
  function Exit(s: Sender): Sender {
    s.(at := SExited, queue := [])
  }

  // ----- where the messages are -----

  function Surfaced(s: seq<Message>): seq<ConnectionEvent> { FlatMap(AsEvent, s) }

  /** Everything written, held or queued, in order. */
  function Pipe(s: Sender): seq<Message> {
    s.written + s.at.Hand() + FlatMap(Queued, s.queue)
  }

  /** Whatever entered is still there, in order, as long as the sink took everything; and
      whatever the user will see is still there even after a graceful exit. */
  ghost predicate SenderInv(s: Sender) {
    && |s.queue| <= CAPACITY
    && (!s.Serving() ==> SClose !in s.queue && Surfaced(FlatMap(Queued, s.queue)) == [])
    && (s.at.SExited? ==> s.queue == [])
    && SubSeq(Pipe(s), s.entered)
    && (!s.fault && !s.at.SExited? ==> Pipe(s) == s.entered)
    && (!s.fault ==> Surfaced(Pipe(s)) == Surfaced(s.entered) && s.written <= s.entered)
  }

  lemma NewSenderInv()
    ensures SenderInv(NEW_SENDER)
  {
    assert Pipe(NEW_SENDER) == [];
  }

  lemma {:induction false} WrittenSelection(s: Sender)
    requires SenderInv(s)
    ensures SubSeq(s.written, s.entered)
  {
    var rest := s.at.Hand() + FlatMap(Queued, s.queue);
    assert Pipe(s) == s.written + rest;
    SubSeqCutTail(s.written, rest, s.entered);
  }

  lemma {:induction false} PushPipe(s: Sender, m: Message)
    requires SenderInv(s)
    ensures Pipe(Push(s, m)) == Pipe(s) + [m]
    ensures Surfaced(Pipe(Push(s, m))) == Surfaced(Pipe(s)) + AsEvent(m)
    ensures Surfaced(Push(s, m).entered) == Surfaced(s.entered) + AsEvent(m)
  {
    FlatMapSnoc(Queued, s.queue, SMessage(m));
    FlatMapSnoc(AsEvent, s.entered, m);
    FlatMapSnoc(AsEvent, Pipe(s), m);
  }

  /** A message enters; after the Close only replies do. */
  lemma {:induction false} PushInv(s: Sender, m: Message)
    requires SenderInv(s) && s.Accepts() && (s.Serving() || m.MReply?)
    ensures SenderInv(Push(s, m))
  {
    PushPipe(s, m);
    SubSeqRefl([m]);
    SubSeqConcat(Pipe(s), s.entered, [m], [m]);
    if !s.Serving() {
      FlatMapSnoc(Queued, s.queue, SMessage(m));
      FlatMapSnoc(AsEvent, FlatMap(Queued, s.queue), m);
    }
  }

  lemma {:induction false} PushCloseInv(s: Sender)
    requires SenderInv(s) && s.Accepts() && s.Serving()
    ensures SenderInv(PushClose(s))
  {
    FlatMapSnoc(Queued, s.queue, SClose);
    assert Pipe(PushClose(s)) == Pipe(s);
  }

  lemma {:induction false} TakeInv(s: Sender)
    requires SenderInv(s) && s.at.SWaiting? && s.queue != []
    ensures SenderInv(Take(s))
  {
    assert s.queue == [s.queue[0]];
    FlatMapOne(Queued, s.queue[0]);
    assert Pipe(Take(s)) == Pipe(s);
  }

  lemma {:induction false} WriteInv(s: Sender)
    requires SenderInv(s) && s.at.SWriting?
    ensures SenderInv(Write(s))
  {
    assert Pipe(Write(s)) == Pipe(s);
  }

  lemma {:induction false} LostPipe(s: Sender, s': Sender)
    requires SenderInv(s) && s.at.SWriting? && s'.at.Hand() == []
    requires s'.written == s.written && s'.queue == s.queue
    ensures SubSeq(Pipe(s'), s.entered)
  {
    SubSeqCut(s.written, s.at.Hand(), FlatMap(Queued, s.queue), s.entered);
    assert Pipe(s') == s.written + FlatMap(Queued, s.queue);
  }

  /** A failed write takes nothing out of the pipe but the message in hand, and that only if
      the frame did not get out. */
  lemma {:induction false} FailInv(s: Sender, closing: bool, wrote: bool)
    requires SenderInv(s) && s.at.SWriting?
    ensures SenderInv(Fail(s, closing, wrote))
    ensures Pipe(s) == s.written + [s.at.message] + FlatMap(Queued, s.queue)
    ensures Pipe(Fail(s, closing, wrote)) ==
      if wrote then Pipe(s) else s.written + FlatMap(Queued, s.queue)
  {
    var s' := Fail(s, closing, wrote);
    if wrote {
      Nothing(s'.written);
    } else {
      Nothing(s.written);
      LostPipe(s, s');
    }
  }

  lemma {:induction false} UnsurfacedAreReplies(s: seq<Message>)
    requires Surfaced(s) == []
    ensures forall m | m in s :: m.MReply?
  {
    if s != [] {
      UnsurfacedAreReplies(s[..|s| - 1]);
    }
  }

  lemma {:induction false} LeftIsReply(s: Sender, m: SenderMessage)
    requires SenderInv(s) && s.at.SClosing? && m in s.queue
    ensures m.SMessage? && m.message.MReply?
  {
    UnsurfacedAreReplies(FlatMap(Queued, s.queue));
    if m.SMessage? {
      FlatMapHas(Queued, s.queue, m, m.message);
    }
  }

  /** What goes down with the channel are replies: no request and no event. */
  lemma {:induction false} ExitInv(s: Sender)
    requires SenderInv(s) && s.at.SClosing?
    ensures SenderInv(Exit(s))
    ensures forall m | m in s.queue :: m.SMessage? && m.message.MReply?
    ensures Pipe(s) == Pipe(Exit(s)) + FlatMap(Queued, s.queue)
  {
    forall m | m in s.queue
      ensures m.SMessage? && m.message.MReply?
    {
      LeftIsReply(s, m);
    }
    var rest := FlatMap(Queued, s.queue);
    Nothing(s.written);
    assert Pipe(s) == s.written + rest;
    assert Pipe(Exit(s)) == s.written;
    SubSeqCutTail(s.written, rest, s.entered);
    FlatMapConcat(AsEvent, s.written, rest);
    Nothing(Surfaced(s.written));
  }
}
