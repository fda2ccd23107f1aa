/** What holds of every run of one Connection, whatever its peer, its user and its
    callers do. */
module ConnectionRuns {
  import opened Messages
  import opened Machines
  import opened Sequences
  import opened ConnectionCore

  lemma {:induction false} ExecInv(c: Conn, inputs: seq<Input>)
    requires ConnInv(c) && Exec(c, inputs).Some? && |Exec(c, inputs).value.issued| <= USIZE
    ensures ConnInv(Exec(c, inputs).value)
  {
    if inputs != [] {
      var n := |inputs| - 1;
      IssuedRemain(Exec(c, inputs[..n]).value, inputs[n]);
      ExecInv(c, inputs[..n]);
      NextInv(Exec(c, inputs[..n]).value, inputs[n]);
    }
  }

  lemma IssuedRemain(c: Conn, i: Input)
    requires CanTake(c, i)
    ensures c.issued <= Next(c, i).issued
  {}

  // ----- the Connection is a product of one small automaton per request -----

  /** All that matters about one request: not issued yet (after `seen` others), waiting, or settled. */
  datatype Verdict = Unissued(seen: nat) | Pending(tx: Tx) | Settled(tx: Tx, outcome: Outcome)

  /** The automaton of request k. It looks at no other request. */
  function Judge(v: Verdict, k: nat, i: Input): Verdict {
    match v
    case Unissued(seen) =>
      if i.External? && i.message.CRequest? then
        if seen == k then Pending(i.message.tx) else Unissued(seen + 1)
      else v
    case Pending(tx) =>
      if i.Internal? && i.incoming.INew? && IsReplyTo(i.incoming.message, k) then
        Settled(tx, Delivered(i.gone, tx, Ok(i.incoming.message.reply.data)))
      else if i.SenderClosed? then Settled(tx, Delivered(i.gone, tx, Canceled))
      else v
    case Settled(_, _) => v
  }

  function VerdictOf(inputs: seq<Input>, k: nat): Verdict {
    if inputs == [] then Unissued(0)
    else Judge(VerdictOf(inputs[..|inputs| - 1], k), k, inputs[|inputs| - 1])
  }

  ghost function VerdictIn(c: Conn, k: nat): Verdict
    requires FatesAgree(c)
  {
    if |c.issued| <= k then Unissued(|c.issued|)
    else
      var tx := c.issued[k].tx;
      assert FateAgrees(c, k);
      if k in c.replyMap then Pending(tx) else Settled(tx, c.outcomes[tx])
  }

  /** The oneshot of an entry is not that of another request. */
  lemma {:induction false} EntriesApart(c: Conn, k: nat)
    requires FatesAgree(c) && OneshotsDistinct(c) && k < |c.issued|
    ensures forall id | id in c.replyMap && id != k :: c.replyMap[id] != c.issued[k].tx
    ensures k in c.replyMap <==> c.issued[k].tx in c.replyMap.Values
  {
    forall id | id in c.replyMap && id != k
      ensures c.replyMap[id] != c.issued[k].tx
    {
      assert c.replyMap[id] == c.issued[id].tx;
    }
  }

  lemma {:induction false} JudgeRequest(c: Conn, data: Payload, tx: Tx, k: nat)
    requires ConnInv(c) && c.at.Selecting? && FreshTx(c, tx) && |c.issued| < USIZE
    requires FatesAgree(SendRequest(c, data, tx))
    ensures VerdictIn(SendRequest(c, data, tx), k) ==
      Judge(VerdictIn(c, k), k, External(CRequest(data, tx)))
  {
    SendRequestFates(c, data, tx);
    var d := SendRequest(c, data, tx);
    assert d.issued == c.issued + [Issue(tx, data, |c.taken|)];
    assert d.replyMap == c.replyMap[|c.issued| := tx] && d.outcomes == c.outcomes;
  }

  lemma {:induction false} JudgeMessage(c: Conn, m: Message, gone: set<Tx>, k: nat)
    requires ConnInv(c) && c.at.Selecting?
    requires FatesAgree(Next(c, Internal(INew(m), gone)))
    ensures VerdictIn(Next(c, Internal(INew(m), gone)), k) ==
      Judge(VerdictIn(c, k), k, Internal(INew(m), gone))
  {
    if k < |c.issued| {
      EntriesApart(c, k);
      assert FateAgrees(c, k);
    }
  }

  lemma {:induction false} JudgeCancel(c: Conn, gone: set<Tx>, k: nat)
    requires ConnInv(c) && c.at.ClosingSender? && FatesAgree(Next(c, SenderClosed(gone)))
    ensures VerdictIn(Next(c, SenderClosed(gone)), k) == Judge(VerdictIn(c, k), k, SenderClosed(gone))
  {
    if k < |c.issued| {
      EntriesApart(c, k);
      assert FateAgrees(c, k);
    }
  }

  lemma {:induction false} JudgeStep(c: Conn, i: Input, k: nat)
    requires ConnInv(c) && CanTake(c, i) && |Next(c, i).issued| <= USIZE && FatesAgree(Next(c, i))
    ensures VerdictIn(Next(c, i), k) == Judge(VerdictIn(c, k), k, i)
  {
    if Quiet(i) {
      QuietFrame(c, i);
    } else if i.External? {
      JudgeRequest(c, i.message.data, i.message.tx, k);
    } else if i.Internal? {
      JudgeMessage(c, i.incoming.message, i.gone, k);
    } else {
      JudgeCancel(c, i.gone, k);
    }
  }

  /** Both maps of the Connection, after any run against any peer, are what the automata say. */
  lemma {:induction false} OutcomesAreVerdicts(inputs: seq<Input>, k: nat)
    requires Exec(INIT, inputs).Some? && |Exec(INIT, inputs).value.issued| <= USIZE
    ensures var c := Exec(INIT, inputs).value;
            && ConnInv(c)
            && VerdictOf(inputs, k) == VerdictIn(c, k)
            && match VerdictOf(inputs, k)
               case Unissued(n) => n == |c.issued| <= k && k !in c.replyMap
               case Pending(tx) => k in c.replyMap && c.replyMap[k] == tx && tx !in c.outcomes
               case Settled(tx, o) => k !in c.replyMap && tx in c.outcomes && c.outcomes[tx] == o
  {
    if inputs != [] {
      var n := |inputs| - 1;
      OutcomesAreVerdicts(inputs[..n], k);
      NextInv(Exec(INIT, inputs[..n]).value, inputs[n]);
      JudgeStep(Exec(INIT, inputs[..n]).value, inputs[n], k);
    }
    var c := Exec(INIT, inputs).value;
    if k < |c.issued| {
      assert FateAgrees(c, k);
    }
  }

  ghost predicate Misses(c: Conn, tx: Tx) {
    tx in c.outcomes && c.outcomes[tx] == Unheard
  }

  /** Turn n is where the send to `tx` failed, and its receiver was gone at this turn. */
  ghost predicate MissedAt(inputs: seq<Input>, tx: Tx, n: nat)
    requires Exec(INIT, inputs).Some?
  {
    && n < |inputs| && (inputs[n].Internal? || inputs[n].SenderClosed?) && tx in inputs[n].gone
    && Exec(INIT, inputs[..n]).Some? && !Misses(Exec(INIT, inputs[..n]).value, tx)
    && Exec(INIT, inputs[..n + 1]).Some? && Misses(Exec(INIT, inputs[..n + 1]).value, tx)
  }

  lemma {:induction false} UnheardWasGone(inputs: seq<Input>, tx: Tx) returns (n: nat)
    requires Exec(INIT, inputs).Some? && Misses(Exec(INIT, inputs).value, tx)
    ensures MissedAt(inputs, tx, n)
  {
    var m := |inputs| - 1;
    var c := Exec(INIT, inputs[..m]).value;
    if Misses(c, tx) {
      n := UnheardWasGone(inputs[..m], tx);
      assert inputs[..m][n] == inputs[n];
      assert inputs[..m][..n] == inputs[..n] && inputs[..m][..n + 1] == inputs[..n + 1];
    } else {
      n := m;
      UnheardIsGone(c, inputs[m], tx);
      assert inputs[..m + 1] == inputs;
    }
  }

  lemma UnheardIsGone(c: Conn, i: Input, tx: Tx)
    requires CanTake(c, i) && Misses(Next(c, i), tx) && !Misses(c, tx)
    ensures (i.Internal? || i.SenderClosed?) && tx in i.gone
  {}

  // ----- a settled oneshot stays as it is -----

  lemma {:induction false} OutcomesStay(c: Conn, inputs: seq<Input>, tx: Tx)
    requires ConnInv(c) && tx in c.outcomes
    requires Exec(c, inputs).Some? && |Exec(c, inputs).value.issued| <= USIZE
    ensures tx in Exec(c, inputs).value.outcomes && Exec(c, inputs).value.outcomes[tx] == c.outcomes[tx]
  {
    if inputs != [] {
      var n := |inputs| - 1;
      IssuedRemain(Exec(c, inputs[..n]).value, inputs[n]);
      OutcomesStay(c, inputs[..n], tx);
      ExecInv(c, inputs[..n]);
      OutcomeStays(Exec(c, inputs[..n]).value, inputs[n], tx);
    }
  }

  lemma {:induction false} UsedHasNoEntry(c: Conn, tx: Tx)
    requires FatesAgree(c) && tx in c.outcomes
    ensures forall id | id in c.replyMap :: c.replyMap[id] != tx
  {
    forall id | id in c.replyMap
      ensures c.replyMap[id] != tx
    {
      assert FateAgrees(c, id);
    }
  }

  lemma {:induction false} OutcomeStays(c: Conn, i: Input, tx: Tx)
    requires ConnInv(c) && tx in c.outcomes && CanTake(c, i) && |Next(c, i).issued| <= USIZE
    ensures tx in Next(c, i).outcomes && Next(c, i).outcomes[tx] == c.outcomes[tx]
  {
    UsedHasNoEntry(c, tx);
    if i.External? && i.message.CRequest? {
      RequestKeepsOutcomes(c, i.message.data, i.message.tx);
    }
  }

  lemma {:induction false} RequestKeepsOutcomes(c: Conn, data: Payload, tx: Tx)
    requires ConnInv(c) && FreshTx(c, tx) && c.at.Selecting? && |c.issued| < USIZE
    ensures SendRequest(c, data, tx).outcomes == c.outcomes
  {
    SmallId(|c.issued|);
    SendRequestFates(c, data, tx);
  }

  // ----- replies nobody waits for -----

  /** Equal in all but the record of which peer messages were taken when. */
  ghost predicate Agree(c: Conn, d: Conn) {
    && c.nextId == d.nextId && c.replyMap == d.replyMap && c.at == d.at
    && c.outcomes == d.outcomes && c.accepted == d.accepted
    && |c.issued| == |d.issued|
    && forall k | 0 <= k < |c.issued| :: c.issued[k].tx == d.issued[k].tx && c.issued[k].data == d.issued[k].data
  }

  lemma {:induction false} AgreeNext(c: Conn, d: Conn, i: Input)
    requires Agree(c, d) && CanTake(c, i)
    ensures CanTake(d, i) && Agree(Next(c, i), Next(d, i))
  {
    assert forall tx :: FreshTx(c, tx) ==> FreshTx(d, tx);
  }

  lemma {:induction false} AgreeExec(c: Conn, d: Conn, inputs: seq<Input>)
    requires Agree(c, d) && Exec(c, inputs).Some?
    ensures Exec(d, inputs).Some? && Agree(Exec(c, inputs).value, Exec(d, inputs).value)
  {
    if inputs != [] {
      var n := |inputs| - 1;
      AgreeExec(c, d, inputs[..n]);
      AgreeNext(Exec(c, inputs[..n]).value, Exec(d, inputs[..n]).value, inputs[n]);
    }
  }

  /** A reply to an unknown, a future or an already answered id changes nothing, ever. */
  lemma {:induction false} StrayReplyIsIgnored(c: Conn, stray: Reply, gone: set<Tx>, inputs: seq<Input>)
    requires c.at.Selecting? && stray.id !in c.replyMap && Exec(c, inputs).Some?
    ensures var d := Next(c, Internal(INew(MReply(stray)), gone));
            Exec(d, inputs).Some? && Agree(Exec(c, inputs).value, Exec(d, inputs).value)
  {
    AgreeExec(c, Next(c, Internal(INew(MReply(stray)), gone)), inputs);
  }

  /** A reply settles the request it names and leaves every other entry and oneshot alone. */
  lemma {:induction false} ReplyTouchesOneRequest(c: Conn, r: Reply, gone: set<Tx>, k: nat)
    requires ConnInv(c) && c.at.Selecting? && k < |c.issued| && k != r.id
    ensures var d := Next(c, Internal(INew(MReply(r)), gone)); var tx := c.issued[k].tx;
            && (k in d.replyMap <==> k in c.replyMap)
            && (k in c.replyMap ==> d.replyMap[k] == c.replyMap[k])
            && (tx in d.outcomes <==> tx in c.outcomes)
            && (tx in c.outcomes ==> d.outcomes[tx] == c.outcomes[tx])
  {
    assert FateAgrees(c, k);
    if r.id in c.replyMap {
      assert c.issued[r.id].tx == c.replyMap[r.id];
    }
  }

  // ----- a receiver that is gone -----

  /** Equal but for what the oneshot `tx` holds; if this differs, then in `d` nobody heard it. */
  ghost predicate SameButCell(c: Conn, d: Conn, tx: Tx) {
    && d == c.(outcomes := d.outcomes)
    && d.outcomes.Keys == c.outcomes.Keys
    && (forall t | t in c.outcomes && t != tx :: d.outcomes[t] == c.outcomes[t])
    && (tx in c.outcomes ==> d.outcomes[tx] == c.outcomes[tx] || d.outcomes[tx] == Unheard)
  }

  lemma {:induction false} ReplyUnheard(c: Conn, d: Conn, tx: Tx, m: InternalMessage, gone: set<Tx>)
    requires SameButCell(c, d, tx) && CanTake(c, Internal(m, gone))
    ensures SameButCell(Next(c, Internal(m, gone)), Next(d, Internal(m, gone + {tx})), tx)
  {}

  lemma {:induction false} CancelUnheard(c: Conn, d: Conn, tx: Tx, gone: set<Tx>)
    requires SameButCell(c, d, tx) && c.at.ClosingSender?
    ensures SameButCell(Next(c, SenderClosed(gone)), Next(d, SenderClosed(gone + {tx})), tx)
  {}

  lemma SameFresh(c: Conn, d: Conn)
    requires c.issued == d.issued
    ensures forall tx :: FreshTx(c, tx) <==> FreshTx(d, tx)
  {}

  lemma {:induction false} ExternalUnheard(c: Conn, d: Conn, tx: Tx, m: ConnectionMessage)
    requires SameButCell(c, d, tx) && CanTake(c, External(m))
    ensures CanTake(d, External(m)) && SameButCell(Next(c, External(m)), Next(d, External(m)), tx)
  {
    assert m.CRequest? ==> FreshTx(d, m.tx);
  }

  /** The id k is given to no other request, and stands for the oneshot `tx` and no other. */
  ghost predicate IdIsTaken(c: Conn, k: nat, tx: Tx) {
    && k < |c.issued| && c.issued[k].tx == tx
    && (forall r | r in FlatMap(AsRequest, c.accepted) && r.id == k :: r.data == c.issued[k].data)
    && (forall i, j | 0 <= i < j < |FlatMap(AsRequest, c.accepted)| ::
          FlatMap(AsRequest, c.accepted)[i].id != FlatMap(AsRequest, c.accepted)[j].id)
    && (k in c.replyMap ==> c.replyMap[k] == tx)
    && (forall id | id in c.replyMap && id != k :: c.replyMap[id] != tx)
  }

  lemma {:induction false} IssuedIdIsTaken(c: Conn, k: nat)
    requires ConnInv(c) && k < |c.issued|
    ensures IdIsTaken(c, k, c.issued[k].tx)
  {
    EntriesApart(c, k);
  }

  // ----- shutdown -----

  /** Once the Close event is on offer, every request ever taken has its answer: the first
      reply that came in time, or `Canceled`; only who had left before did not hear it. */
  lemma {:induction false} ShutdownResolvesAll(inputs: seq<Input>, k: nat)
    requires Exec(INIT, inputs).Some? && |Exec(INIT, inputs).value.issued| <= USIZE
    requires var c := Exec(INIT, inputs).value; !c.at.InService() && k < |c.issued|
    ensures var c := Exec(INIT, inputs).value;
            && c.replyMap == map[]
            && c.issued[k].at <= |c.taken|
            && c.issued[k].tx in c.outcomes
            && var reply := FirstReply(c.taken, c.issued[k].at, k);
               var answer := if reply.Some? then Ok(reply.value) else Canceled;
               || c.outcomes[c.issued[k].tx] == answer
               || (c.outcomes[c.issued[k].tx] == Unheard && exists n :: MissedAt(inputs, c.issued[k].tx, n))
  {
    ExecInv(INIT, inputs);
    var c := Exec(INIT, inputs).value;
    assert FateAgrees(c, k);
    if c.outcomes[c.issued[k].tx] == Unheard {
      var n := UnheardWasGone(inputs, c.issued[k].tx);
    }
  }

  // ----- the bound of 2^64 requests is exact -----

  /** n requests, each handed to the Sender, the first of them answered with `early`. */
  function Busy(n: nat, data: Payload, early: Payload): seq<Input>
    requires n > 0
  {
    if n == 1 then
      [External(CRequest(data, 0)), Sent(true), Internal(INew(MReply(Reply(0, early))), {})]
    else
      Busy(n - 1, data, early) + [External(CRequest(data, n - 1))] + [Sent(true)]
  }

  ghost predicate BusyWith(c: Conn, n: nat)
    requires 0 < n <= USIZE
  {
    && c.at == Selecting && c.nextId == n % USIZE
    && |c.issued| == n && (forall k | 0 <= k < n :: c.issued[k].tx == k)
    && (forall id | id in c.replyMap :: 0 < id < n)
  }

  lemma {:induction false} BusyFirst(data: Payload, early: Payload)
    ensures Exec(INIT, Busy(1, data, early)).Some? && BusyWith(Exec(INIT, Busy(1, data, early)).value, 1)
  {
    var r := External(CRequest(data, 0));
    AfterSnoc(TryNext, INIT, [], r);
    AfterSnoc(TryNext, INIT, [r], Sent(true));
    AfterSnoc(TryNext, INIT, [r, Sent(true)], Internal(INew(MReply(Reply(0, early))), {}));
    assert [] + [r] == [r] && [r] + [Sent(true)] == [r, Sent(true)];
    assert Busy(1, data, early) == [r, Sent(true)] + [Internal(INew(MReply(Reply(0, early))), {})];
  }

  lemma {:induction false} BusyNext(c: Conn, n: nat, data: Payload)
    requires 0 < n < USIZE && BusyWith(c, n)
    ensures var d := SendRequest(c, data, n);
            && CanTake(c, External(CRequest(data, n))) && Next(c, External(CRequest(data, n))) == d
            && CanTake(d, Sent(true)) && BusyWith(Next(d, Sent(true)), n + 1)
  {
    var d := SendRequest(c, data, n);
    assert d.issued == c.issued + [Issue(n, data, |c.taken|)];
  }

  lemma {:induction false} BusyState(n: nat, data: Payload, early: Payload)
    requires 0 < n <= USIZE
    ensures Exec(INIT, Busy(n, data, early)).Some? && BusyWith(Exec(INIT, Busy(n, data, early)).value, n)
  {
    if n == 1 {
      BusyFirst(data, early);
    } else {
      BusyState(n - 1, data, early);
      var before := Busy(n - 1, data, early);
      var request := External(CRequest(data, n - 1));
      AfterSnoc(TryNext, INIT, before, request);
      AfterSnoc(TryNext, INIT, before + [request], Sent(true));
      BusyNext(Exec(INIT, before).value, n - 1, data);
    }
  }

  /** One request more and the id 0 is used again: a second completion of the first
      request, sent with `late` as its data, answers the newest caller. */
  lemma {:induction false} WrapAroundMisdelivers(data: Payload, early: Payload, late: Payload)
    ensures var n := 0x1_0000_0000_0000_0000;
            var inputs := Busy(n, data, early) + [External(CRequest(data, n))] + [Sent(true)]
                          + [Internal(INew(MReply(Reply(0, late))), {})];
            && Exec(INIT, inputs).Some?
            && |Exec(INIT, inputs).value.issued| == n + 1
            && n in Exec(INIT, inputs).value.outcomes
            && Exec(INIT, inputs).value.outcomes[n] == Ok(late)
  {
    BusyState(USIZE, data, early);
    var before := Busy(USIZE, data, early);
    var request, reply := External(CRequest(data, USIZE)), Internal(INew(MReply(Reply(0, late))), {});
    AfterSnoc(TryNext, INIT, before, request);
    AfterSnoc(TryNext, INIT, before + [request], Sent(true));
    AfterSnoc(TryNext, INIT, before + [request] + [Sent(true)], reply);
    AnswersNewest(Exec(INIT, before).value, data, late);
  }

  lemma {:induction false} AnswersNewest(c: Conn, data: Payload, late: Payload)
    requires BusyWith(c, USIZE)
    ensures var request, reply := External(CRequest(data, USIZE)), Internal(INew(MReply(Reply(0, late))), {});
            && CanTake(c, request) && CanTake(Next(c, request), Sent(true))
            && CanTake(Next(Next(c, request), Sent(true)), reply)
            && var d := Next(Next(Next(c, request), Sent(true)), reply);
            |d.issued| == USIZE + 1 && USIZE in d.outcomes && d.outcomes[USIZE] == Ok(late)
  {
    assert 0 !in c.replyMap && c.nextId == 0;
    assert FreshTx(c, USIZE);
  }
}
