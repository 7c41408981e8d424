/** What the invariant amounts to, in the terms of a reader of the history. */
module Consequences {
  import opened Bags
  import opened Messages
  import opened Process
  import opened Trace
  import opened MsgCache
  import opened RpcStats
  import opened Session
  import opened Dataplane
  import opened Invariants

  // ---- Sequence numbers ----

  lemma {:induction false} SentQueuedHasNoConnects(l: Log)
    ensures NoConnects(SentQueued(l))
  {
    match l
    case Nothing =>
    case Then(p, _) => SentQueuedHasNoConnects(p);
  }

  lemma {:induction false} NumbersAreSeqns(l: Log)
    requires NoConnects(Submitted(l))
    ensures Seqns(Submitted(l)) == Numbers(l)
  {
    match l
    case Nothing =>
    case Then(p, e) =>
      if e.Submit? {
        assert Submitted(l)[..|Submitted(p)|] == Submitted(p);
        assert forall i :: 0 <= i < |Submitted(p)| ==> Submitted(p)[i] == Submitted(l)[i];
        NumbersAreSeqns(p);
        SeqnsJoin(Submitted(p), [e.m]);
        assert Submitted(l)[|Submitted(p)|] == e.m;
      } else {
        NumbersAreSeqns(p);
      }
  }

  lemma {:induction false} SentSeqns(l: Log)
    requires WellSent(l)
    ensures Seqns(SentQueued(l)) == Seqns(SentRequests(l))
  {
    match l
    case Nothing =>
    case Then(p, e) =>
      SentSeqns(p);
      if e.Transmit? {
        SeqnsJoin(SentQueued(p), [e.m]);
        SeqnsJoin(SentRequests(p), [e.m]);
      }
  }

  /** The sequence numbers of what was popped, what is in flight and what is unsent are, in this
      order, all those issued. */
  lemma SeqnumsInOrder(s: State, h: Hold)
    requires Core(s, h) && h.front == []
    ensures Seqns(Popped(s.log)) + Seqns(s.cache.inFlight) + Seqns(s.cache.unsent) == Upward(s.seqnum)
  {
    hide Core;
    CoreBooks(s, h);
    var l := s.log;
    SentQueuedHasNoConnects(l);
    assert NoConnects(SentQueued(l) + s.cache.unsent);
    NumbersAreSeqns(l);
    SentSeqns(l);
    SeqnsJoin(SentQueued(l), s.cache.unsent);
    SeqnsJoin(Popped(l), s.cache.inFlight);
  }

  lemma {:induction false} UpwardAt(n: nat, i: nat)
    requires i < |Upward(n)|
    ensures Upward(n)[i] == i + 1
    ensures |Upward(n)| == if n == 0 then 0 else n - 1
  {
    UpwardLength(n);
    if i < |Upward(n)| - 1 {
      UpwardAt(n - 1, i);
    }
  }

  lemma {:induction false} UpwardLength(n: nat)
    ensures |Upward(n)| == if n == 0 then 0 else n - 1
  {
    if n > 1 {
      UpwardLength(n - 1);
    }
  }

  ghost predicate Increasing(q: seq<nat>) {
    forall i, j :: 0 <= i < j < |q| ==> q[i] < q[j]
  }

  lemma {:induction false} InSeqns(q: seq<Msg>, i: nat)
    requires i < |q| && q[i].typ == Request && q[i].op != Connect
    ensures q[i].seqn in Seqns(q)
  {
    if i > 0 {
      InSeqns(q[1..], i - 1);
    }
  }

  /** Requests in a list whose sequence numbers increase have different ones. */
  lemma {:induction false} IncreasingMeansDistinct(q: seq<Msg>, i: nat, j: nat)
    requires Increasing(Seqns(q))
    requires i < j < |q|
    requires q[i].typ == q[j].typ == Request && q[i].op != Connect && q[j].op != Connect
    ensures q[i].seqn < q[j].seqn
  {
    var rest := Seqns(q[1..]);
    if i == 0 {
      assert Seqns(q) == [q[0].seqn] + rest;
      assert q[1..][j - 1] == q[j];
      InSeqns(q[1..], j - 1);
      var k :| 0 <= k < |rest| && rest[k] == q[j].seqn;
      assert Seqns(q)[0] < Seqns(q)[k + 1];
    } else {
      var d := |Seqns(q)| - |rest|;
      forall a, b | 0 <= a < b < |rest| ensures rest[a] < rest[b] {
        assert rest[a] == Seqns(q)[a + d] && rest[b] == Seqns(q)[b + d];
      }
      assert q[1..][i - 1] == q[i] && q[1..][j - 1] == q[j];
      IncreasingMeansDistinct(q[1..], i - 1, j - 1);
    }
  }

  lemma PoppedIncrease(s: State, h: Hold)
    requires Core(s, h) && h.front == []
    ensures Increasing(Seqns(Popped(s.log)))
  {
    SeqnumsInOrder(s, h);
    var q := Seqns(Popped(s.log));
    forall i, j | 0 <= i < j < |q| ensures q[i] < q[j] {
      UpwardAt(s.seqnum, i);
      UpwardAt(s.seqnum, j);
      assert q[i] == Upward(s.seqnum)[i] && q[j] == Upward(s.seqnum)[j];
    }
  }

  // ---- Contexts ----

  lemma {:induction false} QueuedAreCtxs(l: Log)
    ensures Ctxs(Submitted(l)) == Queued(l)
  {
    match l
    case Nothing =>
    case Then(p, e) =>
      QueuedAreCtxs(p);
      if e.Submit? {
        CtxsAppend(Submitted(p), e.m);
      }
  }

  lemma {:induction false} SentCtxs(l: Log)
    requires WellSent(l)
    ensures Ctxs(SentQueued(l)) == Ctxs(SentRequests(l))
  {
    match l
    case Nothing =>
    case Then(p, e) =>
      hide Ctxs;
      SentCtxs(p);
      if e.Transmit? {
        CtxsAppend(SentQueued(p), e.m);
        CtxsAppend(SentRequests(p), e.m);
      }
  }

  lemma {:induction false} PoppedCtxs(l: Log)
    ensures Ctxs(Popped(l)) == Resolved(l) + Lost(l)
  {
    hide Ctxs, CtxBag;
    match l
    case Nothing =>
      NoCtxs();
    case Then(p, e) =>
      PoppedCtxs(p);
      if e.Settle? || e.Purge? || e.Drop? {
        CtxsAppend(Popped(p), e.m);
        AddBetween(Resolved(p), Lost(p), CtxBag(e.m.ctx));
      }
  }

  lemma NoCtxs()
    ensures Ctxs([]) == multiset{}
  {
  }

  lemma CoreBooks(s: State, h: Hold)
    requires Core(s, h) && h.front == []
    ensures Submitted(s.log) == SentQueued(s.log) + s.cache.unsent
    ensures SentRequests(s.log) == Popped(s.log) + s.cache.inFlight
    ensures WellSent(s.log) && Numbers(s.log) == Upward(s.seqnum) && NoConnects(s.cache.unsent)
    ensures h.ctxs == multiset{} ==> Dequeued(s.log) + Resolved(s.log) == Returned(s.log) + Queued(s.log)
  {
  }

  /** A context taken from zebra is back with zebra, or dropped, or in a message in flight or
      unsent: in one of these places, and in no two. */
  lemma ContextsConserved(s: State, h: Hold)
    requires Core(s, h) && h.front == [] && h.ctxs == multiset{}
    ensures Dequeued(s.log) ==
            Returned(s.log) + Lost(s.log) + Ctxs(s.cache.inFlight) + Ctxs(s.cache.unsent)
  {
    hide Ctxs, Core;
    CoreBooks(s, h);
    var l := s.log;
    QueuedAreCtxs(l);
    SentCtxs(l);
    PoppedCtxs(l);
    CtxsJoin(SentQueued(l), s.cache.unsent);
    CtxsJoin(Popped(l), s.cache.inFlight);
    CancelPart(Dequeued(l), Resolved(l), Returned(l), Lost(l), Ctxs(s.cache.inFlight), Ctxs(s.cache.unsent));
  }

  lemma {:induction false} NoDropsNoLoss(l: Log)
    requires NoMisses(l)
    ensures Lost(l) == multiset{} && Leaked(l) == multiset{}
  {
    match l
    case Nothing =>
    case Then(p, _) => NoDropsNoLoss(p);
  }

  // ---- Statistics ----

  /** The table agrees with the queues. */
  lemma StatisticsAgree(s: State, h: Hold, k: Kind, code: ResCode)
    requires Core(s, h)
    ensures var c := CellOf(s.stats.requests, k);
            && c.sent == c.replied + CountKind(s.cache.inFlight, k) + DropCount(s.log, k)
            && c.replied == |c.codes| + c.unkErr
            && (!code.BadCode? ==> c.codes[code] == CodeCount(s.log, k, code))
            && c.unkErr == BadCount(s.log, k)
    ensures s.stats.txOk == SumSent(s.stats.requests, AllKinds()) + s.stats.controlTx
  {
    hide AllKinds;
    SentCount(s.log, k);
    PoppedCount(s.log, k);
    RepliesSplit(s.log, k);
    CodesCounted(s.log, k, code);
    CountKindJoin(Popped(s.log), s.cache.inFlight, k);
    TxIsSum(s.log);
    SumSentIsSumTally(s.stats.requests, s.log, AllKinds());
  }

  // ---- Places ----

  lemma {:induction false} UpToCounts(n: nat, id: nat)
    ensures UpTo(n)[id] == if id < n then 1 else 0
    ensures |UpTo(n)| == n
  {
    if n > 0 {
      UpToCounts(n - 1, id);
    }
  }

  /** The messages that are not in the pool are those queued, in flight, leaked or in hand, and
      each address is in one place only. */
  lemma OnePlaceEach(s: State, h: Hold, id: nat)
    requires Core(s, h)
    ensures Ids(s.cache.pool)[id] + Ids(s.cache.unsent)[id] + Ids(s.cache.inFlight)[id]
            + Leaked(s.log)[id] + h.ids[id] == if id < s.cache.created then 1 else 0
    ensures |s.cache.pool| + |s.cache.unsent| + |s.cache.inFlight| + |Leaked(s.log)| + |h.ids| == s.cache.created
    ensures s.cache.created == Max(PREALLOCATED, s.cache.peak)
  {
    var c := s.cache;
    UpToCounts(c.created, id);
    IdsJoin(c.pool, []);
    IdsJoin(c.unsent, []);
    IdsJoin(c.inFlight, []);
    assert (Ids(c.pool) + Ids(c.unsent) + Ids(c.inFlight) + Leaked(s.log) + h.ids)[id] == UpTo(c.created)[id];
    assert |Ids(c.pool) + Ids(c.unsent) + Ids(c.inFlight) + Leaked(s.log) + h.ids| == c.created;
  }

  // ---- Traces, event by event ----

  function Events(l: Log): seq<Event> {
    match l
    case Nothing => []
    case Then(p, e) => Events(p) + [e]
  }

  /** At position `i` of the history, a session opened at position `j` by an Ok to a Connect has not
      been lost. */
  ghost predicate SessionUp(q: seq<Event>, j: int, i: int)
    requires i <= |q|
  {
    && 0 < j < i
    && q[j].Accept?
    && q[j - 1].Settle? && IsConnect(q[j - 1].m) && q[j - 1].code == Ok
    && forall k :: j < k < i ==> !q[k].LinkDown?
  }

  lemma {:induction false} OpenMeansUp(l: Log)
    requires Open(l) && CleanStarts(l)
    ensures exists j :: SessionUp(Events(l), j, |Events(l)|)
  {
    var p, e := l.past, l.last;
    var q := Events(l);
    assert q[..|q| - 1] == Events(p);
    if e.Accept? {
      assert Events(p)[|Events(p)| - 1] == p.last;
      assert SessionUp(q, |q| - 1, |q|);
    } else {
      OpenMeansUp(p);
      var j :| SessionUp(Events(p), j, |Events(p)|);
      assert forall k :: 0 <= k < |Events(p)| ==> q[k] == Events(p)[k];
      assert SessionUp(q, j, |q|);
    }
  }

  /** Whatever is transmitted, but for Connects, is transmitted in a session that is up. */
  lemma {:induction false} GatedMeansUp(l: Log, i: nat)
    requires Gated(l) && CleanStarts(l)
    requires i < |Events(l)| && Events(l)[i].Transmit? && !IsConnect(Events(l)[i].m)
    ensures exists j :: SessionUp(Events(l), j, i)
  {
    var p := l.past;
    var q := Events(l);
    assert forall k :: 0 <= k < |Events(p)| ==> q[k] == Events(p)[k];
    if i == |Events(p)| {
      OpenMeansUp(p);
      var j :| SessionUp(Events(p), j, i);
      assert SessionUp(q, j, i);
    } else {
      GatedMeansUp(p, i);
      var j :| SessionUp(Events(p), j, i);
      assert SessionUp(q, j, i);
    }
  }

  /** A transmission blocked at position `i` leaves a write notification owed until one fires. */
  lemma {:induction false} BlockedMeansWanted(l: Log, i: nat)
    requires i < |Events(l)| && Events(l)[i].Blocked?
    requires forall k :: i < k < |Events(l)| ==> !Events(l)[k].WriteFired?
    ensures WantsWrite(l)
  {
    var p := l.past;
    var q := Events(l);
    assert q[|q| - 1] == l.last;
    assert forall k :: 0 <= k < |Events(p)| ==> q[k] == Events(p)[k];
    if i < |q| - 1 {
      BlockedMeansWanted(p, i);
    }
  }

  /** When a session opens, every request transmitted before was popped before. */
  lemma {:induction false} CleanMeansNoneOutstanding(l: Log, i: nat)
    requires CleanStarts(l)
    requires i < |Events(l)| && Events(l)[i].Accept?
    ensures exists p: Log :: Events(p) == Events(l)[..i] && SentRequests(p) == Popped(p)
  {
    var p := l.past;
    var q := Events(l);
    assert q[..|Events(p)|] == Events(p);
    if i < |Events(p)| {
      assert q[i] == Events(p)[i];
      CleanMeansNoneOutstanding(p, i);
      assert q[..i] == Events(p)[..i];
    }
  }

  /** What is submitted for a context suits it. */
  lemma {:induction false} SubmittedSuits(l: Log, i: nat)
    requires Justified(l) && i < |Submitted(l)| && Submitted(l)[i].ctx.Some?
    ensures var m := Submitted(l)[i]; Suits(m.op, m.obj, m.ctx.value)
  {
    hide Suits, Reason;
    var p := l.past;
    if i < |Submitted(p)| {
      assert Submitted(l)[i] == Submitted(p)[i];
      SubmittedSuits(p, i);
    }
  }

  /** What a Connect told was known before it. */
  lemma {:induction false} IntroducedMeansKnown(l: Log, i: nat)
    requires Introduced(l)
    requires i < |Events(l)| && Events(l)[i].Transmit? && IsConnect(Events(l)[i].m)
    ensures exists p: Log :: Events(p) == Events(l)[..i] && Events(l)[i].m.obj == ConnInfo(KnownSynt(p))
  {
    var p := l.past;
    var q := Events(l);
    assert q[..|Events(p)|] == Events(p);
    if i < |Events(p)| {
      assert q[i] == Events(p)[i];
      IntroducedMeansKnown(p, i);
      assert q[..i] == Events(p)[..i];
    }
  }

  /** The response received last before position `i` is for request `m`, with code `code`. */
  ghost predicate AnsweredBy(q: seq<Event>, i: int, m: Msg, code: ResCode)
    requires i <= |q|
  {
    exists j :: 0 <= j < i && q[j].Receive? && q[j].msg.ResponseMsg?
                && q[j].msg.resp.op == m.op && q[j].msg.resp.seqn == m.seqn && q[j].msg.resp.rescode == code
                && forall k :: j < k < i ==> !q[k].Receive?
  }

  lemma {:induction false} LastResponseWasReceived(l: Log, m: Msg, code: ResCode)
    requires Fits(m, code, LastResponse(l)) && !IsConnect(m)
    ensures AnsweredBy(Events(l), |Events(l)|, m, code)
  {
    var p := l.past;
    var q := Events(l);
    assert q[..|Events(p)|] == Events(p);
    if l.last.Receive? {
      assert q[|q| - 1] == l.last;
    } else {
      LastResponseWasReceived(p, m, code);
      var j :| 0 <= j < |Events(p)| && Events(p)[j].Receive? && Events(p)[j].msg.ResponseMsg?
               && Events(p)[j].msg.resp.op == m.op && Events(p)[j].msg.resp.seqn == m.seqn
               && Events(p)[j].msg.resp.rescode == code
               && forall k :: j < k < |Events(p)| ==> !Events(p)[k].Receive?;
      assert q[j] == Events(p)[j];
      assert forall k :: j < k < |q| ==> k == |q| - 1 || q[k] == Events(p)[k];
    }
  }

  ghost predicate ShutdownBegun(q: seq<Event>, i: int)
    requires i <= |q|
  {
    exists k :: 0 <= k < i && q[k].Finalizing?
  }

  lemma {:induction false} ShutdownWasAnnounced(l: Log)
    ensures ShuttingDown(l) == ShutdownBegun(Events(l), |Events(l)|)
  {
    match l
    case Nothing =>
    case Then(p, e) =>
      ShutdownWasAnnounced(p);
      var q := Events(l);
      assert q[|q| - 1] == e;
      assert forall k :: 0 <= k < |q| - 1 ==> q[k] == Events(p)[k];
  }

  /** The verdict given at position `i` of the history was called for by the event before. */
  ghost predicate Deserved(q: seq<Event>, i: int)
    requires 0 <= i < |q| && q[i].HandBack?
  {
    var c, v := q[i].c, q[i].v;
    i > 0 && v != BugValue &&
    match q[i - 1]
    case Settle(m, code) => m.ctx == Some(c) && AnsweredBy(q, i - 1, m, code)
                            && v == if code == Ok || code == Ignored then Success else Failure
    case Purge(m) => m.ctx == Some(c) && v == Success
    case Dequeue(d) =>
      && d == c
      && (if ShutdownBegun(q, i) then v == Failure
          else !ConcernsDataplane(c) && v == if c.op == Unlisted then Failure else Success)
    case SkipKernel(d) => d == c && !ShutdownBegun(q, i) && SparesKernel(c) && !ConcernsDataplane(c) && v == Success
    case _ => false
  }

  /** Every verdict is the result code of the response to the request made for that very context, a
      success in a purge, or the decision taken about the context when it arrived. */
  lemma {:induction false} VerdictsDeserved(l: Log, i: nat)
    requires Justified(l) && Matched(l) && SettledWork(l)
    requires i < |Events(l)| && Events(l)[i].HandBack?
    ensures Deserved(Events(l), i)
  {
    var p := l.past;
    var q := Events(l);
    var r := Events(p);
    assert q[..|r|] == r;
    if i < |r| {
      VerdictsDeserved(p, i);
      assert q[i] == r[i] && q[i - 1] == r[i - 1];
      assert ShutdownBegun(q, i) == ShutdownBegun(r, i) by {
        assert forall k :: 0 <= k < |r| ==> q[k] == r[k];
      }
      if q[i - 1].Settle? {
        AnsweredPrefix(q, r, i - 1, q[i - 1].m, q[i - 1].code);
      }
    } else {
      assert q[i - 1] == r[|r| - 1] == p.last;
      ShutdownAt(q, i, l);
      if p.last.Settle? {
        LastResponseWasReceived(p.past, p.last.m, p.last.code);
        assert r[..|Events(p.past)|] == Events(p.past);
        AnsweredPrefix(q, Events(p.past), i - 1, p.last.m, p.last.code);
      }
    }
  }

  /** Shutdown, as seen by the verdict at the end of the history. */
  lemma ShutdownAt(q: seq<Event>, i: int, l: Log)
    requires l.Then? && l.past.Then? && q == Events(l) && i == |q| - 1
    requires !l.past.last.Finalizing?
    ensures ShutdownBegun(q, i) == ShuttingDown(l.past) == ShuttingDown(l.past.past)
  {
    ShutdownWasAnnounced(l.past);
    assert forall k :: 0 <= k < i ==> q[k] == Events(l.past)[k];
  }

  lemma AnsweredPrefix(q: seq<Event>, r: seq<Event>, i: int, m: Msg, code: ResCode)
    requires i <= |r| <= |q| && (forall k :: 0 <= k < |r| ==> q[k] == r[k])
    requires AnsweredBy(r, i, m, code)
    ensures AnsweredBy(q, i, m, code)
  {
    var j :| 0 <= j < i && r[j].Receive? && r[j].msg.ResponseMsg?
             && r[j].msg.resp.op == m.op && r[j].msg.resp.seqn == m.seqn && r[j].msg.resp.rescode == code
             && forall k :: j < k < i ==> !r[k].Receive?;
    assert q[j] == r[j];
  }

  /** Connects hold no context when they are settled. */
  predicate SettledWork(l: Log) {
    match l
    case Nothing => true
    case Then(p, Settle(m, _)) => (IsConnect(m) ==> m.ctx == None) && SettledWork(p)
    case Then(p, _) => SettledWork(p)
  }

  lemma {:induction false} PoppedSettledWork(l: Log)
    requires forall i :: 0 <= i < |Popped(l)| ==> IsConnect(Popped(l)[i]) ==> Popped(l)[i].ctx == None
    ensures SettledWork(l)
  {
    match l
    case Nothing =>
    case Then(p, e) =>
      assert Popped(p) <= Popped(l);
      assert forall i :: 0 <= i < |Popped(p)| ==> Popped(p)[i] == Popped(l)[i];
      PoppedSettledWork(p);
      if e.Settle? {
        assert Popped(l)[|Popped(p)|] == e.m;
      }
  }

  lemma {:induction false} SentConnectsHaveNoCtx(l: Log)
    requires WellSent(l)
    ensures forall i :: 0 <= i < |SentRequests(l)| ==> IsConnect(SentRequests(l)[i]) ==> SentRequests(l)[i].ctx == None
  {
    match l
    case Nothing =>
    case Then(p, _) => SentConnectsHaveNoCtx(p);
  }
}
