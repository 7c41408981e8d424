/** Handling what the dataplane sends keeps the invariant, whatever it is. */
module Receiving {
  import opened Bags
  import opened Messages
  import opened Process
  import opened Trace
  import opened MsgCache
  import opened RpcStats
  import opened Session
  import opened Dataplane
  import opened Invariants
  import opened Sending

  // ---- Popping a request ----

  /** `h`, and `m` besides. */
  function Plus(h: Hold, m: Msg): Hold {
    h.(ids := h.ids + multiset{m.id}, ctxs := h.ctxs + CtxBag(m.ctx))
  }

  /** The request can be popped with this event, given the response received last. */
  predicate PopReason(m: Msg, e: Event, code: ResCode, last: Option<Response>) {
    || (e == Settle(m, code) && Fits(m, code, last))
    || (e == Purge(m) && code == Ok && last.Some? && last.value.op == Connect && last.value.info.Some?)
  }

  function Popping(s: State, e: Event, code: ResCode): State
    requires s.cache.inFlight != []
  {
    WithStats(PopHead(s, e), CountReplied(s.stats, KindOf(s.cache.inFlight[0]), code))
  }

  lemma PopLaw(l: Log, e: Event, code: ResCode, front: seq<Msg>, unsent: seq<Msg>, q: seq<Msg>, seqnum: nat,
               ctxs: multiset<Ctx>)
    requires Fifo(l, front, unsent, q) && Numbered(l, seqnum) && Balanced(l, ctxs) && Lawful(l)
    requires q != [] && q[0].typ == Request && PopReason(q[0], e, code, LastResponse(l))
    ensures var l1 := Then(l, e);
            && Fifo(l1, front, unsent, q[1..])
            && Numbered(l1, seqnum) && Balanced(l1, ctxs + CtxBag(q[0].ctx)) && Lawful(l1)
  {
    assert q == [q[0]] + q[1..];
    assert Popped(l) + q == (Popped(l) + [q[0]]) + q[1..];
    assert Dequeued(l) + (Resolved(l) + CtxBag(q[0].ctx)) == (Dequeued(l) + Resolved(l)) + CtxBag(q[0].ctx);
  }

  lemma PoppingFields(s: State, e: Event, code: ResCode)
    requires s.cache.inFlight != []
    ensures var t := Popping(s, e, code);
            && t.status == s.status && t.sock == s.sock && t.connected == s.connected && t.ready == s.ready
            && t.timer == s.timer && t.sendArmed == s.sendArmed && t.finalizing == s.finalizing && t.synt == s.synt
            && t.recvArmed == s.recvArmed && t.inbox == s.inbox && t.env == s.env
            && t.seqnum == s.seqnum && t.log == Then(s.log, e)
            && t.cache == s.cache.(inFlight := s.cache.inFlight[1..])
            && t.stats.txOk == s.stats.txOk && t.stats.controlTx == s.stats.controlTx
            && t.stats.requests == CountReplied(s.stats, KindOf(s.cache.inFlight[0]), code).requests
  {
  }

  lemma RequestsTail(q: seq<Msg>)
    requires AllRequests(q) && q != []
    ensures AllRequests(q[1..]) && q[0].typ == Request
  {
  }

  lemma PopKeeps(s: State, e: Event, code: ResCode, h: Hold)
    requires Core(s, h) && s.cache.inFlight != []
    requires PopReason(s.cache.inFlight[0], e, code, LastResponse(s.log))
    ensures Core(Popping(s, e, code), Plus(h, s.cache.inFlight[0]))
  {
    hide Partitioned, Counted, Coupled, Phases, Fifo, Lawful, Balanced, Numbered, AllRequests, AllQueueable, AllIdle;
    hide Popping, CountReplied, LastResponse;
    var m := s.cache.inFlight[0];
    PoppingFields(s, e, code);
    RequestsTail(s.cache.inFlight);
    LogPartition(s.cache, s.log, e, h.ids);
    PopPartition(s.cache, Then(s.log, e), h.ids);
    CountedReply(s.stats, s.log, m, e, code);
    PoppedPhases(s.sock, s.connected, s.ready, s.timer, s.cache.inFlight);
    PopLaw(s.log, e, code, h.front, s.cache.unsent, s.cache.inFlight, s.seqnum, h.ctxs);
  }

  // ---- Returning a context ----

  lemma HandBackLaw(l: Log, c: Ctx, v: Verdict, front: seq<Msg>, unsent: seq<Msg>, q: seq<Msg>, seqnum: nat,
                    ctxs: multiset<Ctx>)
    requires Fifo(l, front, unsent, q) && Numbered(l, seqnum) && Balanced(l, ctxs) && Lawful(l)
    requires Reason(l, c, v) && v != BugValue && c in ctxs
    ensures var l1 := Then(l, HandBack(c, v));
            && Fifo(l1, front, unsent, q)
            && Numbered(l1, seqnum) && Balanced(l1, ctxs - multiset{c}) && Lawful(l1)
  {
  }

  lemma HandBackKeeps(s: State, c: Ctx, v: Verdict, h: Hold)
    requires Core(s, h)
    requires Reason(s.log, c, v) && v != BugValue && c in h.ctxs
    ensures Core(Note(s, HandBack(c, v)), h.(ctxs := h.ctxs - multiset{c}))
  {
    hide Partitioned, Counted, Coupled, Phases, Contents, Tight, Fifo, Lawful, Balanced, Numbered;
    LogPartition(s.cache, s.log, HandBack(c, v), h.ids);
    CountedOther(s.stats.txOk, s.stats.controlTx, s.stats.requests, s.log, HandBack(c, v));
    HandBackLaw(s.log, c, v, h.front, s.cache.unsent, s.cache.inFlight, s.seqnum, h.ctxs);
  }

  /** The state after the head request, made for a context, was settled. */
  function WorkDone(s: State, e: Event, resp: Response): State
    requires s.cache.inFlight != [] && s.cache.inFlight[0].ctx.Some?
  {
    var m := s.cache.inFlight[0];
    var t := Note(Popping(s, e, resp.rescode), HandBack(m.ctx.value, VerdictOf(resp.rescode)));
    t.(cache := Recycled(t.cache, m.(ctx := None)))
  }

  lemma SettlingWork(s: State, e: Event, resp: Response, purged: bool)
    requires s.status == Running && s.cache.inFlight != []
    requires var m := s.cache.inFlight[0]; IsWork(m) && resp.op == m.op
    ensures SettleMsg(PopHead(s, e), resp, s.cache.inFlight[0], purged) == WorkDone(s, e, resp)
  {
  }

  lemma PlusAndLess(h: Hold, m: Msg)
    requires m.ctx.Some?
    ensures var h1 := Plus(h, m);
            var h2 := h1.(ctxs := h1.ctxs - multiset{m.ctx.value});
            && m.ctx.value in h1.ctxs && m.id in h2.ids
            && h2.(ids := h2.ids - multiset{m.id}) == h
  {
    AddAndTake(h.ids, multiset{m.id});
    AddAndTake(h.ctxs, multiset{m.ctx.value});
  }

  lemma ReasonToReturn(l: Log, e: Event, m: Msg, code: ResCode)
    requires m.ctx.Some? && (e == Settle(m, code) || (e == Purge(m) && code == Ok))
    ensures Reason(Then(l, e), m.ctx.value, VerdictOf(code)) && VerdictOf(code) != BugValue
  {
  }

  /** Settling a request made for a context: it goes back with the verdict, and the message is
      recycled. */
  lemma WorkDoneKeeps(s: State, e: Event, resp: Response, h: Hold)
    requires Core(s, h) && s.cache.inFlight != []
    requires var m := s.cache.inFlight[0]; IsWork(m) && resp.op == m.op
    requires PopReason(s.cache.inFlight[0], e, resp.rescode, LastResponse(s.log))
    ensures Core(WorkDone(s, e, resp), h)
  {
    hide Core, Popping, Plus, Recycled, Reason, VerdictOf;
    var m := s.cache.inFlight[0];
    var c := m.ctx.value;
    var v := VerdictOf(resp.rescode);
    var s1 := Popping(s, e, resp.rescode);
    var h1 := Plus(h, m);
    PoppingFields(s, e, resp.rescode);
    PopKeeps(s, e, resp.rescode, h);
    PlusAndLess(h, m);
    ReasonToReturn(s.log, e, m, resp.rescode);
    HandBackKeeps(s1, c, v, h1);
    RecycleKeeps(Note(s1, HandBack(c, v)), h1.(ctxs := h1.ctxs - multiset{c}), m.(ctx := None));
  }

  lemma CoreRuns(s: State, h: Hold)
    requires Core(s, h)
    ensures s.status == Running
    ensures s.cache.inFlight != [] ==> IsWork(s.cache.inFlight[0]) || IsGoodConnect(s.cache.inFlight[0])
  {
  }

  // ---- Becoming ready ----

  function Accepted(s: State, synt: nat): State {
    Note(s.(synt := synt, ready := true), Accept)
  }

  lemma AcceptKeeps(s: State, synt: nat, h: Hold)
    requires Core(s, h) && s.connected && s.cache.inFlight == [] && ConnectAcked(s.log)
    requires synt == KnownSynt(Then(s.log, Accept))
    ensures Core(Accepted(s, synt), h)
  {
    hide Partitioned, Counted, Contents, Tight;
    LogPartition(s.cache, s.log, Accept, h.ids);
    CountedOther(s.stats.txOk, s.stats.controlTx, s.stats.requests, s.log, Accept);
  }

  function SyntAfter(s: State, resp: Response): nat {
    if resp.info.Some? then resp.info.value else s.synt
  }

  /** The token recorded is the one in the response to the Connect. */
  lemma TokenRecorded(s: State, e: Event, resp: Response, h: Hold)
    requires Core(s, h) && e.Settle? && LastResponse(s.log) == Some(resp)
    ensures KnownSynt(Then(Then(s.log, e), Accept)) == SyntAfter(s, resp)
  {
    hide Partitioned, Counted, Coupled, Tight, Fifo, Lawful, Balanced, Numbered, Contents, Phases;
    assert LastResponse(Then(s.log, e)) == Some(resp) && KnownSynt(Then(s.log, e)) == KnownSynt(s.log);
  }

  /** Popping an acknowledged Connect makes the dataplane ready, with nothing in flight. */
  lemma ConnectAckedKeeps(s: State, resp: Response, h: Hold)
    requires Core(s, h) && s.cache.inFlight != [] && resp.rescode == Ok
    requires var m := s.cache.inFlight[0]; IsConnect(m) && Fits(m, Ok, LastResponse(s.log))
    requires LastResponse(s.log) == Some(resp)
    ensures var m := s.cache.inFlight[0];
            var t := Accepted(Popping(s, Settle(m, Ok), Ok), SyntAfter(s, resp));
            && Core(t, h.(ids := h.ids + multiset{m.id}))
            && t.cache.inFlight == [] && t.connected && !s.ready && IsGoodConnect(m)
  {
    hide Partitioned, Counted, Coupled, Tight, Fifo, Lawful, Balanced, Numbered, Flagged;
    var m := s.cache.inFlight[0];
    PoppedPhases(s.sock, s.connected, s.ready, s.timer, s.cache.inFlight);
    PopKeeps(s, Settle(m, Ok), Ok, h);
    assert Plus(h, m) == h.(ids := h.ids + multiset{m.id});
    TokenRecorded(s, Settle(m, Ok), resp, h);
    AcceptKeeps(Popping(s, Settle(m, Ok), Ok), SyntAfter(s, resp), Plus(h, m));
  }

  lemma RefusedState(s: State, resp: Response, purged: bool)
    requires s.cache.inFlight != [] && s.status == Running && resp.rescode != Ok && resp.op == Connect
    ensures var m := s.cache.inFlight[0];
            var e := Settle(m, resp.rescode);
            var t := SettleMsg(PopHead(s, e), resp, m, purged);
            t.status == Aborted && t.(status := Running) == Popping(s, e, resp.rescode)
  {
    hide CountReplied, Recycled, SendPending;
  }

  /** A refused Connect ends the run. */
  lemma RefusedConnectAborts(s: State, resp: Response, purged: bool, h: Hold)
    requires Core(s, h) && s.cache.inFlight != [] && resp.rescode != Ok && resp.op == Connect
    requires var m := s.cache.inFlight[0]; IsConnect(m) && Fits(m, resp.rescode, LastResponse(s.log))
    ensures var m := s.cache.inFlight[0];
            AbortedWell(SettleMsg(PopHead(s, Settle(m, resp.rescode)), resp, m, purged), h)
  {
    hide Core, SettleMsg, Popping, PopHead;
    var m := s.cache.inFlight[0];
    CoreRuns(s, h);
    PopKeeps(s, Settle(m, resp.rescode), resp.rescode, h);
    assert Plus(h, m) == WithId(h, m.id);
    RefusedState(s, resp, purged);
  }

  // ---- The purge ----

  /** What a purge leaves alone, as far as the other end goes. */
  ghost predicate SamePeer(s: State, t: State) {
    && PeerOf(t.log) == PeerOf(s.log)
    && PeerOk(t.log) == PeerOk(s.log)
    && NoMisses(t.log) == NoMisses(s.log)
    && LastResponse(t.log) == LastResponse(s.log)
    && t.connected == s.connected
  }

  /** What one round does to what the dataplane said: `acked` tells that a Connect was popped. */
  ghost predicate PurgeResult(s: State, t: State, resp: Response, acked: bool) {
    && SamePeer(s, t)
    && t.synt == (if acked then SyntAfter(s, resp) else s.synt)
    && t.ready == (acked || s.ready)
    && t.cache.unsent == s.cache.unsent
    && SentQueued(t.log) == SentQueued(s.log) && SentRequests(t.log) == SentRequests(s.log)
  }

  /** Neither end of the socket is concerned. */
  lemma OffTheWire(l: Log, e: Event)
    requires e.Purge? || e.Settle? || e.HandBack? || e.Accept?
    ensures PeerOf(Then(l, e)) == PeerOf(l) && PeerOk(Then(l, e)) == PeerOk(l)
    ensures NoMisses(Then(l, e)) == NoMisses(l) && LastResponse(Then(l, e)) == LastResponse(l)
    ensures SentQueued(Then(l, e)) == SentQueued(l) && SentRequests(Then(l, e)) == SentRequests(l)
  {
  }

  lemma PurgeWorkKeeps(s: State, resp: Response, h: Hold)
    requires Core(s, h) && s.cache.inFlight != [] && IsWork(s.cache.inFlight[0])
    requires LastResponse(s.log) == Some(resp) && resp.op == Connect && resp.info.Some?
    ensures Core(PurgeOne(s, resp), h) && PurgeResult(s, PurgeOne(s, resp), resp, false)
  {
    hide Core, SettleMsg;
    var m := s.cache.inFlight[0];
    CoreRuns(s, h);
    SettlingWork(s, Purge(m), FakeOk(m), true);
    WorkDoneKeeps(s, Purge(m), FakeOk(m), h);
    OffTheWire(s.log, Purge(m));
    OffTheWire(Then(s.log, Purge(m)), HandBack(m.ctx.value, Success));
  }

  /** Popping the Connect: the dataplane is ready, and the message is recycled. */
  lemma PurgedConnect(s: State, resp: Response)
    requires s.status == Running && s.cache.inFlight != [] && resp.rescode == Ok && resp.op == Connect
    requires IsConnect(s.cache.inFlight[0])
    ensures var m := s.cache.inFlight[0];
            var t := Accepted(Popping(s, Settle(m, Ok), Ok), SyntAfter(s, resp));
            PurgeOne(s, resp) == t.(cache := Recycled(t.cache, m))
  {
    hide CountReplied, Recycled;
  }

  lemma PurgedConnectResult(s: State, resp: Response)
    requires s.cache.inFlight != []
    ensures var m := s.cache.inFlight[0];
            var t := Accepted(Popping(s, Settle(m, Ok), Ok), SyntAfter(s, resp));
            PurgeResult(s, t.(cache := Recycled(t.cache, m)), resp, true)
  {
    hide PeerOf, PeerOk, NoMisses, LastResponse, SentQueued, SentRequests, CountReplied;
    var m := s.cache.inFlight[0];
    OffTheWire(s.log, Settle(m, Ok));
    OffTheWire(Then(s.log, Settle(m, Ok)), Accept);
  }

  lemma PurgeConnectKeeps(s: State, resp: Response, h: Hold)
    requires Core(s, h) && s.cache.inFlight != [] && IsConnect(s.cache.inFlight[0])
    requires LastResponse(s.log) == Some(resp) && resp.op == Connect && resp.info.Some? && resp.rescode == Ok
    ensures Core(PurgeOne(s, resp), h) && PurgeResult(s, PurgeOne(s, resp), resp, true)
  {
    hide Core, PurgeOne, PurgeResult, Accepted, Popping, Recycled;
    var m := s.cache.inFlight[0];
    CoreRuns(s, h);
    PurgedConnect(s, resp);
    PurgedConnectResult(s, resp);
    ConnectAckedKeeps(s, resp, h);
    var h1 := h.(ids := h.ids + multiset{m.id});
    RecycleKeeps(Accepted(Popping(s, Settle(m, Ok), Ok), SyntAfter(s, resp)), h1, m);
    assert h1.(ids := h1.ids - multiset{m.id}) == h by {
      AddAndTake(h.ids, multiset{m.id});
    }
  }

  lemma PurgeOneKeeps(s: State, resp: Response, h: Hold)
    requires Core(s, h) && s.cache.inFlight != []
    requires LastResponse(s.log) == Some(resp) && resp.op == Connect && resp.info.Some?
    ensures var t := PurgeOne(s, resp);
            var m := s.cache.inFlight[0];
            if IsConnect(m) && resp.rescode != Ok then AbortedWell(t, h)
            else Core(t, h) && PurgeResult(s, t, resp, IsConnect(m))
  {
    hide Core, PurgeResult, SettleMsg, AbortedWell;
    CoreRuns(s, h);
    if !IsConnect(s.cache.inFlight[0]) {
      PurgeWorkKeeps(s, resp, h);
    } else if resp.rescode == Ok {
      PurgeConnectKeeps(s, resp, h);
    } else {
      RefusedConnectAborts(s, resp, true, h);
    }
  }

  lemma {:induction false} PurgeKeeps(s: State, resp: Response, h: Hold)
    requires Core(s, h)
    requires LastResponse(s.log) == Some(resp) && resp.op == Connect && resp.info.Some?
    ensures var t := PurgeInFlight(s, resp);
            if !NoConnects(s.cache.inFlight) && resp.rescode != Ok then AbortedWell(t, h)
            else
              && Core(t, h)
              && t.cache.inFlight == []
              && PurgeResult(s, t, resp, !NoConnects(s.cache.inFlight))
    decreases |s.cache.inFlight|
  {
    hide Core, AbortedWell, PurgeOne, PurgeInFlight, PurgeResult, NoConnects;
    CoreRuns(s, h);
    PurgeByOne(s, resp);
    var q := s.cache.inFlight;
    if q != [] {
      var t := PurgeOne(s, resp);
      PurgeOneKeeps(s, resp, h);
      HeadConnect(s, h);
      if IsConnect(q[0]) && resp.rescode != Ok {
        PurgeStops(t, resp, h);
      } else {
        PurgeResponse(s, t, resp, IsConnect(q[0]));
        PurgeKeeps(t, resp, h);
        if NoConnects(q[1..]) || resp.rescode == Ok {
          PurgeThen(s, t, PurgeInFlight(t, resp), resp, IsConnect(q[0]), !NoConnects(q[1..]));
        }
      }
    } else {
      PurgeNothing(s, resp);
    }
  }

  lemma PurgeByOne(s: State, resp: Response)
    ensures PurgeInFlight(s, resp) ==
            if s.status == Aborted || s.cache.inFlight == [] then s else PurgeInFlight(PurgeOne(s, resp), resp)
  {
    hide PurgeOne;
  }

  lemma PurgeStops(s: State, resp: Response, h: Hold)
    requires AbortedWell(s, h)
    ensures PurgeInFlight(s, resp) == s
  {
    hide Core;
  }

  lemma PurgeResponse(s: State, t: State, resp: Response, acked: bool)
    requires PurgeResult(s, t, resp, acked)
    ensures LastResponse(t.log) == LastResponse(s.log)
  {
  }

  lemma PurgeNothing(s: State, resp: Response)
    ensures PurgeResult(s, s, resp, false) && NoConnects([])
  {
  }

  lemma PurgeThen(s: State, t: State, u: State, resp: Response, first: bool, later: bool)
    requires PurgeResult(s, t, resp, first) && PurgeResult(t, u, resp, later)
    requires resp.info.Some?
    ensures PurgeResult(s, u, resp, first || later)
  {
  }

  lemma HeadConnect(s: State, h: Hold)
    requires Core(s, h) && s.cache.inFlight != []
    ensures var q := s.cache.inFlight;
            && NoConnects(q) == (!IsConnect(q[0]) && NoConnects(q[1..]))
            && (IsConnect(q[0]) ==> q[1..] == [])
  {
    var q := s.cache.inFlight;
    PoppedPhases(s.sock, s.connected, s.ready, s.timer, q);
    if !IsConnect(q[0]) && NoConnects(q[1..]) {
      forall i | 0 <= i < |q| ensures !IsConnect(q[i]) {
        if i > 0 {
          assert q[i] == q[1..][i - 1];
        }
      }
    }
    if NoConnects(q) {
      forall i | 0 <= i < |q[1..]| ensures !IsConnect(q[1..][i]) {
        assert q[1..][i] == q[i + 1];
      }
    }
  }

  // ---- The other end, on a response ----

  /** A response the dataplane could give is for the head of the in-flight queue, unless it shows a
      restart. */
  lemma PeerMeansExpected(l: Log, resp: Response, q: seq<Msg>, synt: nat, ready: bool, connected: bool)
    requires Coupled(l, q, synt, ready, connected) && AllRequests(q)
    requires PeerOk(Then(l, Receive(ResponseMsg(resp))))
    requires !(resp.op == Connect && resp.info.Some? && synt != 0 && resp.info.value != synt)
    ensures q != [] && Expected(resp, q[0])
    ensures resp.op == Connect ==> resp.info.Some? && resp.info.value != 0 && PeerOf(l).former == []
  {
    var p := PeerOf(l);
    if p.former == [] {
      assert q == p.current;
    } else {
      assert q[0] == p.former[0];
    }
  }

  lemma TracksSettle(p: Peer, resp: Response, q: seq<Msg>, synt: nat, ready: bool)
    requires Tracks(p, q, synt, ready) && q != [] && (RepliesFormer(p, resp) || RepliesCurrent(p, resp))
    requires p.former == [] || RepliesFormer(p, resp)
    ensures Tracks(Deliver(p, resp), q[1..], synt, ready)
  {
    var r := Deliver(p, resp);
    assert r.former + r.current == q[1..] by {
      if p.former == [] {
        assert q == p.current;
      } else {
        assert q[1..] == p.former[1..] + p.current;
      }
    }
    assert forall i :: 0 <= i < |q[1..]| ==> q[1..][i] == q[i + 1];
    assert forall i :: 0 <= i < |r.former| ==> r.former[i] == p.former[i + 1];
  }

  lemma HeadIsFormer(p: Peer, resp: Response, q: seq<Msg>, synt: nat, ready: bool)
    requires Tracks(p, q, synt, ready) && q != [] && AllRequests(q) && Expected(resp, q[0])
    requires RepliesFormer(p, resp) || RepliesCurrent(p, resp)
    ensures p.former == [] || RepliesFormer(p, resp)
  {
    if p.former != [] {
      assert q[0] == p.former[0];
    }
  }

  lemma DeliverTokens(p: Peer, resp: Response)
    requires RepliesFormer(p, resp) || RepliesCurrent(p, resp)
    ensures Deliver(p, resp).used == p.used + Tokens(resp)
  {
  }

  lemma DeliverToNobody(p: Peer, resp: Response)
    requires p.current == []
    ensures Deliver(p, resp).current == []
  {
  }

  lemma ReceivedAndSettled(l: Log, resp: Response, m: Msg)
    ensures var l0 := Then(l, Receive(ResponseMsg(resp)));
            var l1 := Then(l0, Settle(m, resp.rescode));
            && PeerOf(l1) == Deliver(PeerOf(l), resp) && PeerOk(l1) == PeerOk(l0) && NoMisses(l1) == NoMisses(l)
            && (PeerOk(l0) ==> PeerOk(l) && (RepliesFormer(PeerOf(l), resp) || RepliesCurrent(PeerOf(l), resp)))
  {
    hide Deliver, RepliesFormer, RepliesCurrent;
    var l0 := Then(l, Receive(ResponseMsg(resp)));
    assert PeerOf(l0) == Deliver(PeerOf(l), resp) && NoMisses(l0) == NoMisses(l);
  }

  /** When the plugin settles its head request, so has the dataplane. */
  lemma CoupledSettle(l: Log, resp: Response, q: seq<Msg>, synt: nat, ready: bool, connected: bool)
    requires Coupled(l, q, synt, ready, connected) && AllRequests(q)
    requires q != [] && Expected(resp, q[0])
    requires !(resp.op == Connect && resp.info.Some? && synt != 0 && resp.info.value != synt)
    ensures var l1 := Then(Then(l, Receive(ResponseMsg(resp))), Settle(q[0], resp.rescode));
            && Coupled(l1, q[1..], synt, ready, connected)
            && (PeerOk(l1) && resp.op == Connect ==>
                  resp.info.Some? && resp.info.value != 0 && resp.info.value in PeerOf(l1).used)
  {
    hide Deliver, Tracks, RepliesFormer, RepliesCurrent, Expected, PeerOf, PeerOk, NoMisses, AllRequests;
    var p := PeerOf(l);
    ReceivedAndSettled(l, resp, q[0]);
    if !connected {
      DeliverToNobody(p, resp);
    }
    if PeerOk(Then(l, Receive(ResponseMsg(resp)))) {
      PeerMeansExpected(l, resp, q, synt, ready, connected);
      HeadIsFormer(p, resp, q, synt, ready);
      TracksSettle(p, resp, q, synt, ready);
      DeliverTokens(p, resp);
    }
  }

  /** A dataplane that acknowledges a Connect has answered everything it will. */
  lemma RestartDelivered(l: Log, resp: Response, q: seq<Msg>, synt: nat, ready: bool, connected: bool)
    requires Coupled(l, q, synt, ready, connected) && AllRequests(q)
    requires NoConnects(q) || ConnectLast(q)
    requires PeerOk(Then(l, Receive(ResponseMsg(resp)))) && resp.op == Connect
    ensures var p := PeerOf(Then(l, Receive(ResponseMsg(resp))));
            && p.former == [] && p.current == []
            && resp.info.Some? && resp.info.value != 0 && resp.info.value in p.used
            && (synt != 0 ==> synt in p.used)
            && NoMisses(l) && !NoConnects(q)
  {
    var p := PeerOf(l);
    assert forall i :: 0 <= i < |p.former| ==> q[i] == p.former[i];
    OnlyLastIsConnect(q);
    assert RepliesCurrent(p, resp) && !RepliesFormer(p, resp);
    assert q[|p.former|] == p.current[0];
    assert Deliver(p, resp).current == [] && p.current[1..] == [];
  }

  lemma CoupledAccept(l: Log, synt: nat)
    requires PeerOk(l) ==>
               && PeerOf(l).former == [] && PeerOf(l).current == [] && NoMisses(l)
               && synt != 0 && synt in PeerOf(l).used
    ensures Coupled(Then(l, Accept), [], synt, true, true)
  {
  }

  // ---- Handling a message ----

  lemma ReceiveKeeps(s: State, e: Event, h: Hold)
    requires Core(s, h) && (e.Receive? || e.Refresh? || e.Orphan?)
    ensures Core(Note(s, e), h)
  {
    hide Partitioned, Counted, Contents, Tight, Fifo, Numbered, Balanced, Lawful, Phases;
    BystanderKeeps(s, e, h);
  }

  lemma DroppingFields(s: State)
    requires s.cache.inFlight != []
    ensures var m := s.cache.inFlight[0];
            var t := Dropping(s);
            && t.status == s.status && t.sock == s.sock && t.connected == s.connected && t.ready == s.ready
            && t.timer == s.timer && t.sendArmed == s.sendArmed && t.finalizing == s.finalizing && t.synt == s.synt
            && t.seqnum == s.seqnum && t.log == Then(s.log, Drop(m)) && t.stats == s.stats
            && t.cache == Recycled(s.cache.(inFlight := s.cache.inFlight[1..]), m)
  {
    hide Recycled;
  }

  lemma DropKeeps(s: State, h: Hold)
    requires Core(s, h) && s.cache.inFlight != []
    ensures Core(Dropping(s), h)
  {
    hide Partitioned, Counted, Phases, Lawful, Balanced, Numbered, Fifo, AllRequests, AllQueueable;
    hide Dropping;
    var m := s.cache.inFlight[0];
    var h1 := h.ids + multiset{m.id};
    DroppingFields(s);
    RequestsTail(s.cache.inFlight);
    PopPartition(s.cache, s.log, h.ids);
    DropPartition(s.cache.(inFlight := s.cache.inFlight[1..]), s.log, h1, m);
    AddAndTake(h.ids, multiset{m.id});
    CountedOther(s.stats.txOk, s.stats.controlTx, s.stats.requests, s.log, Drop(m));
    PoppedPhases(s.sock, s.connected, s.ready, s.timer, s.cache.inFlight);
    DropLaw(s.log, m, s.seqnum, h.ctxs);
    DropFifo(s.log, h.front, s.cache.unsent, s.cache.inFlight);
  }

  lemma DropFifo(l: Log, front: seq<Msg>, unsent: seq<Msg>, q: seq<Msg>)
    requires Fifo(l, front, unsent, q) && q != []
    ensures Fifo(Then(l, Drop(q[0])), front, unsent, q[1..])
  {
    assert Popped(l) + q == (Popped(l) + [q[0]]) + q[1..];
  }

  lemma DropLaw(l: Log, m: Msg, seqnum: nat, ctxs: multiset<Ctx>)
    requires Numbered(l, seqnum) && Balanced(l, ctxs) && Lawful(l) && m.typ == Request
    ensures Numbered(Then(l, Drop(m)), seqnum) && Balanced(Then(l, Drop(m)), ctxs) && Lawful(Then(l, Drop(m)))
  {
  }

  lemma RestartKeeps(s: State, resp: Response, h: Hold)
    requires Inv(s, h) && ShowsRestart(s, resp)
    ensures var t := PurgeInFlight(Note(s, Receive(ResponseMsg(resp))), resp);
            AbortedWell(t, h) || Inv(t, h)
  {
    hide Core, PurgeInFlight;
    var s0 := Note(s, Receive(ResponseMsg(resp)));
    ReceiveKeeps(s, Receive(ResponseMsg(resp)), h);
    PurgeKeeps(s0, resp, h);
    CoreLists(s, h);
    if PeerOk(s0.log) {
      RestartDelivered(s.log, resp, s.cache.inFlight, s.synt, s.ready, s.connected);
    }
  }

  lemma CoreLists(s: State, h: Hold)
    requires Core(s, h)
    ensures AllRequests(s.cache.inFlight) && (NoConnects(s.cache.inFlight) || ConnectLast(s.cache.inFlight))
  {
  }

  /** Once the dataplane has misbehaved, nothing more is claimed of it. */
  lemma CoupledMiss(l: Log, resp: Response, e: Event, q: seq<Msg>, r: seq<Msg>, synt: nat, ready: bool, connected: bool)
    requires Coupled(l, q, synt, ready, connected)
    requires !PeerOk(Then(l, Receive(ResponseMsg(resp)))) && (e.Drop? || e.Orphan?)
    ensures Coupled(Then(Then(l, Receive(ResponseMsg(resp))), e), r, synt, ready, connected)
  {
    var l0 := Then(l, Receive(ResponseMsg(resp)));
    assert PeerOf(Then(l0, e)) == PeerOf(l0) && PeerOk(Then(l0, e)) == PeerOk(l0);
  }

  lemma ExpectedResponse(s: State, resp: Response)
    requires s.cache.inFlight != [] && Expected(resp, s.cache.inFlight[0]) && !ShowsRestart(s, resp)
    ensures var m := s.cache.inFlight[0];
            HandleResponse(s, resp) == SettleMsg(PopHead(s, Settle(m, resp.rescode)), resp, m, false)
  {
    hide SettleMsg, PurgeInFlight;
  }

  lemma UnexpectedResponse(s: State, resp: Response)
    requires ExpectedHead(s, resp) == None && !ShowsRestart(s, resp)
    ensures HandleResponse(s, resp) == Recovering(s, resp)
  {
    hide SettleMsg, PurgeInFlight;
  }

  lemma MismatchKeeps(s: State, resp: Response, h: Hold)
    requires Inv(s, h) && !ShowsRestart(s, resp)
    requires s.cache.inFlight == [] || !Expected(resp, s.cache.inFlight[0])
    ensures Inv(HandleResponse(Note(s, Receive(ResponseMsg(resp))), resp), h)
  {
    hide Core, Coupled, HandleResponse;
    var s0 := Note(s, Receive(ResponseMsg(resp)));
    ReceiveKeeps(s, Receive(ResponseMsg(resp)), h);
    CoreLists(s, h);
    UnexpectedResponse(s0, resp);
    if PeerOk(s0.log) {
      PeerMeansExpected(s.log, resp, s.cache.inFlight, s.synt, s.ready, s.connected);
    }
    if s.cache.inFlight == [] {
      ReceiveKeeps(s0, Orphan, h);
      CoupledMiss(s.log, resp, Orphan, s.cache.inFlight, [], s.synt, s.ready, s.connected);
    } else {
      DropKeeps(s0, h);
      CoupledMiss(s.log, resp, Drop(s.cache.inFlight[0]), s.cache.inFlight, s.cache.inFlight[1..],
                  s.synt, s.ready, s.connected);
    }
  }

  lemma WorkResponseKeeps(s: State, resp: Response, h: Hold)
    requires Inv(s, h) && !ShowsRestart(s, resp)
    requires s.cache.inFlight != [] && Expected(resp, s.cache.inFlight[0]) && resp.op != Connect
    ensures Inv(HandleResponse(Note(s, Receive(ResponseMsg(resp))), resp), h)
  {
    hide Core, Coupled, HandleResponse, SettleMsg;
    var m := s.cache.inFlight[0];
    var s0 := Note(s, Receive(ResponseMsg(resp)));
    var e := Settle(m, resp.rescode);
    ReceiveKeeps(s, Receive(ResponseMsg(resp)), h);
    CoreRuns(s0, h);
    CoreLists(s, h);
    ExpectedResponse(s0, resp);
    SettlingWork(s0, e, resp, false);
    WorkDoneKeeps(s0, e, resp, h);
    CoupledSettle(s.log, resp, s.cache.inFlight, s.synt, s.ready, s.connected);
    CoupledOther(Then(s0.log, e), HandBack(m.ctx.value, VerdictOf(resp.rescode)),
                 s.cache.inFlight[1..], s.synt, s.ready, s.connected);
  }

  /** The state in which the pending messages are sent. */
  function Opened(s: State, resp: Response): State
    requires s.cache.inFlight != []
  {
    Accepted(Popping(s, Settle(s.cache.inFlight[0], Ok), Ok), SyntAfter(s, resp))
  }

  lemma OpenedKeeps(s: State, resp: Response, h: Hold)
    requires Inv(s, h) && !ShowsRestart(s, resp)
    requires s.cache.inFlight != [] && Expected(resp, s.cache.inFlight[0])
    requires resp.op == Connect && resp.rescode == Ok
    ensures var m := s.cache.inFlight[0];
            && IsGoodConnect(m)
            && Inv(Opened(Note(s, Receive(ResponseMsg(resp))), resp), h.(ids := h.ids + multiset{m.id}))
  {
    hide Core;
    var s0 := Note(s, Receive(ResponseMsg(resp)));
    ReceiveKeeps(s, Receive(ResponseMsg(resp)), h);
    CoreLists(s, h);
    ConnectAckedKeeps(s0, resp, h);
    var s2 := Opened(s0, resp);
    CoupledSettle(s.log, resp, s.cache.inFlight, s.synt, s.ready, s.connected);
    CoupledAccept(s2.log.past, s2.synt);
  }

  lemma OpeningResponse(s: State, resp: Response)
    requires s.cache.inFlight != [] && !ShowsRestart(s, resp)
    requires Expected(resp, s.cache.inFlight[0]) && resp.op == Connect && resp.rescode == Ok
    ensures var t := SendPending(Opened(s, resp));
            HandleResponse(s, resp) ==
            if t.status == Aborted then t else t.(cache := Recycled(t.cache, s.cache.inFlight[0]))
  {
    hide SendPending, HandleResponse;
    ExpectedResponse(s, resp);
  }

  lemma ConnectResponseKeeps(s: State, resp: Response, h: Hold)
    requires Inv(s, h) && !ShowsRestart(s, resp) && h.front == []
    requires s.cache.inFlight != [] && Expected(resp, s.cache.inFlight[0])
    requires resp.op == Connect && resp.rescode == Ok
    ensures Inv(HandleResponse(Note(s, Receive(ResponseMsg(resp))), resp), h)
  {
    hide Inv, HandleResponse, SendPending, Opened, Recycled;
    var m := s.cache.inFlight[0];
    var s0 := Note(s, Receive(ResponseMsg(resp)));
    var s2 := Opened(s0, resp);
    var h1 := h.(ids := h.ids + multiset{m.id});
    OpenedKeeps(s, resp, h);
    SendPendingKeeps(s2, h1);
    var t := SendPending(s2);
    InvRuns(t, h1);
    RecycleIdleKeeps(t, m, h1);
    AddAndTake(h.ids, multiset{m.id});
    OpeningResponse(s0, resp);
  }

  lemma RefusedResponseKeeps(s: State, resp: Response, h: Hold)
    requires Inv(s, h) && !ShowsRestart(s, resp)
    requires s.cache.inFlight != [] && Expected(resp, s.cache.inFlight[0])
    requires resp.op == Connect && resp.rescode != Ok
    ensures AbortedWell(HandleResponse(Note(s, Receive(ResponseMsg(resp))), resp), h)
  {
    hide Core, Coupled, HandleResponse, SettleMsg, AbortedWell;
    var s0 := Note(s, Receive(ResponseMsg(resp)));
    ReceiveKeeps(s, Receive(ResponseMsg(resp)), h);
    ExpectedResponse(s0, resp);
    RefusedConnectAborts(s0, resp, false, h);
  }

  lemma HandleResponseKeeps(s: State, resp: Response, h: Hold)
    requires Inv(s, h) && h.front == []
    ensures var t := HandleResponse(Note(s, Receive(ResponseMsg(resp))), resp);
            AbortedWell(t, h) || Inv(t, h)
  {
    hide Inv, PurgeInFlight;
    if ShowsRestart(s, resp) {
      RestartKeeps(s, resp, h);
    } else if s.cache.inFlight == [] || !Expected(resp, s.cache.inFlight[0]) {
      MismatchKeeps(s, resp, h);
    } else if resp.op != Connect {
      WorkResponseKeeps(s, resp, h);
    } else if resp.rescode == Ok {
      ConnectResponseKeeps(s, resp, h);
    } else {
      RefusedResponseKeeps(s, resp, h);
    }
  }
}
