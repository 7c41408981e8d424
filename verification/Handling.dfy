/** What each message from the dataplane, each context from zebra and each keepalive brings about. */
module Handling {
  import opened Bags
  import opened Messages
  import opened Process
  import opened Trace
  import opened MsgCache
  import opened RpcStats
  import opened Session
  import opened Dataplane
  import opened Dispatch
  import opened Invariants
  import opened Sending
  import opened Receiving
  import opened Steps
  import opened Operations
  import opened Effects

  // ---- Responses ----

  lemma SettledBooks(l: Log, resp: Response, m: Msg, c: Ctx, v: Verdict)
    ensures var t := Then(Then(Then(l, Receive(ResponseMsg(resp))), Settle(m, resp.rescode)), HandBack(c, v));
            && Verdicts(t) == Verdicts(l) + [(c, v)] && Popped(t) == Popped(l) + [m]
            && Submitted(t) == Submitted(l) && SentRequests(t) == SentRequests(l) && SentQueued(t) == SentQueued(l)
  {
    var l0 := Then(l, Receive(ResponseMsg(resp)));
    var l1 := Then(l0, Settle(m, resp.rescode));
    assert Verdicts(l0) == Verdicts(l) && Popped(l0) == Popped(l) && Submitted(l0) == Submitted(l);
    assert SentRequests(l0) == SentRequests(l) && SentQueued(l0) == SentQueued(l);
    assert Verdicts(l1) == Verdicts(l0);
  }

  /** The response to the request in flight for longest returns the context of that request, and no other,
      as a success if and only if its code is Ok or Ignored. Nothing is sent. */
  lemma AnswerReturned(s: State, resp: Response)
    requires Inv(s, NOTHING_HELD) && s.cache.inFlight != []
    requires resp.op == s.cache.inFlight[0].op && resp.seqn == s.cache.inFlight[0].seqn && resp.op != Connect
    ensures var m := s.cache.inFlight[0];
            var t := HandleMsg(s, ResponseMsg(resp));
            && m.ctx.Some?
            && Verdicts(t.log) == Verdicts(s.log) +
                                  [(m.ctx.value,
                                    if resp.rescode == Ok || resp.rescode == Ignored then Success else Failure)]
            && Popped(t.log) == Popped(s.log) + [m] && t.cache.inFlight == s.cache.inFlight[1..]
            && t.cache.unsent == s.cache.unsent && Submitted(t.log) == Submitted(s.log)
            && SentRequests(t.log) == SentRequests(s.log) && SentQueued(t.log) == SentQueued(s.log)
            && t.ready == s.ready && t.synt == s.synt && t.status == Running
  {
    hide Core, HandleResponse, SettleMsg, Popping, Recycled, Verdicts, Popped, Submitted, SentRequests, SentQueued;
    var m := s.cache.inFlight[0];
    var s0 := Note(s, Receive(ResponseMsg(resp)));
    var e := Settle(m, resp.rescode);
    CoreRuns(s, NOTHING_HELD);
    ExpectedResponse(s0, resp);
    SettlingWork(s0, e, resp, false);
    PoppingFields(s0, e, resp.rescode);
    PurgedWorkLog(s0, e, resp);
    SettledBooks(s.log, resp, m, m.ctx.value, VerdictOf(resp.rescode));
    RecycledLists(s0.cache.(inFlight := s0.cache.inFlight[1..]), m.(ctx := None));
  }

  lemma DroppedBooks(l: Log, resp: Response, m: Msg)
    ensures var l0 := Then(l, Receive(ResponseMsg(resp)));
            var t, u := Then(l0, Drop(m)), Then(l0, Orphan);
            && Verdicts(t) == Verdicts(u) == Verdicts(l)
            && Popped(t) == Popped(l) + [m] && Popped(u) == Popped(l)
            && Submitted(t) == Submitted(u) == Submitted(l)
            && SentRequests(t) == SentRequests(u) == SentRequests(l) && SentQueued(t) == SentQueued(u) == SentQueued(l)
  {
    var l0 := Then(l, Receive(ResponseMsg(resp)));
    assert Verdicts(l0) == Verdicts(l) && Popped(l0) == Popped(l) && Submitted(l0) == Submitted(l);
    assert SentRequests(l0) == SentRequests(l) && SentQueued(l0) == SentQueued(l);
  }

  /** A response that is for another request takes the one in flight for longest off the queue, if there is
      one, and has no other effect: no verdict is given and nothing is sent. */
  lemma MismatchPops(s: State, resp: Response)
    requires Inv(s, NOTHING_HELD)
    requires resp.op == Connect && resp.info.Some? ==> s.synt == 0 || resp.info.value == s.synt
    requires s.cache.inFlight == [] || resp.op != s.cache.inFlight[0].op || resp.seqn != s.cache.inFlight[0].seqn
    ensures var q := s.cache.inFlight;
            var t := HandleMsg(s, ResponseMsg(resp));
            && Verdicts(t.log) == Verdicts(s.log) && Submitted(t.log) == Submitted(s.log)
            && Popped(t.log) == Popped(s.log) + q[..Min(1, |q|)] && t.cache.inFlight == q[Min(1, |q|)..]
            && t.cache.unsent == s.cache.unsent
            && SentRequests(t.log) == SentRequests(s.log) && SentQueued(t.log) == SentQueued(s.log)
            && t.ready == s.ready && t.synt == s.synt && t.status == Running
  {
    hide Core, Coupled, HandleResponse, Dropping, PopHead, Recycled;
    hide Verdicts, Popped, Submitted, SentRequests, SentQueued;
    InvRuns(s, NOTHING_HELD);
    var q := s.cache.inFlight;
    var s0 := Note(s, Receive(ResponseMsg(resp)));
    UnexpectedResponse(s0, resp);
    if q == [] {
      DroppedBooks(s.log, resp, Blank(0));
      assert q[..0] == [] && q[0..] == q && Popped(s.log) + [] == Popped(s.log);
    } else {
      DroppingFields(s0);
      DroppedBooks(s.log, resp, q[0]);
      RecycledLists(s0.cache.(inFlight := q[1..]), q[0]);
      assert q[..1] == [q[0]];
    }
  }

  lemma OpenedFields(s: State, resp: Response)
    requires s.cache.inFlight != []
    ensures var t := Opened(s, resp);
            && t.ready && t.synt == SyntAfter(s, resp) && t.sendArmed == s.sendArmed && t.env == s.env
            && t.cache == s.cache.(inFlight := s.cache.inFlight[1..]) && t.status == s.status
            && t.log == Then(Then(s.log, Settle(s.cache.inFlight[0], Ok)), Accept)
  {
    hide Popping;
    PoppingFields(s, Settle(s.cache.inFlight[0], Ok), Ok);
  }

  lemma OpenedBooks(l: Log, resp: Response, m: Msg)
    ensures var t := Then(Then(Then(l, Receive(ResponseMsg(resp))), Settle(m, Ok)), Accept);
            Verdicts(t) == Verdicts(l) && SentQueued(t) == SentQueued(l) && Submitted(t) == Submitted(l)
  {
    var l0 := Then(l, Receive(ResponseMsg(resp)));
    var l1 := Then(l0, Settle(m, Ok));
    assert Verdicts(l0) == Verdicts(l) && SentQueued(l0) == SentQueued(l) && Submitted(l0) == Submitted(l);
    assert Verdicts(l1) == Verdicts(l0) && SentQueued(l1) == SentQueued(l0) && Submitted(l1) == Submitted(l0);
  }

  lemma FlushedAside(ready: bool, armed: bool, sends: seq<SendOutcome>, unsent: seq<Msg>, inFlight: seq<Msg>,
                     sent: seq<Msg>, t: State, m: Msg)
    requires Flushed(ready, armed, sends, unsent, inFlight, sent, t)
    ensures Flushed(ready, armed, sends, unsent, inFlight, sent, t.(cache := Recycled(t.cache, m)))
  {
    hide SentQueued, Stop, LeadingSent, Requests, AtMostAConnectMore;
  }

  /** The Ok to the Connect in flight records the token and puts what was waiting through the socket; the
      dataplane remains ready unless that met a connection error. */
  lemma ConnectOpens(s: State, resp: Response)
    requires Inv(s, NOTHING_HELD) && s.cache.inFlight != []
    requires resp.info.Some? ==> s.synt == 0 || resp.info.value == s.synt
    requires resp.op == s.cache.inFlight[0].op == Connect && resp.seqn == s.cache.inFlight[0].seqn && resp.rescode == Ok
    ensures var t := HandleMsg(s, ResponseMsg(resp));
            && Flushed(true, s.sendArmed, s.env.sends, s.cache.unsent, [], SentQueued(s.log), t)
            && t.synt == (if resp.info.Some? then resp.info.value else s.synt)
            && Verdicts(t.log) == Verdicts(s.log) && Submitted(t.log) == Submitted(s.log) && t.status == Running
  {
    hide Core, Coupled, HandleResponse, SendPending, Opened, Recycled, Verdicts, Submitted, SentQueued, Flushed;
    var m := s.cache.inFlight[0];
    var s0 := Note(s, Receive(ResponseMsg(resp)));
    var s2 := Opened(s0, resp);
    var h1 := NOTHING_HELD.(ids := NOTHING_HELD.ids + multiset{m.id});
    CoreRuns(s, NOTHING_HELD);
    OpenedKeeps(s, resp, NOTHING_HELD);
    OpenedFields(s0, resp);
    OpenedBooks(s.log, resp, m);
    HeadIsLast(s, NOTHING_HELD);
    InvRuns(s2, h1);
    SendPendingFlushes(s2, h1);
    SendPendingBooks(s2);
    OpeningResponse(s0, resp);
    FlushedAside(true, s.sendArmed, s.env.sends, s.cache.unsent, [], SentQueued(s.log), SendPending(s2), m);
  }

  lemma HeadIsLast(s: State, h: Hold)
    requires Core(s, h) && s.cache.inFlight != [] && IsConnect(s.cache.inFlight[0])
    ensures s.cache.inFlight[1..] == []
  {
    hide Core;
    HeadConnect(s, h);
  }

  /** Any other code ends the run. */
  lemma ConnectRefusedAborts(s: State, resp: Response)
    requires Inv(s, NOTHING_HELD) && s.cache.inFlight != []
    requires resp.info.Some? ==> s.synt == 0 || resp.info.value == s.synt
    requires resp.op == s.cache.inFlight[0].op == Connect && resp.seqn == s.cache.inFlight[0].seqn && resp.rescode != Ok
    ensures HandleMsg(s, ResponseMsg(resp)).status == Aborted
  {
    hide Core, Coupled, HandleResponse;
    CoreRuns(s, NOTHING_HELD);
    RefusedResponseKeeps(s, resp, NOTHING_HELD);
  }

  // ---- Controls ----

  predicate IsControl(m: Msg, refresh: bool) {
    m.typ == Control && m.refresh == refresh && m.ctx.None?
  }

  function ControlFor(s: State, refresh: bool): Msg {
    NewMsg(s.cache).(typ := Control, refresh := refresh)
  }

  /** A control is queued last, with the flag given, and the queue put through the socket. */
  lemma ControlGoes(s: State, refresh: bool, h: Hold)
    requires Inv(s, h) && h.front == []
    ensures var t := SendControl(s, refresh);
            var m := ControlFor(s, refresh);
            && IsControl(m, refresh)
            && Submitted(t.log) == Submitted(s.log) + [m]
            && Verdicts(t.log) == Verdicts(s.log) && Refreshes(t.log) == Refreshes(s.log) && Heard(t.log) == Heard(s.log)
            && Flushed(s.ready, s.sendArmed, s.env.sends, s.cache.unsent + [m], s.cache.inFlight, SentQueued(s.log), t)
  {
    hide Inv, SendPending, Submitted, Verdicts, Refreshes, Heard, SentQueued, Flushed;
    var m := ControlFor(s, refresh);
    var s1 := s.(cache := AfterNew(s.cache));
    var h1 := h.(ids := h.ids + multiset{m.id});
    NewKeeps(s, h);
    QueueKeeps(s1, m, h1);
    assert h1.(ids := h1.ids - multiset{m.id}, ctxs := h1.ctxs - CtxBag(m.ctx)) == h by {
      AddAndTake(h.ids, multiset{m.id});
    }
    SubmittedBooks(s.log, m);
    NewLists(s.cache);
    SendPendingFlushes(Queue(s1, m), h);
    SendPendingBooks(Queue(s1, m));
  }

  lemma HeardControl(l: Log, refresh: bool)
    ensures var t := Then(l, Receive(ControlMsg(refresh)));
            && Submitted(t) == Submitted(l) && Verdicts(t) == Verdicts(l) && Refreshes(t) == Refreshes(l)
            && SentQueued(t) == SentQueued(l)
            && var u := Then(t, Refresh);
               && Submitted(u) == Submitted(l) && Verdicts(u) == Verdicts(l) && Refreshes(u) == Refreshes(l) + 1
               && SentQueued(u) == SentQueued(l)
  {
    var t := Then(l, Receive(ControlMsg(refresh)));
    assert Submitted(t) == Submitted(l) && Verdicts(t) == Verdicts(l) && Refreshes(t) == Refreshes(l);
    assert SentQueued(t) == SentQueued(l);
  }

  /** A request to refresh is passed to zebra, once, and answered with one control that asks for a refresh;
      any other control has no effect but to be counted. */
  lemma ControlAnswered(s: State, refresh: bool)
    requires Inv(s, NOTHING_HELD)
    ensures var t := HandleMsg(s, ControlMsg(refresh));
            var m := ControlFor(s, true);
            && IsControl(m, true)
            && Verdicts(t.log) == Verdicts(s.log) && Refreshes(t.log) == Refreshes(s.log) + (if refresh then 1 else 0)
            && Submitted(t.log) == Submitted(s.log) + (if refresh then [m] else [])
            && (if refresh then
                  Flushed(s.ready, s.sendArmed, s.env.sends, s.cache.unsent + [m], s.cache.inFlight, SentQueued(s.log), t)
                else t.cache == s.cache && SentQueued(t.log) == SentQueued(s.log) && t.sendArmed == s.sendArmed)
  {
    hide Inv, SendControl, Submitted, Verdicts, Refreshes, SentQueued, Drained, Stopped;
    HeardControl(s.log, refresh);
    if refresh {
      var s1 := Note(s, Receive(ControlMsg(refresh)));
      HearKeeps(s, Receive(ControlMsg(refresh)), NOTHING_HELD);
      HearKeeps(s1, Refresh, NOTHING_HELD);
      var u := SendControl(Note(s1, Refresh), true);
      ControlGoes(Note(s1, Refresh), true, NOTHING_HELD);
      FlushedCounted(s.ready, s.sendArmed, s.env.sends, s.cache.unsent + [ControlFor(s, true)], s.cache.inFlight,
                     SentQueued(s.log), u, u.stats.(controlRx := u.stats.controlRx + 1));
    } else {
      assert Submitted(s.log) + [] == Submitted(s.log);
    }
  }

  lemma FlushedCounted(ready: bool, armed: bool, sends: seq<SendOutcome>, unsent: seq<Msg>, inFlight: seq<Msg>,
                       sent: seq<Msg>, t: State, st: Stats)
    requires Flushed(ready, armed, sends, unsent, inFlight, sent, t)
    ensures Flushed(ready, armed, sends, unsent, inFlight, sent, WithStats(t, st))
  {
    hide SentQueued, Stop, LeadingSent, Requests, AtMostAConnectMore;
  }

  /** A keepalive is a control that asks for no refresh, sent if and only if the dataplane is ready. */
  lemma KeepaliveGoes(s: State)
    requires Inv(s, NOTHING_HELD)
    ensures var t := OnKeepalive(s);
            var m := ControlFor(s, false);
            if s.ready then
              && IsControl(m, false) && Submitted(t.log) == Submitted(s.log) + [m]
              && Flushed(true, s.sendArmed, s.env.sends, s.cache.unsent + [m], s.cache.inFlight, SentQueued(s.log), t)
            else t == s
  {
    hide Inv, SendControl, Flushed, Submitted, SentQueued;
    FlagFacts(s, NOTHING_HELD);
    if s.ready {
      ControlGoes(s, false, NOTHING_HELD);
    }
  }

  // ---- Contexts ----

  /** The request made for a context is queued last, and the queue put through the socket. */
  lemma RequestGoes(s: State, c: Ctx, h: Hold)
    requires Inv(s, h) && h.front == [] && c in h.ctxs && !s.finalizing && ConcernsDataplane(c)
    requires s.log.Then? && s.log.last == Dequeue(c)
    ensures var t := ProcessUpdate(s, c);
            && |Submitted(t.log)| == |Submitted(s.log)| + 1
            && Flushed(s.ready, s.sendArmed, s.env.sends, s.cache.unsent + [Submitted(t.log)[|Submitted(s.log)|]],
                       s.cache.inFlight, SentQueued(s.log), t)
  {
    hide Inv, PlanFor, Suits, ConcernsDataplane, SendRequest, NewRequest, Submitted, SentQueued, Flushed;
    PlanIsSound(c);
    UpdateByPlan(s, c);
    var plan := PlanFor(c);
    var s1 := if plan.skipKernel then Note(s, SkipKernel(c)) else s;
    if plan.skipKernel {
      FlagEventKeeps(s, SkipKernel(c), h);
      assert s1 == Note(s.(sendArmed := s.sendArmed && true, finalizing := s.finalizing || false), SkipKernel(c));
    }
    SparedSends(s.log, c);
    SuitableOps(plan.action.op, plan.action.obj, c);
    SameRequest(s, s1, plan.action.op, plan.action.obj, c);
    RequestFlushes(s1, plan.action.op, plan.action.obj, c, h);
  }

  lemma SparedSends(l: Log, c: Ctx)
    ensures SentQueued(Then(l, SkipKernel(c))) == SentQueued(l)
  {
  }

  lemma RequestFlushes(s: State, op: RpcOp, obj: Object, c: Ctx, h: Hold)
    requires Inv(s, h) && h.front == [] && c in h.ctxs && !s.finalizing && Suits(op, obj, c)
    ensures Flushed(s.ready, s.sendArmed, s.env.sends, s.cache.unsent + [NewRequest(s, op, obj, Some(c))],
                    s.cache.inFlight, SentQueued(s.log), SendRequest(s, op, obj, c))
  {
    hide Inv, SendPending, SendRequest, Queue, AfterNew, Suits, SentQueued, Flushed;
    SuitableOps(op, obj, c);
    var m := NewRequest(s, op, obj, Some(c));
    var s1 := s.(cache := AfterNew(s.cache));
    var h1 := h.(ids := h.ids + multiset{m.id});
    var h2 := h.(ctxs := h.ctxs - multiset{c});
    NewKeeps(s, h);
    NewLists(s.cache);
    QueueKeeps(s1, m, h1);
    QueueFields(s1, m);
    assert h1.(ids := h1.ids - multiset{m.id}, ctxs := h1.ctxs - CtxBag(m.ctx)) == h2 by {
      AddAndTake(h.ids, multiset{m.id});
    }
    SendPendingFlushes(Queue(s1, m), h2);
    SendRequestQueues(s, op, obj, c);
    SubmittedBooks(s.log, m);
  }

  /** What is returned at once, of contexts taken in this order. */
  function Answers(q: seq<Ctx>): seq<(Ctx, Verdict)> {
    if q == [] then []
    else if ConcernsDataplane(q[0]) then Answers(q[1..])
    else [(q[0], if q[0].op == Unlisted then Failure else Success)] + Answers(q[1..])
  }

  /** Those that the dataplane is asked for. */
  function Requested(q: seq<Ctx>): seq<Ctx> {
    if q == [] then [] else (if ConcernsDataplane(q[0]) then [q[0]] else []) + Requested(q[1..])
  }

  /** The contexts of messages, in order. */
  function Served(q: seq<Msg>): seq<Ctx> {
    if q == [] then [] else Served(q[..|q| - 1]) + if q[|q| - 1].ctx.Some? then [q[|q| - 1].ctx.value] else []
  }

  lemma OneUpdate(s: State, c: Ctx)
    ensures var t := ProcessUpdate(Note(s, Dequeue(c)), c);
            && Verdicts(t.log) == Verdicts(s.log) + Answers([c])
            && Served(Submitted(t.log)) == Served(Submitted(s.log)) + Requested([c])
  {
    hide ProcessUpdate, IsSelection;
    var s1 := Note(s, Dequeue(c));
    assert Verdicts(s1.log) == Verdicts(s.log) && Submitted(s1.log) == Submitted(s.log);
    UpdateOnce(s1, c);
    assert [c][1..] == [] && Answers([]) == [] && Requested([]) == [];
  }

  lemma OneMoreTaken(q: seq<Ctx>, n: nat)
    requires 0 < n <= |q|
    ensures Answers(q[..n]) == Answers([q[0]]) + Answers(q[1..][..n - 1])
    ensures Requested(q[..n]) == Requested([q[0]]) + Requested(q[1..][..n - 1])
  {
    assert q[..n][1..] == q[1..][..n - 1] && [q[0]][1..] == [];
  }

  /** The work loop takes up to `limit` contexts, in order, and each either goes back at once or is asked
      for, in this order too. */
  lemma {:induction false} WorkServes(s: State, limit: nat)
    requires !s.finalizing
    ensures var t := Work(s, limit);
            var n := Min(limit, |s.inbox|);
            && t.inbox == s.inbox[n..]
            && Verdicts(t.log) == Verdicts(s.log) + Answers(s.inbox[..n])
            && Served(Submitted(t.log)) == Served(Submitted(s.log)) + Requested(s.inbox[..n])
    decreases limit
  {
    hide ProcessUpdate, Work, Verdicts, Submitted, Served, Answers, Requested;
    WorkRound(s, limit);
    var n := Min(limit, |s.inbox|);
    if n > 0 {
      var c := s.inbox[0];
      var s1 := s.(inbox := s.inbox[1..]);
      OneUpdate(s1, c);
      OneMoreTaken(s.inbox, n);
      WorkServes(ProcessUpdate(Note(s1, Dequeue(c)), c), limit - 1);
    } else {
      NobodyServed();
      assert s.inbox[..0] == [];
    }
  }

  lemma NobodyServed()
    ensures Answers([]) == [] && Requested([]) == []
  {
  }

  // ---- Reading ----

  /** The messages that a receive loop gets before a receive fails, or a message cannot be decoded. */
  function Incoming(recvs: seq<ReadOutcome>): seq<RpcMsg> {
    if recvs != [] && recvs[0].Got? then [recvs[0].msg] + Incoming(recvs[1..]) else []
  }

  lemma ReceivedHeard(l: Log, msg: RpcMsg)
    ensures Heard(Then(l, Receive(msg))) == Heard(l) + [msg]
  {
  }

  lemma MismatchNews(l: Log, m: Msg, code: ResCode)
    ensures SameNews(l, Then(l, Orphan)) && SameNews(l, Then(l, Settle(m, code)))
    ensures Heard(Then(l, Drop(m))) == Heard(l)
  {
  }

  lemma ResponseHeard(s: State, resp: Response)
    ensures Heard(HandleResponse(s, resp).log) == Heard(s.log)
  {
    hide PurgeInFlight, SettleMsg, Dropping, PopHead, Heard;
    if ShowsRestart(s, resp) {
      PurgeLosesNothing(s, resp);
    } else if s.cache.inFlight != [] {
      var m := s.cache.inFlight[0];
      MismatchNews(s.log, m, resp.rescode);
      DroppingFields(s);
      PoppedLog(s, Settle(m, resp.rescode));
      SettlingLosesNothing(PopHead(s, Settle(m, resp.rescode)), resp, m, false);
    } else {
      MismatchNews(s.log, Blank(0), resp.rescode);
    }
  }

  lemma PoppedLog(s: State, e: Event)
    requires s.cache.inFlight != []
    ensures PopHead(s, e).log == Then(s.log, e)
  {
  }

  lemma RefreshHeard(l: Log)
    ensures Heard(Then(l, Refresh)) == Heard(l)
  {
  }

  lemma SendControlHeard(s: State, refresh: bool)
    ensures Heard(SendControl(s, refresh).log) == Heard(s.log)
  {
    hide SendPending, Heard;
    var m := ControlFor(s, refresh);
    var s1 := s.(cache := AfterNew(s.cache));
    var s2 := Note(SetUnsent(s1, s1.cache.unsent + [m]), Submit(m));
    SendPendingBooks(s2);
    SubmittedBooks(s.log, m);
    assert SendControl(s, refresh) == SendPending(s2);
  }

  lemma ControlHeard(s: State, refresh: bool)
    ensures Heard(HandleControl(s, refresh).log) == Heard(s.log)
  {
    hide SendControl, Heard;
    if refresh {
      RefreshHeard(s.log);
      SendControlHeard(Note(s, Refresh), true);
    }
  }

  lemma MessageHeard(s: State, msg: RpcMsg)
    ensures Heard(HandleMsg(s, msg).log) == Heard(s.log) + [msg]
  {
    hide HandleResponse, HandleControl, Heard;
    ReceivedHeard(s.log, msg);
    match msg
    case ResponseMsg(resp) => ResponseHeard(Note(s, Receive(msg)), resp);
    case ControlMsg(refresh) => ControlHeard(Note(s, Receive(msg)), refresh);
    case _ =>
  }

  lemma OneMoreHeard(before: seq<RpcMsg>, recvs: seq<ReadOutcome>)
    requires recvs != [] && recvs[0].Got?
    ensures (before + [recvs[0].msg]) + Incoming(recvs[1..]) == before + Incoming(recvs)
  {
  }

  lemma NoneHeard(before: seq<RpcMsg>, recvs: seq<ReadOutcome>)
    requires recvs == [] || !recvs[0].Got?
    ensures before + Incoming(recvs) == before
  {
  }

  /** The receive loop handles every message there is, once and in order, unless one aborts the run. */
  lemma {:induction false} ReadsAll(s: State)
    requires s.status != Aborted
    ensures var t := ReadAll(s);
            var all := Heard(s.log) + Incoming(s.env.recvs);
            if t.status == Aborted then Heard(t.log) <= all else Heard(t.log) == all
    decreases |s.env.recvs|
  {
    hide HandleMsg, Received, ReadAll, Heard, Incoming;
    ReadRound(s);
    ReceivedAside(s);
    if s.env.recvs != [] && s.env.recvs[0].Got? {
      var msg := s.env.recvs[0].msg;
      var t := HandleMsg(Received(s), msg);
      MessageHeard(Received(s), msg);
      OneMoreHeard(Heard(s.log), s.env.recvs);
      if t.status == Aborted {
        AbortedReads(t);
      } else {
        ReadsAll(t);
      }
    } else {
      NoneHeard(Heard(s.log), s.env.recvs);
    }
  }

  lemma ReceivedAside(s: State)
    ensures Received(s).log == s.log && Received(s).env.recvs == Rest(s.env.recvs) && Received(s).status == s.status
  {
    hide RecvStats;
  }

  /** A message that is neither a response nor a control is ignored. */
  lemma OthersIgnored(s: State, msg: RpcMsg)
    requires !msg.ResponseMsg? && !msg.ControlMsg?
    ensures HandleMsg(s, msg) == Note(s, Receive(msg))
  {
  }
}
