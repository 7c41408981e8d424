/** What each of the larger operations does, end to end. */
module Operations {
  import opened Bags
  import opened Messages
  import opened Process
  import opened Trace
  import opened MsgCache
  import opened RpcStats
  import opened Session
  import opened Dataplane
  import opened Dispatch
  import opened Invariants
  import opened Sending
  import opened Receiving
  import opened Steps
  import opened Consequences

  // ---- Sending concerns neither zebra nor the pops ----

  ghost predicate SameBooks(l: Log, l': Log) {
    && Submitted(l') == Submitted(l) && Verdicts(l') == Verdicts(l)
    && Dequeued(l') == Dequeued(l) && Popped(l') == Popped(l) && Lost(l') == Lost(l)
    && Spared(l') == Spared(l) && Heard(l') == Heard(l) && Refreshes(l') == Refreshes(l)
  }

  lemma SmallBooks(s: State, m: Msg)
    ensures SameBooks(s.log, Transmitted(s, m).log) && SameBooks(s.log, Disconnect(s).log)
    ensures SentQueued(Transmitted(s, m).log) == SentQueued(s.log) + if IsConnect(m) then [] else [m]
    ensures SentQueued(Disconnect(s).log) == SentQueued(s.log)
    ensures Disconnect(s).timer == s.timer
  {
  }

  lemma NotSentBooks(s: State, why: SendOutcome)
    requires why != Sent && why != Disconnected
    ensures SameBooks(s.log, NotSent(s, why).log) && SentQueued(NotSent(s, why).log) == SentQueued(s.log)
  {
    hide SameBooks, FailureStats;
    assert NotSent(s, why).log == s.log || NotSent(s, why).log == Then(s.log, Blocked);
    BlockedBooks(s.log);
  }

  lemma BlockedBooks(l: Log)
    ensures SameBooks(l, l) && SameBooks(l, Then(l, Blocked)) && SentQueued(Then(l, Blocked)) == SentQueued(l)
  {
  }

  /** A send transmits its message or, failing that, nothing but Connects. */
  lemma DoSendBooks(s: State, m: Msg)
    ensures var r := DoSend(s, m);
            && SameBooks(s.log, r.state.log)
            && SentQueued(r.state.log) == SentQueued(s.log) + if r.ok && !IsConnect(m) then [m] else []
    decreases |s.env.sends|, 0
  {
    hide NotSent, Disconnect, Transmitted;
    SmallBooks(s, m);
    var o := NextSend(s.env);
    if CanSend(s, m) && o == Disconnected {
      DpConnectBooks(Disconnect(s));
    } else if CanSend(s, m) && o != Sent {
      NotSentBooks(s, o);
    }
  }

  lemma LinkDownBooks(l: Log)
    ensures SameBooks(l, Then(l, LinkDown)) && SentQueued(Then(l, LinkDown)) == SentQueued(l)
  {
  }

  lemma RefusedBooks(s: State, why: JoinOutcome)
    requires why != Joined
    ensures SameBooks(s.log, Refused(Asked(s), why).log)
    ensures SentQueued(Refused(Asked(s), why).log) == SentQueued(s.log)
  {
    hide SameBooks, SentQueued;
    assert Refused(Asked(s), why).log == s.log || Refused(Asked(s), why).log == Then(s.log, LinkDown);
    LinkDownBooks(s.log);
    BlockedBooks(s.log);
  }

  lemma DpConnectBooks(s: State)
    ensures SameBooks(s.log, DpConnect(s).log) && SentQueued(DpConnect(s).log) == SentQueued(s.log)
    decreases |s.env.sends|, 2
  {
    hide Refused;
    if s.sock {
      if NextJoin(s.env) == Joined {
        SendConnectBooks(Asked(s).(timer := false, connected := true));
      } else {
        RefusedBooks(s, NextJoin(s.env));
      }
    }
  }

  lemma SendConnectBooks(s: State)
    ensures SameBooks(s.log, SendConnect(s).log) && SentQueued(SendConnect(s).log) == SentQueued(s.log)
    decreases |s.env.sends|, 1
  {
    DoSendBooks(AfterNewRequest(s, Connect), NewRequest(s, Connect, ConnInfo(s.synt), None));
  }

  lemma {:induction false} SendPendingBooks(s: State)
    ensures SameBooks(s.log, SendPending(s).log)
    decreases |s.cache.unsent|
  {
    hide DoSend, AfterSend, SendPending;
    SendPendingRound(s);
    if s.cache.unsent != [] {
      var m := s.cache.unsent[0];
      var s1 := SetUnsent(s, s.cache.unsent[1..]);
      DoSendBooks(s1, m);
      if DoSend(s1, m).ok {
        SendPendingBooks(AfterSend(DoSend(s1, m).state, m));
      }
    }
  }

  // ---- A context is returned at once or queued, never both ----

  lemma UpdateByPlan(s: State, c: Ctx)
    ensures var t := ProcessUpdate(s, c);
            && Spared(t.log) == Spared(s.log) + (if PlanFor(c).skipKernel then [c] else [])
            && match PlanFor(c).action
               case Answer(r) =>
                 && Verdicts(t.log) == Verdicts(s.log) + [(c, HhRetToZebra(r))]
                 && Submitted(t.log) == Submitted(s.log)
                 && t.cache == s.cache && t.seqnum == s.seqnum
               case Send(op, obj) =>
                 var m := NewRequest(s, op, obj, Some(c));
                 && Verdicts(t.log) == Verdicts(s.log)
                 && Submitted(t.log) == Submitted(s.log) + [m]
                 && m.seqn == s.seqnum && t.seqnum == s.seqnum + 1
  {
    hide PlanFor, SendRequest, NewRequest, Suits, ConcernsDataplane, SparesKernel;
    PlanIsSound(c);
    var plan := PlanFor(c);
    var s1 := if plan.skipKernel then Note(s, SkipKernel(c)) else s;
    SparedBooks(s.log, c);
    match plan.action
    case Answer(r) =>
      ReturnedBooks(s1.log, c, HhRetToZebra(r));
    case Send(op, obj) =>
      SuitableOps(op, obj, c);
      SameRequest(s, s1, op, obj, c);
      SendRequestBooks(s1, op, obj, c);
  }

  lemma SameRequest(s: State, t: State, op: RpcOp, obj: Object, c: Ctx)
    requires t.cache == s.cache && t.seqnum == s.seqnum && op != Connect
    ensures NewRequest(t, op, obj, Some(c)) == NewRequest(s, op, obj, Some(c))
    ensures NewRequest(s, op, obj, Some(c)).seqn == s.seqnum
  {
  }

  lemma SparedBooks(l: Log, c: Ctx)
    ensures var t := Then(l, SkipKernel(c));
            Spared(t) == Spared(l) + [c] && Verdicts(t) == Verdicts(l) && Submitted(t) == Submitted(l)
  {
  }

  lemma ReturnedBooks(l: Log, c: Ctx, v: Verdict)
    ensures var t := Then(l, HandBack(c, v));
            Spared(t) == Spared(l) && Verdicts(t) == Verdicts(l) + [(c, v)] && Submitted(t) == Submitted(l)
  {
  }

  lemma SubmittedBooks(l: Log, m: Msg)
    ensures var t := Then(l, Submit(m));
            && Spared(t) == Spared(l) && Verdicts(t) == Verdicts(l) && Submitted(t) == Submitted(l) + [m]
            && Heard(t) == Heard(l) && Popped(t) == Popped(l) && SentQueued(t) == SentQueued(l)
            && SentRequests(t) == SentRequests(l) && Refreshes(t) == Refreshes(l) && Dequeued(t) == Dequeued(l)
  {
  }

  lemma SendRequestBooks(s: State, op: RpcOp, obj: Object, c: Ctx)
    requires op != Connect
    ensures var t := SendRequest(s, op, obj, c);
            var m := NewRequest(s, op, obj, Some(c));
            && Spared(t.log) == Spared(s.log) && Verdicts(t.log) == Verdicts(s.log)
            && Submitted(t.log) == Submitted(s.log) + [m] && t.seqnum == s.seqnum + 1
            && Heard(t.log) == Heard(s.log) && Dequeued(t.log) == Dequeued(s.log)
  {
    hide SendPending, SendRequest;
    var s1 := s.(cache := AfterNew(s.cache));
    var m := NewRequest(s, op, obj, Some(c));
    SendRequestQueues(s, op, obj, c);
    SendPendingBooks(Queue(s1, m));
    SubmittedBooks(s.log, m);
  }

  /** `m` is a new request made for `c`, with the next sequence number of `s`. */
  ghost predicate RequestFor(s: State, m: Msg, c: Ctx, op: RpcOp) {
    m.typ == Request && m.op == op && m.seqn == s.seqnum && m.ctx == Some(c)
  }

  /** A context that the dataplane is to be told of is queued in one new request, of the operation and
      with the object that it asks for, and not returned. Any other is returned at once, as a failure if
      its operation is not listed and as a success if it is, and nothing is queued. The kernel is spared
      the routes of VRFs other than the default one, whatever their operation. */
  lemma UpdateOnce(s: State, c: Ctx)
    ensures var t := ProcessUpdate(s, c);
            var known := c.afi != AfiOther && c.safi != SafiOther;
            var route := c.op in {RouteInstall, RouteUpdate, RouteDelete} && known;
            var address := c.op in {AddrInstall, AddrUninstall} && c.ipv4;
            var mac := c.op in {MacInstall, MacDelete};
            && (if route || address || mac then
                  && Verdicts(t.log) == Verdicts(s.log)
                  && |Submitted(t.log)| == |Submitted(s.log)| + 1
                  && Submitted(t.log)[..|Submitted(s.log)|] == Submitted(s.log)
                  && t.seqnum == s.seqnum + 1
                  && var m := Submitted(t.log)[|Submitted(s.log)|];
                     && RequestFor(s, m, c, if c.op in {RouteInstall, AddrInstall, MacInstall} then Add
                                            else if c.op == RouteUpdate then Update else Del)
                     && (if route then m.obj.IpRoute? && IsSelection(m.obj.hops, c.hops)
                         else if address then m.obj == IfAddress else m.obj == Rmac)
                else
                  && Verdicts(t.log) == Verdicts(s.log) + [(c, if c.op == Unlisted then Failure else Success)]
                  && Submitted(t.log) == Submitted(s.log)
                  && t.cache == s.cache && t.seqnum == s.seqnum)
            && Spared(t.log) == Spared(s.log) +
                                if c.op in {RouteInstall, RouteUpdate, RouteDelete, RouteNotify, SysRouteAdd,
                                            SysRouteDelete} && known && c.vrf != 0
                                then [c] else []
  {
    hide PlanFor, ProcessUpdate, IsSelection;
    PlanIsSound(c);
    UpdateByPlan(s, c);
  }

  function FailAll(q: seq<Ctx>): seq<(Ctx, Verdict)> {
    if q == [] then [] else [(q[0], Failure)] + FailAll(q[1..])
  }

  function Min(a: nat, b: nat): nat {
    if a < b then a else b
  }

  lemma FailedOne(l: Log, c: Ctx)
    ensures var t := Then(Then(l, Dequeue(c)), HandBack(c, Failure));
            && Verdicts(t) == Verdicts(l) + [(c, Failure)]
            && Submitted(t) == Submitted(l) && SentRequests(t) == SentRequests(l)
  {
    var l1 := Then(l, Dequeue(c));
    assert Verdicts(l1) == Verdicts(l) && Submitted(l1) == Submitted(l) && SentRequests(l1) == SentRequests(l);
  }

  /** Once shutdown began, the work loop returns up to `limit` contexts as failed, in order, and does
      nothing else. */
  lemma {:induction false} WorkWhenFinalizing(s: State, limit: nat)
    requires s.finalizing
    ensures var t := Work(s, limit);
            var n := Min(limit, |s.inbox|);
            && Verdicts(t.log) == Verdicts(s.log) + FailAll(s.inbox[..n])
            && t == s.(inbox := s.inbox[n..], log := t.log)
            && Submitted(t.log) == Submitted(s.log) && SentRequests(t.log) == SentRequests(s.log)
    decreases limit
  {
    hide ProcessUpdate, Work, Verdicts, Submitted, SentRequests;
    WorkRound(s, limit);
    var n := Min(limit, |s.inbox|);
    if n > 0 {
      var c := s.inbox[0];
      var s1 := Note(s.(inbox := s.inbox[1..]), Dequeue(c));
      var s2 := Note(s1, HandBack(c, Failure));
      WorkWhenFinalizing(s2, limit - 1);
      FailedOne(s.log, c);
      assert s.inbox[..n][1..] == s.inbox[1..][..n - 1];
      assert s.inbox[1..][n - 1..] == s.inbox[n..];
      assert Verdicts(s2.log) + FailAll(s.inbox[1..][..n - 1]) == Verdicts(s.log) + FailAll(s.inbox[..n]);
    } else {
      assert s.inbox[n..] == s.inbox;
      assert Verdicts(s.log) + [] == Verdicts(s.log);
    }
  }

  // ---- Draining the unsent queue ----

  /** How many sends in a row are going to succeed. */
  function LeadingSent(outcomes: seq<SendOutcome>): nat {
    if outcomes == [] || outcomes[0] != Sent then 0 else 1 + LeadingSent(outcomes[1..])
  }

  /** The call does nothing while the dataplane is not ready. */
  lemma NotReadyNoChange(s: State)
    requires !s.ready && AllQueueable(s.cache.unsent)
    ensures SendPending(s) == s
  {
    if s.cache.unsent != [] {
      var m := s.cache.unsent[0];
      assert IsQueueable(m);
      assert [m] + s.cache.unsent[1..] == s.cache.unsent;
      var s1 := SetUnsent(s, s.cache.unsent[1..]);
      assert DoSend(s1, m) == SendResult(s1, false);
    }
  }

  /** What the drain of the first `k` messages of `unsent`, and a failure after it, leave, when
      `inFlight` and `sent` were in flight and transmitted before. */
  ghost predicate Drained(unsent: seq<Msg>, inFlight: seq<Msg>, sent: seq<Msg>, t: State, k: nat)
    requires k <= |unsent|
  {
    && t.cache.unsent == unsent[k..]
    && AtMostAConnectMore(inFlight + Requests(unsent[..k]), t.cache.inFlight)
    && SentQueued(t.log) == sent + unsent[..k]
  }

  lemma DrainedNone(unsent: seq<Msg>, t: State, inFlight: seq<Msg>)
    requires t.cache.unsent == unsent && AtMostAConnectMore(inFlight, t.cache.inFlight)
    ensures Drained(unsent, inFlight, SentQueued(t.log), t, 0)
  {
    assert unsent[..0] == [] && unsent[0..] == unsent;
    assert inFlight + [] == inFlight;
    assert SentQueued(t.log) + [] == SentQueued(t.log);
  }

  lemma SameMeansNoneMore(q: seq<Msg>)
    ensures AtMostAConnectMore(q, q)
  {
  }

  lemma DrainedOneMore(unsent: seq<Msg>, inFlight: seq<Msg>, sent: seq<Msg>, t: State, k: nat)
    requires unsent != [] && k < |unsent|
    requires Drained(unsent[1..], inFlight + Requests(unsent[..1]), sent + [unsent[0]], t, k)
    ensures Drained(unsent, inFlight, sent, t, k + 1)
  {
    var m := unsent[0];
    assert unsent[..k + 1] == [m] + unsent[1..][..k];
    assert unsent[..k + 1][1..] == unsent[1..][..k];
    assert unsent[1..][k..] == unsent[k + 1..];
    assert (sent + [m]) + unsent[1..][..k] == sent + unsent[..k + 1];
    assert unsent[..1][1..] == [];
    assert Requests(unsent[..k + 1]) == Requests(unsent[..1]) + Requests(unsent[1..][..k]);
    assert (inFlight + Requests(unsent[..1])) + Requests(unsent[1..][..k]) == inFlight + Requests(unsent[..k + 1]);
  }

  /** The messages drained are as many as the socket takes in a row, no more and no less; the
      requests among them go in flight in order; only a reconnection can add to that, and then a
      Connect, after them. */
  lemma {:induction false} DrainsPrefix(s: State, h: Hold)
    requires Inv(s, h) && h.front == [] && s.ready
    ensures var n := Min(LeadingSent(s.env.sends), |s.cache.unsent|);
            Drained(s.cache.unsent, s.cache.inFlight, SentQueued(s.log), SendPending(s), n)
    decreases |s.cache.unsent|
  {
    hide Inv, DoSend, Drained, SendPending, AfterSend, Transmitted, AtMostAConnectMore, SameBooks, SentQueued, Requests;
    SendPendingRound(s);
    var q := s.cache.unsent;
    if q == [] {
      SameMeansNoneMore(s.cache.inFlight);
      DrainedNone(q, s, s.cache.inFlight);
    } else {
      var m := q[0];
      var s1 := SetUnsent(s, q[1..]);
      var h1 := h.(front := [m], ids := h.ids + multiset{m.id});
      UnqueueKeeps(s, h);
      DoSendKeeps(s1, m, h1);
      DoSendBooks(s1, m);
      assert h1.(front := [], ids := h1.ids - multiset{m.id}) == h;
      SendOutcomeOf(s1, m);
      var r := DoSend(s1, m);
      if r.ok {
        SentOneKeeps(s1, m, h1);
        var s2 := AfterSend(r.state, m);
        DrainsPrefix(s2, h);
        assert q[..1] == [m];
        DrainedOneMore(q, s.cache.inFlight, SentQueued(s.log), SendPending(s),
                       Min(LeadingSent(s2.env.sends), |s2.cache.unsent|));
      } else {
        assert [m] + q[1..] == q;
        assert SentQueued(s.log) + [] == SentQueued(s.log);
        assert Min(LeadingSent(s.env.sends), |q|) == 0;
        DrainedNone(q, SendPending(s), s.cache.inFlight);
      }
    }
  }

  /** The state after one message of the unsent queue was sent. */
  lemma SentOneKeeps(s: State, m: Msg, h: Hold)
    requires Inv(s, h) && s.ready && IsQueueable(m) && m.id in h.ids && h.front == [m]
    ensures var t := AfterSend(Transmitted(s, m), m);
            && Inv(t, h.(front := [], ids := h.ids - multiset{m.id}))
            && t.ready
            && t.cache.unsent == s.cache.unsent
            && t.cache.inFlight == s.cache.inFlight + Requests([m])
            && SentQueued(t.log) == SentQueued(s.log) + [m]
            && t.env.sends == Rest(s.env.sends)
  {
    hide Inv;
    if m.typ == Request {
      LaunchKeeps(s, h, m);
    } else {
      ControlSentKeeps(s, h, m);
    }
  }

  lemma SendOutcomeOf(s: State, m: Msg)
    requires CanSend(s, m)
    ensures DoSend(s, m).ok == (s.env.sends != [] && s.env.sends[0] == Sent)
  {
    hide NotSent, Disconnect, Transmitted;
  }

  // ---- The purge ----

  function SucceedAll(q: seq<Msg>): seq<(Ctx, Verdict)> {
    if q == [] then []
    else (if q[0].op != Connect && q[0].ctx.Some? then [(q[0].ctx.value, Success)] else []) + SucceedAll(q[1..])
  }

  /** The context of every request in flight goes back as a success, once and in queue order. */
  lemma {:induction false} PurgeVerdicts(s: State, resp: Response, h: Hold)
    requires Core(s, h)
    requires LastResponse(s.log) == Some(resp) && resp.op == Connect && resp.info.Some?
    requires NoConnects(s.cache.inFlight) || resp.rescode == Ok
    ensures Verdicts(PurgeInFlight(s, resp).log) == Verdicts(s.log) + SucceedAll(s.cache.inFlight)
    decreases |s.cache.inFlight|
  {
    hide Core, PurgeOne, PurgeInFlight;
    CoreRuns(s, h);
    PurgeByOne(s, resp);
    var q := s.cache.inFlight;
    if q != [] {
      var t := PurgeOne(s, resp);
      PurgeOneKeeps(s, resp, h);
      HeadConnect(s, h);
      PurgeVerdicts(t, resp, h);
      var one := if q[0].op != Connect then [(q[0].ctx.value, Success)] else [];
      PurgeOneVerdict(s, resp, h);
      assert (Verdicts(s.log) + one) + SucceedAll(q[1..]) == Verdicts(s.log) + SucceedAll(q);
    } else {
      assert Verdicts(s.log) + [] == Verdicts(s.log);
    }
  }

  lemma PurgedWorkLog(s: State, e: Event, resp: Response)
    requires s.cache.inFlight != [] && s.cache.inFlight[0].ctx.Some?
    ensures var c := s.cache.inFlight[0].ctx.value;
            WorkDone(s, e, resp).log == Then(Then(s.log, e), HandBack(c, VerdictOf(resp.rescode)))
  {
    hide Recycled, CountReplied;
  }

  lemma PurgeOneVerdict(s: State, resp: Response, h: Hold)
    requires Core(s, h) && s.cache.inFlight != []
    requires resp.op == Connect && (IsConnect(s.cache.inFlight[0]) ==> resp.rescode == Ok)
    ensures var m := s.cache.inFlight[0];
            Verdicts(PurgeOne(s, resp).log) ==
            Verdicts(s.log) + if m.op != Connect then [(m.ctx.value, Success)] else []
    ensures var m := s.cache.inFlight[0]; m.op != Connect ==> m.ctx.Some?
  {
    hide Core, SettleMsg, WorkDone, Accepted, Popping, Recycled;
    CoreRuns(s, h);
    var m := s.cache.inFlight[0];
    if m.op != Connect {
      SettlingWork(s, Purge(m), FakeOk(m), true);
      PurgedWorkLog(s, Purge(m), FakeOk(m));
      assert Verdicts(Then(s.log, Purge(m))) == Verdicts(s.log);
    } else {
      PurgedConnect(s, resp);
      AcceptedLog(s, Settle(m, Ok), SyntAfter(s, resp));
      assert Verdicts(Then(s.log, Settle(m, Ok))) == Verdicts(s.log);
    }
  }

  lemma AcceptedLog(s: State, e: Event, synt: nat)
    requires s.cache.inFlight != []
    ensures Accepted(Popping(s, e, Ok), synt).log == Then(Then(s.log, e), Accept)
  {
    hide CountReplied;
  }

  /** A response that shows a restart empties the in-flight queue. Every context in it goes back as
      a success, in order; nothing is transmitted and the unsent queue is left alone; and a Connect
      that was outstanding makes the dataplane ready, with the sync token reported. */
  lemma RestartPurge(s: State, resp: Response)
    requires Inv(s, NOTHING_HELD)
    requires resp.op == Connect && resp.info.Some? && s.synt != 0 && resp.info.value != s.synt
    requires NoConnects(s.cache.inFlight) || resp.rescode == Ok
    ensures var t := HandleMsg(s, ResponseMsg(resp));
            && t.status == Running
            && t.cache.inFlight == []
            && t.cache.unsent == s.cache.unsent
            && SentRequests(t.log) == SentRequests(s.log) && SentQueued(t.log) == SentQueued(s.log)
            && Verdicts(t.log) == Verdicts(s.log) + SucceedAll(s.cache.inFlight)
            && Popped(t.log) == Popped(s.log) + s.cache.inFlight
            && (if NoConnects(s.cache.inFlight) then t.ready == s.ready && t.synt == s.synt
                else t.ready && t.synt == resp.info.value)
  {
    hide Core, PurgeInFlight;
    var s0 := Note(s, Receive(ResponseMsg(resp)));
    ReceiveKeeps(s, Receive(ResponseMsg(resp)), NOTHING_HELD);
    PurgeKeeps(s0, resp, NOTHING_HELD);
    PurgeVerdicts(s0, resp, NOTHING_HELD);
    var t := PurgeInFlight(s0, resp);
    CoreRuns(t, NOTHING_HELD);
    OutstandingIsRest(s0, NOTHING_HELD);
    OutstandingIsRest(t, NOTHING_HELD);
    assert Popped(t.log) + [] == Popped(t.log);
  }

  lemma OutstandingIsRest(s: State, h: Hold)
    requires Core(s, h)
    ensures SentRequests(s.log) == Popped(s.log) + s.cache.inFlight
  {
  }

  // ---- When a context is lost ----

  /** What a response has no part in: neither contexts come in or are lost, nor messages are submitted or
      received. */
  ghost predicate SameNews(l: Log, l': Log) {
    && Lost(l') == Lost(l) && Dequeued(l') == Dequeued(l) && Spared(l') == Spared(l)
    && Submitted(l') == Submitted(l) && Heard(l') == Heard(l) && Refreshes(l') == Refreshes(l)
  }

  lemma AckLosesNothing(s: State, resp: Response, purged: bool)
    ensures SameNews(s.log, AckConnect(s, resp, purged).log)
  {
    hide SendPending;
    if resp.rescode == Ok {
      SendPendingBooks(Accepted(s, SyntAfter(s, resp)));
    }
  }

  lemma HandlingLosesNothing(s: State, resp: Response, m: Msg, purged: bool)
    ensures SameNews(s.log, HandleSettled(s, resp, m, purged).log)
  {
    hide AckConnect, CountReplied, VerdictOf;
    var s1 := s.(stats := CountReplied(s.stats, KindOf(m), resp.rescode));
    AckLosesNothing(s1, resp, purged);
    HandOffLosesNothing(s1, m, VerdictOf(resp.rescode));
  }

  lemma HandOffLosesNothing(s: State, m: Msg, v: Verdict)
    ensures SameNews(s.log, HandOff(s, m, v).log)
  {
    hide SameNews;
    NoNews(s.log);
    if m.ctx.Some? {
      HandBackNews(s.log, m.ctx.value, v);
    }
  }

  lemma NoNews(l: Log)
    ensures SameNews(l, l)
  {
  }

  lemma HandBackNews(l: Log, c: Ctx, v: Verdict)
    ensures SameNews(l, Then(l, HandBack(c, v)))
  {
  }

  lemma SettlingLosesNothing(s: State, resp: Response, m: Msg, purged: bool)
    ensures SameNews(s.log, SettleMsg(s, resp, m, purged).log)
  {
    hide HandleSettled, Handled, Recycled, Lost;
    HandlingLosesNothing(s, resp, m, purged);
  }

  lemma {:induction false} PurgeLosesNothing(s: State, resp: Response)
    ensures SameNews(s.log, PurgeInFlight(s, resp).log)
    decreases |s.cache.inFlight|
  {
    hide PurgeOne, PurgeInFlight;
    PurgeByOne(s, resp);
    if s.cache.inFlight != [] {
      PurgeOneLosesNothing(s, resp);
      PurgeLosesNothing(PurgeOne(s, resp), resp);
    }
  }

  lemma PurgeOneLosesNothing(s: State, resp: Response)
    requires s.cache.inFlight != []
    ensures SameNews(s.log, PurgeOne(s, resp).log)
  {
    hide SettleMsg;
    var m := s.cache.inFlight[0];
    SettlingLosesNothing(PopHead(s, PurgeEvent(resp, m)), PurgeAnswer(resp, m), m, true);
  }

  lemma DroppingLoses(s: State, resp: Response)
    requires ExpectedHead(s, resp) == None
    ensures var q := s.cache.inFlight;
            Lost(Recovering(s, resp).log) != Lost(s.log) <==> q != [] && q[0].ctx.Some?
  {
    hide Dropping, PopHead;
    var q := s.cache.inFlight;
    if q != [] {
      DroppingFields(s);
      DropMatters(s.log, q[0]);
    }
  }

  lemma DropMatters(l: Log, m: Msg)
    ensures Lost(Then(l, Drop(m))) != Lost(l) <==> m.ctx.Some?
  {
    if m.ctx.Some? {
      assert (Lost(l) + CtxBag(m.ctx))[m.ctx.value] == Lost(l)[m.ctx.value] + 1;
    }
  }

  /** Exactly when a response makes the plugin lose a context: it neither shows a restart nor is for
      the request in flight for longest, and that request was made for a context. */
  lemma LosesExactlyOnMismatch(s: State, resp: Response)
    requires Inv(s, NOTHING_HELD)
    ensures var t := HandleMsg(s, ResponseMsg(resp));
            var q := s.cache.inFlight;
            Lost(t.log) != Lost(s.log) <==>
            && !(resp.op == Connect && resp.info.Some? && s.synt != 0 && resp.info.value != s.synt)
            && q != [] && (resp.op != q[0].op || resp.seqn != q[0].seqn) && q[0].ctx.Some?
  {
    hide Core, SettleMsg, PurgeInFlight, HandleResponse, Recovering;
    CoreLists(s, NOTHING_HELD);
    var s0 := Note(s, Receive(ResponseMsg(resp)));
    var q := s.cache.inFlight;
    if ShowsRestart(s, resp) {
      PurgeLosesNothing(s0, resp);
      RestartResponse(s0, resp);
    } else if q != [] && Expected(resp, q[0]) {
      ExpectedResponse(s0, resp);
      SettlingLosesNothing(PopHead(s0, Settle(q[0], resp.rescode)), resp, q[0], false);
    } else {
      UnexpectedResponse(s0, resp);
      DroppingLoses(s0, resp);
    }
  }

  lemma RestartResponse(s: State, resp: Response)
    requires ShowsRestart(s, resp)
    ensures HandleResponse(s, resp) == PurgeInFlight(s, resp)
  {
    hide PurgeInFlight;
  }

  // ---- Teardown ----

  lemma {:induction false} FreeAllFrees(l: Log, q: seq<Msg>)
    ensures Freed(FreeAll(l, q)) == Freed(l) + Ids(q)
    ensures FreedCtxs(FreeAll(l, q)) == FreedCtxs(l) + Ctxs(q)
    decreases |q|
  {
    hide CtxBag;
    if q == [] {
      assert Freed(l) + multiset{} == Freed(l) && FreedCtxs(l) + multiset{} == FreedCtxs(l);
    } else {
      FreeAllFrees(Then(l, Free(q[0])), q[1..]);
      AddBetween(Freed(l), multiset{q[0].id}, Ids(q[1..]));
      AddBetween(FreedCtxs(l), CtxBag(q[0].ctx), Ctxs(q[1..]));
    }
  }

  lemma {:induction false} FreeAllBooks(l: Log, q: seq<Msg>)
    ensures var t := FreeAll(l, q);
            && SameBooks(l, t) && Returned(t) == Returned(l) && Leaked(t) == Leaked(l)
    decreases |q|
  {
    if q != [] {
      var l1 := Then(l, Free(q[0]));
      assert SameBooks(l, l1) && Returned(l1) == Returned(l) && Lost(l1) == Lost(l) && Leaked(l1) == Leaked(l);
      FreeAllBooks(l1, q[1..]);
    }
  }

  /** Releasing three lists in turn. */
  lemma FreeThree(l: Log, a: seq<Msg>, b: seq<Msg>, c: seq<Msg>)
    ensures var t := FreeAll(FreeAll(FreeAll(l, a), b), c);
            && Freed(t) == Freed(l) + Ids(a) + Ids(b) + Ids(c)
            && FreedCtxs(t) == FreedCtxs(l) + Ctxs(a) + Ctxs(b) + Ctxs(c)
            && SameBooks(l, t) && Returned(t) == Returned(l) && Leaked(t) == Leaked(l)
  {
    hide FreeAll, Freed, FreedCtxs, Ids, Ctxs, Returned, Lost, Leaked;
    var l1 := FreeAll(l, a);
    var l2 := FreeAll(l1, b);
    FreeAllFrees(l, a);
    FreeAllFrees(l1, b);
    FreeAllFrees(l2, c);
    FreeAllBooks(l, a);
    FreeAllBooks(l1, b);
    FreeAllBooks(l2, c);
  }

  lemma {:induction false} IdleHasNoCtxs(q: seq<Msg>)
    requires AllIdle(q)
    ensures Ctxs(q) == multiset{}
  {
    if q != [] {
      forall i | 0 <= i < |q[1..]| ensures q[1..][i].ctx == None {
        assert q[1..][i] == q[i + 1];
      }
      IdleHasNoCtxs(q[1..]);
    }
  }

  lemma {:induction false} NothingFreedYet(l: Log)
    requires NothingFreed(l)
    ensures Freed(l) == multiset{} && FreedCtxs(l) == multiset{}
  {
    match l
    case Nothing =>
    case Then(p, _) => NothingFreedYet(p);
  }

  lemma ClosingBooks(s: State)
    ensures var t := CloseSock(s);
            && Freed(t.log) == Freed(s.log) && FreedCtxs(t.log) == FreedCtxs(s.log) && SameBooks(s.log, t.log)
            && Returned(t.log) == Returned(s.log) && Lost(t.log) == Lost(s.log) && Leaked(t.log) == Leaked(s.log)
            && t.cache == s.cache && !t.sock
            && (if s.sock then !t.connected && !t.ready else t == s)
  {
  }

  /** Finalization releases every message that is in a list, each once, and with them exactly the
      contexts that are neither back with zebra nor dropped. */
  lemma Teardown(s: State)
    requires Inv(s, NOTHING_HELD)
    ensures var t := Finalize(s);
            && t.cache.pool == [] && t.cache.unsent == [] && t.cache.inFlight == []
            && !t.sock && !t.connected && !t.ready
            && Freed(t.log) + Leaked(t.log) == UpTo(s.cache.created)
            && FreedCtxs(t.log) == Ctxs(s.cache.unsent) + Ctxs(s.cache.inFlight)
            && Dequeued(t.log) == Returned(t.log) + Lost(t.log) + FreedCtxs(t.log)
            && Verdicts(t.log) == Verdicts(s.log)
  {
    hide Core, CloseSock, FreeAll, Freed, FreedCtxs, Ids, Ctxs, Returned, Lost, Leaked, UpTo, Dequeued, Verdicts;
    CoreForTeardown(s);
    ClosingBooks(s);
    var c := s.cache;
    FreeThree(CloseSock(s).log, c.pool, c.unsent, c.inFlight);
    NothingFreedYet(s.log);
    IdleHasNoCtxs(c.pool);
    ContextsConserved(s, NOTHING_HELD);
  }

  lemma CoreForTeardown(s: State)
    requires Core(s, NOTHING_HELD)
    ensures NothingFreed(s.log) && AllIdle(s.cache.pool)
    ensures Ids(s.cache.pool) + Ids(s.cache.unsent) + Ids(s.cache.inFlight) + Leaked(s.log) == UpTo(s.cache.created)
    ensures !s.sock ==> !s.connected && !s.ready
  {
    assert Ids(s.cache.pool) + Ids(s.cache.unsent) + Ids(s.cache.inFlight) + Leaked(s.log) + multiset{} ==
           UpTo(s.cache.created);
  }
}
