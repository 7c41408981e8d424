/** Every callback keeps the invariant, and so does every run. */
module Steps {
  import opened Bags
  import opened Messages
  import opened Process
  import opened Trace
  import opened MsgCache
  import opened RpcStats
  import opened Session
  import opened Dataplane
  import opened Dispatch
  import opened Invariants
  import opened Sending
  import opened Receiving

  // ---- Submitting a message ----

  function NextSeqnum(s: State, m: Msg): nat {
    if m.typ == Request then s.seqnum + 1 else s.seqnum
  }

  function Queue(s: State, m: Msg): State {
    Note(SetUnsent(s.(seqnum := NextSeqnum(s, m)), s.cache.unsent + [m]), Submit(m))
  }

  lemma QueueFields(s: State, m: Msg)
    ensures var t := Queue(s, m);
            && t.status == s.status && t.sock == s.sock && t.connected == s.connected && t.ready == s.ready
            && t.timer == s.timer && t.sendArmed == s.sendArmed && t.finalizing == s.finalizing && t.synt == s.synt
            && t.env == s.env && t.seqnum == NextSeqnum(s, m) && t.log == Then(s.log, Submit(m)) && t.stats == s.stats
            && t.cache == s.cache.(unsent := s.cache.unsent + [m])
  {
  }

  lemma QueueFifo(l: Log, m: Msg, unsent: seq<Msg>, q: seq<Msg>)
    requires Fifo(l, [], unsent, q)
    ensures Fifo(Then(l, Submit(m)), [], unsent + [m], q)
  {
    assert SentQueued(l) + [] + (unsent + [m]) == (SentQueued(l) + [] + unsent) + [m];
  }

  lemma QueueBalance(l: Log, m: Msg, ctxs: multiset<Ctx>)
    requires Balanced(l, ctxs) && (m.ctx.Some? ==> m.ctx.value in ctxs)
    ensures Balanced(Then(l, Submit(m)), ctxs - CtxBag(m.ctx))
  {
    var one := CtxBag(m.ctx);
    assert one <= ctxs;
    MoveBag(Returned(l), Queued(l), ctxs, one);
  }

  lemma QueueNumbers(l: Log, m: Msg, seqnum: nat)
    requires Numbered(l, seqnum) && (m.typ == Request ==> m.seqn == seqnum)
    ensures Numbered(Then(l, Submit(m)), if m.typ == Request then seqnum + 1 else seqnum)
  {
  }

  lemma QueueLaw(l: Log, m: Msg)
    requires Lawful(l) && (m.ctx.Some? ==> !ShuttingDown(l) && Suits(m.op, m.obj, m.ctx.value))
    ensures Lawful(Then(l, Submit(m)))
  {
  }

  lemma QueueableGrow(q: seq<Msg>, m: Msg)
    requires AllQueueable(q) && IsQueueable(m)
    ensures AllQueueable(q + [m])
  {
  }

  lemma QueueKeeps(s: State, m: Msg, h: Hold)
    requires Inv(s, h) && h.front == [] && m.id in h.ids && IsQueueable(m)
    requires m.typ == Request ==> m.seqn == s.seqnum
    requires m.ctx.Some? ==> m.ctx.value in h.ctxs && !s.finalizing && Suits(m.op, m.obj, m.ctx.value)
    ensures Inv(Queue(s, m), h.(ids := h.ids - multiset{m.id}, ctxs := h.ctxs - CtxBag(m.ctx)))
  {
    hide Partitioned, Counted, Coupled, Phases, Fifo, Numbered, Balanced, Lawful, AllQueueable, AllRequests, AllIdle;
    hide Queue, CtxBag;
    QueueFields(s, m);
    QueueableGrow(s.cache.unsent, m);
    LogPartition(s.cache, s.log, Submit(m), h.ids);
    QueuePartition(s.cache, Then(s.log, Submit(m)), h.ids, m);
    CountedOther(s.stats.txOk, s.stats.controlTx, s.stats.requests, s.log, Submit(m));
    CoupledOther(s.log, Submit(m), s.cache.inFlight, s.synt, s.ready, s.connected);
    QueueFifo(s.log, m, s.cache.unsent, s.cache.inFlight);
    QueueNumbers(s.log, m, s.seqnum);
    QueueBalance(s.log, m, h.ctxs);
    QueueLaw(s.log, m);
  }

  lemma SendControlKeeps(s: State, refresh: bool, h: Hold)
    requires Inv(s, h) && h.front == []
    ensures Inv(SendControl(s, refresh), h)
  {
    hide Inv, SendPending;
    var m := NewMsg(s.cache).(typ := Control, refresh := refresh);
    var s1 := s.(cache := AfterNew(s.cache));
    var h1 := h.(ids := h.ids + multiset{m.id});
    NewKeeps(s, h);
    QueueKeeps(s1, m, h1);
    assert h1.(ids := h1.ids - multiset{m.id}, ctxs := h1.ctxs - CtxBag(m.ctx)) == h;
    SendPendingKeeps(Queue(s1, m), h);
  }

  lemma SendRequestQueues(s: State, op: RpcOp, obj: Object, c: Ctx)
    requires op != Connect
    ensures SendRequest(s, op, obj, c) ==
            SendPending(Queue(s.(cache := AfterNew(s.cache)), NewRequest(s, op, obj, Some(c))))
  {
    hide SendPending, AfterNew, NewMsg;
  }

  lemma SendRequestKeeps(s: State, op: RpcOp, obj: Object, c: Ctx, h: Hold)
    requires Inv(s, h) && h.front == [] && c in h.ctxs && !s.finalizing && Suits(op, obj, c)
    ensures Inv(SendRequest(s, op, obj, c), h.(ctxs := h.ctxs - multiset{c}))
  {
    hide Inv, SendPending, SendRequest, Queue, AfterNew, Suits;
    SuitableOps(op, obj, c);
    var m := NewRequest(s, op, obj, Some(c));
    var s1 := s.(cache := AfterNew(s.cache));
    var h1 := h.(ids := h.ids + multiset{m.id});
    var h2 := h.(ctxs := h.ctxs - multiset{c});
    NewKeeps(s, h);
    QueueKeeps(s1, m, h1);
    assert h1.(ids := h1.ids - multiset{m.id}, ctxs := h1.ctxs - CtxBag(m.ctx)) == h2;
    SendPendingKeeps(Queue(s1, m), h2);
    SendRequestQueues(s, op, obj, c);
  }

  // ---- Reading ----

  /** Counters other than those of transmissions and requests, and the outcomes in store, are free
      to change. */
  lemma StatsKeep(s: State, st: Stats, env: Env, h: Hold)
    requires Inv(s, h)
    requires st.txOk == s.stats.txOk && st.controlTx == s.stats.controlTx && st.requests == s.stats.requests
    ensures Inv(s.(stats := st, env := env), h)
  {
    hide Partitioned, Counted, Coupled, Phases, Contents, Fifo, Lawful, Balanced, Tight, Numbered, Flagged;
  }

  lemma HearKeeps(s: State, e: Event, h: Hold)
    requires Inv(s, h) && (e.Refresh? || (e.Receive? && !e.msg.ResponseMsg?))
    ensures Inv(Note(s, e), h)
  {
    hide Core, Coupled;
    ReceiveKeeps(s, e, h);
    CoupledOther(s.log, e, s.cache.inFlight, s.synt, s.ready, s.connected);
  }

  lemma HandleMsgKeeps(s: State, msg: RpcMsg, h: Hold)
    requires Inv(s, h) && h.front == []
    ensures var t := HandleMsg(s, msg); AbortedWell(t, h) || Inv(t, h)
  {
    hide Inv, HandleResponse, SendControl;
    if msg.ResponseMsg? {
      HandleResponseKeeps(s, msg.resp, h);
    } else {
      HearKeeps(s, Receive(msg), h);
      if msg.ControlMsg? {
        var s1 := Note(s, Receive(msg));
        if msg.refresh {
          HearKeeps(s1, Refresh, h);
          SendControlKeeps(Note(s1, Refresh), true, h);
        }
        var s2 := if msg.refresh then SendControl(Note(s1, Refresh), true) else s1;
        StatsKeep(s2, s2.stats.(controlRx := s2.stats.controlRx + 1), s2.env, h);
      }
    }
  }

  lemma ReceivedKeeps(s: State, h: Hold)
    requires Inv(s, h)
    ensures Inv(Received(s), h)
  {
    hide Inv;
    StatsKeep(s, Received(s).stats, Received(s).env, h);
  }

  lemma UndecodableKeeps(s: State, h: Hold)
    requires Inv(s, h)
    ensures Inv(WithStats(s, s.stats.(decodeFailure := s.stats.decodeFailure + 1)), h)
  {
    hide Inv;
    StatsKeep(s, s.stats.(decodeFailure := s.stats.decodeFailure + 1), s.env, h);
  }

  lemma {:induction false} ReadAllKeeps(s: State, h: Hold)
    requires Inv(s, h) && h.front == []
    ensures var t := ReadAll(s); AbortedWell(t, h) || Inv(t, h)
    decreases |s.env.recvs|
  {
    hide Core, Coupled, HandleMsg, Received;
    var o := NextRead(s.env);
    ReceivedKeeps(s, h);
    UndecodableKeeps(Received(s), h);
    if o.Got? {
      var t := HandleMsg(Received(s), o.msg);
      HandleMsgKeeps(Received(s), o.msg, h);
      if t.status != Aborted && s.env.recvs != [] {
        ReadAllKeeps(t, h);
      }
    }
  }

  // ---- Contexts ----

  lemma DequeueLaw(l: Log, c: Ctx, unsent: seq<Msg>, q: seq<Msg>, seqnum: nat, ctxs: multiset<Ctx>)
    requires Fifo(l, [], unsent, q) && Numbered(l, seqnum) && Balanced(l, ctxs) && Lawful(l)
    ensures var l1 := Then(l, Dequeue(c));
            Fifo(l1, [], unsent, q) && Numbered(l1, seqnum) && Balanced(l1, ctxs + multiset{c}) && Lawful(l1)
  {
    assert (Dequeued(l) + multiset{c}) + Resolved(l) == (Dequeued(l) + Resolved(l)) + multiset{c};
  }

  lemma DequeueKeeps(s: State, c: Ctx, inbox: seq<Ctx>, h: Hold)
    requires Inv(s, h) && h.front == []
    ensures Inv(Note(s.(inbox := inbox), Dequeue(c)), h.(ctxs := h.ctxs + multiset{c}))
  {
    hide Partitioned, Counted, Coupled, Phases, Contents, Tight, Fifo, Numbered, Balanced, Lawful, Flagged;
    EnvKeeps(s, s.env, inbox, h);
    TakenKeeps(s.(inbox := inbox), c, h);
  }

  lemma TakenKeeps(s: State, c: Ctx, h: Hold)
    requires Inv(s, h) && h.front == []
    ensures Inv(Note(s, Dequeue(c)), h.(ctxs := h.ctxs + multiset{c}))
  {
    hide Partitioned, Counted, Coupled, Phases, Contents, Tight, Fifo, Numbered, Balanced, Lawful;
    LogPartition(s.cache, s.log, Dequeue(c), h.ids);
    CountedOther(s.stats.txOk, s.stats.controlTx, s.stats.requests, s.log, Dequeue(c));
    CoupledOther(s.log, Dequeue(c), s.cache.inFlight, s.synt, s.ready, s.connected);
    DequeueLaw(s.log, c, s.cache.unsent, s.cache.inFlight, s.seqnum, h.ctxs);
  }

  lemma FlagEventKeeps(s: State, e: Event, h: Hold)
    requires Inv(s, h) && (e.SkipKernel? || e.WriteFired? || e.Finalizing?)
    ensures Inv(Note(s.(sendArmed := s.sendArmed && !e.WriteFired?, finalizing := s.finalizing || e.Finalizing?), e), h)
  {
    hide Partitioned, Counted, Coupled, Phases, Contents, Tight, Fifo, Numbered, Balanced, Lawful;
    BystanderKeeps(s, e, h);
    CoupledOther(s.log, e, s.cache.inFlight, s.synt, s.ready, s.connected);
  }

  lemma FinalizingFact(s: State, h: Hold)
    requires Inv(s, h)
    ensures s.finalizing == ShuttingDown(s.log) && s.status == Running
  {
  }

  lemma ReturnKeeps(s: State, c: Ctx, v: Verdict, h: Hold)
    requires Inv(s, h) && Reason(s.log, c, v) && v != BugValue && c in h.ctxs
    ensures Inv(Note(s, HandBack(c, v)), h.(ctxs := h.ctxs - multiset{c}))
  {
    hide Core, Coupled;
    HandBackKeeps(s, c, v, h);
    CoupledOther(s.log, HandBack(c, v), s.cache.inFlight, s.synt, s.ready, s.connected);
  }

  lemma ProcessUpdateKeeps(s: State, c: Ctx, h: Hold)
    requires Inv(s, h) && h.front == [] && c in h.ctxs && !s.finalizing
    requires s.log.Then? && s.log.last == Dequeue(c)
    ensures Inv(ProcessUpdate(s, c), h.(ctxs := h.ctxs - multiset{c}))
  {
    hide Inv, SendRequest, PlanFor, Suits, ConcernsDataplane;
    PlanIsSound(c);
    FinalizingFact(s, h);
    var plan := PlanFor(c);
    var s1 := if plan.skipKernel then Note(s, SkipKernel(c)) else s;
    if plan.skipKernel {
      FlagEventKeeps(s, SkipKernel(c), h);
      assert s1 == Note(s.(sendArmed := s.sendArmed && true, finalizing := s.finalizing || false), SkipKernel(c));
    }
    match plan.action
    case Answer(r) => ReturnKeeps(s1, c, HhRetToZebra(r), h);
    case Send(op, obj) => SendRequestKeeps(s1, op, obj, c, h);
  }

  lemma {:induction false} WorkKeeps(s: State, limit: nat, h: Hold)
    requires Inv(s, h) && h.front == []
    ensures Inv(Work(s, limit), h)
    decreases limit
  {
    hide Inv, ProcessUpdate, Work;
    WorkRound(s, limit);
    if limit > 0 && s.inbox != [] {
      var c := s.inbox[0];
      var s1 := Note(s.(inbox := s.inbox[1..]), Dequeue(c));
      var h1 := h.(ctxs := h.ctxs + multiset{c});
      DequeueKeeps(s, c, s.inbox[1..], h);
      FinalizingFact(s, h);
      assert h1.(ctxs := h1.ctxs - multiset{c}) == h;
      if s.finalizing {
        ReturnKeeps(s1, c, Failure, h1);
        WorkKeeps(Note(s1, HandBack(c, Failure)), limit - 1, h);
      } else {
        ProcessUpdateKeeps(s1, c, h1);
        WorkKeeps(ProcessUpdate(s1, c), limit - 1, h);
      }
    }
  }

  // ---- Callbacks ----

  /** What holds between steps. */
  ghost predicate Sound(s: State) {
    && (s.status == Running ==> Inv(s, NOTHING_HELD))
    && (s.status == Aborted ==> AbortedWell(s, NOTHING_HELD))
  }

  lemma TimerKeeps(s: State, h: Hold)
    requires Inv(s, h)
    ensures Inv(s.(timer := false), h)
    ensures s.timer ==> !s.connected
  {
    hide Partitioned, Counted, Coupled, Contents, Fifo, Lawful, Balanced, Tight, Numbered, Flagged;
  }

  lemma OnWritableKeeps(s: State)
    requires Inv(s, NOTHING_HELD)
    ensures Inv(OnWritable(s), NOTHING_HELD)
  {
    hide Inv, SendPending;
    var s1 := Note(s.(sendArmed := false), WriteFired);
    FlagEventKeeps(s, WriteFired, NOTHING_HELD);
    assert s1 == Note(s.(sendArmed := s.sendArmed && false, finalizing := s.finalizing || false), WriteFired);
    SendPendingKeeps(s1, NOTHING_HELD);
    BlockedKeeps(SendPending(s1), LeftOver, NOTHING_HELD);
  }

  lemma OnConnectTimerKeeps(s: State)
    requires Inv(s, NOTHING_HELD) && s.timer
    ensures Inv(OnConnectTimer(s), NOTHING_HELD)
  {
    hide Inv;
    TimerKeeps(s, NOTHING_HELD);
    DpConnectKeeps(s.(timer := false), NOTHING_HELD);
  }

  lemma EnvKeeps(s: State, env: Env, inbox: seq<Ctx>, h: Hold)
    requires Inv(s, h)
    ensures Inv(s.(env := env, inbox := inbox), h)
  {
    hide Partitioned, Counted, Coupled, Phases, Contents, Fifo, Lawful, Balanced, Tight, Numbered, Flagged;
  }

  lemma SoundIf(s: State)
    requires Inv(s, NOTHING_HELD) || AbortedWell(s, NOTHING_HELD) || s.status == Finished
    ensures Sound(s)
  {
  }

  lemma TakeKeeps(s: State, step: Step)
    requires Sound(s)
    ensures Sound(Take(s, step))
  {
    hide Inv, AbortedWell, Work, OnWritable, ReadAll, OnConnectTimer, SendControl, FreeAll, CloseSock;
    if s.status == Running {
      var s0 := s.(env := step.env);
      EnvKeeps(s, step.env, s.inbox, NOTHING_HELD);
      match step.callback {
        case Arrive(c) => EnvKeeps(s, step.env, s.inbox + [c], NOTHING_HELD);
        case Process(limit) => WorkKeeps(s0, limit, NOTHING_HELD);
        case Writable => OnWritableKeeps(s0);
        case Readable =>
          ListeningKeeps(s0, NOTHING_HELD);
          ReadAllKeeps(s0.(recvArmed := true), NOTHING_HELD);
        case ConnectTimer =>
          if s0.timer {
            OnConnectTimerKeeps(s0);
          }
        case Keepalive => SendControlKeeps(s0, false, NOTHING_HELD);
        case FiniEarly =>
          FlagEventKeeps(s0, Finalizing, NOTHING_HELD);
          assert Note(s0.(finalizing := true), Finalizing) ==
                 Note(s0.(sendArmed := s0.sendArmed && true, finalizing := s0.finalizing || true), Finalizing);
        case Fini =>
      }
      SoundIf(Take(s, step));
    }
  }

  lemma InitialPartition()
    ensures Partitioned(INITIAL_CACHE, Nothing, multiset{}) && AllIdle(INITIAL_CACHE.pool) && Tight(INITIAL_CACHE)
  {
    hide Prepopulated, UpTo;
    PrepopulatedIds(PREALLOCATED);
  }

  lemma InitialInv(env: Env)
    ensures Inv(Initial(env), NOTHING_HELD)
  {
    hide Prepopulated, Partitioned, AllIdle, Tight;
    InitialPartition();
  }

  lemma StartSound(env: Env)
    ensures Inv(Start(env), NOTHING_HELD)
  {
    hide Inv, SendControl, DpConnect, Prepopulated;
    InitialInv(env);
    DpConnectKeeps(Initial(env), NOTHING_HELD);
    SendControlKeeps(DpConnect(Initial(env)), false, NOTHING_HELD);
  }

  /** Whatever zebra asks, whatever the socket does and whatever the dataplane sends, the invariant
      holds after every step. */
  lemma {:induction false} RunSound(s: State, steps: seq<Step>)
    requires Sound(s)
    ensures Sound(Run(s, steps))
    decreases |steps|
  {
    hide Sound;
    if steps != [] {
      TakeKeeps(s, steps[0]);
      RunSound(Take(s, steps[0]), steps[1..]);
    }
  }
}
