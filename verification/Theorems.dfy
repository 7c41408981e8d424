/** The results: what holds after any run of the plugin, for any work zebra hands it, any outcome
    of every socket call and anything the dataplane sends. */
module Theorems {
  import opened Messages
  import opened Process
  import opened Trace
  import opened MsgCache
  import opened RpcStats
  import opened Session
  import opened Dataplane
  import opened Invariants
  import opened Sending
  import opened Receiving
  import opened Steps
  import opened Consequences
  import opened Operations
  import opened Effects
  import opened Diligence

  /** The state after initialization and `steps`. */
  function Reached(env: Env, steps: seq<Step>): State {
    Run(Start(env), steps)
  }

  /** The invariant at the end of a run, finalized ones excepted; if the run was aborted, one Connect
      is in hand. */
  lemma ReachedCore(env: Env, steps: seq<Step>) returns (h: Hold)
    requires Reached(env, steps).status != Finished
    ensures Core(Reached(env, steps).(status := Running), h)
    ensures h.front == [] && h.ctxs == multiset{}
    ensures Reached(env, steps).status == Running ==> h == NOTHING_HELD && Inv(Reached(env, steps), h)
  {
    hide Core, Coupled;
    StartSound(env);
    RunSound(Start(env), steps);
    var s := Reached(env, steps);
    h := NOTHING_HELD;
    if s.status == Running {
      assert s.(status := Running) == s;
    } else {
      var id: nat :| Core(s.(status := Running), WithId(NOTHING_HELD, id));
      h := WithId(NOTHING_HELD, id);
    }
  }

  /** Phases of a session. At most one Connect is in flight, after everything else, and then the
      socket is connected, the dataplane not ready and no connect timer armed. A ready dataplane has
      a connected socket and no Connect in flight. An armed timer means neither connected nor ready,
      so that the guard on it in the error path of a send never matters. */
  lemma SessionPhases(env: Env, steps: seq<Step>)
    requires Reached(env, steps).status != Finished
    ensures var s := Reached(env, steps);
            var q := s.cache.inFlight;
            && (forall i :: 0 <= i < |q| && IsConnect(q[i]) ==> i == |q| - 1 && s.connected && !s.ready && !s.timer)
            && (s.ready ==> s.connected && NoConnects(q))
            && (s.timer ==> !s.connected && !s.ready && NoConnects(q))
            && (s.connected ==> s.sock)
  {
    hide Reached;
    var h := ReachedCore(env, steps);
    var q := Reached(env, steps).cache.inFlight;
    OnlyLastIsConnect(q);
  }

  /** Two first-in first-out stages. What entered the unsent queue is what was transmitted, Connects
      aside, and then what is still unsent; the requests transmitted are those popped and then those
      in flight. Nothing is lost, duplicated or reordered. */
  lemma QueuesAreFifo(env: Env, steps: seq<Step>)
    requires Reached(env, steps).status != Finished
    ensures var s := Reached(env, steps);
            && Submitted(s.log) == SentQueued(s.log) + s.cache.unsent
            && SentRequests(s.log) == Popped(s.log) + s.cache.inFlight
  {
    hide Reached;
    var h := ReachedCore(env, steps);
  }

  /** What the lists hold. In particular Connects never make it to the unsent queue. */
  lemma ListContents(env: Env, steps: seq<Step>)
    requires Reached(env, steps).status != Finished
    ensures var c := Reached(env, steps).cache;
            && (forall i :: 0 <= i < |c.unsent| ==> !IsConnect(c.unsent[i]))
            && (forall i :: 0 <= i < |c.unsent| ==> c.unsent[i].ctx.Some? == (c.unsent[i].typ == Request))
            && (forall i :: 0 <= i < |c.inFlight| ==> c.inFlight[i].typ == Request)
            && (forall i :: 0 <= i < |c.inFlight| ==> c.inFlight[i].ctx.None? == IsConnect(c.inFlight[i]))
            && (forall i :: 0 <= i < |c.pool| ==> c.pool[i].ctx == None)
  {
    hide Reached;
    var h := ReachedCore(env, steps);
  }

  /** The sequence numbers of the requests popped, in flight and unsent are 1, 2, 3 and so on, each
      once and in order, up to the next one to be issued. */
  lemma SeqnumsContiguous(env: Env, steps: seq<Step>)
    requires Reached(env, steps).status != Finished
    ensures var s := Reached(env, steps);
            Seqns(Popped(s.log)) + Seqns(s.cache.inFlight) + Seqns(s.cache.unsent) == Upward(s.seqnum)
  {
    hide Reached, Core;
    var h := ReachedCore(env, steps);
    SeqnumsInOrder(Reached(env, steps).(status := Running), h);
  }

  /** No two responses are ever accepted for the same sequence number, Connects aside. */
  lemma AnsweredAtMostOnce(env: Env, steps: seq<Step>, i: nat, j: nat)
    requires Reached(env, steps).status != Finished
    requires i < j < |Popped(Reached(env, steps).log)|
    requires var q := Popped(Reached(env, steps).log); !IsConnect(q[i]) && !IsConnect(q[j])
    ensures var q := Popped(Reached(env, steps).log); q[i].seqn < q[j].seqn
  {
    hide Reached, Core;
    var h := ReachedCore(env, steps);
    var s := Reached(env, steps).(status := Running);
    PoppedIncrease(s, h);
    PoppedTypes(s, h);
    IncreasingMeansDistinct(Popped(s.log), i, j);
  }

  lemma PoppedTypes(s: State, h: Hold)
    requires Core(s, h)
    ensures forall i :: 0 <= i < |Popped(s.log)| ==> Popped(s.log)[i].typ == Request
  {
    SentAreRequests(s.log);
    assert forall i :: 0 <= i < |Popped(s.log)| ==> Popped(s.log)[i] == SentRequests(s.log)[i];
  }

  lemma {:induction false} SentAreRequests(l: Log)
    ensures forall i :: 0 <= i < |SentRequests(l)| ==> SentRequests(l)[i].typ == Request
  {
    match l
    case Nothing =>
    case Then(p, _) => SentAreRequests(p);
  }

  /** Every context taken from zebra is in exactly one place: back with zebra, dropped, in flight or
      unsent. So a context taken once is returned at most once, and then held nowhere. */
  lemma ContextsExactlyOnce(env: Env, steps: seq<Step>, c: Ctx)
    requires Reached(env, steps).status != Finished
    ensures var s := Reached(env, steps);
            Dequeued(s.log)[c] ==
            Returned(s.log)[c] + Lost(s.log)[c] + Ctxs(s.cache.inFlight)[c] + Ctxs(s.cache.unsent)[c]
  {
    hide Reached, Core;
    var h := ReachedCore(env, steps);
    var s := Reached(env, steps).(status := Running);
    ContextsConserved(s, h);
    assert (Returned(s.log) + Lost(s.log) + Ctxs(s.cache.inFlight) + Ctxs(s.cache.unsent))[c] == Dequeued(s.log)[c];
  }

  /** Every verdict was deserved: see `Deserved`. */
  lemma VerdictsAreDeserved(env: Env, steps: seq<Step>, i: nat)
    requires Reached(env, steps).status != Finished
    requires i < |Events(Reached(env, steps).log)| && Events(Reached(env, steps).log)[i].HandBack?
    ensures Deserved(Events(Reached(env, steps).log), i)
  {
    hide Reached, Core;
    var h := ReachedCore(env, steps);
    var s := Reached(env, steps).(status := Running);
    LogIsLawful(s, h);
    PoppedConnectsHaveNoCtx(s, h);
    PoppedSettledWork(s.log);
    VerdictsDeserved(s.log, i);
  }

  lemma LogIsLawful(s: State, h: Hold)
    requires Core(s, h)
    ensures Lawful(s.log)
  {
  }

  lemma PoppedConnectsHaveNoCtx(s: State, h: Hold)
    requires Core(s, h)
    ensures var q := Popped(s.log); forall i :: 0 <= i < |q| ==> IsConnect(q[i]) ==> q[i].ctx == None
  {
    SentConnectsHaveNoCtx(s.log);
    assert forall i :: 0 <= i < |Popped(s.log)| ==> Popped(s.log)[i] == SentRequests(s.log)[i];
  }

  /** Nothing but a Connect is transmitted before the dataplane acknowledged a Connect, or after the
      link was lost since. */
  lemma TransmissionsGated(env: Env, steps: seq<Step>, i: nat)
    requires Reached(env, steps).status != Finished
    requires var q := Events(Reached(env, steps).log); i < |q| && q[i].Transmit? && !IsConnect(q[i].m)
    ensures exists j :: SessionUp(Events(Reached(env, steps).log), j, i)
  {
    hide Reached, Core;
    var h := ReachedCore(env, steps);
    LogIsLawful(Reached(env, steps).(status := Running), h);
    GatedMeansUp(Reached(env, steps).log, i);
  }

  /** When the dataplane becomes ready nothing is outstanding: every request transmitted before was
      popped before, so that no response of a former session can be taken for one of the new. */
  lemma SessionsStartClean(env: Env, steps: seq<Step>, i: nat)
    requires Reached(env, steps).status != Finished
    requires var q := Events(Reached(env, steps).log); i < |q| && q[i].Accept?
    ensures exists p: Log :: Events(p) == Events(Reached(env, steps).log)[..i] && SentRequests(p) == Popped(p)
  {
    hide Reached, Core;
    var h := ReachedCore(env, steps);
    LogIsLawful(Reached(env, steps).(status := Running), h);
    CleanMeansNoneOutstanding(Reached(env, steps).log, i);
  }

  /** The statistics agree with the queues: of each kind, requests sent are those replied to, in
      flight and dropped; replies are the result codes counted, each in its counter, and those out of
      range; and what was transmitted is all requests sent and the controls. */
  lemma StatisticsAgreeWithQueues(env: Env, steps: seq<Step>, k: Kind, code: ResCode)
    requires Reached(env, steps).status != Finished
    ensures var s := Reached(env, steps);
            var c := CellOf(s.stats.requests, k);
            && c.sent == c.replied + CountKind(s.cache.inFlight, k) + DropCount(s.log, k)
            && c.replied == |c.codes| + c.unkErr
            && (!code.BadCode? ==> c.codes[code] == CodeCount(s.log, k, code))
            && c.unkErr == BadCount(s.log, k)
            && c.replied <= c.sent
            && s.stats.txOk == SumSent(s.stats.requests, AllKinds()) + s.stats.controlTx
  {
    hide Reached, Core;
    var h := ReachedCore(env, steps);
    StatisticsAgree(Reached(env, steps).(status := Running), h, k, code);
  }

  /** Every message ever allocated is in one list, or leaked by a mismatch, and in no two; and no
      more were ever allocated than preallocated or needed at once. */
  lemma MessagesInOnePlace(env: Env, steps: seq<Step>, id: nat)
    requires Reached(env, steps).status == Running
    ensures var s := Reached(env, steps);
            var c := s.cache;
            && Ids(c.pool)[id] + Ids(c.unsent)[id] + Ids(c.inFlight)[id] + Leaked(s.log)[id] ==
               (if id < c.created then 1 else 0)
            && |c.pool| + |c.unsent| + |c.inFlight| + |Leaked(s.log)| == c.created
            && c.created == Max(PREALLOCATED, c.peak)
  {
    hide Reached, Core;
    var h := ReachedCore(env, steps);
    OnePlaceEach(Reached(env, steps), h, id);
  }

  /** From a transmission refused for lack of room until the write event fires, the write event is
      armed. */
  lemma NoLostWakeup(env: Env, steps: seq<Step>, i: nat)
    requires Reached(env, steps).status != Finished
    requires var q := Events(Reached(env, steps).log);
             i < |q| && q[i].Blocked? && forall k :: i < k < |q| ==> !q[k].WriteFired?
    ensures Reached(env, steps).sendArmed
  {
    hide Reached;
    var h := ReachedCore(env, steps);
    BlockedMeansWanted(Reached(env, steps).log, i);
  }

  /** Nor does the write callback leave messages behind without asking for another. */
  lemma WriteCallbackAsksAgain(s: State)
    ensures var t := OnWritable(s); t.cache.unsent == [] || t.sendArmed
  {
    hide SendPending;
  }

  /** The write callback puts the unsent queue through the socket: of a ready dataplane, as many messages go
      as the socket takes in a row, in order. It asks to be called again if and only if some are left. */
  lemma WriteCallbackDrains(env: Env, steps: seq<Step>, e: Env)
    requires Reached(env, steps).status == Running && Reached(env, steps).sendArmed
    ensures var s := Reached(env, steps);
            var t := Take(s, Step(Writable, e));
            && (t.sendArmed <==> t.cache.unsent != [])
            && (s.ready ==> Drained(s.cache.unsent, s.cache.inFlight, SentQueued(s.log), t,
                                    Min(LeadingSent(e.sends), |s.cache.unsent|)))
            && (!s.ready ==> t.cache == s.cache && SentQueued(t.log) == SentQueued(s.log))
  {
    hide Reached, Inv, OnWritable, Drained;
    var h := ReachedCore(env, steps);
    var s := Reached(env, steps);
    EnvKeeps(s, e, s.inbox, NOTHING_HELD);
    WritableFlushes(s.(env := e));
  }

  /** Whatever a callback meets, each outcome of its sends and receives is counted in its own counter, and
      each send refused for lack of room is noted in the history; so `NoLostWakeup` is about all of them. */
  lemma OutcomesCounted(env: Env, steps: seq<Step>, step: Step)
    requires Reached(env, steps).status == Running
    ensures var s := Reached(env, steps).(env := step.env);
            var t := Take(s, step);
            SendsCounted(SendMeterOf(s), SendMeterOf(t)) && ReadsCounted(ReadMeterOf(s), ReadMeterOf(t))
  {
    hide Reached, Take, SendsCounted, ReadsCounted, SendMeterOf, ReadMeterOf;
    TakeDiligent(Reached(env, steps).(env := step.env), step);
  }

  /** After any run a socket that is not connected has its connect timer armed, and one that is has its read
      event armed: the plugin never stops trying to connect, nor stops listening. */
  lemma AlwaysTriesAndListens(env: Env, steps: seq<Step>)
    ensures var s := Reached(env, steps);
            && (s.sock && !s.connected ==> s.timer)
            && (s.connected ==> s.recvArmed)
  {
    hide Start, Run;
    StartRetries(env);
    RunVigilant(Start(env), steps);
  }

  /** Every request submitted for a context has the operation and the object that the context asks for, route
      requests with the next-hops selected; so do those transmitted, which are the first of them. */
  lemma RequestsSuitContexts(env: Env, steps: seq<Step>, i: nat)
    requires Reached(env, steps).status != Finished
    requires var q := Submitted(Reached(env, steps).log); i < |q| && q[i].ctx.Some?
    ensures var m := Submitted(Reached(env, steps).log)[i]; Suits(m.op, m.obj, m.ctx.value)
    ensures SentQueued(Reached(env, steps).log) <= Submitted(Reached(env, steps).log)
  {
    hide Reached, Core, Suits;
    var h := ReachedCore(env, steps);
    LogIsLawful(Reached(env, steps).(status := Running), h);
    SubmittedSuits(Reached(env, steps).log, i);
    QueuesAreFifo(env, steps);
  }

  /** Every Connect transmitted tells the sync token that the dataplane last reported on becoming ready, or
      none if it never was; and this is the one the plugin keeps. */
  lemma ConnectsTellToken(env: Env, steps: seq<Step>, i: nat)
    requires Reached(env, steps).status != Finished
    requires var q := Events(Reached(env, steps).log); i < |q| && q[i].Transmit? && IsConnect(q[i].m)
    ensures var q := Events(Reached(env, steps).log);
            exists p: Log :: Events(p) == q[..i] && q[i].m.obj == ConnInfo(KnownSynt(p))
    ensures Reached(env, steps).synt == KnownSynt(Reached(env, steps).log)
  {
    hide Reached, Core;
    var h := ReachedCore(env, steps);
    LogIsLawful(Reached(env, steps).(status := Running), h);
    TokenIsKnown(Reached(env, steps).(status := Running), h);
    IntroducedMeansKnown(Reached(env, steps).log, i);
  }

  lemma TokenIsKnown(s: State, h: Hold)
    requires Core(s, h)
    ensures s.synt == KnownSynt(s.log)
  {
  }

  /** Once shutdown was announced no sequence number is issued any more, whatever comes. */
  lemma ShutdownStopsNumbers(env: Env, steps: seq<Step>, e: Env, more: seq<Step>)
    requires Reached(env, steps).status == Running
    ensures var s := Reached(env, steps);
            var t := Run(Take(s, Step(FiniEarly, e)), more);
            t.finalizing && t.seqnum == s.seqnum
  {
    hide Reached, Run, Retries, Listens;
    var s := Reached(env, steps);
    var t := Take(s, Step(FiniEarly, e));
    AlwaysTriesAndListens(env, steps);
    VigilantFrom(s);
    EarlyKeeps(s, e);
    RunVigilant(t, more);
  }

  lemma VigilantFrom(s: State)
    requires (s.sock && !s.connected ==> s.timer) && (s.connected ==> s.recvArmed)
    ensures Retries(s) && Listens(s)
  {
  }

  lemma EarlyKeeps(s: State, e: Env)
    requires s.status == Running
    ensures var t := Take(s, Step(FiniEarly, e));
            t.finalizing && t.seqnum == s.seqnum && Retries(t) == Retries(s) && Listens(t) == Listens(s)
  {
  }

  /** Shutdown after any run: every message in a list is released once, with exactly the contexts
      that are neither back with zebra nor dropped. */
  lemma ShutdownReleasesTheRest(env: Env, steps: seq<Step>, e: Env, c: Ctx)
    requires Reached(env, steps).status == Running
    ensures var s := Reached(env, steps);
            var t := Take(s, Step(Fini, e));
            && t.status == Finished
            && t.cache.pool == [] && t.cache.unsent == [] && t.cache.inFlight == []
            && Freed(t.log) + Leaked(t.log) == UpTo(s.cache.created)
            && Dequeued(t.log)[c] == Returned(t.log)[c] + Lost(t.log)[c] + FreedCtxs(t.log)[c]
            && Verdicts(t.log) == Verdicts(s.log)
  {
    hide Reached, Core, Coupled, Finalize, UpTo;
    var h := ReachedCore(env, steps);
    var s := Reached(env, steps).(env := e);
    EnvKeeps(Reached(env, steps), e, Reached(env, steps).inbox, NOTHING_HELD);
    Teardown(s);
    var l := Finalize(s).log;
    assert (Returned(l) + Lost(l) + FreedCtxs(l))[c] == Dequeued(l)[c];
    FinalizedStatus(s);
  }

  lemma FinalizedStatus(s: State)
    ensures Finalize(s).status == Finished
  {
    hide FreeAll, CloseSock;
  }

  /** Composed with a dataplane that answers each request once and in order, and each Connect with a
      sync token never used before, and that loses replies only by restarting: no response misses its
      request, no context is dropped, no message leaks, and what is in flight is exactly what the
      dataplane has yet to answer. */
  lemma NothingLostWithGoodDataplane(env: Env, steps: seq<Step>)
    requires Reached(env, steps).status == Running
    requires PeerOk(Reached(env, steps).log)
    ensures var s := Reached(env, steps);
            && NoMisses(s.log)
            && Lost(s.log) == multiset{} && Leaked(s.log) == multiset{}
            && PeerOf(s.log).former + PeerOf(s.log).current == s.cache.inFlight
            && Dequeued(s.log) == Returned(s.log) + Ctxs(s.cache.inFlight) + Ctxs(s.cache.unsent)
  {
    hide Reached, Core;
    var h := ReachedCore(env, steps);
    var s := Reached(env, steps);
    NoDropsNoLoss(s.log);
    ContextsConserved(s, h);
    var all := Returned(s.log) + Ctxs(s.cache.inFlight) + Ctxs(s.cache.unsent);
    assert Returned(s.log) + multiset{} + Ctxs(s.cache.inFlight) + Ctxs(s.cache.unsent) == all;
  }
}
