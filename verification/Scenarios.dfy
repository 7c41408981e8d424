/** Two short runs. The first shows that the plugin, with a dataplane that behaves, serves a context.
    The second shows that it loses the context if the dataplane answers out of sequence. */
module Scenarios {
  import opened Messages
  import opened Process
  import opened Trace
  import opened MsgCache
  import opened RpcStats
  import opened Session
  import opened Dataplane
  import opened Invariants
  import opened Receiving
  import opened Steps
  import opened Consequences
  import opened Operations
  import opened Theorems

  const ROUTE := Ctx(1, RouteInstall, AfiIp, SafiUnicast, 0, true, [])

  const LINK := Env([Sent], [Joined], [])
  const SEND := Env([Sent], [], [])

  function Hearing(resp: Response): Step {
    Step(Readable, Env([], [], [Got(ResponseMsg(resp))]))
  }

  const ACK := Response(Connect, 0, Ok, Some(7))
  const DONE := Response(Add, 1, Ok, None)
  const WRONG := Response(Add, 2, Ok, None)

  /** The session is up and nothing is queued anywhere. */
  ghost predicate Up(s: State) {
    && s.status == Running && s.ready && s.connected && s.sock && s.recvArmed && s.synt == 7
    && s.cache.inFlight == [] && s.cache.unsent == [] && s.seqnum == 1 && s.inbox == [] && !s.finalizing
    && PeerOk(s.log) && PeerOf(s.log) == Peer([], [], {7})
    && Verdicts(s.log) == []
  }

  function Hello(): Msg {
    NewRequest(Initial(LINK), Connect, ConnInfo(0), None)
  }

  lemma Started()
    ensures var s := Start(LINK);
            && s.status == Running && s.connected && s.sock && s.recvArmed && !s.ready && s.synt == 0
            && s.cache.inFlight == [Hello()] && s.cache.unsent == [] && s.seqnum == 1 && s.inbox == []
            && !s.finalizing && s.log == Then(Nothing, Transmit(Hello()))
  {
    hide Prepopulated;
    var s1 := Asked(Initial(LINK)).(timer := false, connected := true);
    var s2 := AfterNewRequest(s1, Connect);
    assert s2.env.sends == [Sent];
    assert DoSend(s2, Hello()) == SendResult(Transmitted(s2, Hello()), true);
    assert SendConnect(s1) == InFlight(Transmitted(s2, Hello()), Hello());
  }

  lemma GoesUp()
    ensures Up(Run(Start(LINK), [Hearing(ACK)]))
  {
    hide Start, Hello;
    Started();
    var s := Start(LINK);
    HelloIs();
    var s0 := s.(env := Hearing(ACK).env, recvArmed := true);
    var s1 := Received(s0);
    ReadRound(s0);
    AckOpens(s1);
    var s2 := HandleMsg(s1, ResponseMsg(ACK));
    ReadRound(s2);
    assert Run(s, [Hearing(ACK)]) == Run(Take(s, Hearing(ACK)), [Hearing(ACK)][1..]) == Take(s, Hearing(ACK));
  }

  lemma HelloIs()
    ensures IsGoodConnect(Hello())
  {
  }

  lemma AckOpens(s: State)
    requires s.status == Running && s.connected && s.sock && s.recvArmed && !s.ready && s.synt == 0
    requires s.cache.inFlight == [Hello()] && s.cache.unsent == [] && s.seqnum == 1 && s.inbox == [] && !s.finalizing
    requires s.log == Then(Nothing, Transmit(Hello())) && s.env.recvs == []
    ensures var t := HandleMsg(s, ResponseMsg(ACK)); Up(t) && t.env.recvs == []
  {
    hide Hello, HandleResponse, SendPending, Accepted, Popping, Recycled, PeerOf, PeerOk, Verdicts;
    HelloIs();
    var s0 := Note(s, Receive(ResponseMsg(ACK)));
    OpeningResponse(s0, ACK);
    PoppingFields(s0, Settle(Hello(), Ok), Ok);
    var t := Opened(s0, ACK);
    AcceptedFields(Popping(s0, Settle(Hello(), Ok), Ok), 7);
    SendPendingRound(t);
    RecycledLists(t.cache, Hello());
    AckedLog(s.log);
  }

  lemma AcceptedFields(s: State, synt: nat)
    ensures var t := Accepted(s, synt);
            t == s.(synt := synt, ready := true, log := Then(s.log, Accept))
  {
  }

  lemma AckedLog(l: Log)
    requires l == Then(Nothing, Transmit(Hello()))
    ensures var t := Then(Then(Then(l, Receive(ResponseMsg(ACK))), Settle(Hello(), Ok)), Accept);
            PeerOk(t) && PeerOf(t) == Peer([], [], {7}) && Verdicts(t) == []
  {
    hide Hello;
    HelloIs();
    var p := PeerOf(l);
    var l0 := Then(l, Receive(ResponseMsg(ACK)));
    assert p == Peer([], [Hello()], {});
    assert Replies(p, ACK, Hello());
    assert PeerOf(l0) == Peer([], [], {7}) && PeerOk(l0);
    var l1 := Then(l0, Settle(Hello(), Ok));
    assert PeerOf(l1) == PeerOf(l0) && PeerOk(l1) && Verdicts(l1) == [];
  }

  /** The route is in flight, and the dataplane has not answered. */
  ghost predicate Asking(s: State) {
    && s.status == Running && s.recvArmed && s.ready && s.synt == 7
    && |s.cache.inFlight| == 1 && s.cache.unsent == []
    && (var m := s.cache.inFlight[0]; m.typ == Request && m.op == Add && m.seqn == 1 && m.ctx == Some(ROUTE))
    && PeerOk(s.log) && PeerOf(s.log).former == [] && PeerOf(s.log).current == s.cache.inFlight
    && Verdicts(s.log) == [] && Lost(s.log) == multiset{}
  }

  lemma Asks(s: State)
    requires Inv(s, NOTHING_HELD) && Up(s)
    ensures Asking(Take(Take(s, Step(Arrive(ROUTE), SEND)), Step(Process(1), SEND)))
  {
    hide Inv, Work, SendRequest, Asking, PeerOf, PeerOk, Verdicts, Lost;
    GoodSoFar(s);
    var s1 := s.(env := SEND, inbox := [ROUTE]);
    assert Take(s, Step(Arrive(ROUTE), SEND)) == s1;
    assert Take(s1, Step(Process(1), SEND)) == Work(s1, 1);
    var s2 := Note(s1.(inbox := []), Dequeue(ROUTE));
    Working(s1, s2);
    DequeuedOnly(s.log);
    AskedOnce(s2);
  }

  lemma DequeuedOnly(l: Log)
    ensures var t := Then(l, Dequeue(ROUTE));
            PeerOf(t) == PeerOf(l) && PeerOk(t) == PeerOk(l) && Verdicts(t) == Verdicts(l) && Lost(t) == Lost(l)
  {
  }

  lemma GoodSoFar(s: State)
    requires Inv(s, NOTHING_HELD) && PeerOk(s.log)
    ensures Lost(s.log) == multiset{}
  {
    NoDropsNoLoss(s.log);
  }

  lemma Working(s: State, s2: State)
    requires s.inbox == [ROUTE] && !s.finalizing && s2 == Note(s.(inbox := []), Dequeue(ROUTE))
    ensures Work(s, 1) == SendRequest(s2, Add, IpRoute([]), ROUTE)
  {
    hide SendRequest, Work;
    WorkRound(s, 1);
    assert s.inbox[1..] == [];
    assert ProcessUpdate(s2, ROUTE) == SendRequest(s2, Add, IpRoute([]), ROUTE);
    WorkRound(ProcessUpdate(s2, ROUTE), 0);
  }

  /** The request made for the context, and the state in which it is about to be sent. */
  function Question(s: State): Msg {
    NewRequest(s, Add, IpRoute([]), Some(ROUTE))
  }

  function Queued(s: State): State {
    SetUnsent(Queue(s.(cache := AfterNew(s.cache)), Question(s)), [])
  }

  lemma AskedState(s: State)
    requires s.ready && s.env == SEND && s.cache.unsent == []
    ensures SendRequest(s, Add, IpRoute([]), ROUTE) == InFlight(Transmitted(Queued(s), Question(s)), Question(s))
  {
    hide SendPending, SendRequest, InFlight, Transmitted, CountSent;
    var m := Question(s);
    var s1 := Queue(s.(cache := AfterNew(s.cache)), m);
    SendRequestQueues(s, Add, IpRoute([]), ROUTE);
    assert s1.cache.unsent == [m] && [m][1..] == [];
    SendPendingRound(s1);
    assert DoSend(Queued(s), m) == SendResult(Transmitted(Queued(s), m), true);
    LaunchedFields(Queued(s), m);
    SendPendingRound(InFlight(Transmitted(Queued(s), m), m));
  }

  lemma AskedLog(l: Log, m: Msg)
    requires PeerOk(l) && PeerOf(l) == Peer([], [], {7}) && Verdicts(l) == [] && Lost(l) == multiset{}
    requires m.typ == Request
    ensures var t := Then(Then(l, Submit(m)), Transmit(m));
            && PeerOk(t) && PeerOf(t).former == [] && PeerOf(t).current == [m]
            && Verdicts(t) == [] && Lost(t) == multiset{}
  {
    var l1 := Then(l, Submit(m));
    assert PeerOf(l1) == PeerOf(l) && PeerOk(l1) && Verdicts(l1) == [] && Lost(l1) == multiset{};
  }

  lemma AskedOnce(s: State)
    requires s.status == Running && s.recvArmed && s.ready && s.synt == 7 && s.seqnum == 1 && s.env == SEND
    requires s.cache.inFlight == [] && s.cache.unsent == []
    requires PeerOk(s.log) && PeerOf(s.log) == Peer([], [], {7}) && Verdicts(s.log) == [] && Lost(s.log) == multiset{}
    ensures Asking(SendRequest(s, Add, IpRoute([]), ROUTE))
  {
    hide SendRequest, PeerOf, PeerOk, Verdicts, Lost, CountSent;
    AskedState(s);
    AskedLog(s.log, Question(s));
  }

  const UNTIL_ASKED := [Hearing(ACK), Step(Arrive(ROUTE), SEND), Step(Process(1), SEND)]

  lemma {:induction false} RunMore(s: State, steps: seq<Step>, more: seq<Step>)
    ensures Run(s, steps + more) == Run(Run(s, steps), more)
    decreases |steps|
  {
    hide Take;
    if steps == [] {
      assert steps + more == more;
    } else {
      assert (steps + more)[1..] == steps[1..] + more;
      RunMore(Take(s, steps[0]), steps[1..], more);
    }
  }

  lemma RunTwo(s: State, a: Step, b: Step)
    ensures Run(s, [a, b]) == Take(Take(s, a), b)
  {
    hide Take;
    assert [a, b][1..] == [b];
    RunOne(Take(s, a), b);
  }

  lemma RunOne(s: State, a: Step)
    ensures Run(s, [a]) == Take(s, a)
  {
    hide Take;
    assert [a][1..] == [];
  }

  lemma ReachesAsking()
    ensures Asking(Reached(LINK, UNTIL_ASKED)) && Inv(Reached(LINK, UNTIL_ASKED), NOTHING_HELD)
  {
    hide Inv, Start, Take, Run;
    var s := Reached(LINK, [Hearing(ACK)]);
    GoesUp();
    var h := ReachedCore(LINK, [Hearing(ACK)]);
    Asks(s);
    assert UNTIL_ASKED == [Hearing(ACK)] + [Step(Arrive(ROUTE), SEND), Step(Process(1), SEND)];
    RunMore(Start(LINK), [Hearing(ACK)], [Step(Arrive(ROUTE), SEND), Step(Process(1), SEND)]);
    RunTwo(s, Step(Arrive(ROUTE), SEND), Step(Process(1), SEND));
    var h' := ReachedCore(LINK, UNTIL_ASKED);
  }

  lemma Heard(s: State, resp: Response)
    requires s.status == Running && s.recvArmed
    ensures var t := HandleMsg(Received(s.(env := Hearing(resp).env, recvArmed := true)), ResponseMsg(resp));
            t.status == Running ==> Take(s, Hearing(resp)).log == t.log
  {
    hide HandleMsg;
    var s0 := s.(env := Hearing(resp).env, recvArmed := true);
    ReadRound(s0);
    var t := HandleMsg(Received(s0), ResponseMsg(resp));
    if t.status == Running {
      ReadRound(t);
    }
  }

  /** A run in which the dataplane behaves, and the context goes back with the verdict it reported. */
  lemma GoodRun()
    ensures var s := Reached(LINK, UNTIL_ASKED + [Hearing(DONE)]);
            PeerOk(s.log) && Verdicts(s.log) == [(ROUTE, Success)]
  {
    hide Inv, Start, Take, Run, HandleMsg;
    ReachesAsking();
    var s := Reached(LINK, UNTIL_ASKED);
    RunMore(Start(LINK), UNTIL_ASKED, [Hearing(DONE)]);
    RunOne(s, Hearing(DONE));
    Heard(s, DONE);
    DoneServes(Received(s.(env := Hearing(DONE).env, recvArmed := true)));
  }

  lemma DoneServes(s: State)
    requires Asking(s)
    ensures var t := HandleMsg(s, ResponseMsg(DONE));
            t.status == Running && PeerOk(t.log) && Verdicts(t.log) == [(ROUTE, Success)]
  {
    var m := s.cache.inFlight[0];
    var l0 := Then(s.log, Receive(ResponseMsg(DONE)));
    assert Replies(PeerOf(s.log), DONE, PeerOf(s.log).current[0]);
    assert PeerOk(l0);
    var l1 := Then(l0, Settle(m, Ok));
    assert PeerOk(l1) && Verdicts(l1) == [];
  }

  /** A run in which the dataplane answers with a sequence number that is not the one awaited: the
      context is dropped, and zebra never hears of it. */
  lemma BadRun()
    ensures Lost(Reached(LINK, UNTIL_ASKED + [Hearing(WRONG)]).log) != multiset{}
  {
    hide Inv, Start, Take, Run, HandleMsg;
    ReachesAsking();
    var s := Reached(LINK, UNTIL_ASKED);
    RunMore(Start(LINK), UNTIL_ASKED, [Hearing(WRONG)]);
    RunOne(s, Hearing(WRONG));
    Heard(s, WRONG);
    var s1 := Received(s.(env := Hearing(WRONG).env, recvArmed := true));
    StatsKeep(s, s1.stats, s1.env, NOTHING_HELD);
    assert s1 == s.(stats := s1.stats, env := s1.env, recvArmed := true);
    LosesExactlyOnMismatch(s1, WRONG);
    WrongKeepsRunning(s1);
  }

  lemma WrongKeepsRunning(s: State)
    requires Asking(s)
    ensures HandleMsg(s, ResponseMsg(WRONG)).status == Running
  {
    assert !Expected(WRONG, s.cache.inFlight[0]);
  }
}
