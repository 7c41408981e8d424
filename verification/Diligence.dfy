/** What every operation answers for: each outcome of a system call is counted, a lost connection is
    retried, a connection is listened to, and no number is issued once shutdown began. */
module Diligence {
  import opened Messages
  import opened Process
  import opened Trace
  import opened MsgCache
  import opened RpcStats
  import opened Session

  // ---- Counting outcomes ----

  function HowMany<T>(q: seq<T>, p: T -> bool): nat {
    if q == [] then 0 else (if p(q[0]) then 1 else 0) + HowMany(q[1..], p)
  }

  lemma {:induction false} HowManyJoin<T>(a: seq<T>, b: seq<T>, p: T -> bool)
    ensures HowMany(a + b, p) == HowMany(a, p) + HowMany(b, p)
  {
    if a == [] {
      assert a + b == b;
    } else {
      assert (a + b)[1..] == a[1..] + b;
      HowManyJoin(a[1..], b, p);
    }
  }

  lemma HowManyNone<T>(p: T -> bool)
    ensures HowMany([], p) == 0
  {
  }

  lemma HowManyOne<T>(x: T, p: T -> bool)
    ensures HowMany([x], p) == if p(x) then 1 else 0
  {
    assert [x][1..] == [];
  }

  predicate TakenWhole(o: SendOutcome) { o == Sent }
  predicate Failed(o: SendOutcome) { o in {NoMemory, Interrupted, Disconnected, SendError} }
  predicate WouldBlock(o: SendOutcome) { o == NoRoom }
  predicate NotEncoded(o: SendOutcome) { o == EncodeFailed }
  predicate LacksRoom(o: SendOutcome) { o in {NoRoom, NoMemory} }

  /** Sends in store, the counters of sends, and how often a lack of room was noted. */
  datatype SendMeter = SendMeter(sends: seq<SendOutcome>, ok: nat, failed: nat, again: nat, notEncoded: nat, blocked: nat)

  function SendMeterOf(s: State): SendMeter {
    SendMeter(s.env.sends, s.stats.txOk, s.stats.txFailure, s.stats.txEagain, s.stats.encodeFailure, Blocks(s.log))
  }

  /** The outcomes used up between `a` and `b` were counted, each in its counter; and every lack of room was
      noted. Once the outcomes in store run out, sends find no room. */
  ghost predicate SendsCounted(a: SendMeter, b: SendMeter) {
    && |b.sends| <= |a.sends|
    && b.sends == a.sends[|a.sends| - |b.sends|..]
    && var done := a.sends[..|a.sends| - |b.sends|];
       && b.ok == a.ok + HowMany(done, TakenWhole)
       && b.failed == a.failed + HowMany(done, Failed)
       && b.notEncoded == a.notEncoded + HowMany(done, NotEncoded)
       && b.again >= a.again + HowMany(done, WouldBlock)
       && (b.sends != [] ==> b.again == a.again + HowMany(done, WouldBlock))
       && b.blocked - a.blocked - HowMany(done, LacksRoom) == b.again - a.again - HowMany(done, WouldBlock)
  }

  lemma NoSends(a: SendMeter)
    ensures SendsCounted(a, a)
  {
    hide HowMany;
    assert a.sends[..0] == [] && a.sends[0..] == a.sends;
    HowManyNone(TakenWhole);
    HowManyNone(Failed);
    HowManyNone(WouldBlock);
    HowManyNone(NotEncoded);
    HowManyNone(LacksRoom);
  }

  lemma SendsThen(a: SendMeter, b: SendMeter, c: SendMeter)
    requires SendsCounted(a, b) && SendsCounted(b, c)
    ensures SendsCounted(a, c)
  {
    var one := a.sends[..|a.sends| - |b.sends|];
    var two := b.sends[..|b.sends| - |c.sends|];
    assert a.sends[..|a.sends| - |c.sends|] == one + two;
    HowManyJoin(one, two, TakenWhole);
    HowManyJoin(one, two, Failed);
    HowManyJoin(one, two, NotEncoded);
    HowManyJoin(one, two, WouldBlock);
    HowManyJoin(one, two, LacksRoom);
  }

  /** One send, not past the outcomes in store. */
  lemma OneSend(a: SendMeter, b: SendMeter)
    requires a.sends != [] && b.sends == a.sends[1..]
    requires var o := a.sends[0];
             && b.ok == a.ok + (if TakenWhole(o) then 1 else 0)
             && b.failed == a.failed + (if Failed(o) then 1 else 0)
             && b.again == a.again + (if WouldBlock(o) then 1 else 0)
             && b.notEncoded == a.notEncoded + (if NotEncoded(o) then 1 else 0)
             && b.blocked == a.blocked + (if LacksRoom(o) then 1 else 0)
    ensures SendsCounted(a, b)
  {
    assert a.sends[..1] == [a.sends[0]];
    HowManyOne(a.sends[0], TakenWhole);
    HowManyOne(a.sends[0], Failed);
    HowManyOne(a.sends[0], NotEncoded);
    HowManyOne(a.sends[0], WouldBlock);
    HowManyOne(a.sends[0], LacksRoom);
  }

  lemma SendPastStore(a: SendMeter, b: SendMeter, c: SendMeter)
    requires SendsCounted(a, b) && b.sends == []
    requires c.sends == b.sends && c.ok == b.ok && c.failed == b.failed && c.notEncoded == b.notEncoded
    requires c.again == b.again + 1 && c.blocked == b.blocked + 1
    ensures SendsCounted(a, c)
  {
    hide HowMany;
  }

  predicate Arrived(o: ReadOutcome) { o.Got? || o.Undecodable? || o.EmptyRead? }
  predicate ReadFails(o: ReadOutcome) { o.ReadFailed? }
  predicate NothingThere(o: ReadOutcome) { o.ReadEagain? }
  predicate NotDecoded(o: ReadOutcome) { o.Undecodable? }
  predicate GotControl(o: ReadOutcome) { o.Got? && o.msg.ControlMsg? }

  /** The same of receives. */
  datatype ReadMeter = ReadMeter(
    recvs: seq<ReadOutcome>, ok: nat, failed: nat, again: nat, notDecoded: nat, controls: nat)

  function ReadMeterOf(s: State): ReadMeter {
    ReadMeter(s.env.recvs, s.stats.rxOk, s.stats.rxFailure, s.stats.rxEagain, s.stats.decodeFailure, s.stats.controlRx)
  }

  /** The same of receives; when the outcomes in store run out there is nothing to receive. */
  ghost predicate ReadsCounted(a: ReadMeter, b: ReadMeter) {
    && |b.recvs| <= |a.recvs|
    && b.recvs == a.recvs[|a.recvs| - |b.recvs|..]
    && var done := a.recvs[..|a.recvs| - |b.recvs|];
       && b.ok == a.ok + HowMany(done, Arrived)
       && b.failed == a.failed + HowMany(done, ReadFails)
       && b.notDecoded == a.notDecoded + HowMany(done, NotDecoded)
       && b.controls == a.controls + HowMany(done, GotControl)
       && b.again >= a.again + HowMany(done, NothingThere)
       && (b.recvs != [] ==> b.again == a.again + HowMany(done, NothingThere))
  }

  lemma NoReads(a: ReadMeter)
    ensures ReadsCounted(a, a)
  {
    hide HowMany;
    assert a.recvs[..0] == [] && a.recvs[0..] == a.recvs;
    HowManyNone(Arrived);
    HowManyNone(ReadFails);
    HowManyNone(NothingThere);
    HowManyNone(NotDecoded);
    HowManyNone(GotControl);
  }

  lemma ReadsThen(a: ReadMeter, b: ReadMeter, c: ReadMeter)
    requires ReadsCounted(a, b) && ReadsCounted(b, c)
    ensures ReadsCounted(a, c)
  {
    var one := a.recvs[..|a.recvs| - |b.recvs|];
    var two := b.recvs[..|b.recvs| - |c.recvs|];
    assert a.recvs[..|a.recvs| - |c.recvs|] == one + two;
    HowManyJoin(one, two, Arrived);
    HowManyJoin(one, two, ReadFails);
    HowManyJoin(one, two, NotDecoded);
    HowManyJoin(one, two, GotControl);
    HowManyJoin(one, two, NothingThere);
  }

  lemma OneRead(a: ReadMeter, b: ReadMeter)
    requires a.recvs != [] && b.recvs == a.recvs[1..]
    requires var o := a.recvs[0];
             && b.ok == a.ok + (if Arrived(o) then 1 else 0)
             && b.failed == a.failed + (if ReadFails(o) then 1 else 0)
             && b.again == a.again + (if NothingThere(o) then 1 else 0)
             && b.notDecoded == a.notDecoded + (if NotDecoded(o) then 1 else 0)
             && b.controls == a.controls + (if GotControl(o) then 1 else 0)
    ensures ReadsCounted(a, b)
  {
    assert a.recvs[..1] == [a.recvs[0]];
    HowManyOne(a.recvs[0], Arrived);
    HowManyOne(a.recvs[0], ReadFails);
    HowManyOne(a.recvs[0], NotDecoded);
    HowManyOne(a.recvs[0], GotControl);
    HowManyOne(a.recvs[0], NothingThere);
  }

  lemma ReadPastStore(a: ReadMeter, b: ReadMeter, c: ReadMeter)
    requires ReadsCounted(a, b) && b.recvs == []
    requires c.recvs == b.recvs && c.ok == b.ok && c.failed == b.failed && c.notDecoded == b.notDecoded
    requires c.controls == b.controls && c.again == b.again + 1
    ensures ReadsCounted(a, c)
  {
    hide HowMany;
  }

  // ---- What an operation answers for ----

  /** A socket that is not connected has its connect timer armed. */
  predicate Retries(s: State) {
    s.sock && !s.connected ==> s.timer
  }

  /** A connected socket has its read event armed. */
  predicate Listens(s: State) {
    s.connected ==> s.recvArmed
  }

  ghost predicate Vigilant(s: State, t: State) {
    && (Retries(s) ==> Retries(t))
    && (Listens(s) ==> Listens(t))
    && (s.finalizing ==> t.finalizing && t.seqnum == s.seqnum)
  }

  /** From `s` to `t`, with no receive but `controls` controls handled. */
  ghost predicate Worked(s: State, t: State, controls: nat) {
    && SendsCounted(SendMeterOf(s), SendMeterOf(t))
    && ReadMeterOf(t) == ReadMeterOf(s).(controls := s.stats.controlRx + controls)
    && Vigilant(s, t)
  }

  /** Nothing that an operation answers for is touched. */
  predicate Aside(s: State, t: State) {
    && SendMeterOf(t) == SendMeterOf(s) && ReadMeterOf(t) == ReadMeterOf(s)
    && t.sock == s.sock && t.connected == s.connected && t.timer == s.timer && t.recvArmed == s.recvArmed
    && t.finalizing == s.finalizing && t.seqnum == s.seqnum
  }

  lemma AsideWorks(s: State, t: State)
    requires Aside(s, t)
    ensures Worked(s, t, 0)
  {
    hide SendMeterOf, ReadMeterOf, SendsCounted;
    NoSends(SendMeterOf(s));
    assert ReadMeterOf(s).controls == s.stats.controlRx by { MeterControls(s); }
    assert ReadMeterOf(s).(controls := s.stats.controlRx + 0) == ReadMeterOf(s);
  }

  lemma MeterControls(s: State)
    ensures ReadMeterOf(s).controls == s.stats.controlRx
  {
  }

  lemma WorkedThen(s: State, t: State, u: State, c: nat, d: nat)
    requires Worked(s, t, c) && Worked(t, u, d)
    ensures Worked(s, u, c + d)
  {
    hide SendsCounted, Retries, Listens;
    SendsThen(SendMeterOf(s), SendMeterOf(t), SendMeterOf(u));
  }

  lemma NoteAside(s: State, e: Event)
    requires !e.Blocked?
    ensures Aside(s, Note(s, e))
  {
  }

  // ---- Sending ----

  lemma TransmittedWorks(s: State, m: Msg)
    requires NextSend(s.env) == Sent
    ensures Worked(s, Transmitted(s, m), 0)
  {
    hide SendsCounted;
    OneSend(SendMeterOf(s), SendMeterOf(Transmitted(s, m)));
  }

  /** A send that failed, as the meters show it. */
  predicate FailedSend(a: SendMeter, b: SendMeter, o: SendOutcome) {
    b == a.(sends := Rest(a.sends),
            failed := a.failed + (if Failed(o) then 1 else 0),
            again := a.again + (if WouldBlock(o) then 1 else 0),
            notEncoded := a.notEncoded + (if NotEncoded(o) then 1 else 0),
            blocked := a.blocked + (if LacksRoom(o) then 1 else 0))
  }

  lemma NotSentMeters(s: State, o: SendOutcome)
    requires o != Sent && o != Disconnected
    ensures var t := NotSent(s, o);
            && ReadMeterOf(t) == ReadMeterOf(s) && Retries(t) == Retries(s) && Listens(t) == Listens(s)
            && t.finalizing == s.finalizing && t.seqnum == s.seqnum
            && FailedSend(SendMeterOf(s), SendMeterOf(t), o)
  {
    match o
    case EncodeFailed =>
    case NoRoom => assert Blocks(NotSent(s, o).log) == Blocks(s.log) + 1;
    case NoMemory => assert Blocks(NotSent(s, o).log) == Blocks(s.log) + 1;
    case Interrupted | SendError =>
    case ShortWrite =>
  }

  lemma NotSentWorks(s: State, why: SendOutcome)
    requires why == NextSend(s.env) && why != Sent && why != Disconnected
    ensures Worked(s, NotSent(s, why), 0)
  {
    hide SendsCounted, ReadMeterOf, SendMeterOf, Retries, Listens, NotSent, FailedSend;
    NotSentMeters(s, why);
    MeterControls(s);
    MeterSends(s);
    if s.env.sends == [] {
      PastStore(SendMeterOf(s), SendMeterOf(NotSent(s, why)));
    } else {
      OneFailed(SendMeterOf(s), SendMeterOf(NotSent(s, why)), why);
    }
  }

  lemma MeterSends(s: State)
    ensures SendMeterOf(s).sends == s.env.sends
  {
  }

  lemma OneFailed(a: SendMeter, b: SendMeter, o: SendOutcome)
    requires a.sends != [] && a.sends[0] == o && o != Sent && FailedSend(a, b, o)
    ensures SendsCounted(a, b)
  {
    hide SendsCounted;
    OneSend(a, b);
  }

  lemma PastStore(a: SendMeter, b: SendMeter)
    requires a.sends == [] && FailedSend(a, b, NoRoom)
    ensures SendsCounted(a, b)
  {
    hide SendsCounted, HowMany;
    NoRoomFields(a, b);
    NoSends(a);
    SendPastStore(a, a, b);
  }

  lemma NoRoomFields(a: SendMeter, b: SendMeter)
    requires a.sends == [] && FailedSend(a, b, NoRoom)
    ensures b.sends == a.sends && b.ok == a.ok && b.failed == a.failed && b.notEncoded == a.notEncoded
    ensures b.again == a.again + 1 && b.blocked == a.blocked + 1
  {
  }

  lemma DisconnectCounts(s: State)
    requires NextSend(s.env) == Disconnected
    ensures var t := Disconnect(s);
            && SendsCounted(SendMeterOf(s), SendMeterOf(t)) && ReadMeterOf(t) == ReadMeterOf(s)
            && Listens(t) && t.finalizing == s.finalizing && t.seqnum == s.seqnum && (t.timer ==> Retries(t))
  {
    hide SendsCounted;
    OneSend(SendMeterOf(s), SendMeterOf(Disconnect(s)));
  }

  lemma DoSendWorks(s: State, m: Msg)
    ensures Worked(s, DoSend(s, m).state, 0)
    decreases |s.env.sends|, 0
  {
    hide SendsCounted, SendMeterOf, ReadMeterOf, Retries, Listens, NotSent, Disconnect, Transmitted, Aside;
    var o := NextSend(s.env);
    if !CanSend(s, m) {
      SelfAside(s);
      AsideWorks(s, s);
    } else if o == Sent {
      TransmittedWorks(s, m);
    } else if o != Disconnected {
      NotSentWorks(s, o);
    } else {
      var s1 := Disconnect(s);
      DisconnectCounts(s);
      MeterControls(s);
      MeterControls(s1);
      if !s1.timer {
        DpConnectWorks(s1);
        SendsThen(SendMeterOf(s), SendMeterOf(s1), SendMeterOf(DpConnect(s1)));
      }
    }
  }

  lemma SelfAside(s: State)
    ensures Aside(s, s)
  {
  }

  lemma RefusedWorks(s: State, why: JoinOutcome)
    requires why != Joined && s.sock
    ensures Worked(s, Refused(Asked(s), why), 0) && Retries(Refused(Asked(s), why))
  {
    hide SendsCounted;
    NoSends(SendMeterOf(s));
  }

  lemma JoinedWorks(s: State)
    requires s.sock
    ensures var t := Asked(s).(timer := false, connected := true);
            && SendMeterOf(t) == SendMeterOf(s) && ReadMeterOf(t) == ReadMeterOf(s)
            && Retries(t) && t.finalizing == s.finalizing && t.seqnum == s.seqnum
  {
  }

  lemma ListeningWorks(s: State)
    ensures var t := s.(recvArmed := true);
            && SendMeterOf(t) == SendMeterOf(s) && ReadMeterOf(t) == ReadMeterOf(s)
            && Listens(t) && Retries(t) == Retries(s) && t.finalizing == s.finalizing && t.seqnum == s.seqnum
  {
  }

  lemma DpConnectWorks(s: State)
    ensures Worked(s, DpConnect(s), 0) && Retries(DpConnect(s))
    decreases |s.env.sends|, 2
  {
    hide SendsCounted, SendMeterOf, ReadMeterOf, Retries, Listens, Aside, Refused;
    if !s.sock {
      SelfAside(s);
      AsideWorks(s, s);
      NoSocketRetries(s);
    } else if NextJoin(s.env) == Joined {
      var s1 := Asked(s).(timer := false, connected := true);
      JoinedWorks(s);
      SendConnectWorks(s1);
      ListeningWorks(SendConnect(s1));
      MeterControls(s);
      MeterControls(s1);
    } else {
      RefusedWorks(s, NextJoin(s.env));
    }
  }

  lemma NoSocketRetries(s: State)
    requires !s.sock
    ensures Retries(s)
  {
  }

  lemma NewConnectAside(s: State)
    ensures Aside(s, AfterNewRequest(s, Connect))
  {
    hide AfterNew;
  }

  lemma AfterConnectAside(r: SendResult, m: Msg)
    ensures Aside(r.state, AfterConnect(r, m))
  {
    hide Recycled;
  }

  lemma SendConnectWorks(s: State)
    ensures Worked(s, SendConnect(s), 0)
    decreases |s.env.sends|, 1
  {
    hide Worked, Aside, DoSend, AfterConnect;
    var m := NewRequest(s, Connect, ConnInfo(s.synt), None);
    var s1 := AfterNewRequest(s, Connect);
    var r := DoSend(s1, m);
    NewConnectAside(s);
    AsideWorks(s, s1);
    DoSendWorks(s1, m);
    AfterConnectAside(r, m);
    AsideWorks(r.state, AfterConnect(r, m));
    WorkedThen(s, s1, r.state, 0, 0);
    WorkedThen(s, r.state, AfterConnect(r, m), 0, 0);
  }

  lemma SetUnsentAside(s: State, q: seq<Msg>)
    ensures Aside(s, SetUnsent(s, q))
  {
  }

  lemma AfterSendAside(s: State, m: Msg)
    ensures Aside(s, AfterSend(s, m))
  {
    hide Aside, InFlight, SentAndDone;
    SentAndDoneAside(s, m);
    InFlightAside(s, m);
  }

  lemma SentAndDoneAside(s: State, m: Msg)
    ensures Aside(s, SentAndDone(s, m))
  {
    hide Recycled;
  }

  lemma InFlightAside(s: State, m: Msg)
    ensures Aside(s, InFlight(s, m))
  {
  }

  lemma {:induction false} SendPendingWorks(s: State)
    ensures Worked(s, SendPending(s), 0)
    decreases |s.cache.unsent|
  {
    hide Worked, Aside, DoSend, AfterSend, SendPending;
    SendPendingRound(s);
    if s.cache.unsent == [] {
      SelfAside(s);
      AsideWorks(s, s);
    } else {
      var m := s.cache.unsent[0];
      var s1 := SetUnsent(s, s.cache.unsent[1..]);
      var t := DoSend(s1, m).state;
      SetUnsentAside(s, s.cache.unsent[1..]);
      AsideWorks(s, s1);
      DoSendWorks(s1, m);
      WorkedThen(s, s1, t, 0, 0);
      if DoSend(s1, m).ok {
        AfterSendAside(t, m);
        AsideWorks(t, AfterSend(t, m));
        SendPendingWorks(AfterSend(t, m));
        WorkedThen(s, t, AfterSend(t, m), 0, 0);
        WorkedThen(s, AfterSend(t, m), SendPending(s), 0, 0);
      } else {
        SetUnsentAside(t, [m] + t.cache.unsent);
        AsideWorks(t, SendPending(s));
        WorkedThen(s, t, SendPending(s), 0, 0);
      }
    }
  }

  lemma EnqueueWorks(s: State, m: Msg)
    ensures Worked(s, Enqueue(s, m), 0)
  {
    hide Worked, SendPending;
    var s1 := Note(SetUnsent(s, s.cache.unsent + [m]), Submit(m));
    QueuedAside(s, m);
    AsideWorks(s, s1);
    SendPendingWorks(s1);
    WorkedThen(s, s1, SendPending(s1), 0, 0);
  }

  lemma QueuedAside(s: State, m: Msg)
    ensures Aside(s, Note(SetUnsent(s, s.cache.unsent + [m]), Submit(m)))
  {
  }

  lemma NewAside(s: State)
    ensures Aside(s, s.(cache := AfterNew(s.cache)))
  {
    hide AfterNew;
  }

  lemma SendControlWorks(s: State, refresh: bool)
    ensures Worked(s, SendControl(s, refresh), 0)
  {
    hide Worked, Enqueue, Aside;
    var s1 := s.(cache := AfterNew(s.cache));
    NewAside(s);
    AsideWorks(s, s1);
    EnqueueWorks(s1, NewMsg(s.cache).(typ := Control, refresh := refresh));
    WorkedThen(s, s1, SendControl(s, refresh), 0, 0);
  }

  lemma NewRequestWorks(s: State, op: RpcOp)
    requires !s.finalizing
    ensures Worked(s, AfterNewRequest(s, op), 0)
  {
    hide AfterNew, SendsCounted;
    NoSends(SendMeterOf(s));
  }

  lemma SendRequestWorks(s: State, op: RpcOp, obj: Object, c: Ctx)
    requires !s.finalizing
    ensures Worked(s, SendRequest(s, op, obj, c), 0)
  {
    hide Worked, Enqueue;
    var s1 := AfterNewRequest(s, op);
    NewRequestWorks(s, op);
    EnqueueWorks(s1, NewRequest(s, op, obj, Some(c)));
    WorkedThen(s, s1, SendRequest(s, op, obj, c), 0, 0);
  }

  // ---- Receiving ----

  lemma AcceptAside(s: State, synt: nat)
    ensures Aside(s, Note(s.(synt := synt, ready := true), Accept))
  {
  }

  lemma AckWorks(s: State, resp: Response, purged: bool)
    ensures Worked(s, AckConnect(s, resp, purged), 0)
  {
    hide Worked, SendPending;
    if resp.rescode != Ok {
      AsideWorks(s, s.(status := Aborted));
    } else {
      var synt := if resp.info.Some? then resp.info.value else s.synt;
      var s1 := Note(s.(synt := synt, ready := true), Accept);
      AcceptAside(s, synt);
      AsideWorks(s, s1);
      SendPendingWorks(s1);
      WorkedThen(s, s1, SendPending(s1), 0, 0);
    }
  }

  lemma RepliedAside(s: State, k: Kind, code: ResCode)
    ensures Aside(s, s.(stats := CountReplied(s.stats, k, code)))
  {
    hide CountReply;
  }

  lemma HandOffAside(s: State, m: Msg, v: Verdict)
    ensures Aside(s, HandOff(s, m, v))
  {
    hide Aside;
    SelfAside(s);
    if m.ctx.Some? {
      NoteAside(s, HandBack(m.ctx.value, v));
    }
  }

  lemma HandleSettledWorks(s: State, resp: Response, m: Msg, purged: bool)
    ensures Worked(s, HandleSettled(s, resp, m, purged), 0)
  {
    hide Worked, Aside, AckConnect, HandOff, CountReplied, VerdictOf;
    var s1 := s.(stats := CountReplied(s.stats, KindOf(m), resp.rescode));
    RepliedAside(s, KindOf(m), resp.rescode);
    AsideWorks(s, s1);
    HandOffAside(s1, m, VerdictOf(resp.rescode));
    AsideWorks(s1, HandOff(s1, m, VerdictOf(resp.rescode)));
    WorkedThen(s, s1, HandOff(s1, m, VerdictOf(resp.rescode)), 0, 0);
    AckWorks(s1, resp, purged);
    WorkedThen(s, s1, AckConnect(s1, resp, purged), 0, 0);
  }

  lemma RecycleAside(s: State, m: Msg)
    ensures Aside(s, s.(cache := Recycled(s.cache, m)))
  {
    hide Recycled;
  }

  lemma SettleWorks(s: State, resp: Response, m: Msg, purged: bool)
    ensures Worked(s, SettleMsg(s, resp, m, purged), 0)
  {
    hide Worked, Aside, HandleSettled, Handled, Recycled;
    var t := HandleSettled(s, resp, m, purged);
    HandleSettledWorks(s, resp, m, purged);
    RecycleAside(t, Handled(resp, m));
    AsideWorks(t, t.(cache := Recycled(t.cache, Handled(resp, m))));
    WorkedThen(s, t, t.(cache := Recycled(t.cache, Handled(resp, m))), 0, 0);
  }

  lemma PopAside(s: State, e: Event)
    requires s.cache.inFlight != [] && !e.Blocked?
    ensures Aside(s, PopHead(s, e))
  {
  }

  lemma PurgeOneWorks(s: State, resp: Response)
    requires s.cache.inFlight != []
    ensures Worked(s, PurgeOne(s, resp), 0)
  {
    hide Worked, Aside, SettleMsg, PopHead, PurgeAnswer;
    var m := s.cache.inFlight[0];
    var t := PopHead(s, PurgeEvent(resp, m));
    PopAside(s, PurgeEvent(resp, m));
    AsideWorks(s, t);
    SettleWorks(t, PurgeAnswer(resp, m), m, true);
    WorkedThen(s, t, PurgeOne(s, resp), 0, 0);
  }

  lemma {:induction false} PurgeWorks(s: State, resp: Response)
    ensures Worked(s, PurgeInFlight(s, resp), 0)
    decreases |s.cache.inFlight|
  {
    hide Worked, Aside, PurgeOne;
    if s.status == Aborted || s.cache.inFlight == [] {
      SelfAside(s);
      AsideWorks(s, s);
    } else {
      PurgeOneWorks(s, resp);
      PurgeWorks(PurgeOne(s, resp), resp);
      WorkedThen(s, PurgeOne(s, resp), PurgeInFlight(s, resp), 0, 0);
    }
  }

  lemma DroppingAside(s: State)
    requires s.cache.inFlight != []
    ensures Aside(s, Dropping(s))
  {
    hide Recycled;
  }

  lemma RecoveringAside(s: State, resp: Response)
    ensures Aside(s, Recovering(s, resp))
  {
    hide Aside, Dropping, PopHead;
    if s.cache.inFlight == [] {
      NoteAside(s, Orphan);
    } else {
      PopAside(s, Settle(s.cache.inFlight[0], resp.rescode));
      DroppingAside(s);
    }
  }

  lemma ResponseWorks(s: State, resp: Response)
    ensures Worked(s, HandleResponse(s, resp), 0)
  {
    hide Worked, Aside, PurgeInFlight, Recovering, SettleMsg;
    PurgeWorks(s, resp);
    var t := Recovering(s, resp);
    RecoveringAside(s, resp);
    AsideWorks(s, t);
    match ExpectedHead(s, resp)
    case None =>
    case Some(m) =>
      SettleWorks(t, resp, m, false);
      WorkedThen(s, t, SettleMsg(t, resp, m, false), 0, 0);
  }

  lemma ControlCounted(s: State)
    ensures Worked(s, WithStats(s, s.stats.(controlRx := s.stats.controlRx + 1)), 1)
  {
    hide SendsCounted;
    NoSends(SendMeterOf(s));
  }

  lemma ControlWorks(s: State, refresh: bool)
    ensures Worked(s, HandleControl(s, refresh), 1)
  {
    hide Worked, Aside, SendControl;
    var s0 := Note(s, Refresh);
    NoteAside(s, Refresh);
    AsideWorks(s, s0);
    SendControlWorks(s0, true);
    WorkedThen(s, s0, SendControl(s0, true), 0, 0);
    SelfAside(s);
    AsideWorks(s, s);
    var s1 := Refreshed(s, refresh);
    ControlCounted(s1);
    WorkedThen(s, s1, HandleControl(s, refresh), 0, 1);
  }

  lemma MessageWorks(s: State, msg: RpcMsg)
    ensures Worked(s, HandleMsg(s, msg), if msg.ControlMsg? then 1 else 0)
  {
    hide Worked, Aside, HandleResponse, HandleControl;
    var s1 := Note(s, Receive(msg));
    NoteAside(s, Receive(msg));
    AsideWorks(s, s1);
    match msg
    case ResponseMsg(resp) =>
      ResponseWorks(s1, resp);
      WorkedThen(s, s1, HandleResponse(s1, resp), 0, 0);
    case ControlMsg(refresh) =>
      ControlWorks(s1, refresh);
      WorkedThen(s, s1, HandleControl(s1, refresh), 0, 1);
    case _ =>
  }

  /** From `s` to `t`, receives included. */
  ghost predicate Diligent(s: State, t: State) {
    && SendsCounted(SendMeterOf(s), SendMeterOf(t))
    && ReadsCounted(ReadMeterOf(s), ReadMeterOf(t))
    && Vigilant(s, t)
  }

  lemma WorkedIsDiligent(s: State, t: State)
    requires Worked(s, t, 0)
    ensures Diligent(s, t)
  {
    hide SendsCounted, ReadsCounted, Vigilant, SendMeterOf;
    NoReads(ReadMeterOf(s));
  }

  lemma DiligentThen(s: State, t: State, u: State)
    requires Diligent(s, t) && Diligent(t, u)
    ensures Diligent(s, u)
  {
    hide SendsCounted, ReadsCounted, SendMeterOf, ReadMeterOf, Retries, Listens;
    SendsThen(SendMeterOf(s), SendMeterOf(t), SendMeterOf(u));
    ReadsThen(ReadMeterOf(s), ReadMeterOf(t), ReadMeterOf(u));
  }

  /** A receive, as the meters show it; what came is yet to be decoded. */
  predicate OneReceived(a: ReadMeter, b: ReadMeter, o: ReadOutcome) {
    && b.recvs == Rest(a.recvs)
    && b.ok == a.ok + (if Arrived(o) then 1 else 0)
    && b.failed == a.failed + (if ReadFails(o) then 1 else 0)
    && b.again == a.again + (if NothingThere(o) then 1 else 0)
    && b.notDecoded == a.notDecoded && b.controls == a.controls
  }

  lemma ReceivedMeters(s: State)
    ensures var t := Received(s);
            && OneReceived(ReadMeterOf(s), ReadMeterOf(t), NextRead(s.env))
            && SendMeterOf(t) == SendMeterOf(s)
            && Retries(t) == Retries(s) && Listens(t) == Listens(s)
            && t.finalizing == s.finalizing && t.seqnum == s.seqnum
  {
  }

  /** A message received and handled. */
  lemma GotDiligent(s: State, msg: RpcMsg, u: State)
    requires s.env.recvs != [] && s.env.recvs[0] == Got(msg)
    requires Worked(Received(s), u, if msg.ControlMsg? then 1 else 0)
    ensures Diligent(s, u)
  {
    hide SendsCounted, ReadsCounted, Retries, Listens, Received, SendMeterOf;
    ReceivedMeters(s);
    OneRead(ReadMeterOf(s), ReadMeterOf(u));
  }

  lemma MeterReads(s: State)
    ensures ReadMeterOf(s).recvs == s.env.recvs
  {
  }

  lemma LastReceived(a: ReadMeter, b: ReadMeter, o: ReadOutcome)
    requires OneReceived(a, b, o) && !o.Got? && !o.Undecodable?
    requires o == if a.recvs == [] then ReadEagain else a.recvs[0]
    ensures ReadsCounted(a, b)
  {
    hide ReadsCounted;
    if a.recvs == [] {
      NoReads(a);
      ReadPastStore(a, a, b);
    } else {
      OneRead(a, b);
    }
  }

  /** A receive that ends the loop. */
  lemma EndDiligent(s: State)
    requires !NextRead(s.env).Got? && !NextRead(s.env).Undecodable?
    ensures Diligent(s, Received(s))
  {
    hide SendsCounted, ReadsCounted, Retries, Listens, Received, SendMeterOf, ReadMeterOf, OneReceived;
    ReceivedMeters(s);
    MeterReads(s);
    NoSends(SendMeterOf(s));
    LastReceived(ReadMeterOf(s), ReadMeterOf(Received(s)), NextRead(s.env));
  }

  function CountUndecoded(s: State): State {
    WithStats(s, s.stats.(decodeFailure := s.stats.decodeFailure + 1))
  }

  lemma UndecodedMeters(s: State)
    ensures var t := CountUndecoded(s);
            var a, b := ReadMeterOf(s), ReadMeterOf(t);
            && SendMeterOf(t) == SendMeterOf(s) && Retries(t) == Retries(s) && Listens(t) == Listens(s)
            && t.finalizing == s.finalizing && t.seqnum == s.seqnum
            && b.recvs == a.recvs && b.ok == a.ok && b.failed == a.failed && b.again == a.again
            && b.notDecoded == a.notDecoded + 1 && b.controls == a.controls
  {
  }

  /** A message that cannot be decoded ends it too. */
  lemma UndecodedDiligent(s: State)
    requires NextRead(s.env).Undecodable?
    ensures Diligent(s, CountUndecoded(Received(s)))
  {
    hide SendsCounted, ReadsCounted, Retries, Listens, Received, SendMeterOf, ReadMeterOf, CountUndecoded;
    var t := Received(s);
    ReceivedMeters(s);
    MeterReads(s);
    UndecodedMeters(t);
    NoSends(SendMeterOf(s));
    OneRead(ReadMeterOf(s), ReadMeterOf(CountUndecoded(t)));
  }

  lemma {:induction false} ReadAllDiligent(s: State)
    ensures Diligent(s, ReadAll(s))
    decreases |s.env.recvs|
  {
    hide Worked, Diligent, Aside, HandleMsg, Received, ReadAll;
    if s.status == Aborted {
      AbortedReads(s);
      SelfAside(s);
      AsideWorks(s, s);
      WorkedIsDiligent(s, s);
    } else {
      ReadRound(s);
      var o := NextRead(s.env);
      if o.Got? {
        var t := HandleMsg(Received(s), o.msg);
        MessageWorks(Received(s), o.msg);
        GotDiligent(s, o.msg, t);
        ReadAllDiligent(t);
        DiligentThen(s, t, ReadAll(t));
      } else if o.Undecodable? {
        UndecodedDiligent(s);
      } else {
        EndDiligent(s);
      }
    }
  }

  // ---- Contexts ----

  lemma UpdateWorks(s: State, c: Ctx)
    requires !s.finalizing
    ensures Worked(s, ProcessUpdate(s, c), 0)
  {
    hide Worked, Aside, SendRequest, PlanFor;
    var plan := PlanFor(c);
    var s1 := if plan.skipKernel then Note(s, SkipKernel(c)) else s;
    SelfAside(s);
    NoteAside(s, SkipKernel(c));
    AsideWorks(s, s1);
    match plan.action
    case Answer(r) =>
      NoteAside(s1, HandBack(c, HhRetToZebra(r)));
      AsideWorks(s1, Note(s1, HandBack(c, HhRetToZebra(r))));
      WorkedThen(s, s1, Note(s1, HandBack(c, HhRetToZebra(r))), 0, 0);
    case Send(op, obj) =>
      SendRequestWorks(s1, op, obj, c);
      WorkedThen(s, s1, SendRequest(s1, op, obj, c), 0, 0);
  }

  lemma TakenAside(s: State, c: Ctx)
    ensures Aside(s, Note(s.(inbox := Rest(s.inbox)), Dequeue(c)))
  {
  }

  lemma {:induction false} WorkWorks(s: State, limit: nat)
    ensures Worked(s, Work(s, limit), 0)
    decreases limit
  {
    hide Worked, Aside, ProcessUpdate, Work;
    WorkRound(s, limit);
    if limit == 0 || s.inbox == [] {
      SelfAside(s);
      AsideWorks(s, s);
    } else {
      var c := s.inbox[0];
      var s1 := Note(s.(inbox := s.inbox[1..]), Dequeue(c));
      TakenAside(s, c);
      AsideWorks(s, s1);
      var s2 := if s.finalizing then Note(s1, HandBack(c, Failure)) else ProcessUpdate(s1, c);
      if s.finalizing {
        NoteAside(s1, HandBack(c, Failure));
        AsideWorks(s1, s2);
      } else {
        UpdateWorks(s1, c);
      }
      WorkedThen(s, s1, s2, 0, 0);
      WorkWorks(s2, limit - 1);
      WorkedThen(s, s2, Work(s2, limit - 1), 0, 0);
    }
  }

  // ---- Callbacks ----

  lemma FiredAside(s: State)
    ensures Aside(s, Note(s.(sendArmed := false), WriteFired))
  {
  }

  lemma AskedAgainAside(s: State)
    ensures Aside(s, Note(WakeOnWrite(s), LeftOver))
  {
  }

  lemma WritableWorks(s: State)
    ensures Worked(s, OnWritable(s), 0)
  {
    hide Worked, Aside, SendPending;
    var s1 := Note(s.(sendArmed := false), WriteFired);
    var s2 := SendPending(s1);
    FiredAside(s);
    AsideWorks(s, s1);
    SendPendingWorks(s1);
    WorkedThen(s, s1, s2, 0, 0);
    AskedAgainAside(s2);
    AsideWorks(s2, Note(WakeOnWrite(s2), LeftOver));
    WorkedThen(s, s2, Note(WakeOnWrite(s2), LeftOver), 0, 0);
  }

  lemma TimerWorks(s: State)
    ensures Worked(s, OnConnectTimer(s), 0)
  {
    hide SendsCounted, DpConnect, Retries;
    DpConnectWorks(s.(timer := false));
  }

  lemma {:induction false} FreeAllBlocks(l: Log, q: seq<Msg>)
    ensures Blocks(FreeAll(l, q)) == Blocks(l)
    decreases |q|
  {
    if q != [] {
      FreeAllBlocks(Then(l, Free(q[0])), q[1..]);
    }
  }

  lemma ClosingWorks(s: State)
    ensures Worked(s, CloseSock(s), 0)
  {
    hide SendsCounted;
    NoSends(SendMeterOf(s));
  }

  lemma FinalizeWorks(s: State)
    ensures Worked(s, Finalize(s), 0)
  {
    hide Worked, FreeAll, CloseSock, Blocks;
    var s1 := CloseSock(s);
    ClosingWorks(s);
    FreeAllBlocks(s1.log, s1.cache.pool);
    FreeAllBlocks(FreeAll(s1.log, s1.cache.pool), s1.cache.unsent);
    FreeAllBlocks(FreeAll(FreeAll(s1.log, s1.cache.pool), s1.cache.unsent), s1.cache.inFlight);
    AsideWorks(s1, Finalize(s));
    WorkedThen(s, s1, Finalize(s), 0, 0);
  }

  lemma EarlyWorks(s: State)
    ensures Worked(s, Note(s.(finalizing := true), Finalizing), 0)
  {
    hide SendsCounted;
    NoSends(SendMeterOf(s));
  }

  lemma ReadableDiligent(s: State)
    ensures Diligent(s, OnReadable(s))
  {
    hide Diligent, ReadAll;
    var s1 := s.(recvArmed := true);
    ArmedDiligent(s);
    ReadAllDiligent(s1);
    DiligentThen(s, s1, ReadAll(s1));
  }

  lemma ArmedDiligent(s: State)
    ensures Diligent(s, s.(recvArmed := true))
  {
    hide SendsCounted, ReadsCounted;
    NoSends(SendMeterOf(s));
    NoReads(ReadMeterOf(s));
  }

  /** Every callback answers for the outcomes it is given. */
  lemma TakeDiligent(s: State, step: Step)
    requires s.status == Running
    ensures Diligent(s.(env := step.env), Take(s, step))
  {
    hide Worked, Diligent, Work, OnWritable, OnReadable, OnConnectTimer, SendControl, Finalize, Note;
    var s0 := s.(env := step.env);
    AsideWorks(s0, s0);
    WorkedIsDiligent(s0, s0);
    match step.callback {
      case Arrive(c) =>
        AsideWorks(s0, s0.(inbox := s0.inbox + [c]));
        WorkedIsDiligent(s0, Take(s, step));
      case Process(limit) =>
        WorkWorks(s0, limit);
        WorkedIsDiligent(s0, Work(s0, limit));
      case Writable =>
        WritableWorks(s0);
        WorkedIsDiligent(s0, OnWritable(s0));
      case Readable =>
        ReadableDiligent(s0);
      case ConnectTimer =>
        TimerWorks(s0);
        WorkedIsDiligent(s0, OnConnectTimer(s0));
      case Keepalive =>
        SendControlWorks(s0, false);
        WorkedIsDiligent(s0, SendControl(s0, false));
      case FiniEarly =>
        EarlyWorks(s0);
        WorkedIsDiligent(s0, Take(s, step));
      case Fini =>
        FinalizeWorks(s0);
        WorkedIsDiligent(s0, Finalize(s0));
    }
  }

  lemma StartRetries(env: Env)
    ensures Retries(Start(env)) && Listens(Start(env))
  {
    hide Prepopulated, DpConnect, SendControl, SendsCounted;
    DpConnectWorks(Initial(env));
    SendControlWorks(DpConnect(Initial(env)), false);
  }

  /** Whatever happens, a socket that is not connected is retried and a connected one is listened to. */
  lemma {:induction false} RunVigilant(s: State, steps: seq<Step>)
    requires Retries(s) && Listens(s)
    ensures Retries(Run(s, steps)) && Listens(Run(s, steps))
    ensures s.finalizing ==> Run(s, steps).finalizing && Run(s, steps).seqnum == s.seqnum
    decreases |steps|
  {
    hide Take, SendsCounted, ReadsCounted;
    if steps != [] {
      if s.status == Running {
        TakeDiligent(s, steps[0]);
      } else {
        StoppedStays(s, steps[0]);
      }
      RunVigilant(Take(s, steps[0]), steps[1..]);
    }
  }

  lemma StoppedStays(s: State, step: Step)
    requires s.status != Running
    ensures Take(s, step) == s
  {
  }
}
