/** What sending and connecting do, outcome by outcome of the calls they make. */
module Effects {
  import opened Bags
  import opened Messages
  import opened Process
  import opened Trace
  import opened MsgCache
  import opened RpcStats
  import opened Session
  import opened Invariants
  import opened Sending
  import opened Receiving
  import opened Steps
  import opened Operations

  // ---- One send ----

  /** Reconnecting neither makes the dataplane ready nor takes back a request for a write event. */
  ghost predicate StaysDown(s: State, t: State) {
    (!s.ready ==> !t.ready) && (s.sendArmed ==> t.sendArmed)
  }

  lemma NotSentFlags(s: State, why: SendOutcome)
    requires why != Sent && why != Disconnected
    ensures var t := NotSent(s, why);
            && t.ready == s.ready && t.sendArmed == (s.sendArmed || why in {NoRoom, NoMemory})
            && t.sock == s.sock && t.connected == s.connected && t.timer == s.timer && t.cache == s.cache
            && t.env.sends == Rest(s.env.sends)
  {
    hide FailureStats;
  }

  lemma LostFlags(s: State)
    ensures var t := Disconnect(s); !t.ready && t.sendArmed == s.sendArmed
  {
    hide FailureStats;
  }

  lemma SentFlags(s: State, m: Msg)
    ensures var t := Transmitted(s, m);
            && t.ready == s.ready && t.sendArmed == s.sendArmed
            && t.sock == s.sock && t.connected == s.connected && t.timer == s.timer && t.cache == s.cache
            && t.env.sends == Rest(s.env.sends)
  {
  }

  lemma DoSendStaysDown(s: State, m: Msg)
    ensures StaysDown(s, DoSend(s, m).state)
    decreases |s.env.sends|, 0
  {
    hide NotSent, Disconnect, Transmitted;
    var o := NextSend(s.env);
    SentFlags(s, m);
    LostFlags(s);
    if CanSend(s, m) && o == Disconnected {
      DpConnectStaysDown(Disconnect(s));
    } else if CanSend(s, m) && o != Sent {
      NotSentFlags(s, o);
    }
  }

  lemma DpConnectStaysDown(s: State)
    ensures StaysDown(s, DpConnect(s))
    decreases |s.env.sends|, 2
  {
    if s.sock && NextJoin(s.env) == Joined {
      SendConnectStaysDown(Asked(s).(timer := false, connected := true));
    }
  }

  lemma SendConnectStaysDown(s: State)
    ensures StaysDown(s, SendConnect(s))
    decreases |s.env.sends|, 1
  {
    hide Recycled, CountSent, DoSend;
    DoSendStaysDown(AfterNewRequest(s, Connect), NewRequest(s, Connect, ConnInfo(s.synt), None));
  }

  /** A send succeeds if and only if the socket takes the whole message. A dataplane that is ready remains
      so but for a connection error. A write event is asked for exactly if there was no room. */
  lemma SendOutcomes(s: State, m: Msg)
    requires CanSend(s, m)
    ensures var o := NextSend(s.env);
            var r := DoSend(s, m);
            && r.ok == (o == Sent)
            && r.state.ready == (s.ready && o != Disconnected)
            && (s.sendArmed || o in {NoRoom, NoMemory} ==> r.state.sendArmed)
            && (o != Disconnected ==>
                  && r.state.sendArmed == (s.sendArmed || o in {NoRoom, NoMemory})
                  && r.state.sock == s.sock && r.state.connected == s.connected && r.state.timer == s.timer
                  && r.state.cache == s.cache && r.state.env.sends == Rest(s.env.sends))
  {
    hide DpConnect, NotSent, Disconnect, Transmitted;
    var o := NextSend(s.env);
    SentFlags(s, m);
    LostFlags(s);
    if o == Disconnected {
      DpConnectStaysDown(Disconnect(s));
    } else if o != Sent {
      NotSentFlags(s, o);
    }
  }

  // ---- Draining ----

  /** What stops a drain of `count` messages, the outcomes `sends` being in store. */
  function Stop(sends: seq<SendOutcome>, count: nat): SendOutcome {
    if LeadingSent(sends) >= count then Sent
    else if LeadingSent(sends) < |sends| then sends[LeadingSent(sends)]
    else NoRoom
  }

  lemma {:induction false} LeadingSentBound(sends: seq<SendOutcome>)
    ensures LeadingSent(sends) <= |sends|
  {
    if sends != [] && sends[0] == Sent {
      LeadingSentBound(sends[1..]);
    }
  }

  lemma StopLater(sends: seq<SendOutcome>, count: nat)
    requires sends != [] && sends[0] == Sent && count > 0
    ensures Stop(sends, count) == Stop(sends[1..], count - 1)
  {
    LeadingSentBound(sends[1..]);
  }

  /** The flags that a drain leaves, when `why` stopped it. */
  predicate Stopped(armed: bool, why: SendOutcome, t: State) {
    && t.ready == (why != Disconnected)
    && (armed || why in {NoRoom, NoMemory} ==> t.sendArmed)
    && (why != Disconnected ==> t.sendArmed == (armed || why in {NoRoom, NoMemory}))
  }

  /** A drain ends with the write event armed if the socket had no room for a message, and with the
      dataplane ready unless the link was lost. */
  lemma {:induction false} DrainStops(s: State, h: Hold)
    requires Inv(s, h) && h.front == [] && s.ready
    ensures Stopped(s.sendArmed, Stop(s.env.sends, |s.cache.unsent|), SendPending(s))
    decreases |s.cache.unsent|
  {
    hide Inv, DoSend, SendPending, AfterSend, Transmitted, Requests, SentQueued;
    SendPendingRound(s);
    var q := s.cache.unsent;
    if q != [] {
      var m := q[0];
      var s1 := SetUnsent(s, q[1..]);
      var h1 := h.(front := [m], ids := h.ids + multiset{m.id});
      UnqueueKeeps(s, h);
      SendOutcomes(s1, m);
      if DoSend(s1, m).ok {
        DoSendKeeps(s1, m, h1);
        SentOneKeeps(s1, m, h1);
        AddAndTake(h.ids, multiset{m.id});
        SentFlags(s1, m);
        StopLater(s.env.sends, |q|);
        DrainStops(AfterSend(Transmitted(s1, m), m), h);
      }
    }
  }

  /** `t` is what putting `unsent` through the socket leaves, when `inFlight` and `sent` were in flight and
      transmitted before: as many messages go as the socket takes in a row, and what stopped it shows
      in the flags. If the dataplane was not ready nothing goes. */
  ghost predicate Flushed(ready: bool, armed: bool, sends: seq<SendOutcome>,
                          unsent: seq<Msg>, inFlight: seq<Msg>, sent: seq<Msg>, t: State)
  {
    if ready then
      && Drained(unsent, inFlight, sent, t, Min(LeadingSent(sends), |unsent|))
      && Stopped(armed, Stop(sends, |unsent|), t)
    else
      && t.cache.unsent == unsent && t.cache.inFlight == inFlight && SentQueued(t.log) == sent
      && !t.ready && t.sendArmed == armed
  }

  lemma SendPendingFlushes(s: State, h: Hold)
    requires Inv(s, h) && h.front == []
    ensures Flushed(s.ready, s.sendArmed, s.env.sends, s.cache.unsent, s.cache.inFlight, SentQueued(s.log),
                    SendPending(s))
  {
    hide Inv, SendPending, Drained, Stopped;
    if s.ready {
      DrainsPrefix(s, h);
      DrainStops(s, h);
    } else {
      UnsentAreQueueable(s, h);
      NotReadyNoChange(s);
    }
  }

  lemma UnsentAreQueueable(s: State, h: Hold)
    requires Inv(s, h)
    ensures AllQueueable(s.cache.unsent)
  {
  }

  // ---- Connecting ----

  lemma RefusedEffects(s: State, why: JoinOutcome)
    requires s.sock && why != Joined
    ensures var t := Refused(Asked(s), why);
            && t.timer
            && t.sock == (why != RefusedNoSocket)
            && (if why == BadPath then t.connected == s.connected && t.ready == s.ready else !t.connected && !t.ready)
            && t.cache == s.cache && t.recvArmed == s.recvArmed && t.sendArmed == s.sendArmed
            && t.env.sends == s.env.sends
            && (t.log == s.log || t.log == Then(s.log, LinkDown))
  {
  }

  lemma LinkDownSends(l: Log)
    ensures SentRequests(Then(l, LinkDown)) == SentRequests(l)
  {
  }

  /** A refused connect arms the timer; a socket remains unless a new one could not be had, and it is
      neither connected nor is the dataplane ready unless the path was bad. Nothing is sent. */
  lemma ConnectRefused(s: State)
    requires s.sock && NextJoin(s.env) != Joined
    ensures var o := NextJoin(s.env);
            var t := DpConnect(s);
            && t.timer
            && t.sock == (o != RefusedNoSocket)
            && (if o == BadPath then t.connected == s.connected && t.ready == s.ready else !t.connected && !t.ready)
            && t.cache == s.cache && t.recvArmed == s.recvArmed && t.sendArmed == s.sendArmed
            && t.env.sends == s.env.sends && SentRequests(t.log) == SentRequests(s.log)
  {
    hide SendConnect, Refused, SentRequests;
    RefusedEffects(s, NextJoin(s.env));
    LinkDownSends(s.log);
  }

  lemma NoSocketNoConnect(s: State)
    requires !s.sock
    ensures DpConnect(s) == s
  {
  }

  /** The Connect that a new connection starts with. */
  function Greeting(s: State): Msg {
    NewRequest(s, Connect, ConnInfo(s.synt), None)
  }

  lemma GreetingIs(s: State)
    ensures IsGoodConnect(Greeting(s)) && Greeting(s).obj == ConnInfo(s.synt)
  {
  }

  lemma GreetingSent(s: State)
    requires NextSend(s.env) != Disconnected
    ensures var o := NextSend(s.env);
            var m := Greeting(s);
            var t := SendConnect(s);
            && t.sock == s.sock && t.connected == s.connected && t.timer == s.timer && t.ready == s.ready
            && t.sendArmed == (s.sendArmed || o in {NoRoom, NoMemory})
            && t.cache.inFlight == s.cache.inFlight + (if o == Sent then [m] else [])
            && SentRequests(t.log) == SentRequests(s.log) + (if o == Sent then [m] else [])
  {
    hide DoSend, CountSent, AfterNew, FailureStats;
    var m := Greeting(s);
    var s1 := AfterNewRequest(s, Connect);
    GreetingIs(s);
    SendOutcomes(s1, m);
    GreetingLog(s1, m);
    NewLists(s.cache);
    RecycledLists(s1.cache, m);
  }

  lemma NewLists(c: Cache)
    ensures AfterNew(c).unsent == c.unsent && AfterNew(c).inFlight == c.inFlight
  {
  }

  lemma GreetingLog(s: State, m: Msg)
    requires IsConnect(m) && NextSend(s.env) != Disconnected
    ensures var t := DoSend(s, m).state;
            SentRequests(t.log) == SentRequests(s.log) + if NextSend(s.env) == Sent then [m] else []
  {
    hide FailureStats;
  }

  /** A successful connect sends a Connect with the token known, and listens. Unless that meets a
      connection error, the plugin is then connected, with no timer armed; and if the Connect was taken,
      it is in flight. */
  lemma ConnectJoined(s: State)
    requires s.sock && NextJoin(s.env) == Joined
    ensures var o := NextSend(s.env);
            var t := DpConnect(s);
            && t.recvArmed
            && (o != Disconnected ==>
                  && t.sock && t.connected && !t.timer && t.ready == s.ready
                  && t.sendArmed == (s.sendArmed || o in {NoRoom, NoMemory})
                  && var m := Greeting(s);
                     && IsGoodConnect(m) && m.obj == ConnInfo(s.synt)
                     && t.cache.inFlight == s.cache.inFlight + (if o == Sent then [m] else [])
                     && SentRequests(t.log) == SentRequests(s.log) + (if o == Sent then [m] else []))
  {
    hide SendConnect;
    var s1 := Asked(s).(timer := false, connected := true);
    GreetingIs(s);
    assert Greeting(s1) == Greeting(s);
    if NextSend(s.env) != Disconnected {
      GreetingSent(s1);
    }
  }

  /** When the first connect is refused, the plugin starts with the timer armed. */
  lemma StartRefused(env: Env)
    requires NextJoin(env) != Joined
    ensures Start(env).timer && !Start(env).connected && Start(env).sock == (NextJoin(env) != RefusedNoSocket)
  {
    hide Prepopulated, DpConnect, SendControl;
    ConnectRefused(Initial(env));
  }

  /** So it goes on, every time the timer fires. */
  lemma TimerRefused(s: State, env: Env)
    requires s.status == Running && s.timer && s.sock && NextJoin(env) != Joined
    ensures var t := Take(s, Step(ConnectTimer, env)); t.timer && t.sock == (NextJoin(env) != RefusedNoSocket)
  {
    hide DpConnect;
    ConnectRefused(s.(env := env, timer := false));
  }

  // ---- The write callback ----

  /** The write callback drains the unsent queue, and asks to be called again if and only if something is
      left in it. */
  lemma WritableFlushes(s: State)
    requires Inv(s, NOTHING_HELD)
    ensures var t := OnWritable(s);
            && (t.sendArmed <==> t.cache.unsent != [])
            && (s.ready ==> Drained(s.cache.unsent, s.cache.inFlight, SentQueued(s.log), t,
                                    Min(LeadingSent(s.env.sends), |s.cache.unsent|)))
            && (!s.ready ==> t.cache == s.cache && SentQueued(t.log) == SentQueued(s.log))
  {
    hide Inv, SendPending, SentQueued, Stopped, AtMostAConnectMore;
    var s1 := Note(s.(sendArmed := false), WriteFired);
    FlagEventKeeps(s, WriteFired, NOTHING_HELD);
    assert s1 == Note(s.(sendArmed := s.sendArmed && false, finalizing := s.finalizing || false), WriteFired);
    FiredBooks(s.log);
    SendPendingFlushes(s1, NOTHING_HELD);
    LeftOverBooks(SendPending(s1).log);
    if s.cache.unsent == [] {
      SameMeansNoneMore(s.cache.inFlight);
      DrainedNone(s.cache.unsent, s1, s.cache.inFlight);
    } else if s.ready {
      AllSentUnarmed(s1, SendPending(s1));
    } else {
      UnsentAreQueueable(s1, NOTHING_HELD);
      NotReadyNoChange(s1);
    }
  }

  lemma FiredBooks(l: Log)
    ensures SentQueued(Then(l, WriteFired)) == SentQueued(l)
  {
  }

  lemma LeftOverBooks(l: Log)
    ensures SentQueued(Then(l, LeftOver)) == SentQueued(l)
  {
  }

  lemma AllSentUnarmed(s: State, t: State)
    requires !s.sendArmed && Stopped(s.sendArmed, Stop(s.env.sends, |s.cache.unsent|), t)
    requires Drained(s.cache.unsent, s.cache.inFlight, SentQueued(s.log), t,
                     Min(LeadingSent(s.env.sends), |s.cache.unsent|))
    ensures t.cache.unsent == [] ==> !t.sendArmed
  {
    hide AtMostAConnectMore, SentQueued, Requests;
  }
}
