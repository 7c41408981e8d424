/** Sending and reconnecting keep the invariant, whatever the socket does. */
module Sending {
  import opened Messages
  import opened Process
  import opened Trace
  import opened MsgCache
  import opened RpcStats
  import opened Session
  import opened Dataplane
  import opened Invariants

  /** The socket was just connected, and the Connect is yet to be sent. */
  ghost predicate Joining(s: State) {
    s.connected && !s.ready && NoConnects(s.cache.inFlight) && PeerOf(s.log).current == []
  }

  /** What the flags say: the consequences of the invariant that sending relies on. In particular
      the guard on the connect timer, in the error path of a send, always holds. */
  lemma FlagFacts(s: State, h: Hold)
    requires Inv(s, h)
    ensures s.ready ==> s.connected && NoConnects(s.cache.inFlight)
    ensures s.connected ==> s.sock && !s.timer
    ensures !s.connected ==> !s.ready && NoConnects(s.cache.inFlight) && PeerOf(s.log).current == []
  {
  }

  /** Wherever a send can find the link lost, no connect timer is armed: the error path always
      reconnects, and the test it makes of the timer could be left out. */
  lemma LostLinkReconnects(s: State, m: Msg, h: Hold)
    requires Inv(s, h) && CanSend(s, m) && (IsConnect(m) ==> Joining(s))
    requires NextSend(s.env) == Disconnected
    ensures DoSend(s, m) == SendResult(DpConnect(Disconnect(s)), false)
  {
    hide Inv, DpConnect;
    FlagFacts(s, h);
  }

  ghost predicate AtMostAConnectMore(q: seq<Msg>, r: seq<Msg>) {
    r == q || (|r| == |q| + 1 && r[..|q|] == q && IsConnect(r[|q|]))
  }

  /** A send that fails keeps the invariant, through any number of nested reconnections, and adds at
      most a Connect to the messages in flight. */
  lemma DoSendKeeps(s: State, m: Msg, h: Hold)
    requires Inv(s, h)
    requires IsConnect(m) ==> Joining(s)
    ensures var r := DoSend(s, m);
            if r.ok then r.state == Transmitted(s, m) && (s.ready || IsConnect(m))
            else Inv(r.state, h) && AtMostAConnectMore(s.cache.inFlight, r.state.cache.inFlight)
    decreases |s.env.sends|, 0
  {
    hide Inv;
    FlagFacts(s, h);
    var o := NextSend(s.env);
    if CanSend(s, m) && o == Disconnected {
      var s1 := Disconnect(s);
      DisconnectKeeps(s, h);
      DpConnectKeeps(s1, h);
    } else if CanSend(s, m) && o != Sent {
      NotSentKeeps(s, h, o);
    }
  }

  lemma DisconnectKeeps(s: State, h: Hold)
    requires Inv(s, h) && NoConnects(s.cache.inFlight)
    ensures Inv(Disconnect(s), h)
  {
    hide Partitioned, Counted, Coupled, Phases, Contents, Fifo, Lawful, Balanced, Tight, Numbered, Flagged;
    var s1 := WithStats(Attempted(s), FailureStats(s.stats, Disconnected));
    assert Inv(s1, h);
    LinkDownKeeps(s1, s1.sock, h);
  }

  lemma DpConnectKeeps(s: State, h: Hold)
    requires Inv(s, h) && !s.connected
    ensures Inv(DpConnect(s), h)
    ensures AtMostAConnectMore(s.cache.inFlight, DpConnect(s).cache.inFlight)
    decreases |s.env.sends|, 2
  {
    hide Inv;
    FlagFacts(s, h);
    if s.sock {
      var o := NextJoin(s.env);
      if o == Joined {
        var s1 := Asked(s).(timer := false, connected := true);
        JoinedKeeps(s, h);
        SendConnectKeeps(s1, h);
        ListeningKeeps(SendConnect(s1), h);
      } else {
        RefusedKeeps(s, o, h);
      }
    }
  }

  lemma JoinedKeeps(s: State, h: Hold)
    requires Inv(s, h) && !s.connected && s.sock
    ensures var s1 := Asked(s).(timer := false, connected := true); Inv(s1, h) && Joining(s1)
  {
    hide Partitioned, Counted, Contents, Fifo, Lawful, Balanced, Tight, Numbered, Flagged;
  }

  lemma ListeningKeeps(s: State, h: Hold)
    requires Inv(s, h)
    ensures Inv(s.(recvArmed := true), h)
  {
    hide Partitioned, Counted, Coupled, Phases, Contents, Fifo, Lawful, Balanced, Tight, Numbered, Flagged;
  }

  lemma RefusedKeeps(s: State, why: JoinOutcome, h: Hold)
    requires Inv(s, h) && !s.connected && s.sock
    requires why != Joined
    ensures Inv(Refused(Asked(s), why), h)
  {
    hide Partitioned, Counted, Coupled, Contents, Fifo, Lawful, Balanced, Tight, Numbered, Flagged;
    var s1 := Asked(s);
    assert Inv(s1, h);
    FlagFacts(s1, h);
    LinkDownKeeps(s1, false, h);
  }

  lemma SendConnectKeeps(s: State, h: Hold)
    requires Inv(s, h) && Joining(s)
    ensures Inv(SendConnect(s), h)
    ensures AtMostAConnectMore(s.cache.inFlight, SendConnect(s).cache.inFlight)
    decreases |s.env.sends|, 1
  {
    hide Inv, Recycled;
    var m := NewRequest(s, Connect, ConnInfo(s.synt), None);
    var s1 := AfterNewRequest(s, Connect);
    var h1 := h.(ids := h.ids + multiset{m.id});
    NewKeeps(s, h);
    assert s1 == s.(cache := AfterNew(s.cache));
    assert h1.(ids := h1.ids - multiset{m.id}) == h;
    var r := DoSend(s1, m);
    DoSendKeeps(s1, m, h1);
    if r.ok {
      LaunchKeeps(s1, h1, m);
    } else {
      RecycleIdleKeeps(r.state, m, h1);
    }
  }

  lemma RecycleIdleKeeps(s: State, m: Msg, h: Hold)
    requires Inv(s, h) && m.id in h.ids && m.ctx == None
    ensures var t := s.(cache := Recycled(s.cache, m));
            Inv(t, h.(ids := h.ids - multiset{m.id})) && t.cache.inFlight == s.cache.inFlight
  {
    hide Core, Coupled;
    RecycleKeeps(s, h, m);
  }

  lemma InvRuns(s: State, h: Hold)
    requires Inv(s, h)
    ensures s.status == Running
  {
  }

  // ---- Draining the unsent queue ----

  /** Popping the head of the unsent queue to send it. */
  lemma UnqueueKeeps(s: State, h: Hold)
    requires Inv(s, h) && h.front == [] && s.cache.unsent != []
    ensures var m := s.cache.unsent[0];
            && IsQueueable(m)
            && Inv(SetUnsent(s, s.cache.unsent[1..]), h.(front := [m], ids := h.ids + multiset{m.id}))
  {
    hide Partitioned, Counted, Coupled, Lawful, Phases;
    UnqueuePartition(s.cache, s.log, h.ids);
    var q := s.cache.unsent;
    assert q == [q[0]] + q[1..];
    assert SentQueued(s.log) + [] + q == SentQueued(s.log) + [q[0]] + q[1..];
  }

  lemma PushBackKeeps(s: State, h: Hold, m: Msg)
    requires Inv(s, h) && h.front == [m] && m.id in h.ids && IsQueueable(m)
    ensures Inv(SetUnsent(s, [m] + s.cache.unsent), h.(front := [], ids := h.ids - multiset{m.id}))
  {
    hide Partitioned, Counted, Coupled, Lawful, Phases;
    QueuePartition(s.cache, s.log, h.ids, m);
    assert SentQueued(s.log) + [] + ([m] + s.cache.unsent) == SentQueued(s.log) + [m] + s.cache.unsent;
  }

  lemma {:induction false} SendPendingKeeps(s: State, h: Hold)
    requires Inv(s, h) && h.front == []
    ensures Inv(SendPending(s), h)
    decreases |s.cache.unsent|
  {
    hide Inv;
    if s.cache.unsent != [] {
      var m := s.cache.unsent[0];
      var s1 := SetUnsent(s, s.cache.unsent[1..]);
      var h1 := h.(front := [m], ids := h.ids + multiset{m.id});
      UnqueueKeeps(s, h);
      DoSendKeeps(s1, m, h1);
      assert h1.(front := [], ids := h1.ids - multiset{m.id}) == h;
      var r := DoSend(s1, m);
      if r.ok {
        if m.typ == Request {
          LaunchKeeps(s1, h1, m);
        } else {
          ControlSentKeeps(s1, h1, m);
        }
        SendPendingKeeps(AfterSend(r.state, m), h);
      } else {
        PushBackKeeps(r.state, h1, m);
      }
    }
  }
}
