/** What holds of the session between any two of its steps, part by part, and the small steps
    that keep it. */
module Invariants {
  import opened Bags
  import opened Messages
  import opened Process
  import opened Trace
  import opened MsgCache
  import opened RpcStats
  import opened Session
  import opened Dataplane

  /** What is checked out in the middle of a callback: `front`, the message popped from the unsent
      queue that is being sent; `ids`, the addresses of all messages that are in no list; `ctxs`,
      the contexts that are in no message and not back with zebra. */
  datatype Hold = Hold(front: seq<Msg>, ids: multiset<nat>, ctxs: multiset<Ctx>)

  const NOTHING_HELD := Hold([], multiset{}, multiset{})

  // ---- The invariant ----

  /** An outstanding Connect is the last message in flight, and then the socket is connected and
      the dataplane not ready; a ready dataplane implies a connected socket; a connect timer is
      armed only while disconnected. */
  ghost predicate Phases(sock: bool, connected: bool, ready: bool, timer: bool, inFlight: seq<Msg>) {
    && (ready ==> connected)
    && (connected ==> sock)
    && (timer ==> !connected)
    && (NoConnects(inFlight) || (ConnectLast(inFlight) && connected && !ready))
  }

  ghost predicate AllQueueable(q: seq<Msg>) {
    forall i :: 0 <= i < |q| ==> IsQueueable(q[i])
  }

  ghost predicate AllRequests(q: seq<Msg>) {
    forall i :: 0 <= i < |q| ==> IsWork(q[i]) || IsGoodConnect(q[i])
  }

  ghost predicate AllIdle(q: seq<Msg>) {
    forall i :: 0 <= i < |q| ==> q[i].ctx == None
  }

  /** The unsent queue has no Connects; only requests are in flight; work has a context, Connects
      and controls have none, and neither have idle messages. */
  ghost predicate Contents(pool: seq<Msg>, unsent: seq<Msg>, inFlight: seq<Msg>) {
    AllIdle(pool) && AllQueueable(unsent) && AllRequests(inFlight)
  }

  /** Both queues are first-in first-out: nothing is lost, duplicated or reordered. */
  ghost predicate Fifo(l: Log, front: seq<Msg>, unsent: seq<Msg>, inFlight: seq<Msg>) {
    && Submitted(l) == SentQueued(l) + front + unsent
    && SentRequests(l) == Popped(l) + inFlight
  }

  /** 1, 2, ..., n - 1 */
  function Upward(n: nat): seq<nat> {
    if n <= 1 then [] else Upward(n - 1) + [n - 1]
  }

  /** Sequence numbers are issued in order from 1. */
  ghost predicate Numbered(l: Log, seqnum: nat) {
    seqnum >= 1 && Numbers(l) == Upward(seqnum)
  }

  /** Every allocated message is in exactly one place. */
  ghost predicate Partitioned(c: Cache, l: Log, ids: multiset<nat>) {
    Ids(c.pool) + Ids(c.unsent) + Ids(c.inFlight) + Leaked(l) + ids == UpTo(c.created)
  }

  /** Contexts taken or freed from their request are those returned, queued or in hand. */
  ghost predicate Balanced(l: Log, ctxs: multiset<Ctx>) {
    Dequeued(l) + Resolved(l) == Returned(l) + Queued(l) + ctxs
  }

  ghost predicate Lawful(l: Log) {
    && Gated(l) && CleanStarts(l) && WellSent(l) && Justified(l) && Matched(l) && PoppedAreRequests(l)
    && Introduced(l) && NothingFreed(l)
  }

  predicate Flagged(l: Log, ready: bool, sendArmed: bool, finalizing: bool, synt: nat) {
    ready == Open(l) && sendArmed == WantsWrite(l) && finalizing == ShuttingDown(l) && synt == KnownSynt(l)
  }

  ghost predicate Core(s: State, h: Hold) {
    && s.status == Running
    && Phases(s.sock, s.connected, s.ready, s.timer, s.cache.inFlight)
    && Contents(s.cache.pool, s.cache.unsent, s.cache.inFlight)
    && Fifo(s.log, h.front, s.cache.unsent, s.cache.inFlight)
    && Numbered(s.log, s.seqnum)
    && Counted(s.stats.txOk, s.stats.controlTx, s.stats.requests, s.log)
    && Partitioned(s.cache, s.log, h.ids)
    && Tight(s.cache)
    && Balanced(s.log, h.ctxs)
    && Lawful(s.log)
    && Flagged(s.log, s.ready, s.sendArmed, s.finalizing, s.synt)
  }

  /** What holds when abort() is called: everything did, with one Connect in hand. */
  ghost predicate AbortedWell(s: State, h: Hold) {
    s.status == Aborted && exists id: nat :: Core(s.(status := Running), WithId(h, id))
  }

  function WithId(h: Hold, id: nat): Hold {
    h.(ids := h.ids + multiset{id})
  }

  /** What is in flight is what the dataplane has yet to answer. */
  ghost predicate Tracks(p: Peer, inFlight: seq<Msg>, synt: nat, ready: bool) {
    && p.former + p.current == inFlight
    && NoConnects(p.former)
    && (p.former != [] && p.current != [] ==> IsConnect(p.current[0]))
    && (synt != 0 ==> synt in p.used)
    && (synt == 0 ==> forall i :: 0 <= i < |inFlight| ==> IsConnect(inFlight[i]))
    && (ready ==> synt != 0 && p.former == [])
  }

  ghost predicate Coupled(l: Log, inFlight: seq<Msg>, synt: nat, ready: bool, connected: bool) {
    && (!connected ==> PeerOf(l).current == [])
    && (PeerOk(l) ==> Tracks(PeerOf(l), inFlight, synt, ready) && NoMisses(l))
  }

  ghost predicate InStep(s: State) {
    Coupled(s.log, s.cache.inFlight, s.synt, s.ready, s.connected)
  }

  ghost predicate Inv(s: State, h: Hold) {
    Core(s, h) && InStep(s)
  }

  // ---- Phases ----

  lemma ConnectGoesLast(sock: bool, timer: bool, q: seq<Msg>, m: Msg)
    requires Phases(sock, true, false, timer, q) && NoConnects(q) && IsConnect(m)
    ensures Phases(sock, true, false, timer, q + [m])
  {
    assert (q + [m])[..|q + [m]| - 1] == q;
  }

  lemma PoppedPhases(sock: bool, connected: bool, ready: bool, timer: bool, q: seq<Msg>)
    requires Phases(sock, connected, ready, timer, q) && q != []
    ensures Phases(sock, connected, ready, timer, q[1..])
    ensures IsConnect(q[0]) ==> q[1..] == [] && connected && !ready
  {
    if ConnectLast(q) && |q| > 1 {
      assert q[1..][..|q[1..]| - 1] == q[..|q| - 1][1..];
    }
  }

  // ---- Places ----

  lemma NewPartition(c: Cache, l: Log, ids: multiset<nat>)
    requires Partitioned(c, l, ids)
    ensures Partitioned(AfterNew(c), l, ids + multiset{NewMsg(c).id})
  {
    hide Ids, Leaked;
    var x := multiset{NewMsg(c).id};
    if c.pool == [] {
      AddToAny(Ids(c.pool), Ids(c.unsent), Ids(c.inFlight), Leaked(l), ids, x);
      AddBetween(Ids(c.pool) + Ids(c.unsent) + Ids(c.inFlight) + Leaked(l), ids, x);
    } else {
      IdsHead(c.pool);
      AddToAny(Ids(c.pool[1..]), Ids(c.unsent), Ids(c.inFlight), Leaked(l), ids, x);
    }
  }

  lemma RecyclePartition(c: Cache, l: Log, ids: multiset<nat>, m: Msg)
    requires Partitioned(c, l, ids) && m.id in ids && m.ctx == None
    ensures Partitioned(Recycled(c, m), l, ids - multiset{m.id})
  {
    hide Ids, Leaked, UpTo;
    IdsAppend(c.pool, m);
    MoveOne(Ids(c.pool), Ids(c.unsent), Ids(c.inFlight), Leaked(l), ids, m.id);
  }

  lemma LaunchPartition(c: Cache, l: Log, ids: multiset<nat>, m: Msg)
    requires Partitioned(c, l, ids) && m.id in ids
    ensures Partitioned(c.(inFlight := c.inFlight + [m]), l, ids - multiset{m.id})
  {
    hide Ids, Leaked, UpTo;
    IdsAppend(c.inFlight, m);
    MoveOne(Ids(c.pool), Ids(c.unsent), Ids(c.inFlight), Leaked(l), ids, m.id);
  }

  lemma QueuePartition(c: Cache, l: Log, ids: multiset<nat>, m: Msg)
    requires Partitioned(c, l, ids) && m.id in ids
    ensures Partitioned(c.(unsent := c.unsent + [m]), l, ids - multiset{m.id})
    ensures Partitioned(c.(unsent := [m] + c.unsent), l, ids - multiset{m.id})
  {
    hide Ids, Leaked, UpTo;
    IdsAppend(c.unsent, m);
    IdsHead([m] + c.unsent);
    assert ([m] + c.unsent)[1..] == c.unsent;
    MoveOne(Ids(c.pool), Ids(c.unsent), Ids(c.inFlight), Leaked(l), ids, m.id);
  }

  lemma UnqueuePartition(c: Cache, l: Log, ids: multiset<nat>)
    requires Partitioned(c, l, ids) && c.unsent != []
    ensures Partitioned(c.(unsent := c.unsent[1..]), l, ids + multiset{c.unsent[0].id})
  {
    hide Ids, Leaked, UpTo;
    IdsHead(c.unsent);
    AddToAny(Ids(c.pool), Ids(c.unsent[1..]), Ids(c.inFlight), Leaked(l), ids, multiset{c.unsent[0].id});
  }

  lemma PopPartition(c: Cache, l: Log, ids: multiset<nat>)
    requires Partitioned(c, l, ids) && c.inFlight != []
    ensures Partitioned(c.(inFlight := c.inFlight[1..]), l, ids + multiset{c.inFlight[0].id})
  {
    hide Ids, Leaked, UpTo;
    IdsHead(c.inFlight);
    AddToAny(Ids(c.pool), Ids(c.unsent), Ids(c.inFlight[1..]), Leaked(l), ids, multiset{c.inFlight[0].id});
  }

  lemma LogPartition(c: Cache, l: Log, e: Event, ids: multiset<nat>)
    requires Partitioned(c, l, ids) && !e.Drop?
    ensures Partitioned(c, Then(l, e), ids)
  {
    hide Ids, UpTo;
  }

  /** Dropped, a message is recycled if it holds no context and leaked if it does. */
  lemma DropPartition(c: Cache, l: Log, ids: multiset<nat>, m: Msg)
    requires Partitioned(c, l, ids) && m.id in ids
    ensures Partitioned(Recycled(c, m), Then(l, Drop(m)), ids - multiset{m.id})
  {
    hide Ids, UpTo;
    IdsAppend(c.pool, m);
    MoveOne(Ids(c.pool), Ids(c.unsent), Ids(c.inFlight), Leaked(l), ids, m.id);
  }

  // ---- The other end ----

  lemma CoupledOther(l: Log, e: Event, inFlight: seq<Msg>, synt: nat, ready: bool, connected: bool)
    requires Coupled(l, inFlight, synt, ready, connected)
    requires !e.Transmit? && !e.LinkDown? && !e.Drop? && !e.Orphan?
    requires e.Receive? ==> !e.msg.ResponseMsg?
    ensures Coupled(Then(l, e), inFlight, synt, ready, connected)
  {
  }

  lemma CoupledTransmit(l: Log, m: Msg, inFlight: seq<Msg>, synt: nat, ready: bool)
    requires Coupled(l, inFlight, synt, ready, true)
    requires m.typ == Request
    requires if IsConnect(m) then PeerOf(l).current == [] && !ready else ready
    ensures Coupled(Then(l, Transmit(m)), inFlight + [m], synt, ready, true)
  {
    var p := PeerOf(l);
    assert p.former + (p.current + [m]) == (p.former + p.current) + [m];
  }

  lemma CoupledLinkDown(l: Log, inFlight: seq<Msg>, synt: nat, ready: bool, connected: bool)
    requires Coupled(l, inFlight, synt, ready, connected)
    requires NoConnects(inFlight)
    ensures Coupled(Then(l, LinkDown), inFlight, synt, false, false)
  {
    var p := PeerOf(l);
    assert p.former + p.current + [] == p.former + p.current;
    assert inFlight != [] ==> !IsConnect(inFlight[0]);
  }

  // ---- Events that bear on flags only ----

  predicate Bystander(e: Event) {
    e.Blocked? || e.LeftOver? || e.WriteFired? || e.LinkDown? || e.Receive? || e.Refresh? || e.Orphan?
    || e.SkipKernel? || e.Finalizing?
  }

  lemma BystanderLaw(l: Log, e: Event, front: seq<Msg>, unsent: seq<Msg>, inFlight: seq<Msg>, seqnum: nat,
                     ctxs: multiset<Ctx>)
    requires Bystander(e)
    requires Fifo(l, front, unsent, inFlight) && Numbered(l, seqnum) && Balanced(l, ctxs) && Lawful(l)
    ensures Fifo(Then(l, e), front, unsent, inFlight) && Numbered(Then(l, e), seqnum) && Balanced(Then(l, e), ctxs)
    ensures Lawful(Then(l, e))
  {
  }

  lemma BystanderKeeps(s: State, e: Event, h: Hold)
    requires Core(s, h) && Bystander(e)
    ensures var l := Then(s.log, e);
            && Fifo(l, h.front, s.cache.unsent, s.cache.inFlight)
            && Numbered(l, s.seqnum)
            && Counted(s.stats.txOk, s.stats.controlTx, s.stats.requests, l)
            && Partitioned(s.cache, l, h.ids)
            && Balanced(l, h.ctxs)
            && Lawful(l)
  {
    hide Partitioned, Counted, Contents, Tight, Fifo, Numbered, Balanced, Lawful, Phases, Flagged;
    LogPartition(s.cache, s.log, e, h.ids);
    CountedOther(s.stats.txOk, s.stats.controlTx, s.stats.requests, s.log, e);
    BystanderLaw(s.log, e, h.front, s.cache.unsent, s.cache.inFlight, s.seqnum, h.ctxs);
  }

  // ---- Small steps of sending ----

  lemma NewKeeps(s: State, h: Hold)
    requires Inv(s, h)
    ensures Inv(s.(cache := AfterNew(s.cache)), h.(ids := h.ids + multiset{NewMsg(s.cache).id}))
  {
    hide Partitioned, Counted, Coupled, Lawful;
    NewPartition(s.cache, s.log, h.ids);
  }

  lemma RecycleKeeps(s: State, h: Hold, m: Msg)
    requires Core(s, h)
    requires m.id in h.ids && m.ctx == None
    ensures var t := s.(cache := Recycled(s.cache, m));
            Core(t, h.(ids := h.ids - multiset{m.id})) && (InStep(s) ==> InStep(t))
  {
    hide Partitioned, Counted, Coupled, Lawful;
    RecyclePartition(s.cache, s.log, h.ids, m);
  }

  lemma LaunchedPhases(sock: bool, connected: bool, ready: bool, timer: bool, q: seq<Msg>, m: Msg)
    requires Phases(sock, connected, ready, timer, q)
    requires if ready then IsWork(m) else IsConnect(m) && connected && NoConnects(q)
    ensures connected && Phases(sock, connected, ready, timer, q + [m])
  {
    if !ready {
      ConnectGoesLast(sock, timer, q, m);
    }
  }

  lemma LaunchedLaw(l: Log, front: seq<Msg>, unsent: seq<Msg>, inFlight: seq<Msg>, seqnum: nat,
                    ctxs: multiset<Ctx>, m: Msg)
    requires Fifo(l, front, unsent, inFlight) && Numbered(l, seqnum) && Balanced(l, ctxs) && Lawful(l)
    requires if Open(l) then IsWork(m) && front == [m] else IsGoodConnect(m) && m.obj == ConnInfo(KnownSynt(l))
    ensures var l1 := Then(l, Transmit(m));
            && Fifo(l1, if Open(l) then [] else front, unsent, inFlight + [m])
            && Numbered(l1, seqnum) && Balanced(l1, ctxs) && Lawful(l1)
  {
  }

  lemma LaunchedFields(s: State, m: Msg)
    ensures var t := InFlight(Transmitted(s, m), m);
            && t.status == s.status && t.sock == s.sock && t.connected == s.connected && t.ready == s.ready
            && t.timer == s.timer && t.sendArmed == s.sendArmed && t.finalizing == s.finalizing && t.synt == s.synt
            && t.seqnum == s.seqnum && t.log == Then(s.log, Transmit(m))
            && t.cache == s.cache.(inFlight := s.cache.inFlight + [m])
            && t.stats.txOk == s.stats.txOk + 1 && t.stats.controlTx == s.stats.controlTx
            && t.stats.requests == CountSent(s.stats, KindOf(m)).requests
  {
  }

  lemma RequestsGrow(q: seq<Msg>, m: Msg)
    requires AllRequests(q) && (IsWork(m) || IsGoodConnect(m))
    ensures AllRequests(q + [m])
  {
  }

  /** A request that was sent is in flight. */
  lemma LaunchKeeps(s: State, h: Hold, m: Msg)
    requires Inv(s, h)
    requires m.id in h.ids
    requires if s.ready then IsWork(m) && h.front == [m]
             else && IsGoodConnect(m) && m.obj == ConnInfo(s.synt)
                  && s.connected && NoConnects(s.cache.inFlight) && PeerOf(s.log).current == []
    ensures Inv(InFlight(Transmitted(s, m), m),
                h.(front := if s.ready then [] else h.front, ids := h.ids - multiset{m.id}))
  {
    hide Partitioned, Counted, Coupled, Phases, Fifo, Lawful, Balanced, Numbered, InFlight, Transmitted, CountSent;
    hide AllRequests, AllQueueable, AllIdle;
    LaunchedFields(s, m);
    RequestsGrow(s.cache.inFlight, m);
    LogPartition(s.cache, s.log, Transmit(m), h.ids);
    LaunchPartition(s.cache, Then(s.log, Transmit(m)), h.ids, m);
    CountedRequest(s.stats, s.log, m);
    LaunchedPhases(s.sock, s.connected, s.ready, s.timer, s.cache.inFlight, m);
    LaunchedLaw(s.log, h.front, s.cache.unsent, s.cache.inFlight, s.seqnum, h.ctxs, m);
    CoupledTransmit(s.log, m, s.cache.inFlight, s.synt, s.ready);
  }

  lemma CoupledControl(l: Log, m: Msg, inFlight: seq<Msg>, synt: nat, ready: bool, connected: bool)
    requires Coupled(l, inFlight, synt, ready, connected) && m.typ == Control
    ensures Coupled(Then(l, Transmit(m)), inFlight, synt, ready, connected)
  {
  }

  lemma ControlSentLaw(l: Log, unsent: seq<Msg>, inFlight: seq<Msg>, seqnum: nat, ctxs: multiset<Ctx>, m: Msg)
    requires Fifo(l, [m], unsent, inFlight) && Numbered(l, seqnum) && Balanced(l, ctxs) && Lawful(l)
    requires Open(l) && IsQueueable(m) && m.typ == Control
    ensures var l1 := Then(l, Transmit(m));
            Fifo(l1, [], unsent, inFlight) && Numbered(l1, seqnum) && Balanced(l1, ctxs) && Lawful(l1)
  {
  }

  lemma ControlSentFields(s: State, m: Msg)
    requires m.typ == Control
    ensures var t := AfterSend(Transmitted(s, m), m);
            && t.status == s.status && t.sock == s.sock && t.connected == s.connected && t.ready == s.ready
            && t.timer == s.timer && t.sendArmed == s.sendArmed && t.finalizing == s.finalizing && t.synt == s.synt
            && t.seqnum == s.seqnum && t.log == Then(s.log, Transmit(m))
            && t.cache == Recycled(s.cache, m)
            && t.stats.txOk == s.stats.txOk + 1 && t.stats.controlTx == s.stats.controlTx + 1
            && t.stats.requests == s.stats.requests
  {
    hide Recycled;
  }

  lemma RecycledLists(c: Cache, m: Msg)
    ensures AllIdle(c.pool) ==> AllIdle(Recycled(c, m).pool)
    ensures Tight(c) ==> Tight(Recycled(c, m))
    ensures Recycled(c, m).unsent == c.unsent && Recycled(c, m).inFlight == c.inFlight
  {
  }

  /** A control that was sent is recycled. */
  lemma ControlSentKeeps(s: State, h: Hold, m: Msg)
    requires Inv(s, h)
    requires m.id in h.ids && IsQueueable(m) && m.typ == Control && h.front == [m]
    requires s.ready
    ensures Inv(AfterSend(Transmitted(s, m), m), h.(front := [], ids := h.ids - multiset{m.id}))
  {
    hide Partitioned, Counted, Coupled, Phases, Fifo, Lawful, Balanced, Numbered, AfterSend, Transmitted, Recycled;
    hide AllRequests, AllQueueable, AllIdle, Tight;
    ControlSentFields(s, m);
    RecycledLists(s.cache, m);
    LogPartition(s.cache, s.log, Transmit(m), h.ids);
    RecyclePartition(s.cache, Then(s.log, Transmit(m)), h.ids, m);
    CountedControl(s.stats, s.log, m);
    ControlSentLaw(s.log, s.cache.unsent, s.cache.inFlight, s.seqnum, h.ctxs, m);
    CoupledControl(s.log, m, s.cache.inFlight, s.synt, s.ready, s.connected);
  }

  lemma BlockedKeeps(s: State, e: Event, h: Hold)
    requires Inv(s, h) && (e == Blocked || e == LeftOver)
    ensures Inv(Note(WakeOnWrite(s), e), h)
  {
    hide Partitioned, Counted, Coupled, Phases, Contents, Tight, Fifo, Lawful, Balanced, Numbered;
    BystanderKeeps(s, e, h);
    CoupledOther(s.log, e, s.cache.inFlight, s.synt, s.ready, s.connected);
  }

  lemma NotSentKeeps(s: State, h: Hold, why: SendOutcome)
    requires Inv(s, h)
    requires why != Sent && why != Disconnected
    ensures Inv(NotSent(s, why), h)
  {
    hide Partitioned, Counted, Coupled, Phases, Contents, Fifo, Lawful, Balanced, Tight, Numbered, Flagged;
    var s1 := WithStats(Attempted(s), FailureStats(s.stats, why));
    assert Inv(s1, h);
    BlockedKeeps(s1, Blocked, h);
  }

  /** Losing the link, with the socket kept or closed. */
  lemma LinkDownKeeps(s: State, sock: bool, h: Hold)
    requires Inv(s, h)
    requires NoConnects(s.cache.inFlight)
    ensures Inv(Note(s.(sock := sock, connected := false, ready := false), LinkDown), h)
  {
    hide Partitioned, Counted, Coupled, Contents, Tight, Fifo, Lawful, Balanced, Numbered;
    BystanderKeeps(s, LinkDown, h);
    CoupledLinkDown(s.log, s.cache.inFlight, s.synt, s.ready, s.connected);
  }
}
