/** The RPC session with the dataplane (hh_dp_comm.c, hh_dp_msg.c) as a state machine. Each
    function is what one function of the plugin does to the whole state; the outcomes of the
    socket calls it makes are read from `env`. */
module Session {
  import opened Messages
  import opened Process
  import opened Trace
  import opened MsgCache
  import opened RpcStats

  // ---- The environment ----

  /** Outcome of encoding and sending one message. `NoRoom` is EAGAIN, `NoMemory` is ENOBUFS or
      ENOMEM, `Disconnected` is EPIPE, ENOTCONN, ECONNREFUSED or ECONNRESET. */
  datatype SendOutcome =
    Sent | EncodeFailed | NoRoom | NoMemory | Interrupted | Disconnected | SendError | ShortWrite

  /** Outcome of connecting the socket. `Joined` includes EISCONN. A refused connect closes the
      socket and opens another, which may fail; a path that is too long is refused beforehand. */
  datatype JoinOutcome = Joined | RefusedReopened | RefusedNoSocket | BadPath

  datatype ReadOutcome = Got(msg: RpcMsg) | Undecodable | EmptyRead | ReadEagain | ReadFailed

  /** Outcomes in store for one callback. When they run out, sends and reads would block and
      connects are refused. */
  datatype Env = Env(sends: seq<SendOutcome>, joins: seq<JoinOutcome>, recvs: seq<ReadOutcome>)

  function Rest<T>(q: seq<T>): seq<T> {
    if q == [] then [] else q[1..]
  }

  function NextSend(e: Env): SendOutcome {
    if e.sends == [] then NoRoom else e.sends[0]
  }

  function NextJoin(e: Env): JoinOutcome {
    if e.joins == [] then RefusedReopened else e.joins[0]
  }

  function NextRead(e: Env): ReadOutcome {
    if e.recvs == [] then ReadEagain else e.recvs[0]
  }

  // ---- The state ----

  /** `Aborted`: abort() was called. `Finished`: the plugin was finalized. */
  datatype Status = Running | Aborted | Finished

  /** `sock` tells that there is a socket; `timer`, `recvArmed` and `sendArmed` that the event
      reference is set; `inbox` is the provider's queue of incoming contexts. */
  datatype State = State(
    cache: Cache, stats: Stats,
    sock: bool, connected: bool, ready: bool, synt: nat,
    timer: bool, recvArmed: bool, sendArmed: bool,
    seqnum: nat, finalizing: bool, status: Status,
    inbox: seq<Ctx>, env: Env, log: Log)

  function Note(s: State, e: Event): State {
    s.(log := Then(s.log, e))
  }

  // ---- Socket ----

  function CloseSock(s: State): State {
    if s.sock then Note(s.(sock := false, connected := false, ready := false), LinkDown) else s
  }

  function WakeOnWrite(s: State): State {
    s.(sendArmed := true)
  }

  // ---- Making messages ----

  function NewRequest(s: State, op: RpcOp, obj: Object, ctx: Option<Ctx>): Msg {
    NewMsg(s.cache).(typ := Request, op := op, seqn := if op == Connect then 0 else s.seqnum, obj := obj, ctx := ctx)
  }

  function AfterNewRequest(s: State, op: RpcOp): State {
    s.(cache := AfterNew(s.cache), seqnum := if op == Connect then s.seqnum else s.seqnum + 1)
  }

  // ---- Sending ----

  predicate CanSend(s: State, m: Msg) {
    IsConnect(m) || s.ready
  }

  datatype SendResult = SendResult(state: State, ok: bool)

  /** What a send may not touch: the reconnection it can set off sends nothing but Connects. */
  ghost predicate SameWork(s: State, t: State) {
    && t.cache.unsent == s.cache.unsent
    && t.seqnum == s.seqnum
    && t.env.recvs == s.env.recvs
    && |t.env.sends| <= |s.env.sends|
    && t.status == s.status
    && t.finalizing == s.finalizing
    && t.inbox == s.inbox
    && t.synt == s.synt
  }

  function Attempted(s: State): State {
    s.(env := s.env.(sends := Rest(s.env.sends)))
  }

  function WithStats(s: State, st: Stats): State {
    s.(stats := st)
  }

  /** The message was accepted whole by the socket. */
  function Transmitted(s: State, m: Msg): (t: State)
    ensures SameWork(s, t)
  {
    Note(WithStats(Attempted(s), s.stats.(txOk := s.stats.txOk + 1)), Transmit(m))
  }

  function FailureStats(st: Stats, why: SendOutcome): Stats {
    match why
    case Sent | ShortWrite => st
    case EncodeFailed => st.(encodeFailure := st.encodeFailure + 1)
    case NoRoom => st.(txEagain := st.txEagain + 1)
    case NoMemory | Interrupted | Disconnected | SendError => st.(txFailure := st.txFailure + 1)
  }

  /** The error path of a send, the connection untouched. */
  function Failing(s: State, why: SendOutcome): State
    requires why != Sent && why != Disconnected
  {
    var s1 := WithStats(s, FailureStats(s.stats, why));
    if why == NoRoom || why == NoMemory then Note(WakeOnWrite(s1), Blocked) else s1
  }

  /** The error path of a send, the connection lost. */
  function Losing(s: State): State {
    Note(s.(stats := FailureStats(s.stats, Disconnected), connected := false, ready := false), LinkDown)
  }

  function NotSent(s: State, why: SendOutcome): (t: State)
    requires why != Sent && why != Disconnected
    ensures SameWork(s, t)
  {
    Failing(Attempted(s), why)
  }

  function Disconnect(s: State): (t: State)
    ensures SameWork(s, t)
    ensures s.env.sends != [] ==> |t.env.sends| < |s.env.sends|
  {
    Losing(Attempted(s))
  }

  function DoSend(s: State, m: Msg): (r: SendResult)
    ensures SameWork(s, r.state)
    decreases |s.env.sends|, 0
  {
    if !CanSend(s, m) then SendResult(s, false)
    else
      var o := NextSend(s.env);
      if o == Sent then SendResult(Transmitted(s, m), true)
      else if o == Disconnected then
        var s1 := Disconnect(s);
        SendResult(if s1.timer then s1 else DpConnect(s1), false)
      else SendResult(NotSent(s, o), false)
  }

  /** The connect failed: another attempt is scheduled. */
  function Refused(s: State, why: JoinOutcome): (t: State)
    requires why != Joined
    ensures SameWork(s, t)
  {
    match why
    case RefusedReopened => CloseSock(s).(sock := true, timer := true)
    case RefusedNoSocket => CloseSock(s).(timer := true)
    case BadPath => s.(timer := true)
  }

  function Asked(s: State): (t: State)
    ensures SameWork(s, t)
  {
    s.(env := s.env.(joins := Rest(s.env.joins)))
  }

  function DpConnect(s: State): (t: State)
    ensures SameWork(s, t)
    decreases |s.env.sends|, 2
  {
    if !s.sock then s
    else
      var o := NextJoin(s.env);
      if o == Joined then SendConnect(Asked(s).(timer := false, connected := true)).(recvArmed := true)
      else Refused(Asked(s), o)
  }

  function SendConnect(s: State): (t: State)
    ensures SameWork(s, t)
    decreases |s.env.sends|, 1
  {
    var m := NewRequest(s, Connect, ConnInfo(s.synt), None);
    AfterConnect(DoSend(AfterNewRequest(s, Connect), m), m)
  }

  /** A Connect goes in flight if it was sent, and is recycled if not. */
  function AfterConnect(r: SendResult, m: Msg): (t: State)
    ensures SameWork(r.state, t)
  {
    if r.ok then InFlight(r.state, m) else r.state.(cache := Recycled(r.state.cache, m))
  }

  /** A transmitted request goes in flight. */
  function InFlight(s: State, m: Msg): (t: State)
    ensures t.log == s.log && t.env == s.env && t.cache.unsent == s.cache.unsent
    ensures t.ready == s.ready && t.sendArmed == s.sendArmed
  {
    s.(stats := CountSent(s.stats, KindOf(m)), cache := s.cache.(inFlight := s.cache.inFlight + [m]))
  }

  /** A transmitted message that is not a request is recycled. */
  function SentAndDone(s: State, m: Msg): (t: State)
    ensures t.log == s.log && t.env == s.env && t.cache.unsent == s.cache.unsent
    ensures t.ready == s.ready && t.sendArmed == s.sendArmed
  {
    s.(stats := s.stats.(controlTx := s.stats.controlTx + if m.typ == Control then 1 else 0),
       cache := Recycled(s.cache, m))
  }

  /** What becomes of a queued message once transmitted. */
  function AfterSend(s: State, m: Msg): (t: State)
    ensures t.log == s.log && t.env == s.env && t.cache.unsent == s.cache.unsent
    ensures t.ready == s.ready && t.sendArmed == s.sendArmed
  {
    if m.typ == Request then InFlight(s, m) else SentAndDone(s, m)
  }

  function SetUnsent(s: State, q: seq<Msg>): State {
    s.(cache := s.cache.(unsent := q))
  }

  function SendPending(s: State): (t: State)
    ensures t.env.recvs == s.env.recvs && t.status == s.status && t.finalizing == s.finalizing && t.inbox == s.inbox
    ensures t.synt == s.synt && t.seqnum == s.seqnum
    decreases |s.cache.unsent|
  {
    if s.cache.unsent == [] then s
    else
      var m := s.cache.unsent[0];
      var r := DoSend(SetUnsent(s, s.cache.unsent[1..]), m);
      if r.ok then SendPending(AfterSend(r.state, m))
      else SetUnsent(r.state, [m] + r.state.cache.unsent)
  }

  /** send_rpc_msg, for anything but a Connect. */
  function Enqueue(s: State, m: Msg): (t: State)
    ensures t.env.recvs == s.env.recvs && t.status == s.status && t.finalizing == s.finalizing && t.inbox == s.inbox
    ensures t.synt == s.synt && t.seqnum == s.seqnum
  {
    SendPending(Note(SetUnsent(s, s.cache.unsent + [m]), Submit(m)))
  }

  function SendRequest(s: State, op: RpcOp, obj: Object, c: Ctx): (t: State)
    ensures t.env.recvs == s.env.recvs && t.status == s.status && t.finalizing == s.finalizing && t.inbox == s.inbox
  {
    Enqueue(AfterNewRequest(s, op), NewRequest(s, op, obj, Some(c)))
  }

  function SendControl(s: State, refresh: bool): (t: State)
    ensures t.env.recvs == s.env.recvs && t.status == s.status && t.finalizing == s.finalizing && t.inbox == s.inbox
    ensures t.synt == s.synt && t.seqnum == s.seqnum
  {
    Enqueue(s.(cache := AfterNew(s.cache)), NewMsg(s.cache).(typ := Control, refresh := refresh))
  }

  // ---- Receiving ----

  function AckConnect(s: State, resp: Response, purged: bool): (t: State)
    ensures t.env.recvs == s.env.recvs && t.inbox == s.inbox && t.finalizing == s.finalizing
    ensures purged ==> t.cache == s.cache
  {
    if resp.rescode != Ok then s.(status := Aborted)
    else
      var s1 := Note(s.(synt := if resp.info.Some? then resp.info.value else s.synt, ready := true), Accept);
      if purged then s1 else SendPending(s1)
  }

  /** The context of `m`, if any, goes back to zebra. */
  function HandOff(s: State, m: Msg, v: Verdict): State {
    if m.ctx.Some? then Note(s, HandBack(m.ctx.value, v)) else s
  }

  /** The message `m`, as do_handle_rpc_response leaves it. */
  function Handled(resp: Response, m: Msg): Msg {
    if resp.op in {Add, Del, Update} then m.(ctx := None) else m
  }

  function HandleSettled(s: State, resp: Response, m: Msg, purged: bool): (t: State)
    ensures t.env.recvs == s.env.recvs && t.inbox == s.inbox && t.finalizing == s.finalizing
    ensures purged ==> t.cache == s.cache
  {
    var s1 := s.(stats := CountReplied(s.stats, KindOf(m), resp.rescode));
    match resp.op
    case Connect => AckConnect(s1, resp, purged)
    case Add | Del | Update => HandOff(s1, m, VerdictOf(resp.rescode))
    case Get => s1
  }

  /** Handle the response to `m`, which was just popped, and recycle it. */
  function SettleMsg(s: State, resp: Response, m: Msg, purged: bool): (t: State)
    ensures t.env.recvs == s.env.recvs && t.inbox == s.inbox && t.finalizing == s.finalizing
    ensures purged ==> t.cache.inFlight == s.cache.inFlight
  {
    var t := HandleSettled(s, resp, m, purged);
    if t.status == Aborted then t else t.(cache := Recycled(t.cache, Handled(resp, m)))
  }

  function PopHead(s: State, e: Event): (t: State)
    requires s.cache.inFlight != []
    ensures t.env == s.env && t.inbox == s.inbox && t.finalizing == s.finalizing && t.status == s.status
  {
    Note(s.(cache := s.cache.(inFlight := s.cache.inFlight[1..])), e)
  }

  function FakeOk(m: Msg): Response {
    Response(m.op, m.seqn, Ok, None)
  }

  /** The response on which a purged request is settled. */
  function PurgeAnswer(resp: Response, m: Msg): Response {
    if m.op != Connect then FakeOk(m) else resp
  }

  function PurgeEvent(resp: Response, m: Msg): Event {
    if m.op != Connect then Purge(m) else Settle(m, resp.rescode)
  }

  /** One round of the purge. */
  function PurgeOne(s: State, resp: Response): (t: State)
    requires s.cache.inFlight != []
    ensures t.env.recvs == s.env.recvs && t.inbox == s.inbox && t.finalizing == s.finalizing
    ensures t.cache.inFlight == s.cache.inFlight[1..]
  {
    var m := s.cache.inFlight[0];
    SettleMsg(PopHead(s, PurgeEvent(resp, m)), PurgeAnswer(resp, m), m, true)
  }

  /** Empty the in-flight queue after a restart, answering every request but Connects with Ok. */
  function PurgeInFlight(s: State, resp: Response): (t: State)
    ensures t.env.recvs == s.env.recvs && t.inbox == s.inbox && t.finalizing == s.finalizing
    decreases |s.cache.inFlight|
  {
    if s.status == Aborted || s.cache.inFlight == [] then s else PurgeInFlight(PurgeOne(s, resp), resp)
  }

  /** A Connect response with a synt other than the one known shows that the dataplane restarted. */
  predicate ShowsRestart(s: State, resp: Response) {
    resp.op == Connect && resp.info.Some? && s.synt != 0 && resp.info.value != s.synt
  }

  predicate Expected(resp: Response, m: Msg) {
    m.typ == Request && resp.seqn == m.seqn && resp.op == m.op
  }

  /** The request that `resp` answers, if it is the one in flight for longest. */
  function ExpectedHead(s: State, resp: Response): Option<Msg> {
    if s.cache.inFlight != [] && Expected(resp, s.cache.inFlight[0]) then Some(s.cache.inFlight[0]) else None
  }

  /** The head of the in-flight queue is popped, and dropped. */
  function Dropping(s: State): (t: State)
    requires s.cache.inFlight != []
    ensures t.env.recvs == s.env.recvs && t.inbox == s.inbox && t.finalizing == s.finalizing
    ensures t.status == s.status
  {
    var t := PopHead(s, Drop(s.cache.inFlight[0]));
    t.(cache := Recycled(t.cache, s.cache.inFlight[0]))
  }

  /** recover_request: the head of the in-flight queue is popped, and dropped if not the one that
      `resp` answers. */
  function Recovering(s: State, resp: Response): (t: State)
    ensures t.env.recvs == s.env.recvs && t.inbox == s.inbox && t.finalizing == s.finalizing
    ensures t.status == s.status
  {
    if s.cache.inFlight == [] then Note(s, Orphan)
    else
      var m := s.cache.inFlight[0];
      if Expected(resp, m) then PopHead(s, Settle(m, resp.rescode)) else Dropping(s)
  }

  function HandleResponse(s: State, resp: Response): (t: State)
    ensures t.env.recvs == s.env.recvs && t.inbox == s.inbox && t.finalizing == s.finalizing
  {
    if ShowsRestart(s, resp) then PurgeInFlight(s, resp)
    else
      match ExpectedHead(s, resp)
      case None => Recovering(s, resp)
      case Some(m) => SettleMsg(Recovering(s, resp), resp, m, false)
  }

  function Refreshed(s: State, refresh: bool): (t: State)
    ensures t.env.recvs == s.env.recvs && t.inbox == s.inbox && t.finalizing == s.finalizing
  {
    if refresh then SendControl(Note(s, Refresh), true) else s
  }

  function HandleControl(s: State, refresh: bool): (t: State)
    ensures t.env.recvs == s.env.recvs && t.inbox == s.inbox && t.finalizing == s.finalizing
  {
    var s1 := Refreshed(s, refresh);
    WithStats(s1, s1.stats.(controlRx := s1.stats.controlRx + 1))
  }

  function HandleMsg(s: State, msg: RpcMsg): (t: State)
    ensures t.env.recvs == s.env.recvs && t.inbox == s.inbox && t.finalizing == s.finalizing
  {
    var s1 := Note(s, Receive(msg));
    match msg
    case ResponseMsg(resp) => HandleResponse(s1, resp)
    case ControlMsg(refresh) => HandleControl(s1, refresh)
    case _ => s1
  }

  function RecvStats(st: Stats, o: ReadOutcome): Stats {
    match o
    case ReadEagain => st.(rxEagain := st.rxEagain + 1)
    case ReadFailed => st.(rxFailure := st.rxFailure + 1)
    case EmptyRead | Undecodable | Got(_) => st.(rxOk := st.rxOk + 1)
  }

  /** One call to sock_recv, and its outcome accounted for. */
  function Received(s: State): (t: State)
    ensures t.inbox == s.inbox && t.finalizing == s.finalizing && t.status == s.status
    ensures s.env.recvs != [] ==> |t.env.recvs| < |s.env.recvs|
  {
    s.(env := s.env.(recvs := Rest(s.env.recvs)), stats := RecvStats(s.stats, NextRead(s.env)))
  }

  function ReadAll(s: State): (t: State)
    ensures t.inbox == s.inbox && t.finalizing == s.finalizing
    decreases |s.env.recvs|
  {
    if s.status == Aborted then s
    else
      var s1 := Received(s);
      match NextRead(s.env)
      case Got(msg) => ReadAll(HandleMsg(s1, msg))
      case Undecodable => WithStats(s1, s1.stats.(decodeFailure := s1.stats.decodeFailure + 1))
      case _ => s1
  }

  // ---- Contexts ----

  /** What hh_process does about a context, short of returning it. */
  function Obeyed(s: State, c: Ctx, plan: Plan): (t: State)
    ensures t.inbox == s.inbox && t.finalizing == s.finalizing && t.status == s.status
  {
    var s1 := if plan.skipKernel then Note(s, SkipKernel(c)) else s;
    match plan.action
    case Answer(_) => s1
    case Send(op, obj) => SendRequest(s1, op, obj, c)
  }

  /** What hh_process returns. */
  function Outcome(a: Action): HhRes {
    match a case Answer(r) => r case Send(_, _) => HhQueued
  }

  function ProcessUpdate(s: State, c: Ctx): (t: State)
    ensures t.inbox == s.inbox && t.finalizing == s.finalizing && t.status == s.status
  {
    var plan := PlanFor(c);
    var s1 := Obeyed(s, c, plan);
    var r := Outcome(plan.action);
    if r != HhQueued then Note(s1, HandBack(c, HhRetToZebra(r))) else s1
  }

  /** Take up to `limit` contexts. */
  function Work(s: State, limit: nat): (t: State)
    ensures t.finalizing == s.finalizing && t.status == s.status
    decreases limit
  {
    if limit == 0 || s.inbox == [] then s
    else
      var c := s.inbox[0];
      var s1 := Note(s.(inbox := s.inbox[1..]), Dequeue(c));
      Work(if s.finalizing then Note(s1, HandBack(c, Failure)) else ProcessUpdate(s1, c), limit - 1)
  }

  // ---- Callbacks ----

  function OnWritable(s: State): State {
    var s1 := Note(s.(sendArmed := false), WriteFired);
    if s1.cache.unsent == [] then s1
    else
      var s2 := SendPending(s1);
      if s2.cache.unsent == [] then s2 else Note(WakeOnWrite(s2), LeftOver)
  }

  function OnReadable(s: State): State {
    ReadAll(s.(recvArmed := true))
  }

  function OnConnectTimer(s: State): State {
    DpConnect(s.(timer := false))
  }

  function OnKeepalive(s: State): State {
    if s.connected && s.ready then SendControl(s, false) else s
  }

  /** Releasing every message of a list. */
  function FreeAll(l: Log, q: seq<Msg>): Log
    decreases |q|
  {
    if q == [] then l else FreeAll(Then(l, Free(q[0])), q[1..])
  }

  function Finalize(s: State): State {
    var s1 := CloseSock(s);
    s1.(status := Finished,
        cache := s1.cache.(pool := [], unsent := [], inFlight := []),
        log := FreeAll(FreeAll(FreeAll(s1.log, s1.cache.pool), s1.cache.unsent), s1.cache.inFlight))
  }

  /** The socket was opened and the cache filled. */
  function Initial(env: Env): State {
    State(INITIAL_CACHE, INITIAL_STATS,
          true, false, false, 0,
          false, false, false,
          1, false, Running,
          [], env, Nothing)
  }

  /** The plugin was initialized. */
  function Start(env: Env): State {
    OnKeepalive(DpConnect(Initial(env)))
  }

  // ---- Runs ----

  datatype Callback =
    | Arrive(c: Ctx)              // zebra queues a context for the plugin
    | Process(limit: nat)         // zebra asks the plugin to work
    | Writable | Readable | ConnectTimer | Keepalive
    | FiniEarly | Fini

  datatype Step = Step(callback: Callback, env: Env)

  /** FRR runs an event's callback only if the event is armed, and clears its reference first. */
  function Take(s: State, step: Step): State {
    if s.status != Running then s
    else
      var s0 := s.(env := step.env);
      match step.callback
      case Arrive(c) => s0.(inbox := s0.inbox + [c])
      case Process(limit) => Work(s0, limit)
      case Writable => if s0.sendArmed then OnWritable(s0) else s0
      case Readable => if s0.recvArmed then OnReadable(s0) else s0
      case ConnectTimer => if s0.timer then OnConnectTimer(s0) else s0
      case Keepalive => OnKeepalive(s0)
      case FiniEarly => Note(s0.(finalizing := true), Finalizing)
      case Fini => Finalize(s0)
  }

  function Run(s: State, steps: seq<Step>): State
    decreases |steps|
  {
    if steps == [] then s else Run(Take(s, steps[0]), steps[1..])
  }

  // ---- One round of each loop ----

  lemma SendPendingRound(s: State)
    ensures SendPending(s) ==
            if s.cache.unsent == [] then s
            else
              var m := s.cache.unsent[0];
              var r := DoSend(SetUnsent(s, s.cache.unsent[1..]), m);
              if r.ok then SendPending(AfterSend(r.state, m))
              else SetUnsent(r.state, [m] + r.state.cache.unsent)
  {
  }

  lemma LosingKeepsTimer(s: State)
    ensures Losing(s).timer == s.timer && Losing(s).env == s.env
  {
  }

  lemma PurgeRound(s: State, resp: Response)
    ensures PurgeInFlight(s, resp) ==
            if s.status == Aborted || s.cache.inFlight == [] then s
            else
              var m := s.cache.inFlight[0];
              PurgeInFlight(SettleMsg(PopHead(s, PurgeEvent(resp, m)), PurgeAnswer(resp, m), m, true), resp)
  {
    hide SettleMsg;
  }

  lemma ReadRound(s: State)
    requires s.status != Aborted
    ensures var s1 := Received(s);
            ReadAll(s) ==
            match NextRead(s.env)
            case Got(msg) => ReadAll(HandleMsg(s1, msg))
            case Undecodable => WithStats(s1, s1.stats.(decodeFailure := s1.stats.decodeFailure + 1))
            case _ => s1
  {
    hide HandleMsg, Received;
  }

  lemma AbortedReads(s: State)
    requires s.status == Aborted
    ensures ReadAll(s) == s
  {
  }

  lemma WorkRound(s: State, limit: nat)
    ensures Work(s, limit) ==
            if limit == 0 || s.inbox == [] then s
            else
              var c := s.inbox[0];
              var s1 := Note(s.(inbox := s.inbox[1..]), Dequeue(c));
              Work(if s.finalizing then Note(s1, HandBack(c, Failure)) else ProcessUpdate(s1, c), limit - 1)
  {
    hide ProcessUpdate;
  }
}
