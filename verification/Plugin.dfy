/** The plugin itself: the statics of hh_dp_comm.c and hh_dp_msg.c, the message cache and the
    statistics, updated in place by the plugin's functions. Every method is proved to do what the
    function of the same role in module Session says. */
module Plugin {
  import opened Messages
  import opened Process
  import opened NextHops
  import opened Trace
  import opened MsgCache
  import opened RpcStats
  import opened Session

  class Plugin {
    const cache: DpMsgCache
    const stats: StatsTable
    var sock: bool
    var connected: bool
    var ready: bool
    var synt: nat
    var timer: bool
    var recvArmed: bool
    var sendArmed: bool
    var seqnum: nat
    var finalizing: bool
    var status: Status
    var inbox: seq<Ctx>
    var env: Env
    var log: Log

    ghost function View(): State
      reads this, cache, stats
    {
      State(cache.View(), stats.View(), sock, connected, ready, synt, timer, recvArmed, sendArmed,
            seqnum, finalizing, status, inbox, env, log)
    }

    /** zd_hh_start and init_dplane_rpc, once the socket was opened. */
    constructor (e: Env)
      ensures fresh(cache) && fresh(stats)
      ensures View() == Start(e)
    {
      cache := new DpMsgCache();
      stats := new StatsTable();
      sock, connected, ready, synt := true, false, false, 0;
      timer, recvArmed, sendArmed := false, false, false;
      seqnum, finalizing, status := 1, false, Running;
      inbox, env, log := [], e, Nothing;
      new;
      cache.Init();
      assert View() == Initial(e);
      DpConnect();
      SendKeepalive();
    }

    // ---- System calls ----

    /** encode_msg and send. */
    method Send() returns (o: SendOutcome)
      modifies this`env
      ensures o == NextSend(old(env)) && env == old(env).(sends := Rest(old(env.sends)))
    {
      if env.sends == [] {
        return NoRoom;
      }
      o := env.sends[0];
      env := env.(sends := env.sends[1..]);
    }

    /** connect and, if refused, the reopening of the socket. */
    method Join() returns (o: JoinOutcome)
      modifies this`env
      ensures o == NextJoin(old(env)) && env == old(env).(joins := Rest(old(env.joins)))
    {
      if env.joins == [] {
        return RefusedReopened;
      }
      o := env.joins[0];
      env := env.(joins := env.joins[1..]);
    }

    /** recv and decode_msg. */
    method Read() returns (o: ReadOutcome)
      modifies this`env
      ensures o == NextRead(old(env)) && env == old(env).(recvs := Rest(old(env.recvs)))
    {
      if env.recvs == [] {
        return ReadEagain;
      }
      o := env.recvs[0];
      env := env.(recvs := env.recvs[1..]);
    }

    // ---- Socket ----

    method SockClose()
      modifies this
      ensures View() == CloseSock(old(View()))
    {
      if sock {
        sock := false;
        connected := false;
        ready := false;
        log := Then(log, LinkDown);
      }
    }

    method WakeOnDpWriteAvail()
      modifies this
      ensures View() == WakeOnWrite(old(View()))
    {
      if !sendArmed {
        sendArmed := true;
      }
    }

    /** The connect failed. Unless the path was bad, the socket is closed and another is opened, which
        may fail; and another attempt is scheduled. */
    method ConnectFailed(why: JoinOutcome)
      requires why != Joined
      modifies this
      ensures View() == Refused(old(View()), why)
      ensures timer
      ensures why != BadPath ==> sock == (why == RefusedReopened)
      ensures why != BadPath && old(sock) ==> !connected && !ready
    {
      if why != BadPath {
        SockClose();
        sock := why == RefusedReopened;
      }
      timer := true;
    }

    method DpConnect()
      modifies this, cache, stats
      ensures View() == Session.DpConnect(old(View()))
      ensures old(sock) && NextJoin(old(env)) != Joined ==> timer
      ensures old(sock) && NextJoin(old(env)) == Joined ==> recvArmed
      decreases |env.sends|, 5
    {
      hide SendConnect, Refused;
      if !sock {
        return;
      }
      var o := Join();
      if o != Joined {
        ConnectFailed(o);
        return;
      }
      timer := false;
      connected := true;
      assert View() == Asked(old(View())).(timer := false, connected := true);
      StartSession();
    }

    // ---- Sending ----

    method DpRequestNew(op: RpcOp, obj: Object, ctx: Option<Ctx>) returns (m: Msg)
      modifies this, cache
      ensures m == NewRequest(old(View()), op, obj, ctx)
      ensures View() == AfterNewRequest(old(View()), op)
    {
      m := cache.New();
      m := m.(typ := Request, op := op, ctx := ctx, obj := obj);
      if op == Connect {
        m := m.(seqn := 0);
      } else {
        m := m.(seqn := seqnum);
        seqnum := seqnum + 1;
      }
    }

    method SendRequestConnect()
      modifies this, cache, stats
      ensures View() == SendConnect(old(View()))
      decreases |env.sends|, 3
    {
      var m := DpRequestNew(Connect, ConnInfo(synt), None);
      var r := SendRpcMsg(m);
    }

    /** A Connect is always sent on a new connection; then the plugin listens. */
    method StartSession()
      modifies this, cache, stats
      ensures View() == SendConnect(old(View())).(recvArmed := true)
      decreases |env.sends|, 4
    {
      hide SendConnect;
      SendRequestConnect();
      recvArmed := true;
    }

    method CanSendRpcRequest(m: Msg) returns (b: bool)
      ensures b == CanSend(View(), m)
    {
      b := (m.typ == Request && m.op == Connect) || ready;
    }

    method Backpressure()
      modifies this
      ensures View() == Note(WakeOnWrite(old(View())), Blocked)
    {
      WakeOnDpWriteAvail();
      log := Then(log, Blocked);
    }

    /** What a failed send does, besides reconnecting. */
    method TxError(why: SendOutcome)
      requires why != Sent && why != Disconnected
      modifies this, stats
      ensures View() == Failing(old(View()), why)
      ensures sendArmed == (old(sendArmed) || why in {NoRoom, NoMemory})
    {
      match why
      case EncodeFailed =>
        stats.EncodeFailure();
      case NoRoom =>
        stats.TxEagain();
        Backpressure();
      case NoMemory =>
        stats.TxFailure();
        Backpressure();
      case Interrupted | SendError =>
        stats.TxFailure();
      case ShortWrite =>
    }

    method TxDisconnected()
      modifies this, stats
      ensures View() == Losing(old(View()))
    {
      stats.TxFailure();
      connected := false;
      ready := false;
      log := Then(log, LinkDown);
    }

    method DoSendRpcMsg(m: Msg) returns (ok: bool)
      modifies this, cache, stats
      ensures var r := DoSend(old(View()), m); View() == r.state && ok == r.ok
      decreases |env.sends|, 0
    {
      hide Failing, Losing;
      ok := CanSendRpcRequest(m);
      if !ok {
        return;
      }
      var o := Send();
      if o == Sent {
        stats.Tx();
        log := Then(log, Transmit(m));
        return true;
      }
      if o == Disconnected {
        TxDisconnected();
        LosingKeepsTimer(Attempted(old(View())));
        if !timer {
          DpConnect();
        }
        return false;
      }
      TxError(o);
      return false;
    }

    /** The message was sent: a request goes in flight, anything else is recycled. */
    method MsgSent(m: Msg)
      modifies cache, stats
      ensures View() == AfterSend(old(View()), m)
    {
      if m.typ == Request {
        stats.RequestSent(KindOf(m));
        cache.CacheInFlight(m);
      } else {
        if m.typ == Control {
          stats.ControlTx();
        }
        cache.Recycle(m);
      }
    }

    method SendPendingRpcMsgs()
      modifies this, cache, stats
      ensures View() == SendPending(old(View()))
      decreases |env.sends|, 1
    {
      hide SendPending, DoSend, AfterSend;
      while true
        invariant SendPending(View()) == SendPending(old(View()))
        invariant |env.sends| <= |old(env.sends)|
        decreases |cache.unsent|
      {
        SendPendingRound(View());
        var m := cache.PopUnsent();
        if m == None {
          return;
        }
        var ok := DoSendRpcMsg(m.value);
        if !ok {
          cache.UnsentPushBack(m.value);
          return;
        }
        MsgSent(m.value);
      }
    }

    method SendRpcMsg(m: Msg) returns (r: int)
      modifies this, cache, stats
      ensures IsConnect(m) ==>
                var sent := DoSend(old(View()), m);
                View() == AfterConnect(sent, m) && r == if sent.ok then 0 else -1
      ensures !IsConnect(m) ==> View() == Enqueue(old(View()), m) && r == 0
      decreases |env.sends|, 2
    {
      if m.typ == Request && m.op == Connect {
        var ok := DoSendRpcMsg(m);
        if ok {
          stats.RequestSent(KindOf(m));
          cache.CacheInFlight(m);
          return 0;
        } else {
          cache.Recycle(m);
          return -1;
        }
      } else {
        cache.CacheUnsent(m);
        log := Then(log, Submit(m));
        assert View() == Note(SetUnsent(old(View()), old(View()).cache.unsent + [m]), Submit(m));
        SendPendingRpcMsgs();
        return 0;
      }
    }

    /** send_rpc_request_ifaddress, _rmac and _iproute, with the object built. */
    method SendRpcRequest(op: RpcOp, obj: Object, ctx: Ctx) returns (r: int)
      requires op != Connect
      modifies this, cache, stats
      ensures View() == SendRequest(old(View()), op, obj, ctx) && r == 0
    {
      var m := DpRequestNew(op, obj, Some(ctx));
      r := SendRpcMsg(m);
    }

    method SendRpcRequestIproute(op: RpcOp, ctx: Ctx) returns (r: int)
      requires op != Connect
      modifies this, cache, stats
      ensures View() == SendRequest(old(View()), op, IpRoute(Selected(ctx.hops)), ctx) && r == 0
    {
      var hops := SelectNextHops(ctx.hops);
      r := SendRpcRequest(op, IpRoute(hops), ctx);
    }

    method SendRpcControl(refresh: bool)
      modifies this, cache, stats
      ensures View() == SendControl(old(View()), refresh)
    {
      var m := cache.New();
      m := m.(typ := Control);
      m := m.(refresh := refresh);
      var r := SendRpcMsg(m);
    }

    // ---- Receiving ----

    /** An `Aborted` status stands for abort(): nothing more is done. */
    method HandleRpcConnectResponse(resp: Response, purged: bool)
      modifies this, cache, stats
      ensures View() == AckConnect(old(View()), resp, purged)
    {
      if resp.rescode == Ok {
        if resp.info.Some? {
          synt := resp.info.value;
        }
        ready := true;
        log := Then(log, Accept);
        if !purged {
          SendPendingRpcMsgs();
        }
      } else {
        status := Aborted;
      }
    }

    method DpMsgHandOff(m: Msg, v: Verdict) returns (m': Msg)
      requires m.ctx.Some?
      modifies this
      ensures View() == HandOff(old(View()), m, v) && m' == m.(ctx := None)
    {
      log := Then(log, HandBack(m.ctx.value, v));
      m' := m.(ctx := None);
    }

    method DoHandleRpcResponse(resp: Response, m: Msg, purged: bool) returns (m': Msg)
      modifies this, cache, stats
      ensures View() == HandleSettled(old(View()), resp, m, purged) && m' == Handled(resp, m)
      ensures resp.op in {Add, Del, Update} && m.ctx.Some? ==>
                && m'.ctx == None
                && log == Then(old(log), HandBack(m.ctx.value, if resp.rescode == Ok || resp.rescode == Ignored
                                                               then Success else Failure))
    {
      m' := m;
      stats.RequestReplied(KindOf(m), resp.rescode);
      match resp.op
      case Connect =>
        HandleRpcConnectResponse(resp, purged);
      case Add | Del | Update =>
        if m.ctx.Some? {
          m' := DpMsgHandOff(m, VerdictOf(resp.rescode));
        }
      case Get =>
    }

    method RecoverRequest(resp: Response) returns (found: Option<Msg>)
      modifies this, cache
      ensures View() == Recovering(old(View()), resp) && found == ExpectedHead(old(View()), resp)
    {
      hide Recycled;
      var next := cache.PopInFlight();
      if next == None {
        log := Then(log, Orphan);
        return None;
      }
      var m := next.value;
      if m.typ == Request && resp.seqn == m.seqn && resp.op == m.op {
        log := Then(log, Settle(m, resp.rescode));
        return Some(m);
      }
      log := Then(log, Drop(m));
      cache.Recycle(m);
      return None;
    }

    /** Answer a request popped by the purge, a Connect with the response received and anything
        else with a fake Ok, and recycle it. */
    method PurgeMsg(resp: Response, m: Msg)
      requires status != Aborted
      modifies this, cache, stats
      ensures View() == SettleMsg(Note(old(View()), PurgeEvent(resp, m)), PurgeAnswer(resp, m), m, true)
    {
      hide HandleSettled, Handled, Recycled;
      var answer := resp;
      if m.op != Connect {
        answer := Response(m.op, m.seqn, Ok, None);
        log := Then(log, Purge(m));
      } else {
        log := Then(log, Settle(m, resp.rescode));
      }
      assert View() == Note(old(View()), PurgeEvent(resp, m)) && answer == PurgeAnswer(resp, m);
      var m' := DoHandleRpcResponse(answer, m, true);
      if status == Aborted {
        return;
      }
      cache.Recycle(m');
    }

    method PurgeInFlightQueue(resp: Response)
      requires status != Aborted
      modifies this, cache, stats
      ensures View() == PurgeInFlight(old(View()), resp)
    {
      hide PurgeInFlight, SettleMsg, PurgeAnswer, PurgeEvent;
      while status != Aborted
        invariant PurgeInFlight(View(), resp) == PurgeInFlight(old(View()), resp)
        decreases |cache.inFlight|
      {
        PurgeRound(View(), resp);
        var m := cache.PopInFlight();
        if m == None {
          return;
        }
        PurgeMsg(resp, m.value);
      }
      PurgeRound(View(), resp);
    }

    method HandleRpcResponse(resp: Response)
      requires status != Aborted
      modifies this, cache, stats
      ensures View() == HandleResponse(old(View()), resp)
    {
      hide PurgeInFlight, Recovering, ExpectedHead, HandleSettled, Handled;
      if resp.op == Connect && resp.info.Some? && synt != 0 && resp.info.value != synt {
        PurgeInFlightQueue(resp);
        return;
      }
      var found := RecoverRequest(resp);
      if found == None {
        return;
      }
      var m := DoHandleRpcResponse(resp, found.value, false);
      if status == Aborted {
        return;
      }
      cache.Recycle(m);
    }

    method ServeRefresh(refresh: bool)
      modifies this, cache, stats
      ensures View() == Refreshed(old(View()), refresh)
    {
      hide SendControl;
      if refresh {
        log := Then(log, Refresh);
        assert View() == Note(old(View()), Refresh);
        SendRpcControl(true);
      }
    }

    method HandleRpcControl(refresh: bool)
      modifies this, cache, stats
      ensures View() == HandleControl(old(View()), refresh)
    {
      ServeRefresh(refresh);
      stats.ControlRx();
    }

    method HandleRpcMsg(msg: RpcMsg)
      requires status != Aborted
      modifies this, cache, stats
      ensures View() == HandleMsg(old(View()), msg)
    {
      log := Then(log, Receive(msg));
      match msg
      case ResponseMsg(resp) => HandleRpcResponse(resp);
      case ControlMsg(refresh) => HandleRpcControl(refresh);
      case _ =>
    }

    method SockRecv() returns (o: ReadOutcome)
      modifies this, stats
      ensures o == NextRead(old(env)) && View() == Received(old(View()))
    {
      o := Read();
      match o
      case ReadEagain => stats.RxEagain();
      case ReadFailed => stats.RxFailure();
      case EmptyRead | Undecodable | Got(_) => stats.Rx();
    }

    method DpRpcRecv()
      requires status != Aborted
      modifies this, cache, stats
      ensures View() == OnReadable(old(View()))
    {
      hide ReadAll, HandleMsg, Received;
      recvArmed := true;
      ghost var s := View();
      while true
        invariant status != Aborted
        invariant ReadAll(View()) == ReadAll(s)
        decreases |env.recvs|
      {
        ReadRound(View());
        var o := SockRecv();
        match o
        case Got(msg) =>
          HandleRpcMsg(msg);
          if status == Aborted {
            AbortedReads(View());
            return;
          }
        case Undecodable =>
          stats.DecodeFailure();
          return;
        case ReadEagain | ReadFailed | EmptyRead =>
          return;
      }
    }

    // ---- Contexts ----

    method ProcessRoutes(ctx: Ctx) returns (r: HhRes)
      modifies this, cache, stats
      ensures View() == Obeyed(old(View()), ctx, PlanRoute(ctx)) && r == Outcome(PlanRoute(ctx).action)
      ensures ctx.afi == AfiOther || ctx.safi == SafiOther ==> r == HhIgnored && View() == old(View())
      ensures ctx.afi != AfiOther && ctx.safi != SafiOther ==>
                var s := if ctx.vrf != 0 then Note(old(View()), SkipKernel(ctx)) else old(View());
                match ctx.op
                case RouteInstall => r == HhQueued && View() == SendRequest(s, Add, IpRoute(Selected(ctx.hops)), ctx)
                case RouteUpdate => r == HhQueued && View() == SendRequest(s, Update, IpRoute(Selected(ctx.hops)), ctx)
                case RouteDelete => r == HhQueued && View() == SendRequest(s, Del, IpRoute(Selected(ctx.hops)), ctx)
                case RouteNotify | SysRouteAdd | SysRouteDelete => r == HhIgnored && View() == s
                case _ => r == HhBug && View() == s
    {
      hide SendRequest, Selected;
      if ctx.afi != AfiIp && ctx.afi != AfiL2vpn {
        return HhIgnored;
      }
      if ctx.safi != SafiUnicast && ctx.safi != SafiEvpn {
        return HhIgnored;
      }
      if ctx.vrf != 0 {
        log := Then(log, SkipKernel(ctx));
      }
      assert View() == if ctx.vrf != 0 then Note(old(View()), SkipKernel(ctx)) else old(View());
      var n;
      match ctx.op {
        case RouteInstall => n := SendRpcRequestIproute(Add, ctx);
        case RouteUpdate => n := SendRpcRequestIproute(Update, ctx);
        case RouteDelete => n := SendRpcRequestIproute(Del, ctx);
        case RouteNotify | SysRouteAdd | SysRouteDelete => return HhIgnored;
        case _ => return HhBug;
      }
      r := if n == 0 then HhQueued else HhFail;
    }

    method ProcessIfaddr(ctx: Ctx) returns (r: HhRes)
      modifies this, cache, stats
      ensures View() == Obeyed(old(View()), ctx, Plan(PlanIfaddr(ctx), false)) && r == Outcome(PlanIfaddr(ctx))
    {
      hide SendRequest;
      if !ctx.ipv4 {
        return HhIgnored;
      }
      var n;
      match ctx.op {
        case AddrInstall => n := SendRpcRequest(Add, IfAddress, ctx);
        case AddrUninstall => n := SendRpcRequest(Del, IfAddress, ctx);
        case _ => return HhBug;
      }
      r := if n == 0 then HhQueued else HhFail;
    }

    method ProcessMacinfo(ctx: Ctx) returns (r: HhRes)
      modifies this, cache, stats
      ensures View() == Obeyed(old(View()), ctx, Plan(PlanMac(ctx), false)) && r == Outcome(PlanMac(ctx))
    {
      hide SendRequest;
      var n;
      match ctx.op {
        case MacInstall => n := SendRpcRequest(Add, Rmac, ctx);
        case MacDelete => n := SendRpcRequest(Del, Rmac, ctx);
        case _ => return HhBug;
      }
      r := if n == 0 then HhQueued else HhFail;
    }

    method HhProcess(ctx: Ctx) returns (r: HhRes)
      modifies this, cache, stats
      ensures View() == Obeyed(old(View()), ctx, PlanFor(ctx)) && r == Outcome(PlanFor(ctx).action)
    {
      hide PlanRoute, PlanMac, PlanIfaddr, SendRequest;
      match ctx.op
      case RouteInstall | RouteUpdate | RouteDelete | RouteNotify | SysRouteAdd | SysRouteDelete =>
        r := ProcessRoutes(ctx);
      case NhInstall | NhUpdate | NhDelete =>
        r := ProcessNh(ctx);
      case AddrInstall | AddrUninstall =>
        r := ProcessIfaddr(ctx);
      case MacInstall | MacDelete =>
        r := ProcessMacinfo(ctx);
      case NeighInstall | NeighUpdate | NeighDelete | NeighDiscover | VtepAdd | VtepDelete =>
        r := ProcessNeigh(ctx);
      case ListedOther =>
        r := HhIgnored;
      case Unlisted =>
        r := HhFail;
    }

    method ZdProcessUpdate(ctx: Ctx)
      modifies this, cache, stats
      ensures View() == ProcessUpdate(old(View()), ctx)
    {
      var r := HhProcess(ctx);
      if r != HhQueued {
        log := Then(log, HandBack(ctx, HhRetToZebra(r)));
      }
    }

    method ZdProcess(limit: nat)
      modifies this, cache, stats
      ensures View() == Work(old(View()), limit)
    {
      hide Work, ProcessUpdate;
      var counter := 0;
      while counter < limit
        invariant counter <= limit
        invariant Work(View(), limit - counter) == Work(old(View()), limit)
      {
        WorkRound(View(), limit - counter);
        if inbox == [] {
          break;
        }
        var ctx := inbox[0];
        inbox := inbox[1..];
        log := Then(log, Dequeue(ctx));
        if !finalizing {
          ZdProcessUpdate(ctx);
        } else {
          log := Then(log, HandBack(ctx, Failure));
        }
        counter := counter + 1;
      }
      WorkRound(View(), limit - counter);
    }

    // ---- Callbacks ----

    method SockSendCb()
      modifies this, cache, stats
      ensures View() == OnWritable(old(View()))
      ensures cache.unsent == SendPending(Note(old(View()).(sendArmed := false), WriteFired)).cache.unsent
      ensures cache.unsent != [] ==> sendArmed
    {
      hide SendPending;
      sendArmed := false;
      log := Then(log, WriteFired);
      ghost var s1 := View();
      assert s1 == Note(old(View()).(sendArmed := false), WriteFired);
      SendPendingRound(s1);
      if |cache.unsent| == 0 {
        return;
      }
      SendPendingRpcMsgs();
      if |cache.unsent| != 0 {
        AskAgain();
      }
    }

    /** The write callback did not finish. */
    method AskAgain()
      modifies this
      ensures View() == Note(WakeOnWrite(old(View())), LeftOver)
    {
      WakeOnDpWriteAvail();
      log := Then(log, LeftOver);
    }

    method ConnectTimerCb()
      modifies this, cache, stats
      ensures View() == OnConnectTimer(old(View()))
    {
      timer := false;
      DpConnect();
    }

    method SendKeepalive()
      modifies this, cache, stats
      ensures View() == OnKeepalive(old(View()))
    {
      if connected && ready {
        SendRpcControl(false);
      }
    }

    method FiniDplaneRpc()
      modifies this, cache
      ensures View() == Finalize(old(View()))
    {
      hide FreeAll;
      SockClose();
      var pool := cache.EmptyList(PoolList);
      var unsent := cache.EmptyList(UnsentList);
      var inFlight := cache.EmptyList(InFlightList);
      log := FreeAll(FreeAll(FreeAll(log, pool), unsent), inFlight);
      status := Finished;
    }

    /** zd_hh_fini, early. */
    method FiniEarlyCb()
      modifies this
      ensures View() == Note(old(View()).(finalizing := true), Finalizing)
    {
      finalizing := true;
      log := Then(log, Finalizing);
    }

    /** FRR's event loop delivers one callback. */
    method Deliver(step: Step)
      modifies this, cache, stats
      ensures View() == Take(old(View()), step)
    {
      hide Work, OnWritable, OnReadable, OnConnectTimer, OnKeepalive, Finalize, Note;
      if status != Running {
        return;
      }
      env := step.env;
      assert View() == old(View()).(env := step.env);
      match step.callback
      case Arrive(c) =>
        inbox := inbox + [c];
      case Process(limit) =>
        ZdProcess(limit);
      case Writable =>
        if sendArmed {
          SockSendCb();
        }
      case Readable =>
        if recvArmed {
          DpRpcRecv();
        }
      case ConnectTimer =>
        if timer {
          ConnectTimerCb();
        }
      case Keepalive =>
        SendKeepalive();
      case FiniEarly =>
        FiniEarlyCb();
      case Fini =>
        FiniDplaneRpc();
    }
  }
}
