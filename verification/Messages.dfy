/** The records the plugin exchanges with the dataplane and with zebra. */
module Messages {

  datatype Option<+T> = None | Some(value: T)

  // ---- What zebra hands the plugin ----

  /** Operations of a zebra context. The operations that hh_process ignores without looking
      further share `ListedOther`; a code its switch does not list is `Unlisted`. */
  datatype DplaneOp =
    | RouteInstall | RouteUpdate | RouteDelete | RouteNotify
    | SysRouteAdd | SysRouteDelete
    | NhInstall | NhUpdate | NhDelete
    | AddrInstall | AddrUninstall
    | MacInstall | MacDelete
    | NeighInstall | NeighUpdate | NeighDelete | NeighDiscover | VtepAdd | VtepDelete
    | ListedOther
    | Unlisted

  datatype Afi = AfiIp | AfiL2vpn | AfiOther
  datatype Safi = SafiUnicast | SafiEvpn | SafiOther

  /** A next-hop of a route, with the two flags the plugin looks at; `payload` is the rest. */
  datatype NextHop = NextHop(active: bool, recursive: bool, payload: nat)

  /** A zebra dataplane context. */
  datatype Ctx = Ctx(id: nat, op: DplaneOp, afi: Afi, safi: Safi, vrf: nat, ipv4: bool, hops: seq<NextHop>)

  /** Status set on a context when it goes back to zebra. `BugValue` is the out-of-range value
      that hh_ret_to_zebra would return for a context that was queued. */
  datatype Verdict = Success | Failure | BugValue

  // ---- What goes over the socket ----

  datatype RpcOp = Connect | Add | Del | Update | Get
  datatype Object = NoObject | ConnInfo(synt: nat) | IfAddress | Rmac | IpRoute(hops: seq<NextHop>)
  datatype ObjType = NoneType | ConnInfoType | IfAddressType | RmacType | IpRouteType

  /** Result codes: `OtherCode` is any other code below RpcResultCodeMax, `BadCode` one at or above it. */
  datatype ResCode = Ok | Ignored | OtherCode(code: nat) | BadCode(code: nat)

  function TypeOf(obj: Object): ObjType {
    match obj
    case NoObject => NoneType
    case ConnInfo(_) => ConnInfoType
    case IfAddress => IfAddressType
    case Rmac => RmacType
    case IpRoute(_) => IpRouteType
  }

  /** `Zeroed` is the type field of a record that was just cleared. */
  datatype MsgType = Zeroed | Request | Control

  /** A message envelope (struct dp_msg). `id` is its address. */
  datatype Msg = Msg(id: nat, typ: MsgType, op: RpcOp, seqn: nat, obj: Object, refresh: bool, ctx: Option<Ctx>)

  function Blank(id: nat): Msg {
    Msg(id, Zeroed, Connect, 0, NoObject, false, None)
  }

  /** The statistics cell a request belongs to. */
  datatype Kind = Kind(op: RpcOp, obj: ObjType)

  function KindOf(m: Msg): Kind {
    Kind(m.op, TypeOf(m.obj))
  }

  /** A response; `info` is the synt of its first object, absent when it carries no object. */
  datatype Response = Response(op: RpcOp, seqn: nat, rescode: ResCode, info: Option<nat>)

  /** A decoded message from the dataplane. */
  datatype RpcMsg = ResponseMsg(resp: Response) | ControlMsg(refresh: bool) | RequestMsg | NotificationMsg | UnknownMsg

  // ---- Shapes of messages ----

  predicate IsConnect(m: Msg) {
    m.typ == Request && m.op == Connect
  }

  /** A request made on behalf of a context. */
  predicate IsWork(m: Msg) {
    m.typ == Request && m.op in {Add, Del, Update} && m.ctx.Some?
  }

  /** What may wait in the unsent queue. */
  predicate IsQueueable(m: Msg) {
    IsWork(m) || (m.typ == Control && m.ctx.None?)
  }

  predicate IsGoodConnect(m: Msg) {
    IsConnect(m) && m.seqn == 0 && m.ctx.None?
  }

  ghost predicate NoConnects(q: seq<Msg>) {
    forall i :: 0 <= i < |q| ==> !IsConnect(q[i])
  }

  ghost predicate ConnectLast(q: seq<Msg>) {
    |q| > 0 && IsConnect(q[|q| - 1]) && NoConnects(q[..|q| - 1])
  }

  lemma OnlyLastIsConnect(q: seq<Msg>)
    requires NoConnects(q) || ConnectLast(q)
    ensures forall i :: 0 <= i < |q| - 1 ==> !IsConnect(q[i])
  {
    assert forall i :: 0 <= i < |q| - 1 ==> q[i] == q[..|q| - 1][i];
  }

  function VerdictOf(code: ResCode): Verdict {
    if code == Ok || code == Ignored then Success else Failure
  }

  // ---- Measures of message lists ----

  /** Addresses in a list. */
  ghost function Ids(q: seq<Msg>): multiset<nat> {
    if q == [] then multiset{} else multiset{q[0].id} + Ids(q[1..])
  }

  function CtxBag(o: Option<Ctx>): multiset<Ctx> {
    match o case None => multiset{} case Some(c) => multiset{c}
  }

  /** Contexts held by a list. */
  ghost function Ctxs(q: seq<Msg>): multiset<Ctx> {
    if q == [] then multiset{} else CtxBag(q[0].ctx) + Ctxs(q[1..])
  }

  /** Sequence numbers of the requests in a list that are not Connects, in order. */
  function Seqns(q: seq<Msg>): seq<nat> {
    if q == [] then []
    else (if q[0].typ == Request && q[0].op != Connect then [q[0].seqn] else []) + Seqns(q[1..])
  }

  /** The requests in a list, in order. */
  function Requests(q: seq<Msg>): seq<Msg> {
    if q == [] then []
    else (if q[0].typ == Request then [q[0]] else []) + Requests(q[1..])
  }

  function CountKind(q: seq<Msg>, k: Kind): nat {
    if q == [] then 0
    else (if q[0].typ == Request && KindOf(q[0]) == k then 1 else 0) + CountKind(q[1..], k)
  }

  lemma {:induction false} IdsJoin(a: seq<Msg>, b: seq<Msg>)
    ensures Ids(a + b) == Ids(a) + Ids(b)
    ensures |Ids(a)| == |a|
  {
    if a == [] {
      assert a + b == b;
    } else {
      assert (a + b)[1..] == a[1..] + b;
      IdsJoin(a[1..], b);
    }
  }

  lemma {:induction false} CtxsJoin(a: seq<Msg>, b: seq<Msg>)
    ensures Ctxs(a + b) == Ctxs(a) + Ctxs(b)
  {
    if a == [] {
      assert a + b == b;
    } else {
      assert (a + b)[1..] == a[1..] + b;
      CtxsJoin(a[1..], b);
    }
  }

  lemma {:induction false} SeqnsJoin(a: seq<Msg>, b: seq<Msg>)
    ensures Seqns(a + b) == Seqns(a) + Seqns(b)
  {
    if a == [] {
      assert a + b == b;
    } else {
      assert (a + b)[1..] == a[1..] + b;
      SeqnsJoin(a[1..], b);
    }
  }

  lemma {:induction false} CountKindJoin(a: seq<Msg>, b: seq<Msg>, k: Kind)
    ensures CountKind(a + b, k) == CountKind(a, k) + CountKind(b, k)
  {
    if a == [] {
      assert a + b == b;
    } else {
      assert (a + b)[1..] == a[1..] + b;
      CountKindJoin(a[1..], b, k);
    }
  }

  lemma IdsHead(q: seq<Msg>)
    requires q != []
    ensures Ids(q) == multiset{q[0].id} + Ids(q[1..])
  {
  }

  lemma IdsAppend(q: seq<Msg>, m: Msg)
    ensures Ids(q + [m]) == Ids(q) + multiset{m.id}
  {
    IdsJoin(q, [m]);
  }

  lemma CtxsAppend(q: seq<Msg>, m: Msg)
    ensures Ctxs(q + [m]) == Ctxs(q) + CtxBag(m.ctx)
  {
    CtxsJoin(q, [m]);
  }
}
