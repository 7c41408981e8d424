/** What the plugin does with each zebra context (hh_dp_process.c) and which next-hops of a
    route it sends (hh_dp_msg.c). */
module Process {
  import opened Messages

  datatype HhRes = HhOk | HhFail | HhQueued | HhIgnored | HhBug

  function HhRetToZebra(r: HhRes): Verdict {
    match r
    case HhOk => Success
    case HhFail => Failure
    case HhQueued => BugValue
    case HhIgnored => Success
    case HhBug => Failure
  }

  /** Decision about a context: answer it at once, or send a request for it. `skipKernel` tells
      that zebra is asked not to install the route in the kernel. */
  datatype Action = Answer(res: HhRes) | Send(op: RpcOp, obj: Object)
  datatype Plan = Plan(action: Action, skipKernel: bool)

  // ---- Next-hop selection ----

  predicate AnyRecursive(hops: seq<NextHop>) {
    exists h :: h in hops && h.recursive
  }

  predicate Wanted(h: NextHop, anyRecursive: bool) {
    h.active && (anyRecursive ==> h.recursive)
  }

  function Keep(hops: seq<NextHop>, anyRecursive: bool): seq<NextHop> {
    if hops == [] then []
    else (if Wanted(hops[0], anyRecursive) then [hops[0]] else []) + Keep(hops[1..], anyRecursive)
  }

  /** The next-hops put in a route request. */
  function Selected(hops: seq<NextHop>): seq<NextHop> {
    Keep(hops, AnyRecursive(hops))
  }

  // ---- Dispatch ----

  function PlanRoute(c: Ctx): Plan {
    if c.afi == AfiOther then Plan(Answer(HhIgnored), false)
    else if c.safi == SafiOther then Plan(Answer(HhIgnored), false)
    else
      var skip := c.vrf != 0;
      match c.op
      case RouteInstall => Plan(Send(Add, IpRoute(Selected(c.hops))), skip)
      case RouteUpdate => Plan(Send(Update, IpRoute(Selected(c.hops))), skip)
      case RouteDelete => Plan(Send(Del, IpRoute(Selected(c.hops))), skip)
      case RouteNotify => Plan(Answer(HhIgnored), skip)
      case SysRouteAdd => Plan(Answer(HhIgnored), skip)
      case SysRouteDelete => Plan(Answer(HhIgnored), skip)
      case _ => Plan(Answer(HhBug), skip)
  }

  function PlanIfaddr(c: Ctx): Action {
    if !c.ipv4 then Answer(HhIgnored)
    else
      match c.op
      case AddrInstall => Send(Add, IfAddress)
      case AddrUninstall => Send(Del, IfAddress)
      case _ => Answer(HhBug)
  }

  function PlanMac(c: Ctx): Action {
    match c.op
    case MacInstall => Send(Add, Rmac)
    case MacDelete => Send(Del, Rmac)
    case _ => Answer(HhBug)
  }

  function ProcessNeigh(c: Ctx): HhRes {
    if c.op in {NeighInstall, NeighUpdate, NeighDelete, NeighDiscover, VtepAdd, VtepDelete} then HhIgnored else HhBug
  }

  function ProcessNh(c: Ctx): HhRes {
    if c.op in {NhInstall, NhUpdate, NhDelete} then HhIgnored else HhBug
  }

  function PlanFor(c: Ctx): Plan {
    match c.op
    case RouteInstall | RouteUpdate | RouteDelete | RouteNotify | SysRouteAdd | SysRouteDelete => PlanRoute(c)
    case NhInstall | NhUpdate | NhDelete => Plan(Answer(ProcessNh(c)), false)
    case AddrInstall | AddrUninstall => Plan(PlanIfaddr(c), false)
    case MacInstall | MacDelete => Plan(PlanMac(c), false)
    case NeighInstall | NeighUpdate | NeighDelete | NeighDiscover | VtepAdd | VtepDelete =>
      Plan(Answer(ProcessNeigh(c)), false)
    case ListedOther => Plan(Answer(HhIgnored), false)
    case Unlisted => Plan(Answer(HhFail), false)
  }

  // ---- What the dispatch amounts to ----

  /** Routes of the address families the plugin cares about. */
  predicate KnownFamily(c: Ctx) {
    c.afi != AfiOther && c.safi != SafiOther
  }

  /** The dataplane is to be told of the context. */
  predicate ConcernsDataplane(c: Ctx) {
    || (c.op in {RouteInstall, RouteUpdate, RouteDelete} && KnownFamily(c))
    || (c.op in {AddrInstall, AddrUninstall} && c.ipv4)
    || c.op in {MacInstall, MacDelete}
  }

  /** The kernel is to be spared the route. */
  predicate SparesKernel(c: Ctx) {
    && c.op in {RouteInstall, RouteUpdate, RouteDelete, RouteNotify, SysRouteAdd, SysRouteDelete}
    && KnownFamily(c) && c.vrf != 0
  }

  /** How many of the first `i` next-hops are active and, if `any`, recursive. */
  function Rank(hops: seq<NextHop>, any: bool, i: nat): nat
    requires i <= |hops|
  {
    if i == 0 then 0
    else Rank(hops, any, i - 1) + if hops[i - 1].active && (any ==> hops[i - 1].recursive) then 1 else 0
  }

  /** `kept` is what is wanted of `hops`, in order and nothing else: the active ones, and of these the
      recursive ones should any of the group, active or not, be recursive. */
  ghost predicate IsSelection(kept: seq<NextHop>, hops: seq<NextHop>) {
    var any := exists h :: h in hops && h.recursive;
    && |kept| == Rank(hops, any, |hops|)
    && forall i :: 0 <= i < |hops| && hops[i].active && (any ==> hops[i].recursive) ==>
         Rank(hops, any, i) < |kept| && kept[Rank(hops, any, i)] == hops[i]
  }

  /** A request that does what the context asks for. */
  ghost predicate Suits(op: RpcOp, obj: Object, c: Ctx) {
    match c.op
    case RouteInstall => op == Add && KnownFamily(c) && obj.IpRoute? && IsSelection(obj.hops, c.hops)
    case RouteUpdate => op == Update && KnownFamily(c) && obj.IpRoute? && IsSelection(obj.hops, c.hops)
    case RouteDelete => op == Del && KnownFamily(c) && obj.IpRoute? && IsSelection(obj.hops, c.hops)
    case AddrInstall => op == Add && c.ipv4 && obj == IfAddress
    case AddrUninstall => op == Del && c.ipv4 && obj == IfAddress
    case MacInstall => op == Add && obj == Rmac
    case MacDelete => op == Del && obj == Rmac
    case _ => false
  }
}
