/** The dataplane on the other side of the socket, seen through a run's history. It answers each
    request once and in order, and acknowledges every Connect with a sync token it never used
    before. A broken link means that it restarted: some of the replies of the former incarnation,
    a suffix of them, may then never arrive. */
module Dataplane {
  import opened Messages
  import opened Trace

  /** `former`: requests of former incarnations whose reply may still arrive; `current`: unanswered
      requests of the present one; `used`: sync tokens reported so far. */
  datatype Peer = Peer(former: seq<Msg>, current: seq<Msg>, used: set<nat>)

  /** `resp` is a reply the dataplane could give to `m`. */
  predicate Replies(p: Peer, resp: Response, m: Msg) {
    && resp.op == m.op && resp.seqn == m.seqn
    && (m.op == Connect ==> resp.info.Some? && resp.info.value != 0 && resp.info.value !in p.used)
  }

  function Tokens(resp: Response): set<nat> {
    if resp.op == Connect && resp.info.Some? then {resp.info.value} else {}
  }

  predicate RepliesFormer(p: Peer, resp: Response) {
    p.former != [] && Replies(p, resp, p.former[0])
  }

  predicate RepliesCurrent(p: Peer, resp: Response) {
    p.current != [] && Replies(p, resp, p.current[0])
  }

  /** A reply from the present incarnation shows that the missing old ones were lost. */
  function Deliver(p: Peer, resp: Response): Peer {
    if RepliesFormer(p, resp) then Peer(p.former[1..], p.current, p.used + Tokens(resp))
    else if RepliesCurrent(p, resp) then Peer([], p.current[1..], p.used + Tokens(resp))
    else p
  }

  function PeerOf(l: Log): Peer {
    match l
    case Nothing => Peer([], [], {})
    case Then(q, Transmit(m)) =>
      var p := PeerOf(q);
      if m.typ == Request then p.(current := p.current + [m]) else p
    case Then(q, LinkDown) => var p := PeerOf(q); Peer(p.former + p.current, [], p.used)
    case Then(q, Receive(ResponseMsg(resp))) => Deliver(PeerOf(q), resp)
    case Then(q, _) => PeerOf(q)
  }

  /** Every response received so far is one that the dataplane could give. */
  predicate PeerOk(l: Log) {
    match l
    case Nothing => true
    case Then(q, Receive(ResponseMsg(resp))) =>
      (RepliesFormer(PeerOf(q), resp) || RepliesCurrent(PeerOf(q), resp)) && PeerOk(q)
    case Then(q, _) => PeerOk(q)
  }
}
