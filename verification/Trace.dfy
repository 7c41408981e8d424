/** The history of a run: every observable thing the plugin did, in order, and what the
    properties of a run say about it. */
module Trace {
  import opened Messages
  import opened Process

  datatype Event =
    | Dequeue(c: Ctx)                // context taken from zebra
    | SkipKernel(c: Ctx)             // zebra told not to install the context's route in the kernel
    | HandBack(c: Ctx, v: Verdict)   // context returned to zebra
    | Submit(m: Msg)                 // message put at the tail of the unsent queue
    | Transmit(m: Msg)               // message accepted whole by the socket
    | Blocked                        // transmission refused for lack of room
    | LeftOver                       // write callback ended with messages still unsent
    | WriteFired                     // write event delivered
    | LinkDown                       // connection error, or socket closed
    | Receive(msg: RpcMsg)           // message decoded
    | Accept                         // dataplane became ready
    | Settle(m: Msg, code: ResCode)  // request popped and matched with its response
    | Purge(m: Msg)                  // request popped because the dataplane restarted
    | Drop(m: Msg)                   // request popped, but the response was for another one
    | Orphan                         // response received with nothing in flight
    | Refresh                        // zebra asked to replay its state
    | Finalizing                     // early shutdown announced
    | Free(m: Msg)                   // message, and the context it still holds, released

  datatype Log = Nothing | Then(past: Log, last: Event)

  // ---- Projections ----

  /** Messages that entered the unsent queue. */
  function Submitted(l: Log): seq<Msg> {
    match l
    case Nothing => []
    case Then(p, Submit(m)) => Submitted(p) + [m]
    case Then(p, _) => Submitted(p)
  }

  /** Sequence numbers issued, in order. */
  function Numbers(l: Log): seq<nat> {
    match l
    case Nothing => []
    case Then(p, Submit(m)) => if m.typ == Request then Numbers(p) + [m.seqn] else Numbers(p)
    case Then(p, _) => Numbers(p)
  }

  /** Messages transmitted, Connects left out. */
  function SentQueued(l: Log): seq<Msg> {
    match l
    case Nothing => []
    case Then(p, Transmit(m)) => if IsConnect(m) then SentQueued(p) else SentQueued(p) + [m]
    case Then(p, _) => SentQueued(p)
  }

  /** Requests transmitted, Connects included. */
  function SentRequests(l: Log): seq<Msg> {
    match l
    case Nothing => []
    case Then(p, Transmit(m)) => if m.typ == Request then SentRequests(p) + [m] else SentRequests(p)
    case Then(p, _) => SentRequests(p)
  }

  /** Requests taken off the in-flight queue. */
  function Popped(l: Log): seq<Msg> {
    match l
    case Nothing => []
    case Then(p, Settle(m, _)) => Popped(p) + [m]
    case Then(p, Purge(m)) => Popped(p) + [m]
    case Then(p, Drop(m)) => Popped(p) + [m]
    case Then(p, _) => Popped(p)
  }

  // ---- Contexts ----

  function Dequeued(l: Log): multiset<Ctx> {
    match l
    case Nothing => multiset{}
    case Then(p, Dequeue(c)) => Dequeued(p) + multiset{c}
    case Then(p, _) => Dequeued(p)
  }

  function Returned(l: Log): multiset<Ctx> {
    match l
    case Nothing => multiset{}
    case Then(p, HandBack(c, _)) => Returned(p) + multiset{c}
    case Then(p, _) => Returned(p)
  }

  /** What was returned to zebra, in order. */
  function Verdicts(l: Log): seq<(Ctx, Verdict)> {
    match l
    case Nothing => []
    case Then(p, HandBack(c, v)) => Verdicts(p) + [(c, v)]
    case Then(p, _) => Verdicts(p)
  }

  /** Contexts whose routes zebra was told not to install in the kernel, in order. */
  function Spared(l: Log): seq<Ctx> {
    match l
    case Nothing => []
    case Then(p, SkipKernel(c)) => Spared(p) + [c]
    case Then(p, _) => Spared(p)
  }

  /** Messages received, in order. */
  function Heard(l: Log): seq<RpcMsg> {
    match l
    case Nothing => []
    case Then(p, Receive(msg)) => Heard(p) + [msg]
    case Then(p, _) => Heard(p)
  }

  /** How many times zebra was asked to replay its state. */
  function Refreshes(l: Log): nat {
    match l
    case Nothing => 0
    case Then(p, Refresh) => Refreshes(p) + 1
    case Then(p, _) => Refreshes(p)
  }

  /** How many transmissions were refused for lack of room. */
  function Blocks(l: Log): nat {
    match l
    case Nothing => 0
    case Then(p, Blocked) => Blocks(p) + 1
    case Then(p, _) => Blocks(p)
  }

  /** Contexts of submitted messages. */
  function Queued(l: Log): multiset<Ctx> {
    match l
    case Nothing => multiset{}
    case Then(p, Submit(m)) => Queued(p) + CtxBag(m.ctx)
    case Then(p, _) => Queued(p)
  }

  /** Contexts of requests that were answered or purged. */
  function Resolved(l: Log): multiset<Ctx> {
    match l
    case Nothing => multiset{}
    case Then(p, Settle(m, _)) => Resolved(p) + CtxBag(m.ctx)
    case Then(p, Purge(m)) => Resolved(p) + CtxBag(m.ctx)
    case Then(p, _) => Resolved(p)
  }

  /** Contexts of dropped requests. */
  function Lost(l: Log): multiset<Ctx> {
    match l
    case Nothing => multiset{}
    case Then(p, Drop(m)) => Lost(p) + CtxBag(m.ctx)
    case Then(p, _) => Lost(p)
  }

  /** Addresses of dropped messages that could not be recycled, since they still held a context. */
  function Leaked(l: Log): multiset<nat> {
    match l
    case Nothing => multiset{}
    case Then(p, Drop(m)) => if m.ctx.Some? then Leaked(p) + multiset{m.id} else Leaked(p)
    case Then(p, _) => Leaked(p)
  }

  function Freed(l: Log): multiset<nat> {
    match l
    case Nothing => multiset{}
    case Then(p, Free(m)) => Freed(p) + multiset{m.id}
    case Then(p, _) => Freed(p)
  }

  function FreedCtxs(l: Log): multiset<Ctx> {
    match l
    case Nothing => multiset{}
    case Then(p, Free(m)) => FreedCtxs(p) + CtxBag(m.ctx)
    case Then(p, _) => FreedCtxs(p)
  }

  predicate NothingFreed(l: Log) {
    match l
    case Nothing => true
    case Then(_, Free(_)) => false
    case Then(p, _) => NothingFreed(p)
  }

  // ---- Gating ----

  /** The last thing that concerned the session was its opening. */
  predicate Open(l: Log) {
    match l
    case Nothing => false
    case Then(_, Accept) => true
    case Then(_, LinkDown) => false
    case Then(p, _) => Open(p)
  }

  /** No message but a Connect was ever transmitted outside an open session. */
  predicate Gated(l: Log) {
    match l
    case Nothing => true
    case Then(p, Transmit(m)) => (IsConnect(m) || Open(p)) && Gated(p)
    case Then(p, _) => Gated(p)
  }

  /** The last event is the settling of a Connect with an Ok. */
  predicate ConnectAcked(l: Log) {
    match l
    case Then(_, Settle(m, code)) => IsConnect(m) && code == Ok
    case _ => false
  }

  /** Every session opened on an Ok to a Connect, with no request outstanding. */
  predicate CleanStarts(l: Log) {
    match l
    case Nothing => true
    case Then(p, Accept) => ConnectAcked(p) && SentRequests(p) == Popped(p) && CleanStarts(p)
    case Then(p, _) => CleanStarts(p)
  }

  /** The message received last, if it was a response. */
  function LastResponse(l: Log): Option<Response> {
    match l
    case Nothing => None
    case Then(_, Receive(msg)) => if msg.ResponseMsg? then Some(msg.resp) else None
    case Then(p, _) => LastResponse(p)
  }

  /** The sync token last reported by a dataplane that became ready; none, at first. */
  function KnownSynt(l: Log): nat {
    match l
    case Nothing => 0
    case Then(p, Accept) =>
      var last := LastResponse(p);
      if last.Some? && last.value.info.Some? then last.value.info.value else KnownSynt(p)
    case Then(p, _) => KnownSynt(p)
  }

  /** Every Connect told the dataplane the token last reported. */
  predicate Introduced(l: Log) {
    match l
    case Nothing => true
    case Then(p, Transmit(m)) => (IsConnect(m) ==> m.obj == ConnInfo(KnownSynt(p))) && Introduced(p)
    case Then(p, _) => Introduced(p)
  }

  predicate Fits(m: Msg, code: ResCode, last: Option<Response>) {
    last.Some? && last.value.op == m.op && last.value.rescode == code
    && (last.value.seqn == m.seqn || (IsConnect(m) && last.value.info.Some?))
  }

  /** Every request that was settled got the code of a response to that very request (a Connect
      met during a purge is matched by operation alone), and every purge was set off by a Connect
      response that reported a synt. */
  predicate Matched(l: Log) {
    match l
    case Nothing => true
    case Then(p, Settle(m, code)) => Fits(m, code, LastResponse(p)) && Matched(p)
    case Then(p, Purge(_)) =>
      var last := LastResponse(p);
      last.Some? && last.value.op == Connect && last.value.info.Some? && Matched(p)
    case Then(p, _) => Matched(p)
  }

  /** Every transmitted message has one of the three shapes the plugin makes. */
  predicate WellSent(l: Log) {
    match l
    case Nothing => true
    case Then(p, Transmit(m)) => (IsQueueable(m) || IsGoodConnect(m)) && WellSent(p)
    case Then(p, _) => WellSent(p)
  }

  /** A write notification is owed. */
  predicate WantsWrite(l: Log) {
    match l
    case Nothing => false
    case Then(_, Blocked) => true
    case Then(_, LeftOver) => true
    case Then(_, WriteFired) => false
    case Then(p, _) => WantsWrite(p)
  }

  // ---- Verdicts ----

  predicate ShuttingDown(l: Log) {
    match l
    case Nothing => false
    case Then(_, Finalizing) => true
    case Then(p, _) => ShuttingDown(p)
  }

  /** The verdict `v` for `c`, given right after `l`, has a reason: the response to the request of
      `c`, a purge, the shutdown, or that `c` does not concern the dataplane. */
  predicate Reason(l: Log, c: Ctx, v: Verdict) {
    match l
    case Then(_, Settle(m, code)) => m.ctx == Some(c) && v == if code == Ok || code == Ignored then Success else Failure
    case Then(_, Purge(m)) => m.ctx == Some(c) && v == Success
    case Then(p, Dequeue(d)) =>
      && d == c
      && (if ShuttingDown(p) then v == Failure
          else !ConcernsDataplane(c) && v == if c.op == Unlisted then Failure else Success)
    case Then(Then(p, Dequeue(d)), SkipKernel(e)) =>
      d == c && e == c && !ShuttingDown(p) && SparesKernel(c) && !ConcernsDataplane(c) && v == Success
    case _ => false
  }

  /** Every verdict had a reason, and every request submitted for a context suits it, and was not
      submitted after shutdown began. */
  ghost predicate Justified(l: Log) {
    match l
    case Nothing => true
    case Then(p, HandBack(c, v)) => Reason(p, c, v) && v != BugValue && Justified(p)
    case Then(p, Submit(m)) =>
      (m.ctx.Some? ==> !ShuttingDown(p) && Suits(m.op, m.obj, m.ctx.value)) && Justified(p)
    case Then(p, _) => Justified(p)
  }

  /** No response ever missed the request it was for. */
  predicate NoMisses(l: Log) {
    match l
    case Nothing => true
    case Then(_, Drop(_)) => false
    case Then(_, Orphan) => false
    case Then(p, _) => NoMisses(p)
  }

  // ---- Counts ----

  /** A statistics cell; `codes[c]` is the counter of result code `c`. */
  datatype Cell = Cell(sent: nat, replied: nat, unkErr: nat, codes: multiset<ResCode>)

  const ZERO_CELL := Cell(0, 0, 0, multiset{})

  function CountReply(c: Cell, code: ResCode): Cell {
    if code.BadCode? then c.(replied := c.replied + 1, unkErr := c.unkErr + 1)
    else c.(replied := c.replied + 1, codes := c.codes + multiset{code})
  }

  /** What the cell of `k` must hold after `l`. */
  function Tally(l: Log, k: Kind): Cell {
    match l
    case Nothing => ZERO_CELL
    case Then(p, Transmit(m)) =>
      var c := Tally(p, k);
      if m.typ == Request && KindOf(m) == k then c.(sent := c.sent + 1) else c
    case Then(p, Settle(m, code)) =>
      var c := Tally(p, k);
      if KindOf(m) == k then CountReply(c, code) else c
    case Then(p, Purge(m)) =>
      var c := Tally(p, k);
      if KindOf(m) == k then CountReply(c, Ok) else c
    case Then(p, _) => Tally(p, k)
  }

  function TxCount(l: Log): nat {
    match l
    case Nothing => 0
    case Then(p, Transmit(_)) => TxCount(p) + 1
    case Then(p, _) => TxCount(p)
  }

  function ControlCount(l: Log): nat {
    match l
    case Nothing => 0
    case Then(p, Transmit(m)) => if m.typ == Control then ControlCount(p) + 1 else ControlCount(p)
    case Then(p, _) => ControlCount(p)
  }

  function DropCount(l: Log, k: Kind): nat {
    match l
    case Nothing => 0
    case Then(p, Drop(m)) => if KindOf(m) == k then DropCount(p, k) + 1 else DropCount(p, k)
    case Then(p, _) => DropCount(p, k)
  }
}
