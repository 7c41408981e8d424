/** The RPC statistics (hh_dp_rpc_stats.c). */
module RpcStats {
  import opened Messages
  import opened Trace

  datatype Stats = Stats(
    txOk: nat, txFailure: nat, txEagain: nat,
    rxOk: nat, rxFailure: nat, rxEagain: nat,
    encodeFailure: nat, decodeFailure: nat,
    requests: map<Kind, Cell>,
    controlTx: nat, controlRx: nat)

  const INITIAL_STATS := Stats(0, 0, 0, 0, 0, 0, 0, 0, map[], 0, 0)

  function CellOf(requests: map<Kind, Cell>, k: Kind): Cell {
    if k in requests then requests[k] else ZERO_CELL
  }

  function CountSent(st: Stats, k: Kind): Stats {
    var c := CellOf(st.requests, k);
    st.(requests := st.requests[k := c.(sent := c.sent + 1)])
  }

  function CountReplied(st: Stats, k: Kind, code: ResCode): Stats {
    st.(requests := st.requests[k := CountReply(CellOf(st.requests, k), code)])
  }

  /** Sum of the `sent` counters of the given kinds. */
  function SumSent(requests: map<Kind, Cell>, kinds: seq<Kind>): nat {
    if kinds == [] then 0 else CellOf(requests, kinds[0]).sent + SumSent(requests, kinds[1..])
  }

  function KindsOfOp(op: RpcOp): seq<Kind> {
    [Kind(op, NoneType), Kind(op, ConnInfoType), Kind(op, IfAddressType), Kind(op, RmacType), Kind(op, IpRouteType)]
  }

  /** Every cell of the table. */
  function AllKinds(): seq<Kind> {
    KindsOfOp(Connect) + KindsOfOp(Add) + KindsOfOp(Del) + KindsOfOp(Update) + KindsOfOp(Get)
  }

  class StatsTable {
    var txOk: nat
    var txFailure: nat
    var txEagain: nat
    var rxOk: nat
    var rxFailure: nat
    var rxEagain: nat
    var encodeFailure: nat
    var decodeFailure: nat
    var requests: map<Kind, Cell>
    var controlTx: nat
    var controlRx: nat

    ghost function View(): Stats
      reads this
    {
      Stats(txOk, txFailure, txEagain, rxOk, rxFailure, rxEagain, encodeFailure, decodeFailure,
            requests, controlTx, controlRx)
    }

    constructor ()
      ensures View() == INITIAL_STATS
    {
      txOk, txFailure, txEagain := 0, 0, 0;
      rxOk, rxFailure, rxEagain := 0, 0, 0;
      encodeFailure, decodeFailure := 0, 0;
      requests := map[];
      controlTx, controlRx := 0, 0;
    }

    method Tx()
      modifies this
      ensures View() == old(View()).(txOk := old(txOk) + 1)
    {
      txOk := txOk + 1;
    }

    method TxFailure()
      modifies this
      ensures View() == old(View()).(txFailure := old(txFailure) + 1)
    {
      txFailure := txFailure + 1;
    }

    method TxEagain()
      modifies this
      ensures View() == old(View()).(txEagain := old(txEagain) + 1)
    {
      txEagain := txEagain + 1;
    }

    method Rx()
      modifies this
      ensures View() == old(View()).(rxOk := old(rxOk) + 1)
    {
      rxOk := rxOk + 1;
    }

    method RxFailure()
      modifies this
      ensures View() == old(View()).(rxFailure := old(rxFailure) + 1)
    {
      rxFailure := rxFailure + 1;
    }

    method RxEagain()
      modifies this
      ensures View() == old(View()).(rxEagain := old(rxEagain) + 1)
    {
      rxEagain := rxEagain + 1;
    }

    method EncodeFailure()
      modifies this
      ensures View() == old(View()).(encodeFailure := old(encodeFailure) + 1)
    {
      encodeFailure := encodeFailure + 1;
    }

    method DecodeFailure()
      modifies this
      ensures View() == old(View()).(decodeFailure := old(decodeFailure) + 1)
    {
      decodeFailure := decodeFailure + 1;
    }

    method RequestSent(k: Kind)
      modifies this
      ensures View() == CountSent(old(View()), k)
    {
      var c := CellOf(requests, k);
      requests := requests[k := c.(sent := c.sent + 1)];
    }

    method RequestReplied(k: Kind, code: ResCode)
      modifies this
      ensures View() == CountReplied(old(View()), k, code)
    {
      var c := CellOf(requests, k);
      c := c.(replied := c.replied + 1);
      if !code.BadCode? {
        c := c.(codes := c.codes + multiset{code});
      } else {
        c := c.(unkErr := c.unkErr + 1);
      }
      requests := requests[k := c];
    }

    method ControlTx()
      modifies this
      ensures View() == old(View()).(controlTx := old(controlTx) + 1)
    {
      controlTx := controlTx + 1;
    }

    method ControlRx()
      modifies this
      ensures View() == old(View()).(controlRx := old(controlRx) + 1)
    {
      controlRx := controlRx + 1;
    }
  }

  // ---- The table and the history ----

  /** The counters say what happened. */
  ghost predicate Counted(txOk: nat, controlTx: nat, requests: map<Kind, Cell>, l: Log) {
    && txOk == TxCount(l)
    && controlTx == ControlCount(l)
    && forall k :: CellOf(requests, k) == Tally(l, k)
  }

  lemma CountedOther(txOk: nat, controlTx: nat, requests: map<Kind, Cell>, l: Log, e: Event)
    requires Counted(txOk, controlTx, requests, l)
    requires !e.Transmit? && !e.Settle? && !e.Purge?
    ensures Counted(txOk, controlTx, requests, Then(l, e))
  {
  }

  lemma CountedRequest(st: Stats, l: Log, m: Msg)
    requires Counted(st.txOk, st.controlTx, st.requests, l) && m.typ == Request
    ensures Counted(st.txOk + 1, st.controlTx, CountSent(st, KindOf(m)).requests, Then(l, Transmit(m)))
  {
  }

  lemma CountedControl(st: Stats, l: Log, m: Msg)
    requires Counted(st.txOk, st.controlTx, st.requests, l) && m.typ == Control
    ensures Counted(st.txOk + 1, st.controlTx + 1, st.requests, Then(l, Transmit(m)))
  {
  }

  lemma TallyReply(l: Log, m: Msg, e: Event, code: ResCode, k: Kind)
    requires e == Settle(m, code) || (e == Purge(m) && code == Ok)
    ensures Tally(Then(l, e), k) == if KindOf(m) == k then CountReply(Tally(l, k), code) else Tally(l, k)
  {
    hide CountReply;
  }

  lemma CountedReply(st: Stats, l: Log, m: Msg, e: Event, code: ResCode)
    requires Counted(st.txOk, st.controlTx, st.requests, l)
    requires e == Settle(m, code) || (e == Purge(m) && code == Ok)
    ensures Counted(st.txOk, st.controlTx, CountReplied(st, KindOf(m), code).requests, Then(l, e))
  {
    hide CountReply, Tally;
    var l1 := Then(l, e);
    forall k ensures CellOf(CountReplied(st, KindOf(m), code).requests, k) == Tally(l1, k) {
      TallyReply(l, m, e, code, k);
    }
    assert TxCount(l1) == TxCount(l) && ControlCount(l1) == ControlCount(l);
  }

  function Occurrences(kinds: seq<Kind>, k: Kind): nat {
    if kinds == [] then 0 else (if kinds[0] == k then 1 else 0) + Occurrences(kinds[1..], k)
  }

  lemma {:induction false} OccurrencesJoin(a: seq<Kind>, b: seq<Kind>, k: Kind)
    ensures Occurrences(a + b, k) == Occurrences(a, k) + Occurrences(b, k)
  {
    if a == [] {
      assert a + b == b;
    } else {
      assert (a + b)[1..] == a[1..] + b;
      OccurrencesJoin(a[1..], b, k);
    }
  }

  lemma OccurrencesOne(x: Kind, rest: seq<Kind>, k: Kind)
    ensures Occurrences([x] + rest, k) == (if x == k then 1 else 0) + Occurrences(rest, k)
  {
    assert ([x] + rest)[1..] == rest;
  }

  lemma OccurrencesOfOp(op: RpcOp, k: Kind)
    ensures Occurrences(KindsOfOp(op), k) == if op == k.op then 1 else 0
  {
    var q := KindsOfOp(op);
    assert q == [q[0]] + ([q[1]] + ([q[2]] + ([q[3]] + [q[4]])));
    OccurrencesOne(q[0], [q[1]] + ([q[2]] + ([q[3]] + [q[4]])), k);
    OccurrencesOne(q[1], [q[2]] + ([q[3]] + [q[4]]), k);
    OccurrencesOne(q[2], [q[3]] + [q[4]], k);
    OccurrencesOne(q[3], [q[4]], k);
    assert [q[4]] == [q[4]] + [];
    OccurrencesOne(q[4], [], k);
    assert k.obj.NoneType? || k.obj.ConnInfoType? || k.obj.IfAddressType? || k.obj.RmacType? || k.obj.IpRouteType?;
    assert k == Kind(k.op, k.obj);
  }

  /** The table has each cell once. */
  lemma EachKindOnce(k: Kind)
    ensures Occurrences(AllKinds(), k) == 1
  {
    var a := KindsOfOp(Connect) + KindsOfOp(Add);
    var b := a + KindsOfOp(Del);
    var c := b + KindsOfOp(Update);
    OccurrencesJoin(KindsOfOp(Connect), KindsOfOp(Add), k);
    OccurrencesJoin(a, KindsOfOp(Del), k);
    OccurrencesJoin(b, KindsOfOp(Update), k);
    OccurrencesJoin(c, KindsOfOp(Get), k);
    OccurrencesOfOp(Connect, k);
    OccurrencesOfOp(Add, k);
    OccurrencesOfOp(Del, k);
    OccurrencesOfOp(Update, k);
    OccurrencesOfOp(Get, k);
  }

  /** Sum, over the given kinds, of the requests of that kind transmitted in `l`. */
  function SumTally(l: Log, kinds: seq<Kind>): nat {
    if kinds == [] then 0 else Tally(l, kinds[0]).sent + SumTally(l, kinds[1..])
  }

  lemma {:induction false} SumTallyStep(p: Log, e: Event, kinds: seq<Kind>)
    ensures SumTally(Then(p, e), kinds) ==
            SumTally(p, kinds) + if e.Transmit? && e.m.typ == Request then Occurrences(kinds, KindOf(e.m)) else 0
  {
    if kinds != [] {
      SumTallyStep(p, e, kinds[1..]);
    }
  }

  lemma {:induction false} SumSentIsSumTally(requests: map<Kind, Cell>, l: Log, kinds: seq<Kind>)
    requires forall k :: CellOf(requests, k) == Tally(l, k)
    ensures SumSent(requests, kinds) == SumTally(l, kinds)
  {
    if kinds != [] {
      SumSentIsSumTally(requests, l, kinds[1..]);
    }
  }

  lemma {:induction false} SumOfNothing(kinds: seq<Kind>)
    ensures SumTally(Nothing, kinds) == 0
  {
    if kinds != [] {
      SumOfNothing(kinds[1..]);
    }
  }

  /** What was transmitted is the requests of every kind plus the controls. */
  lemma {:induction false} TxIsSum(l: Log)
    requires WellSent(l)
    ensures TxCount(l) == SumTally(l, AllKinds()) + ControlCount(l)
  {
    match l
    case Nothing =>
      SumOfNothing(AllKinds());
    case Then(p, e) =>
      TxIsSum(p);
      SumTallyStep(p, e, AllKinds());
      if e.Transmit? {
        EachKindOnce(KindOf(e.m));
      }
  }

  /** A cell's replies split into its result codes and its unknown ones. */
  lemma {:induction false} RepliesSplit(l: Log, k: Kind)
    ensures var c := Tally(l, k); c.replied == |c.codes| + c.unkErr
  {
    match l
    case Nothing =>
    case Then(p, _) => RepliesSplit(p, k);
  }

  /** How many requests of the kind were answered with the code; those purged count as Ok. */
  function CodeCount(l: Log, k: Kind, code: ResCode): nat {
    match l
    case Nothing => 0
    case Then(p, Settle(m, c)) => CodeCount(p, k, code) + if KindOf(m) == k && c == code then 1 else 0
    case Then(p, Purge(m)) => CodeCount(p, k, code) + if KindOf(m) == k && code == Ok then 1 else 0
    case Then(p, _) => CodeCount(p, k, code)
  }

  /** How many were answered with a code out of range. */
  function BadCount(l: Log, k: Kind): nat {
    match l
    case Nothing => 0
    case Then(p, Settle(m, c)) => BadCount(p, k) + if KindOf(m) == k && c.BadCode? then 1 else 0
    case Then(p, _) => BadCount(p, k)
  }

  lemma TallyOther(l: Log, e: Event, k: Kind)
    requires !e.Settle? && !e.Purge?
    ensures Tally(Then(l, e), k).codes == Tally(l, k).codes && Tally(Then(l, e), k).unkErr == Tally(l, k).unkErr
  {
  }

  lemma ReplyCounters(c: Cell, answer: ResCode, code: ResCode)
    ensures var d := CountReply(c, answer);
            && (!code.BadCode? ==> d.codes[code] == c.codes[code] + if answer == code then 1 else 0)
            && d.unkErr == c.unkErr + if answer.BadCode? then 1 else 0
  {
  }

  lemma CountsStep(l: Log, e: Event, k: Kind, code: ResCode)
    ensures CodeCount(Then(l, e), k, code) == CodeCount(l, k, code) +
            if (e.Settle? && KindOf(e.m) == k && e.code == code) || (e.Purge? && KindOf(e.m) == k && code == Ok)
            then 1 else 0
    ensures BadCount(Then(l, e), k) == BadCount(l, k) + if e.Settle? && KindOf(e.m) == k && e.code.BadCode? then 1 else 0
  {
  }

  /** Each result code is counted in its own counter. */
  lemma {:induction false} CodesCounted(l: Log, k: Kind, code: ResCode)
    ensures !code.BadCode? ==> Tally(l, k).codes[code] == CodeCount(l, k, code)
    ensures Tally(l, k).unkErr == BadCount(l, k)
  {
    match l
    case Nothing =>
    case Then(p, e) =>
      hide CountReply, Tally, CodeCount, BadCount, KindOf;
      CodesCounted(p, k, code);
      CountsStep(p, e, k, code);
      if e.Settle? || e.Purge? {
        var answer := if e.Settle? then e.code else Ok;
        TallyReply(p, e.m, e, answer, k);
        ReplyCounters(Tally(p, k), answer, code);
      } else {
        TallyOther(p, e, k);
      }
  }

  /** Requests of a kind that were popped: the replied ones and the dropped ones. */
  lemma {:induction false} PoppedCount(l: Log, k: Kind)
    requires PoppedAreRequests(l)
    ensures CountKind(Popped(l), k) == Tally(l, k).replied + DropCount(l, k)
  {
    match l
    case Nothing =>
    case Then(p, e) =>
      PoppedCount(p, k);
      if e.Settle? || e.Purge? || e.Drop? {
        CountKindJoin(Popped(p), [e.m], k);
      }
  }

  lemma {:induction false} SentCount(l: Log, k: Kind)
    ensures CountKind(SentRequests(l), k) == Tally(l, k).sent
  {
    match l
    case Nothing =>
    case Then(p, e) =>
      SentCount(p, k);
      if e.Transmit? {
        CountKindJoin(SentRequests(p), [e.m], k);
      }
  }

  predicate PoppedAreRequests(l: Log) {
    match l
    case Nothing => true
    case Then(p, Settle(m, _)) => m.typ == Request && PoppedAreRequests(p)
    case Then(p, Purge(m)) => m.typ == Request && PoppedAreRequests(p)
    case Then(p, Drop(m)) => m.typ == Request && PoppedAreRequests(p)
    case Then(p, _) => PoppedAreRequests(p)
  }
}
