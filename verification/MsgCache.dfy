/** The message cache (hh_dp_msg_cache.c): a pool of idle messages, the queue of unsent ones and
    the queue of requests in flight. */
module MsgCache {
  import opened Messages

  const PREALLOCATED := 1000

  /** `created` counts the messages ever allocated (addresses below it are taken); `peak` is the
      highest number of messages that were ever out of the pool at once. */
  datatype Cache = Cache(pool: seq<Msg>, unsent: seq<Msg>, inFlight: seq<Msg>, created: nat, peak: int)

  function Max(a: int, b: int): int {
    if a < b then b else a
  }

  // ---- What the operations mean ----

  /** The message dp_msg_new returns. */
  function NewMsg(c: Cache): Msg {
    Blank(if c.pool == [] then c.created else c.pool[0].id)
  }

  function AfterNew(c: Cache): Cache {
    var c' := if c.pool == [] then c.(created := c.created + 1) else c.(pool := c.pool[1..]);
    c'.(peak := Max(c.peak, c'.created - |c'.pool|))
  }

  /** A message that still holds a context is not put back: it is leaked. */
  function Recycled(c: Cache, m: Msg): Cache {
    if m.ctx.Some? then c else c.(pool := c.pool + [m])
  }

  function Prepopulated(n: nat): seq<Msg> {
    if n == 0 then [] else Prepopulated(n - 1) + [Blank(n - 1)]
  }

  const INITIAL_CACHE := Cache(Prepopulated(PREALLOCATED), [], [], PREALLOCATED, 0)

  datatype ListName = PoolList | UnsentList | InFlightList

  function ListOf(c: Cache, which: ListName): seq<Msg> {
    match which case PoolList => c.pool case UnsentList => c.unsent case InFlightList => c.inFlight
  }

  function WithList(c: Cache, which: ListName, q: seq<Msg>): Cache {
    match which
    case PoolList => c.(pool := q)
    case UnsentList => c.(unsent := q)
    case InFlightList => c.(inFlight := q)
  }

  lemma SameList(c: Cache, which: ListName)
    ensures WithList(c, which, ListOf(c, which)) == c
  {
  }

  lemma ListReplaced(c: Cache, which: ListName, q: seq<Msg>, r: seq<Msg>)
    ensures WithList(WithList(c, which, q), which, r) == WithList(c, which, r)
    ensures ListOf(WithList(c, which, r), which) == r
  {
  }

  // ---- The cache itself ----

  class DpMsgCache {
    var pool: seq<Msg>
    var unsent: seq<Msg>
    var inFlight: seq<Msg>
    var created: nat
    ghost var peak: int

    ghost function View(): Cache
      reads this
    {
      Cache(pool, unsent, inFlight, created, peak)
    }

    constructor ()
      ensures View() == Cache([], [], [], 0, 0)
    {
      pool, unsent, inFlight := [], [], [];
      created, peak := 0, 0;
    }

    method Alloc() returns (m: Msg)
      modifies this
      ensures m == Blank(old(created))
      ensures View() == old(View()).(created := old(created) + 1)
    {
      m := Blank(created);
      created := created + 1;
    }

    /** Called once, on an empty cache. */
    method Init()
      requires View() == Cache([], [], [], 0, 0)
      modifies this
      ensures View() == INITIAL_CACHE
    {
      for i := 0 to PREALLOCATED
        invariant View() == Cache(Prepopulated(i), [], [], i, 0)
      {
        var m := Alloc();
        pool := pool + [m];
      }
    }

    method New() returns (m: Msg)
      modifies this
      ensures m == NewMsg(old(View())) == Blank(m.id)
      ensures View() == AfterNew(old(View()))
    {
      if |pool| == 0 {
        m := Alloc();
      } else {
        m := Blank(pool[0].id);
        pool := pool[1..];
      }
      peak := Max(peak, created - |pool|);
    }

    method Recycle(m: Msg)
      modifies this
      ensures View() == Recycled(old(View()), m)
    {
      if m.ctx.Some? {
        return;
      }
      pool := pool + [m];
    }

    method CacheUnsent(m: Msg)
      modifies this
      ensures View() == old(View()).(unsent := old(unsent) + [m])
    {
      unsent := unsent + [m];
    }

    method UnsentPushBack(m: Msg)
      modifies this
      ensures View() == old(View()).(unsent := [m] + old(unsent))
    {
      unsent := [m] + unsent;
    }

    method PopUnsent() returns (m: Option<Msg>)
      modifies this
      ensures old(unsent) == [] ==> m == None && View() == old(View())
      ensures old(unsent) != [] ==>
                m == Some(old(unsent)[0]) && View() == old(View()).(unsent := old(unsent)[1..])
    {
      if unsent == [] {
        return None;
      }
      m := Some(unsent[0]);
      unsent := unsent[1..];
    }

    /** Only requests may be in flight: the original aborts on anything else. */
    method CacheInFlight(m: Msg)
      requires m.typ == Request
      modifies this
      ensures View() == old(View()).(inFlight := old(inFlight) + [m])
    {
      inFlight := inFlight + [m];
    }

    method PopInFlight() returns (m: Option<Msg>)
      modifies this
      ensures old(inFlight) == [] ==> m == None && View() == old(View())
      ensures old(inFlight) != [] ==>
                m == Some(old(inFlight)[0]) && View() == old(View()).(inFlight := old(inFlight)[1..])
    {
      if inFlight == [] {
        return None;
      }
      m := Some(inFlight[0]);
      inFlight := inFlight[1..];
    }

    method PopFrom(which: ListName) returns (m: Option<Msg>)
      modifies this
      ensures var q := ListOf(old(View()), which);
              if q == [] then m == None && View() == old(View())
              else m == Some(q[0]) && View() == WithList(old(View()), which, q[1..])
    {
      match which
      case PoolList =>
        if pool == [] {
          return None;
        }
        m := Some(pool[0]);
        pool := pool[1..];
      case UnsentList =>
        m := PopUnsent();
      case InFlightList =>
        m := PopInFlight();
    }

    /** Every message of the list is released; `freed` says in what order. */
    method EmptyList(which: ListName) returns (freed: seq<Msg>)
      modifies this
      ensures View() == WithList(old(View()), which, [])
      ensures freed == ListOf(old(View()), which)
    {
      hide WithList, ListOf;
      freed := [];
      SameList(View(), which);
      while true
        invariant View() == WithList(old(View()), which, ListOf(View(), which))
        invariant freed + ListOf(View(), which) == ListOf(old(View()), which)
        decreases |ListOf(View(), which)|
      {
        ghost var q := ListOf(View(), which);
        var m := PopFrom(which);
        if m == None {
          return;
        }
        ListReplaced(old(View()), which, q, q[1..]);
        assert freed + q == (freed + [m.value]) + q[1..];
        freed := freed + [m.value];
      }
    }
  }

  // ---- The allocator ----

  /** The number of messages allocated is the number preallocated or the most that were ever out
      of the pool at once, whichever is more. */
  ghost predicate Tight(c: Cache) {
    && c.created == Max(PREALLOCATED, c.peak)
    && c.created - |c.pool| <= c.peak
  }

  lemma NewStaysTight(c: Cache)
    requires Tight(c)
    ensures Tight(AfterNew(c))
  {
  }

  lemma {:induction false} PrepopulatedIds(n: nat)
    ensures |Prepopulated(n)| == n
    ensures Ids(Prepopulated(n)) == UpTo(n)
    ensures forall i :: 0 <= i < n ==> Prepopulated(n)[i].ctx == None
  {
    if n > 0 {
      PrepopulatedIds(n - 1);
      IdsAppend(Prepopulated(n - 1), Blank(n - 1));
    }
  }

  /** Each address below `n`, once. */
  ghost function UpTo(n: nat): multiset<nat> {
    if n == 0 then multiset{} else UpTo(n - 1) + multiset{n - 1}
  }
}
