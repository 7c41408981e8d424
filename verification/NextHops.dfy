/** The next-hops that send_rpc_request_iproute puts in a request. */
module NextHops {
  import opened Messages
  import opened Process

  predicate NoneBefore(hops: seq<NextHop>, i: nat)
    requires i <= |hops|
  {
    forall j :: 0 <= j < i ==> !hops[j].recursive
  }

  lemma SomeRecursive(hops: seq<NextHop>, i: nat)
    requires i < |hops| && hops[i].recursive
    ensures AnyRecursive(hops)
  {
  }

  lemma NoneRecursive(hops: seq<NextHop>)
    ensures NoneBefore(hops, |hops|) ==> !AnyRecursive(hops)
  {
  }

  lemma KeepFrom(hops: seq<NextHop>, any: bool, i: nat)
    requires i < |hops|
    ensures Keep(hops[i..], any) == (if Wanted(hops[i], any) then [hops[i]] else []) + Keep(hops[i + 1..], any)
  {
    assert hops[i..][1..] == hops[i + 1..];
  }

  lemma KeepWhole(hops: seq<NextHop>, any: bool)
    ensures [] + Keep(hops[0..], any) == Keep(hops, any)
    ensures Keep(hops[|hops|..], any) == []
  {
    assert hops[0..] == hops;
  }

  /** Two passes over the group: the first looks for a recursive next-hop, active or not; the second
      collects. */
  method SelectNextHops(hops: seq<NextHop>) returns (selected: seq<NextHop>)
    ensures selected == Selected(hops)
  {
    hide Keep, AnyRecursive;
    var anyRecursive := false;
    for i := 0 to |hops|
      invariant !anyRecursive
      invariant NoneBefore(hops, i)
    {
      if hops[i].recursive {
        SomeRecursive(hops, i);
        anyRecursive := true;
        break;
      }
    }
    NoneRecursive(hops);
    assert anyRecursive == AnyRecursive(hops);
    KeepWhole(hops, anyRecursive);
    selected := [];
    for i := 0 to |hops|
      invariant selected + Keep(hops[i..], anyRecursive) == Keep(hops, anyRecursive)
    {
      KeepFrom(hops, anyRecursive, i);
      if hops[i].active {
        if (anyRecursive && hops[i].recursive) || !anyRecursive {
          selected := selected + [hops[i]];
        }
      }
    }
  }

  lemma {:induction false} RankTail(hops: seq<NextHop>, any: bool, i: nat)
    requires 0 < i <= |hops|
    ensures Rank(hops, any, i) == (if Wanted(hops[0], any) then 1 else 0) + Rank(hops[1..], any, i - 1)
  {
    if i > 1 {
      RankTail(hops, any, i - 1);
    }
  }

  lemma {:induction false} KeptInPlace(hops: seq<NextHop>, any: bool, i: nat)
    requires i < |hops|
    ensures |Keep(hops, any)| == Rank(hops, any, |hops|)
    ensures Wanted(hops[i], any) ==>
              Rank(hops, any, i) < |Keep(hops, any)| && Keep(hops, any)[Rank(hops, any, i)] == hops[i]
  {
    RankTail(hops, any, |hops|);
    if |hops| > 1 {
      KeptInPlace(hops[1..], any, if i > 0 then i - 1 else 0);
    }
    if i > 0 {
      RankTail(hops, any, i);
      assert hops[1..][i - 1] == hops[i];
    }
  }

  /** A next-hop is sent if and only if it is active and, should any of the group be recursive, so is
      it; those sent keep their order, and their number. */
  lemma SelectionIsFilter(hops: seq<NextHop>, i: nat)
    requires i < |hops|
    ensures var any := exists h :: h in hops && h.recursive;
            && |Selected(hops)| == Rank(hops, any, |hops|)
            && (hops[i].active && (any ==> hops[i].recursive) ==>
                  Rank(hops, any, i) < |Selected(hops)| && Selected(hops)[Rank(hops, any, i)] == hops[i])
  {
    KeptInPlace(hops, AnyRecursive(hops), i);
  }

  lemma SelectedIsSelection(hops: seq<NextHop>)
    ensures IsSelection(Selected(hops), hops)
  {
    if hops == [] {
    } else {
      KeptInPlace(hops, AnyRecursive(hops), 0);
      forall i | 0 <= i < |hops| && hops[i].active && (AnyRecursive(hops) ==> hops[i].recursive)
        ensures Rank(hops, AnyRecursive(hops), i) < |Selected(hops)|
        ensures Selected(hops)[Rank(hops, AnyRecursive(hops), i)] == hops[i]
      {
        KeptInPlace(hops, AnyRecursive(hops), i);
      }
    }
  }

  lemma {:induction false} KeepsNone(hops: seq<NextHop>, any: bool)
    ensures Keep(hops, any) == [] <==> forall h :: h in hops ==> !Wanted(h, any)
  {
    if hops != [] {
      KeepsNone(hops[1..], any);
      assert forall h :: h in hops <==> h == hops[0] || h in hops[1..];
    }
  }

  /** A route is sent with no next-hop at all exactly when no next-hop is active, or when some are
      recursive but none of these is active: an inactive recursive next-hop hides the active ones. */
  lemma SelectsNothing(hops: seq<NextHop>)
    ensures Selected(hops) == [] <==>
            || (forall h :: h in hops ==> !h.active)
            || ((exists h :: h in hops && h.recursive) && forall h :: h in hops && h.recursive ==> !h.active)
  {
    KeepsNone(hops, AnyRecursive(hops));
    if AnyRecursive(hops) {
      assert forall h :: h in hops && Wanted(h, true) ==> h.recursive && h.active;
      assert forall h :: h in hops && h.recursive && h.active ==> Wanted(h, true);
    } else {
      assert forall h :: h in hops ==> Wanted(h, false) == h.active;
    }
  }
}
