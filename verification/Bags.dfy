/** Sums of multisets, rearranged. */
module Bags {

  lemma AddBetween<T>(a: multiset<T>, b: multiset<T>, x: multiset<T>)
    ensures (a + b) + x == (a + x) + b == a + (b + x)
  {
  }

  lemma TakeAndAdd<T>(bag: multiset<T>, x: T)
    requires x in bag
    ensures (bag - multiset{x}) + multiset{x} == bag
  {
  }

  /** Some elements go from the last part of a sum to another part. */
  lemma MoveBag<T>(a: multiset<T>, b: multiset<T>, last: multiset<T>, some: multiset<T>)
    requires some <= last
    ensures a + (b + some) + (last - some) == a + b + last
  {
  }

  lemma AddAndTake<T>(bag: multiset<T>, x: multiset<T>)
    ensures (bag + x) - x == bag
  {
  }

  /** One element goes from the last part of a sum to another part. */
  lemma MoveOne<T>(a: multiset<T>, b: multiset<T>, c: multiset<T>, d: multiset<T>, last: multiset<T>, x: T)
    requires x in last
    ensures var one := multiset{x};
            && (a + one) + b + c + d + (last - one) == a + b + c + d + last
            && a + (b + one) + c + d + (last - one) == a + b + c + d + last
            && a + (one + b) + c + d + (last - one) == a + b + c + d + last
            && a + b + (c + one) + d + (last - one) == a + b + c + d + last
            && a + b + c + (d + one) + (last - one) == a + b + c + d + last
  {
    var one := multiset{x};
    var rest := last - one;
    TakeAndAdd(last, x);
    AddToAny(a, b, c, d, rest, one);
  }

  /** One element goes to the last part of a sum. */
  lemma AddToAny<T>(a: multiset<T>, b: multiset<T>, c: multiset<T>, d: multiset<T>, e: multiset<T>, x: multiset<T>)
    ensures var all := a + b + c + d + (e + x);
            && (a + x) + b + c + d + e == all
            && (x + a) + b + c + d + e == all
            && a + (b + x) + c + d + e == all
            && a + (x + b) + c + d + e == all
            && a + b + (c + x) + d + e == all
            && a + b + (x + c) + d + e == all
            && a + b + c + (d + x) + e == all
  {
    forall y ensures (a + b + c + d + (e + x))[y] == a[y] + b[y] + c[y] + d[y] + e[y] + x[y] {
    }
  }

  /** What is taken in and what is resolved, less what is resolved. */
  lemma CancelPart<T>(taken: multiset<T>, part: multiset<T>, back: multiset<T>, lost: multiset<T>,
                      a: multiset<T>, b: multiset<T>)
    requires taken + part == back + ((part + lost) + a + b)
    ensures taken == back + lost + a + b
  {
    forall y ensures taken[y] == (back + lost + a + b)[y] {
      assert (taken + part)[y] == (back + ((part + lost) + a + b))[y];
    }
  }
}
