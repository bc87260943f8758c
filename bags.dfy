/** Multiplicity bookkeeping for the set views: the multiset of contributions that a
    set of keys makes, and the sum of a set of integers. */
module Bags {

  /** The multiset union of `g(k)` over all keys `k` in `keys`. */
  ghost function Bag<K, T>(keys: set<K>, g: K -> multiset<T>): multiset<T>
    decreases keys
  {
    if keys == {} then multiset{} else var k :| k in keys; g(k) + Bag(keys - {k}, g)
  }

  /** Any key can be taken out first, whichever one the definition picks. */
  lemma {:induction false} BagRemove<K, T>(keys: set<K>, g: K -> multiset<T>, k: K)
    requires k in keys
    ensures Bag(keys, g) == g(k) + Bag(keys - {k}, g)
    decreases keys
  {
    var k' :| k' in keys && Bag(keys, g) == g(k') + Bag(keys - {k'}, g);
    if k' != k {
      BagRemove(keys - {k'}, g, k);
      BagRemove(keys - {k}, g, k');
      assert keys - {k'} - {k} == keys - {k} - {k'};
    }
  }

  lemma BagAdd<K, T>(keys: set<K>, g: K -> multiset<T>, k: K)
    requires k !in keys
    ensures Bag(keys + {k}, g) == g(k) + Bag(keys, g)
  {
    BagRemove(keys + {k}, g, k);
    assert keys + {k} - {k} == keys;
  }

  /** Only the values of `g` on `keys` matter. */
  lemma {:induction false} BagCongruent<K, T>(keys: set<K>, g: K -> multiset<T>, h: K -> multiset<T>)
    requires forall k :: k in keys ==> g(k) == h(k)
    ensures Bag(keys, g) == Bag(keys, h)
    decreases keys
  {
    if keys != {} {
      var k :| k in keys;
      BagRemove(keys, g, k);
      BagRemove(keys, h, k);
      BagCongruent(keys - {k}, g, h);
    }
  }

  /** An element is in the bag exactly when some key contributes it. */
  lemma {:induction false} BagMember<K, T>(keys: set<K>, g: K -> multiset<T>, y: T)
    ensures y in Bag(keys, g) <==> exists k :: k in keys && y in g(k)
    decreases keys
  {
    if keys != {} {
      var k :| k in keys;
      BagRemove(keys, g, k);
      BagMember(keys - {k}, g, y);
      assert forall k' :: k' in keys ==> k' == k || k' in keys - {k};
    }
  }

  /** The sum of `g(k)` over all keys `k` in `keys`. */
  ghost function SumBy<K>(keys: set<K>, g: K -> int): int
    decreases keys
  {
    if keys == {} then 0 else var k :| k in keys; g(k) + SumBy(keys - {k}, g)
  }

  lemma {:induction false} SumByRemove<K>(keys: set<K>, g: K -> int, k: K)
    requires k in keys
    ensures SumBy(keys, g) == g(k) + SumBy(keys - {k}, g)
    decreases keys
  {
    var k' :| k' in keys && SumBy(keys, g) == g(k') + SumBy(keys - {k'}, g);
    if k' != k {
      SumByRemove(keys - {k'}, g, k);
      SumByRemove(keys - {k}, g, k');
      assert keys - {k'} - {k} == keys - {k} - {k'};
    }
  }

  function Identity(x: int): int { x }

  /** The sum of all elements of a set of integers (`set.now.sum()`). */
  ghost function SetSum(s: set<int>): int {
    SumBy(s, Identity)
  }

  lemma SetSumRemove(s: set<int>, x: int)
    requires x in s
    ensures SetSum(s) == x + SetSum(s - {x})
  {
    SumByRemove(s, Identity, x);
  }

  lemma SetSumAdd(s: set<int>, x: int)
    requires x !in s
    ensures SetSum(s + {x}) == SetSum(s) + x
  {
    SetSumRemove(s + {x}, x);
    assert s + {x} - {x} == s;
  }

  /** One pass over `keys`, adding up `g`. */
  method ComputeSumBy<K>(keys: set<K>, g: K -> int) returns (r: int)
    ensures r == SumBy(keys, g)
  {
    r := 0;
    var rest := keys;
    while rest != {}
      invariant rest <= keys
      invariant r + SumBy(rest, g) == SumBy(keys, g)
      decreases rest
    {
      var k :| k in rest;
      SumByRemove(rest, g, k);
      r := r + g(k);
      rest := rest - {k};
    }
  }

  /** One pass over `keys`, collecting the contributions of `g`. */
  method ComputeBag<K, T>(keys: set<K>, g: K -> multiset<T>) returns (r: multiset<T>)
    ensures r == Bag(keys, g)
  {
    r := multiset{};
    var rest := keys;
    while rest != {}
      invariant rest <= keys
      invariant r + Bag(rest, g) == Bag(keys, g)
      decreases rest
    {
      var k :| k in rest;
      BagRemove(rest, g, k);
      r := r + g(k);
      rest := rest - {k};
    }
  }
}
