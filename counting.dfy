/** The multiplicity rule shared by the set views whose contributions may coincide
    (map, flatten, values): an element's occurrences are counted, `Added` is emitted
    only when the first occurrence arrives and `Removed` only when the last one goes. */
module Counting {
  import opened SetChanges

  /** `s` holds exactly the elements that occur in `m`. */
  ghost predicate Supports<T(!new)>(s: set<T>, m: multiset<T>) {
    forall y :: y in s <==> y in m
  }

  /** One more occurrence of `x`: emits `Added(x)` when it is the first. */
  method Insert<T(!new)>(cached: set<T>, counts: multiset<T>, x: T)
    returns (cached': set<T>, counts': multiset<T>, out: seq<SetChange<T, ()>>)
    requires Supports(cached, counts)
    ensures counts' == counts + multiset{x} && Supports(cached', counts')
    ensures out == [] <==> x in counts
    ensures Leads(cached, out, cached') && |out| <= 1
  {
    counts' := counts + multiset{x};
    if x in counts {
      cached', out := cached, [];
    } else {
      cached', out := cached + {x}, [Added(x, ())];
      assert out[..0] == [];
    }
    assert forall y :: y in counts' <==> y == x || y in counts;
  }

  /** One occurrence of `x` fewer: emits `Removed(x)` when it was the last. */
  method Withdraw<T(!new)>(cached: set<T>, counts: multiset<T>, x: T)
    returns (cached': set<T>, counts': multiset<T>, out: seq<SetChange<T, ()>>)
    requires Supports(cached, counts) && x in counts
    ensures counts' == counts - multiset{x} && Supports(cached', counts')
    ensures out == [] <==> counts[x] > 1
    ensures Leads(cached, out, cached') && |out| <= 1
  {
    counts' := counts - multiset{x};
    if x in counts' {
      cached', out := cached, [];
    } else {
      cached', out := cached - {x}, [Removed(x, ())];
      assert out[..0] == [];
    }
    assert forall y :: y != x ==> (y in counts' <==> y in counts);
  }

  /** Adding the elements of a set not yet counted contributes it as a multiset. */
  lemma MultisetOfAdd<T>(done: set<T>, x: T)
    requires x !in done
    ensures multiset(done + {x}) == multiset(done) + multiset{x}
  {
  }

  lemma MultisetOfRemove<T>(rest: set<T>, x: T)
    requires x in rest
    ensures multiset(rest) == multiset(rest - {x}) + multiset{x}
  {
    assert rest == (rest - {x}) + {x};
  }

  /** Taking the same occurrences off two equal multisets leaves equal ones. */
  lemma Cancel<T>(a: multiset<T>, b: multiset<T>, m: multiset<T>)
    requires a + m == m + b
    ensures a == b
  {
    forall y ensures a[y] == b[y] {
      assert (a + m)[y] == a[y] + m[y];
      assert (m + b)[y] == m[y] + b[y];
    }
  }

  /** One more occurrence of every element of `xs`, as when a whole part joins a view. */
  method InsertAll<T(!new)>(cached: set<T>, counts: multiset<T>, xs: set<T>)
    returns (cached': set<T>, counts': multiset<T>, out: seq<SetChange<T, ()>>)
    requires Supports(cached, counts)
    ensures counts' == counts + multiset(xs) && Supports(cached', counts')
    ensures Leads(cached, out, cached')
  {
    cached', counts', out := cached, counts, [];
    var rest, done := xs, {};
    while rest != {}
      invariant rest + done == xs && rest !! done
      invariant counts' == counts + multiset(done) && Supports(cached', counts')
      invariant Leads(cached, out, cached')
      decreases rest
    {
      var x :| x in rest;
      var c, n, more := Insert(cached', counts', x);
      EmitAll(cached, out, more);
      MultisetOfAdd(done, x);
      cached', counts', out := c, n, out + more;
      rest, done := rest - {x}, done + {x};
    }
  }

  /** One occurrence fewer of every element of `xs`, as when a whole part leaves a view. */
  method WithdrawAll<T(!new)>(cached: set<T>, counts: multiset<T>, xs: set<T>)
    returns (cached': set<T>, counts': multiset<T>, out: seq<SetChange<T, ()>>)
    requires Supports(cached, counts) && multiset(xs) <= counts
    ensures counts' + multiset(xs) == counts && Supports(cached', counts')
    ensures Leads(cached, out, cached')
  {
    ghost var base := counts - multiset(xs);
    assert base + multiset(xs) == counts;
    cached', counts', out := cached, counts, [];
    var rest := xs;
    while rest != {}
      invariant rest <= xs
      invariant counts' == base + multiset(rest) && Supports(cached', counts')
      invariant Leads(cached, out, cached')
      decreases rest
    {
      var x :| x in rest;
      MultisetOfRemove(rest, x);
      var c, n, more := Withdraw(cached', counts', x);
      EmitAll(cached, out, more);
      cached', counts', out := c, n, out + more;
      rest := rest - {x};
    }
  }
}
