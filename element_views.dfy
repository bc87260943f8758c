/** Set views that follow one source set element by element: `map` and `filter`.
    Each holds its source, a cached result, and updates the cache per incoming change,
    reporting the changes it emits downstream. */
module ElementViews {
  import opened SetChanges
  import opened Bags
  import opened Counting

  /** What `set.map(f).now` must equal: `{ f(x) | x in source }`. */
  function MapExpected<T, U>(source: set<T>, f: T -> U): set<U> {
    set x | x in source :: f(x)
  }

  /** What `set.filter(keep).now` must equal: the elements of `source` that are kept. */
  function FilterExpected<T>(source: set<T>, keep: T -> bool): set<T> {
    set x | x in source && keep(x)
  }

  /** Each source element contributes its image once. */
  function Images<T, U>(f: T -> U): T -> multiset<U> {
    x => multiset{f(x)}
  }

  /** The values contributed at least once are exactly the expected map result. */
  lemma ImagesSupport<T, U>(source: set<T>, f: T -> U)
    ensures forall y :: y in Bag(source, Images(f)) <==> y in MapExpected(source, f)
  {
    forall y ensures y in Bag(source, Images(f)) <==> y in MapExpected(source, f) {
      BagMember(source, Images(f), y);
    }
  }

  lemma ImagesAdd<T, U>(source: set<T>, f: T -> U, x: T)
    requires x !in source
    ensures Bag(source + {x}, Images(f)) == Bag(source, Images(f)) + multiset{f(x)}
  {
    BagAdd(source, Images(f), x);
    assert Images(f)(x) == multiset{f(x)};
  }

  lemma ImagesRemove<T, U>(source: set<T>, f: T -> U, x: T)
    requires x in source
    ensures f(x) in Bag(source, Images(f))
    ensures Bag(source - {x}, Images(f)) == Bag(source, Images(f)) - multiset{f(x)}
  {
    BagRemove(source, Images(f), x);
    assert Images(f)(x) == multiset{f(x)};
  }

  /** The counts hold one image per source element and the cache their support. */
  ghost predicate MapTallied<T, U(!new)>(source: set<T>, f: T -> U, cached: set<U>, counts: multiset<U>) {
    counts == Bag(source, Images(f)) && Supports(cached, counts)
  }

  /** The bookkeeping of an added source element `x`: its image is counted once more. */
  method Join<T, U(!new)>(source: set<T>, f: T -> U, cached: set<U>, counts: multiset<U>, x: T)
    returns (cached': set<U>, counts': multiset<U>, out: seq<SetChange<U, ()>>)
    requires x !in source && MapTallied(source, f, cached, counts)
    ensures MapTallied(source + {x}, f, cached', counts')
    ensures Leads(cached, out, cached') && |out| <= 1
  {
    ImagesAdd(source, f, x);
    cached', counts', out := Insert(cached, counts, f(x));
  }

  /** The bookkeeping of a removed source element `x`: its image is counted once less. */
  method Leave<T, U(!new)>(source: set<T>, f: T -> U, cached: set<U>, counts: multiset<U>, x: T)
    returns (cached': set<U>, counts': multiset<U>, out: seq<SetChange<U, ()>>)
    requires x in source && MapTallied(source, f, cached, counts)
    ensures MapTallied(source - {x}, f, cached', counts')
    ensures Leads(cached, out, cached') && |out| <= 1
  {
    ImagesRemove(source, f, x);
    cached', counts', out := Withdraw(cached, counts, f(x));
  }

  class MapBinding<T(==), U(==,!new)> {
    const f: T -> U
    var source: set<T>
    /** how many source elements map to each value (f need not be injective) */
    var counts: multiset<U>
    var cached: set<U>

    ghost predicate Valid()
      reads this
    {
      MapTallied(source, f, cached, counts)
    }

    lemma ValidMeansExpected()
      requires Valid()
      ensures cached == MapExpected(source, f)
    {
      ImagesSupport(source, f);
    }

    /** One pass over the source computes the initial cache. */
    constructor (initial: set<T>, f: T -> U)
      ensures Valid() && source == initial && this.f == f
      ensures cached == MapExpected(initial, f)
    {
      this.f := f;
      source := initial;
      var c := ComputeBag(initial, Images(f));
      counts := c;
      cached := set y | y in c;
      new;
      ValidMeansExpected();
    }

    /** `Added(x)` emits `Added(f(x))` unless another element already maps there;
        `Removed(x)` emits `Removed(f(x))` only when the last element mapping there is gone. */
    method Handle(c: SetChange<T, ()>) returns (out: seq<SetChange<U, ()>>)
      requires Valid() && Fits(source, c)
      modifies this
      ensures Valid() && source == Applied(old(source), c)
      ensures cached == MapExpected(source, f)
      ensures Leads(old(cached), out, cached) && |out| <= 1
    {
      match c {
      case Added(x, _) => out := OnAdded(x);
      case Removed(x, _) => out := OnRemoved(x);
      }
      ValidMeansExpected();
    }

    method OnAdded(x: T) returns (out: seq<SetChange<U, ()>>)
      requires Valid() && x !in source
      modifies this
      ensures Valid() && source == old(source) + {x}
      ensures Leads(old(cached), out, cached) && |out| <= 1
    {
      cached, counts, out := Join(source, f, cached, counts, x);
      source := source + {x};
    }

    method OnRemoved(x: T) returns (out: seq<SetChange<U, ()>>)
      requires Valid() && x in source
      modifies this
      ensures Valid() && source == old(source) - {x}
      ensures Leads(old(cached), out, cached) && |out| <= 1
    {
      cached, counts, out := Leave(source, f, cached, counts, x);
      source := source - {x};
    }

    /** Any sequence of mutations of the source: the view follows it, and the changes it
        emits, in order, take the old view to the new one. */
    method HandleAll(cs: seq<SetChange<T, ()>>) returns (out: seq<SetChange<U, ()>>)
      requires Valid() && FitsAll(source, cs)
      modifies this
      ensures Valid() && source == AppliedAll(old(source), cs)
      ensures cached == MapExpected(source, f)
      ensures Leads(old(cached), out, cached)
    {
      out := [];
      var i := 0;
      while i < |cs|
        invariant i <= |cs| && Valid() && source == AppliedAll(old(source), cs[..i])
        invariant Leads(old(cached), out, cached)
      {
        FitsAllStep(old(source), cs, i);
        var more := Handle(cs[i]);
        EmitAll(old(cached), out, more);
        out, i := out + more, i + 1;
      }
      assert cs[..i] == cs;
      ValidMeansExpected();
    }

    /** `clear()` on the source: one `Removed` per element, afterwards the view is empty. */
    method Clear() returns (out: seq<SetChange<U, ()>>)
      requires Valid()
      modifies this
      ensures Valid() && source == {} && cached == {}
      ensures Leads(old(cached), out, cached)
    {
      out := [];
      while source != {}
        invariant Valid()
        invariant Leads(old(cached), out, cached)
        decreases source
      {
        var x :| x in source;
        var more := Handle(Removed(x, ()));
        EmitAll(old(cached), out, more);
        out := out + more;
      }
      ValidMeansExpected();
    }
  }

  class FilterBinding<T(==)> {
    const keep: T -> bool
    var source: set<T>
    var cached: set<T>

    ghost predicate Valid()
      reads this
    {
      cached == FilterExpected(source, keep)
    }

    constructor (initial: set<T>, keep: T -> bool)
      ensures Valid() && source == initial && this.keep == keep
    {
      this.keep := keep;
      source := initial;
      cached := FilterExpected(initial, keep);
    }

    /** `Added(x)` is passed on only if `x` is kept; `Removed(x)` only if `x` was included. */
    method Handle(c: SetChange<T, ()>) returns (out: seq<SetChange<T, ()>>)
      requires Valid() && Fits(source, c)
      modifies this
      ensures Valid() && source == Applied(old(source), c)
      ensures !keep(c.element) ==> cached == old(cached) && out == []
      ensures Leads(old(cached), out, cached) && |out| <= 1
    {
      match c {
      case Added(x, _) =>
        out := if keep(x) then [Added(x, ())] else [];
        if keep(x) {
          cached := cached + {x};
        }
        source := source + {x};
      case Removed(x, _) =>
        out := if x in cached then [Removed(x, ())] else [];
        if x in cached {
          cached := cached - {x};
        }
        source := source - {x};
      }
      assert out == [] || out[..0] == [];
    }

    /** Any sequence of mutations of the source: the view follows it, and the changes it
        emits, in order, take the old view to the new one. */
    method HandleAll(cs: seq<SetChange<T, ()>>) returns (out: seq<SetChange<T, ()>>)
      requires Valid() && FitsAll(source, cs)
      modifies this
      ensures Valid() && source == AppliedAll(old(source), cs)
      ensures Leads(old(cached), out, cached)
    {
      out := [];
      var i := 0;
      while i < |cs|
        invariant i <= |cs| && Valid() && source == AppliedAll(old(source), cs[..i])
        invariant Leads(old(cached), out, cached)
      {
        FitsAllStep(old(source), cs, i);
        var more := Handle(cs[i]);
        EmitAll(old(cached), out, more);
        out, i := out + more, i + 1;
      }
      assert cs[..i] == cs;
    }

    method Clear() returns (out: seq<SetChange<T, ()>>)
      requires Valid()
      modifies this
      ensures Valid() && source == {} && cached == {}
      ensures Leads(old(cached), out, cached)
    {
      out := [];
      while source != {}
        invariant Valid()
        invariant Leads(old(cached), out, cached)
        decreases source
      {
        var x :| x in source;
        var more := Handle(Removed(x, ()));
        EmitAll(old(cached), out, more);
        out := out + more;
      }
    }
  }
}
