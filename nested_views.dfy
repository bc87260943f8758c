/** Set views whose contributions are themselves reactive: `flatten` over a set of
    reactive sets, `values()` over a set of reactive variables, and `flattenToSet` over
    a variable holding a reactive set. The nested reactive entities are named by keys
    `K`; their current contents are part of the view's state, and only the ones that
    currently belong to the view are observed. */
module NestedViews {
  import opened SetChanges
  import opened Bags
  import opened Counting

  /** Each part contributes its current elements once. */
  function PartBag<K, T>(parts: map<K, set<T>>): K -> multiset<T> {
    p => if p in parts then multiset(parts[p]) else multiset{}
  }

  /** What `outer.flatten().now` must equal: the union of the contents of the current parts. */
  function FlattenExpected<K, T>(outer: set<K>, parts: map<K, set<T>>): set<T> {
    set p, x | p in outer && p in parts && x in parts[p] :: x
  }

  lemma PartBagSupport<K, T>(outer: set<K>, parts: map<K, set<T>>)
    ensures forall y :: y in Bag(outer, PartBag(parts)) <==> y in FlattenExpected(outer, parts)
  {
    forall y ensures y in Bag(outer, PartBag(parts)) <==> y in FlattenExpected(outer, parts) {
      BagMember(outer, PartBag(parts), y);
    }
  }

  /** Changing one part that is not in `outer` leaves the bag as it is. */
  lemma PartBagUnobserved<K, T>(outer: set<K>, parts: map<K, set<T>>, q: K, s: set<T>)
    requires q !in outer
    ensures Bag(outer, PartBag(parts[q := s])) == Bag(outer, PartBag(parts))
  {
    BagCongruent(outer, PartBag(parts[q := s]), PartBag(parts));
  }

  /** Changing one part in `outer` replaces its contribution. */
  lemma PartBagObserved<K, T>(outer: set<K>, parts: map<K, set<T>>, q: K, s: set<T>)
    requires q in outer && q in parts
    ensures Bag(outer, PartBag(parts)) == Bag(outer - {q}, PartBag(parts)) + multiset(parts[q])
    ensures Bag(outer, PartBag(parts[q := s])) == Bag(outer - {q}, PartBag(parts)) + multiset(s)
  {
    var g, h := PartBag(parts), PartBag(parts[q := s]);
    BagRemove(outer, g, q);
    BagRemove(outer, h, q);
    BagCongruent(outer - {q}, h, g);
  }

  /** Every current part is known, the counts hold its elements once per part holding
      them, and the cache is their support. */
  ghost predicate FlattenTallied<K, T(!new)>(outer: set<K>, parts: map<K, set<T>>, cached: set<T>, counts: multiset<T>) {
    outer <= parts.Keys && counts == Bag(outer, PartBag(parts)) && Supports(cached, counts)
  }

  /** The bookkeeping when part `p` joins the view: each of its elements is counted once more. */
  method AdmitPart<K, T(!new)>(outer: set<K>, parts: map<K, set<T>>, cached: set<T>, counts: multiset<T>, p: K)
    returns (cached': set<T>, counts': multiset<T>, out: seq<SetChange<T, ()>>)
    requires p !in outer && p in parts && FlattenTallied(outer, parts, cached, counts)
    ensures FlattenTallied(outer + {p}, parts, cached', counts')
    ensures Leads(cached, out, cached')
  {
    BagAdd(outer, PartBag(parts), p);
    cached', counts', out := InsertAll(cached, counts, parts[p]);
  }

  /** The bookkeeping when part `p` leaves the view: each of its elements is counted once less. */
  method DropPart<K, T(!new)>(outer: set<K>, parts: map<K, set<T>>, cached: set<T>, counts: multiset<T>, p: K)
    returns (cached': set<T>, counts': multiset<T>, out: seq<SetChange<T, ()>>)
    requires p in outer && FlattenTallied(outer, parts, cached, counts)
    ensures FlattenTallied(outer - {p}, parts, cached', counts')
    ensures Leads(cached, out, cached')
  {
    BagRemove(outer, PartBag(parts), p);
    assert PartBag(parts)(p) == multiset(parts[p]);
    ghost var rest := Bag(outer - {p}, PartBag(parts));
    cached', counts', out := WithdrawAll(cached, counts, parts[p]);
    Cancel(counts', rest, multiset(parts[p]));
  }

  /** The bookkeeping when `x` is added to the observed part `q`. */
  method AdmitElement<K, T(!new)>(outer: set<K>, parts: map<K, set<T>>, cached: set<T>, counts: multiset<T>, q: K, x: T)
    returns (cached': set<T>, counts': multiset<T>, out: seq<SetChange<T, ()>>)
    requires q in outer && FlattenTallied(outer, parts, cached, counts) && x !in parts[q]
    ensures FlattenTallied(outer, parts[q := parts[q] + {x}], cached', counts')
    ensures Leads(cached, out, cached') && |out| <= 1
  {
    PartBagObserved(outer, parts, q, parts[q] + {x});
    MultisetOfAdd(parts[q], x);
    cached', counts', out := Insert(cached, counts, x);
  }

  /** The bookkeeping when `x` is removed from the observed part `q`. */
  method DropElement<K, T(!new)>(outer: set<K>, parts: map<K, set<T>>, cached: set<T>, counts: multiset<T>, q: K, x: T)
    returns (cached': set<T>, counts': multiset<T>, out: seq<SetChange<T, ()>>)
    requires q in outer && FlattenTallied(outer, parts, cached, counts) && x in parts[q]
    ensures FlattenTallied(outer, parts[q := parts[q] - {x}], cached', counts')
    ensures Leads(cached, out, cached') && |out| <= 1
  {
    PartBagObserved(outer, parts, q, parts[q] - {x});
    MultisetOfRemove(parts[q], x);
    cached', counts', out := Withdraw(cached, counts, x);
  }

  class FlattenBinding<K(==), T(==,!new)> {
    /** the outer reactive set, holding part keys */
    var outer: set<K>
    /** the current contents of every known part, observed or not */
    var parts: map<K, set<T>>
    /** how many current parts hold each element */
    var counts: multiset<T>
    var cached: set<T>

    ghost predicate Valid()
      reads this
    {
      FlattenTallied(outer, parts, cached, counts)
    }

    lemma ValidMeansExpected()
      requires Valid()
      ensures cached == FlattenExpected(outer, parts)
    {
      PartBagSupport(outer, parts);
    }

    constructor (outer0: set<K>, parts0: map<K, set<T>>)
      requires outer0 <= parts0.Keys
      ensures Valid() && outer == outer0 && parts == parts0
      ensures cached == FlattenExpected(outer0, parts0)
    {
      outer, parts := outer0, parts0;
      var c := ComputeBag(outer0, PartBag(parts0));
      counts := c;
      cached := set y | y in c;
      new;
      ValidMeansExpected();
    }

    /** A new reactive set comes into existence; it is not part of the view yet. */
    method NewPart(p: K, contents: set<T>)
      requires Valid() && p !in parts
      modifies this
      ensures Valid() && parts == old(parts)[p := contents]
      ensures outer == old(outer) && cached == old(cached)
    {
      PartBagUnobserved(outer, parts, p, contents);
      parts := parts[p := contents];
    }

    /** A change of the outer set: a part is added to or removed from the view. */
    method HandleOuter(c: SetChange<K, ()>) returns (out: seq<SetChange<T, ()>>)
      requires Valid() && Fits(outer, c) && c.element in parts
      modifies this
      ensures Valid() && outer == Applied(old(outer), c) && parts == old(parts)
      ensures cached == FlattenExpected(outer, parts)
      ensures Leads(old(cached), out, cached)
    {
      match c {
      case Added(p, _) => out := OnPartAdded(p);
      case Removed(p, _) => out := OnPartRemoved(p);
      }
      ValidMeansExpected();
    }

    /** Every element of the new part is counted once more; those not yet present are emitted. */
    method OnPartAdded(p: K) returns (out: seq<SetChange<T, ()>>)
      requires Valid() && p !in outer && p in parts
      modifies this
      ensures Valid() && outer == old(outer) + {p} && parts == old(parts)
      ensures Leads(old(cached), out, cached)
    {
      cached, counts, out := AdmitPart(outer, parts, cached, counts, p);
      outer := outer + {p};
    }

    /** Every element of the removed part is counted once less; those no other part holds
        any more are emitted as removed. */
    method OnPartRemoved(p: K) returns (out: seq<SetChange<T, ()>>)
      requires Valid() && p in outer
      modifies this
      ensures Valid() && outer == old(outer) - {p} && parts == old(parts)
      ensures Leads(old(cached), out, cached)
    {
      cached, counts, out := DropPart(outer, parts, cached, counts, p);
      outer := outer - {p};
    }

    /** A change of one part: it reaches the view only while that part is in `outer`. */
    method HandlePart(c: SetChange<T, K>) returns (out: seq<SetChange<T, ()>>)
      requires Valid() && c.source in parts && Fits(parts[c.source], c)
      modifies this
      ensures Valid() && outer == old(outer)
      ensures parts == old(parts)[c.source := Applied(old(parts)[c.source], c)]
      ensures cached == FlattenExpected(outer, parts)
      ensures c.source !in outer ==> cached == old(cached) && out == []
      ensures Leads(old(cached), out, cached) && |out| <= 1
    {
      var q := c.source;
      if q !in outer {
        var s := Applied(parts[q], c);
        PartBagUnobserved(outer, parts, q, s);
        parts := parts[q := s];
        out := [];
      } else if c.Added? {
        out := OnElementAdded(q, c.element);
      } else {
        out := OnElementRemoved(q, c.element);
      }
      ValidMeansExpected();
    }

    method OnElementAdded(q: K, x: T) returns (out: seq<SetChange<T, ()>>)
      requires Valid() && q in outer && x !in parts[q]
      modifies this
      ensures Valid() && outer == old(outer) && parts == old(parts)[q := old(parts)[q] + {x}]
      ensures Leads(old(cached), out, cached) && |out| <= 1
    {
      cached, counts, out := AdmitElement(outer, parts, cached, counts, q, x);
      parts := parts[q := parts[q] + {x}];
    }

    method OnElementRemoved(q: K, x: T) returns (out: seq<SetChange<T, ()>>)
      requires Valid() && q in outer && x in parts[q]
      modifies this
      ensures Valid() && outer == old(outer) && parts == old(parts)[q := old(parts)[q] - {x}]
      ensures Leads(old(cached), out, cached) && |out| <= 1
    {
      cached, counts, out := DropElement(outer, parts, cached, counts, q, x);
      parts := parts[q := parts[q] - {x}];
    }
  }

  /** Each member variable contributes its current value once. */
  function ValueBag<K, V>(vals: map<K, V>): K -> multiset<V> {
    k => if k in vals then multiset{vals[k]} else multiset{}
  }

  /** What `source.values().now` must equal: the current values of the member variables. */
  function ValuesExpected<K, V>(members: set<K>, vals: map<K, V>): set<V> {
    set k | k in members && k in vals :: vals[k]
  }

  /** The values of the members, each counted once per member holding it. */
  ghost function Contributions<K, V>(members: set<K>, vals: map<K, V>): multiset<V> {
    Bag(members, ValueBag(vals))
  }

  lemma ValueBagSupport<K, V>(members: set<K>, vals: map<K, V>)
    ensures forall v :: v in Bag(members, ValueBag(vals)) <==> v in ValuesExpected(members, vals)
  {
    forall v ensures v in Bag(members, ValueBag(vals)) <==> v in ValuesExpected(members, vals) {
      BagMember(members, ValueBag(vals), v);
    }
  }

  /** Every member is known, the counts hold one value per member and the cache their
      support. */
  ghost predicate ValuesTallied<K, V(!new)>(members: set<K>, vals: map<K, V>, cached: set<V>, counts: multiset<V>) {
    members <= vals.Keys && counts == Contributions(members, vals) && Supports(cached, counts)
  }

  /** The bookkeeping when member `k` joins: its value is counted once more. */
  method Join<K, V(!new)>(members: set<K>, vals: map<K, V>, cached: set<V>, counts: multiset<V>, k: K)
    returns (cached': set<V>, counts': multiset<V>, out: seq<SetChange<V, ()>>)
    requires k !in members && k in vals && ValuesTallied(members, vals, cached, counts)
    ensures ValuesTallied(members + {k}, vals, cached', counts')
    ensures Leads(cached, out, cached') && |out| <= 1
  {
    BagAdd(members, ValueBag(vals), k);
    assert ValueBag(vals)(k) == multiset{vals[k]};
    cached', counts', out := Insert(cached, counts, vals[k]);
  }

  /** The bookkeeping when member `k` leaves: its value is counted once less. */
  method Leave<K, V(!new)>(members: set<K>, vals: map<K, V>, cached: set<V>, counts: multiset<V>, k: K)
    returns (cached': set<V>, counts': multiset<V>, out: seq<SetChange<V, ()>>)
    requires k in members && ValuesTallied(members, vals, cached, counts)
    ensures ValuesTallied(members - {k}, vals, cached', counts')
    ensures Leads(cached, out, cached') && |out| <= 1
  {
    BagRemove(members, ValueBag(vals), k);
    assert ValueBag(vals)(k) == multiset{vals[k]};
    cached', counts', out := Withdraw(cached, counts, vals[k]);
  }

  /** The bookkeeping when member `k` takes the value `v`: the old value is counted once
      less, then `v` once more. */
  method Replace<K, V(!new)>(members: set<K>, vals: map<K, V>, cached: set<V>, counts: multiset<V>, k: K, v: V)
    returns (cached': set<V>, counts': multiset<V>, out: seq<SetChange<V, ()>>)
    requires k in members && ValuesTallied(members, vals, cached, counts)
    ensures ValuesTallied(members, vals[k := v], cached', counts')
    ensures Leads(cached, out, cached') && |out| <= 2
  {
    var rest := members - {k};
    var c, n, gone := Leave(members, vals, cached, counts, k);
    ContributionsUnobserved(rest, vals, k, v);
    var more;
    cached', counts', more := Join(rest, vals[k := v], c, n, k);
    assert rest + {k} == members;
    EmitAll(cached, gone, more);
    out := gone + more;
  }

  /** Values of variables outside `members` do not contribute. */
  lemma ContributionsUnobserved<K, V>(members: set<K>, vals: map<K, V>, k: K, v: V)
    requires k !in members || (k in vals && vals[k] == v)
    ensures Contributions(members, vals[k := v]) == Contributions(members, vals)
  {
    BagCongruent(members, ValueBag(vals[k := v]), ValueBag(vals));
  }

  class ValuesBinding<K(==), V(==,!new)> {
    /** the source set, holding variable keys */
    var members: set<K>
    /** the current value of every known variable, member or not */
    var vals: map<K, V>
    /** how many member variables hold each value */
    var counts: multiset<V>
    var cached: set<V>

    ghost predicate Valid()
      reads this
    {
      ValuesTallied(members, vals, cached, counts)
    }

    lemma ValidMeansExpected()
      requires Valid()
      ensures cached == ValuesExpected(members, vals)
    {
      ValueBagSupport(members, vals);
    }

    constructor (members0: set<K>, vals0: map<K, V>)
      requires members0 <= vals0.Keys
      ensures Valid() && members == members0 && vals == vals0
      ensures cached == ValuesExpected(members0, vals0)
    {
      members, vals := members0, vals0;
      var c := ComputeBag(members0, ValueBag(vals0));
      counts := c;
      cached := set v | v in c;
      new;
      ValidMeansExpected();
    }

    /** `reactiveVariable(v)`: a new variable, not a member yet. */
    method NewVariable(k: K, v: V)
      requires Valid() && k !in vals
      modifies this
      ensures Valid() && vals == old(vals)[k := v] && members == old(members) && cached == old(cached)
    {
      ContributionsUnobserved(members, vals, k, v);
      vals := vals[k := v];
    }

    /** A change of the source set: a variable joins (its current value is emitted if new)
        or leaves (its value is emitted as removed if no other member holds it). */
    method HandleMembers(c: SetChange<K, ()>) returns (out: seq<SetChange<V, ()>>)
      requires Valid() && Fits(members, c) && c.element in vals
      modifies this
      ensures Valid() && members == Applied(old(members), c) && vals == old(vals)
      ensures cached == ValuesExpected(members, vals)
      ensures Leads(old(cached), out, cached) && |out| <= 1
    {
      match c {
      case Added(k, _) => out := OnMemberAdded(k);
      case Removed(k, _) => out := OnMemberRemoved(k);
      }
      ValidMeansExpected();
    }

    method OnMemberAdded(k: K) returns (out: seq<SetChange<V, ()>>)
      requires Valid() && k !in members && k in vals
      modifies this
      ensures Valid() && members == old(members) + {k} && vals == old(vals)
      ensures Leads(old(cached), out, cached) && |out| <= 1
    {
      cached, counts, out := Join(members, vals, cached, counts, k);
      members := members + {k};
    }

    method OnMemberRemoved(k: K) returns (out: seq<SetChange<V, ()>>)
      requires Valid() && k in members
      modifies this
      ensures Valid() && members == old(members) - {k} && vals == old(vals)
      ensures Leads(old(cached), out, cached) && |out| <= 1
    {
      cached, counts, out := Leave(members, vals, cached, counts, k);
      members := members - {k};
    }

    /** `variable.set(v)`: observed only while the variable is a member and only when the
        value really changes; then the old value is counted once less (`Removed` if it
        vanishes) and the new one once more (`Added` if it is new). */
    method SetVariable(k: K, v: V) returns (out: seq<SetChange<V, ()>>)
      requires Valid() && k in vals
      modifies this
      ensures Valid() && members == old(members) && vals == old(vals)[k := v]
      ensures cached == ValuesExpected(members, vals)
      ensures k !in members || old(vals)[k] == v ==> cached == old(cached) && out == []
      ensures Leads(old(cached), out, cached) && |out| <= 2
    {
      var vals' := vals[k := v];
      if k !in members || vals[k] == v {
        ContributionsUnobserved(members, vals, k, v);
        vals, out := vals', [];
      } else {
        cached, counts, out := Replace(members, vals, cached, counts, k, v);
        vals := vals';
      }
      ValidMeansExpected();
    }
  }

  /** `variable.flattenToSet()`: the view shows the contents of the set the variable
      currently holds. */
  class FlattenToSetBinding<K(==), T(==)> {
    /** the current contents of every known reactive set */
    var sets: map<K, set<T>>
    /** the set the variable holds */
    var current: K
    var cached: set<T>

    ghost predicate Valid()
      reads this
    {
      current in sets && cached == sets[current]
    }

    constructor (sets0: map<K, set<T>>, current0: K)
      requires current0 in sets0
      ensures Valid() && sets == sets0 && current == current0
    {
      sets, current := sets0, current0;
      cached := sets0[current0];
    }

    method NewSet(k: K, contents: set<T>)
      requires Valid() && k !in sets
      modifies this
      ensures Valid() && sets == old(sets)[k := contents] && current == old(current) && cached == old(cached)
    {
      sets := sets[k := contents];
    }

    /** A change of one of the sets: it reaches the view only if the variable holds that set. */
    method HandleElement(c: SetChange<T, K>) returns (out: seq<SetChange<T, ()>>)
      requires Valid() && c.source in sets && Fits(sets[c.source], c)
      modifies this
      ensures Valid() && current == old(current)
      ensures sets == old(sets)[c.source := Applied(old(sets)[c.source], c)]
      ensures c.source != current ==> cached == old(cached) && out == []
      ensures Leads(old(cached), out, cached) && |out| <= 1
    {
      var s := Applied(sets[c.source], c);
      out := [];
      if c.source == current {
        var d: SetChange<T, ()> := if c.Added? then Added(c.element, ()) else Removed(c.element, ());
        Emit(cached, [], d);
        out := [d];
        cached := s;
      }
      sets := sets[c.source := s];
    }

    /** `variable.set(k)`: the view switches to the contents of the newly held set,
        removing what that set lacks and then adding what it brings. */
    method Reassign(k: K) returns (out: seq<SetChange<T, ()>>)
      requires Valid() && k in sets
      modifies this
      ensures Valid() && current == k && sets == old(sets)
      ensures Leads(old(cached), out, cached)
    {
      var target := sets[k];
      out := [];
      var gone := cached - target;
      while gone != {}
        invariant gone <= cached && cached - gone <= target && target * old(cached) <= cached
        invariant cached <= old(cached) && sets == old(sets)
        invariant Leads(old(cached), out, cached)
        decreases gone
      {
        var x :| x in gone;
        Emit(old(cached), out, Removed(x, ()));
        out := out + [Removed(x, ())];
        cached := cached - {x};
        gone := gone - {x};
      }
      assert cached == target * old(cached);
      var incoming := target - cached;
      while incoming != {}
        invariant incoming <= target && cached !! incoming && cached + incoming == target
        invariant sets == old(sets)
        invariant Leads(old(cached), out, cached)
        decreases incoming
      {
        var x :| x in incoming;
        Emit(old(cached), out, Added(x, ()));
        out := out + [Added(x, ())];
        cached := cached + {x};
        incoming := incoming - {x};
      }
      current := k;
    }
  }
}
