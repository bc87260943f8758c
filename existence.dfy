/** The existence aggregates over a reactive collection: `all(predicate)` with a
    reactive predicate cell per element, `count(pred)` with a plain predicate, and the
    compositions `any`, `contains` and `containsAll` built from them. The collection is
    a set; its structural changes reach the aggregates as `added`/`removed` callbacks. */
module Existence {
  import opened Observers
  import opened Bindings
  import opened SetChanges

  /** What `all` must hold: every element of `s` fulfils `holds`. */
  predicate AllExpected<E>(s: set<E>, holds: E -> bool) {
    forall e :: e in s ==> holds(e)
  }

  /** The elements of `s` that satisfy `pred`. */
  function Matching<E>(s: set<E>, pred: E -> bool): set<E> {
    set e | e in s && pred(e)
  }

  lemma MatchingAdd<E>(s: set<E>, pred: E -> bool, e: E)
    requires e !in s
    ensures Matching(s + {e}, pred) == if pred(e) then Matching(s, pred) + {e} else Matching(s, pred)
    ensures pred(e) ==> e !in Matching(s, pred)
  {
  }

  lemma MatchingRemove<E>(s: set<E>, pred: E -> bool, e: E)
    requires e in s
    ensures Matching(s - {e}, pred) == if pred(e) then Matching(s, pred) - {e} else Matching(s, pred)
    ensures pred(e) ==> e in Matching(s, pred)
  {
  }

  /** What `count(pred)` must hold: the number of elements satisfying `pred`. */
  function CountExpected<E>(s: set<E>, pred: E -> bool): nat {
    |Matching(s, pred)|
  }

  /** `any(pred)` is `count(pred).greaterThan(0)`. */
  predicate AnyOf<E>(s: set<E>, pred: E -> bool) {
    CountExpected(s, pred) > 0
  }

  /** `contains(x)` is `any { it == x }`. */
  predicate ContainsOf<E(==)>(s: set<E>, x: E) {
    AnyOf(s, y => y == x)
  }

  /** `containsAll(es)` is `es.all { contains(it) }`. */
  predicate ContainsAllOf<E(==)>(s: set<E>, es: set<E>) {
    AllExpected(es, e => ContainsOf(s, e))
  }

  /** The elements of a plain list, as the unmodifiable reactive list wrapping it holds them. */
  function ListElements<E>(xs: seq<E>): set<E> {
    set i | 0 <= i < |xs| :: xs[i]
  }

  /** `containsAll(elements: Collection)` wraps the list and delegates. */
  predicate ContainsAllOfList<E(==)>(s: set<E>, xs: seq<E>) {
    ContainsAllOf(s, ListElements(xs))
  }

  lemma AnyMeansSome<E>(s: set<E>, pred: E -> bool)
    ensures AnyOf(s, pred) <==> exists e :: e in s && pred(e)
  {
    if e :| e in s && pred(e) {
      assert e in Matching(s, pred);
    }
  }

  lemma ContainsMeansMember<E>(s: set<E>, x: E)
    ensures ContainsOf(s, x) <==> x in s
  {
    AnyMeansSome(s, y => y == x);
  }

  lemma ContainsAllMeansSubset<E>(s: set<E>, es: set<E>)
    ensures ContainsAllOf(s, es) <==> es <= s
  {
    forall e | e in es {
      ContainsMeansMember(s, e);
    }
  }

  lemma ContainsAllOfListMeansEvery<E>(s: set<E>, xs: seq<E>)
    ensures ContainsAllOfList(s, xs) <==> forall i :: 0 <= i < |xs| ==> xs[i] in s
  {
    ContainsAllMeansSubset(s, ListElements(xs));
    assert forall i :: 0 <= i < |xs| ==> xs[i] in ListElements(xs);
  }

  /** The bookkeeping maps of `all` agree: every current element has an observer, which
      knows its element, and a current cell value. */
  ghost predicate Linked<E>(source: set<E>, observerOf: map<E, Observer>, elementOf: map<Observer, E>, cell: map<E, bool>) {
    && source <= observerOf.Keys
    && source <= cell.Keys
    && (forall e :: e in source ==> observerOf[e] in elementOf && elementOf[observerOf[e]] == e)
  }

  /** `failing` holds exactly the current elements whose cell is false. */
  ghost predicate Failing<E>(failing: set<E>, source: set<E>, cell: map<E, bool>) {
    && failing <= source
    && forall e :: e in source ==> (e in failing <==> e in cell && !cell[e])
  }

  /** The observers of the current elements are live, and every live observer belongs to
      a current element. */
  ghost predicate LiveExactly<E>(source: set<E>, observerOf: map<E, Observer>, elementOf: map<Observer, E>)
    reads elementOf.Keys
  {
    && (forall e :: e in source && e in observerOf && observerOf[e] in elementOf ==> !observerOf[e].killed)
    && (forall o :: o in elementOf && !o.killed ==> elementOf[o] in source && elementOf[o] in observerOf && observerOf[elementOf[o]] == o)
  }

  /** With the bookkeeping in order, the value is `true` exactly when every current
      element's cell is true. */
  lemma TrackedMeansAll<E>(source: set<E>, nonFulfilling: set<E>, observerOf: map<E, Observer>,
                           elementOf: map<Observer, E>, cell: map<E, bool>, value: bool)
    requires Tracked(source, nonFulfilling, observerOf, elementOf, cell, value)
    ensures value <==> forall e :: e in source ==> e in cell && cell[e]
  {
    if e :| e in source && !cell[e] {
      assert e in nonFulfilling;
    }
  }

  /** The value-level part of the invariant of `all`. */
  ghost predicate Tracked<E>(source: set<E>, nonFulfilling: set<E>, observerOf: map<E, Observer>, elementOf: map<Observer, E>,
                             cell: map<E, bool>, value: bool) {
    && Linked(source, observerOf, elementOf, cell)
    && Failing(nonFulfilling, source, cell)
    && value == (nonFulfilling == {})
  }

  lemma TrackedAdd<E>(source: set<E>, nonFulfilling: set<E>, observerOf: map<E, Observer>, elementOf: map<Observer, E>,
                      cell: map<E, bool>, value: bool, el: E, obs: Observer, holds: bool)
    requires Tracked(source, nonFulfilling, observerOf, elementOf, cell, value) && el !in source && obs !in elementOf
    ensures var nf := if holds then nonFulfilling else nonFulfilling + {el};
      Tracked(source + {el}, nf, observerOf[el := obs], elementOf[obs := el], cell[el := holds], nf == {})
  {
    LinkedAdd(source, observerOf, elementOf, cell, el, obs, holds);
    FailingAdd(nonFulfilling, source, cell, el, holds);
  }

  lemma LinkedAdd<E>(source: set<E>, observerOf: map<E, Observer>, elementOf: map<Observer, E>, cell: map<E, bool>,
                     el: E, obs: Observer, holds: bool)
    requires Linked(source, observerOf, elementOf, cell) && el !in source && obs !in elementOf
    ensures Linked(source + {el}, observerOf[el := obs], elementOf[obs := el], cell[el := holds])
  {
    forall e | e in source
      ensures observerOf[el := obs][e] in elementOf[obs := el] && elementOf[obs := el][observerOf[el := obs][e]] == e
    {
      assert observerOf[e] in elementOf;
    }
  }

  lemma FailingAdd<E>(failing: set<E>, source: set<E>, cell: map<E, bool>, el: E, holds: bool)
    requires Failing(failing, source, cell) && el !in source
    ensures Failing(if holds then failing else failing + {el}, source + {el}, cell[el := holds])
  {
  }

  lemma LiveAdd<E>(source: set<E>, observerOf: map<E, Observer>, elementOf: map<Observer, E>, el: E, obs: Observer)
    requires LiveExactly(source, observerOf, elementOf) && el !in source && obs !in elementOf && !obs.killed
    ensures LiveExactly(source + {el}, observerOf[el := obs], elementOf[obs := el])
  {
    var om, em := observerOf[el := obs], elementOf[obs := el];
    forall o | o in em && !o.killed
      ensures em[o] in source + {el} && em[o] in om && om[em[o]] == o
    {
      if o != obs {
        assert elementOf[o] in source;
      }
    }
  }

  /** `observeElement(el)`: a false cell puts `el` into `nonFulfilling`; the new observer
      of the cell is handed to `addObserver`. */
  method ObserveElement<E>(b: Binding<bool>, nonFulfilling: set<E>, el: E, holdsNow: bool)
    returns (obs: Observer, nonFulfilling': set<E>)
    modifies b`owned
    ensures fresh(obs) && !obs.killed
    ensures nonFulfilling' == if holdsNow then nonFulfilling else nonFulfilling + {el}
    ensures b.owned == old(b.owned) + [obs]
  {
    obs := new Observer();
    nonFulfilling' := if holdsNow then nonFulfilling else nonFulfilling + {el};
    b.AddObserver(obs);
  }

  /** The invariant of `all`: the bookkeeping is in order, the live observers are
      exactly those of the current elements, and every observer created by `all` and the
      collection observer `co` belong to the binding `b`. */
  ghost predicate AllState<E>(source: set<E>, nonFulfilling: set<E>, observerOf: map<E, Observer>,
                              elementOf: map<Observer, E>, cell: map<E, bool>, b: Binding<bool>, co: Observer)
    reads b, elementOf.Keys
  {
    && Tracked(source, nonFulfilling, observerOf, elementOf, cell, b.value)
    && LiveExactly(source, observerOf, elementOf)
    && co in b.owned && co !in elementOf && forall o :: o in elementOf ==> o in b.owned
  }

  /** The state of `all` once its binding is disposed: the collection observer and every
      element observer are killed, so no callback of `all` runs again. */
  ghost predicate Released<E>(elementOf: map<Observer, E>, co: Observer)
    reads co, elementOf.Keys
  {
    co.killed && forall o :: o in elementOf ==> o.killed
  }

  /** The body of `added`: the new element is observed and the value is recomputed; the
      invariant of `all` holds with the new element's entries. */
  method AdmitElement<E>(b: Binding<bool>, co: Observer, source: set<E>, nonFulfilling: set<E>,
                         observerOf: map<E, Observer>, elementOf: map<Observer, E>, cell: map<E, bool>,
                         el: E, holdsNow: bool)
    returns (obs: Observer, nonFulfilling': set<E>)
    requires el !in source && AllState(source, nonFulfilling, observerOf, elementOf, cell, b, co)
    modifies b`value, b`owned
    ensures fresh(obs) && b.owned == old(b.owned) + [obs]
    ensures nonFulfilling' == if holdsNow then nonFulfilling else nonFulfilling + {el}
    ensures AllState(source + {el}, nonFulfilling', observerOf[el := obs], elementOf[obs := el], cell[el := holdsNow], b, co)
  {
    obs, nonFulfilling' := ObserveElement(b, nonFulfilling, el, holdsNow);
    TrackedAdd(source, nonFulfilling, observerOf, elementOf, cell, b.value, el, obs, holdsNow);
    b.Set(nonFulfilling' == {});
    LiveAdd(source, observerOf, elementOf, el, obs);
  }

  /** The loop of `all` over the initial elements: each gets a fresh observer on its
      cell, owned by `b`, and a false cell puts it into the returned `nf`. */
  method ObserveAll<E>(b: Binding<bool>, initial: set<E>, holdsNow: E -> bool)
    returns (om: map<E, Observer>, em: map<Observer, E>, cm: map<E, bool>, nf: set<E>)
    modifies b`owned
    ensures Linked(initial, om, em, cm) && LiveExactly(initial, om, em) && Failing(nf, initial, cm)
    ensures forall e :: e in initial ==> cm[e] == holdsNow(e)
    ensures forall e :: e in initial ==> fresh(om[e])
    ensures forall o :: o in em ==> o in b.owned
    ensures forall o :: o in b.owned ==> o in old(b.owned) || fresh(o)
  {
    om, em, cm, nf := map[], map[], map[], {};
    var rest, done := initial, {};
    while rest != {}
      invariant rest + done == initial && rest !! done
      invariant Linked(done, om, em, cm) && LiveExactly(done, om, em)
      invariant Failing(nf, done, cm)
      invariant forall e :: e in done ==> cm[e] == holdsNow(e)
      invariant forall e :: e in done ==> fresh(om[e])
      invariant forall o :: o in em ==> o in b.owned
      invariant forall o :: o in b.owned ==> o in old(b.owned) || fresh(o)
      decreases rest
    {
      var el :| el in rest;
      ghost var nf0 := nf;
      var obs;
      obs, nf := ObserveElement(b, nf, el, holdsNow(el));
      LinkedAdd(done, om, em, cm, el, obs, holdsNow(el));
      FailingAdd(nf0, done, cm, el, holdsNow(el));
      LiveAdd(done, om, em, el, obs);
      om, em, cm := om[el := obs], em[obs := el], cm[el := holdsNow(el)];
      rest, done := rest - {el}, done + {el};
    }
  }

  /** The body of `all`: the binding starts at `true`, observes every initial element's
      cell, is set to whether no cell is false, and owns the collection observer. */
  method SetUpAll<E>(initial: set<E>, holdsNow: E -> bool)
    returns (b: Binding<bool>, co: Observer, om: map<E, Observer>, em: map<Observer, E>, cm: map<E, bool>, nf: set<E>)
    ensures fresh(b) && fresh(co) && !b.disposed && !co.killed
    ensures Linked(initial, om, em, cm) && LiveExactly(initial, om, em) && Failing(nf, initial, cm)
    ensures forall e :: e in initial ==> cm[e] == holdsNow(e)
    ensures forall e :: e in initial ==> fresh(om[e])
    ensures co in b.owned && co !in em && forall o :: o in em ==> o in b.owned
    ensures b.value == (nf == {}) && forall o :: o in b.owned ==> fresh(o)
  {
    b := new Binding(true);
    om, em, cm, nf := ObserveAll(b, initial, holdsNow);
    b.Set(nf == {});
    co := new Observer();
    b.AddObserver(co);
  }

  /** `all(predicate)`. Each element `el` gets its own predicate cell `predicate(el)`,
      observed by a fresh observer that knows `el` (the closure's capture, `elementOf`);
      `cell` holds the current value of each current element's cell. The map
      `observerOf` from elements to observers keeps the entries of removed elements
      (their observers are killed), as the source's map does. */
  class AllBinding<E(==)> {
    const binding: Binding<bool>
    const collectionObserver: Observer
    /** the elements of the observed collection */
    var source: set<E>
    var nonFulfilling: set<E>
    var observerOf: map<E, Observer>
    var elementOf: map<Observer, E>
    var cell: map<E, bool>

    /** every current element's cell is true */
    ghost predicate AllFulfil()
      reads this
    {
      forall e :: e in source ==> e in cell && cell[e]
    }

    /** While the collection observer is live the bookkeeping is in order; once the
        binding is disposed every observer of `all` is killed. */
    ghost predicate Valid()
      reads this, binding, collectionObserver, elementOf.Keys
    {
      if collectionObserver.killed then Released(elementOf, collectionObserver)
      else AllState(source, nonFulfilling, observerOf, elementOf, cell, binding, collectionObserver)
    }

    /** Until the binding is disposed, the value is `true` exactly when every current
        element's predicate holds. */
    lemma ValueMeansAll()
      requires Valid() && !collectionObserver.killed
      ensures binding.value <==> AllFulfil()
    {
      TrackedMeansAll(source, nonFulfilling, observerOf, elementOf, cell, binding.value);
    }

    /** Every current element gets an observer on its cell; those whose cell is false start
        out in `nonFulfilling`; then the value is set and the collection is observed. */
    constructor (initial: set<E>, holdsNow: E -> bool)
      ensures !binding.disposed && !collectionObserver.killed
      ensures Valid() && source == initial
      ensures nonFulfilling == Matching(initial, e => !holdsNow(e))
      ensures binding.value <==> AllExpected(initial, holdsNow)
      ensures forall e :: e in initial ==> cell[e] == holdsNow(e)
      ensures fresh(binding) && fresh(collectionObserver) && forall e :: e in initial ==> fresh(observerOf[e])
      ensures forall o :: o in binding.owned ==> fresh(o)
    {
      var b, co, om, em, cm, nf := SetUpAll(initial, holdsNow);
      binding, collectionObserver := b, co;
      source, nonFulfilling, observerOf, elementOf, cell := initial, nf, om, em, cm;
      new;
      ValueMeansAll();
    }

    /** The cell watched by `o` now holds `fulfills`: a live observer moves its element out
        of or into `nonFulfilling` and resets the value; a killed one never fires. */
    method OnPredicateChanged(o: Observer, fulfills: bool)
      requires Valid() && o in elementOf
      modifies this, binding`value
      ensures Valid() && source == old(source) && observerOf == old(observerOf) && elementOf == old(elementOf)
      ensures o.killed ==> cell == old(cell) && nonFulfilling == old(nonFulfilling) && binding.value == old(binding.value)
      ensures !o.killed ==> cell == old(cell)[elementOf[o] := fulfills]
      ensures !o.killed && fulfills ==> nonFulfilling == old(nonFulfilling) - {elementOf[o]}
      ensures !o.killed && !fulfills ==> nonFulfilling == old(nonFulfilling) + {elementOf[o]}
      ensures collectionObserver.killed ==> o.killed
      ensures !collectionObserver.killed ==> (binding.value <==> AllFulfil())
    {
      if !o.killed {
        var el := elementOf[o];
        nonFulfilling := if fulfills then nonFulfilling - {el} else nonFulfilling + {el};
        cell := cell[el := fulfills];
        binding.Set(nonFulfilling == {});
      }
      if !collectionObserver.killed {
        ValueMeansAll();
      }
    }

    /** `added`: the new element's cell (currently `holdsNow`) is observed, its observer
        recorded in the map and owned by the binding, and the value recomputed. After
        dispose the killed collection observer no longer calls `added`. */
    method OnAdded(el: E, holdsNow: bool)
      requires Valid() && el !in source
      modifies this, binding`value, binding`owned
      ensures Valid() && source == old(source) + {el}
      ensures collectionObserver.killed ==> binding.value == old(binding.value) && elementOf == old(elementOf)
      ensures !collectionObserver.killed ==> cell == old(cell)[el := holdsNow] && fresh(observerOf[el])
      ensures !collectionObserver.killed ==>
        nonFulfilling == if holdsNow then old(nonFulfilling) else old(nonFulfilling) + {el}
      ensures collectionObserver.killed ==>
        nonFulfilling == old(nonFulfilling) && cell == old(cell) && observerOf == old(observerOf) && binding.owned == old(binding.owned)
      ensures !collectionObserver.killed ==>
        observerOf == old(observerOf)[el := observerOf[el]] && elementOf == old(elementOf)[observerOf[el] := el] &&
        binding.owned == old(binding.owned) + [observerOf[el]]
      ensures !collectionObserver.killed ==> (binding.value <==> AllFulfil())
    {
      if collectionObserver.killed {
        source := source + {el};
      } else {
        Admit(el, holdsNow);
        ValueMeansAll();
      }
    }

    /** The live case of `added`. */
    method Admit(el: E, holdsNow: bool)
      requires !collectionObserver.killed && el !in source
      requires AllState(source, nonFulfilling, observerOf, elementOf, cell, binding, collectionObserver)
      modifies this, binding`value, binding`owned
      ensures AllState(source, nonFulfilling, observerOf, elementOf, cell, binding, collectionObserver)
      ensures source == old(source) + {el} && cell == old(cell)[el := holdsNow] && fresh(observerOf[el])
      ensures nonFulfilling == if holdsNow then old(nonFulfilling) else old(nonFulfilling) + {el}
      ensures observerOf == old(observerOf)[el := observerOf[el]] && elementOf == old(elementOf)[observerOf[el] := el] &&
        binding.owned == old(binding.owned) + [observerOf[el]]
    {
      var obs, nf := AdmitElement(binding, collectionObserver, source, nonFulfilling, observerOf, elementOf, cell, el, holdsNow);
      observerOf, elementOf, cell := observerOf[el := obs], elementOf[obs := el], cell[el := holdsNow];
      source, nonFulfilling := source + {el}, nf;
    }

    /** `removed`: the element's observer is killed, so later changes of its cell are
        ignored; it leaves `nonFulfilling` and the value is recomputed. After dispose the
        killed collection observer no longer calls `removed`. */
    method OnRemoved(el: E)
      requires Valid() && el in source
      modifies this, binding`value, if el in observerOf then {observerOf[el]} else {}
      ensures Valid() && source == old(source) - {el} && collectionObserver.killed == old(collectionObserver.killed)
      ensures observerOf == old(observerOf) && elementOf == old(elementOf) && cell == old(cell)
      ensures collectionObserver.killed ==> binding.value == old(binding.value) && nonFulfilling == old(nonFulfilling)
      ensures !collectionObserver.killed ==> old(observerOf)[el].killed && nonFulfilling == old(nonFulfilling) - {el}
      ensures !collectionObserver.killed ==> (binding.value <==> AllFulfil())
    {
      if collectionObserver.killed {
        source := source - {el};
        return;
      }
      var obs := observerOf[el];
      obs.Kill();
      nonFulfilling := nonFulfilling - {el};
      source := source - {el};
      binding.Set(nonFulfilling == {});
      ValueMeansAll();
    }

    /** `dispose()` of the binding: it kills the collection observer and every element
        observer, all of which `all` handed to `addObserver`; the value stays. */
    method Dispose()
      requires Valid()
      modifies binding`disposed, binding.owned
      ensures Valid() && binding.disposed && collectionObserver.killed
      ensures binding.value == old(binding.value)
    {
      binding.Dispose();
    }
  }

  /** `count(pred)` as written: `removed` raises the value by one when the element is in
      `matchingElements`, which never shrinks, and the collection observer is not handed
      to `addObserver`, so it is not owned by the binding. */
  class CountBinding<E(==)> {
    const pred: E -> bool
    const binding: Binding<int>
    const collectionObserver: Observer
    var source: set<E>
    var matching: set<E>

    /** `value == |matchingElements| == |{e in now | pred e}|` */
    ghost predicate Exact()
      reads this, binding
    {
      matching == Matching(source, pred) && binding.value == |matching|
    }

    /** The binding owns no observer: the collection observer was never handed to
        `addObserver`, and nothing kills it. */
    ghost predicate Valid()
      reads this, binding, collectionObserver
    {
      binding.owned == [] && !collectionObserver.killed
    }

    constructor (initial: set<E>, pred: E -> bool)
      ensures Valid() && Exact() && source == initial && this.pred == pred
      ensures binding.value == CountExpected(initial, pred)
      ensures fresh(binding) && fresh(collectionObserver)
    {
      this.pred := pred;
      var m := Matching(initial, pred);
      binding := new Binding(|m|);
      collectionObserver := new Observer();
      source, matching := initial, m;
    }

    /** `added`: a matching element is recorded and the value raised by one; a
        non-matching element changes nothing. From an exact state the result is exact. */
    method OnAdded(e: E)
      requires Valid() && e !in source
      modifies this, binding`value
      ensures Valid() && source == old(source) + {e}
      ensures pred(e) ==> binding.value == old(binding.value) + 1 && matching == old(matching) + {e}
      ensures !pred(e) ==> binding.value == old(binding.value) && matching == old(matching)
      ensures old(Exact()) ==> Exact() && binding.value == CountExpected(source, pred)
    {
      if pred(e) {
        matching := matching + {e};
        binding.Set(binding.value + 1);
      }
      MatchingAdd(old(source), pred, e);
      source := source + {e};
    }

    /** `removed` as written. */
    method OnRemoved(e: E)
      requires Valid() && e in source
      modifies this, binding`value
      ensures Valid() && source == old(source) - {e} && matching == old(matching)
      ensures binding.value == if e in matching then old(binding.value) + 1 else old(binding.value)
    {
      if e in matching {
        binding.Set(binding.value + 1);
      }
      source := source - {e};
    }

    /** Disposing the binding leaves the collection observer live. */
    method Dispose()
      requires Valid()
      modifies binding`disposed, binding.owned
      ensures Valid() && binding.disposed && !collectionObserver.killed
    {
      binding.Dispose();
    }
  }

  /** `count(pred)` as evidently intended: `removed` lowers the value and forgets the
      element, and the collection observer belongs to the binding, so after disposal no
      change reaches the value any more. */
  class CountCorrected<E(==)> {
    const pred: E -> bool
    const binding: Binding<int>
    const collectionObserver: Observer
    var source: set<E>
    var matching: set<E>

    ghost predicate Valid()
      reads this, binding, collectionObserver
    {
      && binding.owned == [collectionObserver]
      && (!collectionObserver.killed ==> matching == Matching(source, pred) && binding.value == |matching|)
    }

    constructor (initial: set<E>, pred: E -> bool)
      ensures Valid() && source == initial && this.pred == pred
      ensures binding.value == CountExpected(initial, pred)
      ensures !collectionObserver.killed && !binding.disposed
      ensures fresh(binding) && fresh(collectionObserver)
    {
      this.pred := pred;
      var m := Matching(initial, pred);
      var b := new Binding(|m|);
      var co := new Observer();
      b.AddObserver(co);
      binding, collectionObserver := b, co;
      source, matching := initial, m;
    }

    /** While live, the value is the number of current elements satisfying `pred`. */
    lemma ValidMeansExpected()
      requires Valid() && !collectionObserver.killed
      ensures binding.value == CountExpected(source, pred)
    {
    }

    /** `any(pred)`: `count(pred) > 0` means that some current element satisfies `pred`. */
    lemma AnyMeansSomeMatches()
      requires Valid() && !collectionObserver.killed
      ensures binding.value > 0 <==> exists e :: e in source && pred(e)
    {
      AnyMeansSome(source, pred);
    }

    method Handle(c: SetChange<E, ()>)
      requires Valid() && Fits(source, c)
      modifies this, binding`value
      ensures Valid() && source == Applied(old(source), c)
      ensures collectionObserver.killed ==> binding.value == old(binding.value)
      ensures !collectionObserver.killed ==> binding.value == CountExpected(source, pred)
    {
      match c {
      case Added(e, _) => OnAdded(e);
      case Removed(e, _) => OnRemoved(e);
      }
    }

    /** `added`: a matching element is recorded and the value raised by one. */
    method OnAdded(e: E)
      requires Valid() && e !in source
      modifies this, binding`value
      ensures Valid() && source == old(source) + {e}
      ensures collectionObserver.killed ==> binding.value == old(binding.value)
      ensures !collectionObserver.killed ==> binding.value == CountExpected(source, pred)
    {
      if !collectionObserver.killed {
        MatchingAdd(source, pred, e);
        if pred(e) {
          matching := matching + {e};
          binding.Set(binding.value + 1);
        }
      }
      source := source + {e};
    }

    /** `removed`: a matching element is forgotten and the value lowered by one. */
    method OnRemoved(e: E)
      requires Valid() && e in source
      modifies this, binding`value
      ensures Valid() && source == old(source) - {e}
      ensures collectionObserver.killed ==> binding.value == old(binding.value)
      ensures !collectionObserver.killed ==> binding.value == CountExpected(source, pred)
    {
      if !collectionObserver.killed {
        MatchingRemove(source, pred, e);
        if pred(e) {
          matching := matching - {e};
          binding.Set(binding.value - 1);
        }
      }
      source := source - {e};
    }

    method Dispose()
      requires Valid()
      modifies binding`disposed, collectionObserver
      ensures Valid() && binding.disposed && collectionObserver.killed
      ensures binding.value == old(binding.value)
    {
      binding.Dispose();
    }
  }
}
