/** Concrete replays for the value-level bindings: `sum`, `binding(dependencies, compute)`,
    `constantBinding`, `lastFired`, `all`, and `count`/`any`/`contains` both as written
    and as evidently intended. */
module BindingScenarios {
  import opened Observers
  import opened Bindings
  import opened Events
  import opened SetChanges
  import opened Bags
  import opened NumericBindings
  import opened Existence

  lemma SetSumOfFour(a: int, b: int, c: int, d: int)
    requires a != b && a != c && a != d && b != c && b != d && c != d
    ensures SetSum({a, b, c, d}) == a + b + c + d
  {
    assert SetSum({}) == 0;
    SetSumAdd({}, a);
    assert {} + {a} == {a};
    SetSumAdd({a}, b);
    assert {a} + {b} == {a, b};
    SetSumAdd({a, b}, c);
    assert {a, b} + {c} == {a, b, c};
    SetSumAdd({a, b, c}, d);
    assert {a, b, c} + {d} == {a, b, c, d};
  }

  /** `set.sum()` over `{1, 2, 3, 4}`: add 7, add -3, remove 4, remove -3. */
  method SumScenario() returns (sums: seq<int>)
    ensures sums == [10, 17, 14, 10, 13]
  {
    SetSumOfFour(1, 2, 3, 4);
    var s := new SumBinding({1, 2, 3, 4});
    var s0 := s.sum;
    s.Handle(Added(7, ()));
    var s1 := s.sum;
    s.Handle(Added(-3, ()));
    var s2 := s.sum;
    s.Handle(Removed(4, ()));
    var s3 := s.sum;
    s.Handle(Removed(-3, ()));
    sums := [s0, s1, s2, s3, s.sum];
  }

  function Double(x: int): int { 2 * x }

  /** `binding(deps) { 2 * x }` with `x == 3`: recomputed to 10 when `x` becomes 5; once
      disposed, a further change of `x` no longer reaches it. */
  method DependentScenario() returns (values: seq<int>)
    ensures values == [6, 10, 10]
  {
    var d := new DependentBinding(3, Double);
    var v0 := d.binding.value;
    d.Invalidate(5);
    var v1 := d.binding.value;
    d.Dispose();
    d.Invalidate(7);
    values := [v0, v1, d.binding.value];
  }

  /** `constantBinding(5)` reads 5, and disposing it changes nothing. */
  method ConstantScenario() returns (values: seq<int>)
    ensures values == [5, 5]
  {
    var r := ConstantBinding(5);
    var v0 := BindingNow(r);
    DisposeRef(r);
    values := [v0, BindingNow(r)];
  }

  /** An event stream's `lastFired` is `None` until 42 is emitted; a subscriber receives 42,
      and after its subscription is killed it misses the next value 7, which `lastFired`
      still records. */
  method LastFiredScenario() returns (fired: seq<Option<int>>, received: seq<int>)
    ensures fired == [None, Some(42), Some(7)]
    ensures received == [42]
  {
    var e := new EventStream<int>();
    var f0 := e.lastFired.value;
    var s := e.Subscribe();
    assert e.handlers[1] == s;
    e.DoEmit(42);
    var f1 := e.lastFired.value;
    assert e.handlers[1] == s;
    s.Kill();
    e.DoEmit(7);
    assert e.handlers[1] == s;
    fired, received := [f0, f1, e.lastFired.value], s.received;
  }

  predicate IsOne(x: int) { x == 1 }

  /** `all` over `{1, 2}` whose cells hold `x == 1`: false, since 2's cell is false. */
  method AllCreated() returns (a: AllBinding<int>, o2: Observer)
    ensures fresh(a) && !a.collectionObserver.killed && a.Valid() && a.source == {1, 2} && 1 in a.cell && a.cell[1]
    ensures fresh(a.binding) && fresh(o2) && o2 == a.observerOf[2] && !a.binding.value
  {
    a := new AllBinding({1, 2}, IsOne);
    assert 2 in a.source && !a.cell[2];
    o2 := a.observerOf[2];
  }

  /** Removing 2 leaves only 1, whose cell is true: the value becomes true, and 2's
      observer is killed. */
  method AllRemoveTwo(a: AllBinding<int>, o2: Observer)
    requires !a.collectionObserver.killed && a.Valid() && a.source == {1, 2} && 1 in a.cell && a.cell[1] && o2 == a.observerOf[2]
    modifies a, a.binding`value, o2
    ensures !a.collectionObserver.killed && a.Valid() && a.source == {1} && 1 in a.cell && a.cell[1]
    ensures o2 in a.elementOf && o2.killed && a.binding.value
  {
    a.OnRemoved(2);
    assert a.source == {1};
  }

  /** A later change of 2's cell reaches a killed observer and is ignored. */
  method AllIgnoreTwo(a: AllBinding<int>, o2: Observer)
    requires !a.collectionObserver.killed && a.Valid() && a.source == {1} && 1 in a.cell && a.cell[1] && o2 in a.elementOf && o2.killed
    modifies a, a.binding`value
    ensures !a.collectionObserver.killed && a.Valid() && a.source == {1} && 1 in a.cell && a.cell[1] && a.binding.value
  {
    a.OnPredicateChanged(o2, false);
  }

  /** Adding 3 with a false cell makes the value false. */
  method AllAddThree(a: AllBinding<int>) returns (o3: Observer)
    requires !a.collectionObserver.killed && a.Valid() && a.source == {1} && 1 in a.cell && a.cell[1]
    modifies a, a.binding`value, a.binding`owned
    ensures !a.collectionObserver.killed && a.Valid() && a.source == {1, 3} && 1 in a.cell && a.cell[1] && !a.binding.value
    ensures o3 in a.elementOf && a.elementOf[o3] == 3 && !o3.killed
  {
    a.OnAdded(3, false);
    assert 3 in a.source && !a.cell[3];
    o3 := a.observerOf[3];
  }

  /** 3's cell turning true makes the value true again. */
  method AllFulfilThree(a: AllBinding<int>, o3: Observer)
    requires !a.collectionObserver.killed && a.Valid() && a.source == {1, 3} && 1 in a.cell && a.cell[1]
    requires o3 in a.elementOf && a.elementOf[o3] == 3 && !o3.killed
    modifies a, a.binding`value
    ensures a.binding.value
  {
    a.OnPredicateChanged(o3, true);
    assert a.source == {1, 3};
  }

  /** Creation, the removal of 2 and the ignored change of its cell. */
  method AllFirstSteps() returns (a: AllBinding<int>, v0: bool, v1: bool, v2: bool)
    ensures fresh(a) && fresh(a.binding) && !a.collectionObserver.killed && a.Valid() && a.source == {1} && 1 in a.cell && a.cell[1]
    ensures !v0 && v1 && v2
  {
    var o2;
    a, o2 := AllCreated();
    v0 := a.binding.value;
    AllRemoveTwo(a, o2);
    v1 := a.binding.value;
    AllIgnoreTwo(a, o2);
    v2 := a.binding.value;
  }

  /** `all` over `{1, 2}` whose cells hold `x == 1`: false; removing 2 makes it true, and a
      later change of 2's cell is ignored; adding 3 with a false cell makes it false, and
      3's cell turning true makes it true again. */
  method AllScenario() returns (values: seq<bool>)
    ensures values == [false, true, true, false, true]
  {
    var a, v0, v1, v2 := AllFirstSteps();
    var o3 := AllAddThree(a);
    var v3 := a.binding.value;
    AllFulfilThree(a, o3);
    values := [v0, v1, v2, v3, a.binding.value];
  }

  /** `all` hands its collection observer to `addObserver`, so after `dispose` the
      addition of 1 with a false cell is not seen and the value stays true. */
  method AllDisposeScenario() returns (disposed: bool, value: bool)
    ensures disposed && value
  {
    var a := new AllBinding({}, IsOne);
    assert fresh(set o | o in a.binding.owned);
    a.Dispose();
    a.OnAdded(1, false);
    disposed, value := a.binding.disposed, a.binding.value;
  }

  predicate Positive(x: int) { x > 0 }

  /** `count { it > 0 }` over `{1}` as written: removing 1 raises the value to 2 instead of
      lowering it to the true count 0. */
  method CountRemovalAsWritten() returns (value: int, expected: nat)
    ensures value == 2 && expected == 0
  {
    var c := new CountBinding({1}, Positive);
    assert Matching({1}, Positive) == {1};
    c.OnRemoved(1);
    value, expected := c.binding.value, CountExpected(c.source, Positive);
  }

  /** The same removal with the corrected `count`: the value follows the true count. */
  method CountRemovalCorrected() returns (value: int, expected: nat)
    ensures value == 0 && expected == 0
  {
    var c := new CountCorrected({1}, Positive);
    assert Matching({1}, Positive) == {1};
    c.Handle(Removed(1, ()));
    value, expected := c.binding.value, CountExpected(c.source, Positive);
  }

  /** `contains(1)` over `{1}` as written (`any { it == 1 }`, that is `count > 0`): it
      stays true after 1 is removed. */
  method ContainsAsWritten() returns (reported: bool, expected: bool)
    ensures reported && !expected
  {
    var c := new CountBinding({1}, IsOne);
    assert Matching({1}, IsOne) == {1};
    c.OnRemoved(1);
    reported, expected := c.binding.value > 0, ContainsOf(c.source, 1);
    ContainsMeansMember(c.source, 1);
  }

  /** `containsAll({1})` over `{1}` as written: `elements.all { contains(it) }`, whose one
      cell is the as-written `contains(1)`. Removing 1 leaves that cell true, so the
      value stays true. */
  method ContainsAllAsWritten() returns (reported: bool, expected: bool)
    ensures reported && !expected
  {
    var c := new CountBinding({1}, IsOne);
    assert Matching({1}, IsOne) == {1};
    var contained := c.binding.value > 0;
    var a := new AllBinding({1}, x => contained);
    c.OnRemoved(1);
    assert c.binding.value > 0;
    reported, expected := a.binding.value, ContainsAllOf(c.source, {1});
    ContainsAllMeansSubset(c.source, {1});
  }

  /** The same removal with the corrected `count`: the cell `contains(1)` turns false,
      its observer reports it, and `containsAll({1})` becomes false. */
  method ContainsAllCorrected() returns (reported: bool, expected: bool)
    ensures !reported && !expected
  {
    var c := new CountCorrected({1}, IsOne);
    assert Matching({1}, IsOne) == {1};
    var contained := c.binding.value > 0;
    var a := new AllBinding({1}, x => contained);
    c.Handle(Removed(1, ()));
    assert Matching({}, IsOne) == {};
    a.OnPredicateChanged(a.observerOf[1], c.binding.value > 0);
    reported, expected := a.binding.value, ContainsAllOf(c.source, {1});
    ContainsAllMeansSubset(c.source, {1});
  }

  /** `count` as written over the empty set: after `dispose`, its collection observer is
      still live, so adding 5 still changes the value. */
  method CountDisposeAsWritten() returns (disposed: bool, value: int)
    ensures disposed && value == 1
  {
    var c := new CountBinding({}, Positive);
    assert Matching({}, Positive) == {};
    c.Dispose();
    c.OnAdded(5);
    disposed, value := c.binding.disposed, c.binding.value;
  }

  /** The corrected `count` owns its collection observer: after `dispose` it stays 0. */
  method CountDisposeCorrected() returns (disposed: bool, value: int)
    ensures disposed && value == 0
  {
    var c := new CountCorrected({}, Positive);
    assert Matching({}, Positive) == {};
    c.Dispose();
    c.Handle(Added(5, ()));
    disposed, value := c.binding.disposed, c.binding.value;
  }
}
