/** Step-by-step replays of the concrete scenarios the set-binding and numeric-binding
    specifications run: each method builds the view over fresh sources, applies the
    scenario's mutations as the changes they emit, and returns what the view holds after
    each step (and, where the scenario pins it down, what it emitted). */
module SetScenarios {
  import opened Observers
  import opened Bindings
  import opened Events
  import opened SetChanges
  import opened Bags
  import opened ElementViews
  import opened BinaryViews
  import opened NestedViews
  import opened NumericBindings
  import opened Existence

  function Square(x: int): int { x * x }

  predicate IsEven(x: int) { x % 2 == 0 }

  lemma MapOfThree<T, U>(a: T, b: T, c: T, f: T -> U)
    ensures MapExpected({a, b, c}, f) == {f(a), f(b), f(c)}
  {
  }

  lemma MapOfFour<T, U>(a: T, b: T, c: T, d: T, f: T -> U)
    ensures MapExpected({a, b, c, d}, f) == {f(a), f(b), f(c), f(d)}
  {
  }

  lemma SquareFacts()
    ensures MapExpected({1, 2, 3}, Square) == {1, 4, 9}
    ensures MapExpected({1, 2, 3, 4}, Square) == {1, 4, 9, 16}
    ensures MapExpected({1, 3, 4}, Square) == {1, 9, 16}
  {
    MapOfThree(1, 2, 3, Square);
    MapOfFour(1, 2, 3, 4, Square);
    MapOfThree(1, 3, 4, Square);
  }

  /** `set.map { it * it }` over `{1, 2, 3}`. */
  method MapCreated() returns (m: MapBinding<int, int>)
    ensures fresh(m) && m.Valid() && m.source == {1, 2, 3} && m.f == Square
    ensures m.cached == {1, 4, 9}
  {
    m := new MapBinding({1, 2, 3}, Square);
    SquareFacts();
  }

  /** Adding 4 adds its square. */
  method MapAddFour(m: MapBinding<int, int>)
    requires m.Valid() && m.source == {1, 2, 3} && m.f == Square
    modifies m
    ensures m.Valid() && m.source == {1, 2, 3, 4} && m.cached == {1, 4, 9, 16}
  {
    var _ := m.Handle(Added(4, ()));
    assert {1, 2, 3} + {4} == {1, 2, 3, 4};
    SquareFacts();
  }

  /** Removing 2 removes its square. */
  method MapRemoveTwo(m: MapBinding<int, int>)
    requires m.Valid() && m.source == {1, 2, 3, 4} && m.f == Square
    modifies m
    ensures m.Valid() && m.cached == {1, 9, 16}
  {
    var _ := m.Handle(Removed(2, ()));
    assert {1, 2, 3, 4} - {2} == {1, 3, 4};
    SquareFacts();
  }

  /** `set.map { it * it }` over `{1, 2, 3}`: add 4, remove 2, clear. */
  method MapScenario() returns (views: seq<set<int>>)
    ensures views == [{1, 4, 9}, {1, 4, 9, 16}, {1, 9, 16}, {}]
  {
    var m := MapCreated();
    var v0 := m.cached;
    MapAddFour(m);
    var v1 := m.cached;
    MapRemoveTwo(m);
    var v2 := m.cached;
    var _ := m.Clear();
    views := [v0, v1, v2, m.cached];
  }

  lemma EvenFacts()
    ensures FilterExpected({1, 2, 3}, IsEven) == {2}
    ensures FilterExpected({1, 2, 3, 4}, IsEven) == {2, 4}
    ensures FilterExpected({1, 3, 4}, IsEven) == {4}
  {
    assert forall x :: x in {1, 2, 3} ==> (IsEven(x) <==> x == 2);
    assert forall x :: x in {1, 2, 3, 4} ==> (IsEven(x) <==> x == 2 || x == 4);
    assert forall x :: x in {1, 3, 4} ==> (IsEven(x) <==> x == 4);
  }

  /** `set.filter { it % 2 == 0 }` over `{1, 2, 3}`: add 4, remove 2, add 7, remove 1, clear;
      the odd elements pass silently. */
  method FilterScenario() returns (views: seq<set<int>>, silent: seq<bool>)
    ensures views == [{2}, {2, 4}, {4}, {4}, {4}, {}]
    ensures silent == [false, false, true, true]
  {
    EvenFacts();
    var f := new FilterBinding({1, 2, 3}, IsEven);
    var v0 := f.cached;
    var c1 := AddChange(f.source, 4, ());
    var o1 := f.Handle(c1.value);
    assert f.source == {1, 2, 3, 4};
    var v1 := f.cached;
    var c2 := RemoveChange(f.source, 2, ());
    var o2 := f.Handle(c2.value);
    assert f.source == {1, 3, 4};
    var v2 := f.cached;
    var c3 := AddChange(f.source, 7, ());
    var o3 := f.Handle(c3.value);
    var v3 := f.cached;
    var c4 := RemoveChange(f.source, 1, ());
    var o4 := f.Handle(c4.value);
    var v4 := f.cached;
    var _ := f.Clear();
    views := [v0, v1, v2, v3, v4, f.cached];
    SilentIffUnchanged(v0, o1);
    SilentIffUnchanged(v1, o2);
    silent := [o1 == [], o2 == [], o3 == [], o4 == []];
  }

  /** `set1 + set2` over `{1, 2, 3}` and `{3, 4, 5}`: add 0 to the first, add 1 to the
      second (already there), remove 3 from the second (still in the first), remove 3
      from the first. */
  method UnionScenario() returns (views: seq<set<int>>, outs: seq<seq<SetChange<int, ()>>>)
    ensures views == [{1, 2, 3, 4, 5}, {0, 1, 2, 3, 4, 5}, {0, 1, 2, 3, 4, 5}, {0, 1, 2, 3, 4, 5}, {0, 1, 2, 4, 5}]
    ensures outs == [[Added(0, ())], [], [], [Removed(3, ())]]
  {
    var u := new UnionBinding({1, 2, 3}, {3, 4, 5});
    var v0 := u.cached;
    assert v0 == {1, 2, 3, 4, 5};
    var c1 := AddChange(u.left, 0, Left);
    var o1 := u.Handle(c1.value);
    var v1 := u.cached;
    assert v1 == {0, 1, 2, 3, 4, 5};
    AddedWhenGrown(v0, o1, 0);
    var c2 := AddChange(u.right, 1, Right);
    var o2 := u.Handle(c2.value);
    var v2 := u.cached;
    assert v2 == {0, 1, 2, 3, 4, 5};
    SilentIffUnchanged(v1, o2);
    var c3 := RemoveChange(u.right, 3, Right);
    var o3 := u.Handle(c3.value);
    var v3 := u.cached;
    assert v3 == {0, 1, 2, 3, 4, 5};
    SilentIffUnchanged(v2, o3);
    assert u.left == {0, 1, 2, 3};
    var c4 := RemoveChange(u.left, 3, Left);
    var o4 := u.Handle(c4.value);
    var v4 := u.cached;
    assert v4 == {0, 1, 2, 4, 5};
    RemovedWhenShrunk(v3, o4, 3);
    views, outs := [v0, v1, v2, v3, v4], [o1, o2, o3, o4];
  }

  /** `set1 - set2` over `{1, 2, 3}` and `{2, 3, 4}`: four changes of the source set, then
      four of the subtracted set. */
  method DifferenceScenario() returns (views: seq<set<int>>, outs: seq<seq<SetChange<int, ()>>>)
    ensures views == [{1}, {0, 1}, {0, 1}, {0}, {0}, {}, {}, {3}, {3}]
    ensures outs == [[Added(0, ())], [], [Removed(1, ())], [], [Removed(0, ())], [], [Added(3, ())], []]
  {
    var d := new DifferenceBinding({1, 2, 3}, {2, 3, 4});
    var v0 := d.cached;
    assert v0 == {1};
    var o1 := d.Handle(Added(0, Left));
    var v1 := d.cached;
    assert v1 == {0, 1};
    AddedWhenGrown(v0, o1, 0);
    var o2 := d.Handle(Added(4, Left));
    var v2 := d.cached;
    assert v2 == {0, 1};
    SilentIffUnchanged(v1, o2);
    var o3 := d.Handle(Removed(1, Left));
    var v3 := d.cached;
    assert v3 == {0};
    RemovedWhenShrunk(v2, o3, 1);
    var o4 := d.Handle(Removed(2, Left));
    var v4 := d.cached;
    assert v4 == {0};
    SilentIffUnchanged(v3, o4);
    assert d.left == {0, 3, 4};
    var o5 := d.Handle(Added(0, Right));
    var v5 := d.cached;
    assert v5 == {};
    RemovedWhenShrunk(v4, o5, 0);
    var o6 := d.Handle(Added(5, Right));
    var v6 := d.cached;
    assert v6 == {};
    SilentIffUnchanged(v5, o6);
    var o7 := d.Handle(Removed(3, Right));
    var v7 := d.cached;
    assert v7 == {3};
    AddedWhenGrown(v6, o7, 3);
    var o8 := d.Handle(Removed(5, Right));
    var v8 := d.cached;
    assert v8 == {3};
    SilentIffUnchanged(v7, o8);
    views, outs := [v0, v1, v2, v3, v4, v5, v6, v7, v8], [o1, o2, o3, o4, o5, o6, o7, o8];
  }

  /** `set1.intersect(set2)` over `{1, 2, 3}` and `{3, 4, 5}`: add 0 to the first, add 1 to
      the second, remove 3 from the second, remove 3 from the first. */
  method IntersectionScenario() returns (views: seq<set<int>>, outs: seq<seq<SetChange<int, ()>>>)
    ensures views == [{3}, {3}, {1, 3}, {1}, {1}]
    ensures outs == [[], [Added(1, ())], [Removed(3, ())], []]
  {
    var n := new IntersectionBinding({1, 2, 3}, {3, 4, 5});
    var v0 := n.cached;
    assert v0 == {3};
    var o1 := n.Handle(Added(0, Left));
    var v1 := n.cached;
    assert v1 == {3};
    SilentIffUnchanged(v0, o1);
    var o2 := n.Handle(Added(1, Right));
    var v2 := n.cached;
    assert v2 == {1, 3};
    AddedWhenGrown(v1, o2, 1);
    var o3 := n.Handle(Removed(3, Right));
    var v3 := n.cached;
    assert v3 == {1};
    RemovedWhenShrunk(v2, o3, 3);
    var o4 := n.Handle(Removed(3, Left));
    var v4 := n.cached;
    assert v4 == {1};
    SilentIffUnchanged(v3, o4);
    views, outs := [v0, v1, v2, v3, v4], [o1, o2, o3, o4];
  }

  /** `variable.flattenToSet()` over a variable holding `{1, 2, 3}`: add 4, remove 1, set
      the variable to a new set `{4, 5, 6}`, add 7 to it and remove 4 from it. */
  method FlattenToSetScenario() returns (views: seq<set<int>>, outs: seq<seq<SetChange<int, ()>>>)
    ensures views == [{1, 2, 3}, {1, 2, 3, 4}, {2, 3, 4}, {4, 5, 6}, {4, 5, 6, 7}, {5, 6, 7}]
    ensures outs == [[Added(4, ())], [Removed(1, ())], [Added(7, ())], [Removed(4, ())]]
  {
    var f := new FlattenToSetBinding(map[1 := {1, 2, 3}], 1);
    var v0 := f.cached;
    assert v0 == {1, 2, 3};
    var o1 := f.HandleElement(Added(4, 1));
    var v1 := f.cached;
    assert v1 == {1, 2, 3, 4};
    AddedWhenGrown(v0, o1, 4);
    var o2 := f.HandleElement(Removed(1, 1));
    var v2 := f.cached;
    assert v2 == {2, 3, 4};
    RemovedWhenShrunk(v1, o2, 1);
    f.NewSet(2, {4, 5, 6});
    var _ := f.Reassign(2);
    var v3 := f.cached;
    var o3 := f.HandleElement(Added(7, 2));
    var v4 := f.cached;
    assert v4 == {4, 5, 6, 7};
    AddedWhenGrown(v3, o3, 7);
    var o4 := f.HandleElement(Removed(4, 2));
    var v5 := f.cached;
    assert v5 == {5, 6, 7};
    RemovedWhenShrunk(v4, o4, 4);
    views, outs := [v0, v1, v2, v3, v4, v5], [o1, o2, o3, o4];
  }
}
