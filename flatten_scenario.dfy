/** The `flatten` scenario of the set-binding specification, replayed one change at a
    time: the parts `{1, 2, 3}`, `{3, 4, 5}` and `{5, 0}` are keyed 1 to 3, the part that
    arrives later `{6, 2, 7}` is keyed 4. Each step states the outer set, the parts and
    the view it leads to. */
module FlattenScenario {
  import opened SetChanges
  import opened NestedViews

  lemma FlattenOfTwo<K, T>(a: K, b: K, parts: map<K, set<T>>)
    requires a in parts && b in parts
    ensures FlattenExpected({a, b}, parts) == parts[a] + parts[b]
  {
    forall x | x in parts[a] + parts[b] ensures x in FlattenExpected({a, b}, parts) {
      if x in parts[a] {
        assert a in {a, b};
      } else {
        assert b in {a, b};
      }
    }
  }

  lemma FlattenOfThree<K, T>(a: K, b: K, c: K, parts: map<K, set<T>>)
    requires a in parts && b in parts && c in parts
    ensures FlattenExpected({a, b, c}, parts) == parts[a] + parts[b] + parts[c]
  {
    forall x | x in parts[a] + parts[b] + parts[c] ensures x in FlattenExpected({a, b, c}, parts) {
      if x in parts[a] {
        assert a in {a, b, c};
      } else if x in parts[b] {
        assert b in {a, b, c};
      } else {
        assert c in {a, b, c};
      }
    }
  }

  lemma FlattenOfFour<K, T>(a: K, b: K, c: K, d: K, parts: map<K, set<T>>)
    requires a in parts && b in parts && c in parts && d in parts
    ensures FlattenExpected({a, b, c, d}, parts) == parts[a] + parts[b] + parts[c] + parts[d]
  {
    forall x | x in parts[a] + parts[b] + parts[c] + parts[d] ensures x in FlattenExpected({a, b, c, d}, parts) {
      if x in parts[a] {
        assert a in {a, b, c, d};
      } else if x in parts[b] {
        assert b in {a, b, c, d};
      } else if x in parts[c] {
        assert c in {a, b, c, d};
      } else {
        assert d in {a, b, c, d};
      }
    }
  }

  /** The outer set at the start, with the fourth part, and after the second part left. */
  function Outer0(): set<int> { {1, 2, 3} }
  function Outer1(): set<int> { Outer0() + {4} }
  function Outer2(): set<int> { Outer0() - {2} }

  /** The parts at each stage. */
  function Parts0(): map<int, set<int>> { map[1 := {1, 2, 3}, 2 := {3, 4, 5}, 3 := {5, 0}] }
  function Parts1(): map<int, set<int>> { Parts0()[4 := {6, 2, 7}] }
  function Parts2(): map<int, set<int>> { Parts1()[4 := Parts1()[4] + {8}] }
  function Parts3(): map<int, set<int>> { Parts2()[4 := Parts2()[4] - {6}] }
  function Parts4(): map<int, set<int>> { Parts3()[1 := Parts3()[1] - {1}] }
  function Parts5(): map<int, set<int>> { Parts4()[2 := Parts4()[2] + {9}] }

  lemma ViewAtStart()
    ensures FlattenExpected(Outer0(), Parts0()) == {0, 1, 2, 3, 4, 5}
  {
    FlattenOfThree(1, 2, 3, Parts0());
  }

  lemma ViewJoined()
    ensures FlattenExpected(Outer1(), Parts1()) == {0, 1, 2, 3, 4, 5, 6, 7}
  {
    assert Outer1() == {1, 2, 3, 4};
    FlattenOfFour(1, 2, 3, 4, Parts1());
  }

  lemma ViewGained()
    ensures FlattenExpected(Outer1(), Parts2()) == {0, 1, 2, 3, 4, 5, 6, 7, 8}
  {
    assert Outer1() == {1, 2, 3, 4};
    FlattenOfFour(1, 2, 3, 4, Parts2());
  }

  lemma ViewLost()
    ensures FlattenExpected(Outer1(), Parts3()) == {0, 1, 2, 3, 4, 5, 7, 8}
  {
    assert Outer1() == {1, 2, 3, 4};
    FlattenOfFour(1, 2, 3, 4, Parts3());
  }

  lemma ViewLeft()
    ensures FlattenExpected(Outer1() - {4}, Parts3()) == {0, 1, 2, 3, 4, 5}
  {
    assert Outer1() - {4} == {1, 2, 3};
    FlattenOfThree(1, 2, 3, Parts3());
  }

  lemma ViewSecondLeft()
    ensures FlattenExpected(Outer2(), Parts3()) == {0, 1, 2, 3, 5}
  {
    assert Outer2() == {1, 3};
    FlattenOfTwo(1, 3, Parts3());
  }

  lemma ViewShrunk()
    ensures FlattenExpected(Outer2(), Parts4()) == {0, 2, 3, 5}
  {
    assert Outer2() == {1, 3};
    FlattenOfTwo(1, 3, Parts4());
  }

  lemma ViewUnseen()
    ensures FlattenExpected(Outer2(), Parts5()) == {0, 2, 3, 5}
  {
    assert Outer2() == {1, 3};
    FlattenOfTwo(1, 3, Parts5());
  }

  /** "add new part": the fourth part comes into existence and is added to the outer set. */
  method AddNewPart(m: FlattenBinding<int, int>)
    requires m.Valid() && m.outer == Outer0() && m.parts == Parts0()
    modifies m
    ensures m.Valid() && m.outer == Outer1() && m.parts == Parts1()
    ensures m.cached == {0, 1, 2, 3, 4, 5, 6, 7}
  {
    m.NewPart(4, {6, 2, 7});
    var _ := m.HandleOuter(Added(4, ()));
    ViewJoined();
  }

  /** "then add element to it": 8 joins the fourth part. */
  method AddToNewPart(m: FlattenBinding<int, int>)
    requires m.Valid() && m.outer == Outer1() && m.parts == Parts1()
    modifies m
    ensures m.Valid() && m.outer == Outer1() && m.parts == Parts2()
    ensures m.cached == {0, 1, 2, 3, 4, 5, 6, 7, 8}
  {
    var _ := m.HandlePart(Added(8, 4));
    ViewGained();
  }

  /** "remove element from it": 6 leaves the fourth part; no other part holds it. */
  method RemoveFromNewPart(m: FlattenBinding<int, int>)
    requires m.Valid() && m.outer == Outer1() && m.parts == Parts2()
    modifies m
    ensures m.Valid() && m.outer == Outer1() && m.parts == Parts3()
    ensures m.cached == {0, 1, 2, 3, 4, 5, 7, 8}
  {
    var _ := m.HandlePart(Removed(6, 4));
    ViewLost();
  }

  /** "again remove it": the fourth part leaves; its 2 stays, the first part holds it. */
  method RemoveNewPart(m: FlattenBinding<int, int>)
    requires m.Valid() && m.outer == Outer1() && m.parts == Parts3()
    modifies m
    ensures m.Valid() && m.outer == Outer0() && m.parts == Parts3()
    ensures m.cached == {0, 1, 2, 3, 4, 5}
  {
    var _ := m.HandleOuter(Removed(4, ()));
    ViewLeft();
    assert Outer1() - {4} == Outer0();
  }

  /** "remove another part": the second part leaves; 3 and 5 stay, others hold them. */
  method RemoveSecondPart(m: FlattenBinding<int, int>)
    requires m.Valid() && m.outer == Outer0() && m.parts == Parts3()
    modifies m
    ensures m.Valid() && m.outer == Outer2() && m.parts == Parts3()
    ensures m.cached == {0, 1, 2, 3, 5}
  {
    var _ := m.HandleOuter(Removed(2, ()));
    ViewSecondLeft();
  }

  /** "remove element from initial part": 1 leaves the first part. */
  method RemoveFromFirstPart(m: FlattenBinding<int, int>)
    requires m.Valid() && m.outer == Outer2() && m.parts == Parts3()
    modifies m
    ensures m.Valid() && m.outer == Outer2() && m.parts == Parts4()
    ensures m.cached == {0, 2, 3, 5}
  {
    var _ := m.HandlePart(Removed(1, 1));
    ViewShrunk();
  }

  /** "add element to initial part": 9 joins the departed second part, unseen by the view. */
  method AddToDepartedPart(m: FlattenBinding<int, int>) returns (out: seq<SetChange<int, ()>>)
    requires m.Valid() && m.outer == Outer2() && m.parts == Parts4()
    modifies m
    ensures m.Valid() && m.outer == Outer2() && m.parts == Parts5()
    ensures m.cached == {0, 2, 3, 5} && out == []
  {
    out := m.HandlePart(Added(9, 2));
    ViewUnseen();
  }

  /** The whole scenario: the view after creation and after each of the seven steps;
      the last change is not passed on. */
  method FlattenScenario() returns (views: seq<set<int>>, lastOut: seq<SetChange<int, ()>>)
    ensures views == [{0, 1, 2, 3, 4, 5}, {0, 1, 2, 3, 4, 5, 6, 7}, {0, 1, 2, 3, 4, 5, 6, 7, 8},
      {0, 1, 2, 3, 4, 5, 7, 8}, {0, 1, 2, 3, 4, 5}, {0, 1, 2, 3, 5}, {0, 2, 3, 5}, {0, 2, 3, 5}]
    ensures lastOut == []
  {
    var m := new FlattenBinding(Outer0(), Parts0());
    ViewAtStart();
    var v0 := m.cached;
    AddNewPart(m);
    var v1 := m.cached;
    AddToNewPart(m);
    var v2 := m.cached;
    RemoveFromNewPart(m);
    var v3 := m.cached;
    RemoveNewPart(m);
    var v4 := m.cached;
    RemoveSecondPart(m);
    var v5 := m.cached;
    RemoveFromFirstPart(m);
    var v6 := m.cached;
    lastOut := AddToDepartedPart(m);
    views := [v0, v1, v2, v3, v4, v5, v6, m.cached];
  }
}
