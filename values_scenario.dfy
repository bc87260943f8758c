/** The `values()` scenario of the set-binding specification, replayed one change at a
    time: the variables holding 1, 2 and 3 are keyed 1 to 3, the variable created later
    (holding 10) is keyed 4. Each step states the members, the variables' values and the
    view it leads to. */
module ValuesScenario {
  import opened SetChanges
  import opened NestedViews

  lemma ValuesOfTwo<K, V>(a: K, b: K, vals: map<K, V>)
    requires a in vals && b in vals
    ensures ValuesExpected({a, b}, vals) == {vals[a], vals[b]}
  {
    assert a in {a, b} && b in {a, b};
  }

  lemma ValuesOfThree<K, V>(a: K, b: K, c: K, vals: map<K, V>)
    requires a in vals && b in vals && c in vals
    ensures ValuesExpected({a, b, c}, vals) == {vals[a], vals[b], vals[c]}
  {
    assert a in {a, b, c} && b in {a, b, c} && c in {a, b, c};
  }

  lemma ValuesOfFour<K, V>(a: K, b: K, c: K, d: K, vals: map<K, V>)
    requires a in vals && b in vals && c in vals && d in vals
    ensures ValuesExpected({a, b, c, d}, vals) == {vals[a], vals[b], vals[c], vals[d]}
  {
    assert a in {a, b, c, d} && b in {a, b, c, d} && c in {a, b, c, d} && d in {a, b, c, d};
  }

  /** The source set at each stage. */
  function Members0(): set<int> { {1, 2, 3} }
  function Members1(): set<int> { Members0() - {2} }
  function Members2(): set<int> { Members1() + {2} }
  function Members3(): set<int> { Members2() + {4} }
  function Members4(): set<int> { Members3() - {4} }

  /** The variables' values at each stage. */
  function Vals0(): map<int, int> { map[1 := 1, 2 := 2, 3 := 3] }
  function Vals1(): map<int, int> { Vals0()[1 := 4] }
  function Vals2(): map<int, int> { Vals1()[2 := 5] }
  function Vals3(): map<int, int> { Vals2()[2 := 7] }
  function Vals4(): map<int, int> { Vals3()[4 := 10] }
  function Vals5(): map<int, int> { Vals4()[4 := 11] }
  function Vals6(): map<int, int> { Vals5()[4 := 12] }

  lemma ViewAtStart()
    ensures ValuesExpected(Members0(), Vals0()) == {1, 2, 3}
  {
    ValuesOfThree(1, 2, 3, Vals0());
  }

  lemma ViewModified()
    ensures ValuesExpected(Members0(), Vals1()) == {2, 3, 4}
  {
    ValuesOfThree(1, 2, 3, Vals1());
  }

  lemma ViewRemoved()
    ensures ValuesExpected(Members1(), Vals1()) == {3, 4}
  {
    assert Members1() == {1, 3};
    ValuesOfTwo(1, 3, Vals1());
  }

  lemma ViewReturned()
    ensures ValuesExpected(Members2(), Vals2()) == {3, 4, 5}
  {
    assert Members2() == {1, 2, 3};
    ValuesOfThree(1, 2, 3, Vals2());
  }

  lemma ViewModifiedAgain()
    ensures ValuesExpected(Members2(), Vals3()) == {3, 4, 7}
  {
    assert Members2() == {1, 2, 3};
    ValuesOfThree(1, 2, 3, Vals3());
  }

  lemma ViewNewcomer()
    ensures ValuesExpected(Members3(), Vals4()) == {3, 4, 7, 10}
  {
    assert Members3() == {1, 2, 3, 4};
    ValuesOfFour(1, 2, 3, 4, Vals4());
  }

  lemma ViewNewcomerModified()
    ensures ValuesExpected(Members3(), Vals5()) == {3, 4, 7, 11}
  {
    assert Members3() == {1, 2, 3, 4};
    ValuesOfFour(1, 2, 3, 4, Vals5());
  }

  lemma ViewNewcomerLeft()
    ensures ValuesExpected(Members4(), Vals5()) == {3, 4, 7}
  {
    assert Members4() == {1, 2, 3};
    ValuesOfThree(1, 2, 3, Vals5());
  }

  /** "modify a variable": the first variable is set to 4. */
  method ModifyVariable(m: ValuesBinding<int, int>)
    requires m.Valid() && m.members == Members0() && m.vals == Vals0()
    modifies m
    ensures m.Valid() && m.members == Members0() && m.vals == Vals1()
    ensures m.cached == {2, 3, 4}
  {
    var _ := m.SetVariable(1, 4);
    ViewModified();
  }

  /** "remove a variable": the second variable leaves the source set. */
  method RemoveVariable(m: ValuesBinding<int, int>)
    requires m.Valid() && m.members == Members0() && m.vals == Vals1()
    modifies m
    ensures m.Valid() && m.members == Members1() && m.vals == Vals1()
    ensures m.cached == {3, 4}
  {
    var _ := m.HandleMembers(Removed(2, ()));
    ViewRemoved();
  }

  /** "then modify the removed variable": setting it to 5 is not seen. */
  method ModifyRemoved(m: ValuesBinding<int, int>) returns (out: seq<SetChange<int, ()>>)
    requires m.Valid() && m.members == Members1() && m.vals == Vals1()
    modifies m
    ensures m.Valid() && m.members == Members1() && m.vals == Vals2()
    ensures m.cached == {3, 4} && out == []
  {
    ViewRemoved();
    assert 2 !in Members1();
    out := m.SetVariable(2, 5);
  }

  /** "add it again": the second variable, now holding 5, returns. */
  method AddAgain(m: ValuesBinding<int, int>)
    requires m.Valid() && m.members == Members1() && m.vals == Vals2()
    modifies m
    ensures m.Valid() && m.members == Members2() && m.vals == Vals2()
    ensures m.cached == {3, 4, 5}
  {
    var _ := m.HandleMembers(Added(2, ()));
    ViewReturned();
  }

  /** "modify it again": the second variable is set to 7. */
  method ModifyAgain(m: ValuesBinding<int, int>)
    requires m.Valid() && m.members == Members2() && m.vals == Vals2()
    modifies m
    ensures m.Valid() && m.members == Members2() && m.vals == Vals3()
    ensures m.cached == {3, 4, 7}
  {
    var _ := m.SetVariable(2, 7);
    ViewModifiedAgain();
  }

  /** "add a completely new variable": a fourth variable holding 10 joins. */
  method AddNewVariable(m: ValuesBinding<int, int>)
    requires m.Valid() && m.members == Members2() && m.vals == Vals3()
    modifies m
    ensures m.Valid() && m.members == Members3() && m.vals == Vals4()
    ensures m.cached == {3, 4, 7, 10}
  {
    m.NewVariable(4, 10);
    var _ := m.HandleMembers(Added(4, ()));
    ViewNewcomer();
  }

  /** "then modify the new variable": it is set to 11. */
  method ModifyNew(m: ValuesBinding<int, int>)
    requires m.Valid() && m.members == Members3() && m.vals == Vals4()
    modifies m
    ensures m.Valid() && m.members == Members3() && m.vals == Vals5()
    ensures m.cached == {3, 4, 7, 11}
  {
    var _ := m.SetVariable(4, 11);
    ViewNewcomerModified();
  }

  /** "remove it again": the fourth variable leaves. */
  method RemoveNew(m: ValuesBinding<int, int>)
    requires m.Valid() && m.members == Members3() && m.vals == Vals5()
    modifies m
    ensures m.Valid() && m.members == Members4() && m.vals == Vals5()
    ensures m.cached == {3, 4, 7}
  {
    var _ := m.HandleMembers(Removed(4, ()));
    ViewNewcomerLeft();
  }

  /** "and then modify it": setting it to 12 is not seen. */
  method ModifyDeparted(m: ValuesBinding<int, int>) returns (out: seq<SetChange<int, ()>>)
    requires m.Valid() && m.members == Members4() && m.vals == Vals5()
    modifies m
    ensures m.Valid() && m.members == Members4() && m.vals == Vals6()
    ensures m.cached == {3, 4, 7} && out == []
  {
    ViewNewcomerLeft();
    assert 4 !in Members4();
    out := m.SetVariable(4, 12);
  }

  /** The binding over the members 1, 2, 3 with the values 1, 2, 3. */
  method Created() returns (m: ValuesBinding<int, int>)
    ensures fresh(m) && m.Valid() && m.members == Members0() && m.vals == Vals0()
    ensures m.cached == {1, 2, 3}
  {
    m := new ValuesBinding(Members0(), Vals0());
    ViewAtStart();
  }

  /** The first steps, on the variables present from the start. */
  method EarlySteps(m: ValuesBinding<int, int>) returns (v1: set<int>, v2: set<int>, silent: seq<SetChange<int, ()>>)
    requires m.Valid() && m.members == Members0() && m.vals == Vals0()
    modifies m
    ensures m.Valid() && m.members == Members1() && m.vals == Vals2()
    ensures v1 == {2, 3, 4} && v2 == {3, 4} && m.cached == {3, 4} && silent == []
  {
    ModifyVariable(m);
    v1 := m.cached;
    RemoveVariable(m);
    v2 := m.cached;
    silent := ModifyRemoved(m);
  }

  /** Creation and the first steps. */
  method Start() returns (m: ValuesBinding<int, int>, v0: set<int>, v1: set<int>, v2: set<int>, v3: set<int>,
                          silent: seq<SetChange<int, ()>>)
    ensures fresh(m) && m.Valid() && m.members == Members1() && m.vals == Vals2()
    ensures v0 == {1, 2, 3} && v1 == {2, 3, 4} && v2 == {3, 4} && v3 == {3, 4} && silent == []
  {
    m := Created();
    v0 := m.cached;
    v1, v2, silent := EarlySteps(m);
    v3 := m.cached;
  }

  /** The removed variable comes back and is modified again. */
  method ReturnSteps(m: ValuesBinding<int, int>) returns (v4: set<int>)
    requires m.Valid() && m.members == Members1() && m.vals == Vals2()
    modifies m
    ensures m.Valid() && m.members == Members2() && m.vals == Vals3()
    ensures v4 == {3, 4, 5} && m.cached == {3, 4, 7}
  {
    AddAgain(m);
    v4 := m.cached;
    ModifyAgain(m);
  }

  /** The steps on the variable created during the scenario. */
  method NewVariableSteps(m: ValuesBinding<int, int>) returns (v6: set<int>, v7: set<int>, v8: set<int>, silent: seq<SetChange<int, ()>>)
    requires m.Valid() && m.members == Members2() && m.vals == Vals3()
    modifies m
    ensures v6 == {3, 4, 7, 10} && v7 == {3, 4, 7, 11} && v8 == {3, 4, 7} && m.cached == {3, 4, 7}
    ensures silent == []
  {
    AddNewVariable(m);
    v6 := m.cached;
    ModifyNew(m);
    v7 := m.cached;
    RemoveNew(m);
    v8 := m.cached;
    silent := ModifyDeparted(m);
  }

  /** From the return of the removed variable to the modification of the departed one. */
  method LaterSteps(m: ValuesBinding<int, int>)
    returns (v4: set<int>, v5: set<int>, v6: set<int>, v7: set<int>, v8: set<int>, v9: set<int>,
             silent: seq<SetChange<int, ()>>)
    requires m.Valid() && m.members == Members1() && m.vals == Vals2()
    modifies m
    ensures v4 == {3, 4, 5} && v5 == {3, 4, 7} && v6 == {3, 4, 7, 10} && v7 == {3, 4, 7, 11}
    ensures v8 == {3, 4, 7} && v9 == {3, 4, 7} && silent == []
  {
    v4 := ReturnSteps(m);
    v5 := m.cached;
    v6, v7, v8, silent := NewVariableSteps(m);
    v9 := m.cached;
  }

  /** The whole scenario: the view after creation and after each of the nine steps; the
      changes of the two departed variables are not passed on. */
  method ValuesScenario() returns (views: seq<set<int>>, silent: seq<seq<SetChange<int, ()>>>)
    ensures views == [{1, 2, 3}, {2, 3, 4}, {3, 4}, {3, 4}, {3, 4, 5}, {3, 4, 7}, {3, 4, 7, 10}, {3, 4, 7, 11},
      {3, 4, 7}, {3, 4, 7}]
    ensures silent == [[], []]
  {
    var m, v0, v1, v2, v3, s1 := Start();
    var v4, v5, v6, v7, v8, v9, s2 := LaterSteps(m);
    views := [v0, v1, v2, v3, v4, v5, v6, v7, v8, v9];
    silent := [s1, s2];
  }
}
