/** The change a reactive set emits, and the rule that a mutation emits exactly one
    change when it alters the set and none when it is a no-op. */
module SetChanges {
  import opened Observers

  /** `Added(element, source)` / `Removed(element, source)`; `source` names the set
      that changed. */
  datatype SetChange<E, S> = Added(element: E, source: S) | Removed(element: E, source: S)

  /** The two operands of a binary set view. */
  datatype Side = Left | Right

  /** The set after `c` took place. */
  function Applied<E, S>(s: set<E>, c: SetChange<E, S>): set<E> {
    match c
    case Added(x, _) => s + {x}
    case Removed(x, _) => s - {x}
  }

  /** A change describes a real mutation of `s`: no re-adding, no removing of absent elements. */
  predicate Fits<E, S>(s: set<E>, c: SetChange<E, S>) {
    match c
    case Added(x, _) => x !in s
    case Removed(x, _) => x in s
  }

  /** `add(x)` on a set holding `s`: a change only when `x` is new. */
  function AddChange<E, S>(s: set<E>, x: E, source: S): (r: Option<SetChange<E, S>>)
    ensures r.None? <==> x in s
    ensures r.Some? ==> Fits(s, r.value) && Applied(s, r.value) == s + {x} && r.value.source == source
  {
    if x in s then None else Some(Added(x, source))
  }

  /** `remove(x)` on a set holding `s`: a change only when `x` was there. */
  function RemoveChange<E, S>(s: set<E>, x: E, source: S): (r: Option<SetChange<E, S>>)
    ensures r.None? <==> x !in s
    ensures r.Some? ==> Fits(s, r.value) && Applied(s, r.value) == s - {x} && r.value.source == source
  {
    if x !in s then None else Some(Removed(x, source))
  }

  /** The set after all of `cs` took place, in order. */
  function AppliedAll<E, S>(s: set<E>, cs: seq<SetChange<E, S>>): set<E>
    decreases |cs|
  {
    if cs == [] then s else Applied(AppliedAll(s, cs[..|cs| - 1]), cs[|cs| - 1])
  }

  /** Every change of `cs` describes a real mutation at the moment it is emitted. */
  predicate FitsAll<E, S>(s: set<E>, cs: seq<SetChange<E, S>>)
    decreases |cs|
  {
    cs == [] || (FitsAll(s, cs[..|cs| - 1]) && Fits(AppliedAll(s, cs[..|cs| - 1]), cs[|cs| - 1]))
  }

  /** `cs`, emitted in order, takes a set holding `before` to one holding `after`, and each
      change is a real mutation at the moment it is emitted. */
  predicate Leads<E, S>(before: set<E>, cs: seq<SetChange<E, S>>, after: set<E>) {
    FitsAll(before, cs) && after == AppliedAll(before, cs)
  }

  /** No change, or a single one that is a real mutation of `before`. */
  lemma LeadsAtMostOne<E, S>(before: set<E>, cs: seq<SetChange<E, S>>, after: set<E>)
    requires |cs| <= 1
    requires cs == [] ==> after == before
    requires cs != [] ==> Fits(before, cs[0]) && after == Applied(before, cs[0])
    ensures Leads(before, cs, after)
  {
    assert cs == [] || cs[..0] == [];
  }

  /** Emitting one more change after `cs`. */
  lemma Emit<E, S>(s: set<E>, cs: seq<SetChange<E, S>>, c: SetChange<E, S>)
    requires FitsAll(s, cs) && Fits(AppliedAll(s, cs), c)
    ensures FitsAll(s, cs + [c]) && AppliedAll(s, cs + [c]) == Applied(AppliedAll(s, cs), c)
  {
    assert (cs + [c])[..|cs + [c]| - 1] == cs;
  }

  /** Emitting `ds` after `cs`. */
  lemma {:induction false} EmitAll<E, S>(s: set<E>, cs: seq<SetChange<E, S>>, ds: seq<SetChange<E, S>>)
    requires FitsAll(s, cs) && FitsAll(AppliedAll(s, cs), ds)
    ensures FitsAll(s, cs + ds) && AppliedAll(s, cs + ds) == AppliedAll(AppliedAll(s, cs), ds)
    decreases |ds|
  {
    if ds == [] {
      assert cs + ds == cs;
    } else {
      var ds' := ds[..|ds| - 1];
      var d := ds[|ds| - 1];
      EmitAll(s, cs, ds');
      assert (cs + ds)[..|cs + ds| - 1] == cs + ds';
      assert (cs + ds)[|cs + ds| - 1] == d;
    }
  }

  /** A prefix of a sequence of real mutations is one too. */
  lemma {:induction false} FitsAllPrefix<E, S>(s: set<E>, cs: seq<SetChange<E, S>>, i: nat)
    requires FitsAll(s, cs) && i <= |cs|
    ensures FitsAll(s, cs[..i])
    decreases |cs|
  {
    if i < |cs| {
      var cs' := cs[..|cs| - 1];
      FitsAllPrefix(s, cs', i);
      assert cs'[..i] == cs[..i];
    } else {
      assert cs[..i] == cs;
    }
  }

  /** Replaying a sequence of real mutations from the front: the `i`-th change is a real
      mutation of the set the first `i` changes lead to, and takes it one step further. */
  lemma FitsAllStep<E, S>(s: set<E>, cs: seq<SetChange<E, S>>, i: nat)
    requires FitsAll(s, cs) && i < |cs|
    ensures Fits(AppliedAll(s, cs[..i]), cs[i])
    ensures AppliedAll(s, cs[..i + 1]) == Applied(AppliedAll(s, cs[..i]), cs[i])
  {
    FitsAllPrefix(s, cs, i + 1);
    assert cs[..i + 1][..i] == cs[..i];
  }

  /** At most one emitted change: none exactly when the view did not change. */
  lemma SilentIffUnchanged<E, S>(s: set<E>, cs: seq<SetChange<E, S>>)
    requires FitsAll(s, cs) && |cs| <= 1
    ensures cs == [] <==> AppliedAll(s, cs) == s
  {
    if cs != [] {
      assert cs[..0] == [];
      var c := cs[0];
      if c.Added? {
        assert c.element in AppliedAll(s, cs) && c.element !in s;
      } else {
        assert c.element !in AppliedAll(s, cs) && c.element in s;
      }
    }
  }

  /** At most one emitted change and the view grew by `x`: the change was `Added(x)`. */
  lemma AddedWhenGrown<E>(s: set<E>, cs: seq<SetChange<E, ()>>, x: E)
    requires FitsAll(s, cs) && |cs| <= 1 && x !in s && AppliedAll(s, cs) == s + {x}
    ensures cs == [Added(x, ())]
  {
    SilentIffUnchanged(s, cs);
    assert x in AppliedAll(s, cs);
    assert cs[..0] == [];
    assert cs[0].Added? && cs[0].element == x;
    var u: () := cs[0].source;
    assert u == ();
    assert cs[0] == Added(x, u) && |cs| == 1;
  }

  /** At most one emitted change and the view lost `x`: the change was `Removed(x)`. */
  lemma RemovedWhenShrunk<E>(s: set<E>, cs: seq<SetChange<E, ()>>, x: E)
    requires FitsAll(s, cs) && |cs| <= 1 && x in s && AppliedAll(s, cs) == s - {x}
    ensures cs == [Removed(x, ())]
  {
    SilentIffUnchanged(s, cs);
    assert x !in AppliedAll(s, cs);
    assert cs[..0] == [];
    assert cs[0].Removed? && cs[0].element == x;
    var u: () := cs[0].source;
    assert u == ();
    assert cs[0] == Removed(x, u) && |cs| == 1;
  }
}
