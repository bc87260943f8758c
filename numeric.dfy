/** `set.sum()`: an integer binding over a reactive set of integers that keeps the sum
    of the current elements, adjusting it by each added or removed element. */
module NumericBindings {
  import opened SetChanges
  import opened Bags

  class SumBinding {
    var source: set<int>
    var sum: int

    ghost predicate Valid()
      reads this
    {
      sum == SetSum(source)
    }

    /** One pass over the initial elements. */
    constructor (initial: set<int>)
      ensures Valid() && source == initial
    {
      source := initial;
      var s := ComputeSumBy(initial, Identity);
      sum := s;
    }

    /** `Added(x)` adds `x` to the sum, `Removed(x)` subtracts it; negative elements are
        no different. */
    method Handle(c: SetChange<int, ()>)
      requires Valid() && Fits(source, c)
      modifies this
      ensures Valid() && source == Applied(old(source), c)
      ensures sum == if c.Added? then old(sum) + c.element else old(sum) - c.element
    {
      match c {
      case Added(x, _) =>
        SetSumAdd(source, x);
        sum := sum + x;
        source := source + {x};
      case Removed(x, _) =>
        SetSumRemove(source, x);
        sum := sum - x;
        source := source - {x};
      }
    }

    /** Any sequence of mutations of the source: the sum stays the sum of its elements. */
    method HandleAll(cs: seq<SetChange<int, ()>>)
      requires Valid() && FitsAll(source, cs)
      modifies this
      ensures Valid() && source == AppliedAll(old(source), cs)
    {
      var i := 0;
      while i < |cs|
        invariant i <= |cs| && Valid() && source == AppliedAll(old(source), cs[..i])
      {
        FitsAllStep(old(source), cs, i);
        Handle(cs[i]);
        i := i + 1;
      }
      assert cs[..i] == cs;
    }
  }
}
