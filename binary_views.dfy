/** Set views over two source sets: union (`set1 + set2`), difference (`set1 - set2`)
    and intersection. A change names the operand it comes from as its source. */
module BinaryViews {
  import opened SetChanges

  class UnionBinding<T(==)> {
    var left: set<T>
    var right: set<T>
    var cached: set<T>

    function Operand(side: Side): set<T>
      reads this
    {
      if side == Left then left else right
    }

    ghost predicate Valid()
      reads this
    {
      cached == left + right
    }

    constructor (set1: set<T>, set2: set<T>)
      ensures Valid() && left == set1 && right == set2
    {
      left, right := set1, set2;
      cached := set1 + set2;
    }

    /** An added element surfaces unless the other side already has it; a removed one
        disappears only if the other side does not have it either. */
    method Handle(c: SetChange<T, Side>) returns (out: seq<SetChange<T, ()>>)
      requires Valid() && Fits(Operand(c.source), c)
      modifies this
      ensures Valid()
      ensures Operand(c.source) == Applied(old(Operand(c.source)), c)
      ensures Operand(Other(c.source)) == old(Operand(Other(c.source)))
      ensures Leads(old(cached), out, cached) && |out| <= 1
    {
      var x := c.element;
      match c {
      case Added(_, Left) =>
        out := if x in right then [] else [Added(x, ())];
        cached := cached + {x};
        left := left + {x};
      case Added(_, Right) =>
        out := if x in left then [] else [Added(x, ())];
        cached := cached + {x};
        right := right + {x};
      case Removed(_, Left) =>
        out := if x in right then [] else [Removed(x, ())];
        if x !in right {
          cached := cached - {x};
        }
        left := left - {x};
      case Removed(_, Right) =>
        out := if x in left then [] else [Removed(x, ())];
        if x !in left {
          cached := cached - {x};
        }
        right := right - {x};
      }
      LeadsAtMostOne(old(cached), out, cached);
    }
  }

  function Other(side: Side): Side {
    if side == Left then Right else Left
  }

  class DifferenceBinding<T(==)> {
    /** the minuend (`set1`) */
    var left: set<T>
    /** the subtracted set (`set2`) */
    var right: set<T>
    var cached: set<T>

    function Operand(side: Side): set<T>
      reads this
    {
      if side == Left then left else right
    }

    ghost predicate Valid()
      reads this
    {
      cached == left - right
    }

    constructor (set1: set<T>, set2: set<T>)
      ensures Valid() && left == set1 && right == set2
    {
      left, right := set1, set2;
      cached := set1 - set2;
    }

    /** Adding to the minuend or removing from the subtracted set may surface an element;
        removing from the minuend or adding to the subtracted set may hide one. */
    method Handle(c: SetChange<T, Side>) returns (out: seq<SetChange<T, ()>>)
      requires Valid() && Fits(Operand(c.source), c)
      modifies this
      ensures Valid()
      ensures Operand(c.source) == Applied(old(Operand(c.source)), c)
      ensures Operand(Other(c.source)) == old(Operand(Other(c.source)))
      ensures Leads(old(cached), out, cached) && |out| <= 1
    {
      var x := c.element;
      match c {
      case Added(_, Left) =>
        out := if x in right then [] else [Added(x, ())];
        if x !in right {
          cached := cached + {x};
        }
        left := left + {x};
      case Removed(_, Left) =>
        out := if x in cached then [Removed(x, ())] else [];
        if x in cached {
          cached := cached - {x};
        }
        left := left - {x};
      case Added(_, Right) =>
        out := if x in cached then [Removed(x, ())] else [];
        if x in cached {
          cached := cached - {x};
        }
        right := right + {x};
      case Removed(_, Right) =>
        out := if x in left then [Added(x, ())] else [];
        if x in left {
          cached := cached + {x};
        }
        right := right - {x};
      }
      LeadsAtMostOne(old(cached), out, cached);
    }
  }

  class IntersectionBinding<T(==)> {
    var left: set<T>
    var right: set<T>
    var cached: set<T>

    function Operand(side: Side): set<T>
      reads this
    {
      if side == Left then left else right
    }

    ghost predicate Valid()
      reads this
    {
      cached == left * right
    }

    constructor (set1: set<T>, set2: set<T>)
      ensures Valid() && left == set1 && right == set2
    {
      left, right := set1, set2;
      cached := set1 * set2;
    }

    /** An added element surfaces only when both sides have it; a removed one leaves
        the view if it was there. */
    method Handle(c: SetChange<T, Side>) returns (out: seq<SetChange<T, ()>>)
      requires Valid() && Fits(Operand(c.source), c)
      modifies this
      ensures Valid()
      ensures Operand(c.source) == Applied(old(Operand(c.source)), c)
      ensures Operand(Other(c.source)) == old(Operand(Other(c.source)))
      ensures Leads(old(cached), out, cached) && |out| <= 1
    {
      var x := c.element;
      var other := Operand(Other(c.source));
      if c.Added? {
        out := if x in other then [Added(x, ())] else [];
        if x in other {
          cached := cached + {x};
        }
      } else {
        out := if x in cached then [Removed(x, ())] else [];
        if x in cached {
          cached := cached - {x};
        }
      }
      if c.source == Left {
        left := Applied(left, c);
      } else {
        right := Applied(right, c);
      }
      LeadsAtMostOne(old(cached), out, cached);
    }
  }
}
