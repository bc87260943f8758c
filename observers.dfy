/** Observers: a live registration of interest that can be cancelled ("killed").
    A killed observer never fires again, and killing is idempotent. */
module Observers {

  class Observer {
    var killed: bool

    constructor ()
      ensures !killed
    {
      killed := false;
    }

    /** Cancels this observer; a second kill changes nothing. */
    method Kill()
      modifies this
      ensures killed
    {
      killed := true;
    }
  }

  /** The optional value used for nullable results (`T?`). */
  datatype Option<T> = None | Some(value: T)

  /** True iff no object occurs twice in `s`. */
  ghost predicate Distinct<X>(s: seq<X>) {
    forall i, j :: 0 <= i < j < |s| ==> s[i] != s[j]
  }
}
