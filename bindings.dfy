/** Reactive values and bindings: a binding is a value cell together with the
    dependency observers it owns; disposing it kills those observers, after which
    it keeps its last value and never recomputes. */
module Bindings {
  import opened Observers

  /** A plain reactive variable: its value and the observers registered by `observe`. */
  class Variable<T> {
    var value: T
    var listeners: seq<Observer>

    constructor (initial: T)
      ensures value == initial && listeners == []
    {
      value := initial;
      listeners := [];
    }

    method Set(v: T)
      modifies this`value
      ensures value == v
    {
      value := v;
    }

    method Observe(o: Observer)
      modifies this`listeners
      ensures listeners == old(listeners) + [o]
    {
      listeners := listeners + [o];
    }
  }

  /** `binding(initialValue, body)`: the constructor sets the value to `initialValue`;
      the body is whatever the creator then does through `Set` and `AddObserver`. */
  class Binding<T> {
    var value: T
    /** dependency observers registered through `addObserver`, owned by this binding */
    var owned: seq<Observer>
    /** observers registered on this binding through `observe` */
    var listeners: seq<Observer>
    var disposed: bool

    constructor (initialValue: T)
      ensures value == initialValue && owned == [] && listeners == [] && !disposed
    {
      value := initialValue;
      owned := [];
      listeners := [];
      disposed := false;
    }

    /** `set` of the binding body: a plain update of the current value. */
    method Set(v: T)
      modifies this`value
      ensures value == v
    {
      value := v;
    }

    /** `addObserver` of the binding body: the observer now belongs to this binding. */
    method AddObserver(o: Observer)
      modifies this`owned
      ensures owned == old(owned) + [o]
    {
      owned := owned + [o];
    }

    method Observe(o: Observer)
      modifies this`listeners
      ensures listeners == old(listeners) + [o]
    {
      listeners := listeners + [o];
    }

    /** Kills every owned observer; the value is kept. Calling it again changes nothing more. */
    method Dispose()
      modifies this`disposed, owned
      ensures disposed
      ensures forall o :: o in owned ==> o.killed
    {
      var i := 0;
      while i < |owned|
        invariant 0 <= i <= |owned|
        invariant forall j :: 0 <= j < i ==> owned[j].killed
      {
        owned[i].Kill();
        i := i + 1;
      }
      disposed := true;
    }
  }

  /** A reactive value as a client sees it: either already a binding or a plain variable. */
  datatype ReactiveValue<T> = OfBinding(binding: Binding<T>) | OfVariable(variable: Variable<T>)
  {
    function Objects(): set<object> {
      match this
      case OfBinding(b) => {b}
      case OfVariable(v) => {v}
    }
  }

  /** What `asBinding` returns: the binding itself, or a wrapper delegating to its receiver. */
  datatype BindingRef<T> = Computed(binding: Binding<T>) | Wrapper(receiver: Variable<T>)
  {
    function Objects(): set<object> {
      match this
      case Computed(b) => {b}
      case Wrapper(v) => {v}
    }
  }

  function ValueNow<T>(x: ReactiveValue<T>): T
    reads x.Objects()
  {
    match x
    case OfBinding(b) => b.value
    case OfVariable(v) => v.value
  }

  function BindingNow<T>(r: BindingRef<T>): T
    reads r.Objects()
  {
    match r
    case Computed(b) => b.value
    case Wrapper(v) => v.value
  }

  /** `asBinding`: a binding is returned as it is; any other value is wrapped, and the
      wrapper reads the receiver's current value (it does not copy it). */
  function AsBinding<T>(x: ReactiveValue<T>): (r: BindingRef<T>)
    ensures r.Computed? <==> x.OfBinding?
    ensures x.OfBinding? ==> r.binding == x.binding
    ensures x.OfVariable? ==> r.receiver == x.variable
    ensures r.Objects() == x.Objects()
  {
    match x
    case OfBinding(b) => Computed(b)
    case OfVariable(v) => Wrapper(v)
  }

  /** The wrapper's `now` is always the receiver's `now`, in every heap. */
  lemma AsBindingNow<T>(x: ReactiveValue<T>)
    ensures BindingNow(AsBinding(x)) == ValueNow(x)
  {
  }

  /** `observe` on the result of `asBinding`: a wrapper registers the observer with its receiver. */
  method ObserveRef<T>(r: BindingRef<T>, o: Observer)
    modifies r.Objects()
    ensures r.Wrapper? ==> r.receiver.listeners == old(r.receiver.listeners) + [o]
    ensures r.Wrapper? ==> r.receiver.value == old(r.receiver.value)
    ensures r.Computed? ==> r.binding.listeners == old(r.binding.listeners) + [o]
    ensures r.Computed? ==> r.binding.value == old(r.binding.value) && r.binding.owned == old(r.binding.owned)
  {
    match r
    case Computed(b) => b.Observe(o);
    case Wrapper(v) => v.Observe(o);
  }

  /** `dispose` on the result of `asBinding`: a wrapper's dispose does nothing. */
  method DisposeRef<T>(r: BindingRef<T>)
    modifies if r.Computed? then {r.binding} else {}, if r.Computed? then r.binding.owned else []
    ensures r.Wrapper? ==> unchanged(r.receiver)
    ensures r.Computed? ==> r.binding.disposed && r.binding.value == old(r.binding.value)
    ensures r.Computed? ==> forall o :: o in r.binding.owned ==> o.killed
  {
    match r
    case Computed(b) => b.Dispose();
    case Wrapper(_) =>
  }

  /** `constantBinding(v)`: a wrapper around a fresh variable holding `v`. */
  method ConstantBinding<T>(v: T) returns (r: BindingRef<T>)
    ensures r.Wrapper? && fresh(r.receiver)
    ensures BindingNow(r) == v && r.receiver.listeners == []
  {
    var x := new Variable(v);
    r := AsBinding(OfVariable(x));
  }

  /** `binding(dependencies, compute)`: the dependencies are abstracted by their current
      state `D`, and an invalidation of them by a call of `Invalidate` with the new state. */
  class DependentBinding<D, T> {
    const compute: D -> T
    const binding: Binding<T>
    /** the observer installed on the dependencies */
    const dependencyObserver: Observer

    /** The binding owns exactly the dependency observer, so disposing it kills that one. */
    ghost predicate Valid()
      reads this, binding
    {
      binding.owned == [dependencyObserver]
    }

    constructor (dependencies: D, compute: D -> T)
      ensures Valid() && this.compute == compute
      ensures fresh(binding) && fresh(dependencyObserver)
      ensures binding.value == compute(dependencies)
      ensures binding.owned == [dependencyObserver] && binding.listeners == []
      ensures !dependencyObserver.killed && !binding.disposed
    {
      var initial := compute(dependencies);
      var b := new Binding(initial);
      var obs := new Observer();
      b.AddObserver(obs);
      this.compute := compute;
      binding := b;
      dependencyObserver := obs;
    }

    /** The dependency observer fires: while it is live, the value is recomputed; once it
        is killed (the binding was disposed), nothing changes. */
    method Invalidate(dependencies: D)
      requires Valid()
      modifies binding`value
      ensures Valid()
      ensures !dependencyObserver.killed ==> binding.value == compute(dependencies)
      ensures dependencyObserver.killed ==> binding.value == old(binding.value)
    {
      if !dependencyObserver.killed {
        binding.Set(compute(dependencies));
      }
    }

    method Dispose()
      requires Valid()
      modifies binding`disposed, dependencyObserver
      ensures Valid() && binding.disposed && dependencyObserver.killed
    {
      binding.Dispose();
    }
  }
}
