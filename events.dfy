/** Event streams: a registry of subscriptions that every emitted value reaches while they live, and the
    `lastFired` binding that follows the stream through a subscription it owns. */
module Events {
  import opened Observers
  import opened Bindings

  /** A subscription is an observer specialised for event streams; `observer` is its
      generic view (`asObserver`), and `received` logs what its handler was given. */
  class Subscription<T> {
    const observer: Observer
    var received: seq<T>

    constructor ()
      ensures fresh(observer) && !observer.killed && received == []
    {
      observer := new Observer();
      received := [];
    }

    method Kill()
      modifies observer
      ensures observer.killed
    {
      observer.Kill();
    }
  }

  class EventStream<T> {
    /** whether the lazily created handler manager exists yet */
    var managerCreated: bool
    /** the handler manager's registry; killed subscriptions stay and are skipped on fire */
    var handlers: seq<Subscription<T>>
    const lastFired: Binding<Option<T>>
    /** the subscription installed by `lastFired`, whose handler `set`s each fired value */
    const updater: Subscription<T>

    /** `lastFired` holds the last value delivered to its updater, and `None` before that. */
    ghost predicate LastFiredTracks()
      reads this, lastFired, updater
    {
      && (updater.received == [] ==> lastFired.value == None)
      && (updater.received != [] ==> lastFired.value == Some(updater.received[|updater.received| - 1]))
    }

    ghost predicate Valid()
      reads this, lastFired, updater
    {
      && managerCreated
      && |handlers| >= 1 && handlers[0] == updater
      && Distinct(handlers)
      && updater.observer in lastFired.owned
      && LastFiredTracks()
    }

    /** Construction builds `lastFired` at once (not lazily): it starts as `None`, and its
        body subscribes the updater, which forces the handler manager into existence and
        makes the updater the first subscription, owned by `lastFired`. */
    constructor ()
      ensures Valid()
      ensures fresh(lastFired) && fresh(updater) && fresh(updater.observer)
      ensures handlers == [updater] && lastFired.value == None
      ensures lastFired.owned == [updater.observer] && !updater.observer.killed
      ensures !lastFired.disposed
    {
      var b := new Binding<Option<T>>(None);
      var s := new Subscription<T>();
      b.AddObserver(s.observer);
      lastFired := b;
      updater := s;
      managerCreated := true;
      handlers := [s];
    }

    /** `subscribe` goes through the handler manager, creating it on first use. */
    method Subscribe() returns (s: Subscription<T>)
      requires Valid()
      modifies this`managerCreated, this`handlers
      ensures Valid() && managerCreated
      ensures fresh(s) && fresh(s.observer) && !s.observer.killed && s.received == []
      ensures handlers == old(handlers) + [s]
    {
      managerCreated := true;
      s := new Subscription<T>();
      handlers := handlers + [s];
    }

    /** `doEmit(v)`: every live subscription's handler receives `v` and no killed one's does;
        the updater's handler sets `lastFired`. */
    method DoEmit(v: T)
      requires Valid()
      modifies this`managerCreated, lastFired`value, handlers
      ensures Valid() && handlers == old(handlers)
      ensures forall j :: 0 <= j < |handlers| ==>
        handlers[j].received == old(handlers[j].received) + (if handlers[j].observer.killed then [] else [v])
      ensures !updater.observer.killed ==> lastFired.value == Some(v)
      ensures updater.observer.killed ==> lastFired.value == old(lastFired.value)
    {
      managerCreated := true;
      var i := 0;
      while i < |handlers|
        invariant 0 <= i <= |handlers| && handlers == old(handlers)
        invariant forall j :: 0 <= j < i ==>
          handlers[j].received == old(handlers[j].received) + (if handlers[j].observer.killed then [] else [v])
        invariant forall j :: i <= j < |handlers| ==> handlers[j].received == old(handlers[j].received)
        invariant Valid()
        invariant i == 0 ==> lastFired.value == old(lastFired.value)
        invariant i > 0 && !updater.observer.killed ==> lastFired.value == Some(v)
        invariant i > 0 && updater.observer.killed ==> lastFired.value == old(lastFired.value)
      {
        var s := handlers[i];
        if !s.observer.killed {
          s.received := s.received + [v];
          if s == updater {
            lastFired.Set(Some(v));
          }
        }
        i := i + 1;
      }
    }
  }
}
