/**
 * The observer fan-out: a set of observers, each holding a strong reference
 * back to the observables it is registered with, and a notification that
 * reaches every observer once even when some of them throw.
 */
module Observable {

  /**
   * An observer as far as the registry sees it: `addParent` (not part of
   * this model beyond this) records the observables it must keep alive.
   */
  class Observer<T> {
    var parents: set<object>

    constructor ()
      ensures parents == {}
    {
      parents := {};
    }

    method AddParent(parent: object)
      modifies this
      ensures parents == old(parents) + {parent}
    {
      parents := parents + {parent};
    }
  }

  /**
   * How one `notifyChanged` call ended: it returned, it threw an `Exception`
   * (caught by the loop), or it threw an `Error` (not caught: it escapes).
   */
  datatype Outcome = Returned | ThrewException | ThrewError

  /** One `notifyChanged(value)` call made during a notification, and how it ended. */
  datatype Delivery<T> = Delivery(observer: Observer<T>, value: T, outcome: Outcome)

  /** The observers a sequence of deliveries reached. */
  ghost function Reached<T>(deliveries: seq<Delivery<T>>): set<Observer<T>>
  {
    set k | 0 <= k < |deliveries| :: deliveries[k].observer
  }

  class Observable<T> {
    var observers: set<Observer<T>>

    constructor ()
      ensures observers == {}
    {
      observers := {};
    }

    /**
     * `addWeakObserver(observer)`: the observer first records this as a
     * parent, then joins the set; adding it again leaves one entry.
     */
    method AddWeakObserver(observer: Observer<T>)
      modifies this, observer
      ensures observer.parents == old(observer.parents) + {this}
      ensures observers == old(observers) + {observer}
    {
      observer.AddParent(this);
      observers := observers + {observer};
    }

    /**
     * `notifyObservers(value)`: the registered observers are called one at a
     * time with `value`, in some order (the set's iteration order is not
     * specified), each at most once. `outcome` says how each call ends. An
     * `Exception` is caught and the remaining observers are still called; an
     * `Error` is not: it ends the loop and escapes (`escaped`), and the
     * observers not yet reached are skipped. Without an `Error` every
     * observer is called. The observer set is not changed.
     */
    method NotifyObservers(value: T, outcome: Observer<T> -> Outcome) returns (deliveries: seq<Delivery<T>>, escaped: bool)
      ensures Reached(deliveries) <= observers
      ensures forall i, j :: 0 <= i < j < |deliveries| ==> deliveries[i].observer != deliveries[j].observer
      ensures forall k :: 0 <= k < |deliveries| ==>
                deliveries[k].value == value && deliveries[k].outcome == outcome(deliveries[k].observer)
      ensures forall k :: 0 <= k < |deliveries| - 1 ==> deliveries[k].outcome != ThrewError
      ensures escaped <==> |deliveries| > 0 && deliveries[|deliveries| - 1].outcome == ThrewError
      ensures !escaped ==> Reached(deliveries) == observers
    {
      deliveries := [];
      escaped := false;
      var pending := observers;
      while pending != {}
        invariant pending <= observers
        invariant Reached(deliveries) == observers - pending
        invariant forall i, j :: 0 <= i < j < |deliveries| ==> deliveries[i].observer != deliveries[j].observer
        invariant forall k :: 0 <= k < |deliveries| ==>
                    deliveries[k].value == value && deliveries[k].outcome == outcome(deliveries[k].observer)
        invariant forall k :: 0 <= k < |deliveries| ==> deliveries[k].outcome != ThrewError
        decreases pending
      {
        var o :| o in pending;
        var d := Delivery(o, value, outcome(o));
        assert Reached(deliveries + [d]) == Reached(deliveries) + {o} by {
          assert forall k :: 0 <= k < |deliveries| ==> (deliveries + [d])[k] == deliveries[k];
          assert (deliveries + [d])[|deliveries|] == d;
        }
        deliveries := deliveries + [d];
        pending := pending - {o};
        if d.outcome == ThrewError {
          escaped := true;
          return;
        }
      }
    }
  }
}
