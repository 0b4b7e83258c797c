/**
 * The listener registry of the older revision of `Reloadable`
 * (`addWeakListener`, `notifyListeners`), whose code is not part of this
 * model. Listeners are kept as a set; `sent` records, in order, every value
 * handed to them.
 */
module ListenerBase {

  class ListenerRegistry<T> {
    var listeners: set<object>
    var sent: seq<T>

    constructor ()
      ensures listeners == {} && sent == []
    {
      listeners := {};
      sent := [];
    }

    method AddWeakListener(listener: object)
      modifies this
      ensures listeners == old(listeners) + {listener}
      ensures sent == old(sent)
    {
      listeners := listeners + {listener};
    }

    method NotifyListeners(value: T)
      modifies this
      ensures sent == old(sent) + [value]
      ensures listeners == old(listeners)
    {
      sent := sent + [value];
    }
  }
}
