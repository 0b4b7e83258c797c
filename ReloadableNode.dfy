/**
 * A single-parent derived node of the older revision: its value is always
 * `transform` of the parent value it was last given. The transform is user
 * code and may throw.
 */
module ReloadableNode {
  import opened Types
  import opened ListenerBase

  class ReloadableNode<P, C> {
    const transform: P -> Attempt<C>
    var current: C
    const listeners: ListenerRegistry<C>

    constructor Make(currentParentValue: P, transform: P -> Attempt<C>)
      requires transform(currentParentValue).Done?
      ensures this.transform == transform && current == transform(currentParentValue).value
      ensures fresh(listeners) && listeners.listeners == {} && listeners.sent == []
    {
      this.transform := transform;
      current := transform(currentParentValue).value;
      listeners := new ListenerRegistry();
    }

    /**
     * The public constructor: the initial value is `transform(currentParentValue)`;
     * construction fails when that throws.
     */
    static method New(currentParentValue: P, transform: P -> Attempt<C>) returns (r: Attempt<ReloadableNode<P, C>>)
      ensures r.Done? <==> transform(currentParentValue).Done?
      ensures r.Done? ==> fresh(r.value) && fresh(r.value.listeners)
      ensures r.Done? ==> r.value.transform == transform && r.value.current == transform(currentParentValue).value
      ensures r.Done? ==> r.value.listeners.listeners == {} && r.value.listeners.sent == []
    {
      if transform(currentParentValue).Threw? {
        return Threw;
      }
      var n := new ReloadableNode.Make(currentParentValue, transform);
      r := Done(n);
    }

    /**
     * `notifyChanged(p)`: the new value is `transform(p)`, whatever the old
     * value was; it is committed and then sent to the listeners. A throwing
     * transform escapes before anything is assigned or sent.
     */
    method NotifyChanged(changedParentValue: P) returns (threw: bool)
      modifies this, listeners
      ensures threw <==> transform(changedParentValue).Threw?
      ensures !threw ==> current == transform(changedParentValue).value
      ensures !threw ==> listeners.sent == old(listeners.sent) + [current]
      ensures threw ==> current == old(current) && listeners.sent == old(listeners.sent)
      ensures listeners.listeners == old(listeners.listeners)
    {
      var newValue := transform(changedParentValue);
      threw := newValue.Threw?;
      if newValue.Done? {
        current := newValue.value;
        listeners.NotifyListeners(newValue.value);
      }
    }

    /** `currentValue()`. */
    method CurrentValue() returns (value: C)
      ensures value == current
    {
      value := current;
    }

    /**
     * `map(f)`: the child starts at `f(currentValue())` and is subscribed;
     * when `f` throws, `map` fails before any child is subscribed. This
     * node's value stays as it was either way.
     */
    method Map<U>(f: C -> Attempt<U>) returns (child: Attempt<ReloadableNode<C, U>>)
      modifies listeners
      ensures child.Done? <==> f(current).Done?
      ensures child.Done? ==> fresh(child.value) && fresh(child.value.listeners)
      ensures child.Done? ==> child.value.current == f(current).value && child.value.transform == f
      ensures child.Done? ==> child.value.listeners.listeners == {} && child.value.listeners.sent == []
      ensures listeners.listeners == old(listeners.listeners) + (if child.Done? then {child.value} else {})
      ensures listeners.sent == old(listeners.sent)
    {
      child := ReloadableNode<C, U>.New(current, f);
      if child.Done? {
        listeners.AddWeakListener(child.value);
      }
    }
  }

  /**
   * Consistency along a chain: after the parent is notified with `p` and
   * hands its new value to a child made by `map(f)`, the child holds
   * `f(transform(p))`; if either transform throws, the chain stops there.
   */
  method ChainPropagates<P, C, U>(parent: ReloadableNode<P, C>, child: ReloadableNode<C, U>, p: P)
    returns (threw: bool)
    requires parent != child && parent.listeners != child.listeners
    modifies parent, parent.listeners, child, child.listeners
    ensures parent.transform(p).Done? ==> parent.current == parent.transform(p).value
    ensures !threw ==> parent.transform(p).Done? && child.transform(parent.transform(p).value).Done?
    ensures !threw ==> child.current == child.transform(parent.transform(p).value).value
    ensures threw ==> child.current == old(child.current)
  {
    threw := parent.NotifyChanged(p);
    if !threw {
      threw := child.NotifyChanged(parent.current);
    }
  }
}
