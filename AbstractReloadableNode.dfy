/**
 * The older value node: a current value that `updateCurrentValue` overwrites
 * before handing the same value to every listener, with no change test.
 */
module AbstractReloadableNode {
  import opened ListenerBase

  /**
   * The child `map` builds. Its class is not part of this model: only the two
   * arguments it is built from are kept.
   */
  class ReloadableNode1<P, C> {
    const parentValue: P
    const transform: P -> C

    constructor (parentValue: P, transform: P -> C)
      ensures this.parentValue == parentValue && this.transform == transform
    {
      this.parentValue := parentValue;
      this.transform := transform;
    }
  }

  class AbstractReloadableNode<C> {
    var current: C
    const listeners: ListenerRegistry<C>

    constructor (current: C)
      ensures this.current == current
      ensures fresh(listeners) && listeners.listeners == {} && listeners.sent == []
    {
      this.current := current;
      listeners := new ListenerRegistry();
    }

    /** `updateCurrentValue(v)`: commit first, then notify with the same value, unconditionally. */
    method UpdateCurrentValue(newValue: C)
      modifies this, listeners
      ensures current == newValue
      ensures listeners.sent == old(listeners.sent) + [newValue]
      ensures listeners.listeners == old(listeners.listeners)
    {
      current := newValue;
      listeners.NotifyListeners(newValue);
    }

    /** `currentValue()`: the last committed value. */
    method CurrentValue() returns (value: C)
      ensures value == current
    {
      value := current;
    }

    /**
     * `map(f)`: a child built from the current value and `f`, registered as a
     * listener; this node's value is not touched.
     */
    method Map<U>(f: C -> U) returns (child: ReloadableNode1<C, U>)
      modifies listeners
      ensures fresh(child) && child.parentValue == current && child.transform == f
      ensures listeners.listeners == old(listeners.listeners) + {child}
      ensures listeners.sent == old(listeners.sent)
    {
      child := new ReloadableNode1(current, f);
      listeners.AddWeakListener(child);
    }
  }
}
