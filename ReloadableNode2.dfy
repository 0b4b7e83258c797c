/**
 * A two-parent composer of the older revision: a listener per parent stores
 * the parent's value in its snapshot slot first and then recomputes
 * `transform` from both snapshots (no previous value is passed).
 */
module ReloadableNode2 {
  import opened Types
  import opened AbstractReloadableNode

  class ReloadableNode2<P1, P2, C> {
    const transform: (P1, P2) -> Attempt<C>
    const node: AbstractReloadableNode<C>
    var currentParentValue1: P1
    var currentParentValue2: P2

    /** The node's value is the transform of the snapshots. */
    ghost predicate Consistent()
      reads this, node
    {
      transform(currentParentValue1, currentParentValue2) == Done(node.current)
    }

    constructor Make(p1: P1, p2: P2, transform: (P1, P2) -> Attempt<C>)
      requires transform(p1, p2).Done?
      ensures this.transform == transform && currentParentValue1 == p1 && currentParentValue2 == p2
      ensures fresh(node) && fresh(node.listeners) && node.listeners.sent == []
      ensures Consistent()
    {
      node := new AbstractReloadableNode(transform(p1, p2).value);
      this.transform := transform;
      currentParentValue1 := p1;
      currentParentValue2 := p2;
    }

    /** The public constructor: it fails when the initial `transform(p1, p2)` throws. */
    static method New(p1: P1, p2: P2, transform: (P1, P2) -> Attempt<C>) returns (r: Attempt<ReloadableNode2<P1, P2, C>>)
      ensures r.Done? <==> transform(p1, p2).Done?
      ensures r.Done? ==> fresh(r.value) && fresh(r.value.node) && r.value.node.listeners.sent == []
      ensures r.Done? ==> r.value.transform == transform
      ensures r.Done? ==> r.value.currentParentValue1 == p1 && r.value.currentParentValue2 == p2
      ensures r.Done? ==> r.value.Consistent()
    {
      if transform(p1, p2).Threw? {
        return Threw;
      }
      var n := new ReloadableNode2.Make(p1, p2, transform);
      r := Done(n);
    }

    /**
     * `listener1.notifyChanged(v)`: slot 1 becomes `v` before the transform
     * runs, so it is updated even when the transform throws; when it returns,
     * its value is committed and sent, and the node is consistent again.
     */
    method Listener1(changedValue1: P1) returns (threw: bool)
      modifies this, node, node.listeners
      ensures currentParentValue1 == changedValue1 && currentParentValue2 == old(currentParentValue2)
      ensures threw <==> transform(changedValue1, old(currentParentValue2)).Threw?
      ensures !threw ==> Consistent()
      ensures !threw ==> node.listeners.sent == old(node.listeners.sent) + [node.current]
      ensures threw ==> node.current == old(node.current) && node.listeners.sent == old(node.listeners.sent)
      ensures node.listeners.listeners == old(node.listeners.listeners)
    {
      currentParentValue1 := changedValue1;
      var r := transform(currentParentValue1, currentParentValue2);
      threw := r.Threw?;
      if r.Done? {
        node.UpdateCurrentValue(r.value);
      }
    }

    /** `listener2.notifyChanged(v)`: as `Listener1`, for slot 2. */
    method Listener2(changedValue2: P2) returns (threw: bool)
      modifies this, node, node.listeners
      ensures currentParentValue2 == changedValue2 && currentParentValue1 == old(currentParentValue1)
      ensures threw <==> transform(old(currentParentValue1), changedValue2).Threw?
      ensures !threw ==> Consistent()
      ensures !threw ==> node.listeners.sent == old(node.listeners.sent) + [node.current]
      ensures threw ==> node.current == old(node.current) && node.listeners.sent == old(node.listeners.sent)
      ensures node.listeners.listeners == old(node.listeners.listeners)
    {
      currentParentValue2 := changedValue2;
      var r := transform(currentParentValue1, currentParentValue2);
      threw := r.Threw?;
      if r.Done? {
        node.UpdateCurrentValue(r.value);
      }
    }
  }
}
