/**
 * A five-parent composer of the older revision: the observer of each parent
 * stores the parent's value in its own snapshot slot first and then
 * recomputes `transform` from all five snapshots (no previous value is
 * passed).
 */
module ReloadableNode5 {
  import opened Types
  import opened AbstractReloadableNode

  class ReloadableNode5<P1, P2, P3, P4, P5, C> {
    const transform: (P1, P2, P3, P4, P5) -> Attempt<C>
    const node: AbstractReloadableNode<C>
    var currentParentValue1: P1
    var currentParentValue2: P2
    var currentParentValue3: P3
    var currentParentValue4: P4
    var currentParentValue5: P5

    /** The node's value is the transform of the snapshots. */
    ghost predicate Consistent()
      reads this, node
    {
      transform(currentParentValue1, currentParentValue2, currentParentValue3, currentParentValue4, currentParentValue5) == Done(node.current)
    }

    constructor Make(p1: P1, p2: P2, p3: P3, p4: P4, p5: P5, transform: (P1, P2, P3, P4, P5) -> Attempt<C>)
      requires transform(p1, p2, p3, p4, p5).Done?
      ensures this.transform == transform
      ensures currentParentValue1 == p1
      ensures currentParentValue2 == p2
      ensures currentParentValue3 == p3
      ensures currentParentValue4 == p4
      ensures currentParentValue5 == p5
      ensures fresh(node) && fresh(node.listeners) && node.listeners.sent == []
      ensures Consistent()
    {
      node := new AbstractReloadableNode(transform(p1, p2, p3, p4, p5).value);
      this.transform := transform;
      currentParentValue1 := p1;
      currentParentValue2 := p2;
      currentParentValue3 := p3;
      currentParentValue4 := p4;
      currentParentValue5 := p5;
    }

    /** The public constructor: it fails when the initial transform throws. */
    static method New(p1: P1, p2: P2, p3: P3, p4: P4, p5: P5, transform: (P1, P2, P3, P4, P5) -> Attempt<C>)
      returns (r: Attempt<ReloadableNode5<P1, P2, P3, P4, P5, C>>)
      ensures r.Done? <==> transform(p1, p2, p3, p4, p5).Done?
      ensures r.Done? ==> fresh(r.value) && fresh(r.value.node) && r.value.node.listeners.sent == []
      ensures r.Done? ==> r.value.transform == transform
      ensures r.Done? ==> r.value.currentParentValue1 == p1
      ensures r.Done? ==> r.value.currentParentValue2 == p2
      ensures r.Done? ==> r.value.currentParentValue3 == p3
      ensures r.Done? ==> r.value.currentParentValue4 == p4
      ensures r.Done? ==> r.value.currentParentValue5 == p5
      ensures r.Done? ==> r.value.Consistent()
    {
      if transform(p1, p2, p3, p4, p5).Threw? {
        return Threw;
      }
      var n := new ReloadableNode5.Make(p1, p2, p3, p4, p5, transform);
      r := Done(n);
    }

    /**
     * `observer1.notifyChanged(v)`: slot 1 becomes `v` before the transform
     * runs, so it is updated even when the transform throws; the other slots
     * are untouched; when the transform returns, its value is committed and
     * sent, and the node is consistent again.
     */
    method Observer1(changedValue1: P1) returns (threw: bool)
      modifies this, node, node.listeners
      ensures currentParentValue1 == changedValue1
      ensures currentParentValue2 == old(currentParentValue2)
      ensures currentParentValue3 == old(currentParentValue3)
      ensures currentParentValue4 == old(currentParentValue4)
      ensures currentParentValue5 == old(currentParentValue5)
      ensures threw <==> transform(changedValue1, old(currentParentValue2), old(currentParentValue3), old(currentParentValue4), old(currentParentValue5)).Threw?
      ensures !threw ==> Consistent()
      ensures !threw ==> node.listeners.sent == old(node.listeners.sent) + [node.current]
      ensures threw ==> node.current == old(node.current) && node.listeners.sent == old(node.listeners.sent)
      ensures node.listeners.listeners == old(node.listeners.listeners)
    {
      currentParentValue1 := changedValue1;
      var r := transform(currentParentValue1, currentParentValue2, currentParentValue3, currentParentValue4, currentParentValue5);
      threw := r.Threw?;
      if r.Done? {
        node.UpdateCurrentValue(r.value);
      }
    }

    /** `observer2.notifyChanged(v)`: as `Observer1`, for slot 2. */
    method Observer2(changedValue2: P2) returns (threw: bool)
      modifies this, node, node.listeners
      ensures currentParentValue2 == changedValue2
      ensures currentParentValue1 == old(currentParentValue1)
      ensures currentParentValue3 == old(currentParentValue3)
      ensures currentParentValue4 == old(currentParentValue4)
      ensures currentParentValue5 == old(currentParentValue5)
      ensures threw <==> transform(old(currentParentValue1), changedValue2, old(currentParentValue3), old(currentParentValue4), old(currentParentValue5)).Threw?
      ensures !threw ==> Consistent()
      ensures !threw ==> node.listeners.sent == old(node.listeners.sent) + [node.current]
      ensures threw ==> node.current == old(node.current) && node.listeners.sent == old(node.listeners.sent)
      ensures node.listeners.listeners == old(node.listeners.listeners)
    {
      currentParentValue2 := changedValue2;
      var r := transform(currentParentValue1, currentParentValue2, currentParentValue3, currentParentValue4, currentParentValue5);
      threw := r.Threw?;
      if r.Done? {
        node.UpdateCurrentValue(r.value);
      }
    }

    /** `observer3.notifyChanged(v)`: as `Observer1`, for slot 3. */
    method Observer3(changedValue3: P3) returns (threw: bool)
      modifies this, node, node.listeners
      ensures currentParentValue3 == changedValue3
      ensures currentParentValue1 == old(currentParentValue1)
      ensures currentParentValue2 == old(currentParentValue2)
      ensures currentParentValue4 == old(currentParentValue4)
      ensures currentParentValue5 == old(currentParentValue5)
      ensures threw <==> transform(old(currentParentValue1), old(currentParentValue2), changedValue3, old(currentParentValue4), old(currentParentValue5)).Threw?
      ensures !threw ==> Consistent()
      ensures !threw ==> node.listeners.sent == old(node.listeners.sent) + [node.current]
      ensures threw ==> node.current == old(node.current) && node.listeners.sent == old(node.listeners.sent)
      ensures node.listeners.listeners == old(node.listeners.listeners)
    {
      currentParentValue3 := changedValue3;
      var r := transform(currentParentValue1, currentParentValue2, currentParentValue3, currentParentValue4, currentParentValue5);
      threw := r.Threw?;
      if r.Done? {
        node.UpdateCurrentValue(r.value);
      }
    }

    /** `observer4.notifyChanged(v)`: as `Observer1`, for slot 4. */
    method Observer4(changedValue4: P4) returns (threw: bool)
      modifies this, node, node.listeners
      ensures currentParentValue4 == changedValue4
      ensures currentParentValue1 == old(currentParentValue1)
      ensures currentParentValue2 == old(currentParentValue2)
      ensures currentParentValue3 == old(currentParentValue3)
      ensures currentParentValue5 == old(currentParentValue5)
      ensures threw <==> transform(old(currentParentValue1), old(currentParentValue2), old(currentParentValue3), changedValue4, old(currentParentValue5)).Threw?
      ensures !threw ==> Consistent()
      ensures !threw ==> node.listeners.sent == old(node.listeners.sent) + [node.current]
      ensures threw ==> node.current == old(node.current) && node.listeners.sent == old(node.listeners.sent)
      ensures node.listeners.listeners == old(node.listeners.listeners)
    {
      currentParentValue4 := changedValue4;
      var r := transform(currentParentValue1, currentParentValue2, currentParentValue3, currentParentValue4, currentParentValue5);
      threw := r.Threw?;
      if r.Done? {
        node.UpdateCurrentValue(r.value);
      }
    }

    /** `observer5.notifyChanged(v)`: as `Observer1`, for slot 5. */
    method Observer5(changedValue5: P5) returns (threw: bool)
      modifies this, node, node.listeners
      ensures currentParentValue5 == changedValue5
      ensures currentParentValue1 == old(currentParentValue1)
      ensures currentParentValue2 == old(currentParentValue2)
      ensures currentParentValue3 == old(currentParentValue3)
      ensures currentParentValue4 == old(currentParentValue4)
      ensures threw <==> transform(old(currentParentValue1), old(currentParentValue2), old(currentParentValue3), old(currentParentValue4), changedValue5).Threw?
      ensures !threw ==> Consistent()
      ensures !threw ==> node.listeners.sent == old(node.listeners.sent) + [node.current]
      ensures threw ==> node.current == old(node.current) && node.listeners.sent == old(node.listeners.sent)
      ensures node.listeners.listeners == old(node.listeners.listeners)
    {
      currentParentValue5 := changedValue5;
      var r := transform(currentParentValue1, currentParentValue2, currentParentValue3, currentParentValue4, currentParentValue5);
      threw := r.Threw?;
      if r.Done? {
        node.UpdateCurrentValue(r.value);
      }
    }
  }
}
