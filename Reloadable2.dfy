/**
 * A two-parent composer: each parent's observer recomputes from the changed
 * value, the other snapshot and the previous value, and the transform returns
 * a plain value.
 */
module Reloadable2 {
  import opened Types
  import opened ReloadableCore

  class Reloadable2<P1, P2, C(==)> {
    const transform: (P1, P2, Option<C>) -> Attempt<C>
    const node: Reloadable<C>
    var currentParentValue1: P1
    var currentParentValue2: P2

    constructor Make(p1: P1, p2: P2, transform: (P1, P2, Option<C>) -> Attempt<C>, propagateOnlyIfChanged: bool)
      requires transform(p1, p2, None).Done?
      ensures this.transform == transform
      ensures currentParentValue1 == p1
      ensures currentParentValue2 == p2
      ensures fresh(node) && node.current == transform(p1, p2, None).value && node.propagated == []
      ensures node.propagateOnlyIfChanged == propagateOnlyIfChanged
    {
      node := new Reloadable.WithPolicy(transform(p1, p2, None).value, propagateOnlyIfChanged);
      this.transform := transform;
      currentParentValue1 := p1;
      currentParentValue2 := p2;
    }

    /**
     * The public constructor: the initial value is the transform of the
     * parents' values with no previous value, passing `propagateOnlyIfChanged` to the base unchanged; it
     * fails when that transform throws.
     */
    static method New(p1: P1, p2: P2, transform: (P1, P2, Option<C>) -> Attempt<C>, propagateOnlyIfChanged: bool)
      returns (r: Attempt<Reloadable2<P1, P2, C>>)
      ensures r.Done? <==> transform(p1, p2, None).Done?
      ensures r.Done? ==> fresh(r.value) && fresh(r.value.node) && r.value.transform == transform
      ensures r.Done? ==> r.value.node.current == transform(p1, p2, None).value && r.value.node.propagated == []
      ensures r.Done? ==> r.value.node.propagateOnlyIfChanged == propagateOnlyIfChanged
      ensures r.Done? ==> r.value.currentParentValue1 == p1
      ensures r.Done? ==> r.value.currentParentValue2 == p2
    {
      if transform(p1, p2, None).Threw? {
        return Threw;
      }
      var n := new Reloadable2.Make(p1, p2, transform, propagateOnlyIfChanged);
      r := Done(n);
    }

    /**
     * `observer1.notifyChanged(v)`: `updateCurrentValue` runs the transform
     * with `v` in slot 1, the other snapshots and the previous value; slot 1
     * is assigned only after the transform returns, so a throwing transform
     * leaves every snapshot as it was. The other slots never change.
     */
    method Observer1(changedValue1: P1) returns (threw: bool)
      modifies this, node
      ensures threw <==> transform(changedValue1, old(currentParentValue2), Some(old(node.current))).Threw?
      ensures Applied(transform(changedValue1, old(currentParentValue2), Some(old(node.current))), node.propagateOnlyIfChanged,
                      old(node.current), old(node.propagated), node.current, node.propagated)
      ensures currentParentValue1 == if threw then old(currentParentValue1) else changedValue1
      ensures currentParentValue2 == old(currentParentValue2)
    {
      var t := transform;
      var s2 := currentParentValue2;
      threw := node.UpdateCurrentValue(prev => t(changedValue1, s2, prev));
      if !threw {
        currentParentValue1 := changedValue1;
      }
    }

    /** `observer2.notifyChanged(v)`: as `Observer1`, for slot 2. */
    method Observer2(changedValue2: P2) returns (threw: bool)
      modifies this, node
      ensures threw <==> transform(old(currentParentValue1), changedValue2, Some(old(node.current))).Threw?
      ensures Applied(transform(old(currentParentValue1), changedValue2, Some(old(node.current))), node.propagateOnlyIfChanged,
                      old(node.current), old(node.propagated), node.current, node.propagated)
      ensures currentParentValue2 == if threw then old(currentParentValue2) else changedValue2
      ensures currentParentValue1 == old(currentParentValue1)
    {
      var t := transform;
      var s1 := currentParentValue1;
      threw := node.UpdateCurrentValue(prev => t(s1, changedValue2, prev));
      if !threw {
        currentParentValue2 := changedValue2;
      }
    }
  }
}
