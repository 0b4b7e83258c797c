/**
 * A three-parent composer: each parent's observer recomputes from the changed
 * value, the other snapshots and the previous value, and the transform returns
 * a TransformationResult.
 */
module Reloadable3 {
  import opened Types
  import opened ReloadableCore

  class Reloadable3<P1, P2, P3, C(==)> {
    const transform: (P1, P2, P3, Option<C>) -> Attempt<TransformationResult<C>>
    const node: Reloadable<C>
    var currentParentValue1: P1
    var currentParentValue2: P2
    var currentParentValue3: P3

    constructor Make(p1: P1, p2: P2, p3: P3, transform: (P1, P2, P3, Option<C>) -> Attempt<TransformationResult<C>>)
      requires ValueOf(transform(p1, p2, p3, None)).Done?
      ensures this.transform == transform
      ensures currentParentValue1 == p1
      ensures currentParentValue2 == p2
      ensures currentParentValue3 == p3
      ensures fresh(node) && node.current == ValueOf(transform(p1, p2, p3, None)).value && node.propagated == []
    {
      node := new Reloadable(ValueOf(transform(p1, p2, p3, None)).value);
      this.transform := transform;
      currentParentValue1 := p1;
      currentParentValue2 := p2;
      currentParentValue3 := p3;
    }

    /**
     * The public constructor: the initial value is the transform of the
     * parents' values with no previous value; it
     * fails when that transform throws.
     */
    static method New(p1: P1, p2: P2, p3: P3, transform: (P1, P2, P3, Option<C>) -> Attempt<TransformationResult<C>>)
      returns (r: Attempt<Reloadable3<P1, P2, P3, C>>)
      ensures r.Done? <==> ValueOf(transform(p1, p2, p3, None)).Done?
      ensures r.Done? ==> fresh(r.value) && fresh(r.value.node) && r.value.transform == transform
      ensures r.Done? ==> r.value.node.current == ValueOf(transform(p1, p2, p3, None)).value && r.value.node.propagated == []
      ensures r.Done? ==> r.value.currentParentValue1 == p1
      ensures r.Done? ==> r.value.currentParentValue2 == p2
      ensures r.Done? ==> r.value.currentParentValue3 == p3
    {
      if ValueOf(transform(p1, p2, p3, None)).Threw? {
        return Threw;
      }
      var n := new Reloadable3.Make(p1, p2, p3, transform);
      r := Done(n);
    }

    /**
     * `observer1.notifyChanged(v)`: `updateCurrentValue` runs the transform
     * with `v` in slot 1, the other snapshots and the previous value; slot 1
     * is assigned only after the transform returns, so a throwing transform
     * leaves every snapshot as it was. The other slots never change.
     */
    method Observer1(parentValue1: P1) returns (threw: bool)
      modifies this, node
      ensures threw <==> transform(parentValue1, old(currentParentValue2), old(currentParentValue3), Some(old(node.current))).Threw?
      ensures Applied(ValueOf(transform(parentValue1, old(currentParentValue2), old(currentParentValue3), Some(old(node.current)))), node.propagateOnlyIfChanged,
                      old(node.current), old(node.propagated), node.current, node.propagated)
      ensures currentParentValue1 == if threw then old(currentParentValue1) else parentValue1
      ensures currentParentValue2 == old(currentParentValue2)
      ensures currentParentValue3 == old(currentParentValue3)
    {
      var t := transform;
      var s2 := currentParentValue2;
      var s3 := currentParentValue3;
      threw := node.UpdateCurrentValueWithResult(prev => t(parentValue1, s2, s3, prev));
      if !threw {
        currentParentValue1 := parentValue1;
      }
    }

    /** `observer2.notifyChanged(v)`: as `Observer1`, for slot 2. */
    method Observer2(parentValue2: P2) returns (threw: bool)
      modifies this, node
      ensures threw <==> transform(old(currentParentValue1), parentValue2, old(currentParentValue3), Some(old(node.current))).Threw?
      ensures Applied(ValueOf(transform(old(currentParentValue1), parentValue2, old(currentParentValue3), Some(old(node.current)))), node.propagateOnlyIfChanged,
                      old(node.current), old(node.propagated), node.current, node.propagated)
      ensures currentParentValue2 == if threw then old(currentParentValue2) else parentValue2
      ensures currentParentValue1 == old(currentParentValue1)
      ensures currentParentValue3 == old(currentParentValue3)
    {
      var t := transform;
      var s1 := currentParentValue1;
      var s3 := currentParentValue3;
      threw := node.UpdateCurrentValueWithResult(prev => t(s1, parentValue2, s3, prev));
      if !threw {
        currentParentValue2 := parentValue2;
      }
    }

    /** `observer3.notifyChanged(v)`: as `Observer1`, for slot 3. */
    method Observer3(parentValue3: P3) returns (threw: bool)
      modifies this, node
      ensures threw <==> transform(old(currentParentValue1), old(currentParentValue2), parentValue3, Some(old(node.current))).Threw?
      ensures Applied(ValueOf(transform(old(currentParentValue1), old(currentParentValue2), parentValue3, Some(old(node.current)))), node.propagateOnlyIfChanged,
                      old(node.current), old(node.propagated), node.current, node.propagated)
      ensures currentParentValue3 == if threw then old(currentParentValue3) else parentValue3
      ensures currentParentValue1 == old(currentParentValue1)
      ensures currentParentValue2 == old(currentParentValue2)
    {
      var t := transform;
      var s1 := currentParentValue1;
      var s2 := currentParentValue2;
      threw := node.UpdateCurrentValueWithResult(prev => t(s1, s2, parentValue3, prev));
      if !threw {
        currentParentValue3 := parentValue3;
      }
    }
  }
}
