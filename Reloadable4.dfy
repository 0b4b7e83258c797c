/**
 * A four-parent composer: each parent's observer recomputes from the changed
 * value, the other snapshots and the previous value, and the transform returns
 * a TransformationResult.
 */
module Reloadable4 {
  import opened Types
  import opened ReloadableCore

  class Reloadable4<P1, P2, P3, P4, C(==)> {
    const transform: (P1, P2, P3, P4, Option<C>) -> Attempt<TransformationResult<C>>
    const node: Reloadable<C>
    var currentParentValue1: P1
    var currentParentValue2: P2
    var currentParentValue3: P3
    var currentParentValue4: P4

    constructor Make(p1: P1, p2: P2, p3: P3, p4: P4, transform: (P1, P2, P3, P4, Option<C>) -> Attempt<TransformationResult<C>>)
      requires ValueOf(transform(p1, p2, p3, p4, None)).Done?
      ensures this.transform == transform
      ensures currentParentValue1 == p1
      ensures currentParentValue2 == p2
      ensures currentParentValue3 == p3
      ensures currentParentValue4 == p4
      ensures fresh(node) && node.current == ValueOf(transform(p1, p2, p3, p4, None)).value && node.propagated == []
    {
      node := new Reloadable(ValueOf(transform(p1, p2, p3, p4, None)).value);
      this.transform := transform;
      currentParentValue1 := p1;
      currentParentValue2 := p2;
      currentParentValue3 := p3;
      currentParentValue4 := p4;
    }

    /**
     * The public constructor: the initial value is the transform of the
     * parents' values with no previous value; it
     * fails when that transform throws.
     */
    static method New(p1: P1, p2: P2, p3: P3, p4: P4, transform: (P1, P2, P3, P4, Option<C>) -> Attempt<TransformationResult<C>>)
      returns (r: Attempt<Reloadable4<P1, P2, P3, P4, C>>)
      ensures r.Done? <==> ValueOf(transform(p1, p2, p3, p4, None)).Done?
      ensures r.Done? ==> fresh(r.value) && fresh(r.value.node) && r.value.transform == transform
      ensures r.Done? ==> r.value.node.current == ValueOf(transform(p1, p2, p3, p4, None)).value && r.value.node.propagated == []
      ensures r.Done? ==> r.value.currentParentValue1 == p1
      ensures r.Done? ==> r.value.currentParentValue2 == p2
      ensures r.Done? ==> r.value.currentParentValue3 == p3
      ensures r.Done? ==> r.value.currentParentValue4 == p4
    {
      if ValueOf(transform(p1, p2, p3, p4, None)).Threw? {
        return Threw;
      }
      var n := new Reloadable4.Make(p1, p2, p3, p4, transform);
      r := Done(n);
    }

    /**
     * `observer1.notifyChanged(v)`: `updateCurrentValue` runs the transform
     * with `v` in slot 1, the other snapshots and the previous value; slot 1
     * is assigned only after the transform returns, so a throwing transform
     * leaves every snapshot as it was. The other slots never change.
     */
    method Observer1(parentValue1: P1) returns (threw: bool)
      modifies this, node
      ensures threw <==> transform(parentValue1, old(currentParentValue2), old(currentParentValue3), old(currentParentValue4), Some(old(node.current))).Threw?
      ensures Applied(ValueOf(transform(parentValue1, old(currentParentValue2), old(currentParentValue3), old(currentParentValue4), Some(old(node.current)))), node.propagateOnlyIfChanged,
                      old(node.current), old(node.propagated), node.current, node.propagated)
      ensures currentParentValue1 == if threw then old(currentParentValue1) else parentValue1
      ensures currentParentValue2 == old(currentParentValue2)
      ensures currentParentValue3 == old(currentParentValue3)
      ensures currentParentValue4 == old(currentParentValue4)
    {
      var t := transform;
      var s2 := currentParentValue2;
      var s3 := currentParentValue3;
      var s4 := currentParentValue4;
      threw := node.UpdateCurrentValueWithResult(prev => t(parentValue1, s2, s3, s4, prev));
      if !threw {
        currentParentValue1 := parentValue1;
      }
    }

    /** `observer2.notifyChanged(v)`: as `Observer1`, for slot 2. */
    method Observer2(parentValue2: P2) returns (threw: bool)
      modifies this, node
      ensures threw <==> transform(old(currentParentValue1), parentValue2, old(currentParentValue3), old(currentParentValue4), Some(old(node.current))).Threw?
      ensures Applied(ValueOf(transform(old(currentParentValue1), parentValue2, old(currentParentValue3), old(currentParentValue4), Some(old(node.current)))), node.propagateOnlyIfChanged,
                      old(node.current), old(node.propagated), node.current, node.propagated)
      ensures currentParentValue2 == if threw then old(currentParentValue2) else parentValue2
      ensures currentParentValue1 == old(currentParentValue1)
      ensures currentParentValue3 == old(currentParentValue3)
      ensures currentParentValue4 == old(currentParentValue4)
    {
      var t := transform;
      var s1 := currentParentValue1;
      var s3 := currentParentValue3;
      var s4 := currentParentValue4;
      threw := node.UpdateCurrentValueWithResult(prev => t(s1, parentValue2, s3, s4, prev));
      if !threw {
        currentParentValue2 := parentValue2;
      }
    }

    /** `observer3.notifyChanged(v)`: as `Observer1`, for slot 3. */
    method Observer3(parentValue3: P3) returns (threw: bool)
      modifies this, node
      ensures threw <==> transform(old(currentParentValue1), old(currentParentValue2), parentValue3, old(currentParentValue4), Some(old(node.current))).Threw?
      ensures Applied(ValueOf(transform(old(currentParentValue1), old(currentParentValue2), parentValue3, old(currentParentValue4), Some(old(node.current)))), node.propagateOnlyIfChanged,
                      old(node.current), old(node.propagated), node.current, node.propagated)
      ensures currentParentValue3 == if threw then old(currentParentValue3) else parentValue3
      ensures currentParentValue1 == old(currentParentValue1)
      ensures currentParentValue2 == old(currentParentValue2)
      ensures currentParentValue4 == old(currentParentValue4)
    {
      var t := transform;
      var s1 := currentParentValue1;
      var s2 := currentParentValue2;
      var s4 := currentParentValue4;
      threw := node.UpdateCurrentValueWithResult(prev => t(s1, s2, parentValue3, s4, prev));
      if !threw {
        currentParentValue3 := parentValue3;
      }
    }

    /** `observer4.notifyChanged(v)`: as `Observer1`, for slot 4. */
    method Observer4(parentValue4: P4) returns (threw: bool)
      modifies this, node
      ensures threw <==> transform(old(currentParentValue1), old(currentParentValue2), old(currentParentValue3), parentValue4, Some(old(node.current))).Threw?
      ensures Applied(ValueOf(transform(old(currentParentValue1), old(currentParentValue2), old(currentParentValue3), parentValue4, Some(old(node.current)))), node.propagateOnlyIfChanged,
                      old(node.current), old(node.propagated), node.current, node.propagated)
      ensures currentParentValue4 == if threw then old(currentParentValue4) else parentValue4
      ensures currentParentValue1 == old(currentParentValue1)
      ensures currentParentValue2 == old(currentParentValue2)
      ensures currentParentValue3 == old(currentParentValue3)
    {
      var t := transform;
      var s1 := currentParentValue1;
      var s2 := currentParentValue2;
      var s3 := currentParentValue3;
      threw := node.UpdateCurrentValueWithResult(prev => t(s1, s2, s3, parentValue4, prev));
      if !threw {
        currentParentValue4 := parentValue4;
      }
    }
  }
}
