/**
 * A five-parent composer: each parent's observer recomputes from the changed
 * value, the other snapshots and the previous value, and the transform returns
 * a plain value.
 */
module Reloadable5 {
  import opened Types
  import opened ReloadableCore

  class Reloadable5<P1, P2, P3, P4, P5, C(==)> {
    const transform: (P1, P2, P3, P4, P5, Option<C>) -> Attempt<C>
    const node: Reloadable<C>
    var currentParentValue1: P1
    var currentParentValue2: P2
    var currentParentValue3: P3
    var currentParentValue4: P4
    var currentParentValue5: P5

    constructor Make(p1: P1, p2: P2, p3: P3, p4: P4, p5: P5, transform: (P1, P2, P3, P4, P5, Option<C>) -> Attempt<C>)
      requires transform(p1, p2, p3, p4, p5, None).Done?
      ensures this.transform == transform
      ensures currentParentValue1 == p1
      ensures currentParentValue2 == p2
      ensures currentParentValue3 == p3
      ensures currentParentValue4 == p4
      ensures currentParentValue5 == p5
      ensures fresh(node) && node.current == transform(p1, p2, p3, p4, p5, None).value && node.propagated == []
    {
      node := new Reloadable(transform(p1, p2, p3, p4, p5, None).value);
      this.transform := transform;
      currentParentValue1 := p1;
      currentParentValue2 := p2;
      currentParentValue3 := p3;
      currentParentValue4 := p4;
      currentParentValue5 := p5;
    }

    /**
     * The public constructor: the initial value is the transform of the
     * parents' values with no previous value; it
     * fails when that transform throws.
     */
    static method New(p1: P1, p2: P2, p3: P3, p4: P4, p5: P5, transform: (P1, P2, P3, P4, P5, Option<C>) -> Attempt<C>)
      returns (r: Attempt<Reloadable5<P1, P2, P3, P4, P5, C>>)
      ensures r.Done? <==> transform(p1, p2, p3, p4, p5, None).Done?
      ensures r.Done? ==> fresh(r.value) && fresh(r.value.node) && r.value.transform == transform
      ensures r.Done? ==> r.value.node.current == transform(p1, p2, p3, p4, p5, None).value && r.value.node.propagated == []
      ensures r.Done? ==> r.value.currentParentValue1 == p1
      ensures r.Done? ==> r.value.currentParentValue2 == p2
      ensures r.Done? ==> r.value.currentParentValue3 == p3
      ensures r.Done? ==> r.value.currentParentValue4 == p4
      ensures r.Done? ==> r.value.currentParentValue5 == p5
    {
      if transform(p1, p2, p3, p4, p5, None).Threw? {
        return Threw;
      }
      var n := new Reloadable5.Make(p1, p2, p3, p4, p5, transform);
      r := Done(n);
    }

    /**
     * `observer1.notifyChanged(v)`: `updateCurrentValue` runs the transform
     * with `v` in slot 1, the other snapshots and the previous value; slot 1
     * is assigned only after the transform returns, so a throwing transform
     * leaves every snapshot as it was. The other slots never change.
     */
    method Observer1(changedValue1: P1) returns (threw: bool)
      modifies this, node
      ensures threw <==> transform(changedValue1, old(currentParentValue2), old(currentParentValue3), old(currentParentValue4), old(currentParentValue5), Some(old(node.current))).Threw?
      ensures Applied(transform(changedValue1, old(currentParentValue2), old(currentParentValue3), old(currentParentValue4), old(currentParentValue5), Some(old(node.current))), node.propagateOnlyIfChanged,
                      old(node.current), old(node.propagated), node.current, node.propagated)
      ensures currentParentValue1 == if threw then old(currentParentValue1) else changedValue1
      ensures currentParentValue2 == old(currentParentValue2)
      ensures currentParentValue3 == old(currentParentValue3)
      ensures currentParentValue4 == old(currentParentValue4)
      ensures currentParentValue5 == old(currentParentValue5)
    {
      var t := transform;
      var s2 := currentParentValue2;
      var s3 := currentParentValue3;
      var s4 := currentParentValue4;
      var s5 := currentParentValue5;
      threw := node.UpdateCurrentValue(prev => t(changedValue1, s2, s3, s4, s5, prev));
      if !threw {
        currentParentValue1 := changedValue1;
      }
    }

    /** `observer2.notifyChanged(v)`: as `Observer1`, for slot 2. */
    method Observer2(changedValue2: P2) returns (threw: bool)
      modifies this, node
      ensures threw <==> transform(old(currentParentValue1), changedValue2, old(currentParentValue3), old(currentParentValue4), old(currentParentValue5), Some(old(node.current))).Threw?
      ensures Applied(transform(old(currentParentValue1), changedValue2, old(currentParentValue3), old(currentParentValue4), old(currentParentValue5), Some(old(node.current))), node.propagateOnlyIfChanged,
                      old(node.current), old(node.propagated), node.current, node.propagated)
      ensures currentParentValue2 == if threw then old(currentParentValue2) else changedValue2
      ensures currentParentValue1 == old(currentParentValue1)
      ensures currentParentValue3 == old(currentParentValue3)
      ensures currentParentValue4 == old(currentParentValue4)
      ensures currentParentValue5 == old(currentParentValue5)
    {
      var t := transform;
      var s1 := currentParentValue1;
      var s3 := currentParentValue3;
      var s4 := currentParentValue4;
      var s5 := currentParentValue5;
      threw := node.UpdateCurrentValue(prev => t(s1, changedValue2, s3, s4, s5, prev));
      if !threw {
        currentParentValue2 := changedValue2;
      }
    }

    /** `observer3.notifyChanged(v)`: as `Observer1`, for slot 3. */
    method Observer3(changedValue3: P3) returns (threw: bool)
      modifies this, node
      ensures threw <==> transform(old(currentParentValue1), old(currentParentValue2), changedValue3, old(currentParentValue4), old(currentParentValue5), Some(old(node.current))).Threw?
      ensures Applied(transform(old(currentParentValue1), old(currentParentValue2), changedValue3, old(currentParentValue4), old(currentParentValue5), Some(old(node.current))), node.propagateOnlyIfChanged,
                      old(node.current), old(node.propagated), node.current, node.propagated)
      ensures currentParentValue3 == if threw then old(currentParentValue3) else changedValue3
      ensures currentParentValue1 == old(currentParentValue1)
      ensures currentParentValue2 == old(currentParentValue2)
      ensures currentParentValue4 == old(currentParentValue4)
      ensures currentParentValue5 == old(currentParentValue5)
    {
      var t := transform;
      var s1 := currentParentValue1;
      var s2 := currentParentValue2;
      var s4 := currentParentValue4;
      var s5 := currentParentValue5;
      threw := node.UpdateCurrentValue(prev => t(s1, s2, changedValue3, s4, s5, prev));
      if !threw {
        currentParentValue3 := changedValue3;
      }
    }

    /** `observer4.notifyChanged(v)`: as `Observer1`, for slot 4. */
    method Observer4(changedValue4: P4) returns (threw: bool)
      modifies this, node
      ensures threw <==> transform(old(currentParentValue1), old(currentParentValue2), old(currentParentValue3), changedValue4, old(currentParentValue5), Some(old(node.current))).Threw?
      ensures Applied(transform(old(currentParentValue1), old(currentParentValue2), old(currentParentValue3), changedValue4, old(currentParentValue5), Some(old(node.current))), node.propagateOnlyIfChanged,
                      old(node.current), old(node.propagated), node.current, node.propagated)
      ensures currentParentValue4 == if threw then old(currentParentValue4) else changedValue4
      ensures currentParentValue1 == old(currentParentValue1)
      ensures currentParentValue2 == old(currentParentValue2)
      ensures currentParentValue3 == old(currentParentValue3)
      ensures currentParentValue5 == old(currentParentValue5)
    {
      var t := transform;
      var s1 := currentParentValue1;
      var s2 := currentParentValue2;
      var s3 := currentParentValue3;
      var s5 := currentParentValue5;
      threw := node.UpdateCurrentValue(prev => t(s1, s2, s3, changedValue4, s5, prev));
      if !threw {
        currentParentValue4 := changedValue4;
      }
    }

    /** `observer5.notifyChanged(v)`: as `Observer1`, for slot 5. */
    method Observer5(changedValue5: P5) returns (threw: bool)
      modifies this, node
      ensures threw <==> transform(old(currentParentValue1), old(currentParentValue2), old(currentParentValue3), old(currentParentValue4), changedValue5, Some(old(node.current))).Threw?
      ensures Applied(transform(old(currentParentValue1), old(currentParentValue2), old(currentParentValue3), old(currentParentValue4), changedValue5, Some(old(node.current))), node.propagateOnlyIfChanged,
                      old(node.current), old(node.propagated), node.current, node.propagated)
      ensures currentParentValue5 == if threw then old(currentParentValue5) else changedValue5
      ensures currentParentValue1 == old(currentParentValue1)
      ensures currentParentValue2 == old(currentParentValue2)
      ensures currentParentValue3 == old(currentParentValue3)
      ensures currentParentValue4 == old(currentParentValue4)
    {
      var t := transform;
      var s1 := currentParentValue1;
      var s2 := currentParentValue2;
      var s3 := currentParentValue3;
      var s4 := currentParentValue4;
      threw := node.UpdateCurrentValue(prev => t(s1, s2, s3, s4, changedValue5, prev));
      if !threw {
        currentParentValue5 := changedValue5;
      }
    }
  }
}
