/**
 * A single-parent derived value of the newer revision: no snapshot is kept;
 * every notification hands the stored transform, applied to the parent's
 * value, to `updateCurrentValue`.
 */
module Reloadable1 {
  import opened Types
  import opened ReloadableCore

  class Reloadable1<P, C(==)> {
    const transform: (P, Option<C>) -> Attempt<TransformationResult<C>>
    const node: Reloadable<C>

    constructor Make(currentParentValue: P, transform: (P, Option<C>) -> Attempt<TransformationResult<C>>)
      requires transform(currentParentValue, None).Done?
      ensures this.transform == transform
      ensures fresh(node) && node.current == transform(currentParentValue, None).value.value
      ensures node.propagated == []
    {
      node := new Reloadable(transform(currentParentValue, None).value.value);
      this.transform := transform;
    }

    /**
     * The public constructor: the initial value is
     * `transform(currentParentValue, empty).getValue()`; the parent value is
     * not kept. It fails when that transform throws.
     */
    static method New(currentParentValue: P, transform: (P, Option<C>) -> Attempt<TransformationResult<C>>)
      returns (r: Attempt<Reloadable1<P, C>>)
      ensures r.Done? <==> transform(currentParentValue, None).Done?
      ensures r.Done? ==> fresh(r.value) && fresh(r.value.node) && r.value.transform == transform
      ensures r.Done? ==> r.value.node.current == transform(currentParentValue, None).value.value
      ensures r.Done? ==> r.value.node.propagated == []
    {
      if transform(currentParentValue, None).Threw? {
        return Threw;
      }
      var n := new Reloadable1.Make(currentParentValue, transform);
      r := Done(n);
    }

    /** `notifyChanged(p)`: `updateCurrentValue(transform.apply(p))`. */
    method NotifyChanged(parentValue: P) returns (threw: bool)
      modifies node
      ensures threw <==> transform(parentValue, Some(old(node.current))).Threw?
      ensures Applied(ValueOf(transform(parentValue, Some(old(node.current)))), node.propagateOnlyIfChanged,
                      old(node.current), old(node.propagated), node.current, node.propagated)
    {
      var t := transform;
      threw := node.UpdateCurrentValueWithResult(prev => t(parentValue, prev));
    }
  }
}
