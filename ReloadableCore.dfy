/**
 * The newer revision of the `Reloadable` base class, whose code is not part
 * of this model: a current value, a `propagateOnlyIfChanged` policy and
 * `updateCurrentValue(prev -> ...)`, which recomputes from the previous value,
 * commits and propagates. `propagated` records, in order, every value handed
 * to observers.
 *
 * Only what the shown subclasses rely on is stated: the recompute gets
 * `Some(current)`, a throwing recompute changes nothing, otherwise the new
 * value is committed and propagated unless the policy suppresses it.
 */
module ReloadableCore {
  import opened Types

  /**
   * The effect of one `updateCurrentValue` whose recompute gave `r`, on the
   * pair (current value, propagated values).
   */
  ghost predicate Applied<T>(r: Attempt<T>, propagateOnlyIfChanged: bool,
                             current0: T, propagated0: seq<T>, current1: T, propagated1: seq<T>)
  {
    match r
    case Threw => current1 == current0 && propagated1 == propagated0
    case Done(v) =>
      current1 == v &&
      (propagated1 == propagated0 + [v] || (propagateOnlyIfChanged && propagated1 == propagated0))
  }

  class Reloadable<T(==)> {
    var current: T
    var propagated: seq<T>
    const propagateOnlyIfChanged: bool

    /** `super(value)`: the policy the one-argument constructor picks is not part of this model. */
    constructor (value: T)
      ensures current == value && propagated == []
    {
      current := value;
      propagated := [];
      propagateOnlyIfChanged := false;
    }

    /** `super(value, propagateOnlyIfChanged)`. */
    constructor WithPolicy(value: T, propagateOnlyIfChanged: bool)
      ensures current == value && propagated == []
      ensures this.propagateOnlyIfChanged == propagateOnlyIfChanged
    {
      current := value;
      propagated := [];
      this.propagateOnlyIfChanged := propagateOnlyIfChanged;
    }

    /** `updateCurrentValue(Function<Optional<T>, T>)`; change is judged by equality. */
    method UpdateCurrentValue(recompute: Option<T> -> Attempt<T>) returns (threw: bool)
      modifies this
      ensures threw <==> recompute(Some(old(current))).Threw?
      ensures Applied(recompute(Some(old(current))), propagateOnlyIfChanged,
                      old(current), old(propagated), current, propagated)
    {
      var r := recompute(Some(current));
      threw := r.Threw?;
      if r.Done? {
        var changed := r.value != current;
        current := r.value;
        if !propagateOnlyIfChanged || changed {
          propagated := propagated + [r.value];
        }
      }
    }

    /** `updateCurrentValue(Function<Optional<T>, TransformationResult<T>>)`; change is the result's flag. */
    method UpdateCurrentValueWithResult(recompute: Option<T> -> Attempt<TransformationResult<T>>)
      returns (threw: bool)
      modifies this
      ensures threw <==> recompute(Some(old(current))).Threw?
      ensures Applied(ValueOf(recompute(Some(old(current)))), propagateOnlyIfChanged,
                      old(current), old(propagated), current, propagated)
    {
      var r := recompute(Some(current));
      threw := r.Threw?;
      if r.Done? {
        current := r.value.value;
        if !propagateOnlyIfChanged || r.value.changed {
          propagated := propagated + [r.value.value];
        }
      }
    }
  }
}
