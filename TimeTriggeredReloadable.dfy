/**
 * A reloadable value driven by the clock alone: once per check interval the
 * tick instant is fed to `transform` together with the previous value.
 */
module TimeTriggeredReloadable {
  import opened Types
  import opened Freshness
  import opened ReloadableCore

  /** The lastCheck a tick at `now` leaves behind, and whether it fired. */
  function TickGate(lastCheck: int, now: int, checkInterval: nat): (r: (bool, int))
    // lastCheck never goes back.
    ensures r.1 >= lastCheck
  {
    if CheckDue(now, lastCheck, checkInterval) then (true, now) else (false, lastCheck)
  }

  /** A second tick at the same instant never fires, whether the first one did or not. */
  lemma TickGateShut(lastCheck: int, now: int, checkInterval: nat)
    ensures !TickGate(TickGate(lastCheck, now, checkInterval).1, now, checkInterval).0
  {
  }

  /**
   * Between two firings at least `checkInterval` plus one millisecond pass:
   * if a tick at `now1` fired, a tick at `now2` fires only when
   * `now2 > now1 + checkInterval`.
   */
  lemma FiringsAreSpaced(lastCheck: int, now1: int, now2: int, checkInterval: nat)
    requires TickGate(lastCheck, now1, checkInterval).0
    requires TickGate(TickGate(lastCheck, now1, checkInterval).1, now2, checkInterval).0
    ensures now2 - now1 > checkInterval
  {
  }

  class TimeTriggeredReloadable<T(==)> {
    const checkInterval: nat
    const transform: (int, Option<T>) -> Attempt<TransformationResult<T>>
    const node: Reloadable<T>
    var lastCheck: int

    /**
     * The constructor taking `currentTickValue`; the other one passes
     * `Instant.now()` for it.
     */
    constructor (currentValue: T, currentTickValue: int, checkInterval: nat,
                 transform: (int, Option<T>) -> Attempt<TransformationResult<T>>)
      ensures fresh(node) && node.current == currentValue && node.propagated == []
      ensures lastCheck == currentTickValue
      ensures this.checkInterval == checkInterval && this.transform == transform
    {
      node := new Reloadable(currentValue);
      lastCheck := currentTickValue;
      this.checkInterval := checkInterval;
      this.transform := transform;
    }

    /** `updateCurrentValueWithTransformed(now)`: `updateCurrentValue(transform.apply(now))`. */
    method UpdateCurrentValueWithTransformed(now: int) returns (threw: bool)
      modifies node
      ensures threw <==> transform(now, Some(old(node.current))).Threw?
      ensures Applied(ValueOf(transform(now, Some(old(node.current)))), node.propagateOnlyIfChanged,
                      old(node.current), old(node.propagated), node.current, node.propagated)
    {
      var t := transform;
      threw := node.UpdateCurrentValueWithResult(prev => t(now, prev));
    }

    /** `handleTimeTrigger(now)`. */
    method HandleTimeTrigger(now: int) returns (threw: bool)
      modifies node
      ensures threw <==> transform(now, Some(old(node.current))).Threw?
      ensures Applied(ValueOf(transform(now, Some(old(node.current)))), node.propagateOnlyIfChanged,
                      old(node.current), old(node.propagated), node.current, node.propagated)
    {
      threw := UpdateCurrentValueWithTransformed(now);
    }

    /**
     * `notifyChanged(now)`: when the gate passes, the transform is applied
     * once to `now` and lastCheck becomes `now` even if it threw (the
     * exception escapes); otherwise nothing changes.
     */
    method NotifyChanged(now: int) returns (threw: bool)
      modifies this, node
      ensures (!threw || TickGate(old(lastCheck), now, checkInterval).0)
      ensures lastCheck == TickGate(old(lastCheck), now, checkInterval).1
      ensures !TickGate(old(lastCheck), now, checkInterval).0 ==>
                !threw && node.current == old(node.current) && node.propagated == old(node.propagated)
      ensures TickGate(old(lastCheck), now, checkInterval).0 ==>
                (threw <==> transform(now, Some(old(node.current))).Threw?) &&
                Applied(ValueOf(transform(now, Some(old(node.current)))), node.propagateOnlyIfChanged,
                        old(node.current), old(node.propagated), node.current, node.propagated)
    {
      threw := false;
      if CheckDue(now, lastCheck, checkInterval) {
        threw := HandleTimeTrigger(now);
        // the finally block
        lastCheck := now;
      }
    }

    /**
     * `propagatingTicks(currentTickValue, checkInterval)`: a node whose value
     * is the last tick that fired, always reported as changed.
     */
    static method PropagatingTicks(currentTickValue: int, checkInterval: nat)
      returns (r: TimeTriggeredReloadable<int>)
      ensures fresh(r) && fresh(r.node)
      ensures r.node.current == currentTickValue && r.lastCheck == currentTickValue
      ensures r.checkInterval == checkInterval
      ensures forall tick, prev :: r.transform(tick, prev) == Done(TransformationResult(tick, true))
    {
      r := new TimeTriggeredReloadable(currentTickValue, currentTickValue, checkInterval,
                                       (tick: int, prev: Option<int>) => Done(TransformationResult(tick, true)));
    }
  }
}
