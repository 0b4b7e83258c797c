/**
 * The `ConfigProvider` a cache wraps: an external supplier of configurations.
 * What the supplier would return right now is `next`; `calls` counts how often
 * it has been asked.
 */
module ConfigProvider {
  import opened Types

  class TargetProvider<C> {
    var next: Attempt<C>
    var calls: nat

    constructor (next: Attempt<C>)
      ensures this.next == next && calls == 0
    {
      this.next := next;
      calls := 0;
    }

    /** `getConfig()`: returns the supplier's current answer (or throws) and records the call. */
    method GetConfig() returns (r: Attempt<C>)
      modifies this
      ensures r == next && next == old(next)
      ensures calls == old(calls) + 1
    {
      r := next;
      calls := calls + 1;
    }
  }
}
