/**
 * The immutable record a cached configuration steps through, and the
 * refresh rule that CachedConfigProvider and ConfigObservable both apply to
 * it on every tick.
 */
module ConfigWithTimestamps {
  import opened Types
  import opened Freshness

  /** A configuration together with the instant it was modified and the instant it was last checked. */
  datatype ConfigWithTimestamps<C> = ConfigWithTimestamps(config: C, lastModified: int, lastCheck: int)
  {
    /** A copy with a new last-check instant; `this` is a value and stays as it was. */
    function WithLastCheck(newLastCheck: int): (r: ConfigWithTimestamps<C>)
      ensures r.config == config && r.lastModified == lastModified
      ensures r.lastCheck == newLastCheck
    {
      ConfigWithTimestamps(config, lastModified, newLastCheck)
    }
  }

  /** The getters `getConfig`, `getLastModified`, `getLastCheck` give back the constructor arguments. */
  lemma GettersReturnArguments<C>(config: C, lastModified: int, lastCheck: int)
    ensures ConfigWithTimestamps(config, lastModified, lastCheck).config == config
    ensures ConfigWithTimestamps(config, lastModified, lastCheck).lastModified == lastModified
    ensures ConfigWithTimestamps(config, lastModified, lastCheck).lastCheck == lastCheck
  {
  }

  /** Only the last `withLastCheck` of a chain matters. */
  lemma WithLastCheckTwice<C>(c: ConfigWithTimestamps<C>, a: int, b: int)
    ensures c.WithLastCheck(a).WithLastCheck(b) == c.WithLastCheck(b)
  {
  }

  /**
   * What one tick did: the new record, whether the target provider was
   * asked for a new configuration, and whether that call threw (in which
   * case the record is left as it was and the exception escapes).
   */
  datatype Refreshed<C> = Refreshed(next: ConfigWithTimestamps<C>, fetched: bool, threw: bool)

  /**
   * One staleness check at instant `now`: `probe` is the maximum file
   * timestamp (`optionalLastModified()`), `fetch` what the target provider's
   * `getConfig()` would give.
   */
  function Refresh<C>(current: ConfigWithTimestamps<C>, probe: Option<int>, fetch: Attempt<C>,
                      now: int, checkInterval: nat): (r: Refreshed<C>)
    // The gate: nothing happens unless now is strictly after lastCheck + checkInterval.
    ensures !CheckDue(now, current.lastCheck, checkInterval) ==> r == Refreshed(current, false, false)
    // The provider is called exactly when the gate passes and the probe strictly advances.
    ensures r.fetched <==> CheckDue(now, current.lastCheck, checkInterval)
                           && probe.Some? && probe.value > current.lastModified
    ensures r.threw <==> r.fetched && fetch.Threw?
    // A successful reload stores (new config, probed instant, now).
    ensures r.fetched && fetch.Done? ==> r.next == ConfigWithTimestamps(fetch.value, probe.value, now)
    // Without a reload, only lastCheck moves, to now.
    ensures CheckDue(now, current.lastCheck, checkInterval) && !r.fetched ==> r.next == current.WithLastCheck(now)
    // A throwing provider leaves the record untouched.
    ensures r.threw ==> r.next == current
    // lastModified never decreases.
    ensures r.next.lastModified >= current.lastModified
  {
    if !CheckDue(now, current.lastCheck, checkInterval) then
      Refreshed(current, false, false)
    else if probe.Some? && probe.value > current.lastModified then
      match fetch
      case Done(c) => Refreshed(ConfigWithTimestamps(c, probe.value, now), true, false)
      case Threw => Refreshed(current, true, true)
    else
      Refreshed(current.WithLastCheck(now), false, false)
  }

  /**
   * Checking twice at the same instant is the same as checking once: a check
   * that went through set lastCheck to now and shut the gate, and one that
   * threw left everything as it was, so the second throws again.
   */
  lemma RefreshIdempotent<C>(current: ConfigWithTimestamps<C>, probe: Option<int>, fetch: Attempt<C>,
                             now: int, checkInterval: nat)
    ensures var once := Refresh(current, probe, fetch, now, checkInterval);
            var twice := Refresh(once.next, probe, fetch, now, checkInterval);
            twice.next == once.next && twice.threw == once.threw
  {
    var once := Refresh(current, probe, fetch, now, checkInterval);
    if !once.threw && CheckDue(now, current.lastCheck, checkInterval) {
      CheckDueShutAfterCheck(now, checkInterval);
    }
  }

  /** With no watched files the probe is empty, so a tick only moves lastCheck. */
  lemma RefreshWithoutFiles<C>(current: ConfigWithTimestamps<C>, fetch: Attempt<C>, now: int, checkInterval: nat)
    requires CheckDue(now, current.lastCheck, checkInterval)
    ensures Refresh(current, MaxLastModified([]), fetch, now, checkInterval)
            == Refreshed(current.WithLastCheck(now), false, false)
  {
  }
}
