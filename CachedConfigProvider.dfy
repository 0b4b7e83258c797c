/**
 * A configuration provider that caches its target's configuration and
 * re-fetches it only when a watched file has been modified since.
 */
module CachedConfigProvider {
  import opened Types
  import opened Freshness
  import opened ConfigWithTimestamps
  import opened ConfigProvider

  class CachedConfigProvider<C> {
    const scannedFiles: seq<File>
    const targetProvider: TargetProvider<C>
    const checkInterval: nat
    var configWithTimestamps: ConfigWithTimestamps<C>

    /** The objects whose state a check reads. */
    ghost function Reads(): set<object>
    {
      {this, targetProvider} + set f | f in scannedFiles
    }

    /** `optionalLastModified()`: the latest modification instant of the scanned files. */
    function OptionalLastModified(): (r: Option<int>)
      reads scannedFiles
      ensures r.None? <==> scannedFiles == []
      ensures r.Some? ==> exists i :: 0 <= i < |scannedFiles| && r.value == scannedFiles[i].lastModified
      ensures r.Some? ==> forall i :: 0 <= i < |scannedFiles| ==> scannedFiles[i].lastModified <= r.value
    {
      var stamps := Stamps(scannedFiles);
      var r := MaxLastModified(stamps);
      assert r.Some? ==> forall i :: 0 <= i < |scannedFiles| ==> stamps[i] in stamps;
      r
    }

    /** What a check at `now` does, from the current state. */
    ghost function Next(now: int): Refreshed<C>
      reads Reads()
    {
      Refresh(configWithTimestamps, OptionalLastModified(), targetProvider.next, now, checkInterval)
    }

    constructor Make(scannedFiles: seq<File>, targetProvider: TargetProvider<C>, checkInterval: nat,
                     initial: ConfigWithTimestamps<C>)
      ensures this.scannedFiles == scannedFiles && this.targetProvider == targetProvider
      ensures this.checkInterval == checkInterval && configWithTimestamps == initial
    {
      this.scannedFiles := scannedFiles;
      this.targetProvider := targetProvider;
      this.checkInterval := checkInterval;
      configWithTimestamps := initial;
    }

    /**
     * The public constructor. It asks the target for its configuration first
     * and then takes the probe with `Optional.get()`, so it fails when the
     * target throws or when no file is watched; `now` is `Instant.now()`.
     */
    static method New(scannedFiles: seq<File>, targetProvider: TargetProvider<C>, checkInterval: nat, now: int)
      returns (r: Attempt<CachedConfigProvider<C>>)
      modifies targetProvider
      ensures targetProvider.calls == old(targetProvider.calls) + 1
      ensures targetProvider.next == old(targetProvider.next)
      ensures r.Done? <==> targetProvider.next.Done? && scannedFiles != []
      ensures r.Done? ==> fresh(r.value)
      ensures r.Done? ==> r.value.scannedFiles == scannedFiles && r.value.targetProvider == targetProvider
      ensures r.Done? ==> r.value.checkInterval == checkInterval
      ensures r.Done? ==> r.value.configWithTimestamps
                          == ConfigWithTimestamps(targetProvider.next.value, MaxLastModified(Stamps(scannedFiles)).value, now)
    {
      var config := targetProvider.GetConfig();
      var probe := MaxLastModified(Stamps(scannedFiles));
      if config.Threw? || probe.None? {
        return Threw;
      }
      var p := new CachedConfigProvider.Make(scannedFiles, targetProvider, checkInterval,
                                            ConfigWithTimestamps(config.value, probe.value, now));
      r := Done(p);
    }

    /** `getConfig()`: the cached configuration; the target provider is not consulted. */
    method GetConfig() returns (config: C)
      ensures config == configWithTimestamps.config
    {
      config := configWithTimestamps.config;
    }

    /** `invalidateCache(lastModified, lastCheck)`: fetch from the target and build the new record. */
    method InvalidateCache(lastModified: int, lastCheck: int) returns (r: Attempt<ConfigWithTimestamps<C>>)
      modifies targetProvider
      ensures targetProvider.calls == old(targetProvider.calls) + 1
      ensures targetProvider.next == old(targetProvider.next)
      ensures r.Threw? <==> targetProvider.next.Threw?
      ensures r.Done? ==> r.value == ConfigWithTimestamps(targetProvider.next.value, lastModified, lastCheck)
    {
      var config := targetProvider.GetConfig();
      match config
      case Done(c) => r := Done(ConfigWithTimestamps(c, lastModified, lastCheck));
      case Threw => r := Threw;
    }

    /**
     * `invalidateCacheIfNeed(now)`: the staleness check. The new state is the
     * refresh rule applied to the old one; the target is called exactly when
     * that rule fetches; an exception from the target escapes (`threw`).
     */
    method InvalidateCacheIfNeed(now: int) returns (threw: bool)
      modifies this, targetProvider
      ensures configWithTimestamps == old(Next(now)).next
      ensures threw == old(Next(now)).threw
      ensures targetProvider.calls == old(targetProvider.calls) + (if old(Next(now)).fetched then 1 else 0)
      ensures targetProvider.next == old(targetProvider.next)
    {
      threw := false;
      var current := configWithTimestamps;
      if CheckDue(now, current.lastCheck, checkInterval) {
        var probe := OptionalLastModified();
        if probe.Some? && probe.value > current.lastModified {
          var r := InvalidateCache(probe.value, now);
          match r
          case Done(next) => configWithTimestamps := next;
          case Threw => threw := true;
        } else {
          configWithTimestamps := current.WithLastCheck(now);
        }
      }
    }
  }
}
