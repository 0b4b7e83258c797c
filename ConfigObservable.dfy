/**
 * A cached configuration that is itself an observable: it reacts to ticks
 * and, when a watched file has been modified, re-fetches the configuration
 * and hands it to its listeners.
 */
module ConfigObservable {
  import opened Types
  import opened Freshness
  import opened ConfigWithTimestamps
  import opened ConfigProvider
  import opened ListenerBase

  class ConfigObservable<C> {
    const scannedFiles: seq<File>
    const targetProvider: TargetProvider<C>
    const checkInterval: nat
    const listeners: ListenerRegistry<C>
    var configWithTimestamps: ConfigWithTimestamps<C>

    /** The objects whose state a tick reads. */
    ghost function Reads(): set<object>
      reads this
    {
      {this, targetProvider} + set f | f in scannedFiles
    }

    /** What a tick at `now` does, from the current state. */
    ghost function Next(now: int): Refreshed<C>
      reads Reads()
    {
      Refresh(configWithTimestamps, MaxLastModified(Stamps(scannedFiles)), targetProvider.next, now, checkInterval)
    }

    constructor Make(scannedFiles: seq<File>, targetProvider: TargetProvider<C>, checkInterval: nat,
                     initial: ConfigWithTimestamps<C>)
      ensures this.scannedFiles == scannedFiles && this.targetProvider == targetProvider
      ensures this.checkInterval == checkInterval && configWithTimestamps == initial
      ensures fresh(listeners) && listeners.listeners == {} && listeners.sent == []
    {
      this.scannedFiles := scannedFiles;
      this.targetProvider := targetProvider;
      this.checkInterval := checkInterval;
      listeners := new ListenerRegistry();
      configWithTimestamps := initial;
    }

    /**
     * The public constructor: the target's configuration is fetched first,
     * then `optionalLastModified().get()` fails when no file is watched;
     * `now` is `Instant.now()`.
     */
    static method New(scannedFiles: seq<File>, targetProvider: TargetProvider<C>, checkInterval: nat, now: int)
      returns (r: Attempt<ConfigObservable<C>>)
      modifies targetProvider
      ensures targetProvider.calls == old(targetProvider.calls) + 1
      ensures targetProvider.next == old(targetProvider.next)
      ensures r.Done? <==> targetProvider.next.Done? && scannedFiles != []
      ensures r.Done? ==> fresh(r.value) && fresh(r.value.listeners)
      ensures r.Done? ==> r.value.scannedFiles == scannedFiles && r.value.targetProvider == targetProvider
      ensures r.Done? ==> r.value.checkInterval == checkInterval && r.value.listeners.sent == [] && r.value.listeners.listeners == {}
      ensures r.Done? ==> r.value.configWithTimestamps
                          == ConfigWithTimestamps(targetProvider.next.value, MaxLastModified(Stamps(scannedFiles)).value, now)
    {
      var config := targetProvider.GetConfig();
      var probe := MaxLastModified(Stamps(scannedFiles));
      if config.Threw? || probe.None? {
        return Threw;
      }
      var o := new ConfigObservable.Make(scannedFiles, targetProvider, checkInterval,
                                        ConfigWithTimestamps(config.value, probe.value, now));
      r := Done(o);
    }

    /** `getConfig()`: the configuration of the current record. */
    method GetConfig() returns (config: C)
      ensures config == configWithTimestamps.config
    {
      config := configWithTimestamps.config;
    }

    /**
     * `invalidateCache(lastModified, lastCheck)`: fetch, notify the listeners
     * once with the new configuration, and only then build the new record.
     */
    method InvalidateCache(lastModified: int, lastCheck: int) returns (r: Attempt<ConfigWithTimestamps<C>>)
      modifies targetProvider, listeners
      ensures targetProvider.calls == old(targetProvider.calls) + 1
      ensures targetProvider.next == old(targetProvider.next)
      ensures r.Threw? <==> targetProvider.next.Threw?
      ensures r.Done? ==> r.value == ConfigWithTimestamps(targetProvider.next.value, lastModified, lastCheck)
      ensures listeners.sent == old(listeners.sent) + (if r.Done? then [r.value.config] else [])
      ensures listeners.listeners == old(listeners.listeners)
      // Listeners are told while `getConfig()` still gives the previous configuration.
      ensures configWithTimestamps == old(configWithTimestamps)
    {
      var config := targetProvider.GetConfig();
      match config
      case Done(c) =>
        listeners.NotifyListeners(c);
        r := Done(ConfigWithTimestamps(c, lastModified, lastCheck));
      case Threw =>
        r := Threw;
    }

    /**
     * `notifyChanged(now)`: the tick. The new record is the refresh rule
     * applied to the old one, and the listeners receive the new
     * configuration exactly when it was reloaded.
     */
    method NotifyChanged(now: int) returns (threw: bool)
      modifies this, targetProvider, listeners
      ensures configWithTimestamps == old(Next(now)).next
      ensures threw == old(Next(now)).threw
      ensures targetProvider.calls == old(targetProvider.calls) + (if old(Next(now)).fetched then 1 else 0)
      ensures targetProvider.next == old(targetProvider.next)
      ensures listeners.sent == old(listeners.sent)
                                + (if old(Next(now)).fetched && !threw then [configWithTimestamps.config] else [])
      ensures listeners.listeners == old(listeners.listeners)
    {
      threw := false;
      var current := configWithTimestamps;
      if CheckDue(now, current.lastCheck, checkInterval) {
        var probe := MaxLastModified(Stamps(scannedFiles));
        if probe.Some? && probe.value > current.lastModified {
          var r := InvalidateCache(probe.value, now);
          match r
          case Done(next) => configWithTimestamps := next;
          case Threw => threw := true;
        } else {
          configWithTimestamps := current.WithLastCheck(now);
        }
      }
    }
  }
}
