# tsc-reload, modelled in Dafny

tsc-reload keeps configuration values that are read from files current while
a program runs. A periodic tick hands the current instant to staleness
trackers. A tracker probes the latest modification instant of its watched
files. When that instant has moved past the one it stored, the tracker
reloads and passes the new value down a tree of derived values. The tree is
built from nodes made by `map` and composers with two to five parents.

This project models the sequential logic of that library:

- the staleness trackers: `CachedConfigProvider`, `ConfigObservable`,
  `ReloadableConfig` and `TimeTriggeredReloadable`, plus the immutable
  `ConfigWithTimestamps` record they step through;
- the tick loop `ConfigsReloader`: `add` and `run`;
- the observer fan-out `Observable`;
- the value nodes `AbstractReloadableNode` and `ReloadableNode`, and the
  composers `Reloadable1`–`Reloadable5`, `ReloadableNode2` and
  `ReloadableNode5`;
- the early `Reloadable` functor.

Conventions:

- Instants are `int` epoch milliseconds and durations are `nat` milliseconds.
- A watched file is a `Freshness.File`. Its mutable `lastModified` field
  stands for what the file system reports.
- The configuration supplier behind a cache is a `ConfigProvider.TargetProvider`.
  Its `next` field holds what it would answer, and `calls` counts how often
  it was asked.
- Java exceptions raised by user code become `Types.Attempt<T>`
  (`Done(value)` or `Threw`). A method that can let an exception escape
  returns `threw: bool`.
- The current instant (`Instant.now()`) is a parameter.
- Java constructors that can fail become a static `New` that returns an
  `Attempt`, next to a plain constructor `Make`.
- Subclassing is modelled by composition. A subclass holds its base
  `node`, or its `listeners` registry, as a `const` field.

The files come from two revisions of the library, and the base classes of
both revisions are not part of this model. Each base is stated only by what
the files shown here rely on:

- the newer `Reloadable` (`updateCurrentValue` with a recompute function and
  a `propagateOnlyIfChanged` policy) is `ReloadableCore`;
- the older listener registry (`addWeakListener`, `notifyListeners`) is
  `ListenerBase`.

In each, a log field (`propagated` or `sent`) records, in order, every value
handed on.

Every refresh rule is a pure function: `ConfigWithTimestamps.Refresh` for the
two caches and `ReloadableConfig.NotifyStep` for `ReloadableConfig`. Each
class method is proved to move its object's state exactly as that function
says. The function's own contract states the gate, the reload condition and
the monotonicity of `lastModified`.

## Model

| member | source | states |
|---|---|---|
| `Types.ValueOf` | src/main/java/pl/touk/tscreload/impl/Reloadable1.java:29-31 | `getValue()` of a transformation result: it throws exactly when the transform threw, and otherwise gives the result's value |
| `Freshness.Stamps` | src/main/java/pl/touk/tscreload/impl/ConfigObservable.java:62-63 | one timestamp per scanned file, in list order, each equal to that file's `lastModified` |
| `Freshness.MaxLastModified` | src/main/java/pl/touk/tscreload/impl/CachedConfigProvider.java:50-55 | the probe is empty exactly when there are no files; otherwise it is one of the timestamps and no timestamp exceeds it |
| `Freshness.CheckDueShutAfterCheck` | src/main/java/pl/touk/tscreload/impl/CachedConfigProvider.java:39 | the strict gate `now > lastCheck + checkInterval` is shut once `lastCheck` is `now` |
| `Freshness.MaxOfTwoFiles` | src/main/java/pl/touk/tscreload/impl/ReloadableConfig.java:69-73 | with two files modified at `t1 < t2`, the probe is `t2` |
| `Freshness.MaxLastModifiedOrderFree` | src/main/java/pl/touk/tscreload/impl/CachedConfigProvider.java:51-54 | the probe does not depend on the order of the files: equal multisets of timestamps give the same probe |
| `ConfigWithTimestamps.ConfigWithTimestamps.WithLastCheck` | src/main/java/pl/touk/tscreload/impl/ConfigWithTimestamps.java:21-23 | a copy that keeps `config` and `lastModified` and has the new `lastCheck`; the receiver is a value and does not change |
| `ConfigWithTimestamps.GettersReturnArguments` | src/main/java/pl/touk/tscreload/impl/ConfigWithTimestamps.java:15-35 | the three getters return exactly the constructor's arguments |
| `ConfigWithTimestamps.WithLastCheckTwice` | src/main/java/pl/touk/tscreload/impl/ConfigWithTimestamps.java:21-23 | `withLastCheck(a).withLastCheck(b)` equals `withLastCheck(b)` |
| `ConfigWithTimestamps.Refresh` | src/main/java/pl/touk/tscreload/impl/CachedConfigProvider.java:37-48 | the staleness rule. A shut gate changes nothing and fetches nothing. The target is asked exactly when the gate passes and the probe is strictly later than the stored `lastModified`. A fetch that returns stores (new config, probe, now). A fetch that throws leaves the record as it was, and the exception escapes. Without a fetch, only `lastCheck` moves, to `now`. `lastModified` never decreases |
| `ConfigWithTimestamps.RefreshIdempotent` | src/main/java/pl/touk/tscreload/impl/CachedConfigProvider.java:39-46 | a second check at the same instant, with the same files and target, ends in the same record and throws exactly when the first one threw |
| `ConfigWithTimestamps.RefreshWithoutFiles` | src/main/java/pl/touk/tscreload/impl/ConfigObservable.java:54-57 | with no files, the empty probe counts as "no change": a due tick only moves `lastCheck` and fetches nothing |
| `ConfigProvider.TargetProvider.GetConfig` | src/main/java/pl/touk/tscreload/impl/CachedConfigProvider.java:58 | the supplier gives its current answer, or throws; each call is counted |
| `CachedConfigProvider.CachedConfigProvider.OptionalLastModified` | src/main/java/pl/touk/tscreload/impl/CachedConfigProvider.java:50-55 | empty exactly when no file is watched; otherwise the largest `lastModified` among the files |
| `CachedConfigProvider.CachedConfigProvider.New` | src/main/java/pl/touk/tscreload/impl/CachedConfigProvider.java:25-30 | asks the target once. It fails when the target throws or no file is watched. Otherwise it stores (target's config, maximum file instant, now) |
| `CachedConfigProvider.CachedConfigProvider.GetConfig` | src/main/java/pl/touk/tscreload/impl/CachedConfigProvider.java:33-35 | returns the cached config and does not call the target |
| `CachedConfigProvider.CachedConfigProvider.InvalidateCache` | src/main/java/pl/touk/tscreload/impl/CachedConfigProvider.java:57-60 | calls the target once. It throws when the target throws, and otherwise builds (new config, given lastModified, given lastCheck) |
| `CachedConfigProvider.CachedConfigProvider.InvalidateCacheIfNeed` | src/main/java/pl/touk/tscreload/impl/CachedConfigProvider.java:37-48 | the new record and the escaping exception are what `Refresh` gives from the old state; the target is called once exactly when `Refresh` fetches, and not otherwise |
| `ConfigObservable.ConfigObservable.New` | src/main/java/pl/touk/tscreload/impl/ConfigObservable.java:38-43 | fetches once. It fails when the target throws or no file is watched. Otherwise it holds (config, maximum file instant, now) and has no listeners yet |
| `ConfigObservable.ConfigObservable.GetConfig` | src/main/java/pl/touk/tscreload/impl/ConfigObservable.java:46-48 | the config of the current record |
| `ConfigObservable.ConfigObservable.InvalidateCache` | src/main/java/pl/touk/tscreload/impl/ConfigObservable.java:68-73 | one fetch. On success the listeners receive the new config once, while the stored record is still the old one, and the result is (new config, lastModified, lastCheck). On a throw nothing is sent |
| `ConfigObservable.ConfigObservable.NotifyChanged` | src/main/java/pl/touk/tscreload/impl/ConfigObservable.java:51-59 | the new record follows `Refresh`. The target is called exactly when `Refresh` fetches. The listeners receive the reloaded config exactly when a fetch returned, and nothing otherwise; the listener set is unchanged |
| `ReloadableConfig.CheckInfo.WithLastModified` | src/main/java/pl/touk/tscreload/impl/ReloadableConfig.java:58 | replaces `lastModified` and keeps `lastCheck` |
| `ReloadableConfig.CheckInfo.WithLastCheck` | src/main/java/pl/touk/tscreload/impl/ReloadableConfig.java:64 | replaces `lastCheck` and keeps `lastModified` |
| `ReloadableConfig.CheckLastModified` | src/main/java/pl/touk/tscreload/impl/ReloadableConfig.java:69-75 | throws exactly when there are no files; otherwise gives the maximum timestamp |
| `ReloadableConfig.NotifyStep` | src/main/java/pl/touk/tscreload/impl/ReloadableConfig.java:49-67 | the tick rule. A shut gate changes nothing. An open gate always sets `lastCheck := now`, including when something throws. The value is recomputed exactly when the probe is strictly later than the stored instant. `lastModified` takes the probe only after a recompute that returned. It never decreases. A failing probe or recompute escapes |
| `ReloadableConfig.LastModifiedMonotone` | src/main/java/pl/touk/tscreload/impl/ReloadableConfig.java:49-67 | over any sequence of ticks, at any instants, with any probes and recomputes (each of which may throw), neither `lastModified` nor `lastCheck` ever falls below its starting value |
| `ReloadableConfig.ReloadableConfig.New` | src/main/java/pl/touk/tscreload/impl/ReloadableConfig.java:40-47 | the initial value is `transformConfig(empty)` and the policy is passed on. The check record is (probe at construction, now). Construction fails when the transform throws or there are no files |
| `ReloadableConfig.ReloadableConfig.NotifyChanged` | src/main/java/pl/touk/tscreload/impl/ReloadableConfig.java:49-67 | the check record and the escaping exception follow `NotifyStep`. When that step reloads, the value goes through `updateCurrentValue(transformConfig)`; otherwise the value and its propagation are untouched |
| `ReloadableCore.Reloadable.UpdateCurrentValue` | src/main/java/pl/touk/tscreload/impl/Reloadable2.java:44-48 | the recompute is given `Some(current)`. If it throws, nothing changes. Otherwise its value is committed, and it is propagated unless the policy allows suppression |
| `ReloadableCore.Reloadable.UpdateCurrentValueWithResult` | src/main/java/pl/touk/tscreload/impl/Reloadable1.java:37 | the same, for a recompute that returns a `TransformationResult`; the committed value is the result's value |
| `ListenerBase.ListenerRegistry.AddWeakListener` | src/main/java/pl/touk/tscreload/impl/AbstractReloadableNode.java:38 | adds the listener to the set and sends nothing |
| `ListenerBase.ListenerRegistry.NotifyListeners` | src/main/java/pl/touk/tscreload/impl/AbstractReloadableNode.java:32 | appends the value to what was sent and keeps the listener set |
| `TimeTriggeredReloadable.TickGate` | src/main/java/pl/touk/tscreload/TimeTriggeredReloadable.java:52-60 | the `lastCheck` a tick leaves behind never goes back |
| `TimeTriggeredReloadable.TickGateShut` | src/main/java/pl/touk/tscreload/TimeTriggeredReloadable.java:52-60 | a second tick at the same instant never fires, whether or not the first one did |
| `TimeTriggeredReloadable.FiringsAreSpaced` | src/main/java/pl/touk/tscreload/TimeTriggeredReloadable.java:52-60 | two consecutive firings are more than `checkInterval` apart |
| `TimeTriggeredReloadable.TimeTriggeredReloadable.constructor` | src/main/java/pl/touk/tscreload/TimeTriggeredReloadable.java:42-48 | the value is `currentValue`, `lastCheck` is `currentTickValue`, and nothing has been propagated |
| `TimeTriggeredReloadable.TimeTriggeredReloadable.UpdateCurrentValueWithTransformed` | src/main/java/pl/touk/tscreload/TimeTriggeredReloadable.java:68-70 | `updateCurrentValue` with `transform` applied to `now` and the previous value |
| `TimeTriggeredReloadable.TimeTriggeredReloadable.HandleTimeTrigger` | src/main/java/pl/touk/tscreload/TimeTriggeredReloadable.java:64-66 | the same effect as `updateCurrentValueWithTransformed(now)` |
| `TimeTriggeredReloadable.TimeTriggeredReloadable.NotifyChanged` | src/main/java/pl/touk/tscreload/TimeTriggeredReloadable.java:50-62 | a shut gate changes neither the value nor `lastCheck`. An open gate applies the transform to `now` once and sets `lastCheck := now` even when the transform threw. The exception escapes exactly when the transform threw |
| `TimeTriggeredReloadable.TimeTriggeredReloadable.PropagatingTicks` | src/main/java/pl/touk/tscreload/TimeTriggeredReloadable.java:72-75 | starts with value = `lastCheck` = `currentTickValue`; its transform always gives (tick, changed) |
| `ConfigsReloader.FootprintExact` | src/main/java/pl/touk/tscreload/impl/ConfigsReloader.java:21-33 | the objects a tick may change are exactly the listed providers and their targets, and the files it reads are exactly theirs: nothing unlisted, nothing missing |
| `ConfigsReloader.ConfigsReloader.constructor` | src/main/java/pl/touk/tscreload/impl/ConfigsReloader.java:14-19 | the registry starts empty, with an empty footprint |
| `ConfigsReloader.ConfigsReloader.Add` | src/main/java/pl/touk/tscreload/impl/ConfigsReloader.java:21-25 | appends the provider at the end and keeps every earlier entry in order; the footprint grows by exactly that provider, its target and its files |
| `ConfigsReloader.ConfigsReloader.Run` | src/main/java/pl/touk/tscreload/impl/ConfigsReloader.java:27-33 | every provider is checked in list order at the one instant `now`, until the first check that throws. All providers before it completed without throwing, and the tick ends with it. A checked provider holds what its own check gives from its state at the start of the tick; an unchecked one is untouched. The list and the targets' answers do not change |
| `ConfigsReloader.ConfigsReloader.FailureStopsTheTick` | src/main/java/pl/touk/tscreload/impl/ConfigsReloader.java:27-33 | the first of two distinct providers throws and the second has a due reload. The tick then ends at the first, and the second keeps its old record instead of the reloaded one |
| `ConfigsReloader.SingleProviderTick` | src/main/java/pl/touk/tscreload/impl/ConfigsReloader.java:21-33 | a client builds a reloader, adds one provider and ticks once. Only that provider and its target may change, and the provider ends in what its own check at `now` gives, throwing exactly when that check throws |
| `ConfigsReloader.ConfigsReloader.RunCatchingEach` | src/main/java/pl/touk/tscreload/impl/ConfigsReloader.java:27-33 | the tick with each provider's exception caught. Every provider ends in what its own check at `now` gives. `failed[k]` tells exactly whether the k-th check threw |
| `Observable.Observer.AddParent` | src/main/java/pl/touk/tscreload/impl/Observable.java:32 | the observer records one more parent |
| `Observable.Observable.constructor` | src/main/java/pl/touk/tscreload/impl/Observable.java:27 | no observers |
| `Observable.Observable.AddWeakObserver` | src/main/java/pl/touk/tscreload/impl/Observable.java:29-38 | the observer records this observable as a parent, and the set becomes old set ∪ {observer}: set semantics, nothing removed |
| `Observable.Observable.NotifyObservers` | src/main/java/pl/touk/tscreload/impl/Observable.java:40-53 | the registered observers are called one at a time with the value, in some order, each at most once. An observer's `Exception` is caught and the loop goes on. An `Error` is not caught: it ends the loop and escapes, so only the last call made can be one that threw an `Error`. Without an `Error` every observer is called. The set is unchanged |
| `AbstractReloadableNode.AbstractReloadableNode.constructor` | src/main/java/pl/touk/tscreload/impl/AbstractReloadableNode.java:26-28 | stores the given value, with no listeners |
| `AbstractReloadableNode.AbstractReloadableNode.UpdateCurrentValue` | src/main/java/pl/touk/tscreload/impl/AbstractReloadableNode.java:30-33 | commits the value and then sends that same value, unconditionally |
| `AbstractReloadableNode.AbstractReloadableNode.CurrentValue` | src/main/java/pl/touk/tscreload/impl/AbstractReloadableNode.java:42-45 | the last committed value |
| `AbstractReloadableNode.AbstractReloadableNode.Map` | src/main/java/pl/touk/tscreload/impl/AbstractReloadableNode.java:35-40 | a fresh child built from the current value and `f`, added to the listeners. Nothing is sent and the node's value is untouched |
| `ReloadableNode.ReloadableNode.New` | src/main/java/pl/touk/tscreload/impl/ReloadableNode.java:28-31 | the initial value is `transform(currentParentValue)`, with no listeners; construction fails exactly when the transform throws |
| `ReloadableNode.ReloadableNode.NotifyChanged` | src/main/java/pl/touk/tscreload/impl/ReloadableNode.java:33-38 | the value becomes `transform(p)`, whatever it was before, and that same value is sent. The exception escapes exactly when the transform throws, and then neither the value nor what was sent changes |
| `ReloadableNode.ReloadableNode.CurrentValue` | src/main/java/pl/touk/tscreload/impl/ReloadableNode.java:47-50 | the stored value |
| `ReloadableNode.ReloadableNode.Map` | src/main/java/pl/touk/tscreload/impl/ReloadableNode.java:40-45 | the child starts at `f(currentValue())` and is subscribed. When `f` throws, `map` fails and nothing is subscribed. Either way the parent's value is untouched and nothing is sent |
| `ReloadableNode.ChainPropagates` | src/main/java/pl/touk/tscreload/impl/ReloadableNode.java:33-45 | a parent is notified with `p` and hands its new value to a child made by `map(f)`. Then the child holds `f(transform(p))`. If either transform throws, the exception escapes, and the child keeps its value |
| `Reloadable1.Reloadable1.New` | src/main/java/pl/touk/tscreload/impl/Reloadable1.java:28-33 | the initial value is `transform(p, empty).getValue()`; it fails when that throws; the parent value is not kept |
| `Reloadable1.Reloadable1.NotifyChanged` | src/main/java/pl/touk/tscreload/impl/Reloadable1.java:35-38 | `updateCurrentValue` with the stored transform applied to `p` and the previous value |
| `Reloadable2.Reloadable2.New` | src/main/java/pl/touk/tscreload/impl/Reloadable2.java:31-39 | the initial value is `transform(p1, p2, empty)`. The snapshots are the arguments. The policy goes to the base unchanged |
| `Reloadable2.Reloadable2.Observer1` | src/main/java/pl/touk/tscreload/impl/Reloadable2.java:41-50 | recomputes `transform(v, snapshot2, prev)`. Slot 1 becomes `v` only if the transform returned; slot 2 is unchanged |
| `Reloadable2.Reloadable2.Observer2` | src/main/java/pl/touk/tscreload/impl/Reloadable2.java:52-61 | recomputes `transform(snapshot1, v, prev)`. Slot 2 becomes `v` only if the transform returned; slot 1 is unchanged |
| `Reloadable3.Reloadable3.New` | src/main/java/pl/touk/tscreload/impl/Reloadable3.java:35-48 | the initial value is `transform(p1, p2, p3, empty).getValue()`; the snapshots are the arguments |
| `Reloadable3.Reloadable3.Observer1` | src/main/java/pl/touk/tscreload/impl/Reloadable3.java:50-59 | recomputes with `v` in slot 1, the other snapshots and `prev`. Slot 1 is assigned only after the transform returns; the other slots are unchanged |
| `Reloadable3.Reloadable3.Observer2` | src/main/java/pl/touk/tscreload/impl/Reloadable3.java:61-70 | the same, for slot 2 |
| `Reloadable3.Reloadable3.Observer3` | src/main/java/pl/touk/tscreload/impl/Reloadable3.java:72-81 | the same, for slot 3 |
| `Reloadable4.Reloadable4.New` | src/main/java/pl/touk/tscreload/impl/Reloadable4.java:37-53 | the initial value is `transform(p1..p4, empty).getValue()`; the snapshots are the arguments |
| `Reloadable4.Reloadable4.Observer1` | src/main/java/pl/touk/tscreload/impl/Reloadable4.java:55-64 | recomputes with `v` in slot 1, the other three snapshots and `prev`. Slot 1 is assigned only after the transform returns; the others are unchanged |
| `Reloadable4.Reloadable4.Observer2` | src/main/java/pl/touk/tscreload/impl/Reloadable4.java:67-76 | the same, for slot 2 |
| `Reloadable4.Reloadable4.Observer3` | src/main/java/pl/touk/tscreload/impl/Reloadable4.java:78-87 | the same, for slot 3 |
| `Reloadable4.Reloadable4.Observer4` | src/main/java/pl/touk/tscreload/impl/Reloadable4.java:89-98 | the same, for slot 4 |
| `Reloadable5.Reloadable5.New` | src/main/java/pl/touk/tscreload/impl/Reloadable5.java:37-56 | the initial value is `transform(p1..p5, empty)`, a plain value; the snapshots are the arguments |
| `Reloadable5.Reloadable5.Observer1` | src/main/java/pl/touk/tscreload/impl/Reloadable5.java:58-67 | recomputes with `v` in slot 1, the other four snapshots and `prev`. Slot 1 is assigned only after the transform returns; the others are unchanged |
| `Reloadable5.Reloadable5.Observer2` | src/main/java/pl/touk/tscreload/impl/Reloadable5.java:70-79 | the same, for slot 2 |
| `Reloadable5.Reloadable5.Observer3` | src/main/java/pl/touk/tscreload/impl/Reloadable5.java:81-90 | the same, for slot 3 |
| `Reloadable5.Reloadable5.Observer4` | src/main/java/pl/touk/tscreload/impl/Reloadable5.java:92-101 | the same, for slot 4 |
| `Reloadable5.Reloadable5.Observer5` | src/main/java/pl/touk/tscreload/impl/Reloadable5.java:103-112 | the same, for slot 5 |
| `ReloadableNode2.ReloadableNode2.New` | src/main/java/pl/touk/tscreload/impl/ReloadableNode2.java:28-35 | the initial value is `transform(p1, p2)`; the snapshots are the arguments, so the node starts consistent |
| `ReloadableNode2.ReloadableNode2.Listener1` | src/main/java/pl/touk/tscreload/impl/ReloadableNode2.java:37-45 | slot 1 becomes `v` before the transform runs, even if it then throws. On return the value is `transform(snapshot1, snapshot2)` and it is sent. On a throw the value and the sent values are unchanged |
| `ReloadableNode2.ReloadableNode2.Listener2` | src/main/java/pl/touk/tscreload/impl/ReloadableNode2.java:47-55 | the same, for slot 2 |
| `ReloadableNode5.ReloadableNode5.New` | src/main/java/pl/touk/tscreload/impl/ReloadableNode5.java:34-52 | the initial value is `transform(p1..p5)`; the snapshots are the arguments, so the node starts consistent |
| `ReloadableNode5.ReloadableNode5.Observer1` | src/main/java/pl/touk/tscreload/impl/ReloadableNode5.java:54-67 | slot 1 becomes `v` first and the other slots are untouched. On return the value is the transform of the five snapshots, with no previous value, and it is sent. On a throw the value is unchanged |
| `ReloadableNode5.ReloadableNode5.Observer2` | src/main/java/pl/touk/tscreload/impl/ReloadableNode5.java:69-82 | the same, for slot 2 |
| `ReloadableNode5.ReloadableNode5.Observer3` | src/main/java/pl/touk/tscreload/impl/ReloadableNode5.java:84-97 | the same, for slot 3 |
| `ReloadableNode5.ReloadableNode5.Observer4` | src/main/java/pl/touk/tscreload/impl/ReloadableNode5.java:99-112 | the same, for slot 4 |
| `ReloadableNode5.ReloadableNode5.Observer5` | src/main/java/pl/touk/tscreload/impl/ReloadableNode5.java:114-127 | the same, for slot 5 |
| `Reloadable.Reloadable.Map` | src/main/java/pl/touk/tscreload/Reloadable.java:34-36 | the same provider. For each configuration the new transform gives `f` of the old one's result, and throws whenever the old one throws; the receiver is a value and is not changed |
| `Reloadable.Reloadable.CurrentValue` | src/main/java/pl/touk/tscreload/Reloadable.java:38-40 | the transform applied to the configuration the provider holds now, which may throw; it reads only the provider's cached record, so neither the target nor the files are consulted |
| `Reloadable.MapCurrentValue` | src/main/java/pl/touk/tscreload/Reloadable.java:34-40 | for the same configuration, `r.map(f).currentValue() == f(r.currentValue())`, and if `r`'s transform throws, so does the mapped one |
| `Reloadable.MapComposes` | src/main/java/pl/touk/tscreload/Reloadable.java:34-40 | `r.map(f).map(g)` has the same provider, transform and current value as `r.map(f.andThen(g))` |
| `Reloadable.MapIdentity` | src/main/java/pl/touk/tscreload/Reloadable.java:34-40 | `r.map(identity)` has the same current value as `r` |

## Left out

- Concurrency: the model takes every `synchronized` block and `volatile`
  field as one sequential step.
- The `ConfigsReloader` constructor's scheduled executor and its thread. In
  the Java code an exception that escapes `run` also stops all later
  scheduled runs; the model does not capture that.
- Weak references and garbage collection. The shown `Observable` and
  `ConfigsReloader` keep strong references, so there is nothing weak to
  model.
- `Instant.now()` is a parameter `now`. `File.lastModified()` is the
  `lastModified` field of `Freshness.File`; missing files and I/O errors
  are not modelled.
- Logging calls.
- `ConfigProviderImpl` and `ReloadableConfigFactory`, which do HOCON file
  parsing and static wiring, are not part of this model. A configuration
  supplier is a `ConfigProvider.TargetProvider` whose answer is a field.
- The code of the `Reloadable` base classes of both revisions,
  `TransformationResult`, `CheckInfo` and `ReloadableNode1` is not part of
  this model.
- `ReloadableCore.Reloadable.UpdateCurrentValue`: change suppression under
  `propagateOnlyIfChanged` is stated only as a permission, "propagated, or
  not propagated when the policy is on", because the base's code is not
  part of this model. The same holds for every member whose contract uses
  `Applied`.
- `ReloadableCore.Reloadable.constructor`: the policy that the one-argument
  base constructor picks is not part of this model. The model fixes it to
  "always propagate", and no contract relies on that choice.
- `Observable.Observable.NotifyObservers`: the notification order is any
  order over the set, because the set's iteration order is unspecified.
  What an observer does when notified is left out; only how its call ends
  (it returns, throws an `Exception` or throws an `Error`) is modelled,
  through the `outcome` oracle.
- Re-entrant effects are not modelled: that is, an observer or listener
  that calls back into the notifying node. Listeners and observers are
  identities in a set.
- `ConfigsReloader.ConfigsReloader.Run`: the contract does not state how
  often each target is called during the tick. It states only the records
  and the escaping exception.
- `Reloadable.Reloadable.Map`: the early `Reloadable` is tied to
  `CachedConfigProvider` as its configuration provider. The other providers
  of that revision are not part of this model.
- The library's design describes a ticker that catches each leaf's failure
  and registers leaves weakly. The code of `ConfigsReloader.run` catches
  nothing and keeps a plain list, and the model follows the code (see
  Findings).

## Findings

| source | as written | input that shows it | evidently intended | confidence | as-written member | corrected member |
|---|---|---|---|---|---|---|
| src/main/java/pl/touk/tscreload/impl/ConfigsReloader.java:27-33 | `run` calls `invalidateCacheIfNeed(now)` on each provider in turn with no `try`, so the first provider whose target throws ends the tick for every provider after it | two distinct providers, both with their check due and their files advanced; the first one's target throws | each provider's failure is caught at the call, so the other providers in the same tick are still checked and reloaded | not executed | `ConfigsReloader.ConfigsReloader.FailureStopsTheTick` | `ConfigsReloader.ConfigsReloader.RunCatchingEach` |
