/**
 * The tick loop: an append-only list of cached providers, each checked on
 * every tick with the same instant.
 */
module ConfigsReloader {
  import opened Types
  import opened Freshness
  import opened ConfigWithTimestamps
  import opened ConfigProvider
  import opened CachedConfigProvider

  /** The position of the first occurrence of `p` in `ps`. */
  ghost function FirstIndex<T>(ps: seq<T>, p: T): (r: nat)
    requires p in ps
    ensures r < |ps| && ps[r] == p
  {
    if ps[0] == p then 0 else 1 + FirstIndex(ps[1..], p)
  }

  /** No earlier position holds `p`. */
  lemma {:induction false} FirstIndexIsFirst<T>(ps: seq<T>, p: T, j: nat)
    requires p in ps && j < FirstIndex(ps, p)
    ensures ps[j] != p
  {
    if j > 0 {
      FirstIndexIsFirst(ps[1..], p, j - 1);
    }
  }

  /** A prefix one longer is the prefix followed by the next element. */
  lemma PrefixStep<T>(s: seq<T>, i: nat)
    requires i < |s|
    ensures s[..i + 1] == s[..i] + [s[i]]
  {
  }

  /** An entry's first occurrence is no later than the entry itself. */
  lemma {:induction false} FirstIndexAtMost<T>(ps: seq<T>, k: nat)
    requires k < |ps|
    ensures FirstIndex(ps, ps[k]) <= k
  {
    if ps[0] != ps[k] {
      assert ps[1..][k - 1] == ps[k];
      FirstIndexAtMost(ps[1..], k - 1);
    }
  }

  /** An entry occurs in a prefix exactly when its first occurrence does. */
  lemma InPrefix<T>(ps: seq<T>, k: nat, m: nat)
    requires k < |ps| && m <= |ps|
    ensures ps[k] in ps[..m] <==> FirstIndex(ps, ps[k]) < m
  {
    var r := FirstIndex(ps, ps[k]);
    if ps[k] in ps[..m] {
      var j :| 0 <= j < m && ps[..m][j] == ps[k];
      if j < r {
        FirstIndexIsFirst(ps, ps[k], j);
      }
    }
  }

  /** Whether each planned check throws. */
  ghost function ThrewFlags<C>(rs: seq<Refreshed<C>>): (b: seq<bool>)
    ensures |b| == |rs|
    ensures forall k :: 0 <= k < |rs| ==> b[k] == rs[k].threw
  {
    seq(|rs|, k requires 0 <= k < |rs| => rs[k].threw)
  }

  /** No flag up in the first `m` means no entry among the first `m` threw. */
  lemma NoneThrew<C>(rs: seq<Refreshed<C>>, m: nat)
    requires m <= |rs| && true !in ThrewFlags(rs)[..m]
    ensures forall k :: 0 <= k < m ==> !rs[k].threw
  {
    var b := ThrewFlags(rs);
    forall k | 0 <= k < m
      ensures !rs[k].threw
    {
      assert b[..m][k] == b[k];
    }
  }

  /** The providers listed in `ps`. */
  ghost function ProvidersOf<C>(ps: seq<CachedConfigProvider<C>>): set<CachedConfigProvider<C>>
  {
    if ps == [] then {} else ProvidersOf(ps[..|ps| - 1]) + {ps[|ps| - 1]}
  }

  /** The targets of the providers listed in `ps`. */
  ghost function TargetsOf<C>(ps: seq<CachedConfigProvider<C>>): set<TargetProvider<C>>
  {
    if ps == [] then {} else TargetsOf(ps[..|ps| - 1]) + {ps[|ps| - 1].targetProvider}
  }

  /** The files watched by the providers listed in `ps`. */
  ghost function FilesOf<C>(ps: seq<CachedConfigProvider<C>>): set<File>
  {
    if ps == [] then {}
    else
      var files := ps[|ps| - 1].scannedFiles;
      FilesOf(ps[..|ps| - 1]) + set f | f in files
  }

  /** The footprint sets hold exactly what the list names: nothing unlisted, nothing missing. */
  lemma {:induction false} FootprintExact<C>(ps: seq<CachedConfigProvider<C>>)
    ensures forall p :: p in ProvidersOf(ps) <==> p in ps
    ensures forall t :: t in TargetsOf(ps) ==> exists k :: 0 <= k < |ps| && ps[k].targetProvider == t
    ensures forall k :: 0 <= k < |ps| ==> ps[k].targetProvider in TargetsOf(ps)
    ensures forall f :: f in FilesOf(ps) ==> exists k :: 0 <= k < |ps| && f in ps[k].scannedFiles
    ensures forall k, f :: 0 <= k < |ps| && f in ps[k].scannedFiles ==> f in FilesOf(ps)
    decreases |ps|
  {
    if ps != [] {
      var init := ps[..|ps| - 1];
      FootprintExact(init);
      assert ps == init + [ps[|ps| - 1]];
      forall t | t in TargetsOf(ps)
        ensures exists k :: 0 <= k < |ps| && ps[k].targetProvider == t
      {
        if t != ps[|ps| - 1].targetProvider {
          var k :| 0 <= k < |init| && init[k].targetProvider == t;
          assert ps[k] == init[k];
        }
      }
      forall k | 0 <= k < |init|
        ensures ps[k].targetProvider in TargetsOf(ps)
      {
        assert init[k] == ps[k];
      }
      forall f | f in FilesOf(ps)
        ensures exists k :: 0 <= k < |ps| && f in ps[k].scannedFiles
      {
        if f !in ps[|ps| - 1].scannedFiles {
          assert f in FilesOf(init);
          var k :| 0 <= k < |init| && f in init[k].scannedFiles;
          assert ps[k] == init[k];
        }
      }
      forall k, f | 0 <= k < |init| && f in ps[k].scannedFiles
        ensures f in FilesOf(ps)
      {
        assert init[k] == ps[k];
      }
    }
  }

  class ConfigsReloader<C> {
    var configProviders: seq<CachedConfigProvider<C>>
    /** The objects a tick may change: exactly the listed providers and their targets. */
    ghost var Providers: set<CachedConfigProvider<C>>
    ghost var Targets: set<TargetProvider<C>>
    /** Exactly the files the listed providers watch. */
    ghost var Files: set<File>

    /** The footprint sets are exactly those of the listed providers. */
    ghost predicate Valid()
      reads this
    {
      && Providers == ProvidersOf(configProviders)
      && Targets == TargetsOf(configProviders)
      && Files == FilesOf(configProviders)
    }

    /** What a tick's frames rely on: every listed provider, target and file is in the footprint. */
    ghost predicate Covers()
      reads this
    {
      forall k :: 0 <= k < |configProviders| ==>
        && configProviders[k] in Providers && configProviders[k].targetProvider in Targets
        && (forall f :: f in configProviders[k].scannedFiles ==> f in Files)
    }

    /** The exact footprint covers every listed provider, target and file. */
    lemma ValidCovers()
      requires Valid()
      ensures Covers()
    {
      FootprintExact(configProviders);
    }

    /** The tick thread the Java constructor starts is not part of this model. */
    constructor ()
      ensures Valid() && configProviders == []
      ensures Providers == {} && Targets == {} && Files == {}
    {
      configProviders := [];
      Providers, Targets, Files := {}, {}, {};
    }

    /** `add(provider)`: append at the end, keeping every earlier entry in order. */
    method Add(configProvider: CachedConfigProvider<C>)
      requires Valid()
      modifies this
      ensures Valid() && configProviders == old(configProviders) + [configProvider]
      ensures Providers == old(Providers) + {configProvider}
      ensures Targets == old(Targets) + {configProvider.targetProvider}
      ensures Files == old(Files) + set f | f in configProvider.scannedFiles
    {
      configProviders := configProviders + [configProvider];
      assert configProviders[..|configProviders| - 1] == old(configProviders);
      Providers, Targets := Providers + {configProvider}, Targets + {configProvider.targetProvider};
      Files := Files + set f | f in configProvider.scannedFiles;
    }

    /**
     * `run()` with `Instant.now()` passed as `now`: every provider, in list
     * order, gets `invalidateCacheIfNeed(now)`. Nothing catches an exception,
     * so the first provider whose target throws ends the tick: `completed` is
     * the number of providers checked before it. A provider that is listed
     * twice is checked twice, which is the same as once.
     */
    method Run(now: int) returns (threw: bool, completed: nat)
      requires Valid()
      modifies Providers, Targets
      ensures configProviders == old(configProviders)
      ensures completed <= |configProviders|
      ensures threw <==> completed < |configProviders|
      ensures forall k :: 0 <= k < completed ==> !old(configProviders[k].Next(now)).threw
      ensures threw ==> old(configProviders[completed].Next(now)).threw
      ensures var checked := if threw then configProviders[..completed + 1] else configProviders;
              forall k :: 0 <= k < |configProviders| ==>
                configProviders[k].configWithTimestamps
                == if configProviders[k] in checked then old(configProviders[k].Next(now)).next
                   else old(configProviders[k].configWithTimestamps)
      ensures forall k :: 0 <= k < |configProviders| ==>
                configProviders[k].targetProvider.next == old(configProviders[k].targetProvider.next)
    {
      ValidCovers();
      ghost var start, probes, fetches := StartStates(), Probes(), Fetches();
      ghost var want := Plan(start, probes, fetches, now);
      ghost var first := FirstIndices(configProviders);
      SharedPlans(now, start, probes, fetches, want, first);
      threw, completed := CheckUntilThrow(now, start, probes, fetches, want, first);
      CheckedPrefix(if threw then completed + 1 else |configProviders|, first);
      assert configProviders[..|configProviders|] == configProviders;
    }

    /**
     * As written, one throwing provider ends the tick for all that follow:
     * with two distinct providers whose checks are both due and whose files
     * both advanced, a target that throws for the first leaves the second
     * without the reload its own check would have made.
     */
    method FailureStopsTheTick(now: int) returns (threw: bool, completed: nat)
      requires |configProviders| == 2 && configProviders[0] != configProviders[1]
      requires configProviders[0].Next(now).threw
      requires configProviders[1].Next(now).fetched && !configProviders[1].Next(now).threw
      requires Valid()
      modifies Providers, Targets
      ensures threw && completed == 0
      ensures configProviders[1].configWithTimestamps == old(configProviders[1].configWithTimestamps)
      ensures configProviders[1].configWithTimestamps != old(configProviders[1].Next(now)).next
    {
      threw, completed := Run(now);
      assert configProviders[..1] == [configProviders[0]];
    }

    /**
     * The tick as evidently intended: each provider's exception is caught at
     * the call, so every provider is checked. `failed[k]` says whether the
     * check of the k-th entry threw.
     */
    method RunCatchingEach(now: int) returns (failed: seq<bool>)
      requires Valid()
      modifies Providers, Targets
      ensures |failed| == |configProviders|
      ensures forall k :: 0 <= k < |configProviders| ==>
                configProviders[k].configWithTimestamps == old(configProviders[k].Next(now)).next
      ensures forall k :: 0 <= k < |configProviders| ==> failed[k] == old(configProviders[k].Next(now)).threw
      ensures forall k :: 0 <= k < |configProviders| ==>
                configProviders[k].targetProvider.next == old(configProviders[k].targetProvider.next)
    {
      ValidCovers();
      ghost var start, probes, fetches := StartStates(), Probes(), Fetches();
      ghost var want := Plan(start, probes, fetches, now);
      ghost var first := FirstIndices(configProviders);
      SharedPlans(now, start, probes, fetches, want, first);
      failed := CheckAll(now, start, probes, fetches, want, first);
    }

    /** The loop of `Run`, stated against the plan taken when the tick began. */
    method CheckUntilThrow(now: int, ghost start: seq<ConfigWithTimestamps<C>>, ghost probes: seq<Option<int>>,
                           ghost fetches: seq<Attempt<C>>, ghost want: seq<Refreshed<C>>, ghost first: seq<nat>)
      returns (threw: bool, completed: nat)
      requires Covers() && Planned(now, start, probes, fetches, want, first)
      requires forall k :: 0 <= k < |configProviders| ==> configProviders[k].configWithTimestamps == start[k]
      modifies Providers, Targets
      ensures Tracking(fetches)
      ensures completed <= |configProviders| && (threw <==> completed < |configProviders|)
      ensures forall k :: 0 <= k < completed ==> !want[k].threw
      ensures threw ==> want[completed].threw
      ensures forall k :: 0 <= k < |configProviders| ==>
                configProviders[k].configWithTimestamps
                == if first[k] < (if threw then completed + 1 else |configProviders|) then want[k].next else start[k]
    {
      var n := |configProviders|;
      ghost var flags := ThrewFlags(want);
      ghost var passed := [];
      var i := 0;
      threw := false;
      while i < n
        invariant 0 <= i <= n && passed == flags[..i] && true !in passed
        invariant Planned(now, start, probes, fetches, want, first)
        invariant forall k :: 0 <= k < n ==>
                    configProviders[k].configWithTimestamps == if first[k] < i then want[k].next else start[k]
      {
        EntryFollowsPlan(i, now, start, probes, fetches, want, first);
        var t := CheckEntry(i, now, start, fetches, want, first);
        if t {
          threw, completed := true, i;
          NoneThrew(want, i);
          return;
        }
        PrefixStep(flags, i);
        passed := passed + [t];
        i := i + 1;
      }
      threw, completed := false, n;
      NoneThrew(want, n);
    }

    /** The loop of `RunCatchingEach`, stated against the plan taken when the tick began. */
    method CheckAll(now: int, ghost start: seq<ConfigWithTimestamps<C>>, ghost probes: seq<Option<int>>,
                    ghost fetches: seq<Attempt<C>>, ghost want: seq<Refreshed<C>>, ghost first: seq<nat>)
      returns (failed: seq<bool>)
      requires Covers() && Planned(now, start, probes, fetches, want, first)
      requires forall k :: 0 <= k < |configProviders| ==> configProviders[k].configWithTimestamps == start[k]
      modifies Providers, Targets
      ensures Tracking(fetches)
      ensures |failed| == |configProviders|
      ensures forall k :: 0 <= k < |configProviders| ==> failed[k] == want[k].threw
      ensures forall k :: 0 <= k < |configProviders| ==> configProviders[k].configWithTimestamps == want[k].next
    {
      var n := |configProviders|;
      ghost var flags := ThrewFlags(want);
      failed := [];
      var i := 0;
      while i < n
        invariant 0 <= i <= n && failed == flags[..i]
        invariant Planned(now, start, probes, fetches, want, first)
        invariant forall k :: 0 <= k < n ==>
                    configProviders[k].configWithTimestamps == if first[k] < i then want[k].next else start[k]
      {
        EntryFollowsPlan(i, now, start, probes, fetches, want, first);
        var t := CheckEntry(i, now, start, fetches, want, first);
        PrefixStep(flags, i);
        failed := failed + [t];
        i := i + 1;
      }
      assert flags[..n] == flags;
    }

    /**
     * What a tick's loop relies on: `want` is what checking each entry from
     * `start` does with the files' current instants and the targets' current
     * answers, and repeated entries share their first occurrence's plan.
     */
    ghost predicate Planned(now: int, start: seq<ConfigWithTimestamps<C>>, probes: seq<Option<int>>,
                            fetches: seq<Attempt<C>>, want: seq<Refreshed<C>>, first: seq<nat>)
      requires Covers()
      reads this, Files, Targets
    {
      && |start| == |configProviders|
      && probes == Probes() && Tracking(fetches)
      && want == Plan(start, probes, fetches, now) && first == FirstIndices(configProviders)
      && (forall k :: 0 <= k < |configProviders| ==> start[k] == start[first[k]] && want[k] == want[first[k]])
    }

    /** Entries listed twice start from the same state and so share their plan. */
    lemma SharedPlans(now: int, start: seq<ConfigWithTimestamps<C>>, probes: seq<Option<int>>,
                      fetches: seq<Attempt<C>>, want: seq<Refreshed<C>>, first: seq<nat>)
      requires Covers() && start == StartStates() && probes == Probes() && fetches == Fetches()
      requires want == Plan(start, probes, fetches, now) && first == FirstIndices(configProviders)
      ensures forall k :: 0 <= k < |configProviders| ==> start[k] == start[first[k]] && want[k] == want[first[k]]
    {
    }

    /** For every entry, the position of its first occurrence in the list. */
    ghost function FirstIndices(ps: seq<CachedConfigProvider<C>>): (first: seq<nat>)
      ensures |first| == |ps|
      ensures forall k :: 0 <= k < |ps| ==> first[k] == FirstIndex(ps, ps[k])
    {
      seq(|ps|, k requires 0 <= k < |ps| => FirstIndex(ps, ps[k]))
    }

    /** The entries of the first `m` are those whose first occurrence is before `m`. */
    lemma CheckedPrefix(m: nat, first: seq<nat>)
      requires m <= |configProviders| && first == FirstIndices(configProviders)
      ensures forall k :: 0 <= k < |configProviders| ==>
                (configProviders[k] in configProviders[..m] <==> first[k] < m)
    {
      forall k | 0 <= k < |configProviders|
        ensures configProviders[k] in configProviders[..m] <==> first[k] < m
      {
        InPrefix(configProviders, k, m);
      }
    }

    /** The state of every entry, in list order. */
    ghost function StartStates(): (s: seq<ConfigWithTimestamps<C>>)
      requires Covers()
      reads this, Providers
      ensures |s| == |configProviders|
      ensures forall k :: 0 <= k < |s| ==> s[k] == configProviders[k].configWithTimestamps
    {
      var ps := configProviders;
      var r := Providers;
      seq(|ps|, k requires 0 <= k < |ps| && ps[k] in r reads r => ps[k].configWithTimestamps)
    }

    /** The latest modification instant of every entry's files, in list order. */
    ghost function Probes(): (s: seq<Option<int>>)
      requires Covers()
      reads this, Files
      ensures |s| == |configProviders|
      ensures forall k :: 0 <= k < |s| ==> s[k] == configProviders[k].OptionalLastModified()
    {
      var ps, w := configProviders, Files;
      seq(|ps|, k requires 0 <= k < |ps| && (forall f :: f in ps[k].scannedFiles ==> f in w) reads w =>
        ps[k].OptionalLastModified())
    }

    /** What every entry's target would answer, in list order. */
    ghost function Fetches(): (s: seq<Attempt<C>>)
      requires Covers()
      reads this, Targets
      ensures |s| == |configProviders|
      ensures forall k :: 0 <= k < |s| ==> s[k] == configProviders[k].targetProvider.next
    {
      var ps, r := configProviders, Targets;
      seq(|ps|, k requires 0 <= k < |ps| && ps[k].targetProvider in r reads r => ps[k].targetProvider.next)
    }

    /** What checking every entry at `now` does, from the given states, probes and answers. */
    ghost function Plan(start: seq<ConfigWithTimestamps<C>>, probes: seq<Option<int>>, fetches: seq<Attempt<C>>,
                        now: int): (want: seq<Refreshed<C>>)
      requires |start| == |probes| == |fetches| == |configProviders|
      reads this
      ensures |want| == |configProviders|
      ensures forall k :: 0 <= k < |want| ==>
                want[k] == Refresh(start[k], probes[k], fetches[k], now, configProviders[k].checkInterval)
    {
      var ps := configProviders;
      seq(|ps|, k requires 0 <= k < |ps| => Refresh(start[k], probes[k], fetches[k], now, ps[k].checkInterval))
    }

    /** The targets still answer as they did when `fetches` was taken. */
    ghost predicate Tracking(fetches: seq<Attempt<C>>)
      requires Covers()
      reads this, Targets
    {
      && |fetches| == |configProviders|
      && (forall k :: 0 <= k < |configProviders| ==> configProviders[k].targetProvider.next == fetches[k])
    }

    /**
     * One entry of the tick: entry `i`, first seen or seen again, ends up in
     * its planned state, and its check throws exactly when planned.
     */
    method CheckEntry(i: nat, now: int, ghost start: seq<ConfigWithTimestamps<C>>, ghost fetches: seq<Attempt<C>>,
                      ghost want: seq<Refreshed<C>>, ghost first: seq<nat>)
      returns (threw: bool)
      requires Covers() && i < |configProviders| && |start| == |want| == |configProviders|
      requires Tracking(fetches) && first == FirstIndices(configProviders)
      requires forall k :: 0 <= k < |configProviders| ==> start[k] == start[first[k]] && want[k] == want[first[k]]
      requires forall k :: 0 <= k < |configProviders| ==>
                 configProviders[k].configWithTimestamps == if first[k] < i then want[k].next else start[k]
      requires configProviders[i].Next(now).next == want[i].next
      requires configProviders[i].Next(now).threw == want[i].threw
      modifies configProviders[i], configProviders[i].targetProvider
      ensures Tracking(fetches) && Probes() == old(Probes())
      ensures threw == want[i].threw
      ensures forall k :: 0 <= k < |configProviders| ==>
                configProviders[k].configWithTimestamps == if first[k] < i + 1 then want[k].next else start[k]
    {
      var p := configProviders[i];
      FirstIndexAtMost(configProviders, i);
      threw := p.InvalidateCacheIfNeed(now);
      forall k | 0 <= k < |configProviders|
        ensures configProviders[k].configWithTimestamps == if first[k] < i + 1 then want[k].next else start[k]
      {
        if configProviders[k] == p {
          assert first[k] == first[i];
        } else {
          assert configProviders[first[k]] == configProviders[k];
        }
      }
    }

    /**
     * Checking entry `i` now lands on its planned state: a first occurrence
     * still holds its starting state, and a repeated one holds the state its
     * first occurrence was checked into at the same instant.
     */
    lemma EntryFollowsPlan(i: nat, now: int, start: seq<ConfigWithTimestamps<C>>, probes: seq<Option<int>>,
                           fetches: seq<Attempt<C>>, want: seq<Refreshed<C>>, first: seq<nat>)
      requires Covers() && i < |configProviders| && |start| == |configProviders|
      requires probes == Probes() && Tracking(fetches) && want == Plan(start, probes, fetches, now)
      requires first == FirstIndices(configProviders)
      requires forall k :: 0 <= k < |configProviders| ==> start[k] == start[first[k]] && want[k] == want[first[k]]
      requires forall k :: 0 <= k < |configProviders| ==>
                 configProviders[k].configWithTimestamps == if first[k] < i then want[k].next else start[k]
      ensures configProviders[i].Next(now).next == want[i].next
      ensures configProviders[i].Next(now).threw == want[i].threw
    {
      var p := configProviders[i];
      FirstIndexAtMost(configProviders, i);
      if first[i] < i {
        RefreshIdempotent(start[i], probes[i], fetches[i], now, p.checkInterval);
      }
    }
  }

  /**
   * A reloader built by a client and ticked once changes nothing but the
   * provider it was given and that provider's target, and leaves the
   * provider in the state its own check at `now` produces.
   */
  method SingleProviderTick<C>(provider: CachedConfigProvider<C>, now: int) returns (threw: bool)
    modifies provider, provider.targetProvider
    ensures threw == old(provider.Next(now)).threw
    ensures provider.configWithTimestamps == old(provider.Next(now)).next
    ensures provider.targetProvider.next == old(provider.targetProvider.next)
  {
    var reloader := new ConfigsReloader<C>();
    reloader.Add(provider);
    var completed;
    threw, completed := reloader.Run(now);
    assert reloader.configProviders[..1] == [provider];
  }
}
