/**
 * The early `Reloadable`: a configuration provider plus a transform. Its
 * current value is the transform of whatever the provider holds now, and
 * `map` composes transforms. Transforms are user code and may throw.
 */
module Reloadable {
  import opened Types
  import opened CachedConfigProvider

  /** `f.andThen(g)` for functions that may throw: `g` runs only when `f` returned. */
  function AndThen<A, B, D>(f: A -> Attempt<B>, g: B -> Attempt<D>): A -> Attempt<D>
  {
    a => match f(a) case Done(b) => g(b) case Threw => Threw
  }

  datatype Reloadable<!C(!new), T> = Reloadable(configProvider: CachedConfigProvider<C>, transformConfig: C -> Attempt<T>)
  {
    /** `map(f)`: the same provider, with `transformConfig.andThen(f)`; `this` is a value and is not changed. */
    function Map<U>(f: T -> Attempt<U>): (r: Reloadable<C, U>)
      ensures r.configProvider == configProvider
      ensures forall c :: transformConfig(c).Done? ==> r.transformConfig(c) == f(transformConfig(c).value)
      ensures forall c :: transformConfig(c).Threw? ==> r.transformConfig(c).Threw?
    {
      Reloadable(configProvider, AndThen(transformConfig, f))
    }

    /**
     * `currentValue()`: the transform applied to the configuration the
     * provider's `getConfig()` returns, which is the cached one; neither the
     * target provider nor the files are consulted.
     */
    function CurrentValue(): (v: Attempt<T>)
      reads configProvider
      ensures v == transformConfig(configProvider.configWithTimestamps.config)
    {
      transformConfig(configProvider.configWithTimestamps.config)
    }
  }

  /**
   * For the same configuration, a mapped value is `f` of the original
   * value, and a throwing original makes the mapped one throw too.
   */
  lemma MapCurrentValue<C(!new), T, U>(r: Reloadable<C, T>, f: T -> Attempt<U>)
    ensures r.CurrentValue().Done? ==> r.Map(f).CurrentValue() == f(r.CurrentValue().value)
    ensures r.CurrentValue().Threw? ==> r.Map(f).CurrentValue().Threw?
  {
  }

  /** Mapping twice is mapping once with the composition. */
  lemma MapComposes<C(!new), T, U, V>(r: Reloadable<C, T>, f: T -> Attempt<U>, g: U -> Attempt<V>)
    ensures r.Map(f).Map(g).configProvider == r.Map(AndThen(f, g)).configProvider
    ensures forall c :: r.Map(f).Map(g).transformConfig(c) == r.Map(AndThen(f, g)).transformConfig(c)
    ensures r.Map(f).Map(g).CurrentValue() == r.Map(AndThen(f, g)).CurrentValue()
  {
  }

  /** Mapping the identity keeps the current value. */
  lemma MapIdentity<C(!new), T>(r: Reloadable<C, T>)
    ensures r.Map(x => Done(x)).CurrentValue() == r.CurrentValue()
  {
  }
}
