/**
 * A reloadable value read from files: on a tick it probes the latest
 * modification instant and, when that strictly advances, recomputes its value
 * with `transformConfig` and propagates it.
 */
module ReloadableConfig {
  import opened Types
  import opened Freshness
  import opened ReloadableCore

  /** The record of the last probe: modification instant seen and instant of the check. */
  datatype CheckInfo = CheckInfo(lastModified: int, lastCheck: int)
  {
    function WithLastModified(t: int): (r: CheckInfo)
      ensures r.lastModified == t && r.lastCheck == lastCheck
    {
      CheckInfo(t, lastCheck)
    }

    function WithLastCheck(t: int): (r: CheckInfo)
      ensures r.lastModified == lastModified && r.lastCheck == t
    {
      CheckInfo(lastModified, t)
    }
  }

  /**
   * `checkLastModified()`: the maximum timestamp over the scanned files; it
   * throws `IllegalArgumentException` when there are none.
   */
  function CheckLastModified(stamps: seq<int>): (r: Attempt<int>)
    ensures r.Threw? <==> stamps == []
    ensures r.Done? ==> r.value in stamps && forall t :: t in stamps ==> t <= r.value
  {
    match MaxLastModified(stamps)
    case Some(m) => Done(m)
    case None => Threw
  }

  /**
   * What one tick did: the new check record, whether the value was
   * recomputed (`updateCurrentValue` called), and whether an exception escaped.
   */
  datatype Tick = Tick(info: CheckInfo, reloading: bool, threw: bool)

  /**
   * One `notifyChanged(now)`: `probe` is `checkLastModified()`, `reloadThrows`
   * whether the recompute throws. The `finally` block sets lastCheck whenever
   * the gate passes.
   */
  function NotifyStep(info: CheckInfo, probe: Attempt<int>, reloadThrows: bool,
                      now: int, checkInterval: nat): (r: Tick)
    // A shut gate changes nothing: no probe, no reload.
    ensures !CheckDue(now, info.lastCheck, checkInterval) ==> r == Tick(info, false, false)
    // An open gate always moves lastCheck to now, exception or not.
    ensures CheckDue(now, info.lastCheck, checkInterval) ==> r.info.lastCheck == now
    // The value is recomputed only when the probe is strictly later than the stored instant.
    ensures r.reloading <==> CheckDue(now, info.lastCheck, checkInterval)
                             && probe.Done? && probe.value > info.lastModified
    // lastModified takes the probed instant after a reload that returned, and stays put otherwise.
    ensures r.info.lastModified == if r.reloading && !reloadThrows then probe.value else info.lastModified
    ensures r.info.lastModified >= info.lastModified
    // A failing probe or a failing reload is rethrown.
    ensures r.threw <==> CheckDue(now, info.lastCheck, checkInterval)
                         && (probe.Threw? || (r.reloading && reloadThrows))
  {
    if !CheckDue(now, info.lastCheck, checkInterval) then
      Tick(info, false, false)
    else
      match probe
      case Threw => Tick(info.WithLastCheck(now), false, true)
      case Done(lastModified) =>
        if lastModified > info.lastModified then
          if reloadThrows then Tick(info.WithLastCheck(now), true, true)
          else Tick(info.WithLastModified(lastModified).WithLastCheck(now), true, false)
        else
          Tick(info.WithLastCheck(now), false, false)
  }

  /**
   * Over any sequence of ticks, whatever the instants, the probed timestamps
   * and which probes or reloads throw, neither lastModified nor lastCheck
   * ever goes back.
   */
  lemma {:induction false} LastModifiedMonotone(info: CheckInfo, probes: seq<Attempt<int>>, reloadThrows: seq<bool>,
                                                nows: seq<int>, checkInterval: nat)
    requires |probes| == |reloadThrows| == |nows|
    ensures Replay(info, probes, reloadThrows, nows, checkInterval).lastModified >= info.lastModified
    ensures Replay(info, probes, reloadThrows, nows, checkInterval).lastCheck >= info.lastCheck
    decreases |probes|
  {
    if probes != [] {
      var next := NotifyStep(info, probes[0], reloadThrows[0], nows[0], checkInterval).info;
      LastModifiedMonotone(next, probes[1..], reloadThrows[1..], nows[1..], checkInterval);
    }
  }

  /**
   * The check record after a sequence of ticks: tick k probes `probes[k]`,
   * recomputes with outcome `reloadThrows[k]` and runs at `nows[k]`. An
   * exception escaping a tick does not stop the next tick from running.
   */
  function Replay(info: CheckInfo, probes: seq<Attempt<int>>, reloadThrows: seq<bool>,
                  nows: seq<int>, checkInterval: nat): CheckInfo
    requires |probes| == |reloadThrows| == |nows|
    decreases |probes|
  {
    if probes == [] then info
    else Replay(NotifyStep(info, probes[0], reloadThrows[0], nows[0], checkInterval).info,
                probes[1..], reloadThrows[1..], nows[1..], checkInterval)
  }

  class ReloadableConfig<T(==)> {
    const scannedFiles: seq<File>
    const checkInterval: nat
    const transformConfig: Option<T> -> Attempt<T>
    const node: Reloadable<T>
    var checkInfo: CheckInfo

    /** What a tick at `now` does to the check record, from the current state. */
    ghost function Next(now: int): Tick
      reads this, node, set f | f in scannedFiles
    {
      NotifyStep(checkInfo, CheckLastModified(Stamps(scannedFiles)),
                 transformConfig(Some(node.current)).Threw?, now, checkInterval)
    }

    constructor Make(scannedFiles: seq<File>, checkInterval: nat, transformConfig: Option<T> -> Attempt<T>,
                     node: Reloadable<T>, checkInfo: CheckInfo)
      ensures this.scannedFiles == scannedFiles && this.checkInterval == checkInterval
      ensures this.transformConfig == transformConfig && this.node == node && this.checkInfo == checkInfo
    {
      this.scannedFiles := scannedFiles;
      this.checkInterval := checkInterval;
      this.transformConfig := transformConfig;
      this.node := node;
      this.checkInfo := checkInfo;
    }

    /**
     * The public constructor: the initial value is `transformConfig(empty)`,
     * then the files are probed, which fails when there are none; `now` is
     * `Instant.now()`.
     */
    static method New(scannedFiles: seq<File>, checkInterval: nat, transformConfig: Option<T> -> Attempt<T>,
                      propagateOnlyIfChanged: bool, now: int)
      returns (r: Attempt<ReloadableConfig<T>>)
      ensures r.Done? <==> transformConfig(None).Done? && scannedFiles != []
      ensures r.Done? ==> fresh(r.value) && fresh(r.value.node)
      ensures r.Done? ==> r.value.scannedFiles == scannedFiles && r.value.checkInterval == checkInterval
      ensures r.Done? ==> r.value.transformConfig == transformConfig
      ensures r.Done? ==> r.value.node.current == transformConfig(None).value && r.value.node.propagated == []
      ensures r.Done? ==> r.value.node.propagateOnlyIfChanged == propagateOnlyIfChanged
      ensures r.Done? ==> r.value.checkInfo == CheckInfo(CheckLastModified(Stamps(scannedFiles)).value, now)
    {
      var initial := transformConfig(None);
      if initial.Threw? {
        return Threw;
      }
      var node := new Reloadable.WithPolicy(initial.value, propagateOnlyIfChanged);
      var probe := CheckLastModified(Stamps(scannedFiles));
      if probe.Threw? {
        return Threw;
      }
      var c := new ReloadableConfig.Make(scannedFiles, checkInterval, transformConfig, node,
                                        CheckInfo(probe.value, now));
      r := Done(c);
    }

    /**
     * `notifyChanged(now)`: the tick. The check record follows `NotifyStep`;
     * the value is recomputed by `updateCurrentValue(transformConfig)` exactly
     * when that step reloads, and left alone otherwise.
     */
    method NotifyChanged(now: int) returns (threw: bool)
      modifies this, node
      ensures checkInfo == old(Next(now)).info
      ensures threw == old(Next(now)).threw
      ensures old(Next(now)).reloading ==>
                Applied(transformConfig(Some(old(node.current))), node.propagateOnlyIfChanged,
                        old(node.current), old(node.propagated), node.current, node.propagated)
      ensures !old(Next(now)).reloading ==> node.current == old(node.current) && node.propagated == old(node.propagated)
    {
      threw := false;
      if CheckDue(now, checkInfo.lastCheck, checkInterval) {
        var lastModified := CheckLastModified(Stamps(scannedFiles));
        match lastModified {
          case Threw =>
            threw := true;
          case Done(t) =>
            if t > checkInfo.lastModified {
              threw := node.UpdateCurrentValue(transformConfig);
              if !threw {
                checkInfo := checkInfo.WithLastModified(t);
              }
            }
        }
        // the finally block
        checkInfo := checkInfo.WithLastCheck(now);
      }
    }
  }
}
