/**
 * The freshness oracle: watched files, each exposing a last-modified instant,
 * and the maximum over them. Instants are epoch milliseconds (`int`),
 * durations are `nat` milliseconds.
 */
module Freshness {
  import opened Types

  /** A watched file; `lastModified` is what `File.lastModified()` reads from the file system. */
  class File {
    var lastModified: int

    constructor (lastModified: int)
      ensures this.lastModified == lastModified
    {
      this.lastModified := lastModified;
    }
  }

  /** `scannedFiles.stream().map(File::lastModified)`: the probed timestamps, in list order. */
  function Stamps(files: seq<File>): (s: seq<int>)
    reads files
    ensures |s| == |files|
    ensures forall i :: 0 <= i < |files| ==> s[i] == files[i].lastModified
    decreases |files|
  {
    if files == [] then [] else [files[0].lastModified] + Stamps(files[1..])
  }

  /**
   * `.max(Long::compare)`: the latest modification instant over all scanned
   * files, or `None` when no file is watched.
   */
  function MaxLastModified(stamps: seq<int>): (r: Option<int>)
    ensures r.None? <==> stamps == []
    ensures r.Some? ==> r.value in stamps
    ensures r.Some? ==> forall t :: t in stamps ==> t <= r.value
  {
    if stamps == [] then None
    else
      assert forall t :: t in stamps ==> t == stamps[0] || t in stamps[1..];
      match MaxLastModified(stamps[1..])
      case None => Some(stamps[0])
      case Some(m) => Some(if stamps[0] >= m then stamps[0] else m)
  }

  /** `now.isAfter(lastCheck.plus(checkInterval))`: the strict staleness gate. */
  predicate CheckDue(now: int, lastCheck: int, checkInterval: nat)
  {
    now > lastCheck + checkInterval
  }

  /** The gate never passes twice for the same instant: once `lastCheck` is `now`, it is shut. */
  lemma CheckDueShutAfterCheck(now: int, checkInterval: nat)
    ensures !CheckDue(now, now, checkInterval)
  {
  }

  /** With two watched files modified at `t1 < t2`, the probe uses `t2`. */
  lemma MaxOfTwoFiles(t1: int, t2: int)
    requires t1 < t2
    ensures MaxLastModified([t1, t2]) == Some(t2)
  {
    assert MaxLastModified([t2]) == Some(t2);
    assert [t1, t2][1..] == [t2];
  }

  /** The probe does not depend on the order in which the files are listed. */
  lemma {:induction false} MaxLastModifiedOrderFree(s: seq<int>, u: seq<int>)
    requires multiset(s) == multiset(u)
    ensures MaxLastModified(s) == MaxLastModified(u)
  {
    var a, b := MaxLastModified(s), MaxLastModified(u);
    if s == [] {
      assert |u| == |multiset(u)| == 0;
    } else {
      assert |u| == |multiset(u)| == |multiset(s)| == |s|;
      assert a.value in multiset(u) && b.value in multiset(s);
      assert a.value in u && b.value in s;
    }
  }
}
