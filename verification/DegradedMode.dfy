/**
 * Entering and leaving degraded mode (src/vcompany/resilience/degraded_mode.py): two counters with
 * hysteresis, shown to compute a property of the history of health results.
 */
module DegradedMode {

  datatype Mode = Normal | Degraded

  datatype Notice = OnDegraded | OnRecovered

  datatype Monitor = Monitor(failureThreshold: int, recoveryThreshold: int, mode: Mode, failures: nat, successes: nat) {
    /** Which callback this result triggers, if any. */
    function Notices(healthy: bool): seq<Notice> {
      if healthy then (if mode.Degraded? && successes + 1 >= recoveryThreshold then [OnRecovered] else [])
      else if mode.Normal? && failures + 1 >= failureThreshold then [OnDegraded] else []
    }

    function Next(healthy: bool): Monitor {
      match (healthy, Notices(healthy) != [])
      case (true, true) => this.(mode := Normal, failures := 0, successes := 0)
      case (true, false) => this.(failures := 0, successes := successes + 1)
      case (false, true) => this.(mode := Degraded, failures := 0, successes := 0)
      case (false, false) => this.(failures := failures + 1, successes := 0)
    }
  }

  class DegradedModeManager {
    const failureThreshold: int
    const recoveryThreshold: int
    var mode: Mode
    var consecutiveFailures: nat
    var consecutiveSuccesses: nat
    var notices: seq<Notice>

    ghost function State(): Monitor
      reads this
    {
      Monitor(failureThreshold, recoveryThreshold, mode, consecutiveFailures, consecutiveSuccesses)
    }

    constructor (failureThreshold: int, recoveryThreshold: int)
      ensures State() == Monitor(failureThreshold, recoveryThreshold, Normal, 0, 0) && notices == []
    {
      this.failureThreshold, this.recoveryThreshold := failureThreshold, recoveryThreshold;
      mode, consecutiveFailures, consecutiveSuccesses, notices := Normal, 0, 0, [];
    }

    method RecordResult(healthy: bool)
      modifies this
      ensures State() == old(State()).Next(healthy)
      ensures notices == old(notices) + old(State()).Notices(healthy)
    {
      if healthy {
        consecutiveSuccesses := consecutiveSuccesses + 1;
        consecutiveFailures := 0;
        if mode.Degraded? && consecutiveSuccesses >= recoveryThreshold {
          mode := Normal;
          consecutiveSuccesses := 0;
          notices := notices + [OnRecovered];
        }
      } else {
        consecutiveFailures := consecutiveFailures + 1;
        consecutiveSuccesses := 0;
        if mode.Normal? && consecutiveFailures >= failureThreshold {
          mode := Degraded;
          consecutiveFailures := 0;
          notices := notices + [OnDegraded];
        }
      }
    }
  }

  // Runs

  function Run(m: Monitor, results: seq<bool>): Monitor {
    if results == [] then m else Run(m, results[..|results| - 1]).Next(results[|results| - 1])
  }

  function NoticesOf(m: Monitor, results: seq<bool>): seq<Notice> {
    if results == [] then []
    else
      var before := results[..|results| - 1];
      NoticesOf(m, before) + Run(m, before).Notices(results[|results| - 1])
  }

  /** A threshold below one acts like one: the first result of the kind reaches it. */
  function Effective(threshold: int): (n: nat)
    ensures n >= 1
  {
    if threshold < 1 then 1 else threshold
  }

  /** The `n` results up to position `end` are all of this kind. */
  ghost predicate RunEndsAt(results: seq<bool>, end: int, n: nat, kind: bool) {
    n <= end <= |results| && forall i :: end - n <= i < end ==> results[i] == kind
  }

  /** The declarative meaning of degraded: enough failures in a row, and not enough successes in a row since. */
  ghost predicate DegradedBy(results: seq<bool>, f: nat, s: nat) {
    exists i :: RunEndsAt(results, i, f, false) && forall j :: i < j <= |results| ==> !RunEndsAt(results, j, s, true)
  }

  /** The length of the run of this kind at the end of the results. */
  function Trailing(results: seq<bool>, kind: bool): (n: nat)
    ensures n <= |results|
    ensures forall i :: |results| - n <= i < |results| ==> results[i] == kind
    ensures n < |results| ==> results[|results| - n - 1] != kind
  {
    if results == [] || results[|results| - 1] != kind then 0 else 1 + Trailing(results[..|results| - 1], kind)
  }

  lemma {:induction false} TrailingMeansRun(results: seq<bool>, n: nat, kind: bool)
    ensures RunEndsAt(results, |results|, n, kind) <==> n <= Trailing(results, kind)
  {
    var t := Trailing(results, kind);
    if t < n <= |results| {
      assert results[|results| - t - 1] != kind;
    }
  }

  lemma {:induction false} RunEndsPrefix(results: seq<bool>, end: int, n: nat, kind: bool)
    requires results != [] && end < |results|
    ensures RunEndsAt(results, end, n, kind) <==> RunEndsAt(results[..|results| - 1], end, n, kind)
  {
  }

  /** How one more result changes the declarative meaning. */
  lemma {:induction false} DegradedSnoc(results: seq<bool>, f: nat, s: nat)
    requires results != [] && f >= 1 && s >= 1
    ensures DegradedBy(results, f, s) <==>
              || RunEndsAt(results, |results|, f, false)
              || (DegradedBy(results[..|results| - 1], f, s) && !RunEndsAt(results, |results|, s, true))
  {
    var n := |results|;
    var front := results[..n - 1];
    if DegradedBy(results, f, s) && !RunEndsAt(results, n, f, false) {
      var i :| RunEndsAt(results, i, f, false) && forall j :: i < j <= n ==> !RunEndsAt(results, j, s, true);
      RunEndsPrefix(results, i, f, false);
      forall j | i < j <= n - 1
        ensures !RunEndsAt(front, j, s, true)
      {
        RunEndsPrefix(results, j, s, true);
      }
      assert DegradedBy(front, f, s);
    }
    if DegradedBy(front, f, s) && !RunEndsAt(results, n, s, true) {
      var i :| RunEndsAt(front, i, f, false) && forall j :: i < j <= n - 1 ==> !RunEndsAt(front, j, s, true);
      RunEndsPrefix(results, i, f, false);
      forall j | i < j <= n
        ensures !RunEndsAt(results, j, s, true)
      {
        if j < n {
          RunEndsPrefix(results, j, s, true);
        }
      }
      assert DegradedBy(results, f, s);
    }
    if RunEndsAt(results, n, f, false) {
      assert forall j :: n < j <= n ==> !RunEndsAt(results, j, s, true);
      assert DegradedBy(results, f, s);
    }
  }

  /**
   * The hysteresis computes the history: after any results the manager is degraded exactly when some
   * run of failures reached its threshold and no run of successes has reached its own since.
   */
  lemma {:induction false} DegradedIffHistory(failureThreshold: int, recoveryThreshold: int, results: seq<bool>)
    ensures var f, s := Effective(failureThreshold), Effective(recoveryThreshold);
            var m := Run(Monitor(failureThreshold, recoveryThreshold, Normal, 0, 0), results);
            && m.failureThreshold == failureThreshold && m.recoveryThreshold == recoveryThreshold
            && (m.mode.Degraded? <==> DegradedBy(results, f, s))
            && (m.mode.Normal? ==> m.failures == Trailing(results, false))
            && (m.mode.Degraded? ==> m.successes == Trailing(results, true))
  {
    var f, s := Effective(failureThreshold), Effective(recoveryThreshold);
    if results != [] {
      var front := results[..|results| - 1];
      DegradedIffHistory(failureThreshold, recoveryThreshold, front);
      DegradedSnoc(results, f, s);
      TrailingMeansRun(results, f, false);
      TrailingMeansRun(results, s, true);
    }
  }

  /** The callbacks strictly alternate, starting with the degraded one. */
  lemma {:induction false} NoticesAlternate(failureThreshold: int, recoveryThreshold: int, results: seq<bool>)
    ensures var m := Monitor(failureThreshold, recoveryThreshold, Normal, 0, 0);
            var ns := NoticesOf(m, results);
            && (forall i :: 0 <= i < |ns| ==> ns[i] == if i % 2 == 0 then OnDegraded else OnRecovered)
            && (Run(m, results).mode.Degraded? <==> |ns| % 2 == 1)
  {
    if results != [] {
      NoticesAlternate(failureThreshold, recoveryThreshold, results[..|results| - 1]);
    }
  }
}
