/**
 * Whole runs of a supervisor's gate (src/vcompany/supervisor/supervisor.py): the global backoff lasts
 * exactly as long as its reset is pending, no restart is granted meanwhile, and the restart budget
 * holds over the run.
 */
module OutageGate {
  import opened Windows
  import opened Options
  import opened Supervisor
  import RestartTracking
  import BulkFailure

  datatype Event =
    | Failed(id: string, restartable: bool, r: Readings)
    | Notified(raised: bool)
    | Expired

  function Step(g: Gate, e: Event): Gate {
    match e
    case Failed(id, restartable, r) => g.Failed(id, restartable, r)
    case Notified(raised) => g.Notified(raised)
    case Expired => g.Expired()
  }

  function Run(g: Gate, events: seq<Event>): Gate {
    if events == [] then g else Step(Run(g, events[..|events| - 1]), events[|events| - 1])
  }

  /** The verdict on the event at position `i`, if it is a failure. */
  function VerdictAt(g: Gate, events: seq<Event>, i: nat): Option<Verdict>
    requires i < |events|
  {
    match events[i]
    case Failed(id, restartable, r) => Some(Run(g, events[..i]).Decide(id, restartable, r))
    case _ => None
  }

  /** Alerts whose delivery raised, so that no reset timer was set. */
  function Lost(g: Gate, events: seq<Event>): nat {
    if events == [] then 0
    else
      var before, e := events[..|events| - 1], events[|events| - 1];
      Lost(g, before) + if e == Notified(true) && Run(g, before).notices > 0 then 1 else 0
  }

  /** A gate before its first failure. */
  ghost predicate Initial(g: Gate) {
    && g.notices == 0 && g.timers == 0
    && RestartTracking.Fresh(g.budget.maxRestarts, g.budget.window) == g.budget
    && (g.detector.Some? ==>
          var d := g.detector.value;
          d == BulkFailure.Fresh(d.window, d.threshold, d.initialBackoff, d.maxBackoff))
  }

  lemma {:induction false} RunConcat(g: Gate, a: seq<Event>, b: seq<Event>)
    ensures Run(g, a + b) == Run(Run(g, a), b)
    ensures Lost(g, a + b) == Lost(g, a) + Lost(Run(g, a), b)
    decreases |b|
  {
    if b == [] {
      assert a + b == a;
    } else {
      RunConcat(g, a, b[..|b| - 1]);
      assert (a + b)[..|a + b| - 1] == a + b[..|b| - 1];
    }
  }

  /**
   * The supervisor is in global backoff exactly when one alert is being delivered, one reset timer is
   * pending, or the alert raised; and the timer's doubling never lasts, so every outage backs off for
   * the initial duration.
   */
  lemma {:induction false} BackoffIffPending(g: Gate, events: seq<Event>)
    requires Initial(g)
    ensures var end := Run(g, events);
            && end.detector.Some? == g.detector.Some?
            && end.notices + end.timers + Lost(g, events) == (if end.InBackoff() then 1 else 0)
            && (end.detector.Some? ==> end.detector.value.backoff == end.detector.value.initialBackoff)
  {
    if events != [] {
      BackoffIffPending(g, events[..|events| - 1]);
    }
  }

  /** With callbacks that do not raise: in backoff exactly when one reset is pending. */
  lemma {:induction false} BackoffIffOneTimer(g: Gate, events: seq<Event>)
    requires Initial(g) && forall i :: 0 <= i < |events| ==> events[i] != Notified(true)
    ensures var end := Run(g, events);
            && (end.InBackoff() <==> end.notices + end.timers == 1)
            && (!end.InBackoff() <==> end.notices + end.timers == 0)
  {
    BackoffIffPending(g, events);
    NothingLost(g, events);
  }

  lemma {:induction false} NothingLost(g: Gate, events: seq<Event>)
    requires forall i :: 0 <= i < |events| ==> events[i] != Notified(true)
    ensures Lost(g, events) == 0
  {
    if events != [] {
      NothingLost(g, events[..|events| - 1]);
      assert events[|events| - 1] != Notified(true);
    }
  }

  lemma {:induction false} StaysInBackoff(g: Gate, events: seq<Event>, m: nat, n: nat)
    requires m <= n <= |events| && Run(g, events[..m]).InBackoff()
    requires forall k :: m <= k < n ==> events[k] != Expired
    ensures Run(g, events[..n]).InBackoff()
  {
    if m < n {
      StaysInBackoff(g, events, m, n - 1);
      assert events[..n][..n - 1] == events[..n - 1];
    }
  }

  /** From an outage until a timer fires, every failure is suppressed: no restart is granted. */
  lemma {:induction false} NoGrantDuringBackoff(g: Gate, events: seq<Event>, i: nat, j: nat)
    requires i < j < |events| && VerdictAt(g, events, i) == Some(Outage)
    requires forall k :: i < k < j ==> events[k] != Expired
    ensures events[j].Failed? ==> VerdictAt(g, events, j) == Some(Suppressed)
  {
    assert events[..i + 1][..i] == events[..i];
    StaysInBackoff(g, events, i + 1, j);
  }

  lemma {:induction false} NoTimerNoReset(g: Gate, events: seq<Event>)
    requires g.InBackoff() && g.notices == 0 && g.timers == 0
    ensures Run(g, events).InBackoff() && Run(g, events).notices == 0 && Run(g, events).timers == 0
  {
    if events != [] {
      NoTimerNoReset(g, events[..|events| - 1]);
    }
  }

  /** An alert callback that raises leaves the supervisor in backoff for good. */
  lemma {:induction false} RaisingAlertIsForever(g: Gate, events: seq<Event>, later: seq<Event>)
    requires Initial(g)
    ensures Lost(g, events) > 0 ==> Run(g, events + later).InBackoff()
  {
    BackoffIffPending(g, events);
    if Lost(g, events) > 0 {
      NoTimerNoReset(Run(g, events), later);
      RunConcat(g, events, later);
    }
  }

  /** One failure is remembered and is no outage. */
  lemma {:induction false} FirstFailure(g: Gate, a: string, r: Readings)
    requires Initial(g) && g.detector.Some? && g.detector.value.threshold == 2
    ensures var g1 := g.Failed(a, true, r);
            && !g1.InBackoff() && g1.notices == 0 && g1.detector.Some?
            && g1.detector.value == g.detector.value.(failures := map[a := r.detectorRecord])
  {
    var d := g.detector.value;
    assert d.WithFailure(a, r.detectorPurge, r.detectorRecord) == map[a := r.detectorRecord];
    assert |map[a := r.detectorRecord]| == 1;
  }

  /** A second child's failure within the window is one. */
  lemma {:induction false} SecondFailure(g: Gate, a: string, b: string, r: Readings)
    requires g.detector.Some? && !g.InBackoff() && g.notices == 0 && g.detector.value.threshold == 2
    requires g.detector.value.failures == map[a := r.detectorRecord] && a != b
    requires g.detector.value.window >= 0.0 && r.detectorPurge == r.detectorRecord
    ensures g.Failed(b, true, r).notices == 1 && g.Failed(b, true, r).InBackoff()
  {
    var both := g.detector.value.WithFailure(b, r.detectorPurge, r.detectorRecord);
    assert both.Keys == {a, b} && |both| == |both.Keys|;
  }

  /** The events of an alert that raises. */
  function RaisingAlert(a: string, b: string, r: Readings): seq<Event> {
    [Failed(a, true, r), Failed(b, true, r), Notified(true)]
  }

  lemma {:induction false} RunThree(g: Gate, x: Event, y: Event, z: Event)
    ensures Run(g, [x, y, z]) == Step(Step(Step(g, x), y), z)
    ensures x.Failed? && y.Failed? ==>
              Lost(g, [x, y, z]) == if z == Notified(true) && Step(Step(g, x), y).notices > 0 then 1 else 0
  {
    assert [x, y, z][..2] == [x, y] && [x, y][..1] == [x] && [x][..0] == [];
    assert Run(g, [x][..0]) == g && Lost(g, [x][..0]) == 0;
    assert Run(g, [x]) == Step(g, x) && Run(g, [x, y]) == Step(Step(g, x), y);
    assert x.Failed? ==> Lost(g, [x]) == 0;
    assert x.Failed? && y.Failed? ==> Lost(g, [x, y]) == 0;
  }

  /** Two children fail, the detector reports an outage, its alert raises, and that is that. */
  lemma {:induction false} RaisingAlertHappens(g: Gate, a: string, b: string, r: Readings, later: seq<Event>)
    requires Initial(g) && g.detector.Some? && g.detector.value.threshold == 2 && g.detector.value.window >= 0.0
    requires a != b && r.detectorPurge == r.detectorRecord
    ensures Lost(g, RaisingAlert(a, b, r)) == 1
    ensures Run(g, RaisingAlert(a, b, r) + later).InBackoff()
  {
    FirstFailure(g, a, r);
    SecondFailure(g.Failed(a, true, r), a, b, r);
    RunThree(g, Failed(a, true, r), Failed(b, true, r), Notified(true));
    RaisingAlertIsForever(g, RaisingAlert(a, b, r), later);
  }

  // The detector over a run

  /** The call an event makes on the outage detector, if any. */
  function DetectorCall(g: Gate, e: Event): Option<BulkFailure.Call> {
    match e
    case Failed(id, _, r) =>
      if g.InBackoff() then None else Some(BulkFailure.Record(id, r.detectorPurge, r.detectorRecord))
    case Notified(_) => None
    case Expired => if g.timers == 0 then None else Some(BulkFailure.Expire)
  }

  function DetectorCalls(g: Gate, events: seq<Event>): seq<BulkFailure.Call> {
    if events == [] then []
    else
      var before := events[..|events| - 1];
      Extended(DetectorCalls(g, before), DetectorCall(Run(g, before), events[|events| - 1]))
  }

  function Extended(calls: seq<BulkFailure.Call>, c: Option<BulkFailure.Call>): seq<BulkFailure.Call> {
    if c.Some? then calls + [c.value] else calls
  }

  function Called(d: BulkFailure.Detector, c: Option<BulkFailure.Call>): BulkFailure.Detector {
    if c.Some? then BulkFailure.Apply(d, c.value) else d
  }

  lemma {:induction false} RunExtended(d: BulkFailure.Detector, calls: seq<BulkFailure.Call>,
                                       c: Option<BulkFailure.Call>)
    ensures BulkFailure.Run(d, Extended(calls, c)) == Called(BulkFailure.Run(d, calls), c)
  {
    if c.Some? {
      assert (calls + [c.value])[..|calls|] == calls;
    }
  }

  lemma {:induction false} DetectorStep(g: Gate, e: Event)
    requires g.detector.Some?
    ensures Step(g, e).detector == Some(Called(g.detector.value, DetectorCall(g, e)))
  {
  }

  /** The gate's detector is one that is told of exactly the failures that are not suppressed. */
  lemma {:induction false} DetectorRefines(g: Gate, events: seq<Event>)
    requires g.detector.Some?
    ensures Run(g, events).detector == Some(BulkFailure.Run(g.detector.value, DetectorCalls(g, events)))
  {
    if events != [] {
      var before, e := events[..|events| - 1], events[|events| - 1];
      DetectorRefines(g, before);
      DetectorStep(Run(g, before), e);
      RunExtended(g.detector.value, DetectorCalls(g, before), DetectorCall(Run(g, before), e));
    }
  }

  lemma {:induction false} DecideOutage(g: Gate, id: string, restartable: bool, r: Readings)
    ensures g.Decide(id, restartable, r) == Outage <==> !g.InBackoff() && g.SeesOutage(id, r)
  {
  }

  /**
   * An outage is declared exactly when the gate is not in backoff and its detector, told of the unsuppressed
   * failures, reports one.
   */
  lemma {:induction false} OutageIffReported(g: Gate, events: seq<Event>, id: string, restartable: bool, r: Readings)
    requires g.detector.Some?
    ensures Run(g, events).Decide(id, restartable, r) == Outage <==>
              && !Run(g, events).InBackoff()
              && BulkFailure.Run(g.detector.value, DetectorCalls(g, events))
                 .Outage(id, r.detectorPurge, r.detectorRecord)
  {
    DetectorRefines(g, events);
    DecideOutage(Run(g, events), id, restartable, r);
  }

  /** The detector knows the full history of unsuppressed failures: its reports are those of that history. */
  lemma {:induction false} ReportIsExact(g: Gate, events: seq<Event>, start: Time, id: string, r: Readings)
    requires g.detector.Some? && g.detector.value.failures == map[]
    requires BulkFailure.Monotone(start, DetectorCalls(g, events))
    requires BulkFailure.Now(start, DetectorCalls(g, events)) <= r.detectorPurge
    ensures var d, calls := g.detector.value, DetectorCalls(g, events);
            BulkFailure.Exact(BulkFailure.Run(d, calls), calls, id, r.detectorPurge, r.detectorRecord,
                              r.detectorPurge - d.window, d.threshold)
  {
    BulkFailure.OutageIffManyFailed(g.detector.value, start, DetectorCalls(g, events), id,
                                    r.detectorPurge, r.detectorRecord);
  }

  /** A supervisor with fewer than two children has no detector and never declares an outage. */
  lemma {:induction false} NoDetectorNoOutage(g: Gate, events: seq<Event>, id: string, restartable: bool, r: Readings)
    requires g.detector.None?
    ensures Run(g, events).Decide(id, restartable, r) != Outage && Run(g, events).detector.None?
  {
    if events != [] {
      NoDetectorNoOutage(g, events[..|events| - 1], id, restartable, r);
    }
  }

  // The budget over a run

  /** The calls the run makes on the restart tracker. */
  function Asks(g: Gate, events: seq<Event>): seq<RestartTracking.Call> {
    if events == [] then []
    else
      var before, e := events[..|events| - 1], events[|events| - 1];
      Asks(g, before) +
      if VerdictAt(g, events, |events| - 1) in {Some(Granted), Some(Escalated)}
      then [RestartTracking.Allow(e.r.purge, e.r.record)] else []
  }

  /** When restarts were granted. */
  function GrantTimes(g: Gate, events: seq<Event>): seq<Time> {
    if events == [] then []
    else
      var before, e := events[..|events| - 1], events[|events| - 1];
      GrantTimes(g, before) + if VerdictAt(g, events, |events| - 1) == Some(Granted) then [e.r.record] else []
  }

  lemma {:induction false} BudgetRefinesTracker(g: Gate, events: seq<Event>)
    ensures Run(g, events).budget == RestartTracking.Run(g.budget, Asks(g, events))
    ensures GrantTimes(g, events) == RestartTracking.GrantsOf(g.budget, Asks(g, events))
  {
    if events != [] {
      var before, e := events[..|events| - 1], events[|events| - 1];
      BudgetRefinesTracker(g, before);
      var asks := Asks(g, before);
      assert VerdictAt(g, events, |events| - 1).Some? ==> e.Failed?;
      if VerdictAt(g, events, |events| - 1) in {Some(Granted), Some(Escalated)} {
        assert (asks + [RestartTracking.Allow(e.r.purge, e.r.record)])[..|asks|] == asks;
      } else {
        assert asks + [] == asks;
      }
    }
  }

  /** Whatever the outages and policies do, every closed window holds at most the budget of granted restarts. */
  lemma {:induction false} RestartsPerWindow(g: Gate, events: seq<Event>, start: Time, lo: Time)
    requires Initial(g) && RestartTracking.Monotone(start, Asks(g, events))
    ensures CountIn(GrantTimes(g, events), Closed(lo, lo + g.budget.window)) <= g.budget.Cap()
  {
    BudgetRefinesTracker(g, events);
    RestartTracking.GrantsPerWindow(g.budget.maxRestarts, g.budget.window, start, Asks(g, events), lo);
  }
}
