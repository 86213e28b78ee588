/**
 * The upstream-outage detector (src/vcompany/resilience/bulk_failure.py).
 *
 * It remembers one timestamp per child; the lemmas show that its answers are those of the full
 * history of recorded failures, and that one child on its own never looks like an outage.
 */
module BulkFailure {
  import opened Windows

  /** How many distinct children make an outage: at least two, and a fraction of all of them. */
  function Threshold(childCount: int, ratio: real): (n: int)
    ensures n >= 2 && childCount as real * ratio < n as real + 1.0
    ensures n == 2 || n as real <= childCount as real * ratio
  {
    var share := (childCount as real * ratio).Floor;
    if share > 2 then share else 2
  }

  datatype Detector = Detector(
    window: Time, threshold: int, initialBackoff: Time, maxBackoff: Time,
    failures: map<string, Time>, inBackoff: bool, backoff: Time)
  {
    function Purged(now: Time): Detector {
      this.(failures := map c | c in failures && now - window <= failures[c] :: failures[c])
    }

    function WithFailure(child: string, purgeAt: Time, recordAt: Time): map<string, Time> {
      Purged(purgeAt).failures[child := recordAt]
    }

    /** Whether recording this failure reports an outage. */
    predicate Outage(child: string, purgeAt: Time, recordAt: Time) {
      |WithFailure(child, purgeAt, recordAt)| >= threshold
    }

    function Recorded(child: string, purgeAt: Time, recordAt: Time): Detector {
      this.(failures := WithFailure(child, purgeAt, recordAt),
            inBackoff := inBackoff || Outage(child, purgeAt, recordAt))
    }

    /** Doubling up to the cap. */
    function Escalated(): Detector {
      this.(backoff := if backoff * 2.0 < maxBackoff then backoff * 2.0 else maxBackoff)
    }

    function Reset(): Detector {
      this.(inBackoff := false, backoff := initialBackoff)
    }
  }

  function Fresh(window: Time, threshold: int, initialBackoff: Time, maxBackoff: Time): Detector {
    Detector(window, threshold, initialBackoff, maxBackoff, map[], false, initialBackoff)
  }

  class BulkFailureDetector {
    const window: Time
    const ratio: real
    const initialBackoff: Time
    const maxBackoff: Time
    var threshold: int
    var recentFailures: map<string, Time>
    var inBackoff: bool
    var currentBackoff: Time

    ghost function State(): Detector
      reads this
    {
      Detector(window, threshold, initialBackoff, maxBackoff, recentFailures, inBackoff, currentBackoff)
    }

    constructor (childCount: int, window: Time, ratio: real, initialBackoff: Time, maxBackoff: Time)
      ensures State() == Fresh(window, Threshold(childCount, ratio), initialBackoff, maxBackoff)
    {
      this.window := window;
      this.ratio := ratio;
      this.initialBackoff := initialBackoff;
      this.maxBackoff := maxBackoff;
      threshold := Threshold(childCount, ratio);
      recentFailures := map[];
      inBackoff := false;
      currentBackoff := initialBackoff;
    }

    method PurgeOld(now: Time)
      modifies this
      ensures State() == old(State()).Purged(now)
    {
      var cutoff := now - window;
      var expired := set c | c in recentFailures && recentFailures[c] < cutoff;
      while expired != {}
        invariant expired == set c | c in recentFailures && recentFailures[c] < cutoff
        invariant forall c :: c in recentFailures ==>
                    c in old(recentFailures) && recentFailures[c] == old(recentFailures)[c]
        invariant forall c :: c in old(recentFailures) && cutoff <= old(recentFailures)[c] ==> c in recentFailures
        invariant State() == old(State()).(failures := recentFailures)
        decreases expired
      {
        var c :| c in expired;
        recentFailures := recentFailures - {c};
        expired := expired - {c};
      }
      forall c | c in recentFailures
        ensures cutoff <= recentFailures[c]
      {
        assert c !in expired;
      }
      assert recentFailures == old(State()).Purged(now).failures;
    }

    method RecordFailure(child: string, purgeAt: Time, recordAt: Time) returns (outage: bool)
      modifies this
      ensures outage == old(State()).Outage(child, purgeAt, recordAt)
      ensures State() == old(State()).Recorded(child, purgeAt, recordAt)
    {
      PurgeOld(purgeAt);
      recentFailures := recentFailures[child := recordAt];
      if |recentFailures| >= threshold {
        inBackoff := true;
        return true;
      }
      return false;
    }

    method ResetBackoff()
      modifies this
      ensures State() == old(State()).Reset()
    {
      inBackoff := false;
      currentBackoff := initialBackoff;
    }

    method EscalateBackoff()
      modifies this
      ensures State() == old(State()).Escalated()
    {
      currentBackoff := if currentBackoff * 2.0 < maxBackoff then currentBackoff * 2.0 else maxBackoff;
    }

    method UpdateChildCount(count: int)
      modifies this
      ensures State() == old(State()).(threshold := Threshold(count, ratio))
    {
      threshold := Threshold(count, ratio);
    }
  }

  // Runs

  /** Expire is the escalation and reset of an expired backoff, in one go. */
  datatype Call = Record(child: string, purgeAt: Time, recordAt: Time) | Reset | Escalate | Expire

  function Apply(d: Detector, c: Call): Detector {
    match c
    case Record(child, purgeAt, recordAt) => d.Recorded(child, purgeAt, recordAt)
    case Reset => d.Reset()
    case Escalate => d.Escalated()
    case Expire => d.Escalated().Reset()
  }

  function Run(d: Detector, calls: seq<Call>): Detector {
    if calls == [] then d else Apply(Run(d, calls[..|calls| - 1]), calls[|calls| - 1])
  }

  function Now(start: Time, calls: seq<Call>): Time {
    if calls == [] then start
    else if calls[|calls| - 1].Record? then calls[|calls| - 1].recordAt
    else Now(start, calls[..|calls| - 1])
  }

  predicate Monotone(start: Time, calls: seq<Call>) {
    calls != [] ==>
      var before, c := calls[..|calls| - 1], calls[|calls| - 1];
      Monotone(start, before) && (c.Record? ==> Now(start, before) <= c.purgeAt <= c.recordAt)
  }

  /** When each child failed last, in the whole history. */
  function LastFailures(calls: seq<Call>): map<string, Time> {
    if calls == [] then map[]
    else
      var before, c := LastFailures(calls[..|calls| - 1]), calls[|calls| - 1];
      if c.Record? then before[c.child := c.recordAt] else before
  }

  /** The children that really failed at or after the cutoff, in the whole history. */
  function FailedSince(calls: seq<Call>, cutoff: Time): set<string> {
    set c | c in LastFailures(calls) && cutoff <= LastFailures(calls)[c]
  }

  /** The call at this position records that the child failed at or after the cutoff. */
  predicate FailsAt(calls: seq<Call>, i: int, cutoff: Time, child: string) {
    0 <= i < |calls| && calls[i].Record? && cutoff <= calls[i].recordAt && calls[i].child == child
  }

  /** A recorded failure shows in the last failures, at its own time or a later one. */
  lemma {:induction false} FailureShows(start: Time, calls: seq<Call>, i: nat)
    requires Monotone(start, calls) && i < |calls| && calls[i].Record?
    ensures calls[i].child in LastFailures(calls)
    ensures calls[i].recordAt <= LastFailures(calls)[calls[i].child] <= Now(start, calls)
  {
    var before := calls[..|calls| - 1];
    if i < |calls| - 1 {
      assert before[i] == calls[i];
      FailureShows(start, before, i);
    }
  }

  /** A last failure was recorded. */
  lemma {:induction false} LastIsRecorded(calls: seq<Call>, child: string) returns (i: nat)
    requires child in LastFailures(calls)
    ensures i < |calls| && calls[i].Record?
    ensures calls[i].child == child && calls[i].recordAt == LastFailures(calls)[child]
  {
    i := |calls| - 1;
    if !(calls[i].Record? && calls[i].child == child) {
      i := LastIsRecorded(calls[..|calls| - 1], child);
    }
  }

  /** So a child is among them exactly when some recorded failure of it is not older than the cutoff. */
  lemma {:induction false} FailedSinceMeans(start: Time, calls: seq<Call>, cutoff: Time, child: string)
    requires Monotone(start, calls)
    ensures child in FailedSince(calls, cutoff) <==> exists i :: FailsAt(calls, i, cutoff, child)
  {
    if child in FailedSince(calls, cutoff) {
      var i := LastIsRecorded(calls, child);
      assert FailsAt(calls, i, cutoff, child);
    }
    if i :| FailsAt(calls, i, cutoff, child) {
      FailureShows(start, calls, i);
    }
  }

  /** What the detector keeps is real, and all that has not left the window is kept. */
  ghost predicate Remembers(d: Detector, last: map<string, Time>, now: Time) {
    && (forall c :: c in d.failures ==> c in last && last[c] == d.failures[c])
    && (forall c :: c in last && now - d.window <= last[c] ==> c in d.failures)
    && (forall c :: c in last ==> last[c] <= now)
  }

  lemma {:induction false} RecordRemembers(d: Detector, last: map<string, Time>, now: Time, c: Call)
    requires Remembers(d, last, now) && c.Record? && now <= c.purgeAt <= c.recordAt
    ensures Remembers(Apply(d, c), last[c.child := c.recordAt], c.recordAt)
  {
  }

  lemma {:induction false} RunRemembers(d: Detector, start: Time, calls: seq<Call>)
    requires Monotone(start, calls) && d.failures == map[]
    ensures Run(d, calls).window == d.window && Run(d, calls).threshold == d.threshold
    ensures Remembers(Run(d, calls), LastFailures(calls), Now(start, calls))
  {
    if calls != [] {
      var before, c := calls[..|calls| - 1], calls[|calls| - 1];
      RunRemembers(d, start, before);
      if c.Record? {
        RecordRemembers(Run(d, before), LastFailures(before), Now(start, before), c);
      }
    }
  }

  lemma {:induction false} KeptAre(d: Detector, calls: seq<Call>, now: Time, at: Time, child: string, recordAt: Time,
                                   cutoff: Time)
    requires Remembers(d, LastFailures(calls), now) && now <= at && cutoff == at - d.window
    ensures d.WithFailure(child, at, recordAt).Keys == FailedSince(calls, cutoff) + {child}
  {
  }

  /** The detector's answer is that of the full history. */
  ghost predicate Exact(d: Detector, calls: seq<Call>, child: string, at: Time, recordAt: Time, cutoff: Time,
                        threshold: int) {
    d.Outage(child, at, recordAt) <==> |FailedSince(calls, cutoff) + {child}| >= threshold
  }

  lemma {:induction false} RememberedIsExact(d: Detector, calls: seq<Call>, now: Time, child: string, at: Time,
                                             recordAt: Time, cutoff: Time, threshold: int)
    requires Remembers(d, LastFailures(calls), now) && now <= at && cutoff == at - d.window && threshold == d.threshold
    ensures Exact(d, calls, child, at, recordAt, cutoff, threshold)
  {
    KeptAre(d, calls, now, at, child, recordAt, cutoff);
    assert |d.WithFailure(child, at, recordAt)| == |d.WithFailure(child, at, recordAt).Keys|;
  }

  /** An outage is reported exactly when enough distinct children failed within the window. */
  lemma {:induction false} OutageIffManyFailed(d: Detector, start: Time, calls: seq<Call>, child: string,
                                               purgeAt: Time, recordAt: Time)
    requires Monotone(start, calls) && d.failures == map[] && Now(start, calls) <= purgeAt
    ensures Exact(Run(d, calls), calls, child, purgeAt, recordAt, purgeAt - d.window, d.threshold)
  {
    RunRemembers(d, start, calls);
    RememberedIsExact(Run(d, calls), calls, Now(start, calls), child, purgeAt, recordAt,
                      purgeAt - d.window, d.threshold);
  }

  lemma {:induction false} OnlyThisOne(calls: seq<Call>, child: string)
    requires forall i :: 0 <= i < |calls| && calls[i].Record? ==> calls[i].child == child
    ensures forall c :: c in LastFailures(calls) ==> c == child
  {
    if calls != [] {
      OnlyThisOne(calls[..|calls| - 1], child);
    }
  }

  lemma {:induction false} OneIsNotTwo(d: Detector, last: map<string, Time>, now: Time, child: string, at: Time,
                                       recordAt: Time)
    requires Remembers(d, last, now) && d.threshold >= 2 && forall c :: c in last ==> c == child
    ensures !d.Outage(child, at, recordAt)
  {
    assert d.WithFailure(child, at, recordAt) == map[child := recordAt];
    assert |map[child := recordAt]| == 1;
  }

  /** A single child that keeps crashing is never taken for an outage. */
  lemma {:induction false} OneChildIsNoOutage(d: Detector, start: Time, calls: seq<Call>, child: string, purgeAt: Time,
                                              recordAt: Time)
    requires Monotone(start, calls) && d.failures == map[] && d.threshold >= 2
    requires forall i :: 0 <= i < |calls| && calls[i].Record? ==> calls[i].child == child
    ensures !Run(d, calls).Outage(child, purgeAt, recordAt)
  {
    RunRemembers(d, start, calls);
    OnlyThisOne(calls, child);
    OneIsNotTwo(Run(d, calls), LastFailures(calls), Now(start, calls), child, purgeAt, recordAt);
  }

  // The backoff

  function Pow2(n: nat): real {
    if n == 0 then 1.0 else 2.0 * Pow2(n - 1)
  }

  function EscalatedTimes(d: Detector, n: nat): Detector {
    if n == 0 then d else EscalatedTimes(d, n - 1).Escalated()
  }

  /** Escalations without a reset in between double the backoff up to the cap, and change nothing else. */
  lemma {:induction false} EscalationsDouble(d: Detector, n: nat)
    requires 0.0 <= d.backoff <= d.maxBackoff
    ensures EscalatedTimes(d, n) == d.(backoff := EscalatedTimes(d, n).backoff)
    ensures EscalatedTimes(d, n).backoff
            == if d.backoff * Pow2(n) < d.maxBackoff then d.backoff * Pow2(n) else d.maxBackoff
  {
    if n > 0 {
      EscalationsDouble(d, n - 1);
      DoubledGrows(d.backoff, n);
    }
  }

  lemma {:induction false} DoubledGrows(b: real, n: nat)
    requires 0.0 <= b && n > 0
    ensures b * Pow2(n) == b * Pow2(n - 1) * 2.0 && b * Pow2(n - 1) >= 0.0
  {
    PowPositive(n - 1);
    assert b * (2.0 * Pow2(n - 1)) == b * Pow2(n - 1) * 2.0;
  }

  lemma {:induction false} PowPositive(n: nat)
    ensures Pow2(n) >= 1.0
  {
    if n > 0 {
      PowPositive(n - 1);
    }
  }
}
