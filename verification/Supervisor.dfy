/**
 * A supervisor's reaction to a failed child (src/vcompany/supervisor/supervisor.py): the outage gate,
 * the restart policy, the restart budget and the three restart strategies.
 */
module Supervisor {
  import opened Windows
  import opened Options
  import RestartTracking
  import BulkFailure
  import Lifecycle

  datatype Strategy = OneForOne | AllForOne | RestForOne

  datatype Policy = Permanent | Temporary | Transient

  datatype Spec = Spec(id: string, policy: Policy)

  /** What is done to a child. */
  datatype Action = StopChild(id: string) | StartChild(id: string)

  /** An action together with whether child callbacks were suppressed while it ran. */
  datatype Entry = Entry(action: Action, suppressed: bool)

  type Children = map<string, Lifecycle.State>

  predicate Alive(children: Children, id: string) {
    id in children && children[id] !in {Lifecycle.Stopped, Lifecycle.Destroyed, Lifecycle.Stopping}
  }

  /** The stop of a child, if it is live. */
  function StopOf(children: Children, id: string): seq<Action> {
    if Alive(children, id) then [StopChild(id)] else []
  }

  /** Stops for the live children among the specs, last spec first. */
  function Stops(specs: seq<Spec>, children: Children): seq<Action> {
    if specs == [] then []
    else Stops(specs[1..], children) + StopOf(children, specs[0].id)
  }

  /** Starts for all the specs, in spec order. */
  function Starts(specs: seq<Spec>): (r: seq<Action>)
    ensures |r| == |specs| && forall i :: 0 <= i < |r| ==> r[i] == StartChild(specs[i].id)
  {
    seq(|specs|, i requires 0 <= i < |specs| => StartChild(specs[i].id))
  }

  /** The part of a plan that is carried out when the first faulty action raises. */
  function UpToFault(plan: seq<Action>, faulty: set<Action>): seq<Action> {
    if plan == [] then []
    else if plan[0] in faulty then [plan[0]]
    else [plan[0]] + UpToFault(plan[1..], faulty)
  }

  predicate Clean(plan: seq<Action>, faulty: set<Action>) {
    forall i :: 0 <= i < |plan| ==> plan[i] !in faulty
  }

  function Tagged(actions: seq<Action>, suppressed: bool): (r: seq<Entry>)
    ensures |r| == |actions| && forall i :: 0 <= i < |r| ==> r[i] == Entry(actions[i], suppressed)
  {
    seq(|actions|, i requires 0 <= i < |actions| => Entry(actions[i], suppressed))
  }

  ghost function Ids(specs: seq<Spec>): set<string> {
    set i | 0 <= i < |specs| :: specs[i].id
  }

  ghost predicate DistinctIds(specs: seq<Spec>) {
    forall i, j :: 0 <= i < j < |specs| ==> specs[i].id != specs[j].id
  }

  /** The first spec with this id, or the number of specs. */
  function Find(specs: seq<Spec>, id: string, from: nat := 0): (k: nat)
    requires from <= |specs|
    ensures from <= k <= |specs|
    ensures forall i :: from <= i < k ==> specs[i].id != id
    ensures k < |specs| ==> specs[k].id == id
    decreases |specs| - from
  {
    if from < |specs| && specs[from].id != id then Find(specs, id, from + 1) else from
  }

  lemma {:induction false} CleanFirst(a: Action, rest: seq<Action>, faulty: set<Action>)
    ensures Clean([a] + rest, faulty) <==> a !in faulty && Clean(rest, faulty)
  {
    var plan := [a] + rest;
    assert plan[0] == a && forall i :: 0 <= i < |rest| ==> plan[i + 1] == rest[i];
  }

  lemma {:induction false} UpToFaultFirst(a: Action, rest: seq<Action>, faulty: set<Action>)
    ensures UpToFault([a] + rest, faulty) == if a in faulty then [a] else [a] + UpToFault(rest, faulty)
  {
    assert ([a] + rest)[1..] == rest;
  }

  /** A plan in two parts is carried out part by part. */
  ghost predicate InParts(a: seq<Action>, b: seq<Action>, faulty: set<Action>) {
    UpToFault(a + b, faulty) == if Clean(a, faulty) then a + UpToFault(b, faulty) else UpToFault(a, faulty)
  }

  lemma {:induction false} Associative(a: seq<Action>, b: seq<Action>, c: seq<Action>)
    ensures (a + b) + c == a + (b + c)
  {
  }

  lemma {:induction false} PartsFirst(first: Action, rest: seq<Action>, b: seq<Action>, faulty: set<Action>)
    requires InParts(rest, b, faulty)
    ensures InParts([first] + rest, b, faulty)
  {
    CleanFirst(first, rest, faulty);
    UpToFaultFirst(first, rest, faulty);
    UpToFaultFirst(first, rest + b, faulty);
    Associative([first], rest, b);
    Associative([first], rest, UpToFault(b, faulty));
  }

  lemma {:induction false} PartsOf(a: seq<Action>, b: seq<Action>, faulty: set<Action>)
    ensures InParts(a, b, faulty)
  {
    if a == [] {
      assert a + b == b && a + UpToFault(b, faulty) == UpToFault(b, faulty);
    } else {
      PartsOf(a[1..], b, faulty);
      PartsFirst(a[0], a[1..], b, faulty);
      assert a == [a[0]] + a[1..];
    }
  }

  lemma {:induction false} UpToFaultConcat(a: seq<Action>, b: seq<Action>, faulty: set<Action>)
    ensures UpToFault(a + b, faulty) == if Clean(a, faulty) then a + UpToFault(b, faulty) else UpToFault(a, faulty)
  {
    PartsOf(a, b, faulty);
  }

  lemma {:induction false} UpToFaultClean(plan: seq<Action>, faulty: set<Action>)
    requires Clean(plan, faulty)
    ensures UpToFault(plan, faulty) == plan
  {
    UpToFaultConcat(plan, [], faulty);
    assert plan + [] == plan;
  }

  /** The live children of the specs, in spec order. */
  function LiveIds(specs: seq<Spec>, children: Children): seq<string> {
    if specs == [] then []
    else (if Alive(children, specs[0].id) then [specs[0].id] else []) + LiveIds(specs[1..], children)
  }

  /** The stops of a restart are exactly its live children, in reverse spec order. */
  lemma {:induction false} StopsReverseLive(specs: seq<Spec>, children: Children)
    ensures |Stops(specs, children)| == |LiveIds(specs, children)|
    ensures forall i :: 0 <= i < |Stops(specs, children)| ==>
              Stops(specs, children)[i] == StopChild(LiveIds(specs, children)[|LiveIds(specs, children)| - 1 - i])
  {
    if specs != [] {
      StopsReverseLive(specs[1..], children);
    }
  }

  lemma {:induction false} StopsPrefix(specs: seq<Spec>, i: nat, children: Children)
    requires i <= |specs|
    ensures Stops(specs[i..], children) <= Stops(specs, children)
  {
    if i > 0 {
      StopsPrefix(specs[1..], i - 1, children);
      assert specs[1..][i - 1..] == specs[i..];
    }
  }

  /** A plan is carried out up to and including its first faulty action. */
  lemma {:induction false} FaultAt(plan: seq<Action>, k: nat, faulty: set<Action>)
    requires k < |plan| && plan[k] in faulty && forall i :: 0 <= i < k ==> plan[i] !in faulty
    ensures UpToFault(plan, faulty) == plan[..k + 1]
    ensures !Clean(plan, faulty)
  {
    if k > 0 {
      FaultAt(plan[1..], k - 1, faulty);
    }
  }

  lemma {:induction false} StopsStep(specs: seq<Spec>, i: nat, children: Children)
    requires i < |specs|
    ensures Stops(specs[i..], children)
            == Stops(specs[i + 1..], children) + StopOf(children, specs[i].id)
  {
    assert specs[i..][1..] == specs[i + 1..];
  }

  /** A stop that raises is the last action of the plan that happens. */
  lemma {:induction false} StopFaults(specs: seq<Spec>, i: nat, children: Children, faulty: set<Action>)
    requires i < |specs| && Alive(children, specs[i].id) && StopChild(specs[i].id) in faulty
    requires Clean(Stops(specs[i + 1..], children), faulty)
    ensures UpToFault(Stops(specs, children), faulty) == Stops(specs[i..], children)
    ensures !Clean(Stops(specs, children), faulty)
  {
    var plan, done := Stops(specs, children), Stops(specs[i + 1..], children);
    StopsStep(specs, i, children);
    StopsPrefix(specs, i, children);
    assert Stops(specs[i..], children) == plan[..|done| + 1];
    assert forall j :: 0 <= j < |done| ==> plan[j] == done[j];
    FaultAt(plan, |done|, faulty);
  }

  lemma {:induction false} StartsStep(specs: seq<Spec>, i: nat)
    requires i < |specs|
    ensures Starts(specs[..i + 1]) == Starts(specs[..i]) + [StartChild(specs[i].id)]
  {
  }

  /** A start that raises is the last action of the plan that happens. */
  lemma {:induction false} StartFaults(specs: seq<Spec>, i: nat, faulty: set<Action>)
    requires i < |specs| && StartChild(specs[i].id) in faulty && Clean(Starts(specs[..i]), faulty)
    ensures UpToFault(Starts(specs), faulty) == Starts(specs[..i + 1])
    ensures !Clean(Starts(specs), faulty)
  {
    var plan, done := Starts(specs), Starts(specs[..i]);
    assert forall j :: 0 <= j < i ==> plan[j] == done[j];
    FaultAt(plan, i, faulty);
  }

  lemma {:induction false} StopsSingle(s: Spec, children: Children)
    ensures Stops([s], children) == if Alive(children, s.id) then [StopChild(s.id)] else []
  {
    assert [s][1..] == [];
  }

  lemma {:induction false} TraceSnoc(before: seq<Entry>, actions: seq<Action>, a: Action, suppressed: bool)
    ensures before + Tagged(actions, suppressed) + [Entry(a, suppressed)] == before + Tagged(actions + [a], suppressed)
  {
  }

  /** What a restart of these specs does, faults apart: all stops, then all starts. */
  function RestartPlan(specs: seq<Spec>, children: Children): seq<Action> {
    Stops(specs, children) + Starts(specs)
  }

  /** The specs a strategy restarts when the child at position `k` failed. */
  function Affected(strategy: Strategy, specs: seq<Spec>, k: nat): seq<Spec>
    requires k < |specs|
  {
    match strategy
    case OneForOne => [specs[k]]
    case AllForOne => specs
    case RestForOne => specs[k..]
  }

  // The gate in front of every restart

  datatype Verdict = Suppressed | Outage | Ignored | Granted | Escalated

  /** The clock readings of one failure: the detector's two, then the budget's two. */
  datatype Readings = Readings(detectorPurge: Time, detectorRecord: Time, purge: Time, record: Time)

  /** The state that decides about restarts; `notices` are outage alerts being delivered, `timers` pending resets. */
  datatype Gate = Gate(detector: Option<BulkFailure.Detector>, budget: RestartTracking.Budget,
                       notices: nat, timers: nat)
  {
    predicate InBackoff() {
      detector.Some? && detector.value.inBackoff
    }

    predicate SeesOutage(id: string, r: Readings) {
      detector.Some? && detector.value.Outage(id, r.detectorPurge, r.detectorRecord)
    }

    function Decide(id: string, restartable: bool, r: Readings): Verdict {
      if InBackoff() then Suppressed
      else if SeesOutage(id, r) then Outage
      else if !restartable then Ignored
      else if budget.Grants(r.purge) then Granted
      else Escalated
    }

    function Failed(id: string, restartable: bool, r: Readings): Gate {
      var v := Decide(id, restartable, r);
      Gate(if v.Suppressed? || detector.None? then detector
           else Some(detector.value.Recorded(id, r.detectorPurge, r.detectorRecord)),
           if v.Granted? || v.Escalated? then budget.Asked(r.purge, r.record) else budget,
           if v.Outage? then notices + 1 else notices,
           timers)
    }

    /** The alert has been delivered and the reset timer is set; or delivering it raised and no timer is set. */
    function Notified(raised: bool): Gate {
      if notices == 0 then this
      else this.(notices := notices - 1, timers := if raised then timers else timers + 1)
    }

    /** The timer doubles the backoff and then resets it. */
    function Expired(): Gate {
      if timers == 0 || detector.None? then this
      else this.(timers := timers - 1, detector := Some(detector.value.Escalated().Reset()))
    }
  }

  /** Whether the policy lets this child be restarted in its present state. */
  predicate Restartable(specs: seq<Spec>, children: Children, id: string) {
    var k := Find(specs, id);
    && k < |specs|
    && id in children
    && !specs[k].policy.Temporary?
    && (specs[k].policy.Transient? ==> children[id] == Lifecycle.Errored)
  }

  /** What the policy of a child makes of a failure outside an outage, when the budget would grant a restart or not. */
  ghost predicate FollowsPolicy(specs: seq<Spec>, children: Children, failed: string, grants: bool, verdict: Verdict) {
    && (forall k :: 0 <= k < |specs| && specs[k].id == failed && failed in children ==>
          match specs[k].policy
          case Permanent => verdict == (if grants then Granted else Escalated)
          case Transient =>
            verdict == (if children[failed] != Lifecycle.Errored then Ignored
                        else if grants then Granted else Escalated)
          case Temporary => verdict == Ignored)
    && (failed !in children || (forall k :: 0 <= k < |specs| ==> specs[k].id != failed) ==> verdict == Ignored)
  }

  /** Backoff first, then an outage, then the policy. */
  ghost predicate Judged(g: Gate, specs: seq<Spec>, children: Children, failed: string, r: Readings, verdict: Verdict) {
    if g.detector.Some? && g.detector.value.inBackoff then verdict == Suppressed
    else if g.detector.Some? && g.detector.value.Outage(failed, r.detectorPurge, r.detectorRecord)
    then verdict == Outage
    else FollowsPolicy(specs, children, failed, g.budget.Grants(r.purge), verdict)
  }

  /**
   * In backoff every failure is suppressed; else one that completes an outage is an outage; else the policy decides:
   * a permanent child is restarted within the budget and otherwise escalates, a transient one when it is errored, a
   * temporary, unlisted or absent one never.
   */
  lemma {:induction false} PolicyDecides(g: Gate, specs: seq<Spec>, children: Children, failed: string, r: Readings)
    requires DistinctIds(specs)
    ensures Judged(g, specs, children, failed, r, g.Decide(failed, Restartable(specs, children, failed), r))
  {
    var k := Find(specs, failed);
    assert forall i :: 0 <= i < |specs| && specs[i].id == failed ==> i == k;
  }

  lemma {:induction false} AffectedAt(strategy: Strategy, specs: seq<Spec>, k: nat, from: nat)
    requires k < |specs| && from == if strategy.AllForOne? then 0 else k
    ensures var affected := Affected(strategy, specs, k);
            && |affected| == (if strategy.OneForOne? then 1 else |specs| - from)
            && forall i :: 0 <= i < |affected| ==> affected[i] == specs[from + i]
  {
  }

  /** One for one restarts the failed child only, all for one everything, rest for one what is not before it. */
  lemma {:induction false} AffectedMeans(strategy: Strategy, specs: seq<Spec>, k: nat, i: nat)
    requires DistinctIds(specs) && k < |specs| && i < |specs|
    ensures specs[i] in Affected(strategy, specs, k)
            <==> strategy.AllForOne? || (strategy.OneForOne? && i == k) || (strategy.RestForOne? && i >= k)
  {
    var affected, from := Affected(strategy, specs, k), if strategy.AllForOne? then 0 else k;
    AffectedAt(strategy, specs, k, from);
    if from <= i < from + |affected| {
      assert affected[i - from] == specs[i];
    }
  }

  /** And they are restarted in the order of the specs. */
  lemma {:induction false} AffectedInOrder(strategy: Strategy, specs: seq<Spec>, k: nat, i: nat, j: nat)
    requires DistinctIds(specs) && k < |specs| && i < |specs| && j < |specs|
    requires var affected := Affected(strategy, specs, k);
             exists a, b :: 0 <= a < b < |affected| && affected[a] == specs[i] && affected[b] == specs[j]
    ensures i < j
  {
    AffectedAt(strategy, specs, k, if strategy.AllForOne? then 0 else k);
  }

  /** A child is stopped before a restart unless it is stopped, destroyed or stopping already. */
  lemma {:induction false} AliveMeans(children: Children, id: string)
    ensures Alive(children, id) <==>
            && id in children
            && match children[id]
               case Creating => true
               case Running => true
               case Sleeping => true
               case Blocked => true
               case Errored => true
               case Stopping => false
               case Stopped => false
               case Destroyed => false
  {
  }

  function StoppedUnless(faulty: set<Action>, children: Children, id: string): Children {
    if Alive(children, id) && StopChild(id) !in faulty then children[id := Lifecycle.Stopped] else children
  }

  /** The specs from position `i` on have been given up; the ones before it are as they were. */
  ghost predicate GivenUp(specs: seq<Spec>, before: Children, children: Children, done: seq<Action>,
                          faulty: set<Action>, i: nat)
    requires i <= |specs|
  {
    && done == Stops(specs[i..], before)
    && children.Keys == before.Keys
    && (forall j :: i <= j < |specs| && StopChild(specs[j].id) !in faulty ==> !Alive(children, specs[j].id))
    && (forall j :: 0 <= j < i ==> Alive(children, specs[j].id) == Alive(before, specs[j].id))
  }

  lemma {:induction false} GiveUpOne(specs: seq<Spec>, before: Children, children: Children, done: seq<Action>,
                                     faulty: set<Action>, i: nat)
    requires i < |specs| && DistinctIds(specs) && GivenUp(specs, before, children, done, faulty, i + 1)
    ensures StopOf(children, specs[i].id) == StopOf(before, specs[i].id)
    ensures var id := specs[i].id;
            GivenUp(specs, before, StoppedUnless(faulty, children, id), done + StopOf(before, id), faulty, i)
  {
    StopsStep(specs, i, before);
  }

  function StoppedIfLive(children: Children, id: string): Children {
    if Alive(children, id) then children[id := Lifecycle.Stopped] else children
  }

  /** The specs from position `i` on are stopped and without a monitor; the ones before it are as live as they were. */
  ghost predicate StoppedFrom(specs: seq<Spec>, before: Children, children: Children, tasks: set<string>, i: nat)
    requires i <= |specs|
  {
    && (forall j :: i <= j < |specs| ==> !Alive(children, specs[j].id) && specs[j].id !in tasks)
    && (forall j :: 0 <= j < i ==> Alive(children, specs[j].id) == Alive(before, specs[j].id))
  }

  lemma {:induction false} StopAt(specs: seq<Spec>, before: Children, children: Children, tasks: set<string>, i: nat)
    requires i < |specs| && DistinctIds(specs) && StoppedFrom(specs, before, children, tasks, i + 1)
    ensures StopOf(children, specs[i].id) == StopOf(before, specs[i].id)
    ensures StoppedFrom(specs, before, StoppedIfLive(children, specs[i].id), tasks - {specs[i].id}, i)
  {
  }

  /** The stopping loop has come to position `i`, with these stops done. */
  ghost predicate StopLoop(specs: seq<Spec>, before: Children, children: Children, tasks: set<string>,
                           done: seq<Action>, faulty: set<Action>, i: nat)
    requires i <= |specs|
  {
    && StoppedFrom(specs, before, children, tasks, i)
    && done == Stops(specs[i..], before) && Clean(done, faulty)
  }

  lemma {:induction false} StopLoopStep(specs: seq<Spec>, before: Children, children: Children, tasks: set<string>,
                                        done: seq<Action>, faulty: set<Action>, i: nat)
    requires i < |specs| && DistinctIds(specs) && StopLoop(specs, before, children, tasks, done, faulty, i + 1)
    ensures var id := specs[i].id;
            var more := done + StopOf(before, id);
            && StopOf(children, id) == StopOf(before, id)
            && (if Alive(children, id) && StopChild(id) in faulty
                then more == UpToFault(Stops(specs, before), faulty) && !Clean(Stops(specs, before), faulty)
                else StopLoop(specs, before, StoppedIfLive(children, id), tasks - {id}, more, faulty, i))
  {
    StopsStep(specs, i, before);
    StopAt(specs, before, children, tasks, i);
    if Alive(children, specs[i].id) && StopChild(specs[i].id) in faulty {
      StopFaults(specs, i, before, faulty);
    }
  }

  lemma {:induction false} SingleId(s: Spec)
    ensures Ids([s]) == {s.id}
  {
    assert [s][0] == s;
  }

  /** Changes to a member of the set do not show outside it. */
  lemma {:induction false} ChangeInside(children: Children, tasks: set<string>, ids: set<string>, id: string)
    requires id in ids
    ensures children[id := Lifecycle.Stopped] - ids == children - ids == children[id := Lifecycle.Running] - ids
    ensures (tasks - {id}) - ids == tasks - ids == (tasks + {id}) - ids
  {
  }

  class Supervisor {
    const strategy: Strategy
    const tracker: RestartTracking.RestartTracker
    const detector: BulkFailure.BulkFailureDetector?
    var specs: seq<Spec>
    var children: Children
    var tasks: set<string>
    var restarting: bool
    var running: bool
    var trace: seq<Entry>
    var notices: nat
    var timers: nat

    ghost function State(): Gate
      reads this, tracker, detector
    {
      Gate(if detector == null then None else Some(detector.State()), tracker.State(), notices, timers)
    }

    /** Outage detection needs at least two children. */
    constructor (strategy: Strategy, specs: seq<Spec>, maxRestarts: int, window: Time)
      ensures this.strategy == strategy && this.specs == specs
      ensures children == map[] && tasks == {} && !restarting && !running && trace == []
      ensures fresh(tracker) && (detector != null ==> fresh(detector))
      ensures State() == Gate(if |specs| < 2 then None
                              else Some(BulkFailure.Fresh(30.0, BulkFailure.Threshold(|specs|, 0.5), 120.0, 600.0)),
                              RestartTracking.Fresh(maxRestarts, window), 0, 0)
    {
      this.strategy, this.specs := strategy, specs;
      tracker := new RestartTracking.RestartTracker(maxRestarts, window);
      if |specs| >= 2 {
        detector := new BulkFailure.BulkFailureDetector(|specs|, 30.0, 0.5, 120.0, 600.0);
      } else {
        detector := null;
      }
      children, tasks, restarting, running, trace := map[], {}, false, false, [];
      notices, timers := 0, 0;
    }

    /** The child runs under a monitor. */
    predicate Up(id: string)
      reads this
    {
      id in children && children[id] == Lifecycle.Running && id in tasks
    }

    predicate AllUp(affected: seq<Spec>)
      reads this
    {
      forall i :: 0 <= i < |affected| ==> Up(affected[i].id)
    }

    /** Children and monitors outside these ids are as they were. */
    twostate predicate OnlyChanged(ids: set<string>)
      reads this
    {
      children - ids == old(children) - ids && tasks - ids == old(tasks) - ids
    }

    /** Stops the child if it is live, then cancels its monitor; a raising stop leaves both as they are. */
    method StopOne(id: string, faulty: set<Action>) returns (ok: bool)
      modifies this`children, this`tasks, this`trace
      ensures ok == !(Alive(old(children), id) && StopChild(id) in faulty)
      ensures trace == old(trace) + Tagged(StopOf(old(children), id), restarting)
      ensures children == if ok then StoppedIfLive(old(children), id) else old(children)
      ensures tasks == if ok then old(tasks) - {id} else old(tasks)
    {
      if Alive(children, id) {
        trace := trace + [Entry(StopChild(id), restarting)];
        if StopChild(id) in faulty {
          return false;
        }
        children := children[id := Lifecycle.Stopped];
      }
      tasks := tasks - {id};
      ok := true;
    }

    /** The stopping loop of a restart: reverse order, monitors cancelled, a raising stop ends it. */
    method StopAll(suffix: seq<Spec>, faulty: set<Action>) returns (ok: bool)
      requires DistinctIds(suffix)
      modifies this`children, this`tasks, this`trace
      ensures trace == old(trace) + Tagged(UpToFault(Stops(suffix, old(children)), faulty), restarting)
      ensures ok == Clean(Stops(suffix, old(children)), faulty)
      ensures OnlyChanged(Ids(suffix))
      ensures ok ==> forall i :: 0 <= i < |suffix| ==> !Alive(children, suffix[i].id) && suffix[i].id !in tasks
    {
      var i := |suffix|;
      ghost var done: seq<Action> := [];
      assert suffix[i..] == [] && trace == old(trace) + Tagged([], restarting);
      while i > 0
        invariant 0 <= i <= |suffix|
        invariant StopLoop(suffix, old(children), children, tasks, done, faulty, i)
        invariant trace == old(trace) + Tagged(done, restarting) && OnlyChanged(Ids(suffix))
      {
        i := i - 1;
        var id := suffix[i].id;
        assert id in Ids(suffix);
        TraceConcat(old(trace), done, StopOf(old(children), id), restarting);
        ChangeInside(children, tasks, Ids(suffix), id);
        StopLoopStep(suffix, old(children), children, tasks, done, faulty, i);
        var stopped := StopOne(id, faulty);
        done := done + StopOf(old(children), id);
        if !stopped {
          return false;
        }
      }
      assert suffix[0..] == suffix;
      UpToFaultClean(Stops(suffix, old(children)), faulty);
      ok := true;
    }

    /** Starts one child under a monitor; a raising start leaves both as they are. */
    method StartOne(id: string, faulty: set<Action>) returns (ok: bool)
      modifies this`children, this`tasks, this`trace
      ensures ok == (StartChild(id) !in faulty)
      ensures trace == old(trace) + [Entry(StartChild(id), restarting)]
      ensures children == if ok then old(children)[id := Lifecycle.Running] else old(children)
      ensures tasks == if ok then old(tasks) + {id} else old(tasks)
    {
      trace := trace + [Entry(StartChild(id), restarting)];
      if StartChild(id) in faulty {
        return false;
      }
      children := children[id := Lifecycle.Running];
      tasks := tasks + {id};
      return true;
    }

    /** The starting loop of a restart: spec order, a raising start ends it. */
    method StartAll(suffix: seq<Spec>, faulty: set<Action>) returns (ok: bool)
      modifies this`children, this`tasks, this`trace
      ensures trace == old(trace) + Tagged(UpToFault(Starts(suffix), faulty), restarting)
      ensures ok == Clean(Starts(suffix), faulty)
      ensures OnlyChanged(Ids(suffix)) && (ok ==> AllUp(suffix))
    {
      var i := 0;
      assert suffix[..0] == [] && Starts([]) == [];
      while i < |suffix|
        invariant 0 <= i <= |suffix|
        invariant trace == old(trace) + Tagged(Starts(suffix[..i]), restarting)
        invariant Clean(Starts(suffix[..i]), faulty)
        invariant OnlyChanged(Ids(suffix)) && forall j :: 0 <= j < i ==> Up(suffix[j].id)
      {
        var id := suffix[i].id;
        assert id in Ids(suffix);
        StartsStep(suffix, i);
        TraceSnoc(old(trace), Starts(suffix[..i]), StartChild(id), restarting);
        ChangeInside(children, tasks, Ids(suffix), id);
        var started := StartOne(id, faulty);
        if !started {
          StartFaults(suffix, i, faulty);
          return false;
        }
        i := i + 1;
      }
      assert suffix[..i] == suffix;
      UpToFaultClean(Starts(suffix), faulty);
      ok := true;
    }

    /** Stops, then starts, with child callbacks suppressed throughout and no longer afterwards. */
    method RestartSuffix(suffix: seq<Spec>, faulty: set<Action>) returns (ok: bool)
      requires DistinctIds(suffix)
      modifies this`children, this`tasks, this`trace, this`restarting
      ensures trace == old(trace) + Tagged(UpToFault(RestartPlan(suffix, old(children)), faulty), true)
      ensures ok == Clean(RestartPlan(suffix, old(children)), faulty)
      ensures !restarting
      ensures OnlyChanged(Ids(suffix)) && (ok ==> AllUp(suffix))
    {
      PlanTrace(trace, Stops(suffix, children), Starts(suffix), faulty, true);
      restarting := true;
      ok := StopAll(suffix, faulty);
      if ok {
        ok := StartAll(suffix, faulty);
      }
      restarting := false;
    }

    method RestartAll(faulty: set<Action>) returns (ok: bool)
      requires DistinctIds(specs)
      modifies this`children, this`tasks, this`trace, this`restarting
      ensures trace == old(trace) + Tagged(UpToFault(RestartPlan(specs, old(children)), faulty), true)
      ensures ok == Clean(RestartPlan(specs, old(children)), faulty)
      ensures !restarting && OnlyChanged(Ids(specs)) && (ok ==> AllUp(specs))
    {
      ok := RestartSuffix(specs, faulty);
    }

    /** Restarts the failed child and everything after it; the children before it are untouched. */
    method RestartRest(failed: string, faulty: set<Action>) returns (ok: bool)
      requires DistinctIds(specs)
      modifies this`children, this`tasks, this`trace, this`restarting
      ensures var k := Find(specs, failed);
              && trace == old(trace) + (if k == |specs| then []
                                        else Tagged(UpToFault(RestartPlan(specs[k..], old(children)), faulty), true))
              && ok == (k < |specs| ==> Clean(RestartPlan(specs[k..], old(children)), faulty))
              && OnlyChanged(Ids(specs[k..])) && (ok ==> AllUp(specs[k..]))
      ensures Find(specs, failed) < |specs| ==> !restarting
    {
      var k := 0;
      while k < |specs| && specs[k].id != failed
        invariant k <= |specs| && Find(specs, failed, k) == Find(specs, failed)
      {
        k := k + 1;
      }
      if k == |specs| {
        return true;
      }
      ok := RestartSuffix(specs[k..], faulty);
    }

    /** Restarts the failed child alone, callbacks not suppressed. */
    method RestartOne(failed: string, faulty: set<Action>) returns (ok: bool)
      requires Find(specs, failed) < |specs|
      modifies this`children, this`tasks, this`trace
      ensures var plan := RestartPlan([specs[Find(specs, failed)]], old(children));
              && trace == old(trace) + Tagged(UpToFault(plan, faulty), restarting)
              && ok == Clean(plan, faulty)
      ensures OnlyChanged({failed}) && (ok ==> Up(failed))
    {
      var one := [specs[Find(specs, failed)]];
      assert one[0].id == failed;
      SingleId(one[0]);
      PlanTrace(trace, Stops(one, children), Starts(one), faulty, restarting);
      ok := StopLive(one[0], faulty);
      if ok {
        ok := StartAll(one, faulty);
        assert ok ==> Up(one[0].id);
      }
    }

    /** Stops one child if it is live. */
    method StopLive(s: Spec, faulty: set<Action>) returns (ok: bool)
      modifies this`children, this`trace
      ensures trace == old(trace) + Tagged(UpToFault(Stops([s], old(children)), faulty), restarting)
      ensures ok == Clean(Stops([s], old(children)), faulty)
      ensures children == if ok then StoppedIfLive(old(children), s.id) else old(children)
    {
      StopsSingle(s, children);
      if !Alive(children, s.id) {
        return true;
      }
      assert UpToFault([StopChild(s.id)], faulty) == [StopChild(s.id)];
      trace := trace + [Entry(StopChild(s.id), restarting)];
      if StopChild(s.id) in faulty {
        assert [StopChild(s.id)][0] in faulty;
        return false;
      }
      children := children[s.id := Lifecycle.Stopped];
      return true;
    }

    /** Stops the child if it is live; a raising stop is logged and leaves it as it is. */
    method StopQuietly(id: string, faulty: set<Action>)
      modifies this`children, this`trace
      ensures trace == old(trace) + Tagged(StopOf(old(children), id), restarting)
      ensures children == StoppedUnless(faulty, old(children), id)
    {
      if Alive(children, id) {
        trace := trace + [Entry(StopChild(id), restarting)];
        if StopChild(id) !in faulty {
          children := children[id := Lifecycle.Stopped];
        }
      }
    }

    /** Gives up: stops every live child in reverse order, ignoring errors, cancels all monitors. */
    method Escalate(faulty: set<Action>)
      requires DistinctIds(specs)
      modifies this`children, this`tasks, this`trace, this`restarting, this`running
      ensures trace == old(trace) + Tagged(Stops(specs, old(children)), true)
      ensures tasks == {} && !restarting && !running
      ensures forall id :: id in Ids(specs) && StopChild(id) !in faulty ==> !Alive(children, id)
      ensures children.Keys == old(children).Keys
    {
      restarting := true;
      var i := |specs|;
      ghost var done: seq<Action> := [];
      assert specs[i..] == [] && trace == old(trace) + Tagged([], true);
      while i > 0
        invariant 0 <= i <= |specs| && restarting
        invariant GivenUp(specs, old(children), children, done, faulty, i)
        invariant trace == old(trace) + Tagged(done, true)
      {
        i := i - 1;
        var id := specs[i].id;
        TraceConcat(old(trace), done, StopOf(old(children), id), true);
        GiveUpOne(specs, old(children), children, done, faulty, i);
        StopQuietly(id, faulty);
        done := done + StopOf(old(children), id);
      }
      assert specs[0..] == specs;
      tasks := {};
      restarting := false;
      running := false;
    }

    /** Whether the restart policy lets the child through. */
    method PolicyLets(failed: string) returns (lets: bool)
      ensures lets == Restartable(specs, children, failed)
    {
      var k := Find(specs, failed);
      if k == |specs| || failed !in children || specs[k].policy.Temporary? {
        return false;
      }
      if specs[k].policy.Transient? && children[failed] != Lifecycle.Errored {
        return false;
      }
      return true;
    }

    /** The checks in front of a restart, in order: outage gate, policy, budget. */
    method Judge(failed: string, r: Readings) returns (verdict: Verdict)
      modifies this`notices, tracker, detector
      ensures verdict == old(State()).Decide(failed, Restartable(specs, children, failed), r)
      ensures State() == old(State()).Failed(failed, Restartable(specs, children, failed), r)
    {
      if detector != null {
        if detector.inBackoff {
          return Suppressed;
        }
        var outage := detector.RecordFailure(failed, r.detectorPurge, r.detectorRecord);
        if outage {
          notices := notices + 1;
          return Outage;
        }
      }
      var lets := PolicyLets(failed);
      if !lets {
        return Ignored;
      }
      var allowed := tracker.AllowRestart(r.purge, r.record);
      return if allowed then Granted else Escalated;
    }

    /** Exactly the plan for the specs the strategy affects was carried out; if nothing raised they are up. */
    twostate predicate Dispatched(failed: string, faulty: set<Action>, ok: bool)
      requires Find(specs, failed) < |specs|
      reads this
    {
      var affected := Affected(strategy, specs, Find(specs, failed));
      var plan := RestartPlan(affected, old(children));
      && ok == Clean(plan, faulty)
      && trace == old(trace) + Tagged(UpToFault(plan, faulty), if strategy.OneForOne? then old(restarting) else true)
      && OnlyChanged(Ids(affected)) && (ok ==> AllUp(affected))
    }

    method Dispatch(failed: string, faulty: set<Action>) returns (ok: bool)
      requires DistinctIds(specs) && Find(specs, failed) < |specs|
      modifies this`children, this`tasks, this`trace, this`restarting
      ensures Dispatched(failed, faulty, ok)
    {
      match strategy
      case OneForOne =>
        SingleId(specs[Find(specs, failed)]);
        ok := RestartOne(failed, faulty);
      case AllForOne =>
        ok := RestartAll(faulty);
      case RestForOne =>
        ok := RestartRest(failed, faulty);
    }

    /** The reaction to a failed child: the gate's verdict, and exactly the actions that go with it. */
    method HandleChildFailure(failed: string, r: Readings, faulty: set<Action>) returns (verdict: Verdict, ok: bool)
      requires DistinctIds(specs)
      modifies this, tracker, detector
      ensures verdict == old(State()).Decide(failed, Restartable(specs, old(children), failed), r)
      ensures State() == old(State()).Failed(failed, Restartable(specs, old(children), failed), r)
      ensures specs == old(specs)
      ensures verdict.Granted? ==> Find(specs, failed) < |specs| && Dispatched(failed, faulty, ok)
      ensures verdict.Escalated? ==>
                trace == old(trace) + Tagged(Stops(specs, old(children)), true) && !running && tasks == {}
      ensures Judged(old(State()), specs, old(children), failed, r, verdict)
      ensures verdict in {Suppressed, Outage, Ignored} ==>
                trace == old(trace) && children == old(children) && tasks == old(tasks) && running == old(running)
    {
      ok := true;
      PolicyDecides(State(), specs, children, failed, r);
      verdict := Judge(failed, r);
      if verdict.Granted? {
        ok := Dispatch(failed, faulty);
      } else if verdict.Escalated? {
        Escalate(faulty);
      }
    }

    /** The outage alert was delivered, or its callback raised. */
    method OutageNotified(raised: bool)
      modifies this`notices, this`timers
      ensures State() == old(State()).Notified(raised)
    {
      if notices > 0 {
        notices := notices - 1;
        if !raised {
          timers := timers + 1;
        }
      }
    }

    /** The reset timer fired. */
    method BackoffExpired()
      modifies this`timers, detector
      ensures State() == old(State()).Expired()
    {
      if timers > 0 && detector != null {
        timers := timers - 1;
        detector.EscalateBackoff();
        detector.ResetBackoff();
      }
    }
  }

  lemma {:induction false} TaggedConcat(a: seq<Action>, b: seq<Action>, suppressed: bool)
    ensures Tagged(a + b, suppressed) == Tagged(a, suppressed) + Tagged(b, suppressed)
  {
  }

  lemma {:induction false} CleanConcat(a: seq<Action>, b: seq<Action>, faulty: set<Action>)
    ensures Clean(a + b, faulty) <==> Clean(a, faulty) && Clean(b, faulty)
  {
    assert forall i :: 0 <= i < |a| ==> (a + b)[i] == a[i];
    assert forall i :: 0 <= i < |b| ==> (a + b)[|a| + i] == b[i];
  }

  lemma {:induction false} TraceConcat(before: seq<Entry>, a: seq<Action>, b: seq<Action>, suppressed: bool)
    ensures before + Tagged(a, suppressed) + Tagged(b, suppressed) == before + Tagged(a + b, suppressed)
  {
    TaggedConcat(a, b, suppressed);
  }

  /** The trace of a restart put together from the traces of its two loops. */
  lemma {:induction false} PlanTrace(before: seq<Entry>, stops: seq<Action>, starts: seq<Action>, faulty: set<Action>,
                                     suppressed: bool)
    ensures Clean(stops, faulty) ==>
              before + Tagged(UpToFault(stops, faulty), suppressed) + Tagged(UpToFault(starts, faulty), suppressed)
              == before + Tagged(UpToFault(stops + starts, faulty), suppressed)
    ensures !Clean(stops, faulty) ==> UpToFault(stops + starts, faulty) == UpToFault(stops, faulty)
    ensures Clean(stops + starts, faulty) <==> Clean(stops, faulty) && Clean(starts, faulty)
  {
    UpToFaultConcat(stops, starts, faulty);
    CleanConcat(stops, starts, faulty);
    if Clean(stops, faulty) {
      UpToFaultClean(stops, faulty);
      TraceConcat(before, stops, UpToFault(starts, faulty), suppressed);
    }
  }
}
