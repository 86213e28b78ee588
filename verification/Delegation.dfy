/**
 * Delegated agents and their caps (src/vcompany/autonomy/delegation.py and the delegation part of
 * src/vcompany/supervisor/supervisor.py). Requests are handled one at a time.
 */
module Delegation {
  import opened Windows
  import opened Options

  const HOUR: Time := 3600.0

  datatype Policy = Policy(maxConcurrent: int, maxPerHour: int, allowedTypes: seq<string>)

  datatype Answer = Allowed | NotEnabled | TypeNotAllowed | ConcurrentLimit | HourlyLimit

  /** How many of the readings lie after the cutoff. */
  function CountAfter(history: seq<Time>, cutoff: Time): nat {
    if history == [] then 0
    else CountAfter(history[..|history| - 1], cutoff) + if history[|history| - 1] > cutoff then 1 else 0
  }

  /** The tracker, and the supervisor's map from delegated agents to their requesters. */
  datatype State = State(policy: Policy, active: map<string, set<string>>, history: seq<Time>,
                         delegated: map<string, string>)
  {
    function ActiveOf(requester: string): set<string> {
      if requester in active then active[requester] else {}
    }

    function Check(requester: string, agentType: string, now: Time): Answer {
      if agentType !in policy.allowedTypes then TypeNotAllowed
      else if |ActiveOf(requester)| >= policy.maxConcurrent then ConcurrentLimit
      else if CountAfter(history, now - HOUR) >= policy.maxPerHour then HourlyLimit
      else Allowed
    }

    function Recorded(requester: string, agent: string, at: Time): State {
      this.(active := active[requester := ActiveOf(requester) + {agent}], history := history + [at],
            delegated := delegated[agent := requester])
    }

    /** A delegated agent has ended. */
    function Ended(agent: string): State {
      if agent !in delegated then this
      else
        var requester := delegated[agent];
        this.(delegated := delegated - {agent},
              active := if requester in active then active[requester := active[requester] - {agent}] else active)
    }
  }

  class DelegationTracker {
    const policy: Policy
    var active: map<string, set<string>>
    var history: seq<Time>

    constructor (policy: Policy)
      ensures this.policy == policy && active == map[] && history == []
    {
      this.policy := policy;
      active, history := map[], [];
    }

    method CanDelegate(requester: string, agentType: string, now: Time) returns (answer: Answer)
      ensures answer == State(policy, active, history, map[]).Check(requester, agentType, now)
    {
      if agentType !in policy.allowedTypes {
        return TypeNotAllowed;
      }
      var activeSet := if requester in active then active[requester] else {};
      if |activeSet| >= policy.maxConcurrent {
        return ConcurrentLimit;
      }
      var cutoff := now - HOUR;
      var recent := 0;
      for i := 0 to |history|
        invariant recent == CountAfter(history[..i], cutoff)
      {
        assert history[..i + 1][..i] == history[..i];
        if history[i] > cutoff {
          recent := recent + 1;
        }
      }
      assert history[..|history|] == history;
      return if recent >= policy.maxPerHour then HourlyLimit else Allowed;
    }

    method RecordDelegation(requester: string, agent: string, at: Time)
      modifies this
      ensures history == old(history) + [at]
      ensures var before := if requester in old(active) then old(active)[requester] else {};
              active == old(active)[requester := before + {agent}]
    {
      if requester !in active {
        active := active[requester := {}];
      }
      active := active[requester := active[requester] + {agent}];
      history := history + [at];
    }

    method RecordCompletion(requester: string, agent: string)
      modifies this
      ensures history == old(history)
      ensures active == if requester in old(active)
                        then old(active)[requester := old(active)[requester] - {agent}] else old(active)
    {
      if requester in active {
        active := active[requester := active[requester] - {agent}];
      }
    }
  }

  /** The delegation side of a supervisor; without a policy there is no tracker. */
  class Delegator {
    const tracker: DelegationTracker?
    var delegated: map<string, string>
    var specs: seq<string>

    ghost function View(): State
      requires tracker != null
      reads this, tracker
    {
      State(tracker.policy, tracker.active, tracker.history, delegated)
    }

    constructor (policy: Option<Policy>)
      ensures specs == [] && delegated == map[]
      ensures tracker == null <==> policy.None?
      ensures tracker != null ==> fresh(tracker) && View() == State(policy.value, map[], [], map[])
    {
      if policy.Some? {
        tracker := new DelegationTracker(policy.value);
      } else {
        tracker := null;
      }
      delegated, specs := map[], [];
    }

    /** The new spec is listed before the start is tried; a start that raises leaves nothing else behind. */
    method HandleRequest(requester: string, agentType: string, agent: string, checkAt: Time, starts: bool,
                         recordAt: Time)
      returns (answer: Answer)
      modifies this, tracker
      ensures tracker == null ==> answer.NotEnabled? && delegated == old(delegated)
      ensures tracker != null ==>
                && answer == old(View()).Check(requester, agentType, checkAt)
                && View() == if answer.Allowed? && starts
                             then old(View()).Recorded(requester, agent, recordAt) else old(View())
      ensures specs == old(specs) + if answer.Allowed? then [agent] else []
    {
      if tracker == null {
        return NotEnabled;
      }
      answer := tracker.CanDelegate(requester, agentType, checkAt);
      if !answer.Allowed? {
        return;
      }
      specs := specs + [agent];
      if starts {
        tracker.RecordDelegation(requester, agent, recordAt);
        delegated := delegated[agent := requester];
      }
    }

    /** A child reports that it has stopped or is destroyed. */
    method ChildEnded(child: string)
      modifies this, tracker
      ensures specs == old(specs) && delegated == old(delegated) - {child}
      ensures tracker != null ==> View() == old(View()).Ended(child)
    {
      if child in delegated {
        var requester := delegated[child];
        delegated := delegated - {child};
        if tracker != null {
          tracker.RecordCompletion(requester, child);
        }
      }
    }
  }

  // Runs

  datatype Event =
    | Request(requester: string, agentType: string, agent: string, checkAt: Time, starts: bool, recordAt: Time)
    | Ended(child: string)

  function Step(s: State, e: Event): State {
    match e
    case Request(requester, agentType, agent, checkAt, starts, recordAt) =>
      if s.Check(requester, agentType, checkAt).Allowed? && starts then s.Recorded(requester, agent, recordAt) else s
    case Ended(child) => s.Ended(child)
  }

  function Run(s: State, events: seq<Event>): State {
    if events == [] then s else Step(Run(s, events[..|events| - 1]), events[|events| - 1])
  }

  function Now(start: Time, events: seq<Event>): Time {
    if events == [] then start
    else if events[|events| - 1].Request? then events[|events| - 1].recordAt
    else Now(start, events[..|events| - 1])
  }

  /** The clock does not go back, and the ids of new agents are fresh. */
  predicate Proper(s: State, start: Time, events: seq<Event>) {
    events != [] ==>
      var before, e := events[..|events| - 1], events[|events| - 1];
      && Proper(s, start, before)
      && (e.Request? ==> Now(start, before) <= e.checkAt <= e.recordAt && e.agent !in Run(s, before).delegated)
  }

  function Cap(limit: int): nat {
    if limit < 0 then 0 else limit
  }

  /** The active sets and the delegated children are inverse to each other. */
  ghost predicate Inverse(s: State) {
    && (forall a :: a in s.delegated ==> a in s.ActiveOf(s.delegated[a]))
    && (forall r, a :: r in s.active && a in s.active[r] ==> a in s.delegated && s.delegated[a] == r)
  }

  ghost predicate WithinCaps(s: State) {
    forall r :: r in s.active ==> |s.active[r]| <= Cap(s.policy.maxConcurrent)
  }

  /** Delegations that are `cap` or more apart in order are an hour or more apart in time. */
  ghost predicate HourApart(history: seq<Time>, cap: nat) {
    forall i, j :: 0 <= i && i + cap <= j < |history| ==> history[i] + HOUR <= history[j]
  }

  ghost predicate Paced(s: State, now: Time) {
    && Sorted(s.history)
    && (forall i :: 0 <= i < |s.history| ==> s.history[i] <= now)
    && HourApart(s.history, Cap(s.policy.maxPerHour))
  }

  lemma {:induction false} CountAfterSuffix(history: seq<Time>, k: nat, cutoff: Time)
    requires k <= |history| && forall i :: k <= i < |history| ==> history[i] > cutoff
    ensures CountAfter(history, cutoff) >= |history| - k
  {
    if k < |history| {
      CountAfterSuffix(history[..|history| - 1], k, cutoff);
    }
  }

  lemma {:induction false} RecordPaced(history: seq<Time>, cap: nat, checkAt: Time, recordAt: Time)
    requires Sorted(history) && HourApart(history, cap) && checkAt <= recordAt
    requires forall i :: 0 <= i < |history| ==> history[i] <= recordAt
    requires CountAfter(history, checkAt - HOUR) < cap
    ensures Sorted(history + [recordAt]) && HourApart(history + [recordAt], cap)
  {
    if cap <= |history| {
      var k := |history| - cap;
      if history[k] > checkAt - HOUR {
        CountAfterSuffix(history, k, checkAt - HOUR);
        assert false;
      }
      assert forall i :: 0 <= i <= k ==> history[i] <= history[k];
    }
    var h := history + [recordAt];
    forall i, j | 0 <= i && i + cap <= j < |h|
      ensures h[i] + HOUR <= h[j]
    {
      if j == |history| {
        assert history[i] <= history[|history| - cap];
      }
    }
  }

  lemma {:induction false} RecordKeeps(s: State, requester: string, agent: string, at: Time)
    requires Inverse(s) && WithinCaps(s) && agent !in s.delegated && |s.ActiveOf(requester)| < s.policy.maxConcurrent
    ensures Inverse(s.Recorded(requester, agent, at)) && WithinCaps(s.Recorded(requester, agent, at))
  {
  }

  lemma {:induction false} EndKeeps(s: State, child: string)
    requires Inverse(s) && WithinCaps(s)
    ensures Inverse(s.Ended(child)) && WithinCaps(s.Ended(child))
  {
    if child in s.delegated {
      var r := s.delegated[child];
      assert |s.active[r] - {child}| <= |s.active[r]|;
    }
  }

  /** What every run keeps. */
  ghost predicate Kept(s: State, policy: Policy, now: Time) {
    s.policy == policy && Inverse(s) && WithinCaps(s) && Paced(s, now)
  }

  lemma {:induction false} RequestKeeps(s: State, policy: Policy, now: Time, e: Event)
    requires Kept(s, policy, now) && e.Request? && now <= e.checkAt <= e.recordAt && e.agent !in s.delegated
    ensures Kept(Step(s, e), policy, e.recordAt)
  {
    if s.Check(e.requester, e.agentType, e.checkAt).Allowed? && e.starts {
      RecordKeeps(s, e.requester, e.agent, e.recordAt);
      RecordPaced(s.history, Cap(policy.maxPerHour), e.checkAt, e.recordAt);
    }
  }

  lemma {:induction false} RunKeeps(policy: Policy, start: Time, events: seq<Event>)
    requires Proper(State(policy, map[], [], map[]), start, events)
    ensures Kept(Run(State(policy, map[], [], map[]), events), policy, Now(start, events))
  {
    if events != [] {
      var s0, before, e := State(policy, map[], [], map[]), events[..|events| - 1], events[|events| - 1];
      RunKeeps(policy, start, before);
      if e.Request? {
        RequestKeeps(Run(s0, before), policy, Now(start, before), e);
      } else {
        EndKeeps(Run(s0, before), e.child);
      }
    }
  }

  /**
   * Over any run: nobody has more active delegations than allowed, and the active sets are exactly the inverse of
   * the delegated children.
   */
  lemma {:induction false} ConcurrentCapHolds(policy: Policy, start: Time, events: seq<Event>, requester: string)
    requires Proper(State(policy, map[], [], map[]), start, events)
    ensures var s := Run(State(policy, map[], [], map[]), events);
            && |s.ActiveOf(requester)| <= Cap(policy.maxConcurrent)
            && forall a :: a in s.ActiveOf(requester) <==> a in s.delegated && s.delegated[a] == requester
  {
    RunKeeps(policy, start, events);
  }

  /**
   * Over any run, every half-open hour holds at most the hourly number of delegations, over all requesters
   * together.
   */
  lemma {:induction false} HourlyCapHolds(policy: Policy, start: Time, events: seq<Event>, lo: Time)
    requires Proper(State(policy, map[], [], map[]), start, events)
    ensures var history := Run(State(policy, map[], [], map[]), events).history;
            CountIn(history, LeftOpen(lo, lo + HOUR)) <= Cap(policy.maxPerHour)
  {
    RunKeeps(policy, start, events);
    var history := Run(State(policy, map[], [], map[]), events).history;
    SpacedCount(history, Cap(policy.maxPerHour), LeftOpen(lo, lo + HOUR), |history|);
  }

  lemma {:induction false} CountAfterIsWindow(history: seq<Time>, cutoff: Time, now: Time, n: nat)
    requires n <= |history| && forall i :: 0 <= i < |history| ==> history[i] <= now
    ensures CountAfter(history[..n], cutoff) == CountTo(history, LeftOpen(cutoff, now), n)
  {
    if n > 0 {
      CountAfterIsWindow(history, cutoff, now, n - 1);
      assert history[..n][..n - 1] == history[..n - 1];
    }
  }

  /** Granted exactly when the type is allowed and neither cap is used up by real delegations. */
  ghost predicate GrantsExactly(s: State, requester: string, agentType: string, at: Time) {
    s.Check(requester, agentType, at).Allowed? <==>
      && agentType in s.policy.allowedTypes
      && |set a | a in s.delegated && s.delegated[a] == requester| < s.policy.maxConcurrent
      && CountIn(s.history, LeftOpen(at - HOUR, at)) < s.policy.maxPerHour
  }

  lemma {:induction false} KeptGrants(s: State, policy: Policy, now: Time, requester: string, agentType: string,
                                      at: Time)
    requires Kept(s, policy, now) && now <= at
    ensures GrantsExactly(s, requester, agentType, at)
  {
    assert s.ActiveOf(requester) == set a | a in s.delegated && s.delegated[a] == requester;
    CountAfterIsWindow(s.history, at - HOUR, at, |s.history|);
    assert s.history[..|s.history|] == s.history;
  }

  /** After any run the caps refuse no more than they must. */
  lemma {:induction false} GrantedIffWithinCaps(policy: Policy, start: Time, events: seq<Event>, requester: string,
                                                agentType: string, at: Time)
    requires Proper(State(policy, map[], [], map[]), start, events) && Now(start, events) <= at
    ensures Run(State(policy, map[], [], map[]), events).policy == policy
    ensures GrantsExactly(Run(State(policy, map[], [], map[]), events), requester, agentType, at)
  {
    RunKeeps(policy, start, events);
    KeptGrants(Run(State(policy, map[], [], map[]), events), policy, Now(start, events), requester, agentType, at);
  }

  // The caps over the events

  /** Whether the event, after these ones, is a request that is granted and whose agent starts. */
  predicate Grants(s: State, before: seq<Event>, e: Event) {
    e.Request? && e.starts && Run(s, before).Check(e.requester, e.agentType, e.checkAt).Allowed?
  }

  /** The agents granted to this requester that have not ended since. */
  function InForce(s: State, events: seq<Event>, requester: string): set<string> {
    if events == [] then {}
    else
      var before, e := events[..|events| - 1], events[|events| - 1];
      if e.Ended? then InForce(s, before, requester) - {e.child}
      else if Grants(s, before, e) && e.requester == requester then InForce(s, before, requester) + {e.agent}
      else InForce(s, before, requester)
  }

  /** When each grant was made. */
  function GrantTimes(s: State, events: seq<Event>): seq<Time> {
    if events == [] then []
    else
      var before, e := events[..|events| - 1], events[|events| - 1];
      GrantTimes(s, before) + if Grants(s, before, e) then [e.recordAt] else []
  }

  lemma {:induction false} EndsInForce(s: State, child: string, requester: string)
    requires Inverse(s)
    ensures s.Ended(child).ActiveOf(requester) == s.ActiveOf(requester) - {child}
  {
    if child in s.ActiveOf(requester) {
      assert s.delegated[child] == requester;
    }
  }

  /** The tracker's sets and history are what the events say. */
  lemma {:induction false} FollowsEvents(policy: Policy, start: Time, events: seq<Event>, requester: string)
    requires Proper(State(policy, map[], [], map[]), start, events)
    ensures var s0 := State(policy, map[], [], map[]);
            && Run(s0, events).ActiveOf(requester) == InForce(s0, events, requester)
            && Run(s0, events).history == GrantTimes(s0, events)
  {
    if events != [] {
      var s0, before, e := State(policy, map[], [], map[]), events[..|events| - 1], events[|events| - 1];
      FollowsEvents(policy, start, before, requester);
      RunKeeps(policy, start, before);
      if e.Ended? {
        EndsInForce(Run(s0, before), e.child, requester);
      }
    }
  }

  /** The answer to a request, from the policy, the agents in force and the grants of the past hour. */
  ghost predicate Answers(policy: Policy, inForce: set<string>, grants: seq<Time>, agentType: string, at: Time,
                          answer: Answer) {
    var typed := agentType in policy.allowedTypes;
    var full := |inForce| >= policy.maxConcurrent;
    var hour := CountIn(grants, LeftOpen(at - HOUR, at)) >= policy.maxPerHour;
    && (answer.TypeNotAllowed? <==> !typed)
    && (answer.ConcurrentLimit? <==> typed && full)
    && (answer.HourlyLimit? <==> typed && !full && hour)
    && (answer.Allowed? <==> typed && !full && !hour)
  }

  lemma {:induction false} PacedAnswers(s: State, now: Time, requester: string, agentType: string, at: Time)
    requires Paced(s, now) && now <= at
    ensures Answers(s.policy, s.ActiveOf(requester), s.history, agentType, at, s.Check(requester, agentType, at))
  {
    CountAfterIsWindow(s.history, at - HOUR, at, |s.history|);
    assert s.history[..|s.history|] == s.history;
  }

  /**
   * After any run, each answer and each reason for a refusal follows from the events alone: the agents that were
   * granted to the requester and have not ended, which never exceed the cap, and the grants of the past hour.
   */
  lemma {:induction false} AnswersFollowEvents(policy: Policy, start: Time, events: seq<Event>, requester: string,
                                               agentType: string, at: Time)
    requires Proper(State(policy, map[], [], map[]), start, events) && Now(start, events) <= at
    ensures var s0 := State(policy, map[], [], map[]);
            && |InForce(s0, events, requester)| <= Cap(policy.maxConcurrent)
            && Answers(policy, InForce(s0, events, requester), GrantTimes(s0, events), agentType, at,
                       Run(s0, events).Check(requester, agentType, at))
  {
    FollowsEvents(policy, start, events, requester);
    RunKeeps(policy, start, events);
    ConcurrentCapHolds(policy, start, events, requester);
    PacedAnswers(Run(State(policy, map[], [], map[]), events), Now(start, events), requester, agentType, at);
  }

  // The hourly limit per requester

  /** Who asked for each delegation of the history, in order. */
  function Requesters(s: State, events: seq<Event>): seq<string> {
    if events == [] then []
    else
      var before, e := events[..|events| - 1], events[|events| - 1];
      Requesters(s, before)
      + if e.Request? && Run(s, before).Check(e.requester, e.agentType, e.checkAt).Allowed? && e.starts
        then [e.requester] else []
  }

  lemma {:induction false} EveryDelegationHasRequester(s: State, events: seq<Event>)
    requires s.history == []
    ensures |Requesters(s, events)| == |Run(s, events).history|
  {
    if events != [] {
      EveryDelegationHasRequester(s, events[..|events| - 1]);
    }
  }

  /** The first `n` delegations in the span that are this requester's own, or those that are not. */
  function CountBy(history: seq<Time>, who: seq<string>, requester: string, own: bool, span: Span, n: nat): nat
    requires n <= |history| == |who|
  {
    if n == 0 then 0
    else
      CountBy(history, who, requester, own, span, n - 1)
      + if span.Contains(history[n - 1]) && (who[n - 1] == requester) == own then 1 else 0
  }

  lemma {:induction false} OwnAndOthers(history: seq<Time>, who: seq<string>, requester: string, span: Span, n: nat)
    requires n <= |history| == |who|
    ensures CountTo(history, span, n)
         == CountBy(history, who, requester, true, span, n) + CountBy(history, who, requester, false, span, n)
  {
    if n > 0 {
      OwnAndOthers(history, who, requester, span, n - 1);
    }
  }

  /** What the tracker counts for the past hour is the requester's own delegations and everybody else's. */
  lemma {:induction false} HourIsOwnAndOthers(history: seq<Time>, who: seq<string>, requester: string, at: Time)
    requires |history| == |who| && forall i :: 0 <= i < |history| ==> history[i] <= at
    ensures CountAfter(history, at - HOUR)
         == CountBy(history, who, requester, true, LeftOpen(at - HOUR, at), |who|)
            + CountBy(history, who, requester, false, LeftOpen(at - HOUR, at), |who|)
  {
    CountAfterIsWindow(history, at - HOUR, at, |history|);
    assert history[..|history|] == history;
    OwnAndOthers(history, who, requester, LeftOpen(at - HOUR, at), |who|);
  }

  /** This request is refused for the hourly limit exactly when own and others' delegations add up to it. */
  ghost predicate SharedLimit(s: State, who: seq<string>, requester: string, agentType: string, at: Time)
    requires |who| == |s.history|
  {
    var own := CountBy(s.history, who, requester, true, LeftOpen(at - HOUR, at), |who|);
    var others := CountBy(s.history, who, requester, false, LeftOpen(at - HOUR, at), |who|);
    s.Check(requester, agentType, at).HourlyLimit? <==>
      && agentType in s.policy.allowedTypes
      && |s.ActiveOf(requester)| < s.policy.maxConcurrent
      && own + others >= s.policy.maxPerHour
  }

  lemma {:induction false} PacedShares(s: State, who: seq<string>, now: Time, requester: string, agentType: string,
                                       at: Time)
    requires |who| == |s.history| && Paced(s, now) && now <= at
    ensures SharedLimit(s, who, requester, agentType, at)
  {
    HourIsOwnAndOthers(s.history, who, requester, at);
  }

  /**
   * The limit is documented as one per requester, but the code counts everybody: after any run, a request
   * that passes the other checks is refused exactly when its requester's delegations and those of all
   * others in the past hour add up to the limit.
   */
  lemma {:induction false} HourlyLimitIsShared(policy: Policy, start: Time, events: seq<Event>, requester: string,
                                               agentType: string, at: Time)
    requires Proper(State(policy, map[], [], map[]), start, events) && Now(start, events) <= at
    ensures var s0 := State(policy, map[], [], map[]);
            && |Requesters(s0, events)| == |Run(s0, events).history|
            && SharedLimit(Run(s0, events), Requesters(s0, events), requester, agentType, at)
  {
    var s0 := State(policy, map[], [], map[]);
    EveryDelegationHasRequester(s0, events);
    RunKeeps(policy, start, events);
    PacedShares(Run(s0, events), Requesters(s0, events), Now(start, events), requester, agentType, at);
  }

  /** One requester uses up the limit, and another with no delegations at all is refused. */
  lemma {:induction false} RefusedWithoutOwnDelegations()
    ensures var s0 := State(Policy(1, 1, ["gsd"]), map[], [], map[]);
            var events := [Request("alpha", "gsd", "a1", 0.0, true, 0.0)];
            var s := Run(s0, events);
            && s.Check("beta", "gsd", 1.0).HourlyLimit?
            && s.ActiveOf("beta") == {} && Requesters(s0, events) == ["alpha"]
  {
    var s0 := State(Policy(1, 1, ["gsd"]), map[], [], map[]);
    var e := Request("alpha", "gsd", "a1", 0.0, true, 0.0);
    assert [e][..0] == [] && Run(s0, [e][..0]) == s0;
    assert s0.Check("alpha", "gsd", 0.0).Allowed?;
    var s := Run(s0, [e]);
    assert s == s0.Recorded("alpha", "a1", 0.0);
    assert s.history == [0.0] && [0.0][..0] == [];
    assert CountAfter([0.0], 1.0 - HOUR) == 1;
  }
}
