/**
 * Two levels of restart budget: project supervisors under the company root
 * (src/vcompany/supervisor/supervisor.py and src/vcompany/supervisor/company_root.py).
 *
 * A project whose own budget is used up stops its children and escalates; the root, if its budget
 * allows, replaces it by a fresh supervisor with a fresh budget.
 */
module SupervisionTree {
  import opened Windows
  import opened RestartTracking

  /**
   * Running its children; refused and on its way to the root, with failures of children that it has not
   * stopped yet still coming in; stopped for good.
   */
  datatype Status = Live | Escalating | Stopped

  /** How the start of a rebuilt supervisor goes: children are started one by one, so it may raise midway. */
  datatype Start = Up | Partly | Nothing

  /**
   * A project's last supervisor. One whose start raised midway is not registered, but its children run
   * under their monitors with its own budget, and it answers to the same id.
   */
  datatype Project = Project(supervisorId: string, budget: Budget, status: Status)

  datatype Tree = Tree(root: Budget, projects: seq<Project>)

  /** The first project with this supervisor id, or the number of projects when there is none. */
  function Find(projects: seq<Project>, id: string, from: nat := 0): (k: nat)
    requires from <= |projects|
    ensures from <= k <= |projects|
    ensures forall i :: from <= i < k ==> projects[i].supervisorId != id
    ensures k < |projects| ==> projects[k].supervisorId == id
    decreases |projects| - from
  {
    if from < |projects| && projects[from].supervisorId != id then Find(projects, id, from + 1) else from
  }

  /** A supervisor rebuilt from the old one's limits. */
  function Rebuilt(p: Project): Project {
    Project(p.supervisorId, Fresh(p.budget.maxRestarts, p.budget.window), Live)
  }

  /** The root's answer to an escalation. */
  function Escalated(t: Tree, id: string, purgeAt: Time, recordAt: Time, start: Start): Tree {
    var k := Find(t.projects, id);
    Tree(t.root.Asked(purgeAt, recordAt),
         if t.root.Grants(purgeAt) && !start.Nothing? && k < |t.projects|
         then t.projects[k := Rebuilt(t.projects[k])] else t.projects)
  }

  datatype Alert = BudgetExceeded(child: string) | UnknownChild(child: string)

  /**
   * The root's side that handles escalations; `registered` says of each project whether its last supervisor is the
   * registered one.
   */
  class CompanyRoot {
    const tracker: RestartTracker
    var projects: seq<Project>
    var registered: seq<bool>
    var alerts: seq<Alert>

    ghost function State(): Tree
      reads this, tracker
    {
      Tree(tracker.State(), projects)
    }

    ghost predicate Valid()
      reads this
    {
      |registered| == |projects|
    }

    constructor (maxRestarts: int, window: Time)
      ensures Valid() && State() == Tree(Fresh(maxRestarts, window), []) && alerts == [] && fresh(tracker)
    {
      tracker := new RestartTracker(maxRestarts, window);
      projects, registered, alerts := [], [], [];
    }

    method FindProject(id: string) returns (k: nat)
      ensures k == Find(projects, id)
    {
      k := 0;
      while k < |projects| && projects[k].supervisorId != id
        invariant k <= |projects|
        invariant Find(projects, id, k) == Find(projects, id)
      {
        k := k + 1;
      }
    }

    /** Only a rebuilt supervisor that came up whole replaces the registered one. */
    method HandleChildEscalation(id: string, purgeAt: Time, recordAt: Time, start: Start)
      requires Valid()
      modifies this, tracker
      ensures Valid() && State() == Escalated(old(State()), id, purgeAt, recordAt, start)
      ensures alerts == old(alerts) +
                        if !old(State()).root.Grants(purgeAt) then [BudgetExceeded(id)]
                        else if forall i :: 0 <= i < |old(projects)| ==> old(projects)[i].supervisorId != id
                        then [UnknownChild(id)] else []
      ensures var k := Find(old(projects), id);
              registered == if old(State()).root.Grants(purgeAt) && !start.Nothing? && k < |old(projects)|
                            then old(registered)[k := start.Up?] else old(registered)
    {
      var ok := tracker.AllowRestart(purgeAt, recordAt);
      if !ok {
        alerts := alerts + [BudgetExceeded(id)];
        return;
      }
      var k := FindProject(id);
      if k < |projects| {
        if !start.Nothing? {
          projects := projects[k := Rebuilt(projects[k])];
          registered := registered[k := start.Up?];
        }
      } else {
        alerts := alerts + [UnknownChild(id)];
      }
    }
  }

  // Runs

  /** A child failure that reaches its project's intensity check, or an escalation reaching the root. */
  datatype Event =
    | Fail(project: nat, purgeAt: Time, recordAt: Time)
    | Escalate(project: nat, purgeAt: Time, recordAt: Time, start: Start)

  predicate Dispatches(t: Tree, e: Event) {
    && e.Fail?
    && e.project < |t.projects|
    && !t.projects[e.project].status.Stopped?
    && t.projects[e.project].budget.Grants(e.purgeAt)
  }

  function Step(t: Tree, e: Event): Tree {
    if e.project >= |t.projects| then t
    else
      var p := t.projects[e.project];
      match e
      case Fail(k, purgeAt, recordAt) =>
        if p.status.Stopped? then t
        else
          var status := if p.budget.Grants(purgeAt) then p.status else Escalating;
          t.(projects := t.projects[k := Project(p.supervisorId, p.budget.Asked(purgeAt, recordAt), status)])
      case Escalate(k, purgeAt, recordAt, start) =>
        if !p.status.Escalating? then t
        else
          var stopped := t.(projects := t.projects[k := p.(status := Stopped)]);
          Escalated(stopped, p.supervisorId, purgeAt, recordAt, start)
  }

  function Run(t: Tree, events: seq<Event>): Tree {
    if events == [] then t else Step(Run(t, events[..|events| - 1]), events[|events| - 1])
  }

  /** When child restarts were dispatched, over all projects and all their incarnations. */
  function DispatchTimes(t: Tree, events: seq<Event>): seq<Time> {
    if events == [] then []
    else
      var before, e := events[..|events| - 1], events[|events| - 1];
      DispatchTimes(t, before) + if Dispatches(Run(t, before), e) then [e.recordAt] else []
  }

  function Now(start: Time, events: seq<Event>): Time {
    if events == [] then start else events[|events| - 1].recordAt
  }

  ghost predicate Monotone(start: Time, events: seq<Event>) {
    forall i :: 0 <= i < |events| ==>
      Now(start, events[..i]) <= events[i].purgeAt <= events[i].recordAt
  }

  ghost predicate DistinctIds(projects: seq<Project>) {
    forall i, j :: 0 <= i < j < |projects| ==> projects[i].supervisorId != projects[j].supervisorId
  }

  /** Distinct supervisor ids, one window length `w` everywhere, project budgets of at most `m`. */
  ghost predicate Shape(t: Tree, w: Time, m: nat) {
    && t.root.window == w
    && (forall i :: 0 <= i < |t.projects| ==> t.projects[i].budget.window == w && t.projects[i].budget.Cap() <= m)
    && DistinctIds(t.projects)
  }

  /** A deque within its budget and not ahead of the clock. */
  ghost predicate Bounded(b: Budget, now: Time) {
    && |b.kept| <= b.Cap()
    && forall i :: 0 <= i < |b.kept| ==> b.kept[i] <= now
  }

  ghost predicate Inv(t: Tree, w: Time, m: nat, now: Time) {
    && Shape(t, w, m)
    && Bounded(t.root, now)
    && forall i :: 0 <= i < |t.projects| ==> Bounded(t.projects[i].budget, now)
  }

  /** Asking within the span moves the count of the span by the grant and nothing else. */
  lemma {:induction false} AskedCount(b: Budget, purgeAt: Time, recordAt: Time, span: Span)
    requires span.Closed? && purgeAt - b.window <= span.lo
    ensures CountIn(b.Asked(purgeAt, recordAt).kept, span)
         == CountIn(b.kept, span) + if b.Grants(purgeAt) && span.Contains(recordAt) then 1 else 0
  {
    var k := FirstFresh(b.kept, purgeAt - b.window);
    CountSuffix(b.kept, k, span);
    CountSnoc(b.kept[k..], recordAt, span);
  }

  lemma {:induction false} FindUnique(projects: seq<Project>, k: nat)
    requires k < |projects|
    requires DistinctIds(projects)
    ensures Find(projects, projects[k].supervisorId) == k
  {
    var found := Find(projects, projects[k].supervisorId);
    assert found <= k;
    assert projects[found].supervisorId == projects[k].supervisorId;
  }

  lemma {:induction false} DropBounded(b: Budget, now: Time, k: nat)
    requires Bounded(b, now) && k <= |b.kept|
    ensures Bounded(b.(kept := b.kept[k..]), now)
  {
  }

  lemma {:induction false} AskedBounded(b: Budget, now: Time, purgeAt: Time, recordAt: Time)
    requires Bounded(b, now) && now <= recordAt
    ensures Bounded(b.Asked(purgeAt, recordAt), recordAt)
  {
    DropBounded(b, now, FirstFresh(b.kept, purgeAt - b.window));
  }

  /** Grants inside the span that the current incarnations still remember. */
  function Total(projects: seq<Project>, span: Span): nat {
    if projects == [] then 0
    else Total(projects[..|projects| - 1], span) + CountIn(projects[|projects| - 1].budget.kept, span)
  }

  lemma {:induction false} TotalUpdate(projects: seq<Project>, k: nat, p: Project, span: Span)
    requires k < |projects|
    ensures Total(projects[k := p], span) + CountIn(projects[k].budget.kept, span)
         == Total(projects, span) + CountIn(p.budget.kept, span)
  {
    var last := |projects| - 1;
    if k == last {
      assert projects[k := p][..last] == projects[..last];
    } else {
      TotalUpdate(projects[..last], k, p, span);
      assert projects[k := p][..last] == projects[..last][k := p];
    }
  }

  lemma {:induction false} TotalBound(projects: seq<Project>, m: nat, span: Span)
    requires forall i :: 0 <= i < |projects| ==> |projects[i].budget.kept| <= m
    ensures Total(projects, span) <= |projects| * m
  {
    if projects != [] {
      TotalBound(projects[..|projects| - 1], m, span);
      assert |projects| * m == (|projects| - 1) * m + m;
    }
  }

  /** What `c` replaced supervisors of budget `m` may have dispatched: m * c, by repeated addition. */
  function Allowance(m: nat, c: nat): nat {
    if c == 0 then 0 else Allowance(m, c - 1) + m
  }

  lemma {:induction false} AllowanceBound(m: nat, c: nat, r: nat)
    requires c <= r
    ensures Allowance(m, c) <= r * m
  {
    if c > 0 {
      AllowanceBound(m, c - 1, r - 1);
      assert r * m == (r - 1) * m + m;
    } else {
      assert 0 <= r * m;
    }
  }

  /** What has been dispatched in the span is covered by what is remembered plus the root's grants. */
  ghost predicate Covered(t: Tree, n: nat, m: nat, now: Time, span: Span) {
    now <= span.hi ==> n <= Total(t.projects, span) + Allowance(m, CountIn(t.root.kept, span))
  }

  lemma {:induction false} CoverCap(t: Tree, n: nat, w: Time, m: nat, now: Time, span: Span)
    requires Inv(t, w, m, now)
    requires n <= Total(t.projects, span) + Allowance(m, CountIn(t.root.kept, span))
    ensures n <= (|t.projects| + t.root.Cap()) * m
  {
    TotalBound(t.projects, m, span);
    AllowanceBound(m, CountIn(t.root.kept, span), t.root.Cap());
    assert (|t.projects| + t.root.Cap()) * m == |t.projects| * m + t.root.Cap() * m;
  }

  lemma {:induction false} FailInv(t: Tree, e: Event, w: Time, m: nat, now: Time)
    requires e.Fail? && now <= e.purgeAt <= e.recordAt && Inv(t, w, m, now)
    ensures Inv(Step(t, e), w, m, e.recordAt)
  {
    if e.project < |t.projects| && !t.projects[e.project].status.Stopped? {
      AskedBounded(t.projects[e.project].budget, now, e.purgeAt, e.recordAt);
    }
  }

  lemma {:induction false} FailStep(t: Tree, e: Event, n: nat, w: Time, m: nat, now: Time, lo: Time)
    requires e.Fail? && now <= e.purgeAt <= e.recordAt
    requires Inv(t, w, m, now) && Covered(t, n, m, now, Closed(lo, lo + w))
    ensures var n' := n + if Dispatches(t, e) && Closed(lo, lo + w).Contains(e.recordAt) then 1 else 0;
            Covered(Step(t, e), n', m, e.recordAt, Closed(lo, lo + w))
  {
    var span, t' := Closed(lo, lo + w), Step(t, e);
    if e.project < |t.projects| && !t.projects[e.project].status.Stopped? {
      var p := t.projects[e.project];
      FailInv(t, e, w, m, now);
      TotalUpdate(t.projects, e.project, t'.projects[e.project], span);
      if e.purgeAt <= span.hi {
        AskedCount(p.budget, e.purgeAt, e.recordAt, span);
      }
    }
  }

  /** An escalation touches the root's budget and at most the escalating project. */
  lemma {:induction false} EscalateShape(t: Tree, e: Event, w: Time, m: nat, now: Time)
    requires e.Escalate? && now <= e.purgeAt <= e.recordAt && Inv(t, w, m, now)
    requires e.project < |t.projects| && t.projects[e.project].status.Escalating?
    ensures var p := t.projects[e.project];
            var back := t.root.Grants(e.purgeAt) && !e.start.Nothing?;
            Step(t, e) == Tree(t.root.Asked(e.purgeAt, e.recordAt),
                               t.projects[e.project := if back then Rebuilt(p) else p.(status := Stopped)])
  {
    var k, p := e.project, t.projects[e.project];
    var stopped := t.projects[k := p.(status := Stopped)];
    FindUnique(stopped, k);
    assert Rebuilt(stopped[k]) == Rebuilt(p);
    assert stopped[k := Rebuilt(p)] == t.projects[k := Rebuilt(p)];
  }

  lemma {:induction false} EscalateInv(t: Tree, e: Event, w: Time, m: nat, now: Time)
    requires e.Escalate? && now <= e.purgeAt <= e.recordAt && Inv(t, w, m, now)
    ensures Inv(Step(t, e), w, m, e.recordAt)
  {
    if e.project < |t.projects| && t.projects[e.project].status.Escalating? {
      EscalateShape(t, e, w, m, now);
      AskedBounded(t.root, now, e.purgeAt, e.recordAt);
    }
  }

  lemma {:induction false} EscalateStep(t: Tree, e: Event, n: nat, w: Time, m: nat, now: Time, lo: Time)
    requires e.Escalate? && now <= e.purgeAt <= e.recordAt
    requires Inv(t, w, m, now) && Covered(t, n, m, now, Closed(lo, lo + w))
    ensures Covered(Step(t, e), n, m, e.recordAt, Closed(lo, lo + w))
  {
    var span, k := Closed(lo, lo + w), e.project;
    if k < |t.projects| && t.projects[k].status.Escalating? {
      EscalateShape(t, e, w, m, now);
      var p, p' := t.projects[k], Step(t, e).projects[k];
      TotalUpdate(t.projects, k, p', span);
      if e.recordAt <= span.hi {
        AskedCount(t.root, e.purgeAt, e.recordAt, span);
        if e.recordAt < span.lo {
          CountNone(p.budget.kept, span, |p.budget.kept|);
        }
      }
    }
  }

  lemma {:induction false} StepCovered(t: Tree, e: Event, n: nat, w: Time, m: nat, now: Time, lo: Time)
    requires now <= e.purgeAt <= e.recordAt
    requires Inv(t, w, m, now) && Covered(t, n, m, now, Closed(lo, lo + w))
    ensures var n' := n + if Dispatches(t, e) && Closed(lo, lo + w).Contains(e.recordAt) then 1 else 0;
            && |Step(t, e).projects| == |t.projects| && Step(t, e).root.maxRestarts == t.root.maxRestarts
            && Inv(Step(t, e), w, m, e.recordAt) && Covered(Step(t, e), n', m, e.recordAt, Closed(lo, lo + w))
  {
    if e.Fail? {
      FailInv(t, e, w, m, now);
      FailStep(t, e, n, w, m, now, lo);
    } else {
      EscalateInv(t, e, w, m, now);
      EscalateStep(t, e, n, w, m, now, lo);
    }
  }

  lemma {:induction false} DispatchCount(t: Tree, events: seq<Event>, span: Span)
    requires events != []
    ensures var before, e := events[..|events| - 1], events[|events| - 1];
            CountIn(DispatchTimes(t, events), span) ==
            CountIn(DispatchTimes(t, before), span)
            + if Dispatches(Run(t, before), e) && span.Contains(e.recordAt) then 1 else 0
  {
    var times := DispatchTimes(t, events[..|events| - 1]);
    CountSnoc(times, events[|events| - 1].recordAt, span);
    assert times + [] == times;
  }

  lemma {:induction false} MonotonePrefix(start: Time, events: seq<Event>)
    requires events != [] && Monotone(start, events)
    ensures Monotone(start, events[..|events| - 1])
    ensures Now(start, events[..|events| - 1]) <= events[|events| - 1].purgeAt <= events[|events| - 1].recordAt
  {
    var before := events[..|events| - 1];
    assert forall i :: 0 <= i < |before| ==> before[..i] == events[..i];
  }

  lemma {:induction false} RunCovered(t: Tree, w: Time, m: nat, start: Time, events: seq<Event>, lo: Time)
    requires Inv(t, w, m, start) && Monotone(start, events)
    ensures var t' := Run(t, events);
            && |t'.projects| == |t.projects| && t'.root.maxRestarts == t.root.maxRestarts
            && Inv(t', w, m, Now(start, events))
            && Covered(t', CountIn(DispatchTimes(t, events), Closed(lo, lo + w)), m,
                       Now(start, events), Closed(lo, lo + w))
  {
    if events != [] {
      var before, e := events[..|events| - 1], events[|events| - 1];
      MonotonePrefix(start, events);
      RunCovered(t, w, m, start, before, lo);
      var n := CountIn(DispatchTimes(t, before), Closed(lo, lo + w));
      DispatchCount(t, events, Closed(lo, lo + w));
      StepCovered(Run(t, before), e, n, w, m, Now(start, before), lo);
    }
  }

  lemma {:induction false} BoundWithin(t: Tree, w: Time, m: nat, start: Time, events: seq<Event>, lo: Time)
    requires Inv(t, w, m, start) && Monotone(start, events) && Now(start, events) <= lo + w
    ensures CountIn(DispatchTimes(t, events), Closed(lo, lo + w)) <= (|t.projects| + t.root.Cap()) * m
  {
    RunCovered(t, w, m, start, events, lo);
    CoverCap(Run(t, events), CountIn(DispatchTimes(t, events), Closed(lo, lo + w)), w, m,
             Now(start, events), Closed(lo, lo + w));
  }

  /** Once the clock has passed the span its count no longer changes. */
  lemma {:induction false} RunBound(t: Tree, w: Time, m: nat, start: Time, events: seq<Event>, lo: Time, bound: nat)
    requires Inv(t, w, m, start) && Monotone(start, events) && bound == (|t.projects| + t.root.Cap()) * m
    ensures CountIn(DispatchTimes(t, events), Closed(lo, lo + w)) <= bound
  {
    if Now(start, events) <= lo + w {
      BoundWithin(t, w, m, start, events, lo);
    } else if events != [] {
      MonotonePrefix(start, events);
      DispatchCount(t, events, Closed(lo, lo + w));
      RunBound(t, w, m, start, events[..|events| - 1], lo, bound);
    }
  }

  /**
   * The two-level bound: with P projects of budget at most M under a root of budget R, all over windows
   * of length W, every closed interval of length W holds at most (P + R) * M dispatched child restarts.
   */
  lemma {:induction false} TwoLevelBound(t: Tree, w: Time, m: nat, start: Time, events: seq<Event>, lo: Time)
    requires Shape(t, w, m) && Monotone(start, events)
    requires t.root.kept == [] && forall i :: 0 <= i < |t.projects| ==> t.projects[i].budget.kept == []
    ensures CountIn(DispatchTimes(t, events), Closed(lo, lo + w)) <= (|t.projects| + t.root.Cap()) * m
  {
    RunBound(t, w, m, start, events, lo, (|t.projects| + t.root.Cap()) * m);
  }

  lemma {:induction false} StoppedForGood(t: Tree, k: nat, events: seq<Event>)
    requires k < |t.projects| && t.projects[k].status.Stopped?
    requires DistinctIds(t.projects)
    ensures var t' := Run(t, events);
            && |t'.projects| == |t.projects|
            && (forall i :: 0 <= i < |t.projects| ==> t'.projects[i].supervisorId == t.projects[i].supervisorId)
            && t'.projects[k] == t.projects[k]
  {
    if events != [] {
      var before, e := events[..|events| - 1], events[|events| - 1];
      StoppedForGood(t, k, before);
      var mid := Run(t, before);
      if e.Escalate? && e.project < |mid.projects| {
        FindUnique(mid.projects[e.project := mid.projects[e.project].(status := Stopped)], e.project);
      }
    }
  }

  /**
   * After an escalation that the root grants and that starts any child, the project has its whole budget
   * back, so that its next failure is dispatched; after a refusal, or when nothing started, none of its
   * failures is ever dispatched again, whatever happens afterwards.
   */
  lemma {:induction false} EscalationOutcome(t: Tree, e: Event, events: seq<Event>, purgeAt: Time, recordAt: Time)
    requires DistinctIds(t.projects) && e.Escalate?
    requires e.project < |t.projects| && t.projects[e.project].status.Escalating?
    ensures t.root.Grants(e.purgeAt) && !e.start.Nothing? && t.projects[e.project].budget.maxRestarts > 0
            ==> Dispatches(Step(t, e), Fail(e.project, purgeAt, recordAt))
    ensures !(t.root.Grants(e.purgeAt) && !e.start.Nothing?)
            ==> !Dispatches(Run(Step(t, e), events), Fail(e.project, purgeAt, recordAt))
  {
    var k, p := e.project, t.projects[e.project];
    FindUnique(t.projects[k := p.(status := Stopped)], k);
    if !(t.root.Grants(e.purgeAt) && !e.start.Nothing?) {
      StoppedForGood(Step(t, e), k, events);
    }
  }

  // The whole budget, and no more

  /** How many failures of this project are among the events. */
  function FailuresOf(events: seq<Event>, k: nat): nat {
    if events == [] then 0
    else
      var e := events[|events| - 1];
      FailuresOf(events[..|events| - 1], k) + if e.Fail? && e.project == k then 1 else 0
  }

  /** A live project with this limit and window that remembers at most `n` grants. */
  ghost predicate Armed(p: Project, max: int, w: Time, n: nat) {
    p.status.Live? && p.budget.maxRestarts == max && p.budget.window == w && |p.budget.kept| <= n
  }

  /** All its grants so far, `n` of them, are still in the window at that time. */
  ghost predicate Spent(p: Project, n: nat, at: Time) {
    |p.budget.kept| == n && forall i :: 0 <= i < n ==> at - p.budget.window <= p.budget.kept[i]
  }

  /** The events of this project lie in one window that ends at that time. */
  ghost predicate InOneWindow(events: seq<Event>, k: nat, w: Time, at: Time) {
    forall i :: 0 <= i < |events| && events[i].Fail? && events[i].project == k ==>
      events[i].purgeAt <= at && at - w <= events[i].recordAt
  }

  lemma {:induction false} OthersStay(t: Tree, e: Event, k: nat)
    requires DistinctIds(t.projects) && k < |t.projects| && t.projects[k].status.Live?
    ensures DistinctIds(Step(t, e).projects) && |Step(t, e).projects| == |t.projects|
    ensures !(e.Fail? && e.project == k) ==> Step(t, e).projects[k] == t.projects[k]
  {
    if e.Escalate? && e.project < |t.projects| && t.projects[e.project].status.Escalating? {
      var p := t.projects[e.project];
      FindUnique(t.projects[e.project := p.(status := Stopped)], e.project);
    }
  }

  lemma {:induction false} FailGrants(p: Project, max: int, w: Time, n: nat, e: Event)
    requires Armed(p, max, w, n) && n < max && e.Fail?
    ensures p.budget.Grants(e.purgeAt)
    ensures Armed(Project(p.supervisorId, p.budget.Asked(e.purgeAt, e.recordAt), Live), max, w, n + 1)
  {
  }

  lemma {:induction false} StaysArmed(t: Tree, e: Event, k: nat, max: int, w: Time, n: nat)
    requires DistinctIds(t.projects) && k < |t.projects| && Armed(t.projects[k], max, w, n) && n < max
    ensures |Step(t, e).projects| == |t.projects| && DistinctIds(Step(t, e).projects)
    ensures Armed(Step(t, e).projects[k], max, w, if e.Fail? && e.project == k then n + 1 else n)
  {
    OthersStay(t, e, k);
    if e.Fail? && e.project == k {
      FailGrants(t.projects[k], max, w, n, e);
    }
  }

  lemma {:induction false} RunStaysArmed(t: Tree, k: nat, events: seq<Event>, max: int, w: Time)
    requires DistinctIds(t.projects) && k < |t.projects| && Armed(t.projects[k], max, w, 0)
    requires FailuresOf(events, k) <= max
    ensures var t' := Run(t, events);
            && |t'.projects| == |t.projects| && DistinctIds(t'.projects)
            && Armed(t'.projects[k], max, w, FailuresOf(events, k))
  {
    if events != [] {
      var before, e := events[..|events| - 1], events[|events| - 1];
      RunStaysArmed(t, k, before, max, w);
      if e.Fail? && e.project == k {
        StaysArmed(Run(t, before), e, k, max, w, FailuresOf(before, k));
      } else {
        OthersStay(Run(t, before), e, k);
      }
    }
  }

  /** A project with an empty deque has its next failures dispatched, as many as its limit says. */
  lemma {:induction false} FreshBudgetLasts(t: Tree, k: nat, events: seq<Event>, purgeAt: Time, recordAt: Time)
    requires DistinctIds(t.projects) && k < |t.projects|
    requires t.projects[k].status.Live? && t.projects[k].budget.kept == []
    requires FailuresOf(events, k) < t.projects[k].budget.maxRestarts
    ensures Dispatches(Run(t, events), Fail(k, purgeAt, recordAt))
  {
    var max, w := t.projects[k].budget.maxRestarts, t.projects[k].budget.window;
    RunStaysArmed(t, k, events, max, w);
    FailGrants(Run(t, events).projects[k], max, w, FailuresOf(events, k), Fail(k, purgeAt, recordAt));
  }

  lemma {:induction false} NothingPurged(b: Budget, now: Time, at: Time)
    requires now <= at && forall i :: 0 <= i < |b.kept| ==> at - b.window <= b.kept[i]
    ensures b.Purged(now).kept == b.kept
  {
  }

  lemma {:induction false} FailSpends(p: Project, n: nat, at: Time, e: Event)
    requires Spent(p, n, at) && n < p.budget.maxRestarts && e.Fail?
    requires e.purgeAt <= at && at - p.budget.window <= e.recordAt
    ensures Spent(Project(p.supervisorId, p.budget.Asked(e.purgeAt, e.recordAt), Live), n + 1, at)
  {
    NothingPurged(p.budget, e.purgeAt, at);
  }

  lemma {:induction false} RunSpends(t: Tree, k: nat, events: seq<Event>, at: Time)
    requires DistinctIds(t.projects) && k < |t.projects|
    requires t.projects[k].status.Live? && t.projects[k].budget.kept == []
    requires FailuresOf(events, k) <= t.projects[k].budget.maxRestarts
    requires InOneWindow(events, k, t.projects[k].budget.window, at)
    ensures k < |Run(t, events).projects| && Spent(Run(t, events).projects[k], FailuresOf(events, k), at)
  {
    if events != [] {
      var before, e := events[..|events| - 1], events[|events| - 1];
      assert forall i :: 0 <= i < |before| ==> before[i] == events[i];
      RunSpends(t, k, before, at);
      RunStaysArmed(t, k, before, t.projects[k].budget.maxRestarts, t.projects[k].budget.window);
      if e.Fail? && e.project == k {
        FailGrants(Run(t, before).projects[k], t.projects[k].budget.maxRestarts, t.projects[k].budget.window,
                   FailuresOf(before, k), e);
        FailSpends(Run(t, before).projects[k], FailuresOf(before, k), at, e);
      } else {
        OthersStay(Run(t, before), e, k);
      }
    }
  }

  /** The one after them inside the window is not dispatched, and sends the project to the root. */
  lemma {:induction false} FreshBudgetEnds(t: Tree, k: nat, events: seq<Event>, at: Time, recordAt: Time)
    requires DistinctIds(t.projects) && k < |t.projects|
    requires t.projects[k].status.Live? && t.projects[k].budget.kept == []
    requires FailuresOf(events, k) == t.projects[k].budget.maxRestarts
    requires InOneWindow(events, k, t.projects[k].budget.window, at)
    ensures !Dispatches(Run(t, events), Fail(k, at, recordAt))
    ensures var t' := Step(Run(t, events), Fail(k, at, recordAt));
            k < |t'.projects| && t'.projects[k].status.Escalating?
  {
    RunSpends(t, k, events, at);
    RunStaysArmed(t, k, events, t.projects[k].budget.maxRestarts, t.projects[k].budget.window);
    NothingPurged(Run(t, events).projects[k].budget, at, at);
  }

  lemma {:induction false} BackToFresh(t: Tree, e: Event)
    requires DistinctIds(t.projects) && e.Escalate? && e.project < |t.projects|
    requires t.projects[e.project].status.Escalating? && t.root.Grants(e.purgeAt) && !e.start.Nothing?
    ensures var t', k := Step(t, e), e.project;
            && |t'.projects| == |t.projects| && DistinctIds(t'.projects)
            && t'.projects[k].status.Live? && t'.projects[k].budget.kept == []
            && t'.projects[k].budget.maxRestarts == t.projects[k].budget.maxRestarts
            && t'.projects[k].budget.window == t.projects[k].budget.window
  {
    FindUnique(t.projects[e.project := t.projects[e.project].(status := Stopped)], e.project);
  }

  /**
   * After an escalation that the root grants and that starts any child, the next failures of the project,
   * as many as its limit said before, are dispatched whatever else happens between; the one after them
   * inside the window is not, and escalates again.
   */
  lemma {:induction false} WholeBudgetBack(t: Tree, e: Event, events: seq<Event>, at: Time, recordAt: Time)
    requires DistinctIds(t.projects) && e.Escalate? && e.project < |t.projects|
    requires t.projects[e.project].status.Escalating? && t.root.Grants(e.purgeAt) && !e.start.Nothing?
    ensures FailuresOf(events, e.project) < t.projects[e.project].budget.maxRestarts ==>
              Dispatches(Run(Step(t, e), events), Fail(e.project, at, recordAt))
    ensures FailuresOf(events, e.project) == t.projects[e.project].budget.maxRestarts
            && InOneWindow(events, e.project, t.projects[e.project].budget.window, at) ==>
              && !Dispatches(Run(Step(t, e), events), Fail(e.project, at, recordAt))
              && var t' := Step(Run(Step(t, e), events), Fail(e.project, at, recordAt));
                 e.project < |t'.projects| && t'.projects[e.project].status.Escalating?
  {
    BackToFresh(t, e);
    var max := t.projects[e.project].budget.maxRestarts;
    if FailuresOf(events, e.project) < max {
      FreshBudgetLasts(Step(t, e), e.project, events, at, recordAt);
    } else if FailuresOf(events, e.project) == max
              && InOneWindow(events, e.project, t.projects[e.project].budget.window, at) {
      FreshBudgetEnds(Step(t, e), e.project, events, at, recordAt);
    }
  }
}
