/**
 * The lifecycle machines of a worker container: the flat one
 * (packages/vco-worker/src/vco_worker/container/state_machine.py) and the two that nest sub-states
 * with a shallow history inside `running` (packages/vco-worker/src/vco_worker/agent/).
 */
module Lifecycle {
  import opened Options

  datatype State = Creating | Running | Sleeping | Blocked | Stopping | Errored | Stopped | Destroyed

  datatype Event = Start | Sleep | Wake | Error | Recover | Block | Unblock | BeginStop | FinishStop | Destroy

  /** The flat machine: the target of an event, or None when the transition is not allowed. */
  function Next(s: State, e: Event): Option<State> {
    match e
    case Start => if s.Creating? then Some(Running) else None
    case Sleep => if s.Running? then Some(Sleeping) else None
    case Wake => if s.Sleeping? then Some(Running) else None
    case Error => if s in {Creating, Running, Sleeping, Blocked} then Some(Errored) else None
    case Recover => if s.Errored? then Some(Running) else None
    case Block => if s.Running? then Some(Blocked) else None
    case Unblock => if s.Blocked? then Some(Running) else None
    case BeginStop => if s in {Running, Sleeping, Errored, Blocked} then Some(Stopping) else None
    case FinishStop => if s.Stopping? then Some(Stopped) else None
    case Destroy => if s in {Stopped, Errored} then Some(Destroyed) else None
  }

  /** A run of the flat machine; a rejected event leaves the state as it is. */
  function RunFlat(s: State, events: seq<Event>): State {
    if events == [] then s
    else
      var mid := RunFlat(s, events[..|events| - 1]);
      match Next(mid, events[|events| - 1]) case Some(s') => s' case None => mid
  }

  /** Once stopped, a container can only be destroyed. */
  lemma {:induction false} StoppedOnlyDestroyed(s: State, events: seq<Event>)
    ensures s.Stopped? ==> RunFlat(s, events) in {Stopped, Destroyed}
    ensures s.Destroyed? ==> RunFlat(s, events).Destroyed?
    ensures s.Stopping? ==> RunFlat(s, events) in {Stopping, Stopped, Destroyed}
  {
    if events != [] {
      StoppedOnlyDestroyed(s, events[..|events| - 1]);
    }
  }

  // The machine read off its events

  /** Whether an event is taken, by the one taken last. */
  predicate MayFollow(last: Option<Event>, e: Event) {
    if last.None? then e in {Start, Error}
    else
      match last.value
      case Sleep => e in {Wake, Error, BeginStop}
      case Block => e in {Unblock, Error, BeginStop}
      case Error => e in {Recover, BeginStop, Destroy}
      case BeginStop => e == FinishStop
      case FinishStop => e == Destroy
      case Destroy => false
      case _ => e in {Sleep, Block, Error, BeginStop}
  }

  /** The last event taken. */
  function LastTaken(events: seq<Event>): Option<Event> {
    if events == [] then None
    else
      var last, e := LastTaken(events[..|events| - 1]), events[|events| - 1];
      if MayFollow(last, e) then Some(e) else last
  }

  /** The state the last event taken stands for: a start, a wake, a recovery and an unblocking all lead to running. */
  ghost predicate StandsFor(s: State, last: Option<Event>) {
    if last.None? then s == Creating
    else
      match s
      case Creating => false
      case Running => last.value in {Start, Wake, Recover, Unblock}
      case Sleeping => last.value == Sleep
      case Blocked => last.value == Block
      case Errored => last.value == Error
      case Stopping => last.value == BeginStop
      case Stopped => last.value == FinishStop
      case Destroyed => last.value == Destroy
  }

  /** In every run the state, and which event is taken next, follow from the last event taken. */
  lemma {:induction false} StateIsLastTaken(events: seq<Event>, e: Event)
    ensures StandsFor(RunFlat(Creating, events), LastTaken(events))
    ensures Next(RunFlat(Creating, events), e).Some? <==> MayFollow(LastTaken(events), e)
  {
    if events != [] {
      StateIsLastTaken(events[..|events| - 1], events[|events| - 1]);
    }
  }

  /** Sleeping, being blocked and failing are left again for running, and only in the way that fits. */
  lemma {:induction false} DetoursReturn(events: seq<Event>, away: Event, back: Event)
    requires RunFlat(Creating, events).Running? && away in {Sleep, Block, Error} && back in {Wake, Unblock, Recover}
    ensures RunFlat(Creating, events + [away])
            == if away.Sleep? then Sleeping else if away.Block? then Blocked else Errored
    ensures RunFlat(Creating, events + [away] + [back]).Running?
            <==> (away, back) in {(Sleep, Wake), (Block, Unblock), (Error, Recover)}
  {
    assert (events + [away])[..|events|] == events;
    assert (events + [away] + [back])[..|events| + 1] == events + [away];
  }

  // Nested machines

  /** The active configuration of a nested machine: the outer state, the sub-state while running, and the history. */
  datatype Config<+P> = Config(outer: State, inner: Option<P>, history: Option<P>) {
    predicate Valid() {
      inner.Some? <==> outer.Running?
    }

    /** Going to a state outside `running`, recording the sub-state that is left, if any. */
    function Leave(s: State): Config<P> {
      Config(s, None, if outer.Running? then inner else history)
    }

  }

  /** Entering `running` through its history state: the recorded sub-state, else the initial one. */
  function Resume<P>(c: Config<P>, initial: P): Config<P> {
    c.(outer := Running, inner := if c.history.Some? then c.history else Some(initial))
  }

  /** The outer transitions, as both nested machines declare them. */
  function Outer<P>(c: Config<P>, e: Event, initial: P): Option<Config<P>> {
    match e
    case Start => if c.outer.Creating? then Some(c.(outer := Running, inner := Some(initial))) else None
    case Sleep => if c.outer.Running? then Some(c.Leave(Sleeping)) else None
    case Wake => if c.outer.Sleeping? then Some(Resume(c, initial)) else None
    case Error =>
      if c.outer.Creating? || c.outer.Running? || c.outer.Sleeping? || c.outer.Blocked?
      then Some(c.Leave(Errored)) else None
    case Recover => if c.outer.Errored? then Some(Resume(c, initial)) else None
    case Block => if c.outer.Running? then Some(c.Leave(Blocked)) else None
    case Unblock => if c.outer.Blocked? then Some(Resume(c, initial)) else None
    case BeginStop =>
      if c.outer.Running? || c.outer.Sleeping? || c.outer.Errored? || c.outer.Blocked?
      then Some(c.Leave(Stopping)) else None
    case FinishStop => if c.outer.Stopping? then Some(c.Leave(Stopped)) else None
    case Destroy => if c.outer.Stopped? || c.outer.Errored? then Some(c.Leave(Destroyed)) else None
  }

  /** Where the machine is, or would be after coming back to `running`. */
  function Current<P>(c: Config<P>, initial: P): P {
    if c.outer.Running? && c.inner.Some? then c.inner.value
    else if c.history.Some? then c.history.value
    else initial
  }

  /**
   * Outer events are accepted exactly when the flat machine accepts them, lead to the same outer state and keep
   * the sub-state.
   */
  lemma {:induction false} OuterRefines<P>(c: Config<P>, e: Event, initial: P)
    requires c.Valid() && (c.outer.Creating? ==> c.history.None?)
    ensures Outer(c, e, initial).Some? <==> Next(c.outer, e).Some?
    ensures Outer(c, e, initial).Some? ==>
              var c' := Outer(c, e, initial).value;
              && c'.Valid() && !c'.outer.Creating?
              && Some(c'.outer) == Next(c.outer, e)
              && Current(c', initial) == Current(c, initial)
  {
  }

  // GSD agents

  datatype Phase = Idle | Discuss | Plan | Execute | Uat | Ship {
    function Rank(): nat {
      match this
      case Idle => 0
      case Discuss => 1
      case Plan => 2
      case Execute => 3
      case Uat => 4
      case Ship => 5
    }
  }

  datatype GsdEvent = GsdOuter(e: Event) | StartDiscuss | StartPlan | StartExecute | StartUat | StartShip

  function GsdNext(c: Config<Phase>, e: GsdEvent): Option<Config<Phase>> {
    match e
    case GsdOuter(o) => Outer(c, o, Idle)
    case StartDiscuss => if c.inner == Some(Idle) then Some(c.(inner := Some(Discuss))) else None
    case StartPlan => if c.inner == Some(Discuss) then Some(c.(inner := Some(Plan))) else None
    case StartExecute => if c.inner == Some(Plan) then Some(c.(inner := Some(Execute))) else None
    case StartUat => if c.inner == Some(Execute) then Some(c.(inner := Some(Uat))) else None
    case StartShip => if c.inner == Some(Uat) then Some(c.(inner := Some(Ship))) else None
  }

  const NEW_GSD: Config<Phase> := Config(Creating, None, None)

  function RunGsd(c: Config<Phase>, events: seq<GsdEvent>): Config<Phase> {
    if events == [] then c
    else
      var mid := RunGsd(c, events[..|events| - 1]);
      match GsdNext(mid, events[|events| - 1]) case Some(c') => c' case None => mid
  }

  /** The events the flat machine also knows, in order. */
  function OuterOf(events: seq<GsdEvent>): seq<Event> {
    if events == [] then []
    else OuterOf(events[..|events| - 1]) + match events[|events| - 1] case GsdOuter(e) => [e] case _ => []
  }

  /** How many phase events the run accepted. */
  function Advances(c: Config<Phase>, events: seq<GsdEvent>): nat {
    if events == [] then 0
    else
      var before, e := events[..|events| - 1], events[|events| - 1];
      Advances(c, before) + if !e.GsdOuter? && GsdNext(RunGsd(c, before), e).Some? then 1 else 0
  }

  lemma {:induction false} FlatSnoc(s: State, events: seq<Event>, e: Event)
    ensures RunFlat(s, events + [e]) ==
            match Next(RunFlat(s, events), e)
            case Some(s') => s'
            case None => RunFlat(s, events)
  {
    assert (events + [e])[..|events|] == events;
  }

  /** A phase event that is accepted moves the phase on by one and leaves the outer state alone. */
  lemma {:induction false} PhaseStep(c: Config<Phase>, e: GsdEvent)
    requires c.Valid() && !e.GsdOuter? && GsdNext(c, e).Some?
    ensures var c' := GsdNext(c, e).value;
            && c'.Valid() && c'.outer == c.outer && c'.history == c.history
            && Current(c', Idle).Rank() == Current(c, Idle).Rank() + 1
  {
  }

  lemma {:induction false} OuterSnoc(events: seq<GsdEvent>)
    requires events != [] && !events[|events| - 1].GsdOuter?
    ensures OuterOf(events) == OuterOf(events[..|events| - 1])
  {
  }

  /**
   * Erasing the phase maps every run of the GSD machine to a run of the flat machine in which phase
   * events stutter, and the phase is the number of phase events accepted so far: it never goes back,
   * moves by one step at a time, and survives sleep/wake, block/unblock and error/recover.
   */
  lemma {:induction false} GsdRefinesFlat(events: seq<GsdEvent>)
    ensures var c := RunGsd(NEW_GSD, events);
            && c.Valid() && (c.outer.Creating? ==> c.history.None?)
            && c.outer == RunFlat(Creating, OuterOf(events))
            && Current(c, Idle).Rank() == Advances(NEW_GSD, events)
  {
    if events != [] {
      var before, e := events[..|events| - 1], events[|events| - 1];
      GsdRefinesFlat(before);
      var mid := RunGsd(NEW_GSD, before);
      if e.GsdOuter? {
        OuterRefines(mid, e.e, Idle);
        FlatSnoc(Creating, OuterOf(before), e.e);
      } else {
        OuterSnoc(events);
        if GsdNext(mid, e).Some? {
          PhaseStep(mid, e);
        }
      }
    }
  }

  /** From any configuration a run may start in, the phase advances by the number of phase events accepted. */
  lemma {:induction false} PhaseIsAdvances(c: Config<Phase>, events: seq<GsdEvent>)
    requires c.Valid() && (c.outer.Creating? ==> c.history.None?)
    ensures var end := RunGsd(c, events);
            && end.Valid() && (end.outer.Creating? ==> end.history.None?)
            && Current(end, Idle).Rank() == Current(c, Idle).Rank() + Advances(c, events)
  {
    if events != [] {
      var before, e := events[..|events| - 1], events[|events| - 1];
      PhaseIsAdvances(c, before);
      var mid := RunGsd(c, before);
      if e.GsdOuter? {
        OuterRefines(mid, e.e, Idle);
      } else if GsdNext(mid, e).Some? {
        PhaseStep(mid, e);
      }
    }
  }

  /** The phase events, in the order in which they are accepted, and the phases they lead to. */
  const PHASE_EVENTS := [StartDiscuss, StartPlan, StartExecute, StartUat, StartShip]
  const PHASES := [Idle, Discuss, Plan, Execute, Uat, Ship]

  /** The phase events accepted over a run. */
  function PhaseEvents(c: Config<Phase>, events: seq<GsdEvent>): seq<GsdEvent> {
    if events == [] then []
    else
      var before, e := events[..|events| - 1], events[|events| - 1];
      PhaseEvents(c, before) + if !e.GsdOuter? && GsdNext(RunGsd(c, before), e).Some? then [e] else []
  }

  /** While running, the next phase event is accepted and no other one; otherwise none is. */
  lemma {:induction false} NextPhase(c: Config<Phase>, e: GsdEvent, n: nat)
    requires c.Valid() && !e.GsdOuter? && n <= 5 && Current(c, Idle) == PHASES[n]
    ensures GsdNext(c, e).Some? <==> c.outer.Running? && n < 5 && e == PHASE_EVENTS[n]
    ensures GsdNext(c, e).Some? ==> Current(GsdNext(c, e).value, Idle) == PHASES[n + 1]
  {
  }

  /**
   * In every run the phase events accepted so far are the first ones of the fixed order, the phase is the one the
   * last of them leads to, and the next one in the order is accepted exactly while running.
   */
  lemma {:induction false} PhasesInOrder(events: seq<GsdEvent>, e: GsdEvent)
    requires !e.GsdOuter?
    ensures var c, n := RunGsd(NEW_GSD, events), |PhaseEvents(NEW_GSD, events)|;
            && n <= 5 && PhaseEvents(NEW_GSD, events) == PHASE_EVENTS[..n] && Current(c, Idle) == PHASES[n]
            && (GsdNext(c, e).Some? <==> c.outer.Running? && n < 5 && e == PHASE_EVENTS[n])
  {
    GsdRefinesFlat(events);
    if events != [] {
      var before, last := events[..|events| - 1], events[|events| - 1];
      PhasesInOrder(before, e);
      GsdRefinesFlat(before);
      var mid, m := RunGsd(NEW_GSD, before), |PhaseEvents(NEW_GSD, before)|;
      if last.GsdOuter? {
        OuterRefines(mid, last.e, Idle);
      } else {
        NextPhase(mid, last, m);
        assert m < 5 ==> PHASE_EVENTS[..m + 1] == PHASE_EVENTS[..m] + [PHASE_EVENTS[m]];
      }
    }
    NextPhase(RunGsd(NEW_GSD, events), e, |PhaseEvents(NEW_GSD, events)|);
  }

  // Event-driven agents

  datatype Activity = Listening | Processing

  datatype DrivenEvent = DrivenOuter(e: Event) | StartProcessing | DoneProcessing

  function DrivenNext(c: Config<Activity>, e: DrivenEvent): Option<Config<Activity>> {
    match e
    case DrivenOuter(o) => Outer(c, o, Listening)
    case StartProcessing => if c.inner == Some(Listening) then Some(c.(inner := Some(Processing))) else None
    case DoneProcessing => if c.inner == Some(Processing) then Some(c.(inner := Some(Listening))) else None
  }

  const NEW_DRIVEN: Config<Activity> := Config(Creating, None, None)

  function RunDriven(c: Config<Activity>, events: seq<DrivenEvent>): Config<Activity> {
    if events == [] then c
    else
      var mid := RunDriven(c, events[..|events| - 1]);
      match DrivenNext(mid, events[|events| - 1]) case Some(c') => c' case None => mid
  }

  function OuterOfDriven(events: seq<DrivenEvent>): seq<Event> {
    if events == [] then []
    else OuterOfDriven(events[..|events| - 1]) + match events[|events| - 1] case DrivenOuter(e) => [e] case _ => []
  }

  /** How often an accepted event of this kind occurred. */
  function Accepted(c: Config<Activity>, events: seq<DrivenEvent>, kind: DrivenEvent): nat {
    if events == [] then 0
    else
      var before, e := events[..|events| - 1], events[|events| - 1];
      Accepted(c, before, kind) + if e == kind && DrivenNext(RunDriven(c, before), e).Some? then 1 else 0
  }

  /** An accepted activity event switches between listening and processing and leaves the outer state alone. */
  lemma {:induction false} ActivityStep(c: Config<Activity>, e: DrivenEvent)
    requires c.Valid() && !e.DrivenOuter? && DrivenNext(c, e).Some?
    ensures var c' := DrivenNext(c, e).value;
            && c'.Valid() && c'.outer == c.outer && c'.history == c.history
            && Current(c', Listening).Processing? == e.StartProcessing?
            && Current(c, Listening).Processing? == e.DoneProcessing?
  {
  }

  lemma {:induction false} DrivenOuterSnoc(events: seq<DrivenEvent>)
    requires events != []
    ensures var before, e := events[..|events| - 1], events[|events| - 1];
            OuterOfDriven(events) == if e.DrivenOuter? then OuterOfDriven(before) + [e.e] else OuterOfDriven(before)
  {
  }

  /**
   * The same refinement for event-driven agents: an agent is processing exactly when one more event was started
   * than finished.
   */
  lemma {:induction false} DrivenRefinesFlat(events: seq<DrivenEvent>)
    ensures var c := RunDriven(NEW_DRIVEN, events);
            && c.Valid() && (c.outer.Creating? ==> c.history.None?)
            && c.outer == RunFlat(Creating, OuterOfDriven(events))
            && Accepted(NEW_DRIVEN, events, StartProcessing)
               == Accepted(NEW_DRIVEN, events, DoneProcessing) + if Current(c, Listening).Processing? then 1 else 0
  {
    if events != [] {
      var before, e := events[..|events| - 1], events[|events| - 1];
      DrivenRefinesFlat(before);
      DrivenOuterSnoc(events);
      var mid := RunDriven(NEW_DRIVEN, before);
      if e.DrivenOuter? {
        OuterRefines(mid, e.e, Listening);
        FlatSnoc(Creating, OuterOfDriven(before), e.e);
      } else if DrivenNext(mid, e).Some? {
        ActivityStep(mid, e);
      }
    }
  }

  /** While running, an event is started exactly when none is in hand, and finished exactly when one is. */
  lemma {:induction false} OneEventInHand(events: seq<DrivenEvent>)
    ensures var c := RunDriven(NEW_DRIVEN, events);
            var started := Accepted(NEW_DRIVEN, events, StartProcessing);
            var done := Accepted(NEW_DRIVEN, events, DoneProcessing);
            && (DrivenNext(c, StartProcessing).Some? <==> c.outer.Running? && started == done)
            && (DrivenNext(c, DoneProcessing).Some? <==> c.outer.Running? && started == done + 1)
  {
    DrivenRefinesFlat(events);
  }
}
