/**
 * Checkpoint and restore of a GSD worker container
 * (packages/vco-worker/src/vco_worker/container/container.py and
 * packages/vco-worker/src/vco_worker/handler/session.py).
 */
module Checkpoint {
  import opened Options
  import opened Lifecycle

  function StateName(s: State): string {
    match s
    case Creating => "creating"
    case Running => "running"
    case Sleeping => "sleeping"
    case Blocked => "blocked"
    case Stopping => "stopping"
    case Errored => "errored"
    case Stopped => "stopped"
    case Destroyed => "destroyed"
  }

  function PhaseName(p: Phase): string {
    match p
    case Idle => "idle"
    case Discuss => "discuss"
    case Plan => "plan"
    case Execute => "execute"
    case Uat => "uat"
    case Ship => "ship"
  }

  function StateOf(name: string): Option<State> {
    if name == "creating" then Some(Creating)
    else if name == "running" then Some(Running)
    else if name == "sleeping" then Some(Sleeping)
    else if name == "blocked" then Some(Blocked)
    else if name == "stopping" then Some(Stopping)
    else if name == "errored" then Some(Errored)
    else if name == "stopped" then Some(Stopped)
    else if name == "destroyed" then Some(Destroyed)
    else None
  }

  function PhaseOf(name: string): Option<Phase> {
    if name == "idle" then Some(Idle)
    else if name == "discuss" then Some(Discuss)
    else if name == "plan" then Some(Plan)
    else if name == "execute" then Some(Execute)
    else if name == "uat" then Some(Uat)
    else if name == "ship" then Some(Ship)
    else None
  }

  /** A stored checkpoint: the names of the active states, and the phase. */
  datatype Record = Record(configuration: seq<string>, phase: string)

  /** The names of the active states of a machine, outermost first. */
  function Names(c: Config<Phase>): seq<string> {
    [StateName(c.outer)] + if c.inner.Some? then [PhaseName(c.inner.value)] else []
  }

  /** What stopping writes. */
  function Saved(c: Config<Phase>): Record {
    Record(Names(c), if c.inner.Some? then PhaseName(c.inner.value) else "idle")
  }

  /**
   * What starting on a store leads to. A fresh machine enters running/idle; a checkpoint whose names
   * are all known replaces the active configuration, but not the (empty) history.
   */
  function Restored(latest: Option<Record>): Config<Phase> {
    var started := Config(Running, Some(Idle), None);
    if latest.None? then started
    else
      var names := latest.value.configuration;
      if |names| == 2 && names[0] == "running" && PhaseOf(names[1]).Some? then Config(Running, PhaseOf(names[1]), None)
      else if |names| == 1 && StateOf(names[0]).Some? && names[0] != "running"
      then Config(StateOf(names[0]).value, None, None)
      else started
  }

  /** The command that resumes a phase, or the configured one. */
  function ResumeCommand(inner: Option<Phase>, configured: Option<string>): Option<string> {
    match inner
    case Some(Discuss) => Some("/gsd:discuss-phase 1")
    case Some(Plan) => Some("/gsd:plan-phase 1")
    case Some(Execute) => Some("/gsd:execute-phase 1")
    case Some(Uat) => Some("/gsd:verify-work")
    case Some(Ship) => Some("/gsd:ship")
    case _ => configured
  }

  /** The durable part of the worker's memory store that concerns checkpoints. */
  class MemoryStore {
    var checkpoints: seq<Record>
    var currentPhase: Option<string>

    function Latest(): Option<Record>
      reads this
    {
      if checkpoints == [] then None else Some(checkpoints[|checkpoints| - 1])
    }

    constructor ()
      ensures checkpoints == [] && currentPhase.None?
    {
      checkpoints, currentPhase := [], None;
    }

    /** Two writes: the checkpoint, then the phase under its own key. */
    method Write(r: Record)
      modifies this
      ensures checkpoints == old(checkpoints) + [r] && Latest() == Some(r)
      ensures currentPhase == Some(r.phase)
    {
      checkpoints := checkpoints + [r];
      currentPhase := Some(r.phase);
    }
  }

  class WorkerContainer {
    const memory: MemoryStore
    const configured: Option<string>
    var fsm: Config<Phase>
    var memoryOpen: bool
    var command: Option<string>
    var errorCount: nat
    var blockedReason: Option<string>

    /** A sub-state is active exactly while running, and a machine that has not run has no history. */
    ghost predicate Valid()
      reads this
    {
      fsm.Valid() && (fsm.outer.Creating? ==> fsm.history.None?)
    }

    constructor (memory: MemoryStore, configured: Option<string>)
      ensures Valid()
      ensures this.memory == memory && this.configured == configured && command == configured
      ensures fsm == NEW_GSD && !memoryOpen && errorCount == 0 && blockedReason.None?
    {
      this.memory, this.configured := memory, configured;
      fsm, memoryOpen, command := NEW_GSD, false, configured;
      errorCount, blockedReason := 0, None;
    }

    /** Sends one event to the machine; a rejected event raises. */
    method Send(e: Event) returns (ok: bool)
      requires Valid()
      modifies this`fsm
      ensures Valid()
      ensures ok == Outer(old(fsm), e, Idle).Some?
      ensures fsm == if ok then Outer(old(fsm), e, Idle).value else old(fsm)
    {
      match Outer(fsm, e, Idle)
      case Some(c) =>
        fsm := c;
        ok := true;
      case None =>
        ok := false;
    }

    method Start() returns (ok: bool)
      requires Valid()
      modifies this
      ensures Valid()
      ensures ok == old(fsm).outer.Creating?
      ensures ok ==> memoryOpen && fsm == Restored(memory.Latest()) && command == ResumeCommand(fsm.inner, old(command))
      ensures !ok ==> fsm == old(fsm) && memoryOpen == old(memoryOpen) && command == old(command)
      ensures errorCount == old(errorCount) && blockedReason == old(blockedReason)
    {
      ok := Send(Event.Start);
      if !ok {
        return;
      }
      memoryOpen := true;
      var latest := memory.Latest();
      if latest.Some? {
        var names := latest.value.configuration;
        if |names| == 2 && names[0] == "running" && PhaseOf(names[1]).Some? {
          fsm := Config(Running, PhaseOf(names[1]), None);
        } else if |names| == 1 && StateOf(names[0]).Some? && names[0] != "running" {
          fsm := Config(StateOf(names[0]).value, None, None);
        }
      }
      command := ResumeCommand(fsm.inner, command);
    }

    /** Checkpoint first, then the two-phase stop; the checkpoint needs an open store. */
    method Stop() returns (ok: bool)
      requires Valid()
      modifies this, memory
      ensures Valid()
      ensures ok == (old(memoryOpen) && Next(old(fsm).outer, BeginStop).Some?)
      ensures memory.checkpoints == old(memory.checkpoints) + if old(memoryOpen) then [Saved(old(fsm))] else []
      ensures memory.currentPhase == if old(memoryOpen) then Some(Saved(old(fsm)).phase) else old(memory.currentPhase)
      ensures ok ==> fsm.outer.Stopped? && !memoryOpen && Current(fsm, Idle) == Current(old(fsm), Idle)
      ensures !ok ==> fsm == old(fsm) && memoryOpen == old(memoryOpen)
      ensures command == old(command) && errorCount == old(errorCount) && blockedReason == old(blockedReason)
    {
      if !memoryOpen {
        return false;
      }
      memory.Write(Saved(fsm));
      ok := Send(BeginStop);
      if ok {
        ok := Send(FinishStop);
        memoryOpen := false;
      }
    }

    /** The error is counted even when the machine rejects it. */
    method Fail() returns (ok: bool)
      requires Valid()
      modifies this
      ensures Valid()
      ensures errorCount == old(errorCount) + 1
      ensures ok == Next(old(fsm).outer, Error).Some?
      ensures fsm == if ok then Outer(old(fsm), Error, Idle).value else old(fsm)
      ensures memoryOpen == old(memoryOpen) && command == old(command) && blockedReason == old(blockedReason)
    {
      errorCount := errorCount + 1;
      ok := Send(Error);
    }

    /** The reason is kept, cut to 200 characters, even when the machine rejects the block. */
    method Block(reason: string) returns (ok: bool)
      requires Valid()
      modifies this
      ensures Valid()
      ensures blockedReason.Some? && blockedReason.value <= reason
      ensures |blockedReason.value| == if |reason| < 200 then |reason| else 200
      ensures ok == Next(old(fsm).outer, Event.Block).Some?
      ensures fsm == if ok then Outer(old(fsm), Event.Block, Idle).value else old(fsm)
      ensures memoryOpen == old(memoryOpen) && command == old(command) && errorCount == old(errorCount)
    {
      blockedReason := Some(if |reason| < 200 then reason else reason[..200]);
      ok := Send(Event.Block);
    }

    method Unblock() returns (ok: bool)
      requires Valid()
      modifies this
      ensures Valid()
      ensures blockedReason.None?
      ensures ok == Next(old(fsm).outer, Event.Unblock).Some?
      ensures fsm == if ok then Outer(old(fsm), Event.Unblock, Idle).value else old(fsm)
      ensures memoryOpen == old(memoryOpen) && command == old(command) && errorCount == old(errorCount)
    {
      blockedReason := None;
      ok := Send(Event.Unblock);
    }
  }

  lemma {:induction false} NamesDistinct(s: State, p: Phase)
    ensures StateOf(StateName(s)) == Some(s) && PhaseOf(PhaseName(p)) == Some(p)
    ensures StateName(s) == "running" <==> s.Running?
  {
    assert "sleeping"[1] != "stopping"[1];
  }

  /** `n` times: stop, then start a fresh container on the same store. */
  function Restarts(c: Config<Phase>, n: nat): Config<Phase> {
    if n == 0 then c else Restored(Some(Saved(Restarts(c, n - 1))))
  }

  /** Stopped while running in a phase, an agent comes back running in that phase, for any number of restarts. */
  lemma {:induction false} RestartsKeepPhase(c: Config<Phase>, n: nat)
    requires c.Valid() && c.outer.Running?
    ensures Restarts(c, n).outer.Running? && Restarts(c, n).inner == c.inner
  {
    if n > 0 {
      RestartsKeepPhase(c, n - 1);
      NamesDistinct(Running, c.inner.value);
    }
  }

  /** And its next command is the one for that phase; only an idle agent gets the configured command. */
  lemma {:induction false} ResumesItsPhase(c: Config<Phase>, n: nat, configured: Option<string>)
    requires c.Valid() && c.outer.Running? && n > 0
    ensures ResumeCommand(Restarts(c, n).inner, configured) == ResumeCommand(c.inner, configured)
    ensures c.inner == Some(Idle) ==> ResumeCommand(Restarts(c, n).inner, configured) == configured
  {
    RestartsKeepPhase(c, n);
  }

  /**
   * The command of every phase but two names the phase; verification has one of its own, and an agent that is idle or
   * not running keeps the one configured.
   */
  lemma {:induction false} CommandNamesPhase(inner: Option<Phase>, configured: Option<string>)
    ensures var command := ResumeCommand(inner, configured);
            match inner
            case None => command == configured
            case Some(Idle) => command == configured
            case Some(Uat) => command == Some("/gsd:verify-work")
            case Some(p) => command.Some? && "/gsd:" + PhaseName(p) <= command.value
  {
    assert "/gsd:" + "discuss" <= "/gsd:discuss-phase 1";
    assert "/gsd:" + "plan" <= "/gsd:plan-phase 1";
    assert "/gsd:" + "execute" <= "/gsd:execute-phase 1";
    assert "/gsd:" + "ship" <= "/gsd:ship";
  }

  /** The phase a stop stores is the phase the next start restores. */
  lemma {:induction false} StoredPhaseIsRestored(c: Config<Phase>)
    requires c.Valid()
    ensures Saved(c).phase == PhaseName(Current(Restored(Some(Saved(c))), Idle))
  {
    NamesDistinct(c.outer, if c.inner.Some? then c.inner.value else Idle);
  }

  lemma {:induction false} NamesInverse(name: string)
    ensures StateOf(name).Some? ==> StateName(StateOf(name).value) == name
    ensures PhaseOf(name).Some? ==> PhaseName(PhaseOf(name).value) == name
  {
  }

  /** A checkpoint with any name that neither a state nor a phase has is as good as none. */
  lemma {:induction false} UnknownIsIgnored(r: Record, i: nat)
    requires i < |r.configuration|
    requires forall s :: r.configuration[i] != StateName(s)
    requires forall p :: r.configuration[i] != PhaseName(p)
    ensures Restored(Some(r)) == Restored(None) == Config(Running, Some(Idle), None)
  {
    NamesInverse(r.configuration[i]);
    assert r.configuration[i] != StateName(Running);
  }

  // Process deaths

  /** The life of one process: the events its machine was sent, and whether it was stopped or died. */
  datatype Life = Life(events: seq<GsdEvent>, stopped: bool)

  /** The latest checkpoint after these lives, each on the store the one before it left. */
  function Lived(latest: Option<Record>, lives: seq<Life>): Option<Record> {
    if lives == [] then latest
    else
      var before, life := Lived(latest, lives[..|lives| - 1]), lives[|lives| - 1];
      if life.stopped then Some(Saved(RunGsd(Restored(before), life.events))) else before
  }

  /** How many of the last lives were ended by a death. */
  function Deaths(lives: seq<Life>): (n: nat)
    ensures n <= |lives|
  {
    if lives == [] || lives[|lives| - 1].stopped then 0 else 1 + Deaths(lives[..|lives| - 1])
  }

  /** A process death leaves the checkpoint of the last stop, whatever happened since. */
  lemma {:induction false} DeathKeepsLastStop(latest: Option<Record>, lives: seq<Life>)
    ensures Lived(latest, lives) == Lived(latest, lives[..|lives| - Deaths(lives)])
    ensures Deaths(lives) < |lives| ==> lives[|lives| - Deaths(lives) - 1].stopped
  {
    if lives == [] || lives[|lives| - 1].stopped {
      assert lives[..|lives|] == lives;
    } else {
      var before := lives[..|lives| - 1];
      DeathKeepsLastStop(latest, before);
      assert before[..|before| - Deaths(before)] == lives[..|lives| - Deaths(lives)];
    }
  }

  lemma {:induction false} RestoredValid(latest: Option<Record>)
    ensures Restored(latest).Valid() && Restored(latest).history.None?
  {
  }

  /**
   * So a death loses exactly the phases entered in that life: the restored phase is the current one iff no phase
   * event was accepted.
   */
  lemma {:induction false} DeathLosesPhaseIff(latest: Option<Record>, events: seq<GsdEvent>)
    ensures var start := Restored(latest);
            var end := RunGsd(start, events);
            && Current(end, Idle).Rank() == Current(start, Idle).Rank() + Advances(start, events)
            && (Current(Restored(Lived(latest, [Life(events, false)])), Idle) == Current(end, Idle)
                <==> Advances(start, events) == 0)
  {
    RestoredValid(latest);
    PhaseIsAdvances(Restored(latest), events);
    assert [Life(events, false)][..0] == [] && Lived(latest, [Life(events, false)][..0]) == latest;
    RankInjective(Current(Restored(latest), Idle), Current(RunGsd(Restored(latest), events), Idle));
  }

  lemma {:induction false} RankInjective(p: Phase, q: Phase)
    ensures p.Rank() == q.Rank() <==> p == q
  {
  }

  /**
   * A stop from any other state keeps that state but not the phase: the phase survives exactly when the agent was
   * running or idle anyway.
   */
  lemma {:induction false} PhaseSurvivesIff(c: Config<Phase>)
    requires c.Valid() && Next(c.outer, BeginStop).Some?
    ensures Restored(Some(Saved(c))).outer == c.outer
    ensures Current(Restored(Some(Saved(c))), Idle) == Current(c, Idle)
            <==> c.outer.Running? || c.history == None || c.history == Some(Idle)
  {
    NamesDistinct(c.outer, if c.inner.Some? then c.inner.value else Idle);
  }

  /** An agent that is planning, put to sleep and stopped, wakes up idle. */
  lemma {:induction false} SleepingStopLosesPhase()
    ensures var c := RunGsd(NEW_GSD, [GsdOuter(Start), StartDiscuss, StartPlan, GsdOuter(Sleep)]);
            && Current(c, Idle) == Plan
            && Outer(Restored(Some(Saved(c))), Wake, Idle).Some?
            && Outer(Restored(Some(Saved(c))), Wake, Idle).value.inner == Some(Idle)
  {
    var e1 := [GsdOuter(Start)];
    var e2, e3 := e1 + [StartDiscuss], e1 + [StartDiscuss, StartPlan];
    assert e1[..0] == [] && RunGsd(NEW_GSD, e1).inner == Some(Idle);
    assert e2[..1] == e1 && RunGsd(NEW_GSD, e2).inner == Some(Discuss);
    assert e3[..2] == e2 && RunGsd(NEW_GSD, e3).inner == Some(Plan);
    assert [GsdOuter(Start), StartDiscuss, StartPlan, GsdOuter(Sleep)][..3] == e3;
    NamesDistinct(Sleeping, Idle);
  }
}
