/**
 * Hiring, dismissing and reconnecting company agents with durable routing
 * (src/vcompany/supervisor/company_root.py and src/vcompany/daemon/routing_state.py).
 *
 * The workers outlive the head process; the routing file is all a restarted head knows of them.
 */
module Routing {
  import opened Options

  type Config = map<string, string>

  /** Persisted routing information of one agent. */
  datatype AgentRouting = AgentRouting(
    agentId: string, channelId: Option<string>, categoryId: Option<string>, agentType: string,
    handlerType: string, config: Config, capabilities: seq<string>, transport: string)

  /** The head's view of a running agent. */
  datatype Handle = Handle(
    agentId: string, agentType: string, capabilities: seq<string>, channelId: Option<string>,
    handlerType: string, config: Config)

  type Routes = map<string, AgentRouting>

  /** Where a worker can be connected to. */
  datatype Address = At(transport: string, agentId: string)

  predicate KnownTransport(name: string) {
    name in {"native", "docker", "network"}
  }

  /** What hiring persists about a handle. */
  function RoutingOf(h: Handle, transport: string): AgentRouting {
    AgentRouting(h.agentId, h.channelId, None, h.agentType, h.handlerType, h.config, h.capabilities, transport)
  }

  /** The handle a restarted head rebuilds. */
  function HandleOf(r: AgentRouting): Handle {
    Handle(r.agentId, r.agentType, r.capabilities, r.channelId, r.handlerType, r.config)
  }

  /**
   * Durable file, in-memory routing and agents, and the dismissals that still wait for their worker to
   * stop; `persistent` when the head has a data directory.
   */
  datatype State = State(persistent: bool, file: Option<Routes>, routing: Routes, agents: map<string, Handle>,
                         dismissing: multiset<string>)
  {
    /** The routing has changed, and has been written unless the write raised. */
    function Saved(routing: Routes, ok: bool): State {
      if persistent then this.(file := if ok then Some(routing) else file, routing := routing) else this
    }
    predicate InStep() {
      Loaded(file) == routing
    }
  }

  function Loaded(file: Option<Routes>): Routes {
    if file.Some? then file.value else map[]
  }

  function Hired(s: State, h: Handle, transport: string, ok: bool): State {
    s.(agents := s.agents[h.agentId := h]).Saved(s.routing[h.agentId := RoutingOf(h, transport)], ok)
  }

  /** A dismissal up to its await on the worker: the agent is gone, its route is not. */
  function BegunDismissal(s: State, id: string): State {
    s.(agents := s.agents - {id}, dismissing := s.dismissing + multiset{id})
  }

  /** A dismissal after its await: the route of that id goes, whoever it belongs to by now. */
  function EndedDismissal(s: State, id: string, ok: bool): State {
    s.(dismissing := s.dismissing - multiset{id}).Saved(s.routing - {id}, ok)
  }

  /** A dismissal whose worker could not be stopped: the route stays, without its agent. */
  function FailedDismissal(s: State, id: string): State {
    s.(dismissing := s.dismissing - multiset{id})
  }

  /** The routed agents that a reconnect reaches, each through the transport of its route. */
  function Reachable(routing: Routes, reachable: set<Address>): Routes {
    map id | id in routing && KnownTransport(routing[id].transport) && At(routing[id].transport, id) in reachable ::
      routing[id]
  }

  function Handles(routing: Routes): map<string, Handle> {
    map id | id in routing :: HandleOf(routing[id])
  }

  /** All routed agents but the `rest` have been tried: the reached ones are connected, the others are stale. */
  ghost predicate Tried(before: map<string, Handle>, agents: map<string, Handle>, routing: Routes, kept: Routes,
                        rest: set<string>, stale: set<string>) {
    && rest <= routing.Keys
    && stale == (routing.Keys - rest) - kept.Keys
    && agents == before + Handles(kept - rest)
  }

  lemma {:induction false} HandlesMore(routing: Routes, id: string, r: AgentRouting)
    ensures Handles(routing[id := r]) == Handles(routing)[id := HandleOf(r)]
  {
  }

  lemma {:induction false} TryReached(before: map<string, Handle>, agents: map<string, Handle>, routing: Routes,
                                      kept: Routes, rest: set<string>, stale: set<string>, id: string)
    requires Tried(before, agents, routing, kept, rest, stale) && id in rest && id in kept
    ensures Tried(before, agents[id := HandleOf(kept[id])], routing, kept, rest - {id}, stale)
  {
    assert kept - (rest - {id}) == (kept - rest)[id := kept[id]];
    HandlesMore(kept - rest, id, kept[id]);
    assert before + Handles(kept - rest)[id := HandleOf(kept[id])]
        == (before + Handles(kept - rest))[id := HandleOf(kept[id])];
  }

  lemma {:induction false} TryStale(before: map<string, Handle>, agents: map<string, Handle>, routing: Routes,
                                    kept: Routes, rest: set<string>, stale: set<string>, id: string)
    requires Tried(before, agents, routing, kept, rest, stale) && id in rest && id !in kept
    ensures Tried(before, agents, routing, kept, rest - {id}, stale + {id})
  {
    assert kept - (rest - {id}) == kept - rest;
  }

  /**
   * Reached agents get a handle; the routes of the others are dropped, durably if there are any and the write
   * succeeds.
   */
  function Reconnected(s: State, reachable: set<Address>, ok: bool): State {
    var kept := Reachable(s.routing, reachable);
    var s' := s.(routing := kept, agents := s.agents + Handles(kept));
    if s.persistent && kept.Keys != s.routing.Keys && ok then s'.(file := Some(kept)) else s'
  }

  /** The routing file on disk. */
  class RoutingFile {
    var content: Option<Routes>

    constructor ()
      ensures content.None?
    {
      content := None;
    }

    /** Writes the file, unless that raises. */
    method Save(routing: Routes, ok: bool)
      modifies this
      ensures content == if ok then Some(routing) else old(content)
    {
      if ok {
        content := Some(routing);
      }
    }

    method Load() returns (routing: Routes)
      ensures routing == Loaded(content)
    {
      routing := if content.Some? then content.value else map[];
    }
  }

  /** The root's side that hires, dismisses and reconnects agents. */
  class CompanyRoot {
    const persistent: bool
    const file: RoutingFile
    var routing: Routes
    var agents: map<string, Handle>
    var dismissing: multiset<string>

    ghost function View(): State
      reads this, file
    {
      State(persistent, file.content, routing, agents, dismissing)
    }

    constructor (file: RoutingFile, persistent: bool)
      ensures this.file == file && this.persistent == persistent
      ensures agents == map[] && dismissing == multiset{}
      ensures routing == if persistent then Loaded(file.content) else map[]
    {
      this.file, this.persistent := file, persistent;
      agents, dismissing := map[], multiset{};
      routing := map[];
      new;
      if persistent {
        routing := file.Load();
      }
    }

    /** Spawning or greeting the worker may fail, before anything is recorded; the save, after all is. */
    method Hire(h: Handle, transport: string, spawned: bool, saves: bool) returns (recorded: bool)
      modifies this, file
      ensures recorded == (KnownTransport(transport) && spawned)
      ensures View() == if recorded then Hired(old(View()), h, transport, saves) else old(View())
    {
      if !KnownTransport(transport) || !spawned {
        return false;
      }
      agents := agents[h.agentId := h];
      if persistent {
        routing := routing[h.agentId := RoutingOf(h, transport)];
        file.Save(routing, saves);
      }
      return true;
    }

    /** The part of a dismissal before its await on the worker. */
    method BeginDismiss(id: string) returns (found: bool)
      modifies this`agents, this`dismissing
      ensures found == (id in old(agents))
      ensures View() == if found then BegunDismissal(old(View()), id) else old(View())
    {
      if id !in agents {
        return false;
      }
      agents := agents - {id};
      dismissing := dismissing + multiset{id};
      return true;
    }

    /** The part after it; when stopping the worker raised there is none. */
    method EndDismiss(id: string, stopped: bool, saves: bool)
      requires id in dismissing
      modifies this`routing, this`dismissing, file
      ensures View() == if stopped then EndedDismissal(old(View()), id, saves) else FailedDismissal(old(View()), id)
    {
      dismissing := dismissing - multiset{id};
      if stopped && persistent {
        routing := routing - {id};
        file.Save(routing, saves);
      }
    }

    /** Tries every routed agent; the ones that cannot be reached are returned as stale. */
    method ConnectAll(reachable: set<Address>) returns (stale: set<string>)
      modifies this`agents
      ensures var kept := Reachable(routing, reachable);
              && stale == routing.Keys - kept.Keys
              && agents == old(agents) + Handles(kept)
    {
      ghost var kept := Reachable(routing, reachable);
      var rest := routing.Keys;
      stale := {};
      assert kept - rest == map[];
      while rest != {}
        invariant Tried(old(agents), agents, routing, kept, rest, stale)
        decreases rest
      {
        var id :| id in rest;
        if KnownTransport(routing[id].transport) && At(routing[id].transport, id) in reachable {
          TryReached(old(agents), agents, routing, kept, rest, stale, id);
          agents := agents[id := HandleOf(routing[id])];
        } else {
          TryStale(old(agents), agents, routing, kept, rest, stale, id);
          stale := stale + {id};
        }
        rest := rest - {id};
      }
      assert kept - rest == kept;
    }

    method RemoveStale(stale: set<string>)
      requires stale <= routing.Keys
      modifies this`routing
      ensures routing == old(routing) - stale
    {
      var rest := stale;
      while rest != {}
        invariant rest <= stale
        invariant routing == old(routing) - (stale - rest)
        decreases rest
      {
        var id :| id in rest;
        routing := routing - {id};
        rest := rest - {id};
      }
    }

    method ReconnectAgents(reachable: set<Address>, saves: bool)
      modifies this, file
      ensures View() == Reconnected(old(View()), reachable, saves)
    {
      var stale := ConnectAll(reachable);
      assert routing - stale == Reachable(routing, reachable);
      RemoveStale(stale);
      if stale != {} && persistent {
        file.Save(routing, saves);
      }
    }

    /** A restarted head loads the file and reconnects. */
    method Start(reachable: set<Address>, saves: bool)
      modifies this, file
      ensures var loaded := if persistent then Loaded(old(file.content)) else old(routing);
              View() == Reconnected(old(View()).(routing := loaded), reachable, saves)
    {
      if persistent {
        routing := file.Load();
      }
      ReconnectAgents(reachable, saves);
    }
  }

  // Runs with crashes and saves that raise

  /**
   * Where a crash falls: between steps, or in one, before or after its only durable write. A crash in a
   * reconnect is a restart that did not happen, or one that did, and then another restart.
   */
  datatype Interrupted =
    | Idle
    | InHire(h: Handle, transport: string, saved: bool)
    | InDismiss(id: string, saved: bool)

  /** The steps from one await to the next; `ok` says whether the save of the step, if it comes to one, succeeds. */
  datatype Event =
    | Hire(h: Handle, transport: string, spawned: bool, ok: bool)
    | BeginDismiss(id: string)
    | EndDismiss(id: string, ok: bool)
    | FailDismiss(id: string)
    | CrashAndRestart(at: Interrupted, reachable: set<Address>, ok: bool)

  /** Whether the step a crash falls in got its durable write done. */
  predicate Wrote(s: State, at: Interrupted) {
    match at
    case Idle => false
    case InHire(_, transport, saved) => saved && KnownTransport(transport)
    case InDismiss(id, saved) => saved && id in s.dismissing
  }

  /** The file a crash leaves behind. */
  function FileAfter(s: State, at: Interrupted): Option<Routes> {
    if !Wrote(s, at) then s.file
    else
      match at
      case Idle => s.file
      case InHire(h, transport, _) => Hired(s, h, transport, true).file
      case InDismiss(id, _) => EndedDismissal(s, id, true).file
  }

  /** A new process on this file, after its reconnect. */
  function Restarted(persistent: bool, file: Option<Routes>, reachable: set<Address>, ok: bool): State {
    Reconnected(State(persistent, file, if persistent then Loaded(file) else map[], map[], multiset{}), reachable, ok)
  }

  predicate Hires(e: Event) {
    e.Hire? && KnownTransport(e.transport) && e.spawned
  }

  function Step(s: State, e: Event): State {
    match e
    case Hire(h, transport, _, ok) => if Hires(e) then Hired(s, h, transport, ok) else s
    case BeginDismiss(id) => if id in s.agents then BegunDismissal(s, id) else s
    case EndDismiss(id, ok) => if id in s.dismissing then EndedDismissal(s, id, ok) else s
    case FailDismiss(id) => if id in s.dismissing then FailedDismissal(s, id) else s
    case CrashAndRestart(at, reachable, ok) => Restarted(s.persistent, FileAfter(s, at), reachable, ok)
  }

  function Run(s: State, events: seq<Event>): State {
    if events == [] then s else Step(Run(s, events[..|events| - 1]), events[|events| - 1])
  }

  const FRESH := State(true, None, map[], map[], multiset{})

  // One id, read off the events

  /** A hire: the agent, and the transport its worker is reached by. */
  datatype Hiring = Hiring(h: Handle, transport: string)

  /** The last hire of an id that no dismissal has ended, in memory and in the file. */
  datatype Hold = Hold(routed: Option<Hiring>, filed: Option<Hiring>)

  /**
   * What the file has of this id after a crash: what the interrupted step wrote, which is all of the routing, or
   * what it had.
   */
  function FiledAt(k: Hold, s: State, at: Interrupted, id: string): Option<Hiring> {
    if !Wrote(s, at) then k.filed
    else if at.InHire? && at.h.agentId == id then Some(Hiring(at.h, at.transport))
    else if at.InDismiss? && at.id == id then None
    else k.routed
  }

  function HoldAfter(k: Hold, s: State, e: Event, id: string): Hold {
    match e
    case Hire(h, transport, _, ok) =>
      if !Hires(e) then k
      else
        var routed := if h.agentId == id then Some(Hiring(h, transport)) else k.routed;
        Hold(routed, if ok then routed else k.filed)
    case EndDismiss(x, ok) =>
      if x !in s.dismissing then k
      else
        var routed := if x == id then None else k.routed;
        Hold(routed, if ok then routed else k.filed)
    case CrashAndRestart(at, reachable, ok) =>
      var filed := FiledAt(k, s, at, id);
      var routed := if filed.Some? && At(filed.value.transport, id) in reachable then filed else None;
      Hold(routed, if ok then routed else filed)
    case _ => k
  }

  function HoldOf(events: seq<Event>, id: string): Hold {
    if events == [] then Hold(None, None)
    else
      var before := events[..|events| - 1];
      HoldAfter(HoldOf(before, id), Run(FRESH, before), events[|events| - 1], id)
  }

  /**
   * Whether the agent was hired while a dismissal of its id was under way, and is still endangered by it: it
   * has not been dismissed again since, and its route has gone or the dismissal is still to end.
   */
  predicate GapAfter(gap: bool, s: State, e: Event, id: string) {
    match e
    case Hire(h, _, _, _) => if Hires(e) && h.agentId == id then id in s.dismissing else gap
    case BeginDismiss(x) => x != id && gap
    case EndDismiss(_, _) => gap
    case FailDismiss(x) => gap && !(x == id && s.dismissing[id] == 1 && id in s.routing)
    case CrashAndRestart(_, _, _) => false
  }

  predicate HiredInGap(events: seq<Event>, id: string) {
    events != [] &&
    var before := events[..|events| - 1];
    GapAfter(HiredInGap(before, id), Run(FRESH, before), events[|events| - 1], id)
  }

  /** Whether the last dismissal of an agent that is gone has failed and left its route behind. */
  predicate StrandAfter(stranded: bool, s: State, e: Event, id: string) {
    match e
    case Hire(h, _, _, _) => stranded && !(Hires(e) && h.agentId == id)
    case FailDismiss(x) =>
      stranded || (x == id && s.dismissing[id] == 1 && id !in s.agents && id in s.routing)
    case CrashAndRestart(_, _, _) => false
    case _ => stranded
  }

  predicate Stranded(events: seq<Event>, id: string) {
    events != [] &&
    var before := events[..|events| - 1];
    StrandAfter(Stranded(before, id), Run(FRESH, before), events[|events| - 1], id)
  }

  // What every step keeps

  /** The route has every field of the hire. */
  predicate Describes(r: AgentRouting, k: Hiring) {
    && r.agentId == k.h.agentId && r.agentType == k.h.agentType && r.capabilities == k.h.capabilities
    && r.channelId == k.h.channelId && r.handlerType == k.h.handlerType && r.config == k.h.config
    && r.transport == k.transport && r.categoryId.None?
  }

  /** These routes have this hire, or none, for the id. */
  ghost predicate Has(routes: Routes, id: string, k: Option<Hiring>) {
    && (id in routes <==> k.Some?)
    && (id in routes ==> Describes(routes[id], k.value))
  }

  /** Routes are keyed by agent and name a known transport. */
  ghost predicate Proper(routes: Routes) {
    forall id :: id in routes ==> routes[id].agentId == id && KnownTransport(routes[id].transport)
  }

  ghost predicate Durable(s: State) {
    s.persistent && Proper(s.routing) && Proper(Loaded(s.file))
  }

  /** How the agent, its route and its dismissals stand to each other. */
  ghost predicate Stands(s: State, id: string, gap: bool, stranded: bool) {
    && (id in s.agents && id in s.routing ==> s.agents[id] == HandleOf(s.routing[id]))
    && if gap then id in s.agents && (id in s.routing ==> id in s.dismissing) && !stranded
       else if stranded then id !in s.agents && id in s.routing && id !in s.dismissing
       else id in s.agents <==> id in s.routing && id !in s.dismissing
  }

  ghost predicate Known(s: State, id: string, k: Hold, gap: bool, stranded: bool) {
    Durable(s) && Has(s.routing, id, k.routed) && Has(Loaded(s.file), id, k.filed) && Stands(s, id, gap, stranded)
  }

  /** The step keeps what is known of the id. */
  ghost predicate Keeps(s: State, e: Event, id: string, k: Hold, gap: bool, stranded: bool) {
    Known(Step(s, e), id, HoldAfter(k, s, e, id), GapAfter(gap, s, e, id), StrandAfter(stranded, s, e, id))
  }

  lemma {:induction false} HireHolds(s: State, e: Event, id: string, k: Hold)
    requires Durable(s) && Has(s.routing, id, k.routed) && Has(Loaded(s.file), id, k.filed) && Hires(e)
    ensures Durable(Step(s, e))
    ensures Has(Step(s, e).routing, id, HoldAfter(k, s, e, id).routed)
    ensures Has(Loaded(Step(s, e).file), id, HoldAfter(k, s, e, id).filed)
  {
    assert HandleOf(RoutingOf(e.h, e.transport)) == e.h;
  }

  lemma {:induction false} HireKeeps(s: State, e: Event, id: string, k: Hold, gap: bool, stranded: bool)
    requires Known(s, id, k, gap, stranded) && e.Hire?
    ensures Keeps(s, e, id, k, gap, stranded)
  {
    if Hires(e) {
      HireHolds(s, e, id, k);
      assert HandleOf(RoutingOf(e.h, e.transport)) == e.h;
    }
  }

  lemma {:induction false} BeginKeeps(s: State, e: Event, id: string, k: Hold, gap: bool, stranded: bool)
    requires Known(s, id, k, gap, stranded) && e.BeginDismiss?
    ensures Keeps(s, e, id, k, gap, stranded)
  {
  }

  lemma {:induction false} EndHolds(s: State, e: Event, id: string, k: Hold)
    requires Durable(s) && Has(s.routing, id, k.routed) && Has(Loaded(s.file), id, k.filed)
    requires e.EndDismiss? && e.id in s.dismissing
    ensures Durable(Step(s, e))
    ensures Has(Step(s, e).routing, id, HoldAfter(k, s, e, id).routed)
    ensures Has(Loaded(Step(s, e).file), id, HoldAfter(k, s, e, id).filed)
  {
  }

  lemma {:induction false} EndKeeps(s: State, e: Event, id: string, k: Hold, gap: bool, stranded: bool)
    requires Known(s, id, k, gap, stranded) && e.EndDismiss?
    ensures Keeps(s, e, id, k, gap, stranded)
  {
    if e.id in s.dismissing {
      EndHolds(s, e, id, k);
    }
  }

  lemma {:induction false} FailKeeps(s: State, e: Event, id: string, k: Hold, gap: bool, stranded: bool)
    requires Known(s, id, k, gap, stranded) && e.FailDismiss?
    ensures Keeps(s, e, id, k, gap, stranded)
  {
  }

  /**
   * A restart keeps exactly the routed agents whose worker is reached through the transport of the route, each with
   * the handle its route describes.
   */
  lemma {:induction false} RestartAgrees(file: Option<Routes>, reachable: set<Address>, ok: bool)
    requires Proper(Loaded(file))
    ensures var s := Restarted(true, file, reachable, ok);
            && Durable(s) && s.dismissing == multiset{}
            && s.agents.Keys == s.routing.Keys
            && (forall id :: id in s.routing <==>
                  id in Loaded(file) && At(Loaded(file)[id].transport, id) in reachable)
            && Loaded(s.file) == (if ok then s.routing else Loaded(file))
            && forall id :: id in s.routing ==>
                 s.routing[id] == Loaded(file)[id] && s.agents[id] == HandleOf(Loaded(file)[id])
  {
    var routes := Loaded(file);
    var kept := Reachable(routes, reachable);
    if kept.Keys == routes.Keys {
      assert kept == routes;
    }
  }

  /** A crash leaves the file before or after the one durable write of the step it falls in. */
  lemma {:induction false} CrashFile(s: State, at: Interrupted)
    requires Durable(s)
    ensures Proper(Loaded(FileAfter(s, at)))
    ensures FileAfter(s, at) == s.file
            || (at.InHire? && FileAfter(s, at) == Hired(s, at.h, at.transport, true).file)
            || (at.InDismiss? && FileAfter(s, at) == EndedDismissal(s, at.id, true).file)
  {
  }

  /** The durable route of one id after a crash. */
  lemma {:induction false} CrashRoute(s: State, at: Interrupted, id: string, k: Hold)
    requires Durable(s) && Has(s.routing, id, k.routed) && Has(Loaded(s.file), id, k.filed)
    ensures Has(Loaded(FileAfter(s, at)), id, FiledAt(k, s, at, id))
  {
  }

  lemma {:induction false} CrashKeeps(s: State, e: Event, id: string, k: Hold, gap: bool, stranded: bool)
    requires Known(s, id, k, gap, stranded) && e.CrashAndRestart?
    ensures Keeps(s, e, id, k, gap, stranded)
  {
    CrashFile(s, e.at);
    CrashRoute(s, e.at, id, k);
    RestartAgrees(FileAfter(s, e.at), e.reachable, e.ok);
  }

  lemma {:induction false} StepKeeps(s: State, e: Event, id: string, k: Hold, gap: bool, stranded: bool)
    requires Known(s, id, k, gap, stranded)
    ensures Keeps(s, e, id, k, gap, stranded)
  {
    match e
    case Hire(_, _, _, _) => HireKeeps(s, e, id, k, gap, stranded);
    case BeginDismiss(_) => BeginKeeps(s, e, id, k, gap, stranded);
    case EndDismiss(_, _) => EndKeeps(s, e, id, k, gap, stranded);
    case FailDismiss(_) => FailKeeps(s, e, id, k, gap, stranded);
    case CrashAndRestart(_, _, _) => CrashKeeps(s, e, id, k, gap, stranded);
  }

  lemma {:induction false} RunKnown(events: seq<Event>, id: string)
    ensures Known(Run(FRESH, events), id, HoldOf(events, id), HiredInGap(events, id), Stranded(events, id))
  {
    if events != [] {
      var before := events[..|events| - 1];
      RunKnown(before, id);
      StepKeeps(Run(FRESH, before), events[|events| - 1], id,
                HoldOf(before, id), HiredInGap(before, id), Stranded(before, id));
    }
  }

  /** Routing and agents agree on the id, dismissals under way apart. */
  predicate Agrees(s: State, id: string) {
    id in s.agents <==> id in s.routing && id !in s.dismissing
  }

  /**
   * Over any run of steps, crashes and saves that raise: routing and file have exactly the hire of an id
   * that the events say, with the type, channel, handler, config, capabilities and transport of that hire; an
   * agent with a route has the handle it was hired with; and routing and agents agree on an id, dismissals under
   * way apart, exactly when it is not endangered by a hire in the gap of its own dismissal and its last
   * dismissal has not failed.
   */
  lemma {:induction false} RoutingAgrees(events: seq<Event>, id: string)
    ensures var s, k := Run(FRESH, events), HoldOf(events, id);
            && Has(s.routing, id, k.routed) && Has(Loaded(s.file), id, k.filed)
            && (id in s.agents && id in s.routing ==> s.agents[id] == k.routed.value.h)
            && (Agrees(s, id) <==> !HiredInGap(events, id) && !Stranded(events, id))
  {
    RunKnown(events, id);
  }

  /** No hire completes while a dismissal of its own id is under way, and no dismissal fails. */
  ghost predicate Serial(events: seq<Event>) {
    forall i :: 0 <= i < |events| ==>
      && (Hires(events[i]) ==> events[i].h.agentId !in Run(FRESH, events[..i]).dismissing)
      && !events[i].FailDismiss?
  }

  lemma {:induction false} SerialIsSafe(events: seq<Event>, id: string)
    requires Serial(events)
    ensures !HiredInGap(events, id) && !Stranded(events, id)
  {
    if events != [] {
      var before := events[..|events| - 1];
      assert forall i :: 0 <= i < |before| ==> before[i] == events[i] && before[..i] == events[..i];
      SerialIsSafe(before, id);
    }
  }

  /** Then at every point the routing keys are the agents and the agents being dismissed. */
  lemma {:induction false} KeysCoincide(events: seq<Event>)
    requires Serial(events)
    ensures forall id :: Agrees(Run(FRESH, events), id)
  {
    forall id
      ensures Agrees(Run(FRESH, events), id)
    {
      SerialIsSafe(events, id);
      RoutingAgrees(events, id);
    }
  }

  // The file and the routing

  /** Whether the event comes to a save, and what it makes of the answer to: did the last save succeed? */
  predicate SyncAfter(s: State, e: Event, synced: bool) {
    match e
    case Hire(_, _, _, ok) => if Hires(e) then ok else synced
    case EndDismiss(id, ok) => if id in s.dismissing then ok else synced
    case CrashAndRestart(_, _, ok) => ok
    case _ => synced
  }

  predicate Synced(events: seq<Event>) {
    events != [] ==>
      var before := events[..|events| - 1];
      SyncAfter(Run(FRESH, before), events[|events| - 1], Synced(before))
  }

  /** After any run whose last save succeeded the file is the routing. */
  lemma {:induction false} FileIsRouting(events: seq<Event>)
    requires Synced(events)
    ensures Run(FRESH, events).InStep()
  {
    RunKnown(events, "");
    if events != [] {
      var before, e := events[..|events| - 1], events[|events| - 1];
      RunKnown(before, "");
      if e.CrashAndRestart? {
        CrashFile(Run(FRESH, before), e.at);
        RestartAgrees(FileAfter(Run(FRESH, before), e.at), e.reachable, e.ok);
      } else if Synced(before) {
        FileIsRouting(before);
      }
    }
  }

  /** A save that raises separates them exactly when the step changed the routing. */
  lemma {:induction false} FailedSaveShows(s: State, e: Event)
    requires s.persistent && s.InStep()
    requires (Hires(e) && !e.ok) || (e.EndDismiss? && !e.ok && e.id in s.dismissing)
    ensures Step(s, e).InStep() <==> Step(s, e).routing == s.routing
  {
  }

  // What goes wrong

  /** An agent whose hire could not be saved is forgotten by the next restart, though its worker is reached. */
  lemma {:induction false} UnsavedHireIsForgotten(events: seq<Event>, h: Handle, reachable: set<Address>)
    requires HoldOf(events, h.agentId).filed.None?
    ensures var s := Step(Run(FRESH, events), Hire(h, "native", true, false));
            && h.agentId in s.agents && h.agentId in s.routing
            && h.agentId !in Step(s, CrashAndRestart(Idle, reachable, true)).agents
  {
    RunKnown(events, h.agentId);
    var s := Step(Run(FRESH, events), Hire(h, "native", true, false));
    StepKeeps(Run(FRESH, events), Hire(h, "native", true, false), h.agentId, HoldOf(events, h.agentId),
              HiredInGap(events, h.agentId), Stranded(events, h.agentId));
    RestartAgrees(s.file, reachable, true);
  }

  /** An agent hired again before its dismissal has ended loses its route, and the next restart forgets it. */
  lemma {:induction false} HireInGapIsForgotten(s: State, h: Handle, reachable: set<Address>)
    requires s.persistent && h.agentId in s.dismissing
    ensures var s1 := Step(s, Hire(h, "native", true, true));
            var s2 := Step(s1, EndDismiss(h.agentId, true));
            && h.agentId in s2.agents && h.agentId !in s2.routing
            && h.agentId !in Step(s2, CrashAndRestart(Idle, reachable, true)).agents
  {
  }

  /**
   * A dismissal that fails leaves a route without an agent, and the next restart that reaches the worker revives
   * it.
   */
  lemma {:induction false} FailedDismissalRevives(s: State, id: string, reachable: set<Address>)
    requires Durable(s) && s.InStep() && id in s.agents && id in s.routing && id !in s.dismissing
    requires At(s.routing[id].transport, id) in reachable
    ensures var s1 := Step(Step(s, BeginDismiss(id)), FailDismiss(id));
            && id !in s1.agents && id in s1.routing && id !in s1.dismissing
            && id in Step(s1, CrashAndRestart(Idle, reachable, true)).agents
  {
    RestartAgrees(s.file, reachable, true);
  }

  /** Without a data directory nothing is routed, so a restart finds no agents. */
  lemma {:induction false} WithoutDataDirectory(events: seq<Event>)
    ensures var s := Run(FRESH.(persistent := false), events);
            && !s.persistent && s.file.None? && s.routing == map[]
            && (events != [] && events[|events| - 1].CrashAndRestart? ==> s.agents == map[])
  {
    if events != [] {
      WithoutDataDirectory(events[..|events| - 1]);
    }
  }

  /** Exactly three transports can be hired with; a hire with another one changes nothing. */
  lemma {:induction false} HiredTransports(s: State, h: Handle, transport: string)
    requires s.persistent
    ensures var t := Step(s, Hire(h, transport, true, true));
            if transport == "native" || transport == "docker" || transport == "network"
            then
              && t.agents == s.agents[h.agentId := h] && h.agentId in t.routing
              && Describes(t.routing[h.agentId], Hiring(h, transport)) && t.file == Some(t.routing)
            else t == s
  {
  }

  /**
   * After a hire that was saved, a restart right away has the agent back exactly when its worker is reached through
   * the transport it was hired with.
   */
  lemma {:induction false} ReconnectsAsHired(events: seq<Event>, h: Handle, transport: string, reachable: set<Address>)
    requires KnownTransport(transport)
    ensures var s := Step(Run(FRESH, events), Hire(h, transport, true, true));
            var t := Step(s, CrashAndRestart(Idle, reachable, true));
            && (h.agentId in t.agents <==> At(transport, h.agentId) in reachable)
            && (h.agentId in t.agents ==> t.agents[h.agentId] == h)
  {
    RunKnown(events, h.agentId);
    var s := Step(Run(FRESH, events), Hire(h, transport, true, true));
    StepKeeps(Run(FRESH, events), Hire(h, transport, true, true), h.agentId, HoldOf(events, h.agentId),
              HiredInGap(events, h.agentId), Stranded(events, h.agentId));
    RestartAgrees(s.file, reachable, true);
  }
}
