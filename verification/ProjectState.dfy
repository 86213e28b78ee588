/**
 * The project manager's state (src/vcompany/autonomy/project_state.py): the backlog together with one
 * durable assignment record per agent, and the recovery of items whose agent is gone.
 *
 * Every write to the store is one durable step. The process may crash between any two of them, and
 * any of them may raise, which ends the operation and leaves its change to the list in memory only.
 */
module ProjectState {
  import opened Options
  import opened Backlog

  /** The key of an agent's assignment record; a missing owner is formatted as "None". */
  function RecordKey(agent: Option<string>): string {
    "assignment:" + if agent.Some? then agent.value else "None"
  }

  /** Assigned to an agent that is not active. */
  predicate Stale(item: Item, active: set<string>) {
    item.status.Assigned? && item.owner.Some? && item.owner.value !in active
  }

  function Requeued(item: Item): Item {
    item.(status := Pending, owner := None)
  }

  datatype Operation =
    | Queue(op: Op)
    | AssignNext(agent: string)
    | TaskCompleted(agent: string, id: string)
    | TaskFailed(agent: string, id: string)
    | ReassignStale(active: set<string>)

  datatype State = State(items: Items, kv: KV)

  /** The re-queue operations that recover the stale ones of the first `n` items, in list order. */
  function StaleOpsTo(items: Items, active: set<string>, n: nat): seq<Op>
    requires n <= |items|
  {
    if n == 0 then []
    else if Stale(items[n - 1], active) then StaleOpsTo(items, active, n - 1) + [MarkPending(items[n - 1].id)]
    else StaleOpsTo(items, active, n - 1)
  }

  function StaleOps(items: Items, active: set<string>): seq<Op> {
    StaleOpsTo(items, active, |items|)
  }

  /** The backlog operations an operation consists of. */
  function OpsOf(s: State, o: Operation): seq<Op> {
    match o
    case Queue(op) => [op]
    case AssignNext(agent) => [Claim(agent)]
    case TaskCompleted(_, id) => [MarkCompleted(id)]
    case TaskFailed(_, id) => [MarkPending(id)]
    case ReassignStale(active) => StaleOps(s.items, active)
  }

  function Persisted(kv: KV, items: Items): KV {
    kv[BACKLOG_KEY := Value.Queue(items)]
  }

  function Latest(kv: KV, writes: seq<KV>): KV {
    if writes == [] then kv else writes[|writes| - 1]
  }

  /** Recovery writes twice per stale item: the backlog, then the deletion of the record of no owner. */
  function RecoveryWrites(s: State, ops: seq<Op>): (r: seq<KV>)
    ensures |r| == 2 * |ops|
  {
    if ops == [] then []
    else
      var before := RecoveryWrites(s, ops[..|ops| - 1]);
      var kv := Persisted(Latest(s.kv, before), Run(s.items, ops));
      before + [kv, kv - {RecordKey(None)}]
  }

  /** The contents of the store after each durable step of an operation. */
  function Writes(s: State, o: Operation): seq<KV> {
    if o.ReassignStale? then RecoveryWrites(s, OpsOf(s, o))
    else
      var op := OpsOf(s, o)[0];
      if !Accepted(s.items, op) then []
      else
        var kv := Persisted(s.kv, After(s.items, op));
        match o
        case Queue(_) => [kv]
        case AssignNext(agent) => [kv, kv[RecordKey(Some(agent)) := Assignment(ClaimOf(s.items, agent).value)]]
        case TaskCompleted(agent, _) => [kv, kv - {RecordKey(Some(agent))}]
        case TaskFailed(agent, _) => [kv, kv - {RecordKey(Some(agent))}]
  }

  /** The state after the whole operation. */
  function Done(s: State, o: Operation): State {
    State(Run(s.items, OpsOf(s, o)), Latest(s.kv, Writes(s, o)))
  }

  /** The state after a crash behind the first `k` durable steps, and a reload. */
  function Crashed(s: State, o: Operation, k: nat): State
    requires k <= |Writes(s, o)|
  {
    var kv := Latest(s.kv, Writes(s, o)[..k]);
    State(Stored(kv), kv)
  }

  /** How many of the operation's backlog steps have changed the list when its write at position `k` raises. */
  function Tried(o: Operation, k: nat): nat {
    if o.ReassignStale? then k / 2 + 1 else 1
  }

  /** The state after the write at position `k` raised and ended the operation. */
  function Raised(s: State, o: Operation, k: nat): State
    requires k < |Writes(s, o)|
  {
    State(Run(s.items, OpsOf(s, o)[..Tried(o, k)]), Latest(s.kv, Writes(s, o)[..k]))
  }

  /** The state after the operation, when the write at position `fails` raises if it comes to that many. */
  function Attempted(s: State, o: Operation, fails: nat): State {
    if fails < |Writes(s, o)| then Raised(s, o, fails) else Done(s, o)
  }

  /** The durable steps of such an attempt. */
  function WritesOf(s: State, o: Operation, fails: nat): seq<KV> {
    if fails < |Writes(s, o)| then Writes(s, o)[..fails] else Writes(s, o)
  }

  lemma {:induction false} RunOne(items: Items, op: Op)
    ensures Run(items, [op]) == After(items, op)
  {
    assert [op][..0] == [];
    assert Run(items, [op][..0]) == items;
  }

  class ProjectStateManager {
    const backlog: BacklogQueue
    const memory: MemoryStore

    constructor (backlog: BacklogQueue)
      ensures this.backlog == backlog && memory == backlog.memory
    {
      this.backlog, memory := backlog, backlog.memory;
    }

    ghost function View(): State
      reads backlog, memory
    {
      State(backlog.items, memory.kv)
    }

    /** The operation has been carried out, or up to the write that raised, through exactly its durable steps. */
    twostate predicate Did(o: Operation, fails: nat)
      reads backlog, memory
    {
      && View() == Attempted(old(View()), o, fails)
      && memory.history == old(memory.history) + WritesOf(old(View()), o, fails)
    }

    method AssignNextTask(agent: string, fails: nat) returns (item: Option<Item>)
      requires memory == backlog.memory
      modifies backlog, memory
      ensures Did(AssignNext(agent), fails)
      ensures item == if fails < 2 then None else ClaimOf(old(backlog.items), agent)
    {
      AttemptOne(View(), AssignNext(agent), fails);
      item := backlog.ClaimNext(agent, fails != 0);
      if item.Some? {
        memory.Set(RecordKey(Some(agent)), Assignment(item.value), fails != 1);
        item := if fails == 1 then None else item;
      }
    }

    method HandleTaskCompleted(agent: string, id: string, fails: nat) returns (found: bool)
      requires memory == backlog.memory
      modifies backlog, memory
      ensures Did(TaskCompleted(agent, id), fails) && found == Accepted(old(backlog.items), MarkCompleted(id))
    {
      AttemptOne(View(), TaskCompleted(agent, id), fails);
      found := backlog.MarkCompleted(id, fails != 0);
      if found && fails != 0 {
        memory.Delete(RecordKey(Some(agent)), fails != 1);
      }
    }

    method HandleTaskFailed(agent: string, id: string, fails: nat) returns (found: bool)
      requires memory == backlog.memory
      modifies backlog, memory
      ensures Did(TaskFailed(agent, id), fails) && found == Accepted(old(backlog.items), MarkPending(id))
    {
      AttemptOne(View(), TaskFailed(agent, id), fails);
      found := backlog.MarkPending(id, fails != 0);
      if found && fails != 0 {
        memory.Delete(RecordKey(Some(agent)), fails != 1);
      }
    }

    /** One step of the recovery: re-queue the item, then delete the record named by the owner it has now. */
    method Requeue(i: nat, first: bool, second: bool)
      requires memory == backlog.memory && DistinctIds(backlog.items) && i < |backlog.items|
      modifies backlog, memory
      ensures backlog.items == After(old(backlog.items), MarkPending(old(backlog.items)[i].id))
      ensures var kv := Persisted(old(memory.kv), backlog.items);
              var steps := if !first then [] else if !second then [kv] else [kv, kv - {RecordKey(None)}];
              && memory.kv == Latest(old(memory.kv), steps)
              && memory.history == old(memory.history) + steps
    {
      RequeueAt(backlog.items, i);
      var _ := backlog.MarkPending(backlog.items[i].id, first);
      if first {
        memory.Delete(RecordKey(backlog.items[i].owner), second);
      }
    }

    /** The recovery of the stale item at position `i`, `n` writes into it. */
    method Recover(i: nat, n: nat, fails: nat, ghost s: State, ghost active: set<string>, ghost written: seq<KV>,
                   ghost ids: seq<string>)
      returns (raised: bool, ghost steps: seq<KV>)
      requires memory == backlog.memory && DistinctIds(s.items) && i < |s.items| && Stale(s.items[i], active)
      requires Recovering(s, active, i, backlog.items, written, ids)
      requires n == |written| <= fails && memory.kv == Latest(s.kv, written)
      modifies backlog, memory
      ensures |backlog.items| == |s.items|
      ensures memory.kv == Latest(s.kv, written + steps) && memory.history == old(memory.history) + steps
      ensures Outcome(s, active, i, written + steps, ids + [s.items[i].id], fails, raised, backlog.items)
      ensures !raised ==> |steps| == 2
    {
      RecoveryStep(s, active, i, backlog.items, written, ids);
      steps := RecoverOutcome(s, active, i, backlog.items, written, ids, fails);
      LatestConcat(s.kv, written, steps);
      raised := n == fails || n + 1 == fails;
      Requeue(i, n != fails, n + 1 != fails);
    }

    /** One iteration of the recovery loop. */
    method Visit(i: nat, n: nat, active: set<string>, ids: seq<string>, fails: nat, ghost s: State,
                 ghost written: seq<KV>)
      returns (raised: bool, n': nat, ids': seq<string>, ghost steps: seq<KV>)
      requires memory == backlog.memory && i < |s.items| && memory.kv == Latest(s.kv, written)
      requires Going(s, active, i, backlog.items, written, ids, n, fails)
      modifies backlog, memory
      ensures memory.kv == Latest(s.kv, written + steps) && memory.history == old(memory.history) + steps
      ensures raised ==> EndsWith(s, ReassignStale(active), fails, backlog.items, written + steps)
      ensures !raised ==> Going(s, active, i + 1, backlog.items, written + steps, ids', n', fails)
    {
      raised, n', ids', steps := false, n, ids, [];
      RecoveryStep(s, active, i, backlog.items, written, ids);
      assert written + [] == written;
      if Stale(backlog.items[i], active) {
        ids' := ids + [backlog.items[i].id];
        raised, steps := Recover(i, n, fails, s, active, written, ids);
        n' := n + 2;
      }
    }

    /** The recovery loop. */
    method RecoverAll(active: set<string>, fails: nat, ghost s: State)
      returns (raised: bool, ids: seq<string>, ghost written: seq<KV>)
      requires memory == backlog.memory && DistinctIds(s.items) && s == View()
      modifies backlog, memory
      ensures memory.kv == Latest(s.kv, written) && memory.history == old(memory.history) + written
      ensures raised ==> EndsWith(s, ReassignStale(active), fails, backlog.items, written)
      ensures !raised ==> |written| <= fails && Recovering(s, active, |s.items|, backlog.items, written, ids)
    {
      raised, ids, written := false, [], [];
      var i, n := 0, 0;
      RecoveryBegins(s, active);
      HistoryGrows(memory.history, [], []);
      while i < |backlog.items| && !raised
        invariant i <= |s.items|
        invariant raised ==> EndsWith(s, ReassignStale(active), fails, backlog.items, written)
        invariant !raised ==> Going(s, active, i, backlog.items, written, ids, n, fails)
        invariant memory.history == old(memory.history) + written && memory.kv == Latest(s.kv, written)
        decreases |s.items| - i
      {
        ghost var steps;
        raised, n, ids, steps := Visit(i, n, active, ids, fails, s, written);
        HistoryGrows(old(memory.history), written, steps);
        written := written + steps;
        i := i + 1;
      }
    }

    method ReassignStaleItems(active: set<string>, fails: nat) returns (reassigned: seq<string>)
      requires memory == backlog.memory && DistinctIds(backlog.items)
      modifies backlog, memory
      ensures Did(ReassignStale(active), fails)
      ensures fails >= |Writes(old(View()), ReassignStale(active))| ==>
                reassigned == StaleIds(old(backlog.items), active)
    {
      ghost var s, written := View(), [];
      var raised;
      raised, reassigned, written := RecoverAll(active, fails, s);
      if !raised {
        RecoveryEnds(s, active, backlog.items, written, reassigned);
      }
    }
  }

  /** The recovery has dealt with the first `i` items in `n` writes, none of which was to raise. */
  ghost predicate Going(s: State, active: set<string>, i: nat, items: Items, written: seq<KV>, ids: seq<string>, n: nat,
                        fails: nat)
    requires i <= |s.items|
  {
    && DistinctIds(s.items) && |items| == |s.items| && n == |written| <= fails
    && Recovering(s, active, i, items, written, ids)
  }

  /** Where the recovery of the item at position `i` leads: to its end by a write that raised, or to the next item. */
  ghost predicate Outcome(s: State, active: set<string>, i: nat, written: seq<KV>, ids: seq<string>, fails: nat,
                          raised: bool, items: Items)
    requires i < |s.items|
  {
    if raised then EndsWith(s, ReassignStale(active), fails, items, written)
    else |written| <= fails && Recovering(s, active, i + 1, items, written, ids)
  }

  lemma {:induction false} HistoryGrows(h: seq<KV>, a: seq<KV>, b: seq<KV>)
    ensures h + a + b == h + (a + b)
  {
  }

  lemma {:induction false} LatestConcat(kv: KV, a: seq<KV>, b: seq<KV>)
    ensures Latest(kv, a + b) == Latest(Latest(kv, a), b)
  {
    assert a + [] == a;
  }

  lemma {:induction false} RecoverOutcome(s: State, active: set<string>, i: nat, items: Items, written: seq<KV>,
                                          ids: seq<string>, fails: nat)
    returns (steps: seq<KV>)
    requires DistinctIds(s.items) && i < |s.items| && Stale(s.items[i], active) && |written| <= fails
    requires Recovering(s, active, i, items, written, ids)
    ensures var id, n := s.items[i].id, |written|;
            var kv := NextStored(s, items, written, id);
            && steps == (if n == fails then [] else if n + 1 == fails then [kv] else [kv, kv - {RecordKey(None)}])
            && Outcome(s, active, i, written + steps, ids + [id], fails, n == fails || n + 1 == fails,
                       After(items, MarkPending(id)))
  {
    var id, n := s.items[i].id, |written|;
    var kv := NextStored(s, items, written, id);
    steps := if n == fails then [] else if n + 1 == fails then [kv] else [kv, kv - {RecordKey(None)}];
    if n == fails || n + 1 == fails {
      RecoverRaises(s, active, i, items, written, ids, fails);
    } else {
      RecoveryRequeues(s, active, i, items, written, ids);
    }
  }

  lemma {:induction false} RecoverRaises(s: State, active: set<string>, i: nat, items: Items, written: seq<KV>,
                                         ids: seq<string>, fails: nat)
    requires DistinctIds(s.items) && i < |s.items| && Stale(s.items[i], active)
    requires Recovering(s, active, i, items, written, ids) && (fails == |written| || fails == |written| + 1)
    ensures var id := s.items[i].id;
            var kv := NextStored(s, items, written, id);
            EndsWith(s, ReassignStale(active), fails, After(items, MarkPending(id)),
                     written + if fails == |written| then [] else [kv])
  {
    var id := s.items[i].id;
    var m := RecoveryNext(s, active, i, items, written, ids);
    RaisesNext(s, active, written, m, After(items, MarkPending(id)), NextStored(s, items, written, id));
    assert written + [] == written;
  }

  /** What an attempt at an operation of one backlog step comes to. */
  lemma {:induction false} AttemptOne(s: State, o: Operation, fails: nat)
    requires !o.ReassignStale?
    ensures Attempted(s, o, fails).items == After(s.items, OpsOf(s, o)[0])
  {
    RunOne(s.items, OpsOf(s, o)[0]);
    assert OpsOf(s, o)[..1] == OpsOf(s, o);
  }

  /** The ids of the stale ones of the first `n` items, in list order. */
  function StaleIdsTo(items: Items, active: set<string>, n: nat): seq<string>
    requires n <= |items|
  {
    if n == 0 then []
    else if Stale(items[n - 1], active) then StaleIdsTo(items, active, n - 1) + [items[n - 1].id]
    else StaleIdsTo(items, active, n - 1)
  }

  function StaleIds(items: Items, active: set<string>): seq<string> {
    StaleIdsTo(items, active, |items|)
  }

  /** The items with every stale one re-queued in place. */
  function Recovered(items: Items, active: set<string>): (r: Items)
    ensures |r| == |items|
    ensures forall i :: 0 <= i < |r| ==> r[i] == if Stale(items[i], active) then Requeued(items[i]) else items[i]
  {
    RecoveredTo(items, active, |items|)
  }

  /** The recovery after the first `n` items. */
  function RecoveredTo(items: Items, active: set<string>, n: nat): (r: Items)
    requires n <= |items|
    ensures |r| == |items|
    ensures forall i :: 0 <= i < |r| ==>
              r[i] == if i < n && Stale(items[i], active) then Requeued(items[i]) else items[i]
  {
    seq(|items|, i requires 0 <= i < |items| =>
      if i < n && Stale(items[i], active) then Requeued(items[i]) else items[i])
  }

  /** Re-queueing by id hits the item at that position, because ids are distinct. */
  lemma {:induction false} RequeueAt(items: Items, i: nat)
    requires DistinctIds(items) && i < |items|
    ensures IndexOf(items, items[i].id) == i
    ensures After(items, MarkPending(items[i].id)) == items[i := Requeued(items[i])]
  {
    var k := IndexOf(items, items[i].id);
    assert k <= i && items[k].id == items[i].id;
  }

  lemma {:induction false} RecoveredNext(items: Items, active: set<string>, i: nat)
    requires DistinctIds(items) && i < |items|
    ensures var mid := RecoveredTo(items, active, i);
            && DistinctIds(mid) && mid[i] == items[i]
            && RecoveredTo(items, active, i + 1) ==
               if Stale(items[i], active) then After(mid, MarkPending(items[i].id)) else mid
  {
    var mid := RecoveredTo(items, active, i);
    assert forall j :: 0 <= j < |mid| ==> mid[j].id == items[j].id;
    RequeueAt(mid, i);
  }

  lemma {:induction false} RunSnoc(items: Items, ops: seq<Op>, op: Op)
    ensures Run(items, ops + [op]) == After(Run(items, ops), op)
  {
    assert (ops + [op])[..|ops|] == ops;
  }

  lemma {:induction false} WritesSnoc(s: State, ops: seq<Op>, op: Op)
    ensures Run(s.items, ops + [op]) == After(Run(s.items, ops), op)
    ensures var kv := Persisted(Latest(s.kv, RecoveryWrites(s, ops)), Run(s.items, ops + [op]));
            RecoveryWrites(s, ops + [op]) == RecoveryWrites(s, ops) + [kv, kv - {RecordKey(None)}]
  {
    assert (ops + [op])[..|ops|] == ops;
  }

  /** The recovery has dealt with the first `i` items of state `s`. */
  ghost predicate Recovering(s: State, active: set<string>, i: nat, items: Items, written: seq<KV>, ids: seq<string>)
    requires i <= |s.items|
  {
    var ops := StaleOpsTo(s.items, active, i);
    && items == Run(s.items, ops)
    && written == RecoveryWrites(s, ops)
    && ids == StaleIdsTo(s.items, active, i)
  }

  lemma {:induction false} RecoveryBegins(s: State, active: set<string>)
    ensures Recovering(s, active, 0, s.items, [], [])
  {
  }

  lemma {:induction false} RecoveryEnds(s: State, active: set<string>, items: Items, written: seq<KV>, ids: seq<string>)
    requires Recovering(s, active, |s.items|, items, written, ids)
    ensures Done(s, ReassignStale(active)) == State(items, Latest(s.kv, written))
    ensures written == Writes(s, ReassignStale(active)) && ids == StaleIds(s.items, active)
  {
  }

  lemma {:induction false} RecoveryRequeues(s: State, active: set<string>, i: nat, items: Items, written: seq<KV>,
                                            ids: seq<string>)
    requires DistinctIds(s.items) && i < |s.items| && Recovering(s, active, i, items, written, ids)
    requires Stale(s.items[i], active)
    ensures var items' := After(items, MarkPending(s.items[i].id));
            var kv := Persisted(Latest(s.kv, written), items');
            Recovering(s, active, i + 1, items', written + [kv, kv - {RecordKey(None)}], ids + [s.items[i].id])
  {
    WritesSnoc(s, StaleOpsTo(s.items, active, i), MarkPending(s.items[i].id));
  }

  lemma {:induction false} RecoveryStep(s: State, active: set<string>, i: nat, items: Items, written: seq<KV>,
                                        ids: seq<string>)
    requires DistinctIds(s.items) && i < |s.items| && Recovering(s, active, i, items, written, ids)
    ensures DistinctIds(items) && |items| == |s.items| && items[i] == s.items[i]
    ensures !Stale(items[i], active) ==> Recovering(s, active, i + 1, items, written, ids)
    ensures Stale(items[i], active) ==>
              var items' := After(items, MarkPending(items[i].id));
              var kv := Persisted(Latest(s.kv, written), items');
              Recovering(s, active, i + 1, items', written + [kv, kv - {RecordKey(None)}], ids + [items[i].id])
  {
    RecoveryRun(s.items, active, i);
    RecoveredNext(s.items, active, i);
    if Stale(s.items[i], active) {
      RecoveryRequeues(s, active, i, items, written, ids);
    } else {
      }
  }

  lemma {:induction false} StaleOpsPrefix(items: Items, active: set<string>, i: nat, n: nat)
    requires i <= n <= |items|
    ensures StaleOpsTo(items, active, i) <= StaleOpsTo(items, active, n)
  {
    if i < n {
      StaleOpsPrefix(items, active, i, n - 1);
    }
  }

  lemma {:induction false} WritesPrefix(s: State, ops: seq<Op>, m: nat)
    requires m <= |ops|
    ensures RecoveryWrites(s, ops)[..2 * m] == RecoveryWrites(s, ops[..m])
  {
    if m == |ops| {
      assert ops[..m] == ops && RecoveryWrites(s, ops)[..2 * m] == RecoveryWrites(s, ops);
    } else {
      var front := ops[..|ops| - 1];
      WritesPrefix(s, front, m);
      assert front[..m] == ops[..m];
      assert RecoveryWrites(s, ops)[..2 * m] == RecoveryWrites(s, front)[..2 * m];
    }
  }

  /** The operations and writes up to some item are the first ones of the whole recovery. */
  lemma {:induction false} RecoveryUpTo(s: State, active: set<string>, i: nat)
    requires i <= |s.items|
    ensures var ops, m := StaleOps(s.items, active), |StaleOpsTo(s.items, active, i)|;
            && m <= |ops| && ops[..m] == StaleOpsTo(s.items, active, i)
            && RecoveryWrites(s, ops)[..2 * m] == RecoveryWrites(s, StaleOpsTo(s.items, active, i))
  {
    StaleOpsPrefix(s.items, active, i, |s.items|);
    WritesPrefix(s, StaleOps(s.items, active), |StaleOpsTo(s.items, active, i)|);
  }

  /** The attempt raises and ends with this list in memory, through exactly these durable steps. */
  ghost predicate EndsWith(s: State, o: Operation, fails: nat, items: Items, steps: seq<KV>) {
    && fails < |Writes(s, o)|
    && Attempted(s, o, fails) == State(items, Latest(s.kv, steps)) && WritesOf(s, o, fails) == steps
  }

  lemma {:induction false} RaisedAt(s: State, active: set<string>, m: nat, fails: nat, items: Items, steps: seq<KV>)
    requires var ops := StaleOps(s.items, active);
             && 0 < m <= |ops| && (fails == 2 * m - 2 || fails == 2 * m - 1)
             && items == Run(s.items, ops[..m]) && steps == RecoveryWrites(s, ops)[..fails]
    ensures EndsWith(s, ReassignStale(active), fails, items, steps)
  {
    assert fails / 2 + 1 == m;
  }

  lemma {:induction false} FirstOf(all: seq<KV>, written: seq<KV>, a: KV, b: KV)
    requires |all| >= |written| + 2 && all[..|written| + 2] == written + [a, b]
    ensures all[..|written|] == written && all[..|written| + 1] == written + [a]
  {
    assert all[..|written|] == all[..|written| + 2][..|written|];
    assert all[..|written| + 1] == all[..|written| + 2][..|written| + 1];
  }

  /** What is stored after re-queueing the next stale item. */
  function NextStored(s: State, items: Items, written: seq<KV>, id: string): KV {
    Persisted(Latest(s.kv, written), After(items, MarkPending(id)))
  }

  /** The whole recovery after its first `m` operations, the last of which left this list and this store. */
  ghost predicate NextIs(s: State, active: set<string>, written: seq<KV>, m: nat, items: Items, kv: KV) {
    var ops := StaleOps(s.items, active);
    && 0 < m <= |ops| && |written| == 2 * m - 2
    && items == Run(s.items, ops[..m])
    && RecoveryWrites(s, ops)[..2 * m] == written + [kv, kv - {RecordKey(None)}]
  }

  /** The recovery after one more stale item. */
  lemma {:induction false} RecoveryNext(s: State, active: set<string>, i: nat, items: Items, written: seq<KV>,
                                        ids: seq<string>)
    returns (m: nat)
    requires DistinctIds(s.items) && i < |s.items| && Stale(s.items[i], active)
    requires Recovering(s, active, i, items, written, ids)
    ensures var id := s.items[i].id;
            NextIs(s, active, written, m, After(items, MarkPending(id)), NextStored(s, items, written, id))
  {
    RecoveryRequeues(s, active, i, items, written, ids);
    RecoveryUpTo(s, active, i + 1);
    m := |StaleOpsTo(s.items, active, i + 1)|;
  }

  /** When one of the two writes for an item raises, the recovery ends as it should. */
  lemma {:induction false} RaisesNext(s: State, active: set<string>, written: seq<KV>, m: nat, items: Items, kv: KV)
    requires NextIs(s, active, written, m, items, kv)
    ensures EndsWith(s, ReassignStale(active), |written|, items, written)
    ensures EndsWith(s, ReassignStale(active), |written| + 1, items, written + [kv])
  {
    FirstOf(RecoveryWrites(s, StaleOps(s.items, active)), written, kv, kv - {RecordKey(None)});
    RaisedAt(s, active, m, |written|, items, written);
    RaisedAt(s, active, m, |written| + 1, items, written + [kv]);
  }

  // Recovery

  lemma {:induction false} RecoveryRun(items: Items, active: set<string>, i: nat)
    requires DistinctIds(items) && i <= |items|
    ensures Run(items, StaleOpsTo(items, active, i)) == RecoveredTo(items, active, i)
  {
    if i == 0 {
      RecoveredNone(items, active);
    } else {
      RecoveryRun(items, active, i - 1);
      if Stale(items[i - 1], active) {
        RecoveredStale(items, active, i - 1);
        RunOneMore(items, StaleOpsTo(items, active, i - 1), MarkPending(items[i - 1].id),
                   RecoveredTo(items, active, i - 1), RecoveredTo(items, active, i));
      } else {
        RecoveredSame(items, active, i - 1);
      }
    }
  }

  lemma {:induction false} RunOneMore(items: Items, ops: seq<Op>, op: Op, mid: Items, end: Items)
    requires Run(items, ops) == mid && After(mid, op) == end
    ensures Run(items, ops + [op]) == end
  {
    RunSnoc(items, ops, op);
  }

  lemma {:induction false} RecoveredStale(items: Items, active: set<string>, i: nat)
    requires DistinctIds(items) && i < |items| && Stale(items[i], active)
    ensures RecoveredTo(items, active, i + 1) == After(RecoveredTo(items, active, i), MarkPending(items[i].id))
  {
    RecoveredNext(items, active, i);
  }

  lemma {:induction false} RecoveredSame(items: Items, active: set<string>, i: nat)
    requires i < |items| && !Stale(items[i], active)
    ensures RecoveredTo(items, active, i + 1) == RecoveredTo(items, active, i)
  {
  }

  lemma {:induction false} RecoveredNone(items: Items, active: set<string>)
    ensures RecoveredTo(items, active, 0) == items
  {
  }

  /**
   * Recovery makes pending exactly the items assigned to agents that are not active; all else, and the order,
   * stays.
   */
  lemma {:induction false} ReassignExact(s: State, active: set<string>)
    requires DistinctIds(s.items)
    ensures var r := Done(s, ReassignStale(active)).items;
            && |r| == |s.items|
            && forall i :: 0 <= i < |r| ==>
                 var was := s.items[i];
                 if was.status.Assigned? && was.owner.Some? && was.owner.value !in active
                 then r[i] == was.(status := Pending, owner := None)
                 else r[i] == was
  {
    RecoveryRun(s.items, active, |s.items|);
  }

  // Crashes

  lemma {:induction false} KeysDiffer(agent: Option<string>)
    ensures RecordKey(agent) != BACKLOG_KEY
  {
    assert RecordKey(agent)[0] == 'a';
  }

  /**
   * The recovery's write at position `j` stores the effect of its first `m` operations: each is durable with its
   * first write.
   */
  lemma {:induction false} RecoveryStoresAt(s: State, ops: seq<Op>, j: nat, m: nat)
    requires (2 * m == j + 1 || 2 * m == j + 2) && m <= |ops| && j < |RecoveryWrites(s, ops)|
    ensures Stored(RecoveryWrites(s, ops)[j]) == Run(s.items, ops[..m])
    decreases |ops|
  {
    var n := |ops| - 1;
    KeysDiffer(None);
    if m == |ops| {
      assert ops[..m] == ops;
    } else {
      assert ops[..n][..m] == ops[..m];
      RecoveryStoresAt(s, ops[..n], j, m);
    }
  }

  /** How many of the operation's backlog steps are durable after its first `k` writes. */
  function Committed(o: Operation, k: nat): nat {
    if o.ReassignStale? then (k + 1) / 2 else if k == 0 then 0 else 1
  }

  lemma {:induction false} RecoveryStores(s: State, ops: seq<Op>, k: nat, m: nat)
    requires (2 * m == k || 2 * m == k + 1) && m <= |ops| && 0 < k <= |RecoveryWrites(s, ops)|
    ensures Stored(Latest(s.kv, RecoveryWrites(s, ops)[..k])) == Run(s.items, ops[..m])
  {
    assert RecoveryWrites(s, ops)[..k][k - 1] == RecoveryWrites(s, ops)[k - 1];
    RecoveryStoresAt(s, ops, k - 1, m);
  }

  /**
   * After its first `k` writes the store holds the effect of the committed steps on the list in memory, or what it
   * held.
   */
  lemma {:induction false} WritesStore(s: State, o: Operation, k: nat)
    requires k <= |Writes(s, o)|
    ensures Committed(o, k) <= |OpsOf(s, o)|
    ensures Stored(Latest(s.kv, Writes(s, o)[..k]))
         == if k == 0 then Stored(s.kv) else Run(s.items, OpsOf(s, o)[..Committed(o, k)])
  {
    if k > 0 && o.ReassignStale? {
      RecoveryStores(s, OpsOf(s, o), k, (k + 1) / 2);
    } else if k > 0 {
      RunOne(s.items, OpsOf(s, o)[0]);
      assert OpsOf(s, o)[..1] == OpsOf(s, o) == [OpsOf(s, o)[0]];
      assert Writes(s, o)[..k][k - 1] == Writes(s, o)[k - 1];
      if !o.Queue? {
        KeysDiffer(Some(o.agent));
      }
    }
  }

  /** A crash behind any durable step leaves exactly the committed part of the operation. */
  lemma {:induction false} CrashConsistent(s: State, o: Operation, k: nat)
    requires Stored(s.kv) == s.items && k <= |Writes(s, o)|
    ensures Committed(o, k) <= |OpsOf(s, o)|
    ensures Crashed(s, o, k).items == Run(s.items, OpsOf(s, o)[..Committed(o, k)])
  {
    WritesStore(s, o, k);
    assert OpsOf(s, o)[..0] == [];
  }

  /** Every operation but the recovery is atomic: a crash leaves the backlog as before or as after. */
  lemma {:induction false} BeforeOrAfter(s: State, o: Operation, k: nat)
    requires Stored(s.kv) == s.items && k <= |Writes(s, o)| && !o.ReassignStale?
    ensures Crashed(s, o, k).items in {s.items, Done(s, o).items}
  {
    CrashConsistent(s, o, k);
    assert OpsOf(s, o)[..1] == OpsOf(s, o) && OpsOf(s, o)[..0] == [];
  }

  // Runs with crashes and writes that raise

  /**
   * An operation that completes; one cut short by a crash behind its first `k` writes and a reload; or one
   * that ends because its write at position `k` raises, after which the process goes on.
   */
  datatype Event = Completes(o: Operation) | Crashes(o: Operation, k: nat) | Raises(o: Operation, k: nat)

  /** How many writes of the event's operation succeed. */
  function Succeeding(s: State, e: Event): nat {
    if !e.Completes? && e.k < |Writes(s, e.o)| then e.k else |Writes(s, e.o)|
  }

  /** How many of its backlog steps change the list in memory. */
  function Applied(s: State, e: Event): nat {
    if e.Raises? && e.k < |Writes(s, e.o)| then Tried(e.o, e.k) else |OpsOf(s, e.o)|
  }

  function Step(s: State, e: Event): State {
    match e
    case Completes(o) => Done(s, o)
    case Crashes(o, _) => Crashed(s, o, Succeeding(s, e))
    case Raises(o, k) => Attempted(s, o, k)
  }

  function RunEvents(s: State, events: seq<Event>): State {
    if events == [] then s else Step(RunEvents(s, events[..|events| - 1]), events[|events| - 1])
  }

  /** The backlog steps that are durable, in order, and those since that are in memory only. */
  datatype Log = Log(saved: seq<Op>, unsaved: seq<Op>)

  /** The steps from `from` up to `to`, as far as there are any. */
  function Part(ops: seq<Op>, from: nat, to: nat): seq<Op> {
    if from <= to <= |ops| then ops[from..to] else []
  }

  /** A write of the backlog makes all steps before it durable; a crash forgets the ones that are not. */
  function LogAfter(l: Log, s: State, e: Event): Log {
    var ops, n := OpsOf(s, e.o), Committed(e.o, Succeeding(s, e));
    if Succeeding(s, e) == 0
    then Log(l.saved, if e.Crashes? then [] else l.unsaved + Part(ops, 0, Applied(s, e)))
    else Log(l.saved + l.unsaved + Part(ops, 0, n), if e.Crashes? then [] else Part(ops, n, Applied(s, e)))
  }

  function LogOf(s: State, events: seq<Event>): Log {
    if events == [] then Log([], [])
    else
      var before := events[..|events| - 1];
      LogAfter(LogOf(s, before), RunEvents(s, before), events[|events| - 1])
  }

  /** What a step leaves in the store and in memory. */
  lemma {:induction false} StepLeaves(s: State, e: Event)
    ensures var n := Succeeding(s, e);
            && n <= |Writes(s, e.o)| && Step(s, e).kv == Latest(s.kv, Writes(s, e.o)[..n])
            && Committed(e.o, n) <= Applied(s, e) <= |OpsOf(s, e.o)|
    ensures e.Crashes? ==> Step(s, e).items == Stored(Step(s, e).kv)
    ensures !e.Crashes? ==> Step(s, e).items == Run(s.items, OpsOf(s, e.o)[..Applied(s, e)])
  {
    assert Writes(s, e.o)[..|Writes(s, e.o)|] == Writes(s, e.o);
    assert OpsOf(s, e.o)[..|OpsOf(s, e.o)|] == OpsOf(s, e.o);
  }

  /** The store holds the saved steps, and memory the unsaved ones on top of them. */
  ghost predicate Logged(base: Items, s: State, l: Log) {
    Stored(s.kv) == Run(base, l.saved) && s.items == Run(Stored(s.kv), l.unsaved)
  }

  lemma {:induction false} RunParts(items: Items, ops: seq<Op>, n: nat, m: nat)
    requires n <= m <= |ops|
    ensures Run(items, ops[..m]) == Run(Run(items, ops[..n]), ops[n..m])
  {
    Backlog.RunConcat(items, ops[..n], ops[n..m]);
    assert ops[..n] + ops[n..m] == ops[..m];
  }

  /** A step without a durable write only adds to what is unsaved, or loses it. */
  lemma {:induction false} QuietStepLogged(base: Items, s: State, l: Log, e: Event)
    requires Logged(base, s, l) && Succeeding(s, e) == 0
    ensures Logged(base, Step(s, e), LogAfter(l, s, e))
  {
    StepLeaves(s, e);
    assert Step(s, e).kv == s.kv;
    var ops := OpsOf(s, e.o)[..Applied(s, e)];
    assert Part(OpsOf(s, e.o), 0, Applied(s, e)) == ops;
    Backlog.RunConcat(Stored(s.kv), l.unsaved, ops);
  }

  lemma {:induction false} RunThrice(base: Items, a: seq<Op>, b: seq<Op>, c: seq<Op>)
    ensures Run(base, a + b + c) == Run(Run(Run(base, a), b), c)
  {
    Backlog.RunConcat(base, a + b, c);
    Backlog.RunConcat(base, a, b);
  }

  /** A step with one makes all that was unsaved durable. */
  lemma {:induction false} SavingStepLogged(base: Items, s: State, l: Log, e: Event)
    requires Logged(base, s, l) && Succeeding(s, e) > 0
    ensures Logged(base, Step(s, e), LogAfter(l, s, e))
  {
    var ops, n, m := OpsOf(s, e.o), Committed(e.o, Succeeding(s, e)), Applied(s, e);
    StepLeaves(s, e);
    WritesStore(s, e.o, Succeeding(s, e));
    assert Part(ops, 0, n) == ops[..n] && Part(ops, n, m) == ops[n..m];
    RunThrice(base, l.saved, l.unsaved, ops[..n]);
    RunParts(s.items, ops, n, m);
  }

  /**
   * In any run with crashes and writes that raise, what is stored is the backlog after the saved steps, in
   * order and without gaps, and memory is ahead of it by exactly the unsaved ones; so all that holds of
   * backlog runs holds of both, and a crash loses exactly the unsaved steps.
   */
  lemma {:induction false} CrashRunsLinearize(s: State, events: seq<Event>)
    requires Stored(s.kv) == s.items
    ensures Logged(s.items, RunEvents(s, events), LogOf(s, events))
    ensures RunEvents(s, events).items == Run(s.items, LogOf(s, events).saved + LogOf(s, events).unsaved)
  {
    if events != [] {
      var before, e := events[..|events| - 1], events[|events| - 1];
      CrashRunsLinearize(s, before);
      var mid := RunEvents(s, before);
      if Succeeding(mid, e) == 0 {
        QuietStepLogged(s.items, mid, LogOf(s, before), e);
      } else {
        SavingStepLogged(s.items, mid, LogOf(s, before), e);
      }
    }
    Backlog.RunConcat(s.items, LogOf(s, events).saved, LogOf(s, events).unsaved);
  }

  /** Memory is what is stored exactly when the unsaved steps changed nothing on balance. */
  lemma {:induction false} StoredIsMemoryIff(s: State, events: seq<Event>)
    requires Stored(s.kv) == s.items
    ensures var t, l := RunEvents(s, events), LogOf(s, events);
            t.items == Stored(t.kv) <==> Run(Run(s.items, l.saved), l.unsaved) == Run(s.items, l.saved)
  {
    CrashRunsLinearize(s, events);
  }

  /** Without writes that raise it always is. */
  lemma {:induction false} StoredIsMemory(s: State, events: seq<Event>)
    requires Stored(s.kv) == s.items && forall i :: 0 <= i < |events| ==> !events[i].Raises?
    ensures Stored(RunEvents(s, events).kv) == RunEvents(s, events).items
  {
    if events != [] {
      var before, e := events[..|events| - 1], events[|events| - 1];
      StoredIsMemory(s, before);
      StepInStep(RunEvents(s, before), e);
    }
  }

  lemma {:induction false} StepInStep(s: State, e: Event)
    requires Stored(s.kv) == s.items && !e.Raises?
    ensures Stored(Step(s, e).kv) == Step(s, e).items
  {
    StepLeaves(s, e);
    if e.Completes? {
      var n := |Writes(s, e.o)|;
      WritesStore(s, e.o, n);
      assert OpsOf(s, e.o)[..|OpsOf(s, e.o)|] == OpsOf(s, e.o);
      if n == 0 && !e.o.ReassignStale? {
        RunOne(s.items, OpsOf(s, e.o)[0]);
      }
    }
  }

  lemma {:induction false} RunIds(items: Items, ops: seq<Op>)
    ensures multiset(Ids(items)) <= multiset(Ids(Run(items, ops)))
    ensures (forall i :: 0 <= i < |ops| ==> !ops[i].Inserts()) ==>
              multiset(Ids(Run(items, ops))) == multiset(Ids(items))
  {
    if ops != [] {
      RunIds(items, ops[..|ops| - 1]);
      IdsConserved(Run(items, ops[..|ops| - 1]), ops[|ops| - 1]);
    }
  }

  /**
   * No item is ever duplicated; none that was saved is ever lost, and what is in memory only is not lost before a
   * crash.
   */
  lemma {:induction false} CrashesKeepItems(s: State, events: seq<Event>)
    requires Stored(s.kv) == s.items && DistinctIds(s.items) && Owned(s.items)
    requires FreshInserts(s.items, LogOf(s, events).saved + LogOf(s, events).unsaved)
    ensures var t := RunEvents(s, events);
            && multiset(Ids(s.items)) <= multiset(Ids(Stored(t.kv))) <= multiset(Ids(t.items))
            && DistinctIds(t.items) && Owned(t.items) && DistinctIds(Stored(t.kv)) && Owned(Stored(t.kv))
  {
    var l := LogOf(s, events);
    CrashRunsLinearize(s, events);
    RunIds(s.items, l.saved);
    RunIds(Run(s.items, l.saved), l.unsaved);
    RunKeeps(s.items, l.saved + l.unsaved);
    FreshPrefix(s.items, l.saved + l.unsaved, |l.saved|);
    assert (l.saved + l.unsaved)[..|l.saved|] == l.saved;
    RunKeeps(s.items, l.saved);
  }

  /** An item whose insertion could not be saved is in memory, and gone after a crash. */
  lemma {:induction false} UnsavedItemIsLost(s: State, item: Item)
    requires Stored(s.kv) == s.items
    ensures var t := Step(s, Raises(Operation.Queue(Append(item)), 0));
            && t.items == s.items + [item]
            && Step(t, Crashes(Operation.Queue(Append(item)), 0)).items == s.items
  {
    RunOne(s.items, Append(item));
    assert [Append(item)][..1] == [Append(item)];
  }

  lemma {:induction false} PrefixPoint(items: Items, active: set<string>, m: nat, n: nat) returns (j: nat)
    requires n <= |items| && m <= |StaleOpsTo(items, active, n)|
    ensures j <= n && StaleOpsTo(items, active, n)[..m] == StaleOpsTo(items, active, j)
  {
    if m == |StaleOpsTo(items, active, n)| {
      j := n;
    } else {
      j := PrefixPoint(items, active, m, n - 1);
    }
  }

  lemma {:induction false} RecoveryDone(s: State, active: set<string>)
    requires DistinctIds(s.items)
    ensures Done(s, ReassignStale(active)).items == Recovered(s.items, active)
  {
    RecoveryRun(s.items, active, |s.items|);
  }

  lemma {:induction false} RecoveredTwice(items: Items, active: set<string>, j: nat)
    requires DistinctIds(items) && j <= |items|
    ensures DistinctIds(RecoveredTo(items, active, j))
    ensures Recovered(RecoveredTo(items, active, j), active) == Recovered(items, active)
  {
    var mid := RecoveredTo(items, active, j);
    assert forall i :: 0 <= i < |mid| ==> mid[i].id == items[i].id;
  }

  /** A recovery cut short has dealt with some prefix of the items. */
  lemma {:induction false} CrashedRecovery(s: State, active: set<string>, k: nat) returns (j: nat)
    requires Stored(s.kv) == s.items && DistinctIds(s.items) && k <= |Writes(s, ReassignStale(active))|
    ensures j <= |s.items| && Crashed(s, ReassignStale(active), k).items == RecoveredTo(s.items, active, j)
  {
    CrashConsistent(s, ReassignStale(active), k);
    j := RecoveryPrefix(s.items, active, Committed(ReassignStale(active), k));
  }

  lemma {:induction false} RecoveryPrefix(items: Items, active: set<string>, m: nat) returns (j: nat)
    requires DistinctIds(items) && m <= |StaleOps(items, active)|
    ensures j <= |items| && Run(items, StaleOps(items, active)[..m]) == RecoveredTo(items, active, j)
  {
    j := PrefixPoint(items, active, m, |items|);
    RecoveryRun(items, active, j);
  }

  /** A recovery that raised has dealt with some prefix of the items, in memory. */
  lemma {:induction false} RaisedRecovery(s: State, active: set<string>, k: nat) returns (j: nat)
    requires DistinctIds(s.items) && k < |Writes(s, ReassignStale(active))|
    ensures j <= |s.items| && Raised(s, ReassignStale(active), k).items == RecoveredTo(s.items, active, j)
  {
    j := RecoveryPrefix(s.items, active, Tried(ReassignStale(active), k));
  }

  /** So a recovery that raised anywhere and is run again gives what one that did not would have given. */
  lemma {:induction false} RecoveryIsRepeatable(s: State, active: set<string>, k: nat)
    requires DistinctIds(s.items) && k < |Writes(s, ReassignStale(active))|
    ensures var o := ReassignStale(active);
            Done(Raised(s, o, k), o).items == Done(s, o).items
  {
    var j := RaisedRecovery(s, active, k);
    RecoveredTwice(s.items, active, j);
    RecoveryDone(s, active);
    RecoveryDone(Raised(s, ReassignStale(active), k), active);
  }

  /** Recovery can itself be cut short anywhere: running it again gives what one uninterrupted run would have given. */
  lemma {:induction false} RecoveryIsRestartable(s: State, active: set<string>, k: nat)
    requires Stored(s.kv) == s.items && DistinctIds(s.items) && k <= |Writes(s, ReassignStale(active))|
    ensures var o := ReassignStale(active);
            Done(Crashed(s, o, k), o).items == Done(s, o).items
  {
    var j := CrashedRecovery(s, active, k);
    RecoveredTwice(s.items, active, j);
    RecoveryDone(s, active);
    RecoveryDone(Crashed(s, ReassignStale(active), k), active);
  }

  // Assignment records

  lemma {:induction false} RecoveryRecords(s: State, ops: seq<Op>, key: string)
    requires key != BACKLOG_KEY
    ensures var kv := Latest(s.kv, RecoveryWrites(s, ops));
            && (key in kv <==> key in s.kv && (ops == [] || key != RecordKey(None)))
            && (key in kv ==> kv[key] == s.kv[key])
  {
    if ops != [] {
      RecoveryRecords(s, ops[..|ops| - 1], key);
    }
  }

  lemma {:induction false} KeysInjective(a: Option<string>, b: Option<string>)
    requires RecordKey(a) == RecordKey(b)
    ensures (if a.Some? then a.value else "None") == (if b.Some? then b.value else "None")
  {
    var p := |"assignment:"|;
    assert RecordKey(a)[p..] == if a.Some? then a.value else "None";
    assert RecordKey(b)[p..] == if b.Some? then b.value else "None";
  }

  lemma {:induction false} StaleHasOps(items: Items, active: set<string>, i: nat, n: nat)
    requires i < n <= |items| && Stale(items[i], active)
    ensures StaleOpsTo(items, active, n) != []
  {
    if i < n - 1 {
      StaleHasOps(items, active, i, n - 1);
    }
  }

  /**
   * The recovery is meant to delete the records of the agents it takes items from, but reads the owner
   * after clearing it. So those records are gone exactly when none of these agents had one, except an
   * agent that is called "None".
   */
  lemma {:induction false} RecordsCleanedIff(s: State, active: set<string>)
    ensures (forall i :: 0 <= i < |s.items| && Stale(s.items[i], active) ==>
               RecordKey(s.items[i].owner) !in Done(s, ReassignStale(active)).kv)
            <==>
            (forall i :: 0 <= i < |s.items| && Stale(s.items[i], active) ==>
               s.items[i].owner == Some("None") || RecordKey(s.items[i].owner) !in s.kv)
  {
    var ops := StaleOps(s.items, active);
    forall i | 0 <= i < |s.items| && Stale(s.items[i], active)
      ensures RecordKey(s.items[i].owner) in Done(s, ReassignStale(active)).kv
              <==> RecordKey(s.items[i].owner) in s.kv && s.items[i].owner != Some("None")
    {
      KeysDiffer(s.items[i].owner);
      StaleHasOps(s.items, active, i, |s.items|);
      RecoveryRecords(s, ops, RecordKey(s.items[i].owner));
      if RecordKey(s.items[i].owner) == RecordKey(None) {
        KeysInjective(s.items[i].owner, None);
      }
    }
  }

  /** An assigned item whose agent dies is re-queued, but the dead agent keeps its record. */
  lemma {:induction false} StaleRecordSurvives(item: Item)
    requires item.status.Pending?
    ensures var s := Done(State([item], map[]), AssignNext("alpha"));
            var r := Done(s, ReassignStale({}));
            && |s.items| == 1 && Stale(s.items[0], {}) && r.items == [Requeued(item)]
            && RecordKey(Some("alpha")) in r.kv
  {
    var s0 := State([item], map[]);
    RunOne(s0.items, Claim("alpha"));
    var s := Done(s0, AssignNext("alpha"));
    assert FirstPending([item]) == 0;
    var kv := Writes(s0, AssignNext("alpha"));
    assert |kv| == 2 && RecordKey(Some("alpha")) in kv[1];
    ReassignExact(s, {});
    RecordsCleanedIff(s, {});
    assert s.items[0].owner == Some("alpha");
    assert Done(s, ReassignStale({})).items[0] == Requeued(s.items[0]);
  }

  // What an assignment, a completion and a failure leave behind

  function RecordOf(kv: KV, agent: string): Option<Value> {
    var key := RecordKey(Some(agent));
    if key in kv then Some(kv[key]) else None
  }

  lemma {:induction false} RecordKeysDiffer(a: string, b: string)
    requires a != b
    ensures RecordKey(Some(a)) != RecordKey(Some(b))
  {
    if RecordKey(Some(a)) == RecordKey(Some(b)) {
      KeysInjective(Some(a), Some(b));
    }
  }

  /** The first pending item goes to the agent, and the agent's record is that item; all else stays. */
  lemma {:induction false} AssignmentIsExact(s: State, agent: string, k: nat)
    requires k < |s.items| && s.items[k].status.Pending? && forall i :: 0 <= i < k ==> !s.items[i].status.Pending?
    ensures var item := s.items[k].(status := Assigned, owner := Some(agent));
            var t := Done(s, AssignNext(agent));
            && t.items == s.items[k := item] && Stored(t.kv) == t.items
            && RecordOf(t.kv, agent) == Some(Assignment(item))
            && forall other :: other != agent ==> RecordOf(t.kv, other) == RecordOf(s.kv, other)
  {
    RunOne(s.items, Claim(agent));
    var f := FirstPending(s.items);
    assert f == k;
    KeysDiffer(Some(agent));
    forall other | other != agent
      ensures RecordOf(Done(s, AssignNext(agent)).kv, other) == RecordOf(s.kv, other)
    {
      RecordKeysDiffer(agent, other);
      KeysDiffer(Some(other));
    }
  }

  /**
   * The item of a completed task is completed, that of a failed one waits again without an owner; the
   * agent's record is gone, and all else stays.
   */
  lemma {:induction false} SettlementIsExact(s: State, o: Operation, k: nat)
    requires o.TaskCompleted? || o.TaskFailed?
    requires k < |s.items| && s.items[k].id == o.id && forall i :: 0 <= i < k ==> s.items[i].id != o.id
    ensures var t := Done(s, o);
            && |t.items| == |s.items| && (forall i :: 0 <= i < |s.items| && i != k ==> t.items[i] == s.items[i])
            && (o.TaskCompleted? ==> t.items[k] == s.items[k].(status := Completed))
            && (o.TaskFailed? ==> t.items[k] == s.items[k].(status := Pending, owner := None))
            && Stored(t.kv) == t.items && RecordOf(t.kv, o.agent).None?
            && forall other :: other != o.agent ==> RecordOf(t.kv, other) == RecordOf(s.kv, other)
  {
    RunOne(s.items, OpsOf(s, o)[0]);
    UpdateIsExact(s.items, OpsOf(s, o)[0], k);
    var f := IndexOf(s.items, o.id);
    assert f == k;
    KeysDiffer(Some(o.agent));
    forall other | other != o.agent
      ensures RecordOf(Done(s, o).kv, other) == RecordOf(s.kv, other)
    {
      RecordKeysDiffer(o.agent, other);
      KeysDiffer(Some(other));
    }
  }

  /** A task on an item that is not in the list, or an assignment with nothing pending, changes nothing at all. */
  lemma {:induction false} NothingToDo(s: State, o: Operation)
    requires o.AssignNext? || o.TaskCompleted? || o.TaskFailed?
    requires o.AssignNext? ==> forall i :: 0 <= i < |s.items| ==> !s.items[i].status.Pending?
    requires !o.AssignNext? ==> forall i :: 0 <= i < |s.items| ==> s.items[i].id != o.id
    ensures Done(s, o) == s && Writes(s, o) == []
  {
    RunOne(s.items, OpsOf(s, o)[0]);
  }

  /** Whether the second durable write of the operation, which is the one of a record, takes place. */
  ghost predicate Records(s: State, e: Event) {
    && (e.Completes? || e.k >= 2)
    && match e.o
       case Queue(_) => false
       case AssignNext(_) => exists i :: 0 <= i < |s.items| && s.items[i].status.Pending?
       case TaskCompleted(_, id) => exists i :: 0 <= i < |s.items| && s.items[i].id == id
       case TaskFailed(_, id) => exists i :: 0 <= i < |s.items| && s.items[i].id == id
       case ReassignStale(active) => exists i :: 0 <= i < |s.items| && Stale(s.items[i], active)
  }

  /** Whose record that is; the recovery names the owner it has just cleared. */
  function RecordedAgent(o: Operation): string {
    if o.AssignNext? || o.TaskCompleted? || o.TaskFailed? then o.agent else "None"
  }

  /** The agent's last recorded assignment, unless a completion, a failure or a recovery deleted it since. */
  ghost function LastRecord(s: State, events: seq<Event>, agent: string): Option<Value> {
    if events == [] then RecordOf(s.kv, agent)
    else
      var before, e := events[..|events| - 1], events[|events| - 1];
      var mid := RunEvents(s, before);
      if !Records(mid, e) || RecordedAgent(e.o) != agent then LastRecord(s, before, agent)
      else if e.o.AssignNext? && ClaimOf(mid.items, agent).Some?
      then Some(Assignment(ClaimOf(mid.items, agent).value))
      else None
  }

  /** The recovery's first `n` writes touch no record but the one of no owner. */
  lemma {:induction false} RecoveryRecordsAt(s: State, ops: seq<Op>, n: nat, agent: string)
    requires n <= 2 * |ops|
    ensures RecordOf(Latest(s.kv, RecoveryWrites(s, ops)[..n]), agent)
            == if n < 2 || agent != "None" then RecordOf(s.kv, agent) else None
    decreases |ops|
  {
    if n == 0 {
    } else if n <= 2 * (|ops| - 1) {
      var front := ops[..|ops| - 1];
      assert RecoveryWrites(s, ops)[..n] == RecoveryWrites(s, front)[..n];
      RecoveryRecordsAt(s, front, n, agent);
    } else {
      RecoveryRecordsEnd(s, ops, n, agent);
    }
  }

  lemma {:induction false} RecoveryRecordsEnd(s: State, ops: seq<Op>, n: nat, agent: string)
    requires ops != [] && (n == 2 * |ops| - 1 || n == 2 * |ops|)
    ensures RecordOf(Latest(s.kv, RecoveryWrites(s, ops)[..n]), agent)
            == if n < 2 || agent != "None" then RecordOf(s.kv, agent) else None
  {
    var front, all := ops[..|ops| - 1], RecoveryWrites(s, ops);
    var kv := all[..n][n - 1];
    KeysDiffer(Some(agent));
    KeysDiffer(None);
    RecoveryRecords(s, front, RecordKey(Some(agent)));
    if agent != "None" && RecordKey(Some(agent)) == RecordKey(None) {
      KeysInjective(Some(agent), None);
    }
    assert Latest(s.kv, all[..n]) == kv;
  }

  lemma {:induction false} RecoveryKeepsRecords(s: State, e: Event, agent: string)
    requires e.o.ReassignStale?
    ensures RecordOf(Step(s, e).kv, agent)
            == if Records(s, e) && agent == "None" then None else RecordOf(s.kv, agent)
  {
    var ops, n := OpsOf(s, e.o), Succeeding(s, e);
    StepLeaves(s, e);
    RecoveryRecordsAt(s, ops, n, agent);
    StaleIffOps(s.items, e.o.active, |s.items|);
  }

  lemma {:induction false} StaleIffOps(items: Items, active: set<string>, n: nat)
    requires n <= |items|
    ensures StaleOpsTo(items, active, n) != [] <==> exists i :: 0 <= i < n && Stale(items[i], active)
  {
    if n > 0 {
      StaleIffOps(items, active, n - 1);
    }
  }

  lemma {:induction false} StepRecords(s: State, e: Event, agent: string)
    requires !e.o.ReassignStale?
    ensures RecordOf(Step(s, e).kv, agent) ==
            if !Records(s, e) || RecordedAgent(e.o) != agent then RecordOf(s.kv, agent)
            else if e.o.AssignNext? && ClaimOf(s.items, agent).Some?
            then Some(Assignment(ClaimOf(s.items, agent).value))
            else None
  {
    StepLeaves(s, e);
    KeysDiffer(Some(agent));
    if !e.o.Queue? && e.o.agent != agent {
      RecordKeysDiffer(e.o.agent, agent);
    }
  }

  /** Over any run with crashes and writes that raise, the store holds exactly the last recorded assignments. */
  lemma {:induction false} RecordsFollow(s: State, events: seq<Event>, agent: string)
    ensures RecordOf(RunEvents(s, events).kv, agent) == LastRecord(s, events, agent)
  {
    if events != [] {
      var before, e := events[..|events| - 1], events[|events| - 1];
      RecordsFollow(s, before, agent);
      if e.o.ReassignStale? {
        RecoveryKeepsRecords(RunEvents(s, before), e, agent);
      } else {
        StepRecords(RunEvents(s, before), e, agent);
      }
    }
  }
}
