/**
 * The milestone backlog (src/vcompany/autonomy/backlog.py): an ordered queue of items, claimed from
 * the front, re-queued on failure, and written to the memory store by every mutation.
 */
module Backlog {
  import opened Options

  datatype Status = Pending | Assigned | InProgress | Completed | Cancelled

  datatype Item = Item(id: string, title: string, description: string, priority: int,
                       status: Status, owner: Option<string>, createdAt: string)

  type Items = seq<Item>

  /** The first item with this id, or the length of the list. */
  function IndexOf(items: Items, id: string, from: nat := 0): (k: nat)
    requires from <= |items|
    ensures from <= k <= |items|
    ensures forall i :: from <= i < k ==> items[i].id != id
    ensures k < |items| ==> items[k].id == id
    decreases |items| - from
  {
    if from < |items| && items[from].id != id then IndexOf(items, id, from + 1) else from
  }

  /** The first pending item, or the length of the list. */
  function FirstPending(items: Items, from: nat := 0): (k: nat)
    requires from <= |items|
    ensures from <= k <= |items|
    ensures forall i :: from <= i < k ==> !items[i].status.Pending?
    ensures k < |items| ==> items[k].status.Pending?
    decreases |items| - from
  {
    if from < |items| && !items[from].status.Pending? then FirstPending(items, from + 1) else from
  }

  /** Where a Python list inserts for any integer position. */
  function InsertPosition(pos: int, n: nat): (p: nat)
    ensures p <= n
    ensures 0 <= pos <= n ==> p == pos
    ensures pos < 0 ==> p == if n + pos < 0 then 0 else n + pos
    ensures pos > n ==> p == n
  {
    if pos < 0 then (if n + pos < 0 then 0 else n + pos)
    else if pos > n then n else pos
  }

  function InsertAt(items: Items, p: nat, item: Item): (r: Items)
    requires p <= |items|
    ensures |r| == |items| + 1 && r[p] == item
    ensures forall i :: 0 <= i < p ==> r[i] == items[i]
    ensures forall i :: p < i < |r| ==> r[i] == items[i - 1]
  {
    items[..p] + [item] + items[p..]
  }

  function Without(items: Items, k: nat): (r: Items)
    requires k < |items|
    ensures |r| == |items| - 1
    ensures forall i :: 0 <= i < k ==> r[i] == items[i]
    ensures forall i :: k <= i < |r| ==> r[i] == items[i + 1]
  {
    items[..k] + items[k + 1..]
  }

  /** The item at one position moved to another, counted without it. */
  function Moved(items: Items, k: nat, p: nat): Items
    requires k < |items| && p < |items|
  {
    InsertAt(Without(items, k), p, items[k])
  }

  datatype Op =
    | Append(item: Item)
    | InsertUrgent(item: Item)
    | InsertAfter(afterId: string, item: Item)
    | Reorder(id: string, pos: int)
    | Cancel(id: string)
    | Claim(agent: string)
    | MarkCompleted(id: string)
    | MarkPending(id: string)
  {
    predicate Inserts() {
      Append? || InsertUrgent? || InsertAfter?
    }
  }

  /** Whether the operation finds what it needs; otherwise it raises, or claims nothing. */
  predicate Accepted(items: Items, op: Op) {
    match op
    case Append(_) => true
    case InsertUrgent(_) => true
    case InsertAfter(id, _) => IndexOf(items, id) < |items|
    case Reorder(id, _) => IndexOf(items, id) < |items|
    case Cancel(id) => IndexOf(items, id) < |items|
    case Claim(_) => FirstPending(items) < |items|
    case MarkCompleted(id) => IndexOf(items, id) < |items|
    case MarkPending(id) => IndexOf(items, id) < |items|
  }

  /** The list after the operation. */
  function After(items: Items, op: Op): Items {
    if !Accepted(items, op) then items
    else
      match op
      case Append(item) => items + [item]
      case InsertUrgent(item) => [item] + items
      case InsertAfter(id, item) => InsertAt(items, IndexOf(items, id) + 1, item)
      case Reorder(id, pos) =>
        Moved(items, IndexOf(items, id), InsertPosition(pos, |items| - 1))
      case Cancel(id) => var k := IndexOf(items, id); items[k := items[k].(status := Cancelled)]
      case Claim(agent) => var k := FirstPending(items); items[k := items[k].(status := Assigned, owner := Some(agent))]
      case MarkCompleted(id) => var k := IndexOf(items, id); items[k := items[k].(status := Completed)]
      case MarkPending(id) => var k := IndexOf(items, id); items[k := items[k].(status := Pending, owner := None)]
  }

  /** The item a claim hands out. */
  function ClaimOf(items: Items, agent: string): Option<Item> {
    var k := FirstPending(items);
    if k < |items| then Some(items[k].(status := Assigned, owner := Some(agent))) else None
  }

  function PendingItems(items: Items): Items {
    if items == [] then []
    else if items[0].status.Pending? then [items[0]] + PendingItems(items[1..])
    else PendingItems(items[1..])
  }

  /** Cutting the position at the end first makes no difference. */
  lemma {:induction false} ReorderIs(items: Items, id: string, newPosition: int, pos: int)
    requires IndexOf(items, id) < |items|
    requires pos == if newPosition < |items| - 1 then newPosition else |items| - 1
    ensures var k := IndexOf(items, id);
            After(items, Reorder(id, newPosition))
            == InsertAt(Without(items, k), InsertPosition(pos, |items| - 1), items[k])
  {
    assert InsertPosition(pos, |items| - 1) == InsertPosition(newPosition, |items| - 1);
  }

  // The store and the queue

  const BACKLOG_KEY := "backlog"

  /** What the memory store holds under a key, decoded. */
  datatype Value = Queue(items: Items) | Assignment(item: Item)

  type KV = map<string, Value>

  /** The backlog a restarted process would load. */
  function Stored(kv: KV): Items {
    if BACKLOG_KEY in kv && kv[BACKLOG_KEY].Queue? then kv[BACKLOG_KEY].items else []
  }

  /** The head's durable store; `history` records the contents after every write, where a crash may fall. */
  class MemoryStore {
    var kv: KV
    ghost var history: seq<KV>

    constructor ()
      ensures kv == map[] && history == []
    {
      kv, history := map[], [];
    }

    /** One durable write, or none when it raises. */
    method Set(key: string, value: Value, ok: bool)
      modifies this
      ensures kv == if ok then old(kv)[key := value] else old(kv)
      ensures history == if ok then old(history) + [kv] else old(history)
    {
      if ok {
        kv := kv[key := value];
        history := history + [kv];
      }
    }

    method Delete(key: string, ok: bool)
      modifies this
      ensures kv == if ok then old(kv) - {key} else old(kv)
      ensures history == if ok then old(history) + [kv] else old(history)
    {
      if ok {
        kv := kv - {key};
        history := history + [kv];
      }
    }
  }

  class BacklogQueue {
    const memory: MemoryStore
    var items: Items

    constructor (memory: MemoryStore)
      ensures this.memory == memory && items == []
    {
      this.memory := memory;
      items := [];
    }

    method Load()
      modifies this
      ensures items == Stored(memory.kv)
    {
      if BACKLOG_KEY in memory.kv && memory.kv[BACKLOG_KEY].Queue? {
        items := memory.kv[BACKLOG_KEY].items;
      } else {
        items := [];
      }
    }

    method Persist(ok: bool)
      modifies memory
      ensures memory.kv == if ok then old(memory.kv)[BACKLOG_KEY := Queue(items)] else old(memory.kv)
      ensures memory.history == if ok then old(memory.history) + [memory.kv] else old(memory.history)
    {
      memory.Set(BACKLOG_KEY, Queue(items), ok);
    }

    /**
     * The list has changed; when the operation is accepted and the write succeeds there is one durable write, else
     * none.
     */
    twostate predicate Did(op: Op, ok: bool)
      reads this, memory
    {
      && items == After(old(items), op)
      && (if Accepted(old(items), op) && ok
          then
            && memory.kv == old(memory.kv)[BACKLOG_KEY := Queue(items)]
            && memory.history == old(memory.history) + [memory.kv]
          else memory.kv == old(memory.kv) && memory.history == old(memory.history))
    }

    method FindIndex(id: string) returns (k: nat)
      ensures k == IndexOf(items, id)
    {
      k := 0;
      while k < |items| && items[k].id != id
        invariant k <= |items| && IndexOf(items, id, k) == IndexOf(items, id)
      {
        k := k + 1;
      }
    }

    method Append(item: Item, ok: bool)
      modifies this, memory
      ensures Did(Op.Append(item), ok)
    {
      items := items + [item];
      Persist(ok);
    }

    method InsertUrgent(item: Item, ok: bool)
      modifies this, memory
      ensures Did(Op.InsertUrgent(item), ok)
    {
      items := [item] + items;
      Persist(ok);
    }

    method InsertAfter(afterId: string, item: Item, ok: bool) returns (found: bool)
      modifies this, memory
      ensures Did(Op.InsertAfter(afterId, item), ok)
      ensures found == Accepted(old(items), Op.InsertAfter(afterId, item))
    {
      var k := FindIndex(afterId);
      if k == |items| {
        return false;
      }
      items := InsertAt(items, k + 1, item);
      Persist(ok);
      return true;
    }

    method Reorder(id: string, newPosition: int, ok: bool) returns (found: bool)
      modifies this, memory
      ensures Did(Op.Reorder(id, newPosition), ok) && found == Accepted(old(items), Op.Reorder(id, newPosition))
    {
      var k := FindIndex(id);
      if k == |items| {
        return false;
      }
      var item, rest := items[k], Without(items, k);
      var pos := if newPosition < |rest| then newPosition else |rest|;
      ReorderIs(items, id, newPosition, pos);
      items := InsertAt(rest, InsertPosition(pos, |rest|), item);
      Persist(ok);
      return true;
    }

    method Cancel(id: string, ok: bool) returns (found: bool)
      modifies this, memory
      ensures Did(Op.Cancel(id), ok) && found == Accepted(old(items), Op.Cancel(id))
    {
      var k := FindIndex(id);
      if k == |items| {
        return false;
      }
      items := items[k := items[k].(status := Cancelled)];
      Persist(ok);
      return true;
    }

    /** An agent whose claim could not be saved is told of an exception, not of the item. */
    method ClaimNext(agent: string, ok: bool) returns (claimed: Option<Item>)
      modifies this, memory
      ensures Did(Claim(agent), ok) && claimed == if ok then ClaimOf(old(items), agent) else None
    {
      var k := 0;
      while k < |items| && !items[k].status.Pending?
        invariant k <= |items| && FirstPending(items, k) == FirstPending(items)
      {
        k := k + 1;
      }
      if k == |items| {
        return None;
      }
      items := items[k := items[k].(status := Assigned, owner := Some(agent))];
      Persist(ok);
      return if ok then Some(items[k]) else None;
    }

    method MarkCompleted(id: string, ok: bool) returns (found: bool)
      modifies this, memory
      ensures Did(Op.MarkCompleted(id), ok) && found == Accepted(old(items), Op.MarkCompleted(id))
    {
      var k := FindIndex(id);
      if k == |items| {
        return false;
      }
      items := items[k := items[k].(status := Completed)];
      Persist(ok);
      return true;
    }

    method MarkPending(id: string, ok: bool) returns (found: bool)
      modifies this, memory
      ensures Did(Op.MarkPending(id), ok) && found == Accepted(old(items), Op.MarkPending(id))
    {
      var k := FindIndex(id);
      if k == |items| {
        return false;
      }
      items := items[k := items[k].(status := Pending, owner := None)];
      Persist(ok);
      return true;
    }
  }

  // Identity of the items

  function Ids(items: Items): (r: seq<string>)
    ensures |r| == |items| && forall i :: 0 <= i < |r| ==> r[i] == items[i].id
  {
    seq(|items|, i requires 0 <= i < |items| => items[i].id)
  }

  ghost predicate DistinctIds(items: Items) {
    forall i, j :: 0 <= i < j < |items| ==> items[i].id != items[j].id
  }

  /** No id is lost or duplicated: an operation adds the inserted id and otherwise permutes. */
  lemma {:induction false} IdsConserved(items: Items, op: Op)
    ensures multiset(Ids(After(items, op)))
            == multiset(Ids(items)) + if Accepted(items, op) && op.Inserts() then multiset{op.item.id} else multiset{}
  {
    if Accepted(items, op) {
      var p := Shape(items, op);
      if op.Inserts() {
        InsertedIds(items, p, op.item);
      } else if op.Reorder? {
        MovedIds(items, IndexOf(items, op.id), p);
      } else {
        UpdatedIds(items, p, After(items, op)[p]);
      }
    }
  }

  lemma {:induction false} UpdatedIds(items: Items, p: nat, item: Item)
    requires p < |items| && item.id == items[p].id
    ensures Ids(items[p := item]) == Ids(items)
  {
  }

  lemma {:induction false} InsertedIds(items: Items, p: nat, item: Item)
    requires p <= |items|
    ensures multiset(Ids(InsertAt(items, p, item))) == multiset(Ids(items)) + multiset{item.id}
  {
    assert Ids(InsertAt(items, p, item)) == Ids(items)[..p] + [item.id] + Ids(items)[p..];
    assert Ids(items) == Ids(items)[..p] + Ids(items)[p..];
  }

  lemma {:induction false} InsertedBack(items: Items, k: nat)
    requires k < |items|
    ensures InsertAt(Without(items, k), k, items[k]) == items
  {
  }

  lemma {:induction false} RemovedIds(items: Items, k: nat)
    requires k < |items|
    ensures multiset(Ids(items)) == multiset(Ids(Without(items, k))) + multiset{items[k].id}
  {
    InsertedBack(items, k);
    InsertedIds(Without(items, k), k, items[k]);
  }

  lemma {:induction false} MovedIds(items: Items, k: nat, p: nat)
    requires k < |items| && p < |items|
    ensures multiset(Ids(Moved(items, k, p))) == multiset(Ids(items))
  {
    InsertedIds(Without(items, k), p, items[k]);
    RemovedIds(items, k);
  }

  lemma {:induction false} InsertedItems(items: Items, p: nat, item: Item)
    requires p <= |items|
    ensures multiset(InsertAt(items, p, item)) == multiset(items) + multiset{item}
  {
    assert items == items[..p] + items[p..];
  }

  lemma {:induction false} RemovedItems(items: Items, k: nat)
    requires k < |items|
    ensures multiset(items) == multiset(Without(items, k)) + multiset{items[k]}
  {
    InsertedBack(items, k);
    InsertedItems(Without(items, k), k, items[k]);
  }

  lemma {:induction false} MovedItems(items: Items, k: nat, p: nat)
    requires k < |items| && p < |items|
    ensures multiset(Moved(items, k, p)) == multiset(items)
  {
    InsertedItems(Without(items, k), p, items[k]);
    RemovedItems(items, k);
  }

  lemma {:induction false} WithoutInserted(items: Items, p: nat, item: Item)
    requires p <= |items|
    ensures Without(InsertAt(items, p, item), p) == items
  {
  }

  /** For any integer position: the item moves there, and the others keep their relative order. */
  lemma {:induction false} ReorderMovesOne(items: Items, id: string, pos: int)
    requires IndexOf(items, id) < |items|
    ensures var k, p, r := IndexOf(items, id), InsertPosition(pos, |items| - 1), After(items, Reorder(id, pos));
            && |r| == |items| && multiset(r) == multiset(items)
            && r[p] == items[k] && Without(r, p) == Without(items, k)
  {
    var k, p := IndexOf(items, id), InsertPosition(pos, |items| - 1);
    MovedItems(items, k, p);
    WithoutInserted(Without(items, k), p, items[k]);
    assert After(items, Reorder(id, pos)) == InsertAt(Without(items, k), p, items[k]);
  }

  // Claims

  /** What successive claims by these agents return. */
  function Claims(items: Items, agents: seq<string>): (r: seq<Option<Item>>)
    ensures |r| == |agents|
    decreases |agents|
  {
    if agents == [] then []
    else [ClaimOf(items, agents[0])] + Claims(After(items, Claim(agents[0])), agents[1..])
  }

  lemma {:induction false} PendingConcat(a: Items, b: Items)
    ensures PendingItems(a + b) == PendingItems(a) + PendingItems(b)
  {
    if a == [] {
      assert a + b == b;
    } else {
      PendingConcat(a[1..], b);
      assert (a + b)[1..] == a[1..] + b;
    }
  }

  lemma {:induction false} NonePending(items: Items)
    requires forall i :: 0 <= i < |items| ==> !items[i].status.Pending?
    ensures PendingItems(items) == []
  {
    if items != [] {
      NonePending(items[1..]);
    }
  }

  /** A claim takes the head of the pending items and leaves the rest of them. */
  lemma {:induction false} ClaimTakesHead(items: Items, agent: string)
    ensures Accepted(items, Claim(agent)) ==>
              PendingItems(items) == [items[FirstPending(items)]] + PendingItems(After(items, Claim(agent)))
    ensures !Accepted(items, Claim(agent)) ==> PendingItems(items) == []
  {
    var k := FirstPending(items);
    if k == |items| {
      NonePending(items);
    } else {
      var r := After(items, Claim(agent));
      NonePending(items[..k]);
      PendingAt(items, k);
      PendingAt(r, k);
      assert r[..k] == items[..k] && r[k + 1..] == items[k + 1..];
    }
  }

  lemma {:induction false} PendingAt(items: Items, k: nat)
    requires k < |items|
    ensures PendingItems(items)
            == PendingItems(items[..k])
               + (if items[k].status.Pending? then [items[k]] else [])
               + PendingItems(items[k + 1..])
  {
    PendingConcat(items[..k], items[k..]);
    assert items == items[..k] + items[k..] && items[k..][1..] == items[k + 1..];
  }

  /** Successive claims, by any agents, hand out the pending items first in, first out, and then nothing. */
  lemma {:induction false} ClaimsAreFifo(items: Items, agents: seq<string>, j: nat)
    requires j < |agents|
    ensures Claims(items, agents)[j] ==
            if j < |PendingItems(items)|
            then Some(PendingItems(items)[j].(status := Assigned, owner := Some(agents[j])))
            else None
    decreases j
  {
    var next := After(items, Claim(agents[0]));
    ClaimTakesHead(items, agents[0]);
    if j > 0 {
      ClaimsAreFifo(next, agents[1..], j - 1);
      assert Claims(items, agents)[j] == Claims(next, agents[1..])[j - 1] && agents[1..][j - 1] == agents[j];
      if FirstPending(items) == |items| {
        assert next == items;
      }
    }
  }

  // Runs

  function Run(items: Items, ops: seq<Op>): Items {
    if ops == [] then items else After(Run(items, ops[..|ops| - 1]), ops[|ops| - 1])
  }

  /** Inserted ids are new, and inserted items have an owner exactly as their status demands. */
  ghost predicate FreshInserts(items: Items, ops: seq<Op>) {
    ops != [] ==>
      FreshInserts(items, ops[..|ops| - 1]) && FreshOp(Run(items, ops[..|ops| - 1]), ops[|ops| - 1])
  }

  ghost predicate FreshOp(items: Items, op: Op) {
    op.Inserts() ==> Owned([op.item]) && forall j :: 0 <= j < |items| ==> items[j].id != op.item.id
  }

  /** Pending items have no owner and assigned items have one. */
  ghost predicate Owned(items: Items) {
    forall i :: 0 <= i < |items| ==>
      && (items[i].status.Pending? ==> items[i].owner.None?)
      && (items[i].status.Assigned? ==> items[i].owner.Some?)
  }

  lemma {:induction false} InsertKeeps(items: Items, p: nat, item: Item)
    requires DistinctIds(items) && p <= |items| && forall j :: 0 <= j < |items| ==> items[j].id != item.id
    ensures DistinctIds(InsertAt(items, p, item))
    ensures Owned(items) && Owned([item]) ==> Owned(InsertAt(items, p, item))
  {
    assert [item][0] == item;
  }

  lemma {:induction false} WithoutKeeps(items: Items, k: nat)
    requires DistinctIds(items) && k < |items|
    ensures DistinctIds(Without(items, k))
    ensures forall j :: 0 <= j < |items| - 1 ==> Without(items, k)[j].id != items[k].id
    ensures Owned(items) ==> Owned(Without(items, k)) && Owned([items[k]])
  {
  }

  /** Every operation is an insertion, a move or an update of one item that keeps its id. */
  lemma {:induction false} Shape(items: Items, op: Op) returns (p: nat)
    requires Accepted(items, op)
    ensures op.Inserts() ==> p <= |items| && After(items, op) == InsertAt(items, p, op.item)
    ensures op.Reorder? ==>
              var k := IndexOf(items, op.id);
              k < |items| && p < |items| && After(items, op) == Moved(items, k, p)
    ensures !op.Inserts() && !op.Reorder? ==>
              var after := After(items, op);
              p < |items| && |after| == |items| && after == items[p := after[p]] && after[p].id == items[p].id
    ensures op.Claim? ==> p == FirstPending(items)
    ensures op.MarkPending? || op.MarkCompleted? || op.Cancel? ==> items[p].id == op.id
  {
    match op
    case Append(item) => p := |items|; assert items + [item] == InsertAt(items, p, item);
    case InsertUrgent(item) => p := 0; assert [item] + items == InsertAt(items, p, item);
    case InsertAfter(id, _) => p := IndexOf(items, id) + 1;
    case Reorder(_, pos) => p := InsertPosition(pos, |items| - 1);
    case Cancel(id) => p := IndexOf(items, id);
    case Claim(_) => p := FirstPending(items);
    case MarkCompleted(id) => p := IndexOf(items, id);
    case MarkPending(id) => p := IndexOf(items, id);
  }

  lemma {:induction false} StepKeeps(items: Items, op: Op)
    requires DistinctIds(items) && Owned(items) && FreshOp(items, op)
    ensures DistinctIds(After(items, op)) && Owned(After(items, op))
  {
    if Accepted(items, op) {
      var p := Shape(items, op);
      if op.Inserts() {
        InsertKeeps(items, p, op.item);
      } else if op.Reorder? {
        var k := IndexOf(items, op.id);
        WithoutKeeps(items, k);
        InsertKeeps(Without(items, k), p, items[k]);
      }
    }
  }

  lemma {:induction false} FreshPrefix(items: Items, ops: seq<Op>, n: nat)
    requires FreshInserts(items, ops) && n <= |ops|
    ensures FreshInserts(items, ops[..n])
  {
    if n == |ops| {
      assert ops[..n] == ops;
    } else {
      FreshPrefix(items, ops[..|ops| - 1], n);
      assert ops[..|ops| - 1][..n] == ops[..n];
    }
  }

  /** Over any run, ids stay distinct and ownership stays consistent. */
  lemma {:induction false} RunKeeps(items: Items, ops: seq<Op>)
    requires DistinctIds(items) && Owned(items) && FreshInserts(items, ops)
    ensures DistinctIds(Run(items, ops)) && Owned(Run(items, ops))
  {
    if ops != [] {
      FreshPrefix(items, ops, |ops| - 1);
      RunKeeps(items, ops[..|ops| - 1]);
      StepKeeps(Run(items, ops[..|ops| - 1]), ops[|ops| - 1]);
    }
  }

  /** The item is in the list, and no item with its id is pending. */
  ghost predicate Taken(items: Items, id: string) {
    && (exists i :: 0 <= i < |items| && items[i].id == id)
    && (forall i :: 0 <= i < |items| && items[i].id == id ==> !items[i].status.Pending?)
  }

  lemma {:induction false} InsertKeepsTaken(items: Items, p: nat, item: Item, id: string)
    requires Taken(items, id) && p <= |items| && (item.id == id ==> !item.status.Pending?)
    ensures Taken(InsertAt(items, p, item), id)
  {
    var w :| 0 <= w < |items| && items[w].id == id;
    assert InsertAt(items, p, item)[if w < p then w else w + 1] == items[w];
  }

  lemma {:induction false} WithoutKeepsTaken(items: Items, k: nat, id: string)
    requires Taken(items, id) && k < |items| && items[k].id != id
    ensures Taken(Without(items, k), id)
  {
    var w :| 0 <= w < |items| && items[w].id == id;
    assert Without(items, k)[if w < k then w else w - 1] == items[w];
  }

  lemma {:induction false} InsertTakes(items: Items, p: nat, item: Item, id: string)
    requires p <= |items| && item.id == id && !item.status.Pending?
    requires forall i :: 0 <= i < |items| && items[i].id == id ==> !items[i].status.Pending?
    ensures Taken(InsertAt(items, p, item), id)
  {
    assert InsertAt(items, p, item)[p].id == id;
  }

  lemma {:induction false} MoveKeepsTaken(items: Items, k: nat, p: nat, id: string)
    requires Taken(items, id) && k < |items| && p < |items|
    ensures Taken(Moved(items, k, p), id)
  {
    if items[k].id == id {
      InsertTakes(Without(items, k), p, items[k], id);
    } else {
      WithoutKeepsTaken(items, k, id);
      InsertKeepsTaken(Without(items, k), p, items[k], id);
    }
  }

  lemma {:induction false} StepKeepsTaken(items: Items, op: Op, id: string)
    requires DistinctIds(items) && Taken(items, id) && op != MarkPending(id) && FreshOp(items, op)
    ensures Taken(After(items, op), id)
  {
    if Accepted(items, op) {
      var p := Shape(items, op);
      if op.Inserts() {
        InsertKeepsTaken(items, p, op.item, id);
      } else if op.Reorder? {
        MoveKeepsTaken(items, IndexOf(items, op.id), p, id);
      } else {
        var w :| 0 <= w < |items| && items[w].id == id;
        assert After(items, op)[w].id == id;
      }
    }
  }

  lemma {:induction false} RunConcat(items: Items, a: seq<Op>, b: seq<Op>)
    ensures Run(items, a + b) == Run(Run(items, a), b)
    decreases |b|
  {
    if b == [] {
      assert a + b == a;
    } else {
      RunConcat(items, a, b[..|b| - 1]);
      assert (a + b)[..|a + b| - 1] == a + b[..|b| - 1];
    }
  }

  /** The item claimed by the operation at position `i` of the run, if any. */
  function ClaimedAt(items: Items, ops: seq<Op>, i: nat): Option<Item>
    requires i < |ops|
  {
    match ops[i]
    case Claim(agent) => ClaimOf(Run(items, ops[..i]), agent)
    case _ => None
  }

  /** In any run, an item is handed out twice only if it was re-queued in between. */
  lemma {:induction false} ClaimedTwiceOnlyIfRequeued(items: Items, ops: seq<Op>, i: nat, j: nat)
    requires DistinctIds(items) && Owned(items) && FreshInserts(items, ops) && i < j < |ops|
    requires ClaimedAt(items, ops, i).Some? && ClaimedAt(items, ops, j).Some?
    requires ClaimedAt(items, ops, i).value.id == ClaimedAt(items, ops, j).value.id
    ensures exists k :: i < k < j && ops[k] == MarkPending(ClaimedAt(items, ops, i).value.id)
  {
    var id := ClaimedAt(items, ops, i).value.id;
    if forall k :: i < k < j ==> ops[k] != MarkPending(id) {
      ClaimedIsTaken(items, ops, i);
      StaysTaken(items, ops, i + 1, j, id);
      TakenNotClaimed(Run(items, ops[..j]), ops[j].agent, id);
    }
  }

  lemma {:induction false} ClaimedIsTaken(items: Items, ops: seq<Op>, i: nat)
    requires DistinctIds(items) && Owned(items) && FreshInserts(items, ops) && i < |ops|
    requires ClaimedAt(items, ops, i).Some?
    ensures Taken(Run(items, ops[..i + 1]), ClaimedAt(items, ops, i).value.id)
  {
    FreshPrefix(items, ops, i);
    RunKeeps(items, ops[..i]);
    ClaimTakes(Run(items, ops[..i]), ops[i].agent);
    assert ops[..i + 1][..i] == ops[..i];
  }

  lemma {:induction false} ClaimTakes(items: Items, agent: string)
    requires DistinctIds(items) && ClaimOf(items, agent).Some?
    ensures Taken(After(items, Claim(agent)), ClaimOf(items, agent).value.id)
  {
    var k := FirstPending(items);
    assert After(items, Claim(agent))[k].id == items[k].id;
  }

  lemma {:induction false} TakenNotClaimed(items: Items, agent: string, id: string)
    requires Taken(items, id)
    ensures ClaimOf(items, agent).Some? ==> ClaimOf(items, agent).value.id != id
  {
  }

  lemma {:induction false} StaysTaken(items: Items, ops: seq<Op>, m: nat, n: nat, id: string)
    requires DistinctIds(items) && Owned(items) && FreshInserts(items, ops) && m <= n <= |ops|
    requires Taken(Run(items, ops[..m]), id) && forall k :: m <= k < n ==> ops[k] != MarkPending(id)
    ensures Taken(Run(items, ops[..n]), id)
  {
    if m < n {
      StaysTaken(items, ops, m, n - 1, id);
      TakenNext(items, ops, n, id);
    }
  }

  lemma {:induction false} TakenNext(items: Items, ops: seq<Op>, n: nat, id: string)
    requires DistinctIds(items) && Owned(items) && FreshInserts(items, ops) && 0 < n <= |ops|
    requires Taken(Run(items, ops[..n - 1]), id) && ops[n - 1] != MarkPending(id)
    ensures Taken(Run(items, ops[..n]), id)
  {
    var before := RunStep(items, ops, n);
    StepKeepsTaken(before, ops[n - 1], id);
  }

  /** One operation of a run, and what holds before it. */
  lemma {:induction false} RunStep(items: Items, ops: seq<Op>, n: nat) returns (before: Items)
    requires DistinctIds(items) && Owned(items) && FreshInserts(items, ops) && 0 < n <= |ops|
    ensures before == Run(items, ops[..n - 1]) && Run(items, ops[..n]) == After(before, ops[n - 1])
    ensures DistinctIds(before) && FreshOp(before, ops[n - 1])
  {
    before := Run(items, ops[..n - 1]);
    assert ops[..n][..n - 1] == ops[..n - 1];
    FreshPrefix(items, ops, n);
    RunKeeps(items, ops[..n - 1]);
  }

  // Where insertions land

  /** An urgent item goes before everything that waits. */
  lemma {:induction false} UrgentComesFirst(items: Items, item: Item)
    requires item.status.Pending?
    ensures PendingItems(After(items, InsertUrgent(item))) == [item] + PendingItems(items)
  {
    PendingConcat([item], items);
  }

  /** After any run, the claim that follows an urgent insertion hands out that item. */
  lemma {:induction false} UrgentIsClaimedNext(items: Items, ops: seq<Op>, item: Item, agent: string)
    requires item.status.Pending?
    ensures ClaimedAt(items, ops + [InsertUrgent(item), Claim(agent)], |ops| + 1)
            == Some(item.(status := Assigned, owner := Some(agent)))
  {
    var all := ops + [InsertUrgent(item), Claim(agent)];
    assert all[..|ops| + 1] == ops + [InsertUrgent(item)];
    assert (ops + [InsertUrgent(item)])[..|ops|] == ops;
    UrgentComesFirst(Run(items, ops), item);
    ClaimTakesHead(Run(items, all[..|ops| + 1]), agent);
  }

  lemma {:induction false} PendingBetween(a: Items, item: Item, b: Items)
    ensures item.status.Pending? ==> PendingItems(a + [item] + b) == PendingItems(a) + [item] + PendingItems(b)
  {
    PendingConcat(a, [item]);
    PendingConcat(a + [item], b);
    assert item.status.Pending? ==> PendingItems([item]) == [item];
  }

  /**
   * An item inserted after another follows it directly, in the list and, when it is pending, among what
   * waits; without such an item nothing changes.
   */
  lemma {:induction false} InsertedFollows(items: Items, k: nat, afterId: string, item: Item)
    requires k <= |items| && forall i :: 0 <= i < k ==> items[i].id != afterId
    requires k < |items| ==> items[k].id == afterId
    ensures k == |items| ==> After(items, InsertAfter(afterId, item)) == items
    ensures k < |items| ==>
              var r := After(items, InsertAfter(afterId, item));
              && r == items[..k + 1] + [item] + items[k + 1..]
              && (item.status.Pending? ==>
                    PendingItems(r) == PendingItems(items[..k + 1]) + [item] + PendingItems(items[k + 1..]))
  {
    var f := IndexOf(items, afterId);
    assert f == k;
    if k < |items| {
      PendingBetween(items[..k + 1], item, items[k + 1..]);
    }
  }

  /** An operation of plain use: a pending item appended, a claim, or a completion of what is not pending. */
  predicate Plain(items: Items, op: Op) {
    match op
    case Append(item) => item.status.Pending?
    case Claim(_) => true
    case MarkCompleted(id) => forall i :: 0 <= i < |items| && items[i].id == id ==> !items[i].status.Pending?
    case _ => false
  }

  ghost predicate PlainRun(items: Items, ops: seq<Op>) {
    ops != [] ==> PlainRun(items, ops[..|ops| - 1]) && Plain(Run(items, ops[..|ops| - 1]), ops[|ops| - 1])
  }

  /** The id an operation appends, if it does. */
  function Appends(op: Op): seq<string> {
    if op.Append? then [op.item.id] else []
  }

  /** The id an operation hands out, if it does. */
  function HandsOut(items: Items, op: Op): seq<string> {
    if op.Claim? && ClaimOf(items, op.agent).Some? then [ClaimOf(items, op.agent).value.id] else []
  }

  function Appended(ops: seq<Op>): seq<string> {
    if ops == [] then [] else Appended(ops[..|ops| - 1]) + Appends(ops[|ops| - 1])
  }

  function HandedOut(items: Items, ops: seq<Op>): seq<string> {
    if ops == [] then []
    else
      var before := ops[..|ops| - 1];
      HandedOut(items, before) + HandsOut(Run(items, before), ops[|ops| - 1])
  }

  lemma {:induction false} IdsConcat(a: Items, b: Items)
    ensures Ids(a + b) == Ids(a) + Ids(b)
  {
  }

  lemma {:induction false} PendingUnchanged(items: Items, k: nat, item: Item)
    requires k < |items| && !items[k].status.Pending? && !item.status.Pending?
    ensures PendingItems(items[k := item]) == PendingItems(items)
  {
    var r := items[k := item];
    PendingAt(items, k);
    PendingAt(r, k);
    assert r[..k] == items[..k] && r[k + 1..] == items[k + 1..];
  }

  /** What waits, by id, around one plain operation. */
  lemma {:induction false} PlainStep(items: Items, op: Op)
    requires Plain(items, op)
    ensures Ids(PendingItems(items)) + Appends(op) == HandsOut(items, op) + Ids(PendingItems(After(items, op)))
  {
    match op
    case Append(item) =>
      PendingConcat(items, [item]);
      assert PendingItems([item]) == [item];
      IdsConcat(PendingItems(items), [item]);
    case Claim(agent) =>
      ClaimTakesHead(items, agent);
      if ClaimOf(items, agent).Some? {
        IdsConcat([items[FirstPending(items)]], PendingItems(After(items, op)));
      }
    case MarkCompleted(id) =>
      var k := IndexOf(items, id);
      if k < |items| {
        PendingUnchanged(items, k, items[k].(status := Completed));
      }
  }

  lemma {:induction false} Regrouped<T>(a: seq<T>, b: seq<T>, c: seq<T>, d: seq<T>, h: seq<T>, s: seq<T>, t: seq<T>)
    requires a + b == s + t && b + d == h + c
    ensures (a + h) + c == s + (t + d)
  {
    assert (a + h) + c == a + (b + d);
    assert (a + b) + d == s + (t + d);
  }

  /**
   * First in, first out: over any run of appends, claims and completions, what was handed out and then what still
   * waits is what waited at first and then what was appended.
   */
  lemma {:induction false} BacklogIsFifo(items: Items, ops: seq<Op>)
    requires PlainRun(items, ops)
    ensures HandedOut(items, ops) + Ids(PendingItems(Run(items, ops))) == Ids(PendingItems(items)) + Appended(ops)
  {
    if ops != [] {
      var before := ops[..|ops| - 1];
      BacklogIsFifo(items, before);
      var mid, op := Run(items, before), ops[|ops| - 1];
      PlainStep(mid, op);
      Regrouped(HandedOut(items, before), Ids(PendingItems(mid)), Ids(PendingItems(After(mid, op))), Appends(op),
                HandsOut(mid, op), Ids(PendingItems(items)), Appended(before));
    }
  }

  // What closing and re-queueing leave behind

  /** The first item with the id gets its new status, a re-queued one loses its owner, and nothing else changes. */
  lemma {:induction false} UpdateIsExact(items: Items, op: Op, k: nat)
    requires op.Cancel? || op.MarkCompleted? || op.MarkPending?
    requires k < |items| && items[k].id == op.id && forall i :: 0 <= i < k ==> items[i].id != op.id
    ensures var r, was := After(items, op), items[k];
            && |r| == |items| && (forall i :: 0 <= i < |r| && i != k ==> r[i] == items[i])
            && (op.Cancel? ==> r[k].status.Cancelled? && r[k].owner == was.owner)
            && (op.MarkCompleted? ==> r[k].status.Completed? && r[k].owner == was.owner)
            && (op.MarkPending? ==> r[k].status.Pending? && r[k].owner.None?)
            && r[k].id == was.id && r[k].title == was.title && r[k].description == was.description
            && r[k].priority == was.priority && r[k].createdAt == was.createdAt
  {
    var f := IndexOf(items, op.id);
    assert f == k;
  }

  lemma {:induction false} ClosedIsTaken(items: Items, op: Op)
    requires DistinctIds(items) && (op.Cancel? || op.MarkCompleted?) && Accepted(items, op)
    ensures Taken(After(items, op), op.id)
  {
    UpdateIsExact(items, op, IndexOf(items, op.id));
  }

  /** In any run, a completed or cancelled item is handed out afterwards only if it was re-queued in between. */
  lemma {:induction false} ClosedNotClaimed(items: Items, ops: seq<Op>, i: nat, j: nat)
    requires DistinctIds(items) && Owned(items) && FreshInserts(items, ops) && i < j < |ops|
    requires ops[i].MarkCompleted? || ops[i].Cancel?
    requires Accepted(Run(items, ops[..i]), ops[i])
    requires ClaimedAt(items, ops, j).Some? && ClaimedAt(items, ops, j).value.id == ops[i].id
    ensures exists k :: i < k < j && ops[k] == MarkPending(ops[i].id)
  {
    var id := ops[i].id;
    if forall k :: i < k < j ==> ops[k] != MarkPending(id) {
      var before := RunStep(items, ops, i + 1);
      ClosedIsTaken(before, ops[i]);
      StaysTaken(items, ops, i + 1, j, id);
      TakenNotClaimed(Run(items, ops[..j]), ops[j].agent, id);
    }
  }
}
