/**
 * The sliding-window restart budget (src/vcompany/supervisor/restart_tracker.py).
 *
 * The deque only remembers what a purge has left; the lemmas show that this bounded memory
 * answers exactly as the full history of grants would.
 */
module RestartTracking {
  import opened Windows

  /** The first position at or after `from` whose timestamp is not older than the cutoff. */
  function FirstFresh(kept: seq<Time>, cutoff: Time, from: nat := 0): (k: nat)
    requires from <= |kept|
    ensures from <= k <= |kept|
    ensures forall i :: from <= i < k ==> kept[i] < cutoff
    ensures k < |kept| ==> cutoff <= kept[k]
    decreases |kept| - from
  {
    if from < |kept| && kept[from] < cutoff then FirstFresh(kept, cutoff, from + 1) else from
  }

  /** A tracker's fields as a value. */
  datatype Budget = Budget(maxRestarts: int, window: Time, kept: seq<Time>) {
    function Cap(): nat {
      if maxRestarts < 0 then 0 else maxRestarts
    }

    function Purged(now: Time): Budget {
      this.(kept := kept[FirstFresh(kept, now - window)..])
    }

    /** Whether a restart asked for at `purgeAt` is within the budget. */
    predicate Grants(purgeAt: Time) {
      |Purged(purgeAt).kept| < maxRestarts
    }

    /** The budget after asking, the purge and the record reading the clock separately. */
    function Asked(purgeAt: Time, recordAt: Time): Budget {
      var p := Purged(purgeAt);
      if Grants(purgeAt) then p.(kept := p.kept + [recordAt]) else p
    }
  }

  function Fresh(maxRestarts: int, window: Time): Budget {
    Budget(maxRestarts, window, [])
  }

  class RestartTracker {
    const maxRestarts: int
    const window: Time
    var timestamps: seq<Time>

    ghost function State(): Budget
      reads this
    {
      Budget(maxRestarts, window, timestamps)
    }

    constructor (maxRestarts: int, window: Time)
      ensures State() == Fresh(maxRestarts, window)
    {
      this.maxRestarts := maxRestarts;
      this.window := window;
      timestamps := [];
    }

    method Purge(now: Time)
      modifies this
      ensures State() == old(State()).Purged(now)
    {
      var cutoff := now - window;
      ghost var k := 0;
      while timestamps != [] && timestamps[0] < cutoff
        invariant k <= |old(timestamps)| && timestamps == old(timestamps)[k..]
        invariant FirstFresh(old(timestamps), cutoff, k) == FirstFresh(old(timestamps), cutoff)
        decreases |timestamps|
      {
        timestamps := timestamps[1..];
        k := k + 1;
      }
    }

    method AllowRestart(purgeAt: Time, recordAt: Time) returns (ok: bool)
      modifies this
      ensures ok == old(State()).Grants(purgeAt)
      ensures State() == old(State()).Asked(purgeAt, recordAt)
    {
      Purge(purgeAt);
      if |timestamps| >= maxRestarts {
        return false;
      }
      timestamps := timestamps + [recordAt];
      return true;
    }

    method Reset()
      modifies this
      ensures State() == Fresh(maxRestarts, window)
    {
      timestamps := [];
    }

    method RestartCount(now: Time) returns (n: nat)
      modifies this
      ensures State() == old(State()).Purged(now) && n == |timestamps|
    {
      Purge(now);
      n := |timestamps|;
    }
  }

  // Runs

  datatype Call = Allow(purgeAt: Time, recordAt: Time) | Count(at: Time) | Reset

  function Apply(b: Budget, c: Call): Budget {
    match c
    case Allow(purgeAt, recordAt) => b.Asked(purgeAt, recordAt)
    case Count(at) => b.Purged(at)
    case Reset => b.(kept := [])
  }

  function Run(b: Budget, calls: seq<Call>): Budget {
    if calls == [] then b else Apply(Run(b, calls[..|calls| - 1]), calls[|calls| - 1])
  }

  /** Every grant of the run since its last reset: the history the deque forgets. */
  function GrantsOf(b: Budget, calls: seq<Call>): seq<Time> {
    if calls == [] then []
    else
      var before, c := calls[..|calls| - 1], calls[|calls| - 1];
      match c
      case Allow(purgeAt, recordAt) =>
        GrantsOf(b, before) + if Run(b, before).Grants(purgeAt) then [recordAt] else []
      case Count(_) => GrantsOf(b, before)
      case Reset => []
  }

  /** The last clock reading of the calls, or the start when there was none. */
  function Now(start: Time, calls: seq<Call>): Time {
    if calls == [] then start
    else
      match calls[|calls| - 1]
      case Allow(_, recordAt) => recordAt
      case Count(at) => at
      case Reset => Now(start, calls[..|calls| - 1])
  }

  /** The clock never goes back, within a call or between calls. */
  predicate Monotone(start: Time, calls: seq<Call>) {
    calls != [] ==>
      var before := calls[..|calls| - 1];
      && Monotone(start, before)
      && match calls[|calls| - 1]
         case Allow(purgeAt, recordAt) => Now(start, before) <= purgeAt <= recordAt
         case Count(at) => Now(start, before) <= at
         case Reset => true
  }

  /** The history is what the deque has forgotten, all of it older than the cutoff, and then the deque. */
  ghost predicate Split(gone: seq<Time>, kept: seq<Time>, grants: seq<Time>, cutoff: Time) {
    && grants == gone + kept
    && forall i :: 0 <= i < |gone| ==> gone[i] < cutoff
  }

  /** Grants that are `cap` or more places apart are more than a window apart. */
  ghost predicate Spaced(grants: seq<Time>, cap: nat, window: Time) {
    forall i, j :: 0 <= i && i + cap <= j < |grants| ==> grants[i] + window < grants[j]
  }

  ghost predicate Lawful(grants: seq<Time>, cap: nat, window: Time) {
    Sorted(grants) && Spaced(grants, cap, window)
  }

  ghost predicate NotAfter(grants: seq<Time>, now: Time) {
    forall i :: 0 <= i < |grants| ==> grants[i] <= now
  }

  /** The deque against the history at the time of the last clock reading. */
  ghost predicate Tracks(b: Budget, grants: seq<Time>, gone: seq<Time>, now: Time) {
    && Split(gone, b.kept, grants, now - b.window)
    && |b.kept| <= b.Cap()
    && NotAfter(grants, now)
    && Lawful(grants, b.Cap(), b.window)
  }

  lemma {:induction false} DropKeepsSplit(gone: seq<Time>, kept: seq<Time>, grants: seq<Time>, before: Time,
                                          cutoff: Time, k: nat)
    requires Split(gone, kept, grants, before) && before <= cutoff
    requires k <= |kept| && forall i :: 0 <= i < k ==> kept[i] < cutoff
    ensures Split(gone + kept[..k], kept[k..], grants, cutoff)
  {
    assert kept == kept[..k] + kept[k..];
  }

  lemma {:induction false} PurgedTracks(b: Budget, grants: seq<Time>, gone: seq<Time>, now: Time, at: Time)
    returns (gone': seq<Time>)
    requires Tracks(b, grants, gone, now) && now <= at
    ensures Tracks(b.Purged(at), grants, gone', at)
  {
    var k := FirstFresh(b.kept, at - b.window);
    DropKeepsSplit(gone, b.kept, grants, now - b.window, at - b.window, k);
    gone' := gone + b.kept[..k];
  }

  lemma {:induction false} SpacedSnoc(grants: seq<Time>, cap: nat, window: Time, t: Time)
    requires Spaced(grants, cap, window) && Sorted(grants)
    requires cap <= |grants| ==> cap > 0 && grants[|grants| - cap] + window < t
    ensures Spaced(grants + [t], cap, window)
  {
    var g := grants + [t];
    forall i, j | 0 <= i && i + cap <= j < |g|
      ensures g[i] + window < g[j]
    {
      if j == |grants| {
        assert grants[i] <= grants[|grants| - cap];
      }
    }
  }

  lemma {:induction false} LawfulSnoc(grants: seq<Time>, cap: nat, window: Time, t: Time)
    requires Lawful(grants, cap, window) && forall i :: 0 <= i < |grants| ==> grants[i] <= t
    requires cap <= |grants| ==> cap > 0 && grants[|grants| - cap] + window < t
    ensures Lawful(grants + [t], cap, window)
  {
    SpacedSnoc(grants, cap, window, t);
  }

  lemma {:induction false} GrantTracks(b: Budget, grants: seq<Time>, gone: seq<Time>, now: Time, t: Time)
    requires Tracks(b, grants, gone, now) && now <= t && |b.kept| < b.maxRestarts
    ensures Tracks(b.(kept := b.kept + [t]), grants + [t], gone, t)
  {
    var i := |grants| - b.Cap();
    assert i >= 0 ==> grants[i] == gone[i];
    LawfulSnoc(grants, b.Cap(), b.window, t);
  }

  lemma {:induction false} AskedTracks(b: Budget, grants: seq<Time>, gone: seq<Time>, now: Time, purgeAt: Time,
                                       recordAt: Time)
    returns (gone': seq<Time>)
    requires Tracks(b, grants, gone, now) && now <= purgeAt <= recordAt
    ensures Tracks(b.Asked(purgeAt, recordAt), grants + if b.Grants(purgeAt) then [recordAt] else [], gone', recordAt)
  {
    gone' := PurgedTracks(b, grants, gone, now, purgeAt);
    if b.Grants(purgeAt) {
      GrantTracks(b.Purged(purgeAt), grants, gone', purgeAt, recordAt);
    } else {
      assert grants + [] == grants;
    }
  }

  lemma {:induction false} RunTracks(maxRestarts: int, window: Time, start: Time, calls: seq<Call>)
    returns (gone: seq<Time>)
    requires Monotone(start, calls)
    ensures var b := Fresh(maxRestarts, window);
            && Run(b, calls).maxRestarts == maxRestarts && Run(b, calls).window == window
            && Tracks(Run(b, calls), GrantsOf(b, calls), gone, Now(start, calls))
  {
    gone := [];
    if calls != [] {
      var b, before := Fresh(maxRestarts, window), calls[..|calls| - 1];
      var budget, grants, now := Run(b, before), GrantsOf(b, before), Now(start, before);
      gone := RunTracks(maxRestarts, window, start, before);
      match calls[|calls| - 1]
      case Allow(purgeAt, recordAt) => gone := AskedTracks(budget, grants, gone, now, purgeAt, recordAt);
      case Count(at) => gone := PurgedTracks(budget, grants, gone, now, at);
      case Reset => gone := [];
    }
  }

  /** The kept readings are exactly the part of the history that is not older than the cutoff. */
  ghost predicate Window(gone: seq<Time>, kept: seq<Time>, grants: seq<Time>, cutoff: Time, at: Time) {
    && Split(gone, kept, grants, cutoff)
    && forall i :: 0 <= i < |kept| ==> cutoff <= kept[i] <= at
  }

  lemma {:induction false} WindowCount(gone: seq<Time>, kept: seq<Time>, grants: seq<Time>, cutoff: Time, at: Time)
    requires Window(gone, kept, grants, cutoff, at)
    ensures |kept| == CountIn(grants, Closed(cutoff, at))
  {
    CountNone(gone, Closed(cutoff, at), |gone|);
    CountAll(kept, Closed(cutoff, at), |kept|);
    CountBeyond(gone, kept, Closed(cutoff, at), |kept|);
  }

  lemma {:induction false} FreshSorted(gone: seq<Time>, kept: seq<Time>, cutoff: Time, at: Time)
    requires Sorted(gone + kept) && NotAfter(gone + kept, at) && (kept != [] ==> cutoff <= kept[0])
    ensures forall i :: 0 <= i < |kept| ==> cutoff <= kept[i] <= at
  {
    forall i | 0 <= i < |kept|
      ensures cutoff <= kept[i] <= at
    {
      assert (gone + kept)[|gone| + i] == kept[i] && (gone + kept)[|gone|] == kept[0];
    }
  }

  lemma {:induction false} PurgedIsWindow(b: Budget, grants: seq<Time>, gone: seq<Time>, now: Time, at: Time)
    returns (gone': seq<Time>)
    requires Tracks(b, grants, gone, now) && now <= at
    ensures Window(gone', b.Purged(at).kept, grants, at - b.window, at)
  {
    gone' := PurgedTracks(b, grants, gone, now, at);
    FreshSorted(gone', b.Purged(at).kept, at - b.window, at);
  }

  /** A purge leaves exactly the grants of the whole history that lie inside the window. */
  lemma {:induction false} DequeIsWindow(maxRestarts: int, window: Time, start: Time, calls: seq<Call>, at: Time)
    returns (gone: seq<Time>)
    requires Monotone(start, calls) && Now(start, calls) <= at
    ensures var b := Fresh(maxRestarts, window);
            && Run(b, calls).maxRestarts == maxRestarts
            && Window(gone, Run(b, calls).Purged(at).kept, GrantsOf(b, calls), at - window, at)
  {
    var b := Fresh(maxRestarts, window);
    gone := RunTracks(maxRestarts, window, start, calls);
    gone := PurgedIsWindow(Run(b, calls), GrantsOf(b, calls), gone, Now(start, calls), at);
  }

  /** The budget refuses exactly when the history has this many grants in the window. */
  ghost predicate Exact(b: Budget, grants: seq<Time>, at: Time, max: int, cutoff: Time) {
    !b.Grants(at) <==> CountIn(grants, Closed(cutoff, at)) >= max
  }

  lemma {:induction false} TrackedIsExact(b: Budget, grants: seq<Time>, gone: seq<Time>, now: Time, at: Time, max: int,
                                          cutoff: Time)
    requires Tracks(b, grants, gone, now) && now <= at && cutoff == at - b.window && max == b.maxRestarts
    ensures Exact(b, grants, at, max, cutoff)
  {
    var gone' := PurgedIsWindow(b, grants, gone, now, at);
    WindowCount(gone', b.Purged(at).kept, grants, cutoff, at);
  }

  lemma {:induction false} RunIsExact(maxRestarts: int, window: Time, start: Time, calls: seq<Call>, at: Time)
    requires Monotone(start, calls) && Now(start, calls) <= at
    ensures var b := Fresh(maxRestarts, window);
            Exact(Run(b, calls), GrantsOf(b, calls), at, maxRestarts, at - window)
  {
    var b := Fresh(maxRestarts, window);
    var gone := RunTracks(maxRestarts, window, start, calls);
    TrackedIsExact(Run(b, calls), GrantsOf(b, calls), gone, Now(start, calls), at, maxRestarts, at - window);
  }

  /** A restart is refused exactly when the budget is really used up inside the window. */
  lemma {:induction false} RefusedIffWindowFull(maxRestarts: int, window: Time, start: Time, calls: seq<Call>, at: Time)
    requires Monotone(start, calls) && Now(start, calls) <= at
    ensures var b := Fresh(maxRestarts, window);
            !Run(b, calls).Grants(at) <==> CountIn(GrantsOf(b, calls), Closed(at - window, at)) >= maxRestarts
  {
    RunIsExact(maxRestarts, window, start, calls, at);
  }

  /** Over any run, every closed interval of the window's length holds at most the budget of grants. */
  lemma {:induction false} GrantsPerWindow(maxRestarts: int, window: Time, start: Time, calls: seq<Call>, lo: Time)
    requires Monotone(start, calls)
    ensures var b := Fresh(maxRestarts, window);
            CountIn(GrantsOf(b, calls), Closed(lo, lo + window)) <= b.Cap()
  {
    var _ := RunTracks(maxRestarts, window, start, calls);
    var b := Fresh(maxRestarts, window);
    SpacedCount(GrantsOf(b, calls), b.Cap(), Closed(lo, lo + window), |GrantsOf(b, calls)|);
  }
}
