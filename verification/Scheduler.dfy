/**
 * The wake scheduler (src/vcompany/supervisor/scheduler.py). A check snapshots the schedules, then
 * visits them one await at a time, so additions, removals and a process death can fall between
 * any two visits. Persisting is one durable step; what dies before it was never scheduled, and a
 * write that raises leaves the change in memory only.
 */
module Scheduler {
  import opened Windows
  import opened Options

  datatype Entry = Entry(interval: int, nextWake: Time)

  type Book = map<string, Entry>

  /** What looking an agent up finds, and whether waking it raises. */
  datatype Found = Missing | LookupRaises | Container(sleeping: bool, wakeRaises: bool) {
    predicate Wakes() {
      Container? && sleeping && !wakeRaises
    }
    predicate Reschedules() {
      Container? && (sleeping ==> !wakeRaises)
    }
  }

  datatype Item = Item(agent: string, entry: Entry)

  /** The schedules in memory and on disk, and the rest of the check in progress with its clock reading. */
  datatype State = State(book: Book, saved: Option<Book>, now: Time, todo: seq<Item>) {
    predicate Due() {
      todo != [] && now >= todo[0].entry.nextWake
    }
    /** The book has changed, and has been written unless the write raised. */
    function Persisted(b: Book, ok: bool): State {
      this.(book := b, saved := if ok then Some(b) else saved)
    }
    predicate InStep() {
      book == Loaded(saved)
    }
  }

  /** `ok` says whether the write of an event, if it comes to one, succeeds. */
  datatype Event =
    | Add(agent: string, interval: int, at: Time, ok: bool)
    | Remove(agent: string, ok: bool)
    | Begin(at: Time, order: seq<string>)
    | Visit(found: Found, ok: bool)
    | DieInWake // the agent was woken and the process died before the new wake time was saved
    | Restart   // the process died anywhere else, and a new one loaded the schedules

  datatype Wake = Wake(agent: string, at: Time, interval: int)

  ghost predicate Lists(order: seq<string>, b: Book) {
    && (forall i, j :: 0 <= i < j < |order| ==> order[i] != order[j])
    && (forall k :: k in order <==> k in b)
  }

  function Snapshot(order: seq<string>, b: Book): (r: seq<Item>)
    requires forall i :: 0 <= i < |order| ==> order[i] in b
    ensures |r| == |order| && forall i :: 0 <= i < |r| ==> r[i] == Item(order[i], b[order[i]])
  {
    seq(|order|, i requires 0 <= i < |order| => Item(order[i], b[order[i]]))
  }

  /** What `load` finds: a missing key is an empty book. */
  function Loaded(saved: Option<Book>): Book {
    if saved.None? then map[] else saved.value
  }

  function Later(e: Entry, now: Time): Entry {
    e.(nextWake := now + e.interval as real)
  }

  /** One iteration of the check loop: a failing write is caught after a wake, and ends the check otherwise. */
  function Visited(s: State, found: Found, ok: bool): State
    requires s.todo != []
  {
    var rest := s.(todo := s.todo[1..]);
    if !s.Due() then rest
    else if found.LookupRaises? then s.(todo := [])
    else if found.Reschedules()
    then s.(todo := if found.sleeping || ok then s.todo[1..] else [])
          .Persisted(s.book[s.todo[0].agent := Later(s.todo[0].entry, s.now)], ok)
    else rest
  }

  ghost predicate Enabled(s: State, e: Event) {
    match e
    case Begin(_, order) => s.todo == [] && Lists(order, s.book)
    case Visit(_, _) => s.todo != []
    case DieInWake => s.Due()
    case _ => true
  }

  ghost function Step(s: State, e: Event): State
    requires Enabled(s, e)
  {
    match e
    case Add(a, interval, at, ok) => s.Persisted(s.book[a := Entry(interval, at + interval as real)], ok)
    case Remove(a, ok) => s.Persisted(s.book - {a}, ok)
    case Begin(at, order) => s.(now := at, todo := Snapshot(order, s.book))
    case Visit(found, ok) => Visited(s, found, ok)
    case DieInWake => s.(book := Loaded(s.saved), todo := [])
    case Restart => s.(book := Loaded(s.saved), todo := [])
  }

  ghost function WokenBy(s: State, e: Event): Option<Wake>
    requires Enabled(s, e)
  {
    if s.Due() && ((e.Visit? && e.found.Wakes()) || e.DieInWake?)
    then Some(Wake(s.todo[0].agent, s.now, s.todo[0].entry.interval)) else None
  }

  /** The run is possible from s, and ends in t. */
  ghost predicate Reaches(s: State, run: seq<Event>, t: State)
    decreases |run|
  {
    if run == [] then s == t
    else Enabled(s, run[0]) && Reaches(Step(s, run[0]), run[1..], t)
  }

  const INITIAL := State(map[], None, 0.0, [])

  /** No agent is visited twice in one check. */
  ghost predicate Inv(s: State) {
    forall i, j :: 0 <= i < j < |s.todo| ==> s.todo[i].agent != s.todo[j].agent
  }

  lemma {:induction false} RunInv(s: State, run: seq<Event>, t: State)
    requires Inv(s) && Reaches(s, run, t)
    ensures Inv(t)
    decreases |run|
  {
    if run != [] {
      RunInv(Step(s, run[0]), run[1..], t);
    }
  }

  // Memory and store

  /** Whether the event comes to a write. */
  predicate Writes(s: State, e: Event) {
    e.Add? || e.Remove? || (e.Visit? && s.Due() && e.found.Reschedules())
  }

  /** What an event makes of the answer to: did the last write succeed? A restart leaves nothing but what is stored. */
  predicate SyncAfter(s: State, e: Event, synced: bool) {
    if e.Restart? || e.DieInWake? then true else if Writes(s, e) then e.ok else synced
  }

  ghost predicate Synced(s: State, run: seq<Event>, synced: bool)
    decreases |run|
  {
    if run == [] || !Enabled(s, run[0]) then synced
    else Synced(Step(s, run[0]), run[1..], SyncAfter(s, run[0], synced))
  }

  /** After each step of any run whose last write succeeded the stored schedules are those in memory. */
  lemma {:induction false} StoredIsMemory(s: State, run: seq<Event>, t: State, synced: bool)
    requires Reaches(s, run, t) && (synced ==> s.InStep()) && Synced(s, run, synced)
    ensures t.InStep()
    decreases |run|
  {
    if run != [] {
      StoredIsMemory(Step(s, run[0]), run[1..], t, SyncAfter(s, run[0], synced));
    }
  }

  /** A write that fails is what separates them: they differ after it exactly when it changed anything. */
  lemma {:induction false} FailedWriteShows(s: State, e: Event)
    requires s.InStep() && Enabled(s, e) && Writes(s, e) && !e.ok
    ensures Step(s, e).InStep() <==> Step(s, e).book == s.book
  {
  }

  // Wake spacing

  /** Nothing in this book would wake the agent before the given time. */
  predicate LateIn(b: Book, a: string, until: Time) {
    a in b ==> b[a].interval >= 0 && b[a].nextWake >= until
  }

  /** Nothing the scheduler knows, in memory or stored, would wake the agent before the given time. */
  ghost predicate Quiet(s: State, a: string, until: Time) {
    && LateIn(s.book, a, until) && LateIn(Loaded(s.saved), a, until)
    && forall i :: 0 <= i < |s.todo| && s.todo[i].agent == a ==>
         s.todo[i].entry.interval >= 0 && s.todo[i].entry.nextWake >= until
  }

  lemma {:induction false} StaysQuiet(s: State, e: Event, a: string, until: Time)
    requires Inv(s) && Enabled(s, e) && Quiet(s, a, until) && !(e.Add? && e.agent == a)
    ensures Quiet(Step(s, e), a, until)
    ensures WokenBy(s, e).Some? && WokenBy(s, e).value.agent == a ==> s.now >= until
  {
  }

  lemma {:induction false} RunStaysQuiet(s: State, run: seq<Event>, t: State, a: string, until: Time)
    requires Inv(s) && Reaches(s, run, t) && Quiet(s, a, until)
    requires forall i :: 0 <= i < |run| ==> !(run[i].Add? && run[i].agent == a)
    ensures Quiet(t, a, until)
    decreases |run|
  {
    if run != [] {
      StaysQuiet(s, run[0], a, until);
      RunStaysQuiet(Step(s, run[0]), run[1..], t, a, until);
    }
  }

  /** A wake that was saved makes the agent quiet for its interval. */
  lemma {:induction false} WakeQuiets(s: State, found: Found)
    requires Inv(s) && s.todo != [] && WokenBy(s, Visit(found, true)).Some? && s.todo[0].entry.interval >= 0
    ensures Quiet(Step(s, Visit(found, true)), s.todo[0].agent, s.now + s.todo[0].entry.interval as real)
  {
  }

  /** Nothing in memory would wake the agent before the given time. */
  ghost predicate QuietNow(s: State, a: string, until: Time) {
    && LateIn(s.book, a, until)
    && forall i :: 0 <= i < |s.todo| && s.todo[i].agent == a ==>
         s.todo[i].entry.interval >= 0 && s.todo[i].entry.nextWake >= until
  }

  /** No restart comes before the next write that succeeds. */
  ghost predicate Unbroken(s: State, run: seq<Event>)
    decreases |run|
  {
    run != [] && Enabled(s, run[0]) && !(Writes(s, run[0]) && run[0].ok) ==>
      !run[0].Restart? && !run[0].DieInWake? && Unbroken(Step(s, run[0]), run[1..])
  }

  lemma {:induction false} StaysQuietNow(s: State, e: Event, a: string, until: Time)
    requires Inv(s) && Enabled(s, e) && QuietNow(s, a, until) && !(e.Add? && e.agent == a)
    ensures !e.Restart? && !e.DieInWake? ==> QuietNow(Step(s, e), a, until)
    ensures Writes(s, e) && e.ok ==> Quiet(Step(s, e), a, until)
    ensures WokenBy(s, e).Some? && WokenBy(s, e).value.agent == a ==> s.now >= until
  {
  }

  lemma {:induction false} RunStaysQuietNow(s: State, run: seq<Event>, t: State, a: string, until: Time)
    requires Inv(s) && Reaches(s, run, t) && QuietNow(s, a, until) && Unbroken(s, run)
    requires forall i :: 0 <= i < |run| ==> !(run[i].Add? && run[i].agent == a)
    ensures QuietNow(t, a, until)
    decreases |run|
  {
    if run != [] {
      StaysQuietNow(s, run[0], a, until);
      if Writes(s, run[0]) && run[0].ok {
        RunStaysQuiet(Step(s, run[0]), run[1..], t, a, until);
      } else {
        RunStaysQuietNow(Step(s, run[0]), run[1..], t, a, until);
      }
    }
  }

  /** A wake makes the agent quiet in memory for its interval, saved or not. */
  lemma {:induction false} WakeQuietsNow(s: State, found: Found, ok: bool)
    requires Inv(s) && s.todo != [] && WokenBy(s, Visit(found, ok)).Some? && s.todo[0].entry.interval >= 0
    ensures QuietNow(Step(s, Visit(found, ok)), s.todo[0].agent, s.now + s.todo[0].entry.interval as real)
  {
  }

  /**
   * Two wakes of an agent with no schedule added for it between them are at least the interval
   * apart, whatever else happens between: other checks, lookups that fail, removals, restarts, and
   * whatever the clock does. A wake that was not saved only needs that no restart comes before the
   * next write that succeeds.
   */
  lemma {:induction false} WakeSpacing(s: State, found: Found, ok: bool, run: seq<Event>, t: State, e: Event)
    requires Inv(s) && s.todo != [] && WokenBy(s, Visit(found, ok)).Some? && s.todo[0].entry.interval >= 0
    requires Reaches(Step(s, Visit(found, ok)), run, t) && (ok || Unbroken(Step(s, Visit(found, ok)), run))
    requires forall i :: 0 <= i < |run| ==> !(run[i].Add? && run[i].agent == s.todo[0].agent)
    requires Enabled(t, e) && WokenBy(t, e).Some? && WokenBy(t, e).value.agent == s.todo[0].agent
    ensures WokenBy(t, e).value.at >= s.now + s.todo[0].entry.interval as real
  {
    var a, until, s1 := s.todo[0].agent, s.now + s.todo[0].entry.interval as real, Step(s, Visit(found, ok));
    RunInv(s1, run, t);
    if ok {
      WakeQuiets(s, found);
      RunStaysQuiet(s1, run, t, a, until);
    } else {
      WakeQuietsNow(s, found, ok);
      RunStaysQuietNow(s1, run, t, a, until);
    }
    StaysQuietNow(t, e, a, until);
  }

  /** A wake whose write raised is forgotten by the next restart, as if the process had died in it. */
  lemma {:induction false} UnsavedIsForgotten(s: State)
    requires s.Due()
    ensures Step(Step(s, Visit(Container(true, false), false)), Restart) == Step(s, DieInWake)
    ensures WokenBy(s, Visit(Container(true, false), false)) == WokenBy(s, DieInWake) != None
  {
  }

  /** A wake that was not saved can repeat at once: after the restart the agent is due again. */
  lemma {:induction false} UnsavedWakeRepeats(s: State, order: seq<string>)
    requires s.InStep() && s.Due() && s.todo[0].agent in s.book && s.now >= s.book[s.todo[0].agent].nextWake
    requires Lists(order, s.book) && order[0] == s.todo[0].agent
    ensures var s1, again := Step(s, DieInWake), Visit(Container(true, false), true);
            && Enabled(s1, Begin(s.now, order))
            && var s2 := Step(s1, Begin(s.now, order));
            && WokenBy(s, DieInWake).Some?
            && Enabled(s2, again)
            && WokenBy(s2, again).Some?
            && WokenBy(s2, again).value.agent == s.todo[0].agent
            && WokenBy(s2, again).value.at == s.now
  {
    assert s.todo[0].agent in order;
  }

  /** A schedule that is added is due one interval later and not before, and replaces what the agent had. */
  lemma {:induction false} AddedIsDue(s: State, a: string, interval: int, at: Time, ok: bool, now: Time,
                                      order: seq<string>)
    requires s.todo == [] && Lists(order, s.book[a := Entry(interval, at + interval as real)])
    requires order != [] && order[0] == a
    ensures var s1 := Step(s, Add(a, interval, at, ok));
            && (forall k :: k in s.book && k != a ==> k in s1.book && s1.book[k] == s.book[k])
            && (ok ==> s1.InStep()) && (!ok ==> s1.saved == s.saved)
            && Enabled(s1, Begin(now, order))
            && var s2, wake := Step(s1, Begin(now, order)), Visit(Container(true, false), ok);
               && Enabled(s2, wake)
               && (WokenBy(s2, wake) == if now >= at + interval as real then Some(Wake(a, now, interval)) else None)
  {
    assert order[0] in order;
  }

  // Removal

  /** Not scheduled, in memory or stored, and not about to be woken by the check in progress. */
  ghost predicate Gone(s: State, a: string) {
    && a !in s.book && a !in Loaded(s.saved)
    && forall i :: 0 <= i < |s.todo| && s.todo[i].agent == a ==> s.now < s.todo[i].entry.nextWake
  }

  /**
   * A removed schedule stays removed, provided the removal was saved and no check in progress still holds it as
   * due.
   */
  lemma {:induction false} RemovedStaysOut(s: State, run: seq<Event>, t: State, a: string)
    requires Inv(s) && Reaches(s, run, t) && Gone(s, a)
    requires forall i :: 0 <= i < |run| ==> !(run[i].Add? && run[i].agent == a)
    ensures Gone(t, a)
    ensures forall e :: Enabled(t, e) && WokenBy(t, e).Some? ==> WokenBy(t, e).value.agent != a
    decreases |run|
  {
    if run != [] {
      RemovedStaysOut(Step(s, run[0]), run[1..], t, a);
    }
  }

  /** A removal that was not saved is undone by a restart. */
  lemma {:induction false} UnsavedRemovalReturns(s: State, a: string)
    requires a in Loaded(s.saved)
    ensures a !in Step(s, Remove(a, false)).book
    ensures a in Step(Step(s, Remove(a, false)), Restart).book
  {
  }

  /** And otherwise the check in progress can wake the removed agent and put its schedule back. */
  lemma {:induction false} RemovedComesBack(s: State, i: nat) returns (run: seq<Event>, t: State)
    requires i < |s.todo| && s.now >= s.todo[i].entry.nextWake
    ensures Reaches(s, run, t) && forall j :: 0 <= j < |run| ==> run[j].Visit?
    ensures s.todo[i].agent in t.book && s.todo[i].agent in Loaded(t.saved)
    decreases i
  {
    if i == 0 {
      run, t := [Visit(Container(true, false), true)], Step(s, Visit(Container(true, false), true));
      assert Reaches(t, run[1..], t);
    } else {
      var next := Step(s, Visit(Missing, true));
      assert next.todo[i - 1] == s.todo[i];
      var rest, last := RemovedComesBack(next, i - 1);
      run, t := [Visit(Missing, true)] + rest, last;
      assert run[1..] == rest;
    }
  }

  // One whole check

  /** What a check meets: what each lookup finds, and whether the write for that agent succeeds. */
  datatype World = World(find: string -> Found, write: string -> bool) {
    /** No lookup raises, and no write for an agent that is not asleep does, so the check goes through. */
    ghost predicate Smooth() {
      forall k :: !find(k).LookupRaises? && (find(k).Container? && !find(k).sleeping ==> write(k))
    }
  }

  function VisitedIn(s: State, w: World): State
    requires s.todo != []
  {
    Visited(s, w.find(s.todo[0].agent), w.write(s.todo[0].agent))
  }

  /** The remaining visits of a check. */
  ghost function Checked(s: State, w: World): State
    decreases |s.todo|
  {
    if s.todo == [] then s else Checked(VisitedIn(s, w), w)
  }

  ghost function WokenIn(s: State, w: World): seq<string>
    decreases |s.todo|
  {
    if s.todo == [] then []
    else (if s.Due() && w.find(s.todo[0].agent).Wakes() then [s.todo[0].agent] else []) + WokenIn(VisitedIn(s, w), w)
  }

  /** The check has this entry of the agent before it. */
  ghost predicate Pending(s: State, a: string, e: Entry) {
    Item(a, e) in s.todo && (a in s.book && s.book[a] == e)
  }

  /** An agent the check does not have before it keeps its entry and is not woken. */
  lemma {:induction false} OthersKept(s: State, w: World, a: string)
    requires forall i :: 0 <= i < |s.todo| ==> s.todo[i].agent != a
    ensures a in Checked(s, w).book <==> a in s.book
    ensures a in s.book ==> Checked(s, w).book[a] == s.book[a]
    ensures a !in WokenIn(s, w)
    decreases |s.todo|
  {
    if s.todo != [] {
      OthersKept(VisitedIn(s, w), w, a);
    }
  }

  lemma {:induction false} PendingNext(s: State, w: World, a: string, e: Entry)
    requires Inv(s) && w.Smooth() && Pending(s, a, e) && s.todo[0] != Item(a, e)
    ensures VisitedIn(s, w).todo == s.todo[1..] && s.todo[0].agent != a
    ensures Inv(VisitedIn(s, w)) && Pending(VisitedIn(s, w), a, e) && VisitedIn(s, w).now == s.now
  {
    var i :| 0 <= i < |s.todo| && s.todo[i] == Item(a, e);
    assert s.todo[1..][i - 1] == Item(a, e);
  }

  /** What a check makes of the entry of an agent. */
  ghost predicate Outcome(s: State, w: World, a: string, e: Entry, now: Time) {
    var found := w.find(a);
    var fails := found.Container? && found.sleeping && found.wakeRaises;
    && (a in WokenIn(s, w) <==> now >= e.nextWake && found.Container? && found.sleeping && !found.wakeRaises)
    && a in Checked(s, w).book
    && Checked(s, w).book[a].interval == e.interval
    && Checked(s, w).book[a].nextWake
       == if now >= e.nextWake && found.Container? && !fails then now + e.interval as real else e.nextWake
  }

  lemma {:induction false} VisitFirst(s: State, w: World, a: string, e: Entry)
    requires Inv(s) && w.Smooth() && Pending(s, a, e) && s.todo[0] == Item(a, e)
    ensures Outcome(s, w, a, e, s.now)
  {
    OthersKept(VisitedIn(s, w), w, a);
  }

  /**
   * A check that goes through wakes exactly the due sleeping agents, moves the due entries it could act
   * on to one interval from now, and keeps the others.
   */
  lemma {:induction false} CheckIsExact(s: State, w: World, a: string, e: Entry)
    requires Inv(s) && w.Smooth() && Pending(s, a, e)
    ensures Outcome(s, w, a, e, s.now)
    decreases |s.todo|
  {
    if s.todo[0] == Item(a, e) {
      VisitFirst(s, w, a, e);
    } else {
      PendingNext(s, w, a, e);
      CheckIsExact(VisitedIn(s, w), w, a, e);
    }
  }

  /**
   * A lookup that raises ends the check before anything is changed, and so does, after the entry is moved, a write
   * that raises for an agent that is not asleep: the due agents after it are left for the next check.
   */
  lemma {:induction false} RaiseEndsCheck(s: State, w: World)
    requires s.todo != [] && s.now >= s.todo[0].entry.nextWake
    ensures var a, e := s.todo[0].agent, s.todo[0].entry;
            var found := w.find(a);
            && (found.LookupRaises? ==> Checked(s, w) == s.(todo := []) && WokenIn(s, w) == [])
            && (found.Container? && !found.sleeping && !w.write(a) ==>
                  && WokenIn(s, w) == [] && Checked(s, w).saved == s.saved
                  && Checked(s, w).book == s.book[a := Entry(e.interval, s.now + e.interval as real)])
  {
    assert Checked(VisitedIn(s, w), w) == if VisitedIn(s, w).todo == [] then VisitedIn(s, w)
                                          else Checked(VisitedIn(s, w), w);
  }

  /** A whole check is a run of visits, so what holds over runs holds across it. */
  lemma {:induction false} CheckIsRun(s: State, w: World) returns (run: seq<Event>)
    ensures Reaches(s, run, Checked(s, w)) && forall i :: 0 <= i < |run| ==> run[i].Visit?
    decreases |s.todo|
  {
    run := [];
    if s.todo != [] {
      var first := Visit(w.find(s.todo[0].agent), w.write(s.todo[0].agent));
      var rest := CheckIsRun(Step(s, first), w);
      run := [first] + rest;
      assert run[1..] == rest;
    }
  }

  /** The check started at `start` has come to `s` and woken these. */
  ghost predicate Tracks(start: State, s: State, woken: seq<string>, w: World) {
    Checked(s, w) == Checked(start, w) && woken + WokenIn(s, w) == WokenIn(start, w)
  }

  lemma {:induction false} TrackBegin(start: State, w: World)
    ensures Tracks(start, start, [], w)
  {
    assert [] + WokenIn(start, w) == WokenIn(start, w);
  }

  lemma {:induction false} WokenFirst(s: State, w: World)
    requires s.todo != []
    ensures var first := if s.Due() && w.find(s.todo[0].agent).Wakes() then [s.todo[0].agent] else [];
            WokenIn(s, w) == first + WokenIn(VisitedIn(s, w), w)
    ensures Checked(s, w) == Checked(VisitedIn(s, w), w)
  {
  }

  lemma {:induction false} Regroup(a: seq<string>, b: seq<string>, c: seq<string>)
    ensures a + (b + c) == a + b + c
  {
  }

  /** One visit on, with the agent it woke, if any, added. */
  lemma {:induction false} TrackVisit(start: State, s: State, woken: seq<string>, w: World, next: State,
                                      more: seq<string>)
    requires Tracks(start, s, woken, w) && s.todo != [] && next == VisitedIn(s, w)
    requires more == if s.Due() && w.find(s.todo[0].agent).Wakes() then [s.todo[0].agent] else []
    ensures Tracks(start, next, woken + more, w)
  {
    WokenFirst(s, w);
    Regroup(woken, more, WokenIn(next, w));
  }

  lemma {:induction false} TrackDone(start: State, s: State, woken: seq<string>, w: World)
    requires Tracks(start, s, woken, w) && s.todo == []
    ensures s == Checked(start, w) && woken == WokenIn(start, w)
  {
    assert WokenIn(s, w) == [] && woken + [] == woken;
  }

  class WakeScheduler {
    var schedules: Book
    var saved: Option<Book>

    ghost function Now(now: Time, todo: seq<Item>): State
      reads this
    {
      State(schedules, saved, now, todo)
    }

    /** A new process on the same store, after `load`. */
    constructor (stored: Option<Book>)
      ensures saved == stored && schedules == Loaded(stored)
    {
      schedules := map[];
      saved := stored;
      new;
      if saved.Some? {
        schedules := schedules + saved.value;
      }
    }

    /** Writes all schedules, unless the store raises. */
    method Persist(ok: bool)
      modifies this`saved
      ensures saved == if ok then Some(schedules) else old(saved)
    {
      if ok {
        saved := Some(schedules);
      }
    }

    method AddSchedule(agent: string, interval: int, at: Time, ok: bool) returns (entry: Entry)
      modifies this
      ensures entry == Entry(interval, at + interval as real)
      ensures Now(at, []) == Step(old(Now(at, [])), Add(agent, interval, at, ok))
    {
      entry := Entry(interval, at + interval as real);
      schedules := schedules[agent := entry];
      Persist(ok);
    }

    method RemoveSchedule(agent: string, ok: bool)
      modifies this
      ensures schedules == old(schedules) - {agent} && saved == if ok then Some(schedules) else old(saved)
    {
      schedules := schedules - {agent};
      Persist(ok);
    }

    /** One iteration of the check loop; `go` is false when a lookup or a write raised out of it and ended the check. */
    method VisitOne(now: Time, item: Item, found: Found, ok: bool, ghost rest: seq<Item>)
      returns (go: bool, wakes: bool)
      modifies this
      ensures Now(now, if go then rest else []) == Visited(old(Now(now, [item] + rest)), found, ok)
      ensures wakes <==> now >= item.entry.nextWake && found.Wakes()
    {
      assert ([item] + rest)[1..] == rest;
      go, wakes := true, false;
      if now >= item.entry.nextWake {
        if found.LookupRaises? {
          return false, false;
        }
        if found.Container? && !found.sleeping {
          schedules := schedules[item.agent := Later(item.entry, now)];
          Persist(ok);
          go := ok;
        } else if found.Container? && !found.wakeRaises {
          wakes := true;
          schedules := schedules[item.agent := Later(item.entry, now)];
          Persist(ok);
        }
      }
    }

    /** The check loop over a snapshot. */
    method VisitAll(now: Time, snapshot: seq<Item>, w: World) returns (woken: seq<string>)
      modifies this
      ensures Now(now, []) == Checked(old(Now(now, snapshot)), w)
      ensures woken == WokenIn(old(Now(now, snapshot)), w)
    {
      woken := [];
      var entries := snapshot;
      ghost var start := Now(now, entries);
      TrackBegin(start, w);
      while entries != []
        invariant Tracks(start, Now(now, entries), woken, w)
        decreases |entries|
      {
        ghost var before := Now(now, entries);
        var agent := entries[0].agent;
        assert entries == [entries[0]] + entries[1..];
        var go, wakes := VisitOne(now, entries[0], w.find(agent), w.write(agent), entries[1..]);
        var more := if wakes then [agent] else [];
        entries := if go then entries[1..] else [];
        TrackVisit(start, before, woken, w, Now(now, entries), more);
        woken := woken + more;
      }
      TrackDone(start, Now(now, entries), woken, w);
    }

    /** One check that nothing interrupts, over the entries in some order. */
    method CheckAndWake(now: Time, order: seq<string>, w: World) returns (woken: seq<string>)
      requires Lists(order, schedules)
      modifies this
      ensures Now(now, []) == Checked(Step(old(Now(now, [])), Begin(now, order)), w)
      ensures woken == WokenIn(Step(old(Now(now, [])), Begin(now, order)), w)
    {
      woken := VisitAll(now, Snapshot(order, schedules), w);
    }
  }
}
