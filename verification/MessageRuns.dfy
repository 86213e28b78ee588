/** Whole runs of the outbound message queue (src/vcompany/resilience/message_queue.py). */
module MessageRuns {
  import opened Windows
  import opened Options
  import opened MessageQueue

  datatype Event =
    | Enqueue(m: Message)
    | EnqueueHealth(channel: string, body: string, now: Time)
    | TimerFires
    | OrphanFires
    | Flush
    | Start
    | Resume(w: Wakeup)
    | Stop

  /**
   * One step; an event that cannot happen in a state changes nothing. The drain loop is cancelled by a
   * stop, or by a send function that raises a cancellation of its own.
   */
  ghost function Step(s: State, e: Event, rests: bool): State {
    State(StepCore(s, e, rests), StepHealth(s.health, e))
  }

  ghost function StepCore(s: State, e: Event, rests: bool): Core {
    var c := s.core;
    match e
    case Enqueue(m) => c.(queue := c.queue + multiset{m})
    case Flush => if s.health.flushes > 0 then Flushed(s).core else c
    case Start => if c.drain.Off? then c.(drain := Waiting) else c
    case Resume(w) => if w.Cancelled? && !c.drain.Sending? then c else Resumed(c, w, rests)
    case Stop => Stopped(s, rests).core
    case _ => c
  }

  function StepHealth(h: Health, e: Event): Health {
    match e
    case EnqueueHealth(c, body, now) => h.(buffer := h.buffer[c := Report(c, body, now)], handle := Running)
    case TimerFires => if h.handle.Running? then h.(handle := Fired, flushes := h.flushes + 1) else h
    case OrphanFires => if h.orphans > 0 then h.(orphans := h.orphans - 1, flushes := h.flushes + 1) else h
    case Flush =>
      if h.flushes > 0
      then Health(map[], NoHandle, if h.handle.Running? then h.orphans + 1 else h.orphans, h.flushes - 1)
      else h
    case Stop => Health(map[], NoHandle, h.orphans, h.flushes)
    case _ => h
  }

  /** The debounce side of a step is that of the queue's own operations. */
  lemma {:induction false} HealthOfStep(s: State, rests: bool)
    ensures s.health.flushes > 0 ==>
              StepHealth(s.health, Flush) == Flushed(s.(health := s.health.(flushes := s.health.flushes - 1))).health
    ensures StepHealth(s.health, Stop) == Stopped(s, rests).health
  {
  }

  ghost function Run(s: State, events: seq<Event>, rests: bool): State {
    if events == [] then s else Step(Run(s, events[..|events| - 1], rests), events[|events| - 1], rests)
  }

  // Conservation

  /** How often the message was settled, one way or another. */
  function TimesSettled(settled: seq<Settled>, m: Message): nat {
    if settled == [] then 0
    else TimesSettled(settled[..|settled| - 1], m) + if settled[|settled| - 1].msg == m then 1 else 0
  }

  function Drops(settled: seq<Settled>): nat {
    if settled == [] then 0 else Drops(settled[..|settled| - 1]) + if settled[|settled| - 1].fate.Dropped? then 1 else 0
  }

  /** What an event puts into the queue: a message, or the buffered health reports. */
  ghost function Arrival(s: State, e: Event): multiset<Message> {
    match e
    case Enqueue(m) => multiset{m}
    case Flush => if s.health.flushes > 0 then Buffered(s.health.buffer) else multiset{}
    case Stop => Buffered(s.health.buffer)
    case _ => multiset{}
  }

  /** How often the message was put into the queue. */
  ghost function Arrivals(s: State, events: seq<Event>, rests: bool, m: Message): nat {
    if events == [] then 0
    else
      var before := events[..|events| - 1];
      Arrivals(s, before, rests, m) + Arrival(Run(s, before, rests), events[|events| - 1])[m]
  }

  /** Whether the event cancels the drain loop in the middle of a send. */
  predicate CancelsSend(s: State, e: Event) {
    s.core.drain.Sending? && (e.Stop? || e == Resume(Cancelled))
  }

  /** The cancellations in the middle of a send. */
  ghost function MidSendCancels(s: State, events: seq<Event>, rests: bool): nat {
    if events == [] then 0
    else
      var before := events[..|events| - 1];
      MidSendCancels(s, before, rests) + if CancelsSend(Run(s, before, rests), events[|events| - 1]) then 1 else 0
  }

  /** The copies of a message in a state: queued, held by the drain loop, or settled. */
  function Copies(c: Core, m: Message): nat {
    c.queue[m] + (if c.drain.Holds(m) then 1 else 0) + TimesSettled(c.settled, m)
  }

  lemma {:induction false} SettledSnoc(settled: seq<Settled>, x: Settled, m: Message)
    ensures TimesSettled(settled + [x], m) == TimesSettled(settled, m) + if x.msg == m then 1 else 0
    ensures Drops(settled + [x]) == Drops(settled) + if x.fate.Dropped? then 1 else 0
  {
    assert (settled + [x])[..|settled|] == settled;
  }

  lemma {:induction false} GetConserves(c: Core, w: Wakeup, m: Message)
    requires c.drain.Waiting?
    ensures Copies(AfterGet(c, w), m) == Copies(c, m) && AfterGet(c, w).settled == c.settled
  {
    assert w.Got? && w.m in c.queue ==> (c.queue - multiset{w.m})[m] == c.queue[m] - if m == w.m then 1 else 0;
  }

  lemma {:induction false} SendConserves(c: Core, w: Wakeup, next: Drain, m: Message)
    requires c.drain.Sending? && !next.Busy()
    ensures var t := AfterSend(c, c.drain.msg, w, next);
            && Copies(t, m) == Copies(c, m)
            && Drops(t.settled) == Drops(c.settled) + if w.Cancelled? then 1 else 0
  {
    match w
    case SentOk => SettleConserves(c, Sent, m);
    case Failed => SettleConserves(c, Discarded, m);
    case Cancelled => SettleConserves(c, Dropped, m);
    case _ =>
  }

  lemma {:induction false} SettleConserves(c: Core, fate: Fate, m: Message)
    requires c.drain.Sending?
    ensures var settled := c.settled + [Settled(c.drain.msg, fate)];
            && Copies(c, m) == c.queue[m] + TimesSettled(settled, m)
            && Drops(settled) == Drops(c.settled) + if fate.Dropped? then 1 else 0
  {
    SettledSnoc(c.settled, Settled(c.drain.msg, fate), m);
  }

  lemma {:induction false} ResumeConserves(c: Core, w: Wakeup, rests: bool, m: Message)
    ensures var t := Resumed(c, w, rests);
            && Copies(t, m) == Copies(c, m)
            && Drops(t.settled) == Drops(c.settled) + if c.drain.Sending? && w.Cancelled? then 1 else 0
  {
    match c.drain
    case Waiting => GetConserves(c, w, m);
    case Sending(_) => SendConserves(c, w, if rests then Resting else Waiting, m);
    case _ =>
  }

  lemma {:induction false} StepConserves(s: State, e: Event, rests: bool, m: Message)
    ensures var t := StepCore(s, e, rests);
            && Copies(t, m) == Copies(s.core, m) + Arrival(s, e)[m]
            && Drops(t.settled) == Drops(s.core.settled) + if CancelsSend(s, e) then 1 else 0
  {
    match e
    case Resume(w) => ResumeConserves(s.core, w, rests, m);
    case Stop => ResumeConserves(Flushed(s).core, Cancelled, rests, m);
    case _ =>
  }

  /**
   * Nothing is lost or invented: at every point of every run, the copies of a message put into the
   * queue are exactly those queued, in flight, sent, discarded on an error, or dropped; and a message
   * is dropped only by a cancellation in the middle of its send: a stop, or one of the send function's own.
   */
  lemma {:induction false} MessagesConserved(s: State, events: seq<Event>, rests: bool, m: Message)
    ensures Copies(Run(s, events, rests).core, m) == Copies(s.core, m) + Arrivals(s, events, rests, m)
    ensures Drops(Run(s, events, rests).core.settled) == Drops(s.core.settled) + MidSendCancels(s, events, rests)
  {
    if events != [] {
      var before := events[..|events| - 1];
      MessagesConserved(s, before, rests, m);
      StepConserves(Run(s, before, rests), events[|events| - 1], rests, m);
    }
  }

  // Health reports

  /** The latest report for a channel since the last flush. */
  ghost function LatestReport(s: State, events: seq<Event>, rests: bool, channel: string): Option<Message> {
    if events == [] then None
    else
      var before, e := events[..|events| - 1], events[|events| - 1];
      if e.EnqueueHealth? && e.channel == channel then Some(Message(3, e.now, channel, e.body))
      else if e.Stop? || (e.Flush? && Run(s, before, rests).health.flushes > 0) then None
      else LatestReport(s, before, rests, channel)
  }

  /**
   * A flush moves exactly the latest report of each channel, and no buffered report is ever without a pending
   * flush.
   */
  lemma {:induction false} BufferHoldsLatest(events: seq<Event>, rests: bool, c: string)
    ensures var end := Run(INITIAL, events, rests).health;
            var latest := LatestReport(INITIAL, events, rests, c);
            && (c in end.buffer <==> latest.Some?)
            && (c in end.buffer ==>
                  && end.buffer[c] == latest.value && latest.value.channel == c
                  && (end.handle.Running? || end.orphans > 0 || end.flushes > 0))
  {
    if events != [] {
      BufferHoldsLatest(events[..|events| - 1], rests, c);
    }
  }

  // Backoff

  function Pow2(n: nat): (r: nat)
    ensures r >= 1
  {
    if n == 0 then 1 else 2 * Pow2(n - 1)
  }

  /** The backoff after `k` rate limits in a row: 1, 2, 4, ... seconds, at most 60. */
  function BackoffFor(k: nat): nat {
    if k == 0 then 0 else if Pow2(k - 1) < 60 then Pow2(k - 1) else 60
  }

  /** What an event makes of the number of rate limits since the last successful send. */
  function Limits(k: nat, drain: Drain, e: Event): nat {
    if !drain.Sending? || !e.Resume? then k
    else if e.w.SentOk? then 0
    else if e.w.RateLimited? then k + 1
    else k
  }

  /** Rate limits hit since the last successful send. */
  ghost function LimitsSinceSuccess(s: State, events: seq<Event>, rests: bool): nat {
    if events == [] then 0
    else
      var before := events[..|events| - 1];
      Limits(LimitsSinceSuccess(s, before, rests), Run(s, before, rests).core.drain, events[|events| - 1])
  }

  lemma {:induction false} BackoffNext(k: nat)
    ensures NextBackoff(BackoffFor(k)) == BackoffFor(k + 1)
  {
    if k > 0 {
      assert Pow2(k) == 2 * Pow2(k - 1);
    }
  }

  lemma {:induction false} ResumeBackoff(c: Core, w: Wakeup, rests: bool)
    ensures Resumed(c, w, rests).backoff ==
            if c.drain.Sending? && w.SentOk? then 0
            else if c.drain.Sending? && w.RateLimited? then NextBackoff(c.backoff)
            else c.backoff
  {
  }

  lemma {:induction false} StepBackoff(s: State, e: Event, rests: bool, k: nat)
    requires s.core.backoff == BackoffFor(k)
    ensures StepCore(s, e, rests).backoff == BackoffFor(Limits(k, s.core.drain, e))
  {
    match e
    case Resume(w) =>
      ResumeBackoff(s.core, w, rests);
      BackoffNext(k);
    case Stop => ResumeBackoff(Flushed(s).core, Cancelled, rests);
    case _ =>
  }

  /** After k rate limits since the last success the backoff is 0 when k is 0, and else min(2^(k-1), 60). */
  lemma {:induction false} BackoffIsExponential(events: seq<Event>, rests: bool)
    ensures Run(INITIAL, events, rests).core.backoff == BackoffFor(LimitsSinceSuccess(INITIAL, events, rests))
  {
    if events != [] {
      var before := events[..|events| - 1];
      BackoffIsExponential(before, rests);
      StepBackoff(Run(INITIAL, before, rests), events[|events| - 1], rests, LimitsSinceSuccess(INITIAL, before, rests));
    }
  }

  // Order

  /** Nothing new enters the queue. */
  ghost predicate NoArrivals(s: State, events: seq<Event>, rests: bool) {
    forall i :: 0 <= i < |events| ==> Arrival(Run(s, events[..i], rests), events[i]) == multiset{}
  }

  /** By priority, and by age within a priority. */
  ghost predicate InOrder(settled: seq<Settled>) {
    forall i, j :: 0 <= i < j < |settled| ==>
      var a, b := settled[i].msg, settled[j].msg;
      a.priority < b.priority || (a.priority == b.priority && a.timestamp <= b.timestamp)
  }

  /** All that is still to be settled comes after what is settled, and the held message before the queued ones. */
  ghost predicate Ordered(c: Core, done: seq<Settled>) {
    && InOrder(done)
    && (forall i, x :: 0 <= i < |done| && x in c.queue ==> done[i].msg.NotAfter(x))
    && (forall i :: 0 <= i < |done| && c.drain.Busy() ==> done[i].msg.NotAfter(c.drain.msg))
    && (forall x :: c.drain.Busy() && x in c.queue ==> c.drain.msg.NotAfter(x))
  }

  /** No message of the queue has a lower priority number, or the same one and an earlier time. */
  ghost predicate First(m: Message, queue: multiset<Message>) {
    forall x :: x in queue ==> m.priority < x.priority || (m.priority == x.priority && m.timestamp <= x.timestamp)
  }

  /** A message the drain loop holds is not after any queued one. */
  ghost predicate HeldIsFirst(c: Core) {
    c.drain.Busy() ==> First(c.drain.msg, c.queue)
  }

  /** What a resumption of the drain loop settles. */
  ghost function NewlySettled(c: Core, w: Wakeup): seq<Settled> {
    if !c.drain.Sending? then []
    else
      match w
      case SentOk => [Settled(c.drain.msg, Sent)]
      case Failed => [Settled(c.drain.msg, Discarded)]
      case Cancelled => [Settled(c.drain.msg, Dropped)]
      case _ => []
  }

  /** What an event settles. */
  ghost function More(s: State, e: Event): seq<Settled> {
    match e
    case Resume(w) => NewlySettled(s.core, w)
    case Stop => NewlySettled(s.core, Cancelled)
    case _ => []
  }

  /** Everything settled since the start of the run, in order. */
  ghost function SettledBy(s: State, events: seq<Event>, rests: bool): seq<Settled> {
    if events == [] then []
    else
      var before := events[..|events| - 1];
      SettledBy(s, before, rests) + More(Run(s, before, rests), events[|events| - 1])
  }

  lemma {:induction false} GetKeepsOrder(c: Core, w: Wakeup, done: seq<Settled>)
    requires c.drain.Waiting? && Ordered(c, done)
    ensures Ordered(AfterGet(c, w), done)
  {
    if w.Got? && Least(w.m, c.queue) {
      assert forall x :: x in c.queue - multiset{w.m} ==> x in c.queue;
    }
  }

  lemma {:induction false} BackoffKeepsOrder(c: Core, w: Wakeup, done: seq<Settled>)
    requires c.drain.BackingOff? && Ordered(c, done)
    ensures Ordered(AfterBackoff(c, c.drain.msg, w), done)
  {
    assert forall x :: x in c.queue + multiset{c.drain.msg} <==> x in c.queue || x == c.drain.msg;
  }

  lemma {:induction false} SendKeepsOrder(c: Core, w: Wakeup, next: Drain, done: seq<Settled>)
    requires c.drain.Sending? && !next.Busy() && Ordered(c, done)
    ensures Ordered(AfterSend(c, c.drain.msg, w, next), done + NewlySettled(c, w))
  {
    var m := c.drain.msg;
    assert forall x :: x in c.queue + multiset{m} <==> x in c.queue || x == m;
    assert done + [] == done;
  }

  lemma {:induction false} ResumeKeepsOrder(c: Core, w: Wakeup, rests: bool, done: seq<Settled>)
    requires Ordered(c, done)
    ensures Ordered(Resumed(c, w, rests), done + NewlySettled(c, w))
  {
    if c.drain.Sending? {
      SendKeepsOrder(c, w, if rests then Resting else Waiting, done);
    } else {
      assert done + NewlySettled(c, w) == done;
      if c.drain.Waiting? {
        GetKeepsOrder(c, w, done);
      } else if c.drain.BackingOff? {
        BackoffKeepsOrder(c, w, done);
      } else {
        assert !Resumed(c, w, rests).drain.Busy() && Resumed(c, w, rests).queue == c.queue;
      }
    }
  }

  lemma {:induction false} ResumeSettles(c: Core, w: Wakeup, rests: bool)
    ensures Resumed(c, w, rests).settled == c.settled + NewlySettled(c, w)
  {
    assert c.settled + [] == c.settled;
  }

  lemma {:induction false} StepSettles(s: State, e: Event, rests: bool)
    ensures StepCore(s, e, rests).settled == s.core.settled + More(s, e)
  {
    assert s.core.settled + [] == s.core.settled;
    match e
    case Resume(w) => ResumeSettles(s.core, w, rests);
    case Stop => ResumeSettles(Flushed(s).core, Cancelled, rests);
    case _ =>
  }

  lemma {:induction false} StepKeepsOrder(s: State, e: Event, rests: bool, done: seq<Settled>)
    requires Ordered(s.core, done) && Arrival(s, e) == multiset{}
    ensures Ordered(StepCore(s, e, rests), done + More(s, e))
  {
    assert done + [] == done;
    match e
    case Resume(w) => ResumeKeepsOrder(s.core, w, rests, done);
    case Stop =>
      assert Flushed(s).core == s.core;
      ResumeKeepsOrder(s.core, Cancelled, rests, done);
    case Flush =>
      assert s.health.flushes > 0 ==> Flushed(s).core == s.core;
    case _ =>
  }

  lemma {:induction false} NoArrivalsPrefix(s: State, events: seq<Event>, rests: bool)
    requires events != [] && NoArrivals(s, events, rests)
    ensures NoArrivals(s, events[..|events| - 1], rests)
    ensures Arrival(Run(s, events[..|events| - 1], rests), events[|events| - 1]) == multiset{}
  {
    var before := events[..|events| - 1];
    assert forall i :: 0 <= i < |before| ==> before[..i] == events[..i];
  }

  lemma {:induction false} RunKeepsOrder(s: State, events: seq<Event>, rests: bool)
    requires HeldIsFirst(s.core) && NoArrivals(s, events, rests)
    ensures Ordered(Run(s, events, rests).core, SettledBy(s, events, rests))
  {
    if events != [] {
      var before := events[..|events| - 1];
      NoArrivalsPrefix(s, events, rests);
      RunKeepsOrder(s, before, rests);
      StepKeepsOrder(Run(s, before, rests), events[|events| - 1], rests, SettledBy(s, before, rests));
    }
  }

  lemma {:induction false} RunSettles(s: State, events: seq<Event>, rests: bool)
    ensures Run(s, events, rests).core.settled == s.core.settled + SettledBy(s, events, rests)
  {
    if events == [] {
      assert s.core.settled + [] == s.core.settled;
    } else {
      var before := events[..|events| - 1];
      RunSettles(s, before, rests);
      StepSettles(Run(s, before, rests), events[|events| - 1], rests);
    }
  }

  /**
   * Retries do not reorder: with nothing new arriving, under any pattern of rate limits, messages are settled by
   * priority and age.
   */
  lemma {:induction false} SettledInOrder(s: State, events: seq<Event>, rests: bool)
    requires HeldIsFirst(s.core) && NoArrivals(s, events, rests)
    ensures s.core.settled <= Run(s, events, rests).core.settled
    ensures InOrder(Run(s, events, rests).core.settled[|s.core.settled|..])
  {
    RunKeepsOrder(s, events, rests);
    RunSettles(s, events, rests);
    assert Run(s, events, rests).core.settled[|s.core.settled|..] == SettledBy(s, events, rests);
  }

  // When the loop backs off

  /** Whether the loop has slept since it took the message it holds. */
  ghost function SleptSinceTaken(events: seq<Event>, rests: bool): bool {
    if events == [] then false
    else
      var before, e := events[..|events| - 1], events[|events| - 1];
      var drain := Run(INITIAL, before, rests).core.drain;
      if e == Resume(Slept) && drain.BackingOff? then true
      else if e.Resume? && e.w.Got? && drain.Waiting? then false
      else SleptSinceTaken(before, rests)
  }

  /** What the suspended loop has behind it, given the rate limits since the last success. */
  ghost predicate BackedOff(c: Core, limits: nat, slept: bool) {
    && (c.drain.Sending? ==> (slept <==> limits > 0))
    && (c.drain.BackingOff? ==> limits > 0 && !slept)
  }

  lemma {:induction false} StepBacksOff(s: State, e: Event, rests: bool, limits: nat, slept: bool)
    requires BackedOff(s.core, limits, slept) && (s.core.backoff > 0 <==> limits > 0)
    ensures BackedOff(StepCore(s, e, rests), Limits(limits, s.core.drain, e),
                      if e == Resume(Slept) && s.core.drain.BackingOff? then true
                      else if e.Resume? && e.w.Got? && s.core.drain.Waiting? then false
                      else slept)
  {
    match e
    case Resume(_) =>
    case _ =>
  }

  /**
   * In every run, while there were rate limits since the last success, a message is sent only after a sleep
   * since it was taken; with none it is sent without one.
   */
  lemma {:induction false} SendsAfterBackoff(events: seq<Event>, rests: bool)
    ensures var drain := Run(INITIAL, events, rests).core.drain;
            && (drain.Sending? ==> (SleptSinceTaken(events, rests) <==> LimitsSinceSuccess(INITIAL, events, rests) > 0))
            && (drain.BackingOff? ==>
                  LimitsSinceSuccess(INITIAL, events, rests) > 0 && !SleptSinceTaken(events, rests))
  {
    if events != [] {
      var before := events[..|events| - 1];
      SendsAfterBackoff(before, rests);
      BackoffIsExponential(before, rests);
      StepBacksOff(Run(INITIAL, before, rests), events[|events| - 1], rests,
                   LimitsSinceSuccess(INITIAL, before, rests), SleptSinceTaken(before, rests));
    }
  }

  // When the loop runs

  /** Whether the loop was started, and neither stopped nor cancelled in a send since. */
  ghost function On(events: seq<Event>, rests: bool): bool {
    if events == [] then false
    else
      var before, e := events[..|events| - 1], events[|events| - 1];
      if e.Start? then true
      else if e.Stop? || CancelsSend(Run(INITIAL, before, rests), e) then false
      else On(before, rests)
  }

  lemma {:induction false} ResumedOff(c: Core, w: Wakeup, rests: bool)
    ensures Resumed(c, w, rests).drain.Off? <==> c.drain.Off? || w.Cancelled?
  {
  }

  lemma {:induction false} StepOn(s: State, e: Event, rests: bool)
    ensures StepCore(s, e, rests).drain.Off?
            <==> e.Stop? || CancelsSend(s, e) || (s.core.drain.Off? && !e.Start?)
  {
    match e
    case Resume(w) => ResumedOff(s.core, w, rests);
    case Stop => ResumedOff(Flushed(s).core, Cancelled, rests);
    case _ =>
  }

  /** The loop runs exactly from a start until a stop or a cancellation in the middle of a send. */
  lemma {:induction false} OnIffStarted(events: seq<Event>, rests: bool)
    ensures On(events, rests) <==> !Run(INITIAL, events, rests).core.drain.Off?
  {
    if events != [] {
      var before := events[..|events| - 1];
      OnIffStarted(before, rests);
      StepOn(Run(INITIAL, before, rests), events[|events| - 1], rests);
    }
  }

  // What becomes of a message

  lemma {:induction false} RunSnoc(s: State, events: seq<Event>, e: Event, rests: bool)
    ensures Run(s, events + [e], rests) == Step(Run(s, events, rests), e, rests)
  {
    assert (events + [e])[..|events|] == events;
  }

  lemma {:induction false} RunConcat(s: State, a: seq<Event>, b: seq<Event>, rests: bool)
    ensures Run(s, a + b, rests) == Run(Run(s, a, rests), b, rests)
    decreases |b|
  {
    if b == [] {
      assert a + b == a;
    } else {
      RunConcat(s, a, b[..|b| - 1], rests);
      assert (a + b)[..|a + b| - 1] == a + b[..|b| - 1];
    }
  }

  /** One attempt at a message, from taking it to waiting for the next one. */
  function Attempt(backing: bool, m: Message, outcome: Wakeup, rests: bool): seq<Event> {
    [Resume(Got(m))] + (if backing then [Resume(Slept)] else []) + [Resume(outcome)]
    + if rests then [Resume(Slept)] else []
  }

  lemma {:induction false} RunOne(s: State, e: Event, rests: bool)
    ensures Run(s, [e], rests) == Step(s, e, rests)
  {
    RunSnoc(s, [], e, rests);
    assert [] + [e] == [e];
  }

  lemma {:induction false} RunMaybe(s: State, c: bool, e: Event, rests: bool)
    ensures Run(s, if c then [e] else [], rests) == if c then Step(s, e, rests) else s
  {
    RunOne(s, e, rests);
  }

  lemma {:induction false} AttemptRuns(s: State, m: Message, outcome: Wakeup, backing: bool, rests: bool)
    ensures var taken := Step(s, Resume(Got(m)), rests);
            var ready := if backing then Step(taken, Resume(Slept), rests) else taken;
            var done := Step(ready, Resume(outcome), rests);
            Run(s, Attempt(backing, m, outcome, rests), rests)
            == if rests then Step(done, Resume(Slept), rests) else done
  {
    var a, b, c := [Resume(Got(m))], if backing then [Resume(Slept)] else [], [Resume(outcome)];
    var d := if rests then [Resume(Slept)] else [];
    RunOne(s, Resume(Got(m)), rests);
    RunConcat(s, a, b, rests);
    RunMaybe(Run(s, a, rests), backing, Resume(Slept), rests);
    RunConcat(s, a + b, c, rests);
    RunOne(Run(s, a + b, rests), Resume(outcome), rests);
    RunConcat(s, a + b + c, d, rests);
    RunMaybe(Run(s, a + b + c, rests), rests, Resume(Slept), rests);
  }

  /** The state after an attempt: settled or queued again, and waiting. */
  ghost predicate Attempted(s: State, m: Message, outcome: Wakeup, t: State) {
    && t.health == s.health && t.core.drain.Waiting?
    && (outcome.RateLimited? ==>
          t.core.queue == s.core.queue && t.core.settled == s.core.settled && t.core.backoff > 0)
    && (outcome.SentOk? ==>
          && t.core.queue == s.core.queue - multiset{m}
          && t.core.settled == s.core.settled + [Settled(m, Sent)] && t.core.backoff == 0)
    && (outcome.Failed? ==>
          && t.core.queue == s.core.queue - multiset{m}
          && t.core.settled == s.core.settled + [Settled(m, Discarded)] && t.core.backoff == s.core.backoff)
  }

  lemma {:induction false} Taken(s: State, m: Message, rests: bool)
    requires s.core.drain.Waiting? && m in s.core.queue && First(m, s.core.queue)
    ensures var taken := Step(s, Resume(Got(m)), rests);
            (if s.core.backoff > 0 then Step(taken, Resume(Slept), rests) else taken)
            == State(s.core.(queue := s.core.queue - multiset{m}, drain := Sending(m)), s.health)
  {
    assert Least(m, s.core.queue);
  }

  lemma {:induction false} Rested(s: State, m: Message, outcome: Wakeup, rests: bool)
    requires s.core.drain == Sending(m) && (outcome.SentOk? || outcome.RateLimited? || outcome.Failed?)
    ensures var done := Step(s, Resume(outcome), rests);
            (if rests then Step(done, Resume(Slept), rests) else done)
            == State(AfterSend(s.core, m, outcome, Waiting), s.health)
  {
  }

  lemma {:induction false} AttemptLeads(s: State, m: Message, outcome: Wakeup, rests: bool)
    requires s.core.drain.Waiting? && m in s.core.queue && First(m, s.core.queue)
    requires outcome.SentOk? || outcome.RateLimited? || outcome.Failed?
    ensures Attempted(s, m, outcome, Run(s, Attempt(s.core.backoff > 0, m, outcome, rests), rests))
  {
    AttemptRuns(s, m, outcome, s.core.backoff > 0, rests);
    Taken(s, m, rests);
    var sending := State(s.core.(queue := s.core.queue - multiset{m}, drain := Sending(m)), s.health);
    Rested(sending, m, outcome, rests);
    assert s.core.queue - multiset{m} + multiset{m} == s.core.queue;
  }

  /** How many sends among the events hit a rate limit. */
  function Hits(events: seq<Event>): nat {
    if events == [] then 0
    else Hits(events[..|events| - 1]) + if events[|events| - 1] == Resume(RateLimited) then 1 else 0
  }

  lemma {:induction false} HitsConcat(a: seq<Event>, b: seq<Event>)
    ensures Hits(a + b) == Hits(a) + Hits(b)
    decreases |b|
  {
    if b == [] {
      assert a + b == a;
    } else {
      HitsConcat(a, b[..|b| - 1]);
      assert (a + b)[..|a + b| - 1] == a + b[..|b| - 1];
    }
  }

  lemma {:induction false} HitsOne(e: Event)
    ensures Hits([e]) == if e == Resume(RateLimited) then 1 else 0
  {
    assert [e][..0] == [];
  }

  lemma {:induction false} AttemptHits(backing: bool, m: Message, outcome: Wakeup, rests: bool)
    ensures Hits(Attempt(backing, m, outcome, rests)) == if outcome.RateLimited? then 1 else 0
  {
    var a, b, c := [Resume(Got(m))], if backing then [Resume(Slept)] else [], [Resume(outcome)];
    HitsOne(Resume(Got(m)));
    HitsOne(Resume(Slept));
    HitsOne(Resume(outcome));
    HitsConcat(a, b);
    HitsConcat(a + b, c);
    HitsConcat(a + b + c, if rests then [Resume(Slept)] else []);
  }

  /** The events lead back to waiting, with the message sent and nothing else changed but the backoff, which is over. */
  ghost predicate SentOnce(s: State, m: Message, events: seq<Event>, rests: bool) {
    var t := Run(s, events, rests);
    && t.core.queue == s.core.queue - multiset{m} && t.core.settled == s.core.settled + [Settled(m, Sent)]
    && t.core.backoff == 0 && t.core.drain.Waiting? && t.health == s.health
  }

  lemma {:induction false} SentLater(s: State, m: Message, again: State, first: seq<Event>, rest: seq<Event>,
                                     rests: bool)
    requires again == Run(s, first, rests) && Attempted(s, m, RateLimited, again)
    requires SentOnce(again, m, rest, rests)
    ensures SentOnce(s, m, first + rest, rests)
  {
    RunConcat(s, first, rest, rests);
  }

  /** The loop waits, and this message is the next one. */
  ghost predicate Ready(s: State, m: Message) {
    s.core.drain.Waiting? && m in s.core.queue && First(m, s.core.queue)
  }

  lemma {:induction false} SentAtOnce(s: State, m: Message, rests: bool) returns (events: seq<Event>)
    requires Ready(s, m)
    ensures SentOnce(s, m, events, rests) && Hits(events) == 0
  {
    events := Attempt(s.core.backoff > 0, m, SentOk, rests);
    AttemptLeads(s, m, SentOk, rests);
    AttemptHits(s.core.backoff > 0, m, SentOk, rests);
  }

  lemma {:induction false} LimitedOnce(s: State, m: Message, rests: bool) returns (events: seq<Event>)
    requires Ready(s, m)
    ensures Hits(events) == 1 && Attempted(s, m, RateLimited, Run(s, events, rests))
    ensures Ready(Run(s, events, rests), m)
  {
    events := Attempt(s.core.backoff > 0, m, RateLimited, rests);
    AttemptLeads(s, m, RateLimited, rests);
    AttemptHits(s.core.backoff > 0, m, RateLimited, rests);
  }

  /** The next message is tried again after any number of rate limits, and then sent, once. */
  lemma {:induction false} RetriedUntilSent(s: State, m: Message, limits: nat, rests: bool) returns (events: seq<Event>)
    requires Ready(s, m)
    ensures SentOnce(s, m, events, rests) && Hits(events) == limits
    decreases limits
  {
    if limits == 0 {
      events := SentAtOnce(s, m, rests);
    } else {
      var first := LimitedOnce(s, m, rests);
      var again := Run(s, first, rests);
      var rest := RetriedUntilSent(again, m, limits - 1, rests);
      SentLater(s, m, again, first, rest, rests);
      HitsConcat(first, rest);
      events := first + rest;
    }
  }

  lemma {:induction false} FirstOfBoth(queue: multiset<Message>, m: Message, x: Message)
    requires m in queue && First(x, queue[m := 0])
    ensures if x.NotAfter(m) then First(x, queue) else First(m, queue)
  {
    forall y | y in queue
      ensures if x.NotAfter(m) then x.NotAfter(y) else m.NotAfter(y)
    {
      assert y == m || y in queue[m := 0];
    }
  }

  lemma {:induction false} SomeFirst(queue: multiset<Message>) returns (m: Message)
    requires queue != multiset{}
    ensures m in queue && First(m, queue)
    decreases |queue|
  {
    m :| m in queue;
    var rest := queue[m := 0];
    if rest == multiset{} {
      FirstOfBoth(queue, m, m);
    } else {
      var x := SomeFirst(rest);
      FirstOfBoth(queue, m, x);
      if x.NotAfter(m) {
        m := x;
      }
    }
  }

  /** From any waiting loop, sends that succeed empty the queue: every message in it is sent. */
  lemma {:induction false} QueueDrains(s: State, rests: bool) returns (events: seq<Event>)
    requires s.core.drain.Waiting?
    ensures forall i :: 0 <= i < |events| ==> events[i].Resume?
    ensures var t := Run(s, events, rests).core;
            && t.queue == multiset{} && t.drain.Waiting?
            && |t.settled| == |s.core.settled| + |s.core.queue| && s.core.settled <= t.settled
            && forall i :: |s.core.settled| <= i < |t.settled| ==> t.settled[i].fate.Sent?
    decreases |s.core.queue|
  {
    if s.core.queue == multiset{} {
      events := [];
    } else {
      var m := SomeFirst(s.core.queue);
      var first := Attempt(s.core.backoff > 0, m, SentOk, rests);
      AttemptLeads(s, m, SentOk, rests);
      var rest := QueueDrains(Run(s, first, rests), rests);
      RunConcat(s, first, rest, rests);
      events := first + rest;
    }
  }

  // What a flush moves

  /**
   * A flush and a stop move exactly the latest report of each channel to the queue, a stop also the message
   * the loop was backing off with.
   */
  lemma {:induction false} FlushMovesLatest(events: seq<Event>, rests: bool, m: Message)
    ensures var s, latest := Run(INITIAL, events, rests), LatestReport(INITIAL, events, rests, m.channel);
            var reports := if latest == Some(m) then 1 else 0;
            && (s.health.flushes > 0 ==> Step(s, Flush, rests).core.queue[m] == s.core.queue[m] + reports)
            && Step(s, Stop, rests).core.queue[m]
               == s.core.queue[m] + reports + (if s.core.drain == BackingOff(m) then 1 else 0)
  {
    var s, latest := Run(INITIAL, events, rests), LatestReport(INITIAL, events, rests, m.channel);
    forall c | c in s.health.buffer
      ensures s.health.buffer[c].channel == c
    {
      BufferHoldsLatest(events, rests, c);
    }
    BufferHoldsLatest(events, rests, m.channel);
    BufferedCount(s.health.buffer, m);
    FlushMoves(s, rests, m, if latest == Some(m) then 1 else 0);
  }

  lemma {:induction false} FlushMoves(s: State, rests: bool, m: Message, reports: nat)
    requires Buffered(s.health.buffer)[m] == reports
    ensures s.health.flushes > 0 ==> Step(s, Flush, rests).core.queue[m] == s.core.queue[m] + reports
    ensures Step(s, Stop, rests).core.queue[m]
            == s.core.queue[m] + reports + (if s.core.drain == BackingOff(m) then 1 else 0)
  {
  }

  lemma {:induction false} BufferedCount(buffer: map<string, Message>, m: Message)
    requires forall c :: c in buffer ==> buffer[c].channel == c
    ensures Buffered(buffer)[m] == if m.channel in buffer && buffer[m.channel] == m then 1 else 0
  {
  }

  // How many timers

  function Reports(events: seq<Event>): nat {
    if events == [] then 0
    else Reports(events[..|events| - 1]) + if events[|events| - 1].EnqueueHealth? then 1 else 0
  }

  /** The flushes that have run, other than that of a stop. */
  ghost function FlushesRun(events: seq<Event>, rests: bool): nat {
    if events == [] then 0
    else
      var before := events[..|events| - 1];
      FlushesRun(before, rests)
      + if events[|events| - 1].Flush? && Run(INITIAL, before, rests).health.flushes > 0 then 1 else 0
  }

  /** The timers cancelled while they ran: by the next report, or by a stop. */
  ghost function TimersCancelled(events: seq<Event>, rests: bool): nat {
    if events == [] then 0
    else
      var before, e := events[..|events| - 1], events[|events| - 1];
      TimersCancelled(before, rests)
      + if (e.EnqueueHealth? || e.Stop?) && Run(INITIAL, before, rests).health.handle.Running? then 1 else 0
  }

  /**
   * Every report starts one timer, and no timer is lost or doubled: each is running, was cancelled, or led to one
   * flush, which has run or is about to.
   */
  lemma {:induction false} TimersConserved(events: seq<Event>, rests: bool)
    ensures var h := Run(INITIAL, events, rests).health;
            Reports(events) == TimersCancelled(events, rests) + FlushesRun(events, rests) + h.flushes + h.orphans
                               + if h.handle.Running? then 1 else 0
  {
    if events != [] {
      TimersConserved(events[..|events| - 1], rests);
    }
  }

  /** A stop leaves nothing buffered, no timer of its own and no loop. */
  lemma {:induction false} StopLeavesNothing(s: State, rests: bool)
    ensures var t := Step(s, Stop, rests);
            && t.health == Health(map[], NoHandle, s.health.orphans, s.health.flushes) && t.core.drain.Off?
  {
    ResumedOff(Flushed(s).core, Cancelled, rests);
  }

  /** While no flush and no stop comes between, the reports of any number of channels share one timer. */
  lemma {:induction false} ReportsShareTimer(s: State, events: seq<Event>, rests: bool)
    requires forall i :: 0 <= i < |events| ==> !events[i].Flush? && !events[i].Stop? && !events[i].TimerFires?
    requires forall i :: 0 <= i < |events| ==> !events[i].OrphanFires?
    ensures var h := Run(s, events, rests).health;
            && h.orphans == s.health.orphans && h.flushes == s.health.flushes
            && (Reports(events) > 0 ==> h.handle.Running?)
  {
    if events != [] {
      ReportsShareTimer(s, events[..|events| - 1], rests);
    }
  }
}
