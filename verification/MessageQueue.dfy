/**
 * The outbound message queue (src/vcompany/resilience/message_queue.py): priorities, retry with
 * exponential backoff, and debounced health reports.
 *
 * The drain loop is a coroutine; what it does between two awaits is one step. The heap inside the
 * priority queue is a multiset from which a least message is taken.
 */
module MessageQueue {
  import opened Windows

  datatype Message = Message(priority: int, timestamp: Time, channel: string, body: string) {
    /** The queue's order: by priority, then by timestamp. */
    predicate NotAfter(m: Message) {
      priority < m.priority || (priority == m.priority && timestamp <= m.timestamp)
    }
  }

  const HEALTH_DEBOUNCED := 3

  /** Where the drain loop is suspended, and the message it holds there. */
  datatype Drain = Off | Waiting | BackingOff(msg: Message) | Sending(msg: Message) | Resting {
    predicate Busy() {
      BackingOff? || Sending?
    }
    predicate Holds(m: Message) {
      Busy() && msg == m
    }
  }

  /** What ends a suspension of the drain loop. */
  datatype Wakeup = Got(m: Message) | Slept | SentOk | RateLimited | Failed | Cancelled

  datatype Fate = Sent | Discarded | Dropped

  datatype Settled = Settled(msg: Message, fate: Fate)

  /** The debounce timer the queue has a handle on: none, still running, or already fired. */
  datatype Handle = NoHandle | Running | Fired

  /** The sending side: the queue, the drain loop, the backoff and what has become of each message. */
  datatype Core = Core(queue: multiset<Message>, drain: Drain, backoff: nat, settled: seq<Settled>)

  /** The debounce side: reports by channel, the timer, timers without a handle, and flushes about to run. */
  datatype Health = Health(buffer: map<string, Message>, handle: Handle, orphans: nat, flushes: nat)

  datatype State = State(core: Core, health: Health)

  const INITIAL := State(Core(multiset{}, Off, 0, []), Health(map[], NoHandle, 0, 0))

  function NextBackoff(b: nat): nat {
    var doubled := if b * 2 < 1 then 1 else b * 2;
    if doubled < 60 then doubled else 60
  }

  ghost predicate Least(m: Message, queue: multiset<Message>) {
    m in queue && forall x :: x in queue ==> m.NotAfter(x)
  }

  /** Waiting for a message, which is a least one of the queue. */
  ghost function AfterGet(s: Core, w: Wakeup): Core {
    if w.Cancelled? then s.(drain := Off)
    else if w.Got? && Least(w.m, s.queue)
    then s.(queue := s.queue - multiset{w.m}, drain := if s.backoff > 0 then BackingOff(w.m) else Sending(w.m))
    else s
  }

  /** Sleeping off a backoff; when cancelled, the message goes back. */
  function AfterBackoff(s: Core, m: Message, w: Wakeup): Core {
    if w.Slept? then s.(drain := Sending(m))
    else if w.Cancelled? then s.(queue := s.queue + multiset{m}, drain := Off)
    else s
  }

  /** Sending: success resets the backoff, a rate limit requeues and lengthens it, any other error discards. */
  function AfterSend(s: Core, m: Message, w: Wakeup, next: Drain): Core {
    match w
    case SentOk => s.(drain := next, backoff := 0, settled := s.settled + [Settled(m, Sent)])
    case RateLimited => s.(drain := next, queue := s.queue + multiset{m}, backoff := NextBackoff(s.backoff))
    case Failed => s.(drain := next, settled := s.settled + [Settled(m, Discarded)])
    case Cancelled => s.(drain := Off, settled := s.settled + [Settled(m, Dropped)])
    case _ => s
  }

  function AfterRest(s: Core, w: Wakeup): Core {
    if w.Slept? then s.(drain := Waiting) else if w.Cancelled? then s.(drain := Off) else s
  }

  /** The drain loop from one await to the next; `rests` says whether sends are spaced out. */
  ghost function Resumed(s: Core, w: Wakeup, rests: bool): Core {
    match s.drain
    case Off => s
    case Waiting => AfterGet(s, w)
    case BackingOff(m) => AfterBackoff(s, m, w)
    case Sending(m) => AfterSend(s, m, w, if rests then Resting else Waiting)
    case Resting => AfterRest(s, w)
  }

  /** The buffered health reports. */
  ghost function Buffered(buffer: map<string, Message>): multiset<Message> {
    multiset(set c | c in buffer :: buffer[c])
  }

  /** Everything buffered moves to the queue; a timer that is still running loses its handle. */
  ghost function Flushed(s: State): State {
    var h := s.health;
    State(s.core.(queue := s.core.queue + Buffered(h.buffer)),
          h.(buffer := map[], handle := NoHandle, orphans := if h.handle.Running? then h.orphans + 1 else h.orphans))
  }

  /** Cancel the timer, flush, cancel the drain loop. */
  ghost function Stopped(s: State, rests: bool): State {
    var f := Flushed(s.(health := s.health.(handle := NoHandle)));
    f.(core := Resumed(f.core, Cancelled, rests))
  }

  function Report(channel: string, body: string, now: Time): Message {
    Message(HEALTH_DEBOUNCED, now, channel, body)
  }

  /** Puts the buffered reports into the queue one by one. */
  method PutAll(queue: multiset<Message>, buffer: map<string, Message>) returns (all: multiset<Message>)
    requires forall c :: c in buffer ==> buffer[c].channel == c
    ensures all == queue + Buffered(buffer)
  {
    all := queue;
    var rest := buffer;
    while rest != map[]
      invariant forall c :: c in rest ==> c in buffer && rest[c] == buffer[c]
      invariant all + Buffered(rest) == queue + Buffered(buffer)
      decreases |rest|
    {
      assert rest.Keys != {};
      var c :| c in rest.Keys;
      BufferedWithout(rest, c);
      all := all + multiset{rest[c]};
      rest := rest - {c};
    }
  }

  lemma {:induction false} BufferedWithout(buffer: map<string, Message>, c: string)
    requires c in buffer && forall x :: x in buffer ==> buffer[x].channel == x
    ensures Buffered(buffer) == Buffered(buffer - {c}) + multiset{buffer[c]}
    ensures |buffer - {c}| == |buffer| - 1
  {
    var less := buffer - {c};
    var all, some := set x | x in buffer :: buffer[x], set x | x in less :: less[x];
    assert all == some + {buffer[c]} by {
      forall m | m in all
        ensures m in some + {buffer[c]}
      {
        assert m.channel in buffer && buffer[m.channel] == m;
        assert m.channel != c ==> less[m.channel] == m;
      }
    }
    assert buffer.Keys == less.Keys + {c};
  }

  class Queue {
    const rests: bool
    var queue: multiset<Message>
    var drain: Drain
    var backoff: nat
    var settled: seq<Settled>
    var healthBuffer: map<string, Message>
    var handle: Handle
    var orphans: nat
    var flushes: nat

    ghost function View(): State
      reads this
    {
      State(Core(queue, drain, backoff, settled), Health(healthBuffer, handle, orphans, flushes))
    }

    /** Each buffered report is filed under its own channel. */
    ghost predicate Valid()
      reads this
    {
      forall c :: c in healthBuffer ==> healthBuffer[c].channel == c
    }

    constructor (maxRate: real)
      ensures Valid() && View() == INITIAL && rests == (maxRate > 0.0)
    {
      rests := maxRate > 0.0;
      queue, drain, backoff, settled := multiset{}, Off, 0, [];
      healthBuffer, handle, orphans, flushes := map[], NoHandle, 0, 0;
    }

    method Start()
      requires Valid()
      modifies this
      ensures Valid() && View().health == old(View()).health
      ensures View().core == if old(drain).Off? then old(View()).core.(drain := Waiting) else old(View()).core
    {
      if drain.Off? {
        drain := Waiting;
      }
    }

    method Enqueue(m: Message)
      requires Valid()
      modifies this
      ensures Valid() && View().health == old(View()).health
      ensures View().core == old(View()).core.(queue := old(queue) + multiset{m})
    {
      queue := queue + multiset{m};
    }

    /** Replaces the channel's pending report and restarts the debounce timer. */
    method EnqueueHealth(channel: string, body: string, now: Time)
      requires Valid()
      modifies this
      ensures Valid() && View().core == old(View()).core
      ensures View().health == old(View()).health.(
                buffer := old(healthBuffer)[channel := Report(channel, body, now)], handle := Running)
    {
      healthBuffer := healthBuffer[channel := Report(channel, body, now)];
      handle := Running;
    }

    method FlushHealth()
      requires Valid()
      modifies this
      ensures Valid() && View() == Flushed(old(View()))
    {
      queue := PutAll(queue, healthBuffer);
      if handle.Running? {
        orphans := orphans + 1;
      }
      healthBuffer := map[];
      handle := NoHandle;
    }

    /** Cancels the timer, flushes, and cancels the drain loop wherever it is. */
    method Stop()
      requires Valid()
      modifies this
      ensures Valid()
      ensures View() == Stopped(old(View()), rests)
    {
      handle := NoHandle;
      FlushHealth();
      DrainResume(Cancelled);
    }

    /** The drain loop, resumed where it is suspended. */
    method DrainResume(w: Wakeup)
      requires Valid()
      modifies this
      ensures Valid() && View() == old(View()).(core := Resumed(old(View()).core, w, rests))
    {
      match drain
      case Off =>
      case Waiting =>
        GetReturned(w);
      case BackingOff(m) =>
        if w.Slept? {
          drain := Sending(m);
        } else if w.Cancelled? {
          queue := queue + multiset{m};
          drain := Off;
        }
      case Sending(m) =>
        SendReturned(m, w);
      case Resting =>
        if w.Slept? {
          drain := Waiting;
        } else if w.Cancelled? {
          drain := Off;
        }
    }

    method GetReturned(w: Wakeup)
      modifies this`queue, this`drain
      ensures View().core == AfterGet(old(View()).core, w)
    {
      if w.Cancelled? {
        drain := Off;
      } else if w.Got? {
        var taken := TakeLeast(w.m);
        if taken {
          drain := if backoff > 0 then BackingOff(w.m) else Sending(w.m);
        }
      }
    }

    method SendReturned(m: Message, w: Wakeup)
      modifies this`queue, this`drain, this`backoff, this`settled
      ensures View().core == AfterSend(old(View()).core, m, w, if rests then Resting else Waiting)
    {
      if w.SentOk? {
        settled := settled + [Settled(m, Sent)];
        backoff := 0;
      } else if w.RateLimited? {
        queue := queue + multiset{m};
        backoff := NextBackoff(backoff);
      } else if w.Failed? {
        settled := settled + [Settled(m, Discarded)];
      } else if w.Cancelled? {
        settled := settled + [Settled(m, Dropped)];
        drain := Off;
        return;
      } else {
        return;
      }
      drain := if rests then Resting else Waiting;
    }

    /** Takes the message if it is a least one of the queue. */
    method TakeLeast(m: Message) returns (taken: bool)
      modifies this`queue
      ensures taken == Least(m, old(queue))
      ensures queue == if taken then old(queue) - multiset{m} else old(queue)
    {
      if m !in queue {
        return false;
      }
      var rest := queue;
      while rest != multiset{}
        invariant rest <= queue
        invariant forall x :: x in queue && x !in rest ==> m.NotAfter(x)
        decreases |rest|
      {
        var x :| x in rest;
        if !m.NotAfter(x) {
          return false;
        }
        rest := rest[x := 0];
      }
      queue := queue - multiset{m};
      return true;
    }
  }
}
