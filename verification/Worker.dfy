/**
 * The worker's message loop (packages/vco-worker/src/vco_worker/main.py), over stdin and over a socket
 * that the head may lose and reopen any number of times.
 */
module Worker {
  import opened Options

  /** What becomes of a reply: it is written, dropped by a writer that is closing, or raises. */
  datatype Write = Written | Dropped | WriteRaises

  /** How stopping the container goes: cleanly, or with an exception that leaves it up or down. */
  datatype Stopping = Clean | RaisesUp | RaisesDown

  /**
   * A line from the head. Outcomes that lie outside the loop come with the message: whether the
   * container boots, what it writes while handling it, and whether its handler raises.
   */
  datatype Line =
    | Blank
    | Malformed
    | Start(boots: bool)
    | Reconnect
    | GiveTask(emits: seq<string>, raises: bool)
    | Inbound(emits: seq<string>, raises: bool)
    | HealthCheck
    | Stop(how: Stopping)

  /** Reading may raise, as it does for a line beyond the reader's limit; a line that is read may be replied to. */
  datatype Input = Unreadable | Read(line: Line, write: Write)

  datatype Output = Ready | Health(known: bool) | Emitted(text: string) | StoppedSignal

  datatype Container = NotBooted | Up | Down

  /** How a message loop ends: not yet, by a stop message, or by an exception. */
  datatype End = Open | ByStop | ByException

  datatype Worker = Worker(container: Container, boots: nat, out: seq<Output>, handled: seq<Input>)

  const NEW := Worker(NotBooted, 0, [], [])

  function Emissions(texts: seq<string>): (r: seq<Output>)
    ensures |r| == |texts| && forall i :: 0 <= i < |r| ==> r[i] == Emitted(texts[i])
  {
    seq(|texts|, i requires 0 <= i < |texts| => Emitted(texts[i]))
  }

  function Sent(o: Output, write: Write): seq<Output> {
    if write.Written? then [o] else []
  }

  /** What handling an input adds to the output. */
  function Reply(c: Container, i: Input): seq<Output> {
    if i.Unreadable? then []
    else
      match i.line
      case Start(boots) => if c.NotBooted? && boots then Sent(Ready, i.write) else []
      case Reconnect => Sent(Health(!c.NotBooted?), i.write)
      case GiveTask(emits, _) => if c.NotBooted? then [] else Emissions(emits)
      case Inbound(emits, _) => if c.NotBooted? then [] else Emissions(emits)
      case HealthCheck => if c.NotBooted? then [] else Sent(Health(true), i.write)
      case Stop(how) => if c.Up? && how.Clean? then Sent(StoppedSignal, i.write) else []
      case _ => []
  }

  /** Stopping a container that is already down is not a legal transition and raises. */
  function EndOf(c: Container, i: Input): End {
    if i.Unreadable? then ByException
    else
      match i.line
      case Start(boots) => if c.NotBooted? && (!boots || i.write.WriteRaises?) then ByException else Open
      case Reconnect => if i.write.WriteRaises? then ByException else Open
      case GiveTask(_, raises) => if !c.NotBooted? && raises then ByException else Open
      case Inbound(_, raises) => if !c.NotBooted? && raises then ByException else Open
      case HealthCheck => if !c.NotBooted? && i.write.WriteRaises? then ByException else Open
      case Stop(how) => if c.NotBooted? || (c.Up? && how.Clean? && !i.write.WriteRaises?) then ByStop else ByException
      case _ => Open
  }

  predicate Boots(c: Container, i: Input) {
    c.NotBooted? && i.Read? && i.line.Start? && i.line.boots
  }

  /** The container after an input: booted by the first start that succeeds, stopped by a stop. */
  function ContainerAfter(c: Container, i: Input): Container {
    if Boots(c, i) then Up
    else if c.Up? && i.Read? && i.line.Stop? && !i.line.how.RaisesUp? then Down
    else c
  }

  function Handle(w: Worker, i: Input): Worker {
    Worker(ContainerAfter(w.container, i),
           if Boots(w.container, i) then w.boots + 1 else w.boots,
           w.out + Reply(w.container, i),
           w.handled + [i])
  }

  /** Inputs until the loop ends. */
  function HandleAll(w: Worker, inputs: seq<Input>): (r: (Worker, End))
    decreases |inputs|
  {
    if inputs == [] then (w, Open)
    else
      var w', end := Handle(w, inputs[0]), EndOf(w.container, inputs[0]);
      if end.Open? then HandleAll(w', inputs[1..]) else (w', end)
  }

  /** A container that is still up is stopped, without a signal. */
  function CleanedUp(w: Worker, how: Stopping): Worker {
    if w.container.Up? && !how.RaisesUp? then w.(container := Down) else w
  }

  /** The stdio worker: clean-up runs after a stop message or the end of input, not after an exception. */
  function StdioRun(inputs: seq<Input>, cleanup: Stopping): Worker {
    var (w, end) := HandleAll(NEW, inputs);
    if end.ByException? then w else CleanedUp(w, cleanup)
  }

  /** One connection after another until a stop message; exceptions and disconnects end only their connection. */
  function Connections(w: Worker, conns: seq<seq<Input>>): Worker
    decreases |conns|
  {
    if conns == [] then w
    else
      var (w', end) := HandleAll(w, conns[0]);
      if end.ByStop? then w' else Connections(w', conns[1..])
  }

  /** The socket worker: clean-up runs however it exits. */
  function SocketRun(conns: seq<seq<Input>>, cleanup: Stopping): Worker {
    CleanedUp(Connections(NEW, conns), cleanup)
  }

  /** One iteration of the message loop. */
  method HandleLine(start: Worker, i: Input) returns (w: Worker, end: End)
    ensures w == Handle(start, i) && end == EndOf(start.container, i)
  {
    w, end := start.(handled := start.handled + [i]), Open;
    if i.Unreadable? {
      assert w.out + [] == w.out;
      return w, ByException;
    }
    var reply := [];
    match i.line {
      case Start(boots) =>
        if w.container.NotBooted? {
          if !boots {
            end := ByException;
          } else {
            w := w.(container := Up, boots := w.boots + 1);
            reply, end := WriteOne(Ready, i.write);
          }
        }
      case Reconnect =>
        if !w.container.NotBooted? {
          reply, end := WriteOne(Health(true), i.write);
        } else {
          reply, end := WriteOne(Health(false), i.write);
        }
      case GiveTask(emits, raises) =>
        if !w.container.NotBooted? {
          reply, end := Emissions(emits), if raises then ByException else Open;
        }
      case Inbound(emits, raises) =>
        if !w.container.NotBooted? {
          reply, end := Emissions(emits), if raises then ByException else Open;
        }
      case HealthCheck =>
        if !w.container.NotBooted? {
          reply, end := WriteOne(Health(true), i.write);
        }
      case Stop(how) =>
        if !w.container.NotBooted? {
          if w.container.Down? || !how.Clean? {
            w := w.(container := if w.container.Up? && how.RaisesUp? then Up else Down);
            end := ByException;
          } else {
            w := w.(container := Down);
            reply, end := WriteOne(StoppedSignal, i.write);
          }
        }
        end := if end.Open? then ByStop else end;
      case _ =>
    }
    w := w.(out := w.out + reply);
  }

  method WriteOne(o: Output, write: Write) returns (reply: seq<Output>, end: End)
    ensures reply == Sent(o, write) && end == if write.WriteRaises? then ByException else Open
  {
    reply := if write.Written? then [o] else [];
    end := if write.WriteRaises? then ByException else Open;
  }

  method RunLines(start: Worker, inputs: seq<Input>) returns (w: Worker, end: End)
    ensures (w, end) == HandleAll(start, inputs)
  {
    w, end := start, Open;
    var i := 0;
    assert inputs[0..] == inputs;
    while i < |inputs| && end.Open?
      invariant i <= |inputs|
      invariant HandleAll(start, inputs) == if end.Open? then HandleAll(w, inputs[i..]) else (w, end)
    {
      HandleFirst(w, inputs, i);
      w, end := HandleLine(w, inputs[i]);
      i := i + 1;
    }
  }

  method RunWorker(inputs: seq<Input>, cleanup: Stopping) returns (w: Worker)
    ensures w == StdioRun(inputs, cleanup)
  {
    var end;
    w, end := RunLines(NEW, inputs);
    if !end.ByException? && w.container.Up? && !cleanup.RaisesUp? {
      w := w.(container := Down);
    }
  }

  method RunSocket(conns: seq<seq<Input>>, cleanup: Stopping) returns (w: Worker)
    ensures w == SocketRun(conns, cleanup)
  {
    w := NEW;
    var i := 0;
    var exit := false;
    while i < |conns| && !exit
      invariant i <= |conns|
      invariant Connections(NEW, conns) == if exit then w else Connections(w, conns[i..])
    {
      assert conns[i..][0] == conns[i] && conns[i..][1..] == conns[i + 1..];
      var end;
      w, end := RunLines(w, conns[i]);
      exit := end.ByStop?;
      i := i + 1;
    }
    if w.container.Up? && !cleanup.RaisesUp? {
      w := w.(container := Down);
    }
  }

  lemma {:induction false} HandleFirst(w: Worker, inputs: seq<Input>, i: nat)
    requires i < |inputs|
    ensures HandleAll(w, inputs[i..]) ==
            if EndOf(w.container, inputs[i]).Open? then HandleAll(Handle(w, inputs[i]), inputs[i + 1..])
            else (Handle(w, inputs[i]), EndOf(w.container, inputs[i]))
  {
    assert inputs[i..][0] == inputs[i] && inputs[i..][1..] == inputs[i + 1..];
  }

  // The protocol, independently of the worker

  /** Where the head is in the worker's side of the conversation. */
  datatype Stage = Fresh | Serving | Done | Violated

  /**
   * Before the ready signal only "unknown" health reports; after it anything of the container; after "stopped"
   * nothing.
   */
  function Hears(s: Stage, o: Output): Stage {
    match (s, o)
    case (Fresh, Health(false)) => Fresh
    case (Fresh, Ready) => Serving
    case (Serving, Health(true)) => Serving
    case (Serving, Emitted(_)) => Serving
    case (Serving, StoppedSignal) => Done
    case _ => Violated
  }

  function HearsAll(out: seq<Output>): Stage {
    if out == [] then Fresh else Hears(HearsAll(out[..|out| - 1]), out[|out| - 1])
  }

  /** Whether anything a booted container says is among the output. */
  function Speaks(out: seq<Output>): bool {
    out != [] && (Speaks(out[..|out| - 1]) || out[|out| - 1] !in {Ready, Health(false)})
  }

  function Reports(out: seq<Output>): nat {
    if out == [] then 0 else Reports(out[..|out| - 1]) + if out[|out| - 1].Health? then 1 else 0
  }

  predicate NoStopped(out: seq<Output>) {
    forall i :: 0 <= i < |out| ==> !out[i].StoppedSignal?
  }

  /** What became of the ready signal of the first start that booted, if there was one. */
  function BootWrite(handled: seq<Input>): Option<Write> {
    if handled == [] then None
    else
      var before, i := BootWrite(handled[..|handled| - 1]), handled[|handled| - 1];
      if before.Some? then before
      else if i.Read? && i.line.Start? && i.line.boots then Some(i.write)
      else None
  }

  /**
   * The health reports the inputs call for: one per reconnect, and one per health check once booted, unless its
   * write failed.
   */
  function ReportsDue(handled: seq<Input>): nat {
    if handled == [] then 0
    else
      var before, i := handled[..|handled| - 1], handled[|handled| - 1];
      ReportsDue(before) + if Asks(i, BootWrite(before).Some?) then 1 else 0
  }

  predicate Asks(i: Input, booted: bool) {
    i.Read? && i.write.Written? && (i.line.Reconnect? || (i.line.HealthCheck? && booted))
  }

  // One output more

  lemma {:induction false} OutSnoc(out: seq<Output>, o: Output)
    ensures HearsAll(out + [o]) == Hears(HearsAll(out), o)
    ensures Speaks(out + [o]) == (Speaks(out) || o !in {Ready, Health(false)})
    ensures Reports(out + [o]) == Reports(out) + if o.Health? then 1 else 0
  {
    assert (out + [o])[..|out|] == out;
  }

  lemma {:induction false} HandledSnoc(handled: seq<Input>, i: Input)
    ensures ReportsDue(handled + [i]) == ReportsDue(handled) + if Asks(i, BootWrite(handled).Some?) then 1 else 0
    ensures BootWrite(handled + [i]) ==
            if BootWrite(handled).Some? then BootWrite(handled)
            else if i.Read? && i.line.Start? && i.line.boots then Some(i.write) else None
  {
    assert (handled + [i])[..|handled|] == handled;
  }

  /** What the head has heard from a container whose ready signal had this fate. */
  function Expected(boot: Option<Write>, speaks: bool): Stage {
    if boot.None? then Fresh
    else if boot.value.Written? then Serving
    else if speaks then Violated else Fresh
  }

  /** The output of a worker whose loop is still open. */
  ghost predicate Conforms(out: seq<Output>, boot: Option<Write>) {
    && HearsAll(out) == Expected(boot, Speaks(out))
    && (boot.None? ==> !Speaks(out))
    && NoStopped(out)
  }

  /**
   * The output of any worker: the protocol is broken exactly when the ready signal was lost and the container
   * spoke.
   */
  ghost predicate Safe(out: seq<Output>, boot: Option<Write>) {
    && (HearsAll(out).Violated? <==> boot.Some? && !boot.value.Written? && Speaks(out))
    && (boot.None? ==> HearsAll(out).Fresh?)
    && forall i :: 0 <= i < |out| - 1 ==> !out[i].StoppedSignal?
  }

  lemma {:induction false} ConformsIsSafe(out: seq<Output>, boot: Option<Write>)
    requires Conforms(out, boot)
    ensures Safe(out, boot)
  {
  }

  lemma {:induction false} SaysOne(out: seq<Output>, boot: Option<Write>, o: Output)
    requires Conforms(out, boot) && !o.StoppedSignal?
    requires o == Health(false) ==> boot.None?
    requires o != Health(false) ==> boot.Some? && !o.Ready?
    ensures Conforms(out + [o], boot)
  {
    OutSnoc(out, o);
  }

  lemma {:induction false} SaysReady(out: seq<Output>, write: Write)
    requires Conforms(out, None)
    ensures Conforms(out + Sent(Ready, write), Some(write))
  {
    OutSnoc(out, Ready);
    assert out + [] == out;
  }

  lemma {:induction false} SaysStopped(out: seq<Output>, boot: Option<Write>)
    requires Conforms(out, boot) && boot.Some?
    ensures Safe(out + [StoppedSignal], boot)
  {
    OutSnoc(out, StoppedSignal);
  }

  lemma {:induction false} EmitOne(out: seq<Output>, texts: seq<string>)
    requires texts != []
    ensures out + Emissions(texts) == out + Emissions(texts[..|texts| - 1]) + [Emitted(texts[|texts| - 1])]
  {
  }

  lemma {:induction false} EmitNone(out: seq<Output>, texts: seq<string>)
    requires texts == []
    ensures out + Emissions(texts) == out
  {
  }

  lemma {:induction false} SaysAll(out: seq<Output>, boot: Option<Write>, texts: seq<string>)
    requires Conforms(out, boot) && boot.Some?
    ensures Conforms(out + Emissions(texts), boot)
  {
    if texts == [] {
      EmitNone(out, texts);
    } else {
      var front := texts[..|texts| - 1];
      SaysAll(out, boot, front);
      SaysOne(out + Emissions(front), boot, Emitted(texts[|texts| - 1]));
      EmitOne(out, texts);
    }
  }

  lemma {:induction false} EmissionsReportNothing(out: seq<Output>, texts: seq<string>)
    ensures Reports(out + Emissions(texts)) == Reports(out)
  {
    if texts == [] {
      EmitNone(out, texts);
    } else {
      var front := texts[..|texts| - 1];
      EmissionsReportNothing(out, front);
      OutSnoc(out + Emissions(front), Emitted(texts[|texts| - 1]));
      EmitOne(out, texts);
    }
  }

  // One input

  /** The invariant of a worker whose loop is still open. */
  ghost predicate Serves(w: Worker) {
    && w.boots == (if w.container.NotBooted? then 0 else 1)
    && (BootWrite(w.handled).None? <==> w.container.NotBooted?)
    && Reports(w.out) == ReportsDue(w.handled)
    && Conforms(w.out, BootWrite(w.handled))
  }

  /** What holds of a worker at any time. */
  ghost predicate Protocol(w: Worker) {
    && w.boots <= 1
    && (w.boots == 1 <==> BootWrite(w.handled).Some?)
    && Reports(w.out) == ReportsDue(w.handled)
    && Safe(w.out, BootWrite(w.handled))
  }

  lemma {:induction false} ServesProtocol(w: Worker)
    requires Serves(w)
    ensures Protocol(w)
  {
    ConformsIsSafe(w.out, BootWrite(w.handled));
  }

  lemma {:induction false} SilentServes(w: Worker, i: Input)
    requires Serves(w) && Reply(w.container, i) == [] && !Boots(w.container, i) && !Asks(i, !w.container.NotBooted?)
    ensures Serves(Handle(w, i))
  {
    HandledSnoc(w.handled, i);
    assert Handle(w, i).out == w.out;
  }

  lemma {:induction false} BootServes(w: Worker, i: Input)
    requires Serves(w) && Boots(w.container, i)
    ensures Serves(Handle(w, i))
  {
    HandledSnoc(w.handled, i);
    SaysReady(w.out, i.write);
    OutSnoc(w.out, Ready);
    assert w.out + [] == w.out;
  }

  lemma {:induction false} ReportServes(w: Worker, i: Input)
    requires Serves(w) && Asks(i, !w.container.NotBooted?)
    ensures Serves(Handle(w, i))
  {
    HandledSnoc(w.handled, i);
    SaysOne(w.out, BootWrite(w.handled), Health(!w.container.NotBooted?));
    OutSnoc(w.out, Health(!w.container.NotBooted?));
  }

  lemma {:induction false} EmitServes(w: Worker, i: Input)
    requires Serves(w) && i.Read? && (i.line.GiveTask? || i.line.Inbound?) && !w.container.NotBooted?
    ensures Serves(Handle(w, i))
  {
    HandledSnoc(w.handled, i);
    SaysAll(w.out, BootWrite(w.handled), i.line.emits);
    EmissionsReportNothing(w.out, i.line.emits);
  }

  /** After an input the protocol holds, and unless a stop ended the loop its invariant does. */
  ghost predicate Served(w: Worker, end: End) {
    Protocol(w) && (!end.ByStop? ==> Serves(w)) && (end.ByStop? ==> !w.container.Up?)
  }

  lemma {:induction false} StopServes(w: Worker, i: Input)
    requires Serves(w) && Reply(w.container, i) == [StoppedSignal]
    ensures Served(Handle(w, i), ByStop)
  {
    HandledSnoc(w.handled, i);
    SaysStopped(w.out, BootWrite(w.handled));
    OutSnoc(w.out, StoppedSignal);
  }

  lemma {:induction false} HandleServes(w: Worker, i: Input)
    requires Serves(w)
    ensures Served(Handle(w, i), EndOf(w.container, i))
  {
    if Reply(w.container, i) == [StoppedSignal] {
      StopServes(w, i);
    } else {
      if Boots(w.container, i) {
        BootServes(w, i);
      } else if Asks(i, !w.container.NotBooted?) {
        ReportServes(w, i);
      } else if i.Read? && (i.line.GiveTask? || i.line.Inbound?) && !w.container.NotBooted? {
        EmitServes(w, i);
      } else {
        SilentServes(w, i);
      }
      ServesProtocol(Handle(w, i));
    }
  }

  // Whole runs

  lemma {:induction false} AllServes(w: Worker, inputs: seq<Input>)
    requires Serves(w)
    ensures Served(HandleAll(w, inputs).0, HandleAll(w, inputs).1)
    decreases |inputs|
  {
    if inputs == [] {
      ServesProtocol(w);
    } else {
      HandleServes(w, inputs[0]);
      HandleFirst(w, inputs, 0);
      assert inputs[0..] == inputs;
      if EndOf(w.container, inputs[0]).Open? {
        AllServes(Handle(w, inputs[0]), inputs[1..]);
      }
    }
  }

  lemma {:induction false} ConnectionsServe(w: Worker, conns: seq<seq<Input>>)
    requires Serves(w)
    ensures Protocol(Connections(w, conns))
    decreases |conns|
  {
    if conns == [] {
      ServesProtocol(w);
    } else {
      AllServes(w, conns[0]);
      var (w', end) := HandleAll(w, conns[0]);
      if !end.ByStop? {
        ConnectionsServe(w', conns[1..]);
      }
    }
  }

  lemma {:induction false} NewServes()
    ensures Serves(NEW)
  {
  }

  /**
   * Socket mode, over any number of connections, disconnects, unreadable lines and failing writes: at
   * most one container is booted; every reconnect whose reply can be written gets exactly one health
   * report; nothing follows the stopped signal; the ready signal precedes all the container says, unless
   * it was lost itself; and a container survives the worker only if the clean-up could not stop it.
   */
  lemma {:induction false} SocketSafety(conns: seq<seq<Input>>, cleanup: Stopping)
    ensures Protocol(SocketRun(conns, cleanup))
    ensures SocketRun(conns, cleanup).container.Up? ==> cleanup.RaisesUp?
  {
    NewServes();
    ConnectionsServe(NEW, conns);
  }

  /** When the first start that boots can write its ready signal, the conversation is always a proper one. */
  lemma {:induction false} ReadySentIsEnough(conns: seq<seq<Input>>, cleanup: Stopping)
    requires BootWrite(SocketRun(conns, cleanup).handled) == Some(Written)
    ensures !HearsAll(SocketRun(conns, cleanup).out).Violated?
  {
    SocketSafety(conns, cleanup);
  }

  lemma {:induction false} HandleOne(w: Worker, i: Input)
    ensures HandleAll(w, [i]) == (Handle(w, i), EndOf(w.container, i))
  {
    HandleFirst(w, [i], 0);
    assert [i][0..] == [i] && [i][1..] == [];
  }

  lemma {:induction false} OneInput(w: Worker, i: Input, rest: seq<seq<Input>>)
    ensures Connections(w, [[i]] + rest) ==
            if EndOf(w.container, i).ByStop? then Handle(w, i) else Connections(Handle(w, i), rest)
  {
    HandleOne(w, i);
    assert ([[i]] + rest)[0] == [i] && ([[i]] + rest)[1..] == rest;
  }

  lemma {:induction false} TwoConnections(w: Worker, a: Input, b: Input)
    requires !EndOf(w.container, a).ByStop?
    ensures Connections(w, [[a], [b]]) == Handle(Handle(w, a), b)
  {
    OneInput(w, a, [[b]]);
    OneInput(Handle(w, a), b, []);
    assert [[a], [b]] == [[a]] + [[b]] && [[b]] == [[b]] + [];
  }

  predicate BootsUnheard(i: Input) {
    i.Read? && i.line == Start(true) && !i.write.Written?
  }

  lemma {:induction false} HealthUnannounced(out: seq<Output>)
    requires out == [Health(true)]
    ensures HearsAll(out).Violated?
  {
    assert out[..0] == [] && HearsAll(out[..0]) == Fresh;
  }

  lemma {:induction false} BootThenGreet(boot: Input, greeting: Input)
    requires BootsUnheard(boot) && greeting == Read(Reconnect, Written)
    ensures Handle(Handle(NEW, boot), greeting).out == [Health(true)]
    ensures !EndOf(NEW.container, boot).ByStop?
  {
  }

  /** A connection lost at the ready signal: the next one hears of a container that never reported ready. */
  lemma {:induction false} LostReadyIsHeard(boot: Input, greeting: Input)
    requires BootsUnheard(boot) && greeting == Read(Reconnect, Written)
    ensures HearsAll(SocketRun([[boot], [greeting]], Clean).out).Violated?
  {
    BootThenGreet(boot, greeting);
    TwoConnections(NEW, boot, greeting);
    HealthUnannounced(SocketRun([[boot], [greeting]], Clean).out);
  }

  /** How the message loop ends with a container that is up, read off the inputs alone. */
  datatype Left = NotLeft | LeftByException | LeftAtEnd

  function LeftUp(inputs: seq<Input>, up: bool): Left
    decreases |inputs|
  {
    if inputs == [] then if up then LeftAtEnd else NotLeft
    else if inputs[0].Unreadable? then if up then LeftByException else NotLeft
    else
      var write, rest := inputs[0].write, inputs[1..];
      match inputs[0].line
      case Start(boots) =>
        if up then LeftUp(rest, true)
        else if !boots then NotLeft
        else if write.WriteRaises? then LeftByException
        else LeftUp(rest, true)
      case Reconnect =>
        if !write.WriteRaises? then LeftUp(rest, up) else if up then LeftByException else NotLeft
      case GiveTask(_, raises) => if up && raises then LeftByException else LeftUp(rest, up)
      case Inbound(_, raises) => if up && raises then LeftByException else LeftUp(rest, up)
      case HealthCheck => if up && write.WriteRaises? then LeftByException else LeftUp(rest, up)
      case Stop(how) => if up && how.RaisesUp? then LeftByException else NotLeft
      case _ => LeftUp(rest, up)
  }

  function LeftOf(c: Container, end: End): Left {
    if !c.Up? then NotLeft else if end.ByException? then LeftByException else LeftAtEnd
  }

  lemma {:induction false} LeftFirst(c: Container, inputs: seq<Input>)
    requires inputs != [] && !c.Down?
    ensures LeftUp(inputs, c.Up?) ==
            if EndOf(c, inputs[0]).Open? then LeftUp(inputs[1..], ContainerAfter(c, inputs[0]).Up?)
            else LeftOf(ContainerAfter(c, inputs[0]), EndOf(c, inputs[0]))
    ensures EndOf(c, inputs[0]).Open? ==> !ContainerAfter(c, inputs[0]).Down?
  {
  }

  /** A container is left up by an exception, or at the end of the input, exactly when the inputs say so. */
  lemma {:induction false} UpAtEndIff(w: Worker, inputs: seq<Input>)
    requires !w.container.Down?
    ensures LeftOf(HandleAll(w, inputs).0.container, HandleAll(w, inputs).1) == LeftUp(inputs, w.container.Up?)
    decreases |inputs|
  {
    if inputs != [] {
      HandleFirst(w, inputs, 0);
      assert inputs[0..] == inputs;
      LeftFirst(w.container, inputs);
      if EndOf(w.container, inputs[0]).Open? {
        UpAtEndIff(Handle(w, inputs[0]), inputs[1..]);
      }
    }
  }

  /**
   * Over stdin the same protocol holds, but the clean-up is skipped when an exception leaves the loop.
   * So a container outlives the worker exactly when a read, a reply, a handler or a stop raised while it
   * was up, or the clean-up itself could not stop it.
   */
  lemma {:induction false} StdioSafety(inputs: seq<Input>, cleanup: Stopping)
    ensures Protocol(StdioRun(inputs, cleanup))
    ensures StdioRun(inputs, cleanup).container.Up? <==>
            LeftUp(inputs, false).LeftByException? || (LeftUp(inputs, false).LeftAtEnd? && cleanup.RaisesUp?)
  {
    NewServes();
    AllServes(NEW, inputs);
    UpAtEndIff(NEW, inputs);
  }

  /** Over stdin a write goes through or raises; none is dropped. */
  predicate NothingDropped(inputs: seq<Input>) {
    forall i :: 0 <= i < |inputs| && inputs[i].Read? ==> !inputs[i].write.Dropped?
  }

  /** The ready signal has not been lost. */
  predicate NotLost(handled: seq<Input>) {
    BootWrite(handled).None? || BootWrite(handled).value.Written?
  }

  lemma {:induction false} OneMoreProper(w: Worker, i: Input)
    requires Serves(w) && NotLost(w.handled) && (i.Read? ==> !i.write.Dropped?)
    ensures !HearsAll(Handle(w, i).out).Violated?
    ensures EndOf(w.container, i).Open? ==> NotLost(Handle(w, i).handled)
  {
    HandleServes(w, i);
    HandledSnoc(w.handled, i);
    if Boots(w.container, i) && !i.write.Written? {
      assert Handle(w, i).out == w.out;
    }
  }

  lemma {:induction false} AllProper(w: Worker, inputs: seq<Input>)
    requires Serves(w) && NotLost(w.handled) && NothingDropped(inputs)
    ensures !HearsAll(HandleAll(w, inputs).0.out).Violated?
    decreases |inputs|
  {
    if inputs == [] {
      ServesProtocol(w);
    } else {
      OneMoreProper(w, inputs[0]);
      HandleServes(w, inputs[0]);
      HandleFirst(w, inputs, 0);
      assert inputs[0..] == inputs;
      if EndOf(w.container, inputs[0]).Open? {
        AllProper(Handle(w, inputs[0]), inputs[1..]);
      }
    }
  }

  /** So over stdin the conversation is always a proper one: a lost ready signal ends it. */
  lemma {:induction false} StdioIsProper(inputs: seq<Input>, cleanup: Stopping)
    requires NothingDropped(inputs)
    ensures !HearsAll(StdioRun(inputs, cleanup).out).Violated?
  {
    NewServes();
    AllProper(NEW, inputs);
  }

  /** A failing handler, a reply to a closed pipe, or a line that is too long: each leaves the container running. */
  lemma {:induction false} ContainerOutlivesWorker(second: Input)
    requires second in {Read(Inbound([], true), Written), Read(HealthCheck, WriteRaises), Unreadable}
    ensures StdioRun([Read(Start(true), Written), second], Clean).container.Up?
  {
    var inputs := [Read(Start(true), Written), second];
    StdioSafety(inputs, Clean);
    assert inputs[1..] == [second];
    LeftFirst(NotBooted, inputs);
    LeftFirst(Up, inputs[1..]);
  }

  /** So does a ready signal that cannot be written. */
  lemma {:induction false} UnannouncedContainer()
    ensures StdioRun([Read(Start(true), WriteRaises)], Clean).container.Up?
  {
    StdioSafety([Read(Start(true), WriteRaises)], Clean);
    LeftFirst(NotBooted, [Read(Start(true), WriteRaises)]);
  }

  // Stopping the socket worker

  /** Whether a stop message ends the socket worker. */
  function Exits(w: Worker, conns: seq<seq<Input>>): bool
    decreases |conns|
  {
    conns != [] && (HandleAll(w, conns[0]).1.ByStop? || Exits(HandleAll(w, conns[0]).0, conns[1..]))
  }

  /**
   * What a connection leaves behind, read off its inputs: None when a stop message ends the worker, else the
   * container.
   */
  function Leaves(inputs: seq<Input>, c: Container): Option<Container>
    decreases |inputs|
  {
    if inputs == [] || inputs[0].Unreadable? then Some(c)
    else
      var raises, rest := inputs[0].write.WriteRaises?, inputs[1..];
      match inputs[0].line
      case Start(boots) =>
        if !c.NotBooted? then Leaves(rest, c)
        else if !boots then Some(NotBooted)
        else if raises then Some(Up)
        else Leaves(rest, Up)
      case Reconnect => if raises then Some(c) else Leaves(rest, c)
      case GiveTask(_, fails) => if fails && !c.NotBooted? then Some(c) else Leaves(rest, c)
      case Inbound(_, fails) => if fails && !c.NotBooted? then Some(c) else Leaves(rest, c)
      case HealthCheck => if raises && !c.NotBooted? then Some(c) else Leaves(rest, c)
      case Stop(how) =>
        if c.NotBooted? then None
        else if c.Down? || how.RaisesDown? then Some(Down)
        else if how.RaisesUp? then Some(Up)
        else if raises then Some(Down)
        else None
      case _ => Leaves(rest, c)
  }

  /** Whether a stop message ends the worker, read off the inputs of its connections. */
  function StopEnds(c: Container, conns: seq<seq<Input>>): bool
    decreases |conns|
  {
    conns != [] && (Leaves(conns[0], c).None? || StopEnds(Leaves(conns[0], c).value, conns[1..]))
  }

  lemma {:induction false} LeavesFirst(c: Container, inputs: seq<Input>)
    requires inputs != []
    ensures Leaves(inputs, c) ==
            match EndOf(c, inputs[0])
            case Open => Leaves(inputs[1..], ContainerAfter(c, inputs[0]))
            case ByStop => None
            case ByException => Some(ContainerAfter(c, inputs[0]))
  {
  }

  lemma {:induction false} LeavesIs(w: Worker, inputs: seq<Input>)
    ensures Leaves(inputs, w.container) ==
            if HandleAll(w, inputs).1.ByStop? then None else Some(HandleAll(w, inputs).0.container)
    decreases |inputs|
  {
    if inputs != [] {
      HandleFirst(w, inputs, 0);
      assert inputs[0..] == inputs;
      LeavesFirst(w.container, inputs);
      if EndOf(w.container, inputs[0]).Open? {
        LeavesIs(Handle(w, inputs[0]), inputs[1..]);
      }
    }
  }

  /** A stop message ends the socket worker exactly when the inputs say so. */
  lemma {:induction false} ExitsIff(w: Worker, conns: seq<seq<Input>>)
    ensures Exits(w, conns) <==> StopEnds(w.container, conns)
    decreases |conns|
  {
    if conns != [] {
      LeavesIs(w, conns[0]);
      if !HandleAll(w, conns[0]).1.ByStop? {
        ExitsIff(HandleAll(w, conns[0]).0, conns[1..]);
      }
    }
  }

  lemma {:induction false} DownStays(w: Worker, inputs: seq<Input>)
    requires w.container.Down?
    ensures HandleAll(w, inputs).0.container.Down? && !HandleAll(w, inputs).1.ByStop?
    decreases |inputs|
  {
    if inputs != [] && EndOf(w.container, inputs[0]).Open? {
      DownStays(Handle(w, inputs[0]), inputs[1..]);
    }
  }

  /** Once its container is down no message ends the socket worker any more: every further stop raises. */
  lemma {:induction false} DownNeverExits(w: Worker, conns: seq<seq<Input>>)
    requires w.container.Down?
    ensures !Exits(w, conns)
    decreases |conns|
  {
    if conns != [] {
      DownStays(w, conns[0]);
      DownNeverExits(HandleAll(w, conns[0]).0, conns[1..]);
    }
  }

  predicate Ends(w: Worker, conns: seq<seq<Input>>) {
    Exits(w, conns)
  }

  /** And only then: any other worker is ended by the next stop message that works. */
  lemma {:induction false} EndlessIffDown(w: Worker)
    ensures (forall conns :: !Ends(w, conns)) <==> w.container.Down?
  {
    if w.container.Down? {
      forall conns
        ensures !Ends(w, conns)
      {
        DownNeverExits(w, conns);
      }
    } else {
      var conns := StopWorks(w, Read(Stop(Clean), Written));
      assert Ends(w, conns);
    }
  }

  lemma {:induction false} StopWorks(w: Worker, stop: Input) returns (conns: seq<seq<Input>>)
    requires EndOf(w.container, stop).ByStop?
    ensures Exits(w, conns)
  {
    conns := [[stop]];
    HandleOne(w, stop);
  }

  /** A stop that takes the container down but raises before the exit is flagged: in the container, or at its signal. */
  predicate StopsHalfway(i: Input) {
    i.Read? && i.line.Stop? && (i.line.how.RaisesDown? || (i.line.how.Clean? && i.write.WriteRaises?))
  }

  /** Exactly such a stop brings a worker there. */
  lemma {:induction false} EndlessAfter(c: Container, i: Input)
    requires !c.Down?
    ensures ContainerAfter(c, i).Down? && !EndOf(c, i).ByStop? <==> c.Up? && StopsHalfway(i)
  {
  }

  /** After it no message ends the worker, whatever the connections to come. */
  lemma {:induction false} UnconfirmedStop(w: Worker, stop: Input, conns: seq<seq<Input>>)
    requires w.container.Up? && StopsHalfway(stop)
    ensures !Exits(w, [[stop]] + conns)
  {
    HandleOne(w, stop);
    assert ([[stop]] + conns)[0] == [stop] && ([[stop]] + conns)[1..] == conns;
    DownNeverExits(Handle(w, stop), conns);
  }

  // The broken conversation, over the inputs

  /** The inputs of a connection that are handled. */
  function Consumed(c: Container, inputs: seq<Input>): seq<Input>
    decreases |inputs|
  {
    if inputs == [] then []
    else [inputs[0]] + if EndOf(c, inputs[0]).Open? then Consumed(ContainerAfter(c, inputs[0]), inputs[1..]) else []
  }

  /** The inputs of all connections that are handled. */
  function AllConsumed(c: Container, conns: seq<seq<Input>>): seq<Input>
    decreases |conns|
  {
    if conns == [] then []
    else
      Consumed(c, conns[0])
      + match Leaves(conns[0], c) case None => [] case Some(c') => AllConsumed(c', conns[1..])
  }

  lemma {:induction false} HandledIs(w: Worker, inputs: seq<Input>)
    ensures HandleAll(w, inputs).0.handled == w.handled + Consumed(w.container, inputs)
    decreases |inputs|
  {
    if inputs != [] {
      HandleFirst(w, inputs, 0);
      assert inputs[0..] == inputs;
      if EndOf(w.container, inputs[0]).Open? {
        HandledIs(Handle(w, inputs[0]), inputs[1..]);
      }
    }
  }

  lemma {:induction false} AllHandledIs(w: Worker, conns: seq<seq<Input>>)
    ensures Connections(w, conns).handled == w.handled + AllConsumed(w.container, conns)
    decreases |conns|
  {
    if conns != [] {
      HandledIs(w, conns[0]);
      LeavesIs(w, conns[0]);
      if !HandleAll(w, conns[0]).1.ByStop? {
        AllHandledIs(HandleAll(w, conns[0]).0, conns[1..]);
      }
    }
  }

  /** The container after these inputs. */
  function ContainerOf(handled: seq<Input>): Container {
    if handled == [] then NotBooted else ContainerAfter(ContainerOf(handled[..|handled| - 1]), handled[|handled| - 1])
  }

  /** Whether a booted container says something in reply to this input. */
  predicate SpeaksTo(c: Container, i: Input) {
    && !c.NotBooted? && i.Read?
    && match i.line
       case Reconnect => i.write.Written?
       case HealthCheck => i.write.Written?
       case GiveTask(emits, _) => emits != []
       case Inbound(emits, _) => emits != []
       case Stop(how) => c.Up? && how.Clean? && i.write.Written?
       case _ => false
  }

  /** Whether it does so at any of these inputs. */
  function Spoken(handled: seq<Input>): bool {
    handled != [] &&
    (Spoken(handled[..|handled| - 1]) || SpeaksTo(ContainerOf(handled[..|handled| - 1]), handled[|handled| - 1]))
  }

  lemma {:induction false} SpeaksConcat(a: seq<Output>, b: seq<Output>)
    ensures Speaks(a + b) == (Speaks(a) || Speaks(b))
  {
    if b == [] {
      assert a + b == a;
    } else {
      SpeaksConcat(a, b[..|b| - 1]);
      assert (a + b)[..|a + b| - 1] == a + b[..|b| - 1];
    }
  }

  lemma {:induction false} ReplySpeaks(c: Container, i: Input)
    ensures Speaks(Reply(c, i)) == SpeaksTo(c, i)
  {
    var reply := Reply(c, i);
    assert |reply| == 1 ==> reply[..0] == [];
    if |reply| > 1 {
      assert reply[|reply| - 1].Emitted?;
    }
  }

  /** What the worker knows and has said is told by the inputs it handled. */
  ghost predicate ToldBy(w: Worker) {
    w.container == ContainerOf(w.handled) && Speaks(w.out) == Spoken(w.handled)
  }

  lemma {:induction false} HandleTold(w: Worker, i: Input)
    requires ToldBy(w)
    ensures ToldBy(Handle(w, i))
  {
    assert (w.handled + [i])[..|w.handled|] == w.handled;
    SpeaksConcat(w.out, Reply(w.container, i));
    ReplySpeaks(w.container, i);
  }

  lemma {:induction false} AllTold(w: Worker, inputs: seq<Input>)
    requires ToldBy(w)
    ensures ToldBy(HandleAll(w, inputs).0)
    decreases |inputs|
  {
    if inputs != [] {
      HandleTold(w, inputs[0]);
      if EndOf(w.container, inputs[0]).Open? {
        AllTold(Handle(w, inputs[0]), inputs[1..]);
      }
    }
  }

  lemma {:induction false} ConnectionsTold(w: Worker, conns: seq<seq<Input>>)
    requires ToldBy(w)
    ensures ToldBy(Connections(w, conns))
    decreases |conns|
  {
    if conns != [] {
      AllTold(w, conns[0]);
      if !HandleAll(w, conns[0]).1.ByStop? {
        ConnectionsTold(HandleAll(w, conns[0]).0, conns[1..]);
      }
    }
  }

  /** The ready signal of the first start that boots is lost, and the container speaks at a later input. */
  predicate LosesReady(handled: seq<Input>) {
    BootWrite(handled).Some? && !BootWrite(handled).value.Written? && Spoken(handled)
  }

  /** The conversation is broken exactly when the inputs say so. */
  lemma {:induction false} BrokenIff(conns: seq<seq<Input>>, cleanup: Stopping)
    ensures HearsAll(SocketRun(conns, cleanup).out).Violated? <==> LosesReady(AllConsumed(NotBooted, conns))
  {
    NewServes();
    ConnectionsServe(NEW, conns);
    assert ToldBy(NEW);
    ConnectionsTold(NEW, conns);
    AllHandledIs(NEW, conns);
    assert Connections(NEW, conns).handled == AllConsumed(NotBooted, conns);
  }

  // What is said, over the inputs

  /** The texts among the output, in order. */
  function Texts(out: seq<Output>): seq<string> {
    if out == [] then []
    else Texts(out[..|out| - 1]) + if out[|out| - 1].Emitted? then [out[|out| - 1].text] else []
  }

  predicate SignalsStop(out: seq<Output>) {
    out != [] && (SignalsStop(out[..|out| - 1]) || out[|out| - 1].StoppedSignal?)
  }

  /** What the tasks and messages since the boot wrote, in order. */
  function TextsDue(handled: seq<Input>): seq<string> {
    if handled == [] then []
    else
      var before, i := handled[..|handled| - 1], handled[|handled| - 1];
      TextsDue(before)
      + if BootWrite(before).Some? && i.Read? && (i.line.GiveTask? || i.line.Inbound?) then i.line.emits else []
  }

  /** Whether a stop message since the boot took the container down. */
  predicate TakenDown(handled: seq<Input>) {
    handled != [] &&
    var before, i := handled[..|handled| - 1], handled[|handled| - 1];
    TakenDown(before) || (BootWrite(before).Some? && i.Read? && i.line.Stop? && !i.line.how.RaisesUp?)
  }

  predicate StopSignalled(i: Input) {
    i.Read? && i.line.Stop? && i.line.how.Clean? && i.write.Written?
  }

  /** Whether the first one that did went through and could write its signal. */
  predicate StopDue(handled: seq<Input>) {
    handled != [] &&
    var before, i := handled[..|handled| - 1], handled[|handled| - 1];
    || StopDue(before)
    || (BootWrite(before).Some? && !TakenDown(before) && StopSignalled(i))
  }

  /** The worker has said exactly what was due, and its container stands as the inputs say. */
  ghost predicate SaidDue(w: Worker) {
    && Texts(w.out) == TextsDue(w.handled)
    && SignalsStop(w.out) == StopDue(w.handled)
    && StandsDue(w.container, w.handled)
  }

  ghost predicate StandsDue(c: Container, handled: seq<Input>) {
    && c == (if BootWrite(handled).None? then NotBooted else if TakenDown(handled) then Down else Up)
    && (TakenDown(handled) ==> BootWrite(handled).Some?)
  }

  lemma {:induction false} SaidSnoc(out: seq<Output>, o: Output)
    ensures Texts(out + [o]) == Texts(out) + if o.Emitted? then [o.text] else []
    ensures SignalsStop(out + [o]) == (SignalsStop(out) || o.StoppedSignal?)
  {
    assert (out + [o])[..|out|] == out;
  }

  lemma {:induction false} SaidTexts(out: seq<Output>, texts: seq<string>)
    ensures Texts(out + Emissions(texts)) == Texts(out) + texts
    ensures SignalsStop(out + Emissions(texts)) == SignalsStop(out)
  {
    if texts == [] {
      EmitNone(out, texts);
    } else {
      var front, last := texts[..|texts| - 1], texts[|texts| - 1];
      SaidTexts(out, front);
      SaidSnoc(out + Emissions(front), Emitted(last));
      EmitOne(out, texts);
      assert Texts(out) + front + [last] == Texts(out) + texts;
    }
  }

  /** The texts of the reply to an input. */
  function TextsOf(c: Container, i: Input): seq<string> {
    if !c.NotBooted? && i.Read? && (i.line.GiveTask? || i.line.Inbound?) then i.line.emits else []
  }

  lemma {:induction false} ReplySays(out: seq<Output>, c: Container, i: Input)
    ensures Texts(out + Reply(c, i)) == Texts(out) + TextsOf(c, i)
    ensures SignalsStop(out + Reply(c, i)) == (SignalsStop(out) || (c.Up? && StopSignalled(i)))
  {
    var reply := Reply(c, i);
    if reply == [] {
      assert out + reply == out;
      assert Texts(out) + [] == Texts(out);
    } else if i.line.GiveTask? || i.line.Inbound? {
      SaidTexts(out, i.line.emits);
      assert reply[0].Emitted?;
    } else {
      assert reply == [reply[0]];
      SaidSnoc(out, reply[0]);
    }
  }

  lemma {:induction false} DueSnoc(handled: seq<Input>, i: Input)
    ensures TextsDue(handled + [i]) ==
            TextsDue(handled)
            + if BootWrite(handled).Some? && i.Read? && (i.line.GiveTask? || i.line.Inbound?) then i.line.emits else []
    ensures TakenDown(handled + [i]) ==
            (TakenDown(handled)
             || (BootWrite(handled).Some? && i.Read? && i.line.Stop? && !i.line.how.RaisesUp?))
    ensures StopDue(handled + [i]) ==
            (StopDue(handled)
             || (BootWrite(handled).Some? && !TakenDown(handled) && StopSignalled(i)))
  {
    assert (handled + [i])[..|handled|] == handled;
  }

  lemma {:induction false} HandleStands(c: Container, handled: seq<Input>, i: Input)
    requires StandsDue(c, handled)
    ensures StandsDue(ContainerAfter(c, i), handled + [i])
  {
    HandledSnoc(handled, i);
    DueSnoc(handled, i);
  }

  lemma {:induction false} TextsSay(c: Container, handled: seq<Input>, i: Input)
    requires StandsDue(c, handled)
    ensures TextsDue(handled + [i]) == TextsDue(handled) + TextsOf(c, i)
    ensures StopDue(handled + [i]) == (StopDue(handled) || (c.Up? && StopSignalled(i)))
  {
    DueSnoc(handled, i);
  }

  lemma {:induction false} HandleSays(w: Worker, i: Input)
    requires SaidDue(w)
    ensures SaidDue(Handle(w, i))
  {
    HandleStands(w.container, w.handled, i);
    TextsSay(w.container, w.handled, i);
    ReplySays(w.out, w.container, i);
  }

  lemma {:induction false} AllSay(w: Worker, inputs: seq<Input>)
    requires SaidDue(w)
    ensures SaidDue(HandleAll(w, inputs).0)
    decreases |inputs|
  {
    if inputs != [] {
      HandleSays(w, inputs[0]);
      if EndOf(w.container, inputs[0]).Open? {
        AllSay(Handle(w, inputs[0]), inputs[1..]);
      }
    }
  }

  lemma {:induction false} ConnectionsSay(w: Worker, conns: seq<seq<Input>>)
    requires SaidDue(w)
    ensures SaidDue(Connections(w, conns))
    decreases |conns|
  {
    if conns != [] {
      AllSay(w, conns[0]);
      if !HandleAll(w, conns[0]).1.ByStop? {
        ConnectionsSay(HandleAll(w, conns[0]).0, conns[1..]);
      }
    }
  }

  /** The output is the texts and the stop signal due to these inputs. */
  ghost predicate SaysDue(out: seq<Output>, handled: seq<Input>) {
    Texts(out) == TextsDue(handled) && SignalsStop(out) == StopDue(handled)
  }

  lemma {:induction false} NewSays()
    ensures SaidDue(NEW)
  {
  }

  /**
   * Over any connections the worker says exactly the texts that the tasks and messages handled since the boot wrote,
   * in order, and signals its stop exactly when the stop message that took its container down went through.
   */
  lemma {:induction false} SocketSaysWhatIsDue(conns: seq<seq<Input>>, cleanup: Stopping)
    ensures SaysDue(SocketRun(conns, cleanup).out, AllConsumed(NotBooted, conns))
  {
    NewSays();
    ConnectionsSay(NEW, conns);
    AllHandledIs(NEW, conns);
    assert Connections(NEW, conns).handled == AllConsumed(NotBooted, conns);
  }

  lemma {:induction false} LoopSays(inputs: seq<Input>)
    ensures SaysDue(HandleAll(NEW, inputs).0.out, Consumed(NotBooted, inputs))
  {
    NewSays();
    AllSay(NEW, inputs);
    HandledIs(NEW, inputs);
    assert HandleAll(NEW, inputs).0.handled == Consumed(NotBooted, inputs);
  }

  lemma {:induction false} StdioOut(inputs: seq<Input>, cleanup: Stopping)
    ensures StdioRun(inputs, cleanup).out == HandleAll(NEW, inputs).0.out
  {
  }

  /** And so it does over stdin. */
  lemma {:induction false} StdioSaysWhatIsDue(inputs: seq<Input>, cleanup: Stopping)
    ensures SaysDue(StdioRun(inputs, cleanup).out, Consumed(NotBooted, inputs))
  {
    LoopSays(inputs);
    StdioOut(inputs, cleanup);
  }
}
