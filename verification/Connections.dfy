/** The states of a connection, as its own loop and the server see them. */
module ConnStates {
  datatype ConnState = Disconnected | Connecting | Connected | Disconnecting
}

/** One TCP connection as a step machine: what its callers ask, what its loop
    thread does with queued tasks and descriptor events, and what the kernel
    answers to each write. */
module Connections {
  import opened Bytes
  import opened Runs
  import opened ConnStates

  /** Work queued for the connection's own loop. */
  datatype Task = SendTask(data: seq<byte>) | ShutdownTask | ForceCloseTask

  /** The kernel's answer to a write: how many bytes it took, or not now, or an error. */
  datatype Reply = Wrote(n: nat) | WouldBlock | Failed

  /** `sent` are the bytes the kernel has taken, `messages` what `sendInLoop` has
      accepted. `shut` is whether the write side has been shut down, `shutClosed`
      whether the connection was closed already by then, and `late` whether a
      write was tried afterwards. `past` are the tasks of threads that have read (and
      perhaps set) the state and are about to queue them; `ups`, `downs` count the user's connection
      callbacks. `aborted` is the end of the program. */
  datatype Conn = Conn(
    state: ConnState,
    reading: bool,
    writing: bool,
    output: seq<byte>,
    sent: seq<byte>,
    messages: seq<seq<byte>>,
    shut: bool,
    shutClosed: bool,
    late: bool,
    queue: seq<Task>,
    past: multiset<Task>,
    ups: nat,
    downs: nat,
    aborted: bool)

  const JustAccepted := Conn(Connecting, false, false, [], [], [], false, false, false, [], multiset{}, 0, 0, false)

  /** Does the first write of `data` go straight to the kernel? */
  predicate WritesDirectly(c: Conn) {
    !c.writing && c.output == []
  }

  /** A reply is possible for a write of `len` bytes: a write side that has been
      shut down takes nothing more, but fails. */
  predicate Possible(shut: bool, reply: Reply, len: nat) {
    if shut then reply.Failed? else reply.Wrote? ==> reply.n <= len
  }

  function SendInLoop(c: Conn, data: seq<byte>, reply: Reply): (r: Conn)
    requires Possible(c.shut, reply, |data|)
  {
    if c.state == Disconnected then c
    else
      var m := c.(messages := c.messages + [data]);
      if !WritesDirectly(c) then Keep(m, data)
      else if reply.Failed? then Offered(m, data, reply)
      else Keep(Offered(m, data, reply), Untaken(data, reply))
  }

  /** After the kernel's answer to a write of `data`. */
  function Offered(c: Conn, data: seq<byte>, reply: Reply): (r: Conn)
    requires Possible(c.shut, reply, |data|)
  {
    match reply
    case Wrote(n) => c.(sent := c.sent + data[..n])
    case WouldBlock => c
    case Failed => c.(aborted := true, late := c.shut)
  }

  function Untaken(data: seq<byte>, reply: Reply): (r: seq<byte>)
    requires reply.Wrote? ==> reply.n <= |data|
  {
    if reply.Wrote? then data[reply.n..] else data
  }

  /** What the kernel did not take is kept for later. */
  function Keep(c: Conn, remaining: seq<byte>): (r: Conn) {
    if remaining == [] then c else c.(output := c.output + remaining, writing := true)
  }

  /** The kernel may refuse to shut the write side down, which is fatal. */
  function ShutdownInLoop(c: Conn, refused: bool): (r: Conn) {
    if c.writing then c
    else if refused then c.(aborted := true)
    else if c.shut then c
    else c.(shut := true, shutClosed := c.state == Disconnected)
  }

  /** The descriptor is ready for writing; anything but progress is fatal. */
  function HandleWrite(c: Conn, reply: Reply, refused: bool): (r: Conn)
    requires Possible(c.shut, reply, |c.output|)
  {
    if !c.writing then c
    else if reply.Wrote? && reply.n > 0 then
      var r := c.(sent := c.sent + c.output[..reply.n], output := c.output[reply.n..]);
      if r.output != [] then r
      else
        var d := r.(writing := false);
        if d.state == Disconnecting then ShutdownInLoop(d, refused) else d
    else c.(aborted := true)
  }

  function HandleClose(c: Conn): (r: Conn) {
    if c.state == Connected || c.state == Disconnecting then
      c.(state := Disconnected, reading := false, writing := false, downs := c.downs + 1)
    else c.(aborted := true)
  }

  function ForceCloseInLoop(c: Conn): (r: Conn) {
    if c.state == Connected || c.state == Disconnecting then HandleClose(c) else c
  }

  /** The last act: the source asserts that the channel is registered and wants nothing. */
  function DestroyInLoop(c: Conn, registered: bool): (r: Conn) {
    if c.state == Connected then
      c.(state := Disconnected, reading := false, writing := false, downs := c.downs + 1)
    else if !registered || c.reading || c.writing then c.(aborted := true)
    else c
  }

  /** `refused` is the kernel's answer to `shutdown`, if it is asked; a task's
      shutdown is refused by the reply `Failed`. A request from outside reads the
      state in one step and queues its task in a later one. */
  datatype Step =
    | Establish
    | Send(data: seq<byte>, reply: Reply)         // on the loop thread
    | SendFromOutside(data: seq<byte>)            // on another thread
    | Shutdown(refused: bool)                     // on the loop thread
    | ShutdownFromOutside
    | ForceClose                                  // on the loop thread
    | ForceCloseFromOutside
    | Push(task: Task)                            // on another thread
    | RunTask(reply: Reply)
    | Writable(reply: Reply, refused: bool)
    | PeerClosed
    | Destroy(registered: bool)

  function Next(c: Conn, step: Step): (r: Option<Conn>) {
    if c.aborted then None
    else
      match step
      case Establish =>
        if c.state == Connecting then Some(c.(state := Connected, reading := true, ups := c.ups + 1)) else None
      case Send(data, reply) =>
        if c.state != Connected then Some(c)
        else if Possible(c.shut, reply, |data|) then Some(SendInLoop(c, data, reply))
        else None
      case SendFromOutside(data) =>
        if c.state == Connected then Some(c.(past := c.past + multiset{SendTask(data)})) else Some(c)
      case Shutdown(refused) =>
        if c.state == Connected then Some(ShutdownInLoop(c.(state := Disconnecting), refused)) else Some(c)
      case ShutdownFromOutside =>
        if c.state == Connected then Some(c.(state := Disconnecting, past := c.past + multiset{ShutdownTask}))
        else Some(c)
      case ForceClose =>
        if c.state == Connected || c.state == Disconnecting then
          Some(c.(state := Disconnecting, queue := c.queue + [ForceCloseTask]))
        else Some(c)
      case ForceCloseFromOutside =>
        if c.state == Connected || c.state == Disconnecting then
          Some(c.(state := Disconnecting, past := c.past + multiset{ForceCloseTask}))
        else Some(c)
      case Push(t) =>
        if t in c.past then Some(c.(past := c.past - multiset{t}, queue := c.queue + [t])) else None
      case RunTask(reply) =>
        if c.queue == [] then None else PerformTask(c.(queue := c.queue[1..]), c.queue[0], reply)
      case Writable(reply, refused) =>
        if c.writing && Possible(c.shut, reply, |c.output|) then Some(HandleWrite(c, reply, refused)) else None
      case PeerClosed =>
        if c.reading then Some(HandleClose(c)) else None
      case Destroy(registered) => Some(DestroyInLoop(c, registered))
  }

  function PerformTask(c: Conn, task: Task, reply: Reply): (r: Option<Conn>) {
    match task
    case SendTask(data) =>
      // A message for a closed connection is dropped without a write.
      if c.state == Disconnected then Some(c)
      else if Possible(c.shut, reply, |data|) then Some(SendInLoop(c, data, reply))
      else None
    case ShutdownTask => Some(ShutdownInLoop(c, reply.Failed?))
    case ForceCloseTask => Some(ForceCloseInLoop(c))
  }

  function RunFrom(c: Conn, steps: seq<Step>): (r: Option<Conn>) {
    Run(Next, c, steps)
  }

  // ----- What every run keeps

  /** Bytes taken by the kernel, then the output buffer, are the messages accepted. */
  predicate Conserved(c: Conn) {
    c.sent + c.output == Flatten(c.messages)
  }

  /** The channel asks to write exactly while there is something to write. */
  predicate WritingIsPending(c: Conn) {
    (c.state != Disconnected ==> (c.writing <==> c.output != [])) && (c.state == Disconnected ==> !c.writing)
  }

  /** The write side is shut down with bytes unsent only if the connection was
      closed before. */
  predicate ShutAfterAll(c: Conn) {
    c.shut ==>
      && (c.state == Disconnecting || c.state == Disconnected)
      && (c.shutClosed ==> c.state == Disconnected)
      && (!c.shutClosed ==> c.output == [])
  }

  /** The task is queued or about to be. */
  predicate OnItsWay(c: Conn, t: Task) {
    t in c.queue || t in c.past
  }

  /** A connection on its way down will shut its write side or be closed. */
  predicate ShutdownNotForgotten(c: Conn) {
    && (c.state == Disconnecting ==> c.shut || c.writing || OnItsWay(c, ShutdownTask) || OnItsWay(c, ForceCloseTask))
    && (c.state == Connected || c.state == Connecting ==>
          !OnItsWay(c, ShutdownTask) && !OnItsWay(c, ForceCloseTask))
  }

  predicate CallbacksCounted(c: Conn) {
    && c.ups == (if c.state == Connecting then 0 else 1)
    && c.downs == (if c.state == Disconnected then 1 else 0)
    && (c.state == Connecting ==> !c.reading && c.queue == [] && c.past == multiset{})
    && (c.reading ==> c.state == Connected || c.state == Disconnecting)
  }

  /** The program goes on. */
  predicate Sound(c: Conn) {
    !c.late && Conserved(c) && WritingIsPending(c) && ShutAfterAll(c) && ShutdownNotForgotten(c) && CallbacksCounted(c)
  }

  predicate Inv(c: Conn) {
    !c.aborted ==> Sound(c)
  }

  lemma SplitWrite(sent: seq<byte>, data: seq<byte>, n: nat)
    requires n <= |data|
    ensures sent + data[..n] + [] + data[n..] == sent + [] + data
  {
  }

  /** A message to a connection that is not closed follows, whole, what was there before. */
  lemma SendAddsUp(c: Conn, data: seq<byte>, reply: Reply)
    requires Possible(c.shut, reply, |data|) && c.state != Disconnected
    ensures var r := SendInLoop(c, data, reply);
            r.messages == c.messages + [data] && (!r.aborted ==> r.sent + r.output == c.sent + c.output + data)
  {
    if WritesDirectly(c) && reply.Wrote? {
      SplitWrite(c.sent, data, reply.n);
    } else {
      ConcatAssociative(c.sent, c.output, data);
      assert c.sent + c.output + [] == c.sent + c.output;
    }
  }

  lemma SendConserves(c: Conn, data: seq<byte>, reply: Reply)
    requires Conserved(c) && Possible(c.shut, reply, |data|) && c.state != Disconnected
    ensures var r := SendInLoop(c, data, reply); !r.aborted ==> Conserved(r)
  {
    SendAddsUp(c, data, reply);
    FlattenSnoc(c.messages, data);
  }

  lemma SendKeeps(c: Conn, data: seq<byte>, reply: Reply)
    requires Sound(c) && !c.aborted && Possible(c.shut, reply, |data|)
    requires c.state == Connected || c.state == Disconnecting
    ensures Inv(SendInLoop(c, data, reply))
  {
    SendConserves(c, data, reply);
  }

  lemma ShutdownKeeps(c: Conn, refused: bool)
    requires !c.aborted && !c.late && Conserved(c) && WritingIsPending(c) && ShutAfterAll(c) && CallbacksCounted(c)
    requires c.state == Disconnecting || c.state == Disconnected
    ensures Inv(ShutdownInLoop(c, refused))
  {
  }

  lemma WriteKeeps(c: Conn, reply: Reply, refused: bool)
    requires Sound(c) && !c.aborted && c.writing && Possible(c.shut, reply, |c.output|)
    ensures Inv(HandleWrite(c, reply, refused))
  {
    if reply.Wrote? && reply.n > 0 {
      var r := c.(sent := c.sent + c.output[..reply.n], output := c.output[reply.n..]);
      assert r.sent + r.output == c.sent + c.output;
      if r.output == [] && c.state == Disconnecting {
        ShutdownKeeps(r.(writing := false), refused);
      }
    }
  }

  lemma TaskKeeps(c: Conn, reply: Reply)
    requires Sound(c) && !c.aborted && Next(c, RunTask(reply)).Some?
    ensures Inv(Next(c, RunTask(reply)).value)
  {
    var r, t := c.(queue := c.queue[1..]), c.queue[0];
    assert c.queue == [t] + r.queue;
    assert OnItsWay(c, t);
    match t
    case SendTask(data) =>
      if c.state != Disconnected { SendKeeps(r, data, reply); }
    case ShutdownTask => ShutdownKeeps(r, reply.Failed?);
    case ForceCloseTask =>
  }

  lemma PushKeeps(c: Conn, t: Task)
    requires Sound(c) && !c.aborted && t in c.past
    ensures Inv(Next(c, Push(t)).value)
  {
    var r := Next(c, Push(t)).value;
    forall u ensures OnItsWay(r, u) <==> OnItsWay(c, u) {
      assert u in r.past ==> u in c.past;
      assert u in c.past && u != t ==> u in r.past;
    }
  }

  lemma StepKeeps(c: Conn, step: Step)
    requires Inv(c) && Next(c, step).Some?
    ensures Inv(Next(c, step).value)
  {
    match step
    case Send(data, reply) => if c.state == Connected { SendKeeps(c, data, reply); }
    case Shutdown(refused) => if c.state == Connected { ShutdownKeeps(c.(state := Disconnecting), refused); }
    case Push(t) => PushKeeps(c, t);
    case RunTask(reply) => TaskKeeps(c, reply);
    case Writable(reply, refused) => WriteKeeps(c, reply, refused);
    case _ =>
  }

  lemma RunInv(steps: seq<Step>)
    requires RunFrom(JustAccepted, steps).Some?
    ensures Inv(RunFrom(JustAccepted, steps).value)
  {
    forall c, l | Inv(c) && Next(c, l).Some? ensures Inv(Next(c, l).value) {
      StepKeeps(c, l);
    }
    RunKeeps(Next, c => Inv(c), JustAccepted, steps);
  }

  /** The write side of a connection is shut down only when every message accepted
      is with the kernel, unless the connection was closed before; and a connection
      going down is not left waiting: its write side is shut, or output is
      draining, or the task that will close it is on its way. The user hears of it
      coming up once and going down at most once. */
  lemma HalfCloseIsGraceful(steps: seq<Step>)
    requires RunFrom(JustAccepted, steps).Some?
    ensures var c := RunFrom(JustAccepted, steps).value;
            !c.aborted ==>
              && (c.shut && c.sent != Flatten(c.messages) ==> c.shutClosed && c.state == Disconnected)
              && ShutdownNotForgotten(c)
              && c.ups == (if c.state == Connecting then 0 else 1)
              && c.downs == (if c.state == Disconnected then 1 else 0)
  {
    RunInv(steps);
    var c := RunFrom(JustAccepted, steps).value;
    assert c.output == [] ==> c.sent + c.output == c.sent;
  }

  /** A shutdown leaves output unsent exactly when it is performed on a connection
      that was closed with output pending. */
  lemma ShutdownLeavesUnsent(c: Conn)
    requires Inv(c) && !c.aborted
    requires c.state == Disconnecting || c.state == Disconnected
    ensures var r := ShutdownInLoop(c, false);
            r.shut && r.sent != Flatten(r.messages) <==> c.state == Disconnected && c.output != []
  {
    assert |c.sent| + |c.output| == |Flatten(c.messages)|;
    assert c.output == [] ==> c.sent + c.output == c.sent;
  }

  lemma WrittenThenLeaving(b: byte)
    ensures RunFrom(JustAccepted, [Establish, Send([b], WouldBlock), ShutdownFromOutside]) ==
            Some(JustAccepted.(state := Disconnecting, reading := true, writing := true, output := [b],
                               messages := [[b]], past := multiset{ShutdownTask}, ups := 1))
  {
    var steps := [Establish, Send([b], WouldBlock), ShutdownFromOutside];
    var c1 := Next(JustAccepted, Establish).value;
    var c2 := Next(c1, Send([b], WouldBlock)).value;
    assert c2.output == [] + [b] == [b] && c2.messages == [] + [[b]] == [[b]];
    assert c2.past + multiset{ShutdownTask} == multiset{ShutdownTask};
    RunLast(c2, steps);
    RunTail(c1, steps, 1);
    RunTail(JustAccepted, steps, 0);
    assert steps[0..] == steps;
  }

  lemma ClosedThenTold(c: Conn)
    requires !c.aborted && c.state == Disconnecting && c.reading && !c.shut && c.queue == []
    requires c.past == multiset{ShutdownTask}
    ensures var r := RunFrom(c, [PeerClosed, Push(ShutdownTask), RunTask(WouldBlock)]);
            r.Some? && !r.value.aborted && r.value.shut && r.value.output == c.output && r.value.sent == c.sent
  {
    var steps := [PeerClosed, Push(ShutdownTask), RunTask(WouldBlock)];
    var c1 := Next(c, PeerClosed).value;
    var c2 := Next(c1, Push(ShutdownTask)).value;
    assert c2.queue == [ShutdownTask];
    RunLast(c2, steps);
    RunTail(c1, steps, 1);
    RunTail(c, steps, 0);
    assert steps[0..] == steps;
  }

  /** It happens: the peer closes while a shutdown from another thread is on its way. */
  lemma ClosedThenShut(b: byte)
    ensures var c := RunFrom(JustAccepted, [Establish, Send([b], WouldBlock), ShutdownFromOutside]
                                           + [PeerClosed, Push(ShutdownTask), RunTask(WouldBlock)]);
            c.Some? && !c.value.aborted && c.value.shut && c.value.output == [b] && c.value.sent == []
  {
    var first := [Establish, Send([b], WouldBlock), ShutdownFromOutside];
    WrittenThenLeaving(b);
    ClosedThenTold(RunFrom(JustAccepted, first).value);
    RunAppend(Next, JustAccepted, first, [PeerClosed, Push(ShutdownTask), RunTask(WouldBlock)]);
  }

  lemma RunTail(c: Conn, steps: seq<Step>, i: nat)
    requires i + 1 < |steps| && Next(c, steps[i]).Some?
    ensures RunFrom(c, steps[i..]) == RunFrom(Next(c, steps[i]).value, steps[i + 1..])
  {
    assert steps[i..][1..] == steps[i + 1..];
  }

  lemma RunLast(c: Conn, steps: seq<Step>)
    requires steps != []
    ensures RunFrom(c, steps[|steps| - 1..]) == Next(c, steps[|steps| - 1])
  {
    assert steps[|steps| - 1..] == [steps[|steps| - 1]];
    RunSingle(Next, c, steps[|steps| - 1]);
  }

  // ----- After the shutdown

  lemma ShutStep(c: Conn, step: Step)
    requires Sound(c) && c.shut && !c.aborted && Next(c, step).Some?
    ensures var r := Next(c, step).value;
            r.shut && r.sent == c.sent && r.output == c.output && (!r.aborted ==> r.messages == c.messages)
  {
    if step.RunTask? {
      ShutTask(c.(queue := c.queue[1..]), c.queue[0], step.reply);
    }
  }

  lemma ShutTask(c: Conn, task: Task, reply: Reply)
    requires WritingIsPending(c) && ShutAfterAll(c) && c.shut && !c.aborted && PerformTask(c, task, reply).Some?
    ensures var r := PerformTask(c, task, reply).value;
            r.shut && r.sent == c.sent && r.output == c.output && (!r.aborted ==> r.messages == c.messages)
  {
  }

  /** Once the write side is shut the kernel is given nothing more, whatever happens
      and whoever sends; and no message is accepted, unless it ends the program. */
  lemma {:induction false} NothingAfterShut(c: Conn, steps: seq<Step>)
    requires Inv(c) && c.shut && RunFrom(c, steps).Some?
    ensures var r := RunFrom(c, steps).value;
            r.shut && r.sent == c.sent && r.output == c.output && (!r.aborted ==> r.messages == c.messages)
    decreases |steps|
  {
    if steps != [] {
      StepKeeps(c, steps[0]);
      ShutStep(c, steps[0]);
      NothingAfterShut(Next(c, steps[0]).value, steps[1..]);
    }
  }

  /** A queued message that no queued close precedes. */
  predicate SendAhead(queue: seq<Task>) {
    queue != [] && (queue[0].SendTask? || (queue[0].ShutdownTask? && SendAhead(queue[1..])))
  }

  /** Some thread has found the connection up and is about to queue its message. */
  ghost predicate SenderPast(c: Conn) {
    exists data :: SendTask(data) in c.past
  }

  /** An open connection with a message that can still come to be written: one queued
      ahead of any close, or one about to be queued with no close queued yet. */
  ghost predicate MessageStranded(c: Conn) {
    c.state == Disconnecting && (SendAhead(c.queue) || (SenderPast(c) && ForceCloseTask !in c.queue))
  }

  ghost predicate DiesWriting(c: Conn, steps: seq<Step>) {
    RunFrom(c, steps).Some? && RunFrom(c, steps).value.late && RunFrom(c, steps).value.aborted
  }

  lemma {:induction false} SendAheadPush(queue: seq<Task>, t: Task)
    ensures SendAhead(queue + [t]) <==> SendAhead(queue) || (t.SendTask? && ForceCloseTask !in queue)
  {
    if queue == [] {
      assert (queue + [t])[1..] == [];
    } else {
      assert (queue + [t])[1..] == queue[1..] + [t];
      SendAheadPush(queue[1..], t);
      assert queue == [queue[0]] + queue[1..];
    }
  }

  lemma NotStrandedPush(c: Conn, t: Task)
    requires !MessageStranded(c) && t in c.past
    ensures !MessageStranded(Next(c.(aborted := false), Push(t)).value)
  {
    var r := Next(c.(aborted := false), Push(t)).value;
    SendAheadPush(c.queue, t);
    if SenderPast(r) {
      var data :| SendTask(data) in r.past;
      assert SendTask(data) in c.past;
    }
    if t.SendTask? {
      assert SendTask(t.data) in c.past;
    }
  }

  lemma NotStrandedTask(c: Conn, reply: Reply)
    requires Sound(c) && c.shut && !c.aborted && !MessageStranded(c) && Next(c, RunTask(reply)).Some?
    ensures var r := Next(c, RunTask(reply)).value; !r.late && !MessageStranded(r)
  {
    assert c.queue == [c.queue[0]] + c.queue[1..];
    if c.queue[0].ShutdownTask? {
      assert ForceCloseTask in c.queue <==> ForceCloseTask in c.queue[1..];
    }
  }

  lemma NotStrandedStep(c: Conn, step: Step)
    requires Sound(c) && c.shut && !c.aborted && !MessageStranded(c) && Next(c, step).Some?
    ensures var r := Next(c, step).value; !r.late && !MessageStranded(r)
  {
    var r := Next(c, step).value;
    match step
    case Push(t) => NotStrandedPush(c, t);
    case RunTask(reply) => NotStrandedTask(c, reply);
    case ForceClose =>
      SendAheadPush(c.queue, ForceCloseTask);
    case ForceCloseFromOutside =>
      if SenderPast(r) {
        var data :| SendTask(data) in r.past;
        assert SendTask(data) in c.past;
      }
    case _ =>
  }

  lemma {:induction false} NeverStranded(c: Conn, steps: seq<Step>)
    requires Inv(c) && c.shut && !MessageStranded(c) && !c.late && RunFrom(c, steps).Some?
    ensures !RunFrom(c, steps).value.late
    decreases |steps|
  {
    if steps != [] {
      StepKeeps(c, steps[0]);
      ShutStep(c, steps[0]);
      NotStrandedStep(c, steps[0]);
      NeverStranded(Next(c, steps[0]).value, steps[1..]);
    }
  }

  /** The run that gets there: the tasks before the message, then the message. */
  lemma {:induction false} QueuedDies(c: Conn) returns (steps: seq<Step>)
    requires Sound(c) && c.shut && !c.aborted && c.state == Disconnecting && SendAhead(c.queue)
    ensures DiesWriting(c, steps)
    decreases |c.queue|
  {
    if c.queue[0].SendTask? {
      steps := [RunTask(Failed)];
      RunFromCons(c, RunTask(Failed), []);
      assert [RunTask(Failed)] + [] == [RunTask(Failed)];
    } else {
      var d := Next(c, RunTask(WouldBlock)).value;
      StepKeeps(c, RunTask(WouldBlock));
      var rest := QueuedDies(d);
      steps := [RunTask(WouldBlock)] + rest;
      RunFromCons(c, RunTask(WouldBlock), rest);
    }
  }

  /** A sender past its test queues its message first. */
  lemma StrandedDies(c: Conn) returns (steps: seq<Step>)
    requires Sound(c) && c.shut && !c.aborted && MessageStranded(c)
    ensures DiesWriting(c, steps)
  {
    if SendAhead(c.queue) {
      steps := QueuedDies(c);
    } else {
      var data :| SendTask(data) in c.past;
      var t := SendTask(data);
      SendAheadPush(c.queue, t);
      StepKeeps(c, Push(t));
      var rest := QueuedDies(Next(c, Push(t)).value);
      steps := [Push(t)] + rest;
      RunFromCons(c, Push(t), rest);
    }
  }

  /** A message can still reach the socket after its write side is shut, which
      ends the program, exactly when at the shutdown the connection is open and a
      message is queued with no close before it, or a thread is about to queue one
      and no close is queued. */
  lemma LateWriteExact(c: Conn)
    requires Inv(c) && c.shut && !c.aborted
    ensures (exists steps :: DiesWriting(c, steps)) <==> MessageStranded(c)
  {
    if MessageStranded(c) {
      var steps := StrandedDies(c);
    } else {
      forall steps | RunFrom(c, steps).Some? ensures !DiesWriting(c, steps) {
        NeverStranded(c, steps);
      }
    }
  }

  /** So `shutdown` called on the loop thread with nothing left to write is safe exactly
      when no other thread's message is queued or about to be: it is not enough to
      look at the queue. */
  lemma ShutdownIsSafe(c: Conn)
    requires Inv(c) && !c.aborted && c.state == Connected && !c.writing
    ensures var r := Next(c, Shutdown(false)).value;
            r.shut && !r.aborted
            && ((exists steps :: DiesWriting(r, steps)) <==> c.queue != [] || c.past != multiset{})
  {
    var r := Next(c, Shutdown(false)).value;
    StepKeeps(c, Shutdown(false));
    LateWriteExact(r);
    if c.queue != [] {
      assert OnItsWay(c, c.queue[0]);
    }
    if c.past != multiset{} {
      var t :| t in c.past;
      assert OnItsWay(c, t) && t.SendTask?;
      assert SendTask(t.data) in r.past;
    }
  }

  lemma TestedThenShut(b: byte)
    ensures RunFrom(JustAccepted, [Establish, SendFromOutside([b]), Shutdown(false)]) ==
            Some(JustAccepted.(state := Disconnecting, reading := true, shut := true,
                               past := multiset{SendTask([b])}, ups := 1))
  {
    var steps := [Establish, SendFromOutside([b]), Shutdown(false)];
    var c1 := Next(JustAccepted, Establish).value;
    var c2 := Next(c1, SendFromOutside([b])).value;
    assert c2.past == multiset{SendTask([b])};
    RunLast(c2, steps);
    RunTail(c1, steps, 1);
    RunTail(JustAccepted, steps, 0);
    assert steps[0..] == steps;
  }

  lemma PushedThenWritten(c: Conn, t: Task)
    requires !c.aborted && c.state == Disconnecting && c.shut && !c.writing && c.output == [] && c.queue == []
    requires t in c.past && t.SendTask?
    ensures var r := RunFrom(c, [Push(t), RunTask(Failed)]);
            r.Some? && r.value.aborted && r.value.late && r.value.shut && r.value.sent == c.sent
  {
    var steps := [Push(t), RunTask(Failed)];
    var c1 := Next(c, Push(t)).value;
    assert c1.queue == [t];
    RunLast(c1, steps);
    RunTail(c, steps, 0);
    assert steps[0..] == steps;
  }

  /** A message that another thread has only decided to queue when the write side is
      shut, the queue being empty, ends the program. */
  lemma ForeignSendIsFatal(b: byte)
    ensures var c := RunFrom(JustAccepted, [Establish, SendFromOutside([b]), Shutdown(false)]
                                           + [Push(SendTask([b])), RunTask(Failed)]);
            c.Some? && c.value.aborted && c.value.late && c.value.shut && c.value.sent == []
  {
    var first := [Establish, SendFromOutside([b]), Shutdown(false)];
    TestedThenShut(b);
    PushedThenWritten(RunFrom(JustAccepted, first).value, SendTask([b]));
    RunAppend(Next, JustAccepted, first, [Push(SendTask([b])), RunTask(Failed)]);
  }

  lemma RunFromCons(c: Conn, l: Step, rest: seq<Step>)
    requires Next(c, l).Some?
    ensures RunFrom(c, [l] + rest) == RunFrom(Next(c, l).value, rest)
    ensures RunFrom(c, []) == Some(c)
  {
    assert ([l] + rest)[1..] == rest;
  }
}
