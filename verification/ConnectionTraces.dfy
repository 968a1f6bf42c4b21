/** A connection against the steps of its run: which messages are accepted, which
    tasks are queued and performed, and how much the kernel takes. */
module ConnectionTraces {
  import opened Bytes
  import opened Runs
  import opened ConnStates
  import opened Connections

  function Before(steps: seq<Step>): (r: Option<Conn>)
    requires steps != []
  {
    RunFrom(JustAccepted, Front(steps))
  }

  /** The message the next step has the connection accept, if any: one sent on the loop
      thread while connected, or one whose task is performed before the connection is down. */
  function Accepts(c: Conn, l: Step): (r: seq<seq<byte>>) {
    match l
    case Send(data, _) => if c.state == Connected then [data] else []
    case RunTask(_) =>
      if c.queue != [] && c.queue[0].SendTask? && c.state != Disconnected then [c.queue[0].data] else []
    case _ => []
  }

  /** The messages accepted in a run, in order. */
  function AcceptedIn(steps: seq<Step>): (r: seq<seq<byte>>) {
    if steps == [] || Before(steps).None? then []
    else AcceptedIn(Front(steps)) + Accepts(Before(steps).value, Last(steps))
  }

  function BytesTaken(reply: Reply): (r: nat) {
    if reply.Wrote? then reply.n else 0
  }

  /** How many bytes the kernel takes in the next step: it is asked when a message is
      accepted with nothing before it, and when the descriptor is writable. */
  function Takes(c: Conn, l: Step): (r: nat) {
    match l
    case Send(_, reply) => if Accepts(c, l) != [] && c.output == [] && !c.writing then BytesTaken(reply) else 0
    case RunTask(reply) => if Accepts(c, l) != [] && c.output == [] && !c.writing then BytesTaken(reply) else 0
    case Writable(reply, _) => BytesTaken(reply)
    case _ => 0
  }

  function TakenIn(steps: seq<Step>): (r: nat) {
    if steps == [] || Before(steps).None? then 0
    else TakenIn(Front(steps)) + Takes(Before(steps).value, Last(steps))
  }

  predicate Open(c: Conn) {
    c.state == Connected || c.state == Disconnecting
  }

  /** The tasks queued in a run, in order, and how many have been performed. */
  function QueuedIn(steps: seq<Step>): (r: seq<Task>) {
    if steps == [] || Before(steps).None? then []
    else
      QueuedIn(Front(steps)) +
      match Last(steps)
      case Push(t) => [t]
      case ForceClose => if Open(Before(steps).value) then [ForceCloseTask] else []
      case _ => []
  }

  function PerformedIn(steps: seq<Step>): (r: nat) {
    if steps == [] then 0 else PerformedIn(Front(steps)) + (if Last(steps).RunTask? then 1 else 0)
  }

  /** The tasks that other threads have decided on in a run, and those they have queued. */
  function DecidedIn(steps: seq<Step>): (r: multiset<Task>) {
    if steps == [] || Before(steps).None? then multiset{}
    else
      DecidedIn(Front(steps)) +
      match Last(steps)
      case SendFromOutside(data) =>
        if Before(steps).value.state == Connected then multiset{SendTask(data)} else multiset{}
      case ShutdownFromOutside => if Before(steps).value.state == Connected then multiset{ShutdownTask} else multiset{}
      case ForceCloseFromOutside => if Open(Before(steps).value) then multiset{ForceCloseTask} else multiset{}
      case _ => multiset{}
  }

  function PushedIn(steps: seq<Step>): (r: multiset<Task>) {
    if steps == [] then multiset{}
    else PushedIn(Front(steps)) + (if Last(steps).Push? then multiset{Last(steps).task} else multiset{})
  }

  predicate MessagesTraced(c: Conn, steps: seq<Step>) {
    c.messages == AcceptedIn(steps) && (!c.aborted ==> |c.sent| == TakenIn(steps))
  }

  predicate QueueTraced(c: Conn, steps: seq<Step>) {
    PerformedIn(steps) <= |QueuedIn(steps)| && c.queue == QueuedIn(steps)[PerformedIn(steps)..]
  }

  predicate PastTraced(c: Conn, steps: seq<Step>) {
    c.past + PushedIn(steps) == DecidedIn(steps)
  }

  lemma StepAccepts(c: Conn, l: Step)
    requires Inv(c) && Next(c, l).Some?
    ensures Next(c, l).value.messages == c.messages + Accepts(c, l)
    ensures !Next(c, l).value.aborted ==> |Next(c, l).value.sent| == |c.sent| + Takes(c, l)
  {
    match l
    case Send(data, reply) => if c.state == Connected { SendAccepts(c, data, reply); }
    case RunTask(reply) => TaskAccepts(c.(queue := c.queue[1..]), c.queue[0], reply);
    case Writable(reply, refused) => WriteTakes(c, reply, refused);
    case _ =>
    assert c.messages + [] == c.messages;
  }

  lemma WriteTakes(c: Conn, reply: Reply, refused: bool)
    requires Possible(c.shut, reply, |c.output|)
    ensures var r := HandleWrite(c, reply, refused);
            r.messages == c.messages && (!r.aborted && c.writing ==> |r.sent| == |c.sent| + BytesTaken(reply))
  {
  }

  lemma SendAccepts(c: Conn, data: seq<byte>, reply: Reply)
    requires c.state != Disconnected && Possible(c.shut, reply, |data|)
    ensures var r := SendInLoop(c, data, reply);
            && r.messages == c.messages + [data]
            && (!r.aborted ==> |r.sent| == |c.sent| + (if WritesDirectly(c) then BytesTaken(reply) else 0))
  {
  }

  lemma TaskAccepts(c: Conn, t: Task, reply: Reply)
    requires PerformTask(c, t, reply).Some?
    ensures var r := PerformTask(c, t, reply).value;
            var accepted := t.SendTask? && c.state != Disconnected;
            && r.messages == c.messages + (if accepted then [t.data] else [])
            && (!r.aborted ==>
                  |r.sent| == |c.sent| + (if accepted && WritesDirectly(c) then BytesTaken(reply) else 0))
  {
    assert c.messages + [] == c.messages;
    if t.SendTask? && c.state != Disconnected { SendAccepts(c, t.data, reply); }
  }

  lemma StepMessages(c: Conn, steps: seq<Step>, l: Step)
    requires Inv(c) && RunFrom(JustAccepted, steps) == Some(c) && !c.aborted && MessagesTraced(c, steps) && Next(c, l).Some?
    ensures MessagesTraced(Next(c, l).value, steps + [l])
  {
    Snoc(steps, l);
    StepAccepts(c, l);
  }

  lemma StepQueue(c: Conn, steps: seq<Step>, l: Step)
    requires RunFrom(JustAccepted, steps) == Some(c) && QueueTraced(c, steps) && Next(c, l).Some?
    ensures QueueTraced(Next(c, l).value, steps + [l])
  {
    Snoc(steps, l);
    var q, n := QueuedIn(steps), PerformedIn(steps);
    assert q + [] == q;
    StepQueueIs(c, l);
    match l
    case Push(t) => Joins(q, n, t);
    case ForceClose => Joins(q, n, ForceCloseTask);
    case RunTask(_) => Leaves(q, n);
    case _ =>
  }

  /** What a step does to the queue. */
  lemma StepQueueIs(c: Conn, l: Step)
    requires Next(c, l).Some?
    ensures l.RunTask? ==> c.queue != []
    ensures Next(c, l).value.queue ==
            match l
            case Push(t) => c.queue + [t]
            case ForceClose => if Open(c) then c.queue + [ForceCloseTask] else c.queue
            case RunTask(_) => if c.queue != [] then c.queue[1..] else c.queue
            case _ => c.queue
  {
  }

  lemma StepPast(c: Conn, steps: seq<Step>, l: Step)
    requires RunFrom(JustAccepted, steps) == Some(c) && PastTraced(c, steps) && Next(c, l).Some?
    ensures PastTraced(Next(c, l).value, steps + [l])
  {
    Snoc(steps, l);
    var r := Next(c, l).value;
    StepPastIs(c, l);
    match l
    case Push(t) => Settle(c.past, t, PushedIn(steps));
    case _ =>
  }

  lemma Settle(past: multiset<Task>, t: Task, pushed: multiset<Task>)
    requires t in past
    ensures (past - multiset{t}) + (pushed + multiset{t}) == past + pushed
  {
  }

  lemma StepPastIs(c: Conn, l: Step)
    requires Next(c, l).Some?
    ensures l.Push? ==> l.task in c.past
    ensures Next(c, l).value.past ==
            match l
            case Push(t) => c.past - multiset{t}
            case SendFromOutside(data) => if c.state == Connected then c.past + multiset{SendTask(data)} else c.past
            case ShutdownFromOutside => if c.state == Connected then c.past + multiset{ShutdownTask} else c.past
            case ForceCloseFromOutside => if Open(c) then c.past + multiset{ForceCloseTask} else c.past
            case _ => c.past
  {
  }

  ghost predicate Traced(c: Conn, steps: seq<Step>) {
    Inv(c) && MessagesTraced(c, steps) && QueueTraced(c, steps) && PastTraced(c, steps)
  }

  lemma RunTraced(steps: seq<Step>)
    requires RunFrom(JustAccepted, steps).Some?
    ensures Traced(RunFrom(JustAccepted, steps).value, steps)
  {
    forall c, ls, l | Traced(c, ls) && Run(Next, JustAccepted, ls) == Some(c) && Next(c, l).Some?
      ensures Traced(Next(c, l).value, ls + [l])
    {
      StepKeeps(c, l);
      StepMessages(c, ls, l);
      StepQueue(c, ls, l);
      StepPast(c, ls, l);
    }
    RunKeepsTrace(Next, (c, ls) => Traced(c, ls), JustAccepted, steps);
  }

  /** The messages accepted are exactly those sent on the loop thread while connected and
      those whose task was performed before the connection was down. However the kernel
      splits, delays or refuses writes: the bytes it was given, as many as it answered to
      have taken, and the output buffer are these messages in order; and while the
      connection is open its channel waits for writability exactly while the buffer
      holds something. */
  lemma OutputIsExact(steps: seq<Step>)
    requires RunFrom(JustAccepted, steps).Some?
    ensures var c := RunFrom(JustAccepted, steps).value;
            && c.messages == AcceptedIn(steps)
            && (!c.aborted ==>
                  && c.sent + c.output == Flatten(AcceptedIn(steps)) && |c.sent| == TakenIn(steps)
                  && WritingIsPending(c))
  {
    RunTraced(steps);
  }

  /** Tasks are performed in the order they are queued, none lost; those that other
      threads have decided on are queued, or about to be. */
  lemma TasksInOrder(steps: seq<Step>)
    requires RunFrom(JustAccepted, steps).Some?
    ensures var c := RunFrom(JustAccepted, steps).value;
            && PerformedIn(steps) <= |QueuedIn(steps)| && c.queue == QueuedIn(steps)[PerformedIn(steps)..]
            && c.past + PushedIn(steps) == DecidedIn(steps)
  {
    RunTraced(steps);
  }
}
