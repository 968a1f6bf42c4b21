/** The client's connector as a step machine: every socket it opens ends up held,
    closed or handed over, and it waits longer after each failure. */
module ConnectingMachine {
  import opened Runs

  const INIT_RETRY_DELAY_MS := 500
  const MAX_RETRY_DELAY_MS := 30 * 1000

  type Socket = nat   // numbered in the order they are opened

  datatype State = Disconnected | Connecting | Connected

  datatype ConnectResult = InProgress | Retryable | Fatal

  datatype Task = StartTask | StopTask | ResetTask

  /** `channel` is kept until the queued reset; `watching` is whether it is still
      registered. `timers` counts pending retries, `delays` what they waited. */
  datatype Connector = Connector(
    connect: bool,
    state: State,
    channel: Option<Socket>,
    watching: bool,
    retryDelayMs: nat,
    queue: seq<Task>,
    timers: nat,
    created: nat,
    closed: set<Socket>,
    handed: set<Socket>,
    twice: bool,               // a socket was closed or handed over a second time
    delays: seq<nat>,
    started: bool,
    fatal: bool,               // a connect call failed fatally, which ends the program
    failed: bool)              // an assertion fired

  const Fresh := Connector(false, Disconnected, None, false, INIT_RETRY_DELAY_MS, [], 0, 0, {}, {}, false, [], false,
                           false, false)

  datatype Step =
    | Start(inLoop: bool, result: ConnectResult)
    | Stop
    | RunTask(result: ConnectResult)
    | TimerFires(result: ConnectResult)
    | ChannelEvent(error: bool, writable: bool, socketError: bool, selfConnect: bool)

  function Close(c: Connector, fd: Socket): (r: Connector) {
    c.(closed := c.closed + {fd}, twice := c.twice || fd in c.closed || fd in c.handed)
  }

  function HandOver(c: Connector, fd: Socket): (r: Connector) {
    c.(handed := c.handed + {fd}, twice := c.twice || fd in c.closed || fd in c.handed)
  }

  function Retry(c: Connector, fd: Socket): (r: Connector) {
    var r := Close(c, fd).(state := Disconnected);
    if c.connect then
      r.(timers := c.timers + 1, delays := c.delays + [c.retryDelayMs],
         retryDelayMs := if c.retryDelayMs * 2 <= MAX_RETRY_DELAY_MS then c.retryDelayMs * 2 else MAX_RETRY_DELAY_MS)
    else r
  }

  function Watch(c: Connector, fd: Socket): (r: Connector) {
    if c.channel != None then c.(failed := true)
    else c.(state := Connecting, channel := Some(fd), watching := true)
  }

  function Connect(c: Connector, result: ConnectResult): (r: Connector) {
    Attempted(c.(created := c.created + 1), result)
  }

  /** The kernel's answer to a connection attempt on the socket just created. */
  function Attempted(c: Connector, result: ConnectResult): (r: Connector) {
    match result
    case InProgress => Watch(c, c.created)
    case Retryable => Retry(c, c.created)
    case Fatal => c.(fatal := true)
  }

  function StartInLoop(c: Connector, result: ConnectResult): (r: Connector) {
    if c.state != Disconnected then c.(failed := true)
    else if c.connect then Connect(c, result)
    else c
  }

  /** The channel goes quiet now and is dropped by a queued task. */
  function RemoveAndReset(c: Connector): (r: Connector) {
    c.(watching := false, queue := c.queue + [ResetTask])
  }

  function StopInLoop(c: Connector): (r: Connector) {
    if c.state == Connecting && c.channel.Some? then Retry(RemoveAndReset(c.(state := Connected)), c.channel.value) else c
  }

  function HandleWrite(c: Connector, socketError: bool, selfConnect: bool): (r: Connector) {
    if c.state == Connecting && c.channel.Some? then
      var r, fd := RemoveAndReset(c), c.channel.value;
      if socketError || selfConnect then Retry(r, fd)
      else if c.connect then HandOver(r.(state := Connected), fd)
      else Close(r.(state := Connected), fd)
    else if c.state != Disconnected then c.(failed := true)
    else c
  }

  function HandleError(c: Connector): (r: Connector) {
    if c.state == Connecting && c.channel.Some? then Retry(RemoveAndReset(c), c.channel.value) else c
  }

  /** One `start`. A retry timer may fire while the drop of the last channel is still queued. */
  function Next(c: Connector, step: Step): (r: Option<Connector>) {
    if c.fatal || c.failed then None
    else
      match step
      case Start(inLoop, result) =>
        if c.started then None
        else
          var r := c.(started := true, connect := true);
          Some(if inLoop then StartInLoop(r, result) else r.(queue := c.queue + [StartTask]))
      case Stop => Some(c.(connect := false, queue := c.queue + [StopTask]))
      case RunTask(result) =>
        if c.queue == [] then None
        else
          var r := c.(queue := c.queue[1..]);
          (match c.queue[0]
           case StartTask => Some(StartInLoop(r, result))
           case StopTask => Some(StopInLoop(r))
           case ResetTask => Some(r.(channel := None)))
      case TimerFires(result) =>
        if c.timers == 0 then None
        else Some(StartInLoop(c.(timers := c.timers - 1), result))
      case ChannelEvent(error, writable, socketError, selfConnect) =>
        if !c.watching then None
        else
          var r := if error then HandleError(c) else c;
          Some(if writable then HandleWrite(r, socketError, selfConnect) else r)
  }

  // ----- What every run keeps

  predicate Held(c: Connector, fd: Socket) {
    c.watching && c.channel == Some(fd)
  }

  /** In how many of the three places a socket is. */
  function Places(c: Connector, fd: Socket): (r: nat) {
    Bit(Held(c, fd)) + Bit(fd in c.closed) + Bit(fd in c.handed)
  }

  /** Every socket opened is held by the watching channel, closed once, or handed
      over once, and in only one of these. */
  ghost predicate Accounted(c: Connector) {
    !c.twice && forall fd: Socket :: Places(c, fd) == Bit(1 <= fd <= c.created)
  }

  function Count(q: seq<Task>, t: Task): (r: nat) {
    multiset(q)[t]
  }

  function Bit(b: bool): (r: nat) {
    if b then 1 else 0
  }

  /** One attempt at a time; and a dropped channel waits for exactly one reset. */
  predicate OneAttempt(c: Connector) {
    && (c.watching <==> c.state == Connecting)
    && (c.watching ==> c.channel.Some?)
    && Count(c.queue, ResetTask) == Bit(c.channel.Some? && !c.watching)
    && c.timers + Count(c.queue, StartTask) + Bit(c.state != Disconnected) <= Bit(c.started)
    && (c.channel.Some? ==> Count(c.queue, StartTask) == 0 && c.started)
  }

  /** The delay after `k` failures. */
  function DelayFor(k: nat): (r: nat) {
    if k == 0 then INIT_RETRY_DELAY_MS
    else if DelayFor(k - 1) * 2 <= MAX_RETRY_DELAY_MS then DelayFor(k - 1) * 2
    else MAX_RETRY_DELAY_MS
  }

  predicate DelaysGrow(c: Connector) {
    c.retryDelayMs == DelayFor(|c.delays|) && forall k :: 0 <= k < |c.delays| ==> c.delays[k] == DelayFor(k)
  }

  /** A connection handed over is the end of it. */
  predicate HandedIsLast(c: Connector) {
    && (c.state == Connected ==> c.timers == 0 && !c.watching)
    && (c.state != Connected ==> c.handed == {})
    && |c.handed| <= 1
  }

  ghost predicate Inv(c: Connector) {
    !c.fatal && !c.failed ==> Accounted(c) && OneAttempt(c) && DelaysGrow(c) && HandedIsLast(c)
  }

  lemma CountPush(q: seq<Task>, t: Task, u: Task)
    ensures Count(q + [t], u) == Count(q, u) + Bit(t == u)
  {
  }

  lemma CountPop(q: seq<Task>, u: Task)
    requires q != []
    ensures Count(q[1..], u) == Count(q, u) - Bit(q[0] == u)
    ensures u in q <==> Count(q, u) > 0
  {
    assert q == [q[0]] + q[1..];
  }

  /** Neither the end of the program nor an assertion has stopped it. */
  predicate GoesOn(c: Connector) {
    !c.fatal && !c.failed
  }

  /** Giving up the attempt on the channel's socket and scheduling the next. */
  lemma GiveUpKeeps(c: Connector)
    requires Inv(c) && GoesOn(c) && c.state == Connecting
    ensures var r := Retry(RemoveAndReset(c), c.channel.value);
            Inv(r) && GoesOn(r) && r.state == Disconnected
  {
    var r, x := Retry(RemoveAndReset(c), c.channel.value), c.channel.value;
    forall u { CountPush(c.queue, ResetTask, u); }
    assert Places(c, x) <= 1;
    forall fd ensures Places(r, fd) == Places(c, fd) {}
  }

  lemma WriteKeeps(c: Connector, socketError: bool, selfConnect: bool)
    requires Inv(c) && GoesOn(c) && (c.state == Connecting || c.state == Disconnected)
    ensures Inv(HandleWrite(c, socketError, selfConnect)) && GoesOn(HandleWrite(c, socketError, selfConnect))
  {
    if c.state == Connecting {
      var r, x := HandleWrite(c, socketError, selfConnect), c.channel.value;
      forall u { CountPush(c.queue, ResetTask, u); }
      assert Places(c, x) <= 1;
      if socketError || selfConnect {
        GiveUpKeeps(c);
      } else {
        forall fd ensures Places(r, fd) == Places(c, fd) {}
      }
    }
  }

  /** Starting an attempt: only a channel still there makes an assertion fail. */
  lemma StartKeeps(c: Connector, result: ConnectResult)
    requires Accounted(c) && GoesOn(c) && DelaysGrow(c) && HandedIsLast(c)
    requires c.state == Disconnected && c.started && c.timers == 0 && Count(c.queue, StartTask) == 0
    requires !c.watching && Count(c.queue, ResetTask) == Bit(c.channel.Some?)
    ensures Inv(StartInLoop(c, result))
    ensures StartInLoop(c, result).failed <==> c.connect && result == InProgress && c.channel.Some?
  {
    var r, x := StartInLoop(c, result), c.created + 1;
    assert Places(c, x) == 0;
    forall fd ensures c.connect && GoesOn(r) ==> Places(r, fd) == Places(c, fd) + Bit(fd == x) {}
  }

  lemma SamePlaces(c: Connector, r: Connector)
    requires c.watching == r.watching && c.channel == r.channel && c.closed == r.closed && c.handed == r.handed
    requires c.created == r.created && c.twice == r.twice && Accounted(c)
    ensures Accounted(r)
  {
    assert forall fd :: Places(r, fd) == Places(c, fd);
  }

  lemma TaskKeeps(c: Connector, result: ConnectResult)
    requires Inv(c) && Next(c, RunTask(result)).Some?
    ensures Inv(Next(c, RunTask(result)).value) && !Next(c, RunTask(result)).value.failed
  {
    var r := c.(queue := c.queue[1..]);
    forall u { CountPop(c.queue, u); }
    match c.queue[0]
    case StartTask =>
      SamePlaces(c, r);
      StartKeeps(r, result);
    case StopTask =>
      SamePlaces(c, r);
      if r.state == Connecting {
        var p := r.(state := Connected);
        GiveUpKeeps(r);
        assert Retry(RemoveAndReset(p), r.channel.value) == Retry(RemoveAndReset(r), r.channel.value);
      }
    case ResetTask =>
      assert forall fd :: Places(r.(channel := None), fd) == Places(c, fd);
  }

  lemma TimerKeeps(c: Connector, result: ConnectResult)
    requires Inv(c) && GoesOn(c) && c.timers > 0
    ensures var r := StartInLoop(c.(timers := c.timers - 1), result);
            Inv(r) && (r.failed <==> c.connect && result == InProgress && ResetTask in c.queue)
  {
    SamePlaces(c, c.(timers := c.timers - 1));
    if c.queue != [] { CountPop(c.queue, ResetTask); }
    StartKeeps(c.(timers := c.timers - 1), result);
  }

  lemma EventKeeps(c: Connector, error: bool, writable: bool, socketError: bool, selfConnect: bool)
    requires Inv(c) && GoesOn(c) && c.watching
    ensures var r := if error then HandleError(c) else c;
            var w := if writable then HandleWrite(r, socketError, selfConnect) else r;
            Inv(w) && GoesOn(w)
  {
    if error { GiveUpKeeps(c); }
    var r := if error then HandleError(c) else c;
    if writable { WriteKeeps(r, socketError, selfConnect); }
  }

  lemma RequestKeeps(c: Connector, inLoop: bool, result: ConnectResult)
    requires Inv(c) && Next(c, Start(inLoop, result)).Some?
    ensures Inv(Next(c, Start(inLoop, result)).value) && !Next(c, Start(inLoop, result)).value.failed
  {
    var r := c.(started := true, connect := true);
    SamePlaces(c, r);
    if inLoop {
      StartKeeps(r, result);
    } else {
      forall u { CountPush(c.queue, StartTask, u); }
      SamePlaces(r, Next(c, Start(inLoop, result)).value);
    }
  }

  /** The step in which the assertion that there is no channel fails. */
  predicate MeetsOldChannel(c: Connector, step: Step) {
    step.TimerFires? && c.connect && step.result == InProgress && ResetTask in c.queue
  }

  lemma StepKeeps(c: Connector, step: Step)
    requires Inv(c) && Next(c, step).Some?
    ensures Inv(Next(c, step).value)
    ensures Next(c, step).value.failed <==> MeetsOldChannel(c, step)
  {
    match step
    case Start(inLoop, result) => RequestKeeps(c, inLoop, result);
    case Stop =>
      forall u { CountPush(c.queue, StopTask, u); }
      SamePlaces(c, Next(c, step).value);
    case RunTask(result) => TaskKeeps(c, result);
    case TimerFires(result) => TimerKeeps(c, result);
    case ChannelEvent(error, writable, socketError, selfConnect) =>
      EventKeeps(c, error, writable, socketError, selfConnect);
  }

  // ----- Every run

  function Pow2(k: nat): (r: nat) {
    if k == 0 then 1 else 2 * Pow2(k - 1)
  }

  /** The k-th delay doubles from the first until it meets its cap. */
  lemma {:induction false} DelayClosedForm(k: nat)
    ensures DelayFor(k) == if 500 * Pow2(k) <= 30000 then 500 * Pow2(k) else 30000
  {
    if k > 0 {
      DelayClosedForm(k - 1);
    }
  }

  lemma RunInv(steps: seq<Step>)
    requires Run(Next, Fresh, steps).Some?
    ensures Inv(Run(Next, Fresh, steps).value)
  {
    assert forall fd :: Places(Fresh, fd) == 0;
    forall c, l | Inv(c) && Next(c, l).Some? ensures Inv(Next(c, l).value) {
      StepKeeps(c, l);
    }
    RunKeeps(Next, c => Inv(c), Fresh, steps);
  }

  /** For one start, with any connect results, channel events and stops, until the
      program ends or an assertion fails: each socket opened is in exactly one place,
      at most one is handed over, and the k-th retry waits min(500 * 2^k, 30000)
      milliseconds. */
  lemma SocketsAreAccountedFor(steps: seq<Step>)
    requires Run(Next, Fresh, steps).Some?
    ensures var c := Run(Next, Fresh, steps).value;
            GoesOn(c) ==>
              && !c.twice
              && (forall fd: Socket :: Places(c, fd) == Bit(1 <= fd <= c.created))
              && |c.handed| <= 1
              && (forall k :: 0 <= k < |c.delays| ==>
                    c.delays[k] == if 500 * Pow2(k) <= 30000 then 500 * Pow2(k) else 30000)
  {
    RunInv(steps);
    var c := Run(Next, Fresh, steps).value;
    forall k | 0 <= k < |c.delays| { DelayClosedForm(k); }
  }

  /** In every run an assertion fails exactly in this step: a retry timer fires, and the
      connection is in progress at once, while the drop of the last channel is still
      queued. */
  lemma AssertionFailsExactly(steps: seq<Step>, step: Step)
    requires Run(Next, Fresh, steps).Some? && Next(Run(Next, Fresh, steps).value, step).Some?
    ensures var c := Run(Next, Fresh, steps).value;
            Next(c, step).value.failed <==> MeetsOldChannel(c, step)
  {
    RunInv(steps);
    StepKeeps(Run(Next, Fresh, steps).value, step);
  }

  /** It happens: an attempt fails, and the loop is so late that its retry timer has
      expired before the functors queued with it are run. */
  lemma LateDropFails()
    ensures var c := Run(Next, Fresh, [Start(true, InProgress), ChannelEvent(true, false, false, false),
                                       TimerFires(InProgress)]);
            c.Some? && c.value.failed && !c.value.fatal
  {
    var l := [Start(true, InProgress), ChannelEvent(true, false, false, false), TimerFires(InProgress)];
    var c1 := Next(Fresh, l[0]).value;
    var c2 := Next(c1, l[1]).value;
    assert l[1..][1..] == l[2..] == [TimerFires(InProgress)];
    RunSingle(Next, c2, l[2]);
    assert Run(Next, c1, l[1..]) == Run(Next, c2, l[1..][1..]);
  }

  /** A stop was asked for, and nothing is under way that will not meet it. */
  predicate Stopping(c: Connector) {
    !c.connect && (c.watching ==> StopTask in c.queue)
  }

  /** Nothing new is begun. */
  predicate NothingNew(c: Connector, r: Connector) {
    r.created == c.created && r.handed == c.handed && r.delays == c.delays && r.timers <= c.timers
  }

  lemma StoppingTask(c: Connector, result: ConnectResult)
    requires Inv(c) && GoesOn(c) && Stopping(c) && c.queue != []
    ensures var r := Next(c, RunTask(result)).value;
            Next(c, RunTask(result)).Some? && GoesOn(r) && Stopping(r) && NothingNew(c, r)
  {
    CountPop(c.queue, StartTask);
    CountPop(c.queue, ResetTask);
    assert c.queue == [c.queue[0]] + c.queue[1..];
  }

  lemma StoppingStep(c: Connector, step: Step)
    requires Inv(c) && GoesOn(c) && Stopping(c) && !step.Start? && Next(c, step).Some?
    ensures var r := Next(c, step).value; GoesOn(r) && Stopping(r) && NothingNew(c, r)
  {
    if step.RunTask? { StoppingTask(c, step.result); }
  }

  lemma {:induction false} StoppingRun(c: Connector, rest: seq<Step>)
    requires Inv(c) && GoesOn(c) && Stopping(c) && Run(Next, c, rest).Some?
    requires forall l :: l in rest ==> !l.Start?
    ensures var r := Run(Next, c, rest).value; Inv(r) && GoesOn(r) && Stopping(r) && NothingNew(c, r)
    decreases |rest|
  {
    if rest != [] {
      StepKeeps(c, rest[0]);
      StoppingStep(c, rest[0]);
      StoppingRun(Next(c, rest[0]).value, rest[1..]);
    }
  }

  /** Stopping stops. After a stop, in every continuation without a new start: no socket
      is opened, none is handed over, no retry is scheduled, the program does not end and
      no assertion fails. And when the queue has been run, the connector holds nothing:
      every socket ever opened has been closed or was handed over before the stop. */
  lemma StopStops(steps: seq<Step>, rest: seq<Step>)
    requires Run(Next, Fresh, steps + [Stop] + rest).Some?
    requires forall l :: l in rest ==> !l.Start?
    ensures Run(Next, Fresh, steps).Some?
    ensures var c, r := Run(Next, Fresh, steps).value, Run(Next, Fresh, steps + [Stop] + rest).value;
            && GoesOn(r) && r.created == c.created && r.handed == c.handed && r.delays == c.delays && r.timers <= c.timers
            && (r.queue == [] ==>
                  && r.channel == None && !r.watching
                  && forall fd :: 1 <= fd <= r.created ==> (fd in r.closed <==> fd !in c.handed))
  {
    RunCut(Next, Fresh, steps + [Stop], rest);
    RunCut(Next, Fresh, steps, [Stop]);
    var c, r := Run(Next, Fresh, steps).value, Run(Next, Fresh, steps + [Stop] + rest).value;
    RunInv(steps);
    RunSingle(Next, c, Stop);
    var stopped := Next(c, Stop).value;
    StepKeeps(c, Stop);
    StoppingRun(stopped, rest);
    forall fd | r.queue == [] && 1 <= fd <= r.created ensures fd in r.closed <==> fd !in c.handed {
      assert Places(r, fd) == 1;
    }
  }

  /** Was it started and not stopped since? */
  predicate Wanted(steps: seq<Step>) {
    steps != [] && if Last(steps).Start? then true else if Last(steps).Stop? then false else Wanted(Front(steps))
  }

  /** An attempt is to be begun, or is waited for, or has come to its end. */
  predicate Trying(c: Connector) {
    && c.timers + Count(c.queue, StartTask) + Bit(c.state != Disconnected) == 1
    && (c.state == Connected ==> c.handed != {})
  }

  lemma TaskTries(c: Connector, result: ConnectResult)
    requires Inv(c) && GoesOn(c) && c.connect && Trying(c) && Next(c, RunTask(result)).Some?
    ensures var r := Next(c, RunTask(result)).value; GoesOn(r) ==> Trying(r)
  {
    CountPop(c.queue, StartTask);
    if c.state == Connecting { CountPush(c.queue[1..], ResetTask, StartTask); }
  }

  lemma StepTries(c: Connector, step: Step)
    requires Inv(c) && GoesOn(c) && (c.connect ==> Trying(c)) && Next(c, step).Some?
    ensures var r := Next(c, step).value; GoesOn(r) && r.connect ==> Trying(r)
  {
    match step
    case Start(_, _) => CountPush(c.queue, StartTask, StartTask);
    case RunTask(result) => if c.connect { TaskTries(c, result); }
    case ChannelEvent(_, _, _, _) => CountPush(c.queue, ResetTask, StartTask);
    case _ =>
  }

  lemma StartConnects(c: Connector, result: ConnectResult)
    ensures StartInLoop(c, result).connect == c.connect
  {
  }

  lemma RetryConnects(c: Connector, fd: Socket)
    ensures Retry(c, fd).connect == c.connect
  {
  }

  lemma WriteConnects(c: Connector, socketError: bool, selfConnect: bool)
    ensures HandleWrite(c, socketError, selfConnect).connect == c.connect
  {
    if c.channel.Some? { RetryConnects(RemoveAndReset(c), c.channel.value); }
  }

  lemma ErrorConnects(c: Connector)
    ensures HandleError(c).connect == c.connect
  {
    if c.channel.Some? { RetryConnects(RemoveAndReset(c), c.channel.value); }
  }

  lemma StopConnects(c: Connector)
    ensures StopInLoop(c).connect == c.connect
  {
    if c.channel.Some? { RetryConnects(RemoveAndReset(c.(state := Connected)), c.channel.value); }
  }

  /** Only a start and a stop change what is wanted. */
  lemma StepConnects(c: Connector, step: Step)
    requires Next(c, step).Some?
    ensures Next(c, step).value.connect == if step.Start? then true else if step.Stop? then false else c.connect
  {
    match step
    case Start(_, result) => StartConnects(c.(started := true, connect := true), result);
    case RunTask(result) =>
      StartConnects(c.(queue := c.queue[1..]), result);
      StopConnects(c.(queue := c.queue[1..]));
    case TimerFires(result) => StartConnects(c.(timers := c.timers - 1), result);
    case ChannelEvent(error, _, socketError, selfConnect) =>
      ErrorConnects(c);
      WriteConnects(c, socketError, selfConnect);
      WriteConnects(HandleError(c), socketError, selfConnect);
    case _ =>
  }

  lemma StepWanted(c: Connector, steps: seq<Step>, step: Step)
    requires (c.connect <==> Wanted(steps)) && Next(c, step).Some?
    ensures Next(c, step).value.connect <==> Wanted(steps + [step])
  {
    Snoc(steps, step);
    StepConnects(c, step);
  }

  ghost predicate Traced(c: Connector, steps: seq<Step>) {
    Inv(c) && (c.connect <==> Wanted(steps)) && (GoesOn(c) && c.connect ==> Trying(c))
  }

  /** While it is wanted it never gives up: an attempt is queued, or a retry timer runs, or
      one socket is watched until it is connected, or has been handed over. */
  lemma KeepsTrying(steps: seq<Step>)
    requires Run(Next, Fresh, steps).Some?
    ensures var c := Run(Next, Fresh, steps).value;
            GoesOn(c) && Wanted(steps) ==>
              Count(c.queue, StartTask) + c.timers + Bit(c.watching) + |c.handed| == 1
  {
    assert forall fd :: Places(Fresh, fd) == 0;
    forall c, ls, l | Traced(c, ls) && Run(Next, Fresh, ls) == Some(c) && Next(c, l).Some?
      ensures Traced(Next(c, l).value, ls + [l])
    {
      StepKeeps(c, l);
      StepWanted(c, ls, l);
      StepTries(c, l);
    }
    RunKeepsTrace(Next, (c, ls) => Traced(c, ls), Fresh, steps);
  }

  /** Once nothing is pending, no socket is left open but one handed over. */
  lemma QuietConnectorHoldsNothing(steps: seq<Step>, fd: Socket)
    requires Run(Next, Fresh, steps).Some?
    requires var c := Run(Next, Fresh, steps).value;
             GoesOn(c) && !c.watching && 1 <= fd <= c.created && fd !in c.handed
    ensures fd in Run(Next, Fresh, steps).value.closed
  {
    RunInv(steps);
    assert Places(Run(Next, Fresh, steps).value, fd) == 1;
  }
}
