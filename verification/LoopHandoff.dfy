/** The event loop and the threads that hand functors to it, interleaved step by
    step: one program counter for the loop, one for each other thread. */
module LoopHandoff {
  import opened Runs

  type Functor = nat
  type Thread = nat

  /** Where the loop thread is in one turn of `loop`; `woken` is whether this
      turn's active channels include the wakeup channel. */
  datatype LoopAt =
    | NotStarted
    | Top
    | Polling
    | Handling(woken: bool)
    | BeforeSwap
    | Running
    | Stopped

  /** A foreign thread between its locked push (or its write of the quit flag) and
      the wakeup that follows. */
  datatype ThreadAt = Idle | MustWake(forQuit: bool)

  /** `queued` is every functor ever pushed, in lock order; `early` is set when the
      loop thread pushed before `loop` began; `seen` is how many had been pushed
      when the current turn's poll returned; `askedBefore` and `askedSince` are
      whether anybody has called `quit` before and since `loop` began. */
  datatype Loop = Loop(
    at: LoopAt,
    quit: bool,
    calling: bool,
    pending: seq<Functor>,
    batch: seq<Functor>,
    executed: seq<Functor>,
    queued: seq<Functor>,
    eventfd: nat,
    threads: map<Thread, ThreadAt>,
    iteration: nat,
    early: bool,
    seen: nat,
    askedBefore: bool,
    askedSince: bool)

  const Fresh := Loop(NotStarted, false, false, [], [], [], [], 0, map[], 0, false, 0, false, false)

  datatype Step =
    | ForeignPush(t: Thread, f: Functor)
    | ForeignQuit(t: Thread)
    | ForeignWake(t: Thread)
    | LoopPush(f: Functor)       // queueInLoop on the loop thread, wakeup included
    | LoopQuit                   // quit on the loop thread
    | Start
    | TestQuit
    | PollReturns
    | ReadEventfd
    | EndHandling
    | Swap
    | RunFunctor
    | EndFunctors

  function At(s: Loop, t: Thread): (r: ThreadAt) {
    if t in s.threads then s.threads[t] else Idle
  }

  /** The loop thread can run user code before the loop, in a handler, and in a functor. */
  predicate InUserCode(s: Loop) {
    s.at == NotStarted || s.at.Handling? || s.at == Running
  }

  function Push(s: Loop, f: Functor): (r: Loop) {
    s.(pending := s.pending + [f], queued := s.queued + [f])
  }

  function Quit(s: Loop): (r: Loop) {
    s.(quit := true, askedBefore := s.askedBefore || s.at == NotStarted, askedSince := s.askedSince || s.at != NotStarted)
  }

  function Next(s: Loop, step: Step): (r: Option<Loop>) {
    match step
    case ForeignPush(t, f) =>
      if At(s, t) == Idle then Some(Push(s, f).(threads := s.threads[t := MustWake(false)])) else None
    case ForeignQuit(t) =>
      if At(s, t) == Idle then Some(Quit(s).(threads := s.threads[t := MustWake(true)])) else None
    case ForeignWake(t) =>
      if At(s, t).MustWake? then Some(s.(eventfd := s.eventfd + 1, threads := s.threads[t := Idle])) else None
    case LoopPush(f) =>
      if InUserCode(s) then
        Some(Push(s, f).(eventfd := if s.calling then s.eventfd + 1 else s.eventfd,
                         early := s.early || s.at == NotStarted))
      else None
    case LoopQuit => if InUserCode(s) then Some(Quit(s)) else None
    case Start => if s.at == NotStarted then Some(s.(at := Top, quit := false)) else None
    case TestQuit =>
      if s.at == Top then Some(s.(at := if s.quit then Stopped else Polling)) else None
    case PollReturns =>
      if s.at == Polling then Some(s.(at := Handling(s.eventfd > 0), iteration := s.iteration + 1, seen := |s.queued|)) else None
    case ReadEventfd =>
      if s.at == Handling(true) then Some(s.(at := Handling(false), eventfd := 0)) else None
    case EndHandling =>
      if s.at == Handling(false) then Some(s.(at := BeforeSwap, calling := true)) else None
    case Swap =>
      if s.at == BeforeSwap then Some(s.(at := Running, batch := s.pending, pending := [])) else None
    case RunFunctor =>
      if s.at == Running && s.batch != [] then
        Some(s.(executed := s.executed + [s.batch[0]], batch := s.batch[1..]))
      else None
    case EndFunctors =>
      if s.at == Running && s.batch == [] then Some(s.(at := Top, calling := false)) else None
  }

  /** Some foreign thread still owes the loop a wakeup. */
  ghost predicate WakeOwed(s: Loop) {
    exists t :: t in s.threads && s.threads[t].MustWake?
  }

  ghost predicate QuitWakeOwed(s: Loop) {
    exists t :: t in s.threads && s.threads[t] == MustWake(true)
  }

  /** The pending queue will not be taken before the next poll. */
  predicate PastSwap(s: Loop) {
    s.at == NotStarted || s.at == Running || s.at == Top || s.at == Polling
  }

  /** What was queued when poll returned is still ahead, in the batch, or done. */
  predicate SeenOnTheWay(s: Loop) {
    && s.seen <= |s.queued|
    && (s.at == Running ==> s.seen <= |s.executed| + |s.batch|)
    && (s.at == Top || s.at == Polling || s.at == Stopped || s.at == NotStarted ==> s.seen <= |s.executed|)
  }

  /** The queue's history is kept, and only running functors are in a batch. */
  predicate Ordered(s: Loop) {
    && s.executed + s.batch + s.pending == s.queued
    && (s.batch != [] ==> s.at == Running)
    && (s.calling <==> s.at == BeforeSwap || s.at == Running)
  }

  /** Pending work and a quit are attended to; `early` work waits for the first poll. */
  ghost predicate Attended(s: Loop) {
    && (PastSwap(s) && s.pending != [] ==> s.eventfd > 0 || WakeOwed(s) || (s.early && s.iteration == 0))
    && (s.at == Polling && s.quit ==> s.eventfd > 0 || QuitWakeOwed(s))
    && (s.at == NotStarted ==> s.iteration == 0)
    && (s.early && s.iteration == 0 ==> s.pending != [] && !s.at.Handling? && s.at != BeforeSwap && s.at != Running)
  }

  /** The flag is set exactly when a quit has been called since `loop` began. */
  predicate QuitExact(s: Loop) {
    && (s.at != NotStarted ==> (s.quit <==> s.askedSince))
    && (s.at == NotStarted ==> !s.askedSince)
    && (s.at == Stopped ==> s.askedSince)
  }

  ghost predicate Inv(s: Loop) {
    SeenOnTheWay(s) && Ordered(s) && Attended(s) && QuitExact(s)
  }

  lemma StepOrdered(s: Loop, step: Step)
    requires Ordered(s) && SeenOnTheWay(s) && Next(s, step).Some?
    ensures Ordered(Next(s, step).value) && SeenOnTheWay(Next(s, step).value)
  {
    match step
    case ForeignPush(_, f) => ConcatOne(s.executed + s.batch, s.pending, f);
    case LoopPush(f) => ConcatOne(s.executed + s.batch, s.pending, f);
    case RunFunctor => assert s.executed + [s.batch[0]] + s.batch[1..] == s.executed + s.batch;
    case Swap => assert s.executed + [] + s.pending == s.executed + s.pending + [];
    case _ =>
  }

  lemma ConcatOne(a: seq<Functor>, b: seq<Functor>, f: Functor)
    ensures a + (b + [f]) == (a + b) + [f]
  {
  }

  /** A thread that begins to owe a wakeup does not settle another's debt. */
  lemma DebtsStand(s: Loop, r: Loop, t: Thread, u: ThreadAt)
    requires At(s, t) == Idle && u.MustWake? && r.threads == s.threads[t := u]
    ensures WakeOwed(r) && (QuitWakeOwed(s) || u.forQuit ==> QuitWakeOwed(r))
  {
    assert r.threads[t] == u;
    if QuitWakeOwed(s) {
      var v :| v in s.threads && s.threads[v] == MustWake(true);
      assert r.threads[v] == MustWake(true);
    }
  }

  lemma StepAttended(s: Loop, step: Step)
    requires Ordered(s) && Attended(s) && Next(s, step).Some?
    ensures Attended(Next(s, step).value)
  {
    var r := Next(s, step).value;
    match step
    case ForeignPush(t, _) => DebtsStand(s, r, t, MustWake(false));
    case ForeignQuit(t) => DebtsStand(s, r, t, MustWake(true));
    case _ =>
  }

  lemma StepQuitExact(s: Loop, step: Step)
    requires QuitExact(s) && Next(s, step).Some?
    ensures QuitExact(Next(s, step).value)
  {
  }

  lemma StepKeeps(s: Loop, step: Step)
    requires Inv(s) && Next(s, step).Some?
    ensures Inv(Next(s, step).value)
  {
    StepOrdered(s, step);
    StepAttended(s, step);
    StepQuitExact(s, step);
  }

  function RunFrom(s: Loop, steps: seq<Step>): (r: Option<Loop>) {
    Run(Next, s, steps)
  }

  /** The loop sits in poll with work queued and nothing to wake it. */
  ghost predicate Stranded(s: Loop) {
    s.at == Polling && s.pending != [] && s.eventfd == 0 && !WakeOwed(s)
  }

  lemma RunInv(steps: seq<Step>)
    requires RunFrom(Fresh, steps).Some?
    ensures Inv(RunFrom(Fresh, steps).value)
  {
    forall s, l | Inv(s) && Next(s, l).Some? ensures Inv(Next(s, l).value) {
      StepKeeps(s, l);
    }
    RunKeeps(Next, s => Inv(s), Fresh, steps);
  }

  /** The functors that a run's steps hand to the loop, in order. */
  function HandedOver(steps: seq<Step>): (r: seq<Functor>) {
    if steps == [] then []
    else
      HandedOver(Front(steps)) +
      match Last(steps)
      case ForeignPush(_, f) => [f]
      case LoopPush(f) => [f]
      case _ => []
  }

  /** How many functors a run's steps call. */
  function Called(steps: seq<Step>): (r: nat) {
    if steps == [] then 0 else Called(Front(steps)) + (if Last(steps) == RunFunctor then 1 else 0)
  }

  /** Was a quit called after the loop began? */
  predicate QuitCalled(steps: seq<Step>) {
    steps != [] &&
    var l := Last(steps);
    QuitCalled(Front(steps)) || ((l.ForeignQuit? || l == LoopQuit) && Start in steps)
  }

  ghost predicate Traced(s: Loop, steps: seq<Step>) {
    && s.queued == HandedOver(steps) && |s.executed| == Called(steps)
    && (s.askedSince <==> QuitCalled(steps)) && (s.at != NotStarted <==> Start in steps)
  }

  lemma StepTraced(s: Loop, steps: seq<Step>, l: Step)
    requires Traced(s, steps) && Next(s, l).Some?
    ensures Traced(Next(s, l).value, steps + [l])
  {
    var r := Next(s, l).value;
    Snoc(steps, l);
  }

  lemma RunTraced(steps: seq<Step>)
    requires RunFrom(Fresh, steps).Some?
    ensures Traced(RunFrom(Fresh, steps).value, steps)
  {
    forall s, ls, l | Traced(s, ls) && Run(Next, Fresh, ls) == Some(s) && Next(s, l).Some?
      ensures Traced(Next(s, l).value, ls + [l])
    {
      StepTraced(s, ls, l);
    }
    RunKeepsTrace(Next, (s, ls) => Traced(s, ls), Fresh, steps);
  }

  /** In every interleaving the functors called are, in order, the first of those that
      the steps of the run handed over; the rest are in the batch or pending. */
  lemma CalledInOrder(steps: seq<Step>)
    requires RunFrom(Fresh, steps).Some?
    ensures var s := RunFrom(Fresh, steps).value;
            && s.executed + s.batch + s.pending == HandedOver(steps)
            && Called(steps) <= |HandedOver(steps)| && s.executed == HandedOver(steps)[..Called(steps)]
  {
    RunInv(steps);
    RunTraced(steps);
    var s := RunFrom(Fresh, steps).value;
    assert s.executed + (s.batch + s.pending) == s.queued;
  }

  /** In every interleaving: functors are executed in the order they were queued,
      none lost and none twice; whatever was queued when a poll returned has been
      executed when that turn is over; and the loop is stranded in poll exactly when
      it is its first poll, the loop's own thread queued something before `loop`, and
      no other thread has called since. */
  lemma NoStrandedFunctor(steps: seq<Step>)
    requires RunFrom(Fresh, steps).Some?
    ensures var s := RunFrom(Fresh, steps).value;
            && s.executed + s.batch + s.pending == s.queued == HandedOver(steps)
            && (s.at == Top ==> s.seen <= |s.executed| && s.executed[..s.seen] == s.queued[..s.seen])
            && (Stranded(s) <==> s.at == Polling && s.early && s.iteration == 0 && s.eventfd == 0 && !WakeOwed(s))
  {
    RunInv(steps);
    RunTraced(steps);
    var s := RunFrom(Fresh, steps).value;
    assert s.queued[..|s.executed|] == s.executed;
  }

  /** The exception is real: one functor queued by the loop thread before `loop`. It waits
      for a descriptor event or the poll's time-out of ten seconds; `PollReturns` is both. */
  lemma EarlyPushStrands(f: Functor)
    ensures var s := RunFrom(Fresh, [LoopPush(f), Start, TestQuit]);
            s.Some? && Stranded(s.value)
  {
    var l := [LoopPush(f), Start, TestQuit];
    var s1 := Next(Fresh, l[0]).value;
    var s2 := Next(s1, l[1]).value;
    assert l[1..] == [Start, TestQuit] && l[1..][1..] == [TestQuit];
    RunSingle(Next, s2, TestQuit);
    assert RunFrom(s1, l[1..]) == RunFrom(s2, l[1..][1..]);
  }

  /** The loop leaves at its next test exactly when a quit was called since it began,
      never otherwise; and such a quit does not find it asleep for good. */
  lemma QuitHonouredExactly(steps: seq<Step>)
    requires RunFrom(Fresh, steps).Some?
    ensures var s := RunFrom(Fresh, steps).value;
            && (s.at == Top ==> (Next(s, TestQuit).value.at == Stopped <==> QuitCalled(steps)))
            && (s.at == Stopped ==> QuitCalled(steps))
            && (s.at == Polling && QuitCalled(steps) ==> s.eventfd > 0 || QuitWakeOwed(s))
  {
    RunInv(steps);
    RunTraced(steps);
  }

  /** A quit called before `loop` begins is overwritten: the loop goes to sleep, and a
      time-out only takes it round again. */
  lemma EarlyQuitIsLost()
    ensures var s := RunFrom(Fresh, [LoopQuit, Start, TestQuit]);
            s.Some? && s.value.askedBefore && s.value.at == Polling && !s.value.quit
                    && s.value.eventfd == 0 && !WakeOwed(s.value)
  {
    var l: seq<Step> := [LoopQuit, Start, TestQuit];
    var s1 := Next(Fresh, l[0]).value;
    var s2 := Next(s1, l[1]).value;
    assert l[1..] == [Start, TestQuit] && l[1..][1..] == [TestQuit];
    RunSingle(Next, s2, TestQuit);
    assert RunFrom(s1, l[1..]) == RunFrom(s2, l[1..][1..]);
  }
}
