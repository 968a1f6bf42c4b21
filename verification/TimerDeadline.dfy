/** When the descriptor is armed in time, and when setting it is fatal. */
module TimerDeadline {
  import opened Runs
  import opened Timers
  import opened TimerTheorems

  /** Armed no later than the earliest scheduled expiration. */
  predicate ArmedInTime(q: Queue) {
    q.timers != [] ==> q.armed.Some? && q.armed.value <= q.timers[0].when
  }

  ghost predicate NoneAtMinimum(q: Queue) {
    forall e :: e in q.timers ==> e.when > TIMESTAMP_MIN
  }

  ghost predicate DeadlineInv(q: Queue) {
    !q.aborted ==>
      && NoneAtMinimum(q)
      && (!q.calling ==> if q.zeroDelay then q.armed == None else ArmedInTime(q))
  }

  lemma AddArms(q: Queue, a: Addr, clock: Clock)
    requires Inv(q) && DeadlineInv(q) && !q.aborted && a in q.inflight && a in q.heap
    ensures DeadlineInv(AddTimer(q, a, clock))
  {
    InsertSorted(q.timers, EntryOf(q, a));
  }

  lemma CancelArms(q: Queue, id: Id)
    requires Inv(q) && DeadlineInv(q) && !q.aborted
    ensures DeadlineInv(Cancel(q, id))
  {
    if id in q.active {
      EraseSorted(q.timers, EntryOf(q, id.timer));
    }
  }

  lemma ResetOneAboveMinimum(q: Queue)
    requires Agree(q) && NoneAtMinimum(q) && q.batch != []
    ensures NoneAtMinimum(ResetOne(q)) && ResetOne(q).aborted == q.aborted
  {
    var a := q.batch[0].timer;
    BatchHead(q);
    if q.heap[a].repeat && IdOf(q, a) !in q.canceling {
      var e := Entry(q.readTime + q.heap[a].interval, a);
      MembersWith(q.timers, LowerBound(q.timers, e), e);
      assert ResetOne(q).timers == Insert(q.timers, e);
    }
  }

  lemma {:induction false} ResetAllAboveMinimum(q: Queue)
    requires Agree(q) && NoneAtMinimum(q)
    ensures NoneAtMinimum(ResetAll(q)) && ResetAll(q).aborted == q.aborted
    decreases |q.batch|
  {
    if q.batch != [] {
      ResetOneKeeps(q);
      ResetOneAboveMinimum(q);
      ResetAllAboveMinimum(ResetOne(q));
    }
  }

  lemma FinishArms(q: Queue, clock: Clock)
    requires Inv(q) && DeadlineInv(q) && !q.aborted && q.ran == |q.batch|
    ensures DeadlineInv(FinishBatch(q, clock))
  {
    var p := q.(calling := false, ran := 0);
    FlagsKeep(q, p);
    ResetAllAboveMinimum(p);
    ResetAllKeeps(p);
    var r := ResetAll(p);
    assert r.timers != [] ==> r.timers[0] in r.timers;
  }

  lemma StepArms(q: Queue, step: Step)
    requires Inv(q) && DeadlineInv(q) && Next(q, step).Some?
    ensures DeadlineInv(Next(q, step).value)
  {
    match step
    case Create(_, _, _, _) =>
    case AddInLoop(a, clock) => AddArms(q, a, clock);
    case CancelInLoop(id) => CancelArms(q, id);
    case BeginRead(now) => SplitMembers(q.timers, ExpiredCount(q.timers, now));
    case RunNext =>
    case EndRead(clock) => FinishArms(q, clock);
  }

  /** Between events, the descriptor is armed in time for the earliest timer unless
      (and only if not, when there is one) it was last set to exactly no time,
      which disarms it. */
  lemma DeadlineArmed(steps: seq<Step>)
    requires RunFrom(Empty, steps).Some?
    ensures var q := RunFrom(Empty, steps).value;
            !q.aborted && !q.calling && q.timers != [] ==> (ArmedInTime(q) <==> !q.zeroDelay)
  {
    forall q, l | (Inv(q) && DeadlineInv(q)) && Next(q, l).Some?
      ensures Inv(Next(q, l).value) && DeadlineInv(Next(q, l).value)
    {
      StepKeeps(q, l);
      StepArms(q, l);
    }
    RunKeeps((p: Queue, l: Step) => Next(p, l), (p: Queue) => Inv(p) && DeadlineInv(p), Empty, steps);
  }

  /** Adding is fatal exactly when the new timer has already passed and is earlier than
      every timer scheduled. */
  lemma AddFatal(q: Queue, a: Addr, clock: Clock)
    requires Inv(q) && !q.aborted && a in q.inflight && a in q.heap
    ensures AddTimer(q, a, clock).aborted <==>
              && q.heap[a].expiration < clock
              && forall e :: e in q.timers ==> q.heap[a].expiration < e.when
  {
    if q.timers != [] {
      assert q.timers[0] in q.timers;
      forall e | e in q.timers ensures q.timers[0].when <= e.when {
        var i :| 0 <= i < |q.timers| && q.timers[i] == e;
      }
    }
  }

  /** A new timer that is due at this very moment disarms the descriptor. */
  lemma ZeroDelayDisarms(a: Addr, when: Clock, interval: nat, repeat: bool)
    ensures var r := RunFrom(Empty, [Create(a, when, interval, repeat), AddInLoop(a, when)]);
            r.Some? && !r.value.aborted && r.value.zeroDelay
                    && r.value.timers == [Entry(when, a)] && !ArmedInTime(r.value)
  {
    var s := [Create(a, when, interval, repeat), AddInLoop(a, when)];
    var q1 := Next(Empty, s[0]).value;
    RunFromCons(Empty, s[0], s[1..]);
    RunFromCons(q1, s[1], []);
    assert s == [s[0]] + s[1..] && s[1..] == [s[1]] + [];
    assert Insert([], Entry(when, a)) == [Entry(when, a)];
  }

  // ----- What a batch leaves behind

  /** `e` is the restart of a repeating timer of the batch that was not cancelled. */
  predicate Restarts(q: Queue, e: Entry) {
    && e.timer in q.heap && InBatch(q, e.timer)
    && q.heap[e.timer].repeat && IdOf(q, e.timer) !in q.canceling
    && e.when == q.readTime + q.heap[e.timer].interval
  }

  lemma ResetOneMembers(q: Queue, e: Entry)
    requires Agree(q) && q.batch != []
    ensures var r := ResetOne(q);
            e in r.timers || Restarts(r, e) <==> e in q.timers || Restarts(q, e)
  {
    BatchHead(q);
    ResetOneTimers(q, e);
    if e.timer == q.batch[0].timer {
      FirstRestarts(q, e);
    } else {
      OthersRestart(q, e);
    }
  }

  lemma ResetOneTimers(q: Queue, e: Entry)
    requires q.batch != [] && q.batch[0].timer in q.heap
    ensures var a := q.batch[0].timer;
            e in ResetOne(q).timers <==>
              || e in q.timers
              || (q.heap[a].repeat && IdOf(q, a) !in q.canceling && e == Entry(q.readTime + q.heap[a].interval, a))
  {
    var a := q.batch[0].timer;
    if q.heap[a].repeat && IdOf(q, a) !in q.canceling {
      var d := Entry(q.readTime + q.heap[a].interval, a);
      MembersWith(q.timers, LowerBound(q.timers, d), d);
      assert ResetOne(q).timers == Insert(q.timers, d);
    }
  }

  lemma FirstRestarts(q: Queue, e: Entry)
    requires Agree(q) && q.batch != [] && e.timer == q.batch[0].timer
    ensures var a := q.batch[0].timer;
            && !Restarts(ResetOne(q), e) && a in q.heap
            && (Restarts(q, e) <==> q.heap[a].repeat && IdOf(q, a) !in q.canceling
                                    && e == Entry(q.readTime + q.heap[a].interval, a))
  {
    BatchHead(q);
  }

  lemma OthersRestart(q: Queue, e: Entry)
    requires Agree(q) && q.batch != [] && e.timer != q.batch[0].timer
    ensures Restarts(ResetOne(q), e) <==> Restarts(q, e)
  {
    BatchHead(q);
    if e.timer in q.heap {
      assert EntryOf(ResetOne(q), e.timer) == EntryOf(q, e.timer);
      assert EntryOf(q, e.timer) in q.batch[1..] <==> EntryOf(q, e.timer) in q.batch;
    }
  }

  /** After a batch exactly these are scheduled: what was, together with the
      restarts of the repeating timers that nobody cancelled. */
  lemma {:induction false} BatchLeaves(q: Queue, e: Entry)
    requires Agree(q)
    ensures e in ResetAll(q).timers <==> e in q.timers || Restarts(q, e)
    decreases |q.batch|
  {
    if q.batch != [] {
      ResetOneMembers(q, e);
      ResetOneKeeps(q);
      BatchLeaves(ResetOne(q), e);
    }
  }

  ghost predicate SomePassed(waiting: iset<Entry>, clock: Clock) {
    exists e :: e in waiting && e.when < clock
  }

  /** The entries that will be scheduled when the batch has ended. */
  ghost function Waiting(q: Queue): (r: iset<Entry>) {
    iset e | e in q.timers || Restarts(q, e)
  }

  lemma WaitingExact(q: Queue)
    requires Inv(q) && q.ran == |q.batch|
    ensures var r := ResetAll(q.(calling := false, ran := 0));
            Sorted(r.timers) && Waiting(q) == iset e | e in r.timers
  {
    var p := q.(calling := false, ran := 0);
    FlagsKeep(q, p);
    ResetAllKeeps(p);
    forall e ensures e in ResetAll(p).timers <==> e in Waiting(q) {
      BatchLeaves(p, e);
      assert Restarts(p, e) == Restarts(q, e);
    }
  }

  lemma AbortsExact(r: Queue, clock: Clock)
    requires Sorted(r.timers) && NoneAtMinimum(r) && !r.aborted
    ensures var waiting := iset e | e in r.timers;
            && NextExpire(r) != TIMESTAMP_MIN
            && (ResetTimerfd(r, NextExpire(r), clock).aborted <==>
                  SomePassed(waiting, clock) || (waiting == iset{} && EPOCH < clock))
  {
    var waiting := iset e | e in r.timers;
    if r.timers != [] {
      assert r.timers[0] in r.timers && r.timers[0] in waiting;
      forall e | e in r.timers ensures r.timers[0].when <= e.when {
        var i :| 0 <= i < |r.timers| && r.timers[i] == e;
      }
    }
  }

  /** Finishing a batch is fatal exactly when some timer then waiting has already
      passed, or none waits and the epoch has. */
  lemma FinishFatal(q: Queue, clock: Clock)
    requires Inv(q) && DeadlineInv(q) && !q.aborted && q.ran == |q.batch|
    ensures FinishBatch(q, clock).aborted <==>
              SomePassed(Waiting(q), clock) || (Waiting(q) == iset{} && EPOCH < clock)
  {
    var p := q.(calling := false, ran := 0);
    WaitingExact(q);
    FlagsKeep(q, p);
    ResetAllAboveMinimum(p);
    AbortsExact(ResetAll(p), clock);
  }

  /** So a one-shot timer that is the only one ends the program when it expires. */
  lemma LoneTimerFatal(q: Queue, now: Clock, clock: Clock)
    requires Inv(q) && DeadlineInv(q) && !q.calling && !q.aborted
    requires |q.timers| == 1 && q.timers[0].when <= now && clock > EPOCH
    requires q.timers[0].timer in q.heap && !q.heap[q.timers[0].timer].repeat
    ensures var r := RunFrom(q, [BeginRead(now), RunNext, EndRead(clock)]);
            r.Some? && r.value.aborted && r.value.log == q.log + [IdOf(q, q.timers[0].timer)]
  {
    var s := [BeginRead(now), RunNext, EndRead(clock)];
    var e := q.timers[0];
    assert e in q.timers;
    var q1 := StartBatch(q, now);
    assert q1.batch == [e] && q1.timers == [];
    var q2 := RunOne(q1);
    var p := q2.(calling := false, ran := 0);
    assert ResetOne(p).batch == [] && ResetOne(p).timers == [];
    assert ResetAll(p) == ResetOne(p);
    var q3 := FinishBatch(q2, clock);
    RunFromCons(q, s[0], s[1..]);
    RunFromCons(q1, s[1], s[2..]);
    RunFromCons(q2, s[2], []);
    assert s == [s[0]] + s[1..] && s[1..] == [s[1]] + s[2..] && s[2..] == [s[2]] + [];
  }
}
