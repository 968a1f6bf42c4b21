/** Cancellation is safe in every run: a cancelled timer is never run again,
    except once in the batch that already held it; and a stale id is harmless
    even when its address has been given to another timer. */
module TimerCancellation {
  import opened Runs
  import opened Timers
  import opened TimerTheorems

  function Count(log: seq<Id>, id: Id): (r: nat) {
    multiset(log)[id]
  }

  lemma CountPush(log: seq<Id>, x: Id, id: Id)
    ensures Count(log + [x], id) == Count(log, id) + (if x == id then 1 else 0)
  {
  }

  /** Cancellation has been accepted: the timer is gone, or it is in the batch
      being run and marked. Its sequence number has been used up. */
  ghost predicate Doomed(q: Queue, id: Id) {
    && id.sequence <= q.created
    && (Live(q, id) ==> q.calling && InBatch(q, id.timer) && id in q.canceling)
  }

  /** The timer is in the part of the batch still to be run. */
  ghost predicate Due(q: Queue, id: Id) {
    q.ran <= |q.batch| && Live(q, id) && EntryOf(q, id.timer) in q.batch[q.ran..]
  }

  ghost function Left(q: Queue, id: Id): (r: nat) {
    if Due(q, id) then 1 else 0
  }

  lemma CancelDooms(q: Queue, id: Id)
    requires Inv(q) && Live(q, id) && id.timer !in q.inflight
    ensures Doomed(Cancel(q, id), id)
    ensures Left(Cancel(q, id), id) == if id in q.active then 0 else Left(q, id)
  {
    if id in q.active {
      CancelErases(q, id);
    }
  }

  lemma ResetOneBuries(q: Queue, id: Id)
    requires Agree(q) && q.batch != []
    requires Live(q, id) ==> InBatch(q, id.timer) && id in q.canceling
    ensures var r := ResetOne(q); Live(r, id) ==> InBatch(r, id.timer) && id in r.canceling
  {
    var r := ResetOne(q);
    BatchHead(q);
    if Live(r, id) && id.timer != q.batch[0].timer {
      assert EntryOf(r, id.timer) == EntryOf(q, id.timer);
      assert EntryOf(q, id.timer) in q.batch[1..];
    }
  }

  /** Resetting the batch: a marked timer is gone afterwards, a dead id stays dead. */
  lemma {:induction false} ResetAllBuries(q: Queue, id: Id)
    requires Agree(q)
    requires Live(q, id) ==> InBatch(q, id.timer) && id in q.canceling
    ensures !Live(ResetAll(q), id)
    decreases |q.batch|
  {
    if q.batch != [] {
      ResetOneKeeps(q);
      ResetOneBuries(q, id);
      ResetAllBuries(ResetOne(q), id);
    }
  }

  lemma {:induction false} ResetAllLog(q: Queue)
    ensures var r := ResetAll(q); r.log == q.log && r.created == q.created && r.calling == q.calling
    ensures ResetAll(q).batch == []
    decreases |q.batch|
  {
    if q.batch != [] {
      ResetAllLog(ResetOne(q));
    }
  }

  lemma RunStep(q: Queue, id: Id)
    requires Inv(q) && q.ran < |q.batch| && q.batch[q.ran].timer in q.heap
    ensures var r := RunOne(q);
            Count(r.log, id) + Left(r, id) == Count(q.log, id) + Left(q, id)
  {
    var r, x := RunOne(q), IdOf(q, q.batch[q.ran].timer);
    CountPush(q.log, x, id);
    assert q.batch[q.ran..] == [q.batch[q.ran]] + q.batch[q.ran + 1..];
    assert q.batch[q.ran] in q.batch && q.batch[q.ran] == EntryOf(q, x.timer);
    if x == id {
      assert q.batch[q.ran] !in q.batch[q.ran + 1..];
    }
  }

  lemma FinishStep(q: Queue, clock: Clock, id: Id)
    requires Inv(q) && q.calling && q.ran == |q.batch| && Doomed(q, id)
    ensures var r := FinishBatch(q, clock);
            Doomed(r, id) && r.log == q.log && Left(r, id) == 0
  {
    var p := q.(calling := false, ran := 0);
    FlagsKeep(q, p);
    ResetAllBuries(p, id);
    ResetAllLog(p);
    ResetAllKeeps(p);
  }

  lemma AddStep(q: Queue, a: Addr, clock: Clock, id: Id)
    requires Inv(q) && Doomed(q, id) && a in q.inflight && a in q.heap
    ensures var r := AddTimer(q, a, clock);
            Doomed(r, id) && r.log == q.log && Left(r, id) == Left(q, id)
  {
    var r := AddTimer(q, a, clock);
    assert r.heap == q.heap && r.batch == q.batch && r.ran == q.ran;
  }

  lemma CancelStep(q: Queue, other: Id, id: Id)
    requires Inv(q) && Doomed(q, id)
    ensures var r := Cancel(q, other);
            Doomed(r, id) && r.log == q.log && Left(r, id) <= Left(q, id)
  {
    if other in q.active {
      CancelErases(q, other);
    }
  }

  lemma CreateStep(q: Queue, step: Step, id: Id)
    requires Inv(q) && Doomed(q, id) && step.Create? && Next(q, step).Some?
    ensures var r := Next(q, step).value;
            Doomed(r, id) && r.log == q.log && Left(r, id) == Left(q, id)
  {
  }

  /** Each step keeps a cancelled timer cancelled, and a run of its callback uses
      up the one it may have had left. */
  lemma StepDoomed(q: Queue, step: Step, id: Id)
    requires Inv(q) && Doomed(q, id) && Next(q, step).Some?
    ensures var r := Next(q, step).value;
            Doomed(r, id) && Count(r.log, id) + Left(r, id) <= Count(q.log, id) + Left(q, id)
  {
    match step
    case Create(_, _, _, _) => CreateStep(q, step, id);
    case AddInLoop(a, clock) => AddStep(q, a, clock, id);
    case CancelInLoop(other) => CancelStep(q, other, id);
    case BeginRead(_) =>
    case RunNext => RunStep(q, id);
    case EndRead(clock) => FinishStep(q, clock, id);
  }

  lemma {:induction false} RunDoomed(q: Queue, steps: seq<Step>, id: Id)
    requires Inv(q) && Doomed(q, id) && RunFrom(q, steps).Some?
    ensures var r := RunFrom(q, steps).value;
            Inv(r) && Doomed(r, id) && Count(r.log, id) + Left(r, id) <= Count(q.log, id) + Left(q, id)
    decreases |steps|
  {
    if steps != [] {
      StepKeeps(q, steps[0]);
      StepDoomed(q, steps[0], id);
      RunDoomed(Next(q, steps[0]).value, steps[1..], id);
    }
  }

  /** In any run, after an inserted timer is cancelled its callback runs at most
      once more, and not at all unless it was waiting in the current batch. */
  lemma CancellationIsSafe(before: seq<Step>, id: Id, after: seq<Step>)
    requires RunFrom(Empty, before).Some?
    requires var q := RunFrom(Empty, before).value;
             Live(q, id) && id.timer !in q.inflight && !q.aborted && RunFrom(Cancel(q, id), after).Some?
    ensures var q := RunFrom(Empty, before).value; var r := RunFrom(Cancel(q, id), after).value;
            && Count(r.log, id) <= Count(q.log, id) + Left(q, id)
            && (id in q.active ==> Count(r.log, id) == Count(q.log, id))
  {
    var q := RunFrom(Empty, before).value;
    SetsAlwaysAgree(before);
    CancelKeeps(q, id);
    CancelDooms(q, id);
    RunDoomed(Cancel(q, id), after, id);
    LogGrows(Cancel(q, id), after, id);
  }

  /** And once that batch has ended, or if there was none, it never runs again. */
  lemma CancelledForEver(before: seq<Step>, id: Id, middle: seq<Step>, after: seq<Step>)
    requires RunFrom(Empty, before).Some?
    requires var q := RunFrom(Empty, before).value;
             && Live(q, id) && id.timer !in q.inflight && !q.aborted && RunFrom(Cancel(q, id), middle).Some?
             && var m := RunFrom(Cancel(q, id), middle).value; !m.calling && RunFrom(m, after).Some?
    ensures var m := RunFrom(Cancel(RunFrom(Empty, before).value, id), middle).value;
            Count(RunFrom(m, after).value.log, id) == Count(m.log, id)
  {
    var q := RunFrom(Empty, before).value;
    var m := RunFrom(Cancel(q, id), middle).value;
    SetsAlwaysAgree(before);
    CancelKeeps(q, id);
    CancelDooms(q, id);
    RunDoomed(Cancel(q, id), middle, id);
    RunDoomed(m, after, id);
    LogGrows(m, after, id);
  }

  /** A cancel of a live timer takes effect exactly when the timer has been inserted;
      one still in flight stays so, and the cancel is lost. */
  lemma CancelLostExactly(before: seq<Step>, id: Id)
    requires RunFrom(Empty, before).Some? && Live(RunFrom(Empty, before).value, id)
    ensures var q := RunFrom(Empty, before).value; var r := Cancel(q, id);
            && (Doomed(r, id) <==> id.timer !in q.inflight)
            && (id.timer in q.inflight ==> r == q || r == q.(canceling := q.canceling + {id}))
  {
    var q := RunFrom(Empty, before).value;
    SetsAlwaysAgree(before);
    if id.timer in q.inflight {
      assert id !in q.active && !InBatch(q, id.timer);
      assert Live(Cancel(q, id), id) && !InBatch(Cancel(q, id), id.timer);
    } else {
      CancelDooms(q, id);
    }
  }

  /** Its callback runs all the same. */
  lemma LostCancelRuns(a: Addr, when: Clock, interval: nat, repeat: bool, clock: Clock, now: Clock)
    requires clock < when <= now
    ensures var r := RunFrom(Empty, [Create(a, when, interval, repeat), CancelInLoop(Id(a, 1)),
                                     AddInLoop(a, clock), BeginRead(now), RunNext]);
            r.Some? && r.value.log == [Id(a, 1)]
  {
    var s := [Create(a, when, interval, repeat), CancelInLoop(Id(a, 1)), AddInLoop(a, clock), BeginRead(now), RunNext];
    var q1 := Next(Empty, s[0]).value;
    var q3 := Next(q1, s[2]).value;
    assert Next(q1, s[1]) == Some(q1);
    assert q3.timers == [Entry(when, a)] && !q3.aborted by {
      assert Insert([], Entry(when, a)) == [Entry(when, a)];
    }
    AloneExpires(q3, a, now);
    assert s == [s[0]] + s[1..] && s[1..] == [s[1]] + s[2..] && s[2..] == [s[2]] + s[3..];
    RunFromCons(Empty, s[0], s[1..]);
    RunFromCons(q1, s[1], s[2..]);
    RunFromCons(q1, s[2], s[3..]);
    assert s[3..] == [BeginRead(now), RunNext];
  }

  lemma AloneExpires(q: Queue, a: Addr, now: Clock)
    requires a in q.heap && q.timers == [EntryOf(q, a)] && q.heap[a].expiration <= now && !q.calling && !q.aborted
    ensures var r := RunFrom(q, [BeginRead(now), RunNext]);
            r.Some? && r.value.log == q.log + [IdOf(q, a)]
  {
    var q1 := Next(q, BeginRead(now)).value;
    assert q1.batch == [EntryOf(q, a)];
    RunFromCons(q1, RunNext, []);
    assert [RunNext] + [] == [RunNext];
    RunFromCons(q, BeginRead(now), [RunNext]);
    assert [BeginRead(now)] + [RunNext] == [BeginRead(now), RunNext];
  }

  lemma {:induction false} LogGrows(q: Queue, steps: seq<Step>, id: Id)
    requires RunFrom(q, steps).Some?
    ensures Count(q.log, id) <= Count(RunFrom(q, steps).value.log, id)
    decreases |steps|
  {
    if steps != [] {
      var r := Next(q, steps[0]).value;
      if steps[0].EndRead? {
        ResetAllLog(q.(calling := false, ran := 0));
      }
      LogGrows(r, steps[1..], id);
    }
  }

  /** Where a timer is: nowhere, created, scheduled, or in the batch. */
  datatype Place = Gone | Inflight | InQueue(when: Timestamp) | Expired(when: Timestamp)

  ghost function PlaceOf(q: Queue, id: Id): (r: Place) {
    if !Live(q, id) then Gone
    else if id.timer in q.inflight then Inflight
    else if Scheduled(q, id.timer) then InQueue(q.heap[id.timer].expiration)
    else Expired(q.heap[id.timer].expiration)
  }

  /** Cancelling one id leaves every other timer where it was and unmarked; a stale
      id leaves all of them so, whoever lives at its address now. */
  lemma CancelTouchesOnly(q: Queue, id: Id, other: Id)
    requires Inv(q) && id != other
    ensures var r := Cancel(q, id);
            PlaceOf(r, other) == PlaceOf(q, other) && (other in r.canceling <==> other in q.canceling)
  {
    if id in q.active {
      CancelErases(q, id);
    }
  }

  /** While a batch is being run, the log ends with its entries run so far, in the
      order of their expirations. */
  ghost predicate LogEndsWithBatch(q: Queue) {
    q.calling ==>
      && q.ran <= |q.log| && q.ran <= |q.batch|
      && forall k :: 0 <= k < q.ran ==>
           q.batch[k].timer in q.heap && q.log[|q.log| - q.ran + k] == IdOf(q, q.batch[k].timer)
  }

  lemma CancelLogs(q: Queue, id: Id)
    requires Inv(q) && LogEndsWithBatch(q)
    ensures LogEndsWithBatch(Cancel(q, id))
  {
    if q.calling && id in q.active {
      forall k | 0 <= k < q.ran ensures q.batch[k].timer != id.timer {
        assert q.batch[k] in q.batch && Scheduled(q, id.timer);
      }
    }
  }

  lemma AddLogs(q: Queue, a: Addr, clock: Clock)
    requires LogEndsWithBatch(q) && a in q.heap
    ensures LogEndsWithBatch(AddTimer(q, a, clock))
  {
    var r := AddTimer(q, a, clock);
    assert r.heap == q.heap && r.batch == q.batch && r.ran == q.ran && r.log == q.log;
  }

  lemma CreateLogs(q: Queue, a: Addr, t: Timer, r: Queue)
    requires LogEndsWithBatch(q) && a !in q.heap && r.heap == q.heap[a := t]
    requires r.batch == q.batch && r.ran == q.ran && r.log == q.log && r.calling == q.calling
    ensures LogEndsWithBatch(r)
  {
  }

  lemma RunLogs(q: Queue)
    requires LogEndsWithBatch(q) && q.ran < |q.batch| && q.batch[q.ran].timer in q.heap
    ensures LogEndsWithBatch(RunOne(q))
  {
  }

  lemma StepLogs(q: Queue, step: Step)
    requires Inv(q) && LogEndsWithBatch(q) && Next(q, step).Some?
    ensures LogEndsWithBatch(Next(q, step).value)
  {
    var r := Next(q, step).value;
    match step
    case Create(a, _, _, _) => CreateLogs(q, a, r.heap[a], r);
    case AddInLoop(a, clock) => AddLogs(q, a, clock);
    case CancelInLoop(id) => CancelLogs(q, id);
    case BeginRead(_) =>
    case RunNext => RunLogs(q);
    case EndRead(_) => ResetAllLog(q.(calling := false, ran := 0));
  }

  /** Every run logs its batches in order; and a callback still waiting in the
      batch can always be run, its timer not having been deleted under it. */
  lemma BatchesRunInOrder(steps: seq<Step>)
    requires RunFrom(Empty, steps).Some?
    ensures var q := RunFrom(Empty, steps).value;
            && LogEndsWithBatch(q)
            && (q.calling && !q.aborted && q.ran < |q.batch| ==> Next(q, RunNext).Some?)
  {
    forall q, l | (Inv(q) && LogEndsWithBatch(q)) && Next(q, l).Some?
      ensures Inv(Next(q, l).value) && LogEndsWithBatch(Next(q, l).value)
    {
      StepKeeps(q, l);
      StepLogs(q, l);
    }
    RunKeeps((p: Queue, l: Step) => Next(p, l), (p: Queue) => Inv(p) && LogEndsWithBatch(p), Empty, steps);
    var q := RunFrom(Empty, steps).value;
    assert q.ran < |q.batch| ==> q.batch[q.ran] in q.batch;
  }
}
