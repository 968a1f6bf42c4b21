/** What holds in every run of the timer queue. */
module TimerTheorems {
  import opened Runs
  import opened Timers

  lemma CreateKeeps(q: Queue, step: Step)
    requires Inv(q) && step.Create? && Next(q, step).Some?
    ensures Inv(Next(q, step).value)
  {
    var r := Next(q, step).value;
    forall a | a in q.heap ensures EntryOf(r, a) == EntryOf(q, a) && IdOf(r, a) == IdOf(q, a) {}
  }

  lemma TimerfdKeeps(q: Queue, deadline: Timestamp, clock: Clock)
    requires Inv(q)
    ensures Inv(ResetTimerfd(q, deadline, clock))
  {
    var r := ResetTimerfd(q, deadline, clock);
    assert forall a :: Scheduled(r, a) == Scheduled(q, a) && InBatch(r, a) == InBatch(q, a);
    assert forall id :: Live(r, id) == Live(q, id);
  }

  /** A timer that is nowhere goes into both sets. */
  lemma InsertAgrees(q: Queue, a: Addr)
    requires a in q.heap && a !in q.inflight
    requires Agree(q.(inflight := q.inflight + {a}))
    ensures Agree(InsertTimer(q, a))
  {
    var p, r, e := q.(inflight := q.inflight + {a}), InsertTimer(q, a), EntryOf(q, a);
    assert !Scheduled(p, a) && !InBatch(p, a);
    InsertSorted(q.timers, e);
    forall b ensures InBatch(r, b) == InBatch(p, b) && (Scheduled(r, b) <==> Scheduled(p, b) || b == a) {
      if b in q.heap { assert EntryOf(r, b) == EntryOf(p, b); }
    }
    assert forall id :: Live(r, id) == Live(p, id);
  }

  lemma AddKeeps(q: Queue, a: Addr, clock: Clock)
    requires Inv(q) && a in q.inflight && a in q.heap
    ensures Inv(AddTimer(q, a, clock))
  {
    var r := q.(inflight := q.inflight - {a});
    assert r.(inflight := r.inflight + {a}) == q;
    InsertAgrees(r, a);
    TimerfdKeeps(InsertTimer(r, a), q.heap[a].expiration, clock);
  }

  lemma CancelErases(q: Queue, id: Id)
    requires Agree(q) && id in q.active
    ensures var r := Cancel(q, id);
            && Sorted(r.timers)
            && (forall e :: e in r.timers <==> e in q.timers && e.timer != id.timer)
            && (forall b :: b != id.timer ==> InBatch(r, b) == InBatch(q, b) && Scheduled(r, b) == Scheduled(q, b))
  {
    var r := Cancel(q, id);
    EraseSorted(q.timers, EntryOf(q, id.timer));
    forall b | b != id.timer && b in q.heap ensures EntryOf(r, b) == EntryOf(q, b) {}
  }

  lemma CancelActiveAgrees(q: Queue, id: Id)
    requires Agree(q) && id in q.active
    ensures Agree(Cancel(q, id))
  {
    var r := Cancel(q, id);
    CancelErases(q, id);
    assert KeysMatch(r) by {
      assert forall e :: e in q.batch ==> e.timer != id.timer;
    }
    assert SetsMatch(r) by {
      forall i ensures i in r.active <==> Live(r, i) && Scheduled(r, i.timer) {}
    }
  }

  lemma CancelKeeps(q: Queue, id: Id)
    requires Inv(q)
    ensures Inv(Cancel(q, id))
  {
    if id in q.active {
      CancelActiveAgrees(q, id);
    } else {
      var r := Cancel(q, id);
      assert forall a :: Scheduled(r, a) == Scheduled(q, a) && InBatch(r, a) == InBatch(q, a);
      assert forall i :: Live(r, i) == Live(q, i);
    }
  }

  /** The split is exact and in order: what is taken has expired, what stays has not. */
  lemma ExpiredSplit(timers: seq<Entry>, now: Clock)
    requires Sorted(timers) && forall e :: e in timers ==> e.timer < UINTPTR_MAX
    ensures var n := ExpiredCount(timers, now);
            && (forall i :: 0 <= i < n ==> timers[i].when <= now)
            && (forall i :: n <= i < |timers| ==> now < timers[i].when)
            && Sorted(timers[..n]) && Sorted(timers[n..])
  {
    var n := ExpiredCount(timers, now);
    if n < |timers| {
      assert timers[n] in timers;
    }
  }

  lemma SplitMembers(timers: seq<Entry>, n: nat)
    requires Sorted(timers) && n <= |timers|
    ensures forall e :: e in timers <==> e in timers[..n] || e in timers[n..]
    ensures forall e :: !(e in timers[..n] && e in timers[n..])
  {
    assert timers == timers[..n] + timers[n..];
  }

  lemma StartKeeps(q: Queue, now: Clock)
    requires Inv(q) && !q.calling
    ensures Inv(StartBatch(q, now))
  {
    var n, r := ExpiredCount(q.timers, now), StartBatch(q, now);
    assert forall e :: e in q.timers ==> e.timer < UINTPTR_MAX;
    ExpiredSplit(q.timers, now);
    SplitMembers(q.timers, n);
    StartPlaces(q, r);
  }

  lemma StartPlaces(q: Queue, r: Queue)
    requires Agree(q) && q.batch == []
    requires Sorted(r.timers) && Sorted(r.batch)
    requires q.heap == r.heap && q.inflight == r.inflight && q.created == r.created
    requires forall e :: e in q.timers <==> e in r.timers || e in r.batch
    requires forall e :: !(e in r.timers && e in r.batch)
    requires r.active == q.active - IdsOf(q, r.batch)
    ensures Agree(r)
  {
    forall b ensures (Scheduled(q, b) <==> Scheduled(r, b) || InBatch(r, b)) && !(Scheduled(r, b) && InBatch(r, b)) {}
    assert SetsMatch(r) by {
      forall i ensures i in r.active <==> Live(r, i) && Scheduled(r, i.timer) {
        if i in q.active {
          assert i in IdsOf(q, r.batch) <==> InBatch(r, i.timer);
        }
      }
    }
  }

  /** The first timer taken off the batch, with a new expiration. */
  function Taken(q: Queue, t: Timer): (r: Queue)
    requires q.batch != [] && q.batch[0].timer in q.heap
  {
    var a := q.batch[0].timer;
    q.(batch := q.batch[1..], heap := q.heap[a := t], inflight := q.inflight + {a})
  }

  lemma TakenPlaces(q: Queue, t: Timer)
    requires Agree(q) && q.batch != [] && q.batch[0].timer in q.heap
    ensures var a, p := q.batch[0].timer, Taken(q, t);
            && Sorted(p.batch) && KeysMatch(p) && !Scheduled(p, a) && !InBatch(p, a)
            && (forall b :: b != a ==> Scheduled(p, b) == Scheduled(q, b) && InBatch(p, b) == InBatch(q, b))
  {
    var a, p := q.batch[0].timer, Taken(q, t);
    BatchHead(q);
    forall b | b != a ensures Scheduled(p, b) == Scheduled(q, b) && InBatch(p, b) == InBatch(q, b) {
      if b in q.heap { assert EntryOf(p, b) == EntryOf(q, b); }
    }
  }

  lemma TakeFromBatch(q: Queue, t: Timer)
    requires Agree(q) && q.batch != [] && q.batch[0].timer in q.heap
    requires t.sequence == q.heap[q.batch[0].timer].sequence
    ensures Agree(Taken(q, t))
  {
    var a, p := q.batch[0].timer, Taken(q, t);
    BatchHead(q);
    TakenPlaces(q, t);
    assert OnePlace(p);
    TakenMatches(q, p);
  }

  lemma TakenMatches(q: Queue, p: Queue)
    requires SetsMatch(q) && p.active == q.active
    requires forall i :: Live(p, i) == Live(q, i)
    requires forall i: Id :: i in q.active ==> Scheduled(p, i.timer)
    requires forall b :: Scheduled(p, b) ==> Scheduled(q, b)
    ensures SetsMatch(p)
  {
  }

  /** A timer that is in neither set nor the batch can be deleted. */
  lemma DeleteAgrees(q: Queue, a: Addr)
    requires a in q.heap && a !in q.inflight && Agree(q.(inflight := q.inflight + {a}))
    ensures Agree(q.(heap := q.heap - {a}))
  {
    var p, r := q.(inflight := q.inflight + {a}), q.(heap := q.heap - {a});
    assert !Scheduled(p, a) && !InBatch(p, a);
    forall b ensures Scheduled(r, b) == Scheduled(p, b) && InBatch(r, b) == InBatch(p, b) {
      if b in r.heap { assert EntryOf(r, b) == EntryOf(p, b); }
    }
    assert forall i: Id :: i.timer != a ==> Live(r, i) == Live(p, i);
  }

  lemma BatchHead(q: Queue)
    requires Agree(q) && q.batch != []
    ensures var a := q.batch[0].timer;
            && a in q.heap && InBatch(q, a) && !Scheduled(q, a) && a !in q.inflight
            && (forall e :: e in q.batch[1..] <==> e in q.batch && e.timer != a)
            && (forall e :: e in q.timers ==> e.timer != a)
            && (forall i :: i in q.active ==> i.timer != a)
            && Sorted(q.batch[1..])
  {
    var a := q.batch[0].timer;
    assert q.batch[0] in q.batch && EntryOf(q, a) == q.batch[0];
    assert q.batch == [q.batch[0]] + q.batch[1..];
    forall e | e in q.timers ensures e.timer != a {
      assert Scheduled(q, e.timer);
    }
  }

  lemma ResetOneKeeps(q: Queue)
    requires Agree(q) && q.batch != []
    ensures Agree(ResetOne(q))
  {
    var a := q.batch[0].timer;
    BatchHead(q);
    ResetOneIs(q);
    if q.heap[a].repeat && IdOf(q, a) !in q.canceling {
      RestartKeeps(q, q.heap[a].(expiration := q.readTime + q.heap[a].interval));
    } else {
      DropKeeps(q);
    }
  }

  lemma ResetOneIs(q: Queue)
    requires q.batch != [] && q.batch[0].timer in q.heap
    ensures var a := q.batch[0].timer;
            ResetOne(q) ==
              if q.heap[a].repeat && IdOf(q, a) !in q.canceling then
                InsertTimer(q.(batch := q.batch[1..],
                               heap := q.heap[a := q.heap[a].(expiration := q.readTime + q.heap[a].interval)]), a)
              else q.(batch := q.batch[1..], heap := q.heap - {a})
  {
  }

  lemma DropKeeps(q: Queue)
    requires Agree(q) && q.batch != [] && q.batch[0].timer in q.heap
    ensures Agree(q.(batch := q.batch[1..], heap := q.heap - {q.batch[0].timer}))
  {
    var a := q.batch[0].timer;
    BatchHead(q);
    TakeFromBatch(q, q.heap[a]);
    assert q.heap[a := q.heap[a]] == q.heap;
    DeleteAgrees(q.(batch := q.batch[1..]), a);
  }

  lemma RestartKeeps(q: Queue, t: Timer)
    requires Agree(q) && q.batch != [] && q.batch[0].timer in q.heap
    requires t.sequence == q.heap[q.batch[0].timer].sequence
    ensures var a := q.batch[0].timer;
            a !in q.inflight && Agree(InsertTimer(q.(batch := q.batch[1..], heap := q.heap[a := t]), a))
  {
    BatchHead(q);
    TakeFromBatch(q, t);
    InsertAgrees(q.(batch := q.batch[1..], heap := q.heap[q.batch[0].timer := t]), q.batch[0].timer);
  }

  lemma {:induction false} ResetAllKeeps(q: Queue)
    requires Agree(q) && q.ran == 0 && !q.calling
    ensures Inv(ResetAll(q))
    ensures var r := ResetAll(q); !r.calling && r.inflight == q.inflight && r.created == q.created
    decreases |q.batch|
  {
    if q.batch != [] {
      ResetOneKeeps(q);
      ResetAllKeeps(ResetOne(q));
    }
  }

  lemma FlagsKeep(q: Queue, r: Queue)
    requires Agree(q)
    requires r.heap == q.heap && r.timers == q.timers && r.batch == q.batch && r.active == q.active
    requires r.inflight == q.inflight && r.created == q.created
    ensures Agree(r)
  {
    assert forall a :: Scheduled(r, a) == Scheduled(q, a) && InBatch(r, a) == InBatch(q, a);
    assert forall id :: Live(r, id) == Live(q, id);
  }

  lemma FinishKeeps(q: Queue, clock: Clock)
    requires Inv(q) && q.ran == |q.batch|
    ensures Inv(FinishBatch(q, clock))
  {
    var p := q.(calling := false, ran := 0);
    FlagsKeep(q, p);
    ResetAllKeeps(p);
    var r := ResetAll(p);
    TimerfdKeeps(r, NextExpire(r), clock);
  }

  lemma StepKeeps(q: Queue, step: Step)
    requires Inv(q) && Next(q, step).Some?
    ensures Inv(Next(q, step).value)
  {
    match step
    case Create(_, _, _, _) => CreateKeeps(q, step);
    case AddInLoop(a, clock) => AddKeeps(q, a, clock);
    case CancelInLoop(id) => CancelKeeps(q, id);
    case BeginRead(now) => StartKeeps(q, now);
    case RunNext => FlagsKeep(q, RunOne(q));
    case EndRead(clock) => FinishKeeps(q, clock);
  }

  ghost function RunFrom(q: Queue, steps: seq<Step>): (r: Option<Queue>) {
    Run((p: Queue, l: Step) => Next(p, l), q, steps)
  }

  lemma RunFromCons(q: Queue, l: Step, rest: seq<Step>)
    requires Next(q, l).Some?
    ensures RunFrom(q, [l] + rest) == RunFrom(Next(q, l).value, rest)
    ensures RunFrom(q, []) == Some(q)
  {
    assert ([l] + rest)[1..] == rest;
  }

  /** In every run the two timer sets agree and each timer is in one place. */
  lemma SetsAlwaysAgree(steps: seq<Step>)
    requires RunFrom(Empty, steps).Some?
    ensures Inv(RunFrom(Empty, steps).value)
  {
    forall q, l | Inv(q) && Next(q, l).Some? ensures Inv(Next(q, l).value) {
      StepKeeps(q, l);
    }
    RunKeeps((p: Queue, l: Step) => Next(p, l), (p: Queue) => Inv(p), Empty, steps);
  }
}
