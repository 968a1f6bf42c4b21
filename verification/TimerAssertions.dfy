/** The assertions of the timer queue, step by step, and that none of them fails. */
module TimerAssertions {
  import opened Runs
  import opened Timers
  import opened TimerTheorems

  /** Distinct scheduled timers have distinct ids. */
  lemma {:induction false} CountIds(q: Queue, s: seq<Entry>)
    requires forall i, j :: 0 <= i < j < |s| ==> s[i].timer != s[j].timer
    requires forall e :: e in s ==> e.timer in q.heap
    ensures |IdsOf(q, s)| == |s|
  {
    if s != [] {
      var front, last := s[..|s| - 1], s[|s| - 1];
      CountIds(q, front);
      var id := Id(last.timer, q.heap[last.timer].sequence);
      assert IdsOf(q, s) == IdsOf(q, front) + {id};
      assert forall e :: e in front ==> e.timer != last.timer;
      assert id !in IdsOf(q, front);
    }
  }

  /** The two sets have the same size whenever they agree. */
  lemma SizesAgree(q: Queue)
    requires Agree(q)
    ensures |q.timers| == |q.active| && q.active == IdsOf(q, q.timers)
  {
    forall i, j | 0 <= i < j < |q.timers| ensures q.timers[i].timer != q.timers[j].timer {
      assert q.timers[i] in q.timers && q.timers[j] in q.timers && Less(q.timers[i], q.timers[j]);
    }
    CountIds(q, q.timers);
    forall id ensures id in q.active <==> id in IdsOf(q, q.timers) {
      if id in q.active { assert EntryOf(q, id.timer) in q.timers; }
    }
    assert q.active == IdsOf(q, q.timers);
  }

  predicate SameSize(q: Queue) {
    |q.timers| == |q.active|
  }

  /** `cancelInLoop`: the sizes before and after, and exactly one entry erased. */
  predicate CancelAsserts(q: Queue, id: Id) {
    && SameSize(q) && SameSize(Cancel(q, id))
    && (id in q.active ==> id.timer in q.heap && EntryOf(q, id.timer) in q.timers)
  }

  /** `insert`: the sizes before and after, and both insertions new. */
  predicate InsertAsserts(q: Queue, a: Addr) {
    && SameSize(q) && a in q.heap && SameSize(InsertTimer(q, a))
    && EntryOf(q, a) !in q.timers && IdOf(q, a) !in q.active
  }

  /** `getExpired`: the sizes before and after, the end of the split, and each id erased
      present when its turn comes. */
  ghost predicate ExpireAsserts(q: Queue, now: Clock) {
    var n := ExpiredCount(q.timers, now);
    && SameSize(q) && SameSize(GetExpired(q, now))
    && (n == |q.timers| || now < q.timers[n].when)
    && forall k :: 0 <= k < n ==> ErasesNext(q, k)
  }

  ghost predicate ErasesNext(q: Queue, k: nat)
    requires k < |q.timers|
  {
    && q.timers[k].timer in q.heap
    && Id(q.timers[k].timer, q.heap[q.timers[k].timer].sequence) in q.active - IdsOf(q, q.timers[..k])
  }

  /** The first timer of the batch, restarted. */
  function Restarted(q: Queue): (r: Timer)
    requires q.batch != [] && q.batch[0].timer in q.heap
  {
    q.heap[q.batch[0].timer].(expiration := q.readTime + q.heap[q.batch[0].timer].interval)
  }

  predicate FirstAsserts(q: Queue)
    requires q.batch != []
  {
    var a := q.batch[0].timer;
    a in q.heap && (q.heap[a].repeat && IdOf(q, a) !in q.canceling ==> InsertAsserts(Taken(q, Restarted(q)), a))
  }

  /** `reset`: every timer of the batch exists, and each one restarted can be inserted. */
  ghost predicate ResetAsserts(q: Queue)
    decreases |q.batch|
  {
    q.batch == [] || (FirstAsserts(q) && ResetAsserts(ResetOne(q)))
  }

  /** The assertions evaluated in a step. */
  ghost predicate AssertionsHold(q: Queue, step: Step) {
    match step
    case Create(_, _, _, _) => true
    case AddInLoop(a, _) => InsertAsserts(q, a)
    case CancelInLoop(id) => CancelAsserts(q, id)
    case BeginRead(now) => ExpireAsserts(q, now)
    case RunNext => true
    case EndRead(_) => ResetAsserts(q.(calling := false, ran := 0))
  }

  lemma InsertHolds(q: Queue, a: Addr)
    requires Agree(q) && a in q.inflight && a in q.heap
    ensures InsertAsserts(q, a)
  {
    var p := q.(inflight := q.inflight - {a});
    assert p.(inflight := p.inflight + {a}) == q;
    assert !Scheduled(q, a);
    InsertAgrees(p, a);
    SizesAgree(q);
    SizesAgree(InsertTimer(p, a));
    assert InsertTimer(p, a).timers == InsertTimer(q, a).timers && InsertTimer(p, a).active == InsertTimer(q, a).active;
  }

  lemma CancelHolds(q: Queue, id: Id)
    requires Inv(q)
    ensures CancelAsserts(q, id)
  {
    CancelKeeps(q, id);
    SizesAgree(q);
    SizesAgree(Cancel(q, id));
  }

  lemma ExpireHolds(q: Queue, now: Clock)
    requires Inv(q) && !q.calling
    ensures ExpireAsserts(q, now)
  {
    var n, r := ExpiredCount(q.timers, now), StartBatch(q, now);
    assert forall e :: e in q.timers ==> e.timer < UINTPTR_MAX;
    ExpiredSplit(q.timers, now);
    StartKeeps(q, now);
    SizesAgree(q);
    SizesAgree(r);
    forall k | 0 <= k < n ensures ErasesNext(q, k) {
      NotErasedYet(q, k);
    }
  }

  lemma NotErasedYet(q: Queue, k: nat)
    requires Agree(q) && k < |q.timers| && q.active == IdsOf(q, q.timers)
    ensures ErasesNext(q, k)
  {
    var e := q.timers[k];
    assert e in q.timers;
    var id := Id(e.timer, q.heap[e.timer].sequence);
    assert id in IdsOf(q, q.timers);
    forall d | d in q.timers[..k] ensures d.timer != e.timer {
      var i :| 0 <= i < k && q.timers[i] == d;
      assert Less(q.timers[i], e) && d in q.timers;
    }
    assert id !in IdsOf(q, q.timers[..k]);
  }

  lemma FirstHolds(q: Queue)
    requires Agree(q) && q.batch != []
    ensures FirstAsserts(q)
  {
    BatchHead(q);
    TakeFromBatch(q, Restarted(q));
    InsertHolds(Taken(q, Restarted(q)), q.batch[0].timer);
  }

  lemma {:induction false} ResetHolds(q: Queue)
    requires Agree(q)
    ensures ResetAsserts(q)
    decreases |q.batch|
  {
    if q.batch != [] {
      FirstHolds(q);
      ResetOneKeeps(q);
      ResetHolds(ResetOne(q));
    }
  }

  lemma StepHolds(q: Queue, step: Step)
    requires Inv(q) && Next(q, step).Some?
    ensures AssertionsHold(q, step)
  {
    match step
    case Create(_, _, _, _) =>
    case AddInLoop(a, _) => InsertHolds(q, a);
    case CancelInLoop(id) => CancelHolds(q, id);
    case BeginRead(now) => ExpireHolds(q, now);
    case RunNext =>
    case EndRead(_) => FinishHolds(q);
  }

  lemma FinishHolds(q: Queue)
    requires Agree(q)
    ensures ResetAsserts(q.(calling := false, ran := 0))
  {
    FlagsKeep(q, q.(calling := false, ran := 0));
    ResetHolds(q.(calling := false, ran := 0));
  }

  /** In every run both sets have the same size, and whatever step comes next, every
      assertion it evaluates holds. */
  lemma NoAssertionFails(steps: seq<Step>, step: Step)
    requires RunFrom(Empty, steps).Some?
    ensures var q := RunFrom(Empty, steps).value;
            |q.timers| == |q.active| && (Next(q, step).Some? ==> AssertionsHold(q, step))
  {
    SetsAlwaysAgree(steps);
    var q := RunFrom(Empty, steps).value;
    SizesAgree(q);
    if Next(q, step).Some? {
      StepHolds(q, step);
    }
  }
}
