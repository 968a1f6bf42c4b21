/** The timer queue against the steps of its run: timers are what was asked for, due
    ones are taken, and repeating ones come back at their interval. */
module TimerTraces {
  import opened Runs
  import opened Timers
  import opened TimerTheorems
  import opened TimerCancellation

  /** The requests for timers in a run's steps, in order. */
  function Requests(steps: seq<Step>): (r: seq<Step>)
    ensures forall i :: 0 <= i < |r| ==> r[i].Create?
  {
    if steps == [] then []
    else Requests(Front(steps)) + (if Last(steps).Create? then [Last(steps)] else [])
  }

  /** When the last batch was read. */
  function LastRead(steps: seq<Step>): (r: Option<Clock>) {
    if steps == [] then None
    else if Last(steps).BeginRead? then Some(Last(steps).now)
    else LastRead(Front(steps))
  }

  /** The ids whose cancel was run since the last batch was read. */
  function CancelledSince(steps: seq<Step>): (r: set<Id>) {
    if steps == [] then {}
    else
      match Last(steps)
      case BeginRead(_) => {}
      case CancelInLoop(id) => CancelledSince(Front(steps)) + {id}
      case _ => CancelledSince(Front(steps))
  }

  /** The timer is what request `c` asked for, its deadline too until it has been run. */
  predicate AsRequested(q: Queue, id: Id, c: Step)
    requires c.Create? && Live(q, id)
  {
    var t := q.heap[id.timer];
    && c.timer == id.timer && t.interval == c.interval && t.repeat == c.repeat
    && (id !in q.log ==> t.expiration == c.when)
  }

  /** Among the live, a mark is for those cancelled since the batch was read, and for these only. */
  ghost predicate MarksTraced(q: Queue, steps: seq<Step>) {
    && q.canceling <= CancelledSince(steps)
    && (q.calling ==>
          forall id :: id in CancelledSince(steps) ==>
            id in q.canceling || (id.sequence <= q.created && !Live(q, id)))
  }

  ghost predicate Traced(q: Queue, steps: seq<Step>) {
    && q.created == |Requests(steps)|
    && (forall id :: Live(q, id) ==>
          1 <= id.sequence <= |Requests(steps)| && AsRequested(q, id, Requests(steps)[id.sequence - 1]))
    && MarksTraced(q, steps)
    && (q.calling ==> LastRead(steps) == Some(q.readTime))
  }

  // ----- What the end of a batch does to each timer

  /** A timer that is not in the batch is left alone. */
  lemma {:induction false} ResetAllOthers(q: Queue, a: Addr)
    requires Agree(q) && a in q.heap && !InBatch(q, a)
    ensures var r := ResetAll(q); a in r.heap && r.heap[a] == q.heap[a]
    ensures Scheduled(q, a) ==> Scheduled(ResetAll(q), a)
    decreases |q.batch|
  {
    if q.batch != [] {
      var r := ResetOne(q);
      BatchHead(q);
      ResetOneIs(q);
      ResetOneKeeps(q);
      ResetOneEntries(q);
      assert !InBatch(r, a) && r.heap[a] == q.heap[a];
      ResetAllOthers(r, a);
    }
  }

  lemma ResetOneParts(q: Queue)
    requires q.batch != [] && q.batch[0].timer in q.heap
    ensures var a, r := q.batch[0].timer, ResetOne(q);
            && r.batch == q.batch[1..]
            && r.timers == if q.heap[a].repeat && IdOf(q, a) !in q.canceling
                           then Insert(q.timers, Entry(q.readTime + q.heap[a].interval, a)) else q.timers
  {
    ResetOneIs(q);
  }

  lemma ResetOneEntries(q: Queue)
    requires q.batch != [] && q.batch[0].timer in q.heap
    ensures forall e :: e in q.timers ==> e in ResetOne(q).timers
    ensures forall e :: e in ResetOne(q).batch ==> e in q.batch
  {
    var a := q.batch[0].timer;
    var d := Entry(q.readTime + q.heap[a].interval, a);
    ResetOneParts(q);
    MembersWith(q.timers, LowerBound(q.timers, d), d);
  }

  /** The first timer of the batch is scheduled again at its interval, or gone. */
  lemma FirstFate(q: Queue)
    requires Agree(q) && q.batch != []
    ensures var a, r := q.batch[0].timer, ResetOne(q);
            && a in q.heap
            && (if q.heap[a].repeat && IdOf(q, a) !in q.canceling
                then a in r.heap && !InBatch(r, a) && Scheduled(r, a)
                     && r.heap[a] == q.heap[a].(expiration := q.readTime + q.heap[a].interval)
                else a !in r.heap)
  {
    var a := q.batch[0].timer;
    BatchHead(q);
    ResetOneIs(q);
    if q.heap[a].repeat && IdOf(q, a) !in q.canceling {
      var d := Entry(q.readTime + q.heap[a].interval, a);
      MembersWith(q.timers, LowerBound(q.timers, d), d);
      assert ResetOne(q).timers == Insert(q.timers, d);
    }
  }

  lemma {:induction false} GoneStaysGone(q: Queue, a: Addr)
    requires Agree(q) && a !in q.heap
    ensures a !in ResetAll(q).heap
    decreases |q.batch|
  {
    if q.batch != [] {
      BatchHead(q);
      ResetOneIs(q);
      ResetOneKeeps(q);
      GoneStaysGone(ResetOne(q), a);
    }
  }

  /** Restarted, or deleted. */
  ghost predicate Fate(q: Queue, r: Queue, a: Addr)
    requires a in q.heap
  {
    if q.heap[a].repeat && IdOf(q, a) !in q.canceling
    then a in r.heap && Scheduled(r, a) && r.heap[a] == q.heap[a].(expiration := q.readTime + q.heap[a].interval)
    else a !in r.heap
  }

  lemma FirstBatchFate(q: Queue)
    requires Agree(q) && q.batch != []
    ensures q.batch[0].timer in q.heap && Fate(q, ResetAll(ResetOne(q)), q.batch[0].timer)
  {
    var a, r := q.batch[0].timer, ResetOne(q);
    FirstFate(q);
    ResetOneKeeps(q);
    if a in r.heap {
      ResetAllOthers(r, a);
    } else {
      GoneStaysGone(r, a);
    }
  }

  /** One timer's turn changes nothing of another's in the batch. */
  lemma OtherWaits(q: Queue, a: Addr)
    requires Agree(q) && InBatch(q, a) && a != q.batch[0].timer
    ensures var r := ResetOne(q);
            InBatch(r, a) && r.heap[a] == q.heap[a] && r.canceling == q.canceling && r.readTime == q.readTime
  {
    BatchHead(q);
    ResetOneIs(q);
    assert EntryOf(q, a) in q.batch[1..];
  }

  /** And so is every timer of the batch. */
  lemma {:induction false} BatchFate(q: Queue, a: Addr)
    requires Agree(q) && InBatch(q, a)
    ensures Fate(q, ResetAll(q), a)
    decreases |q.batch|
  {
    if a == q.batch[0].timer {
      FirstBatchFate(q);
    } else {
      OtherWaits(q, a);
      ResetOneKeeps(q);
      BatchFate(ResetOne(q), a);
    }
  }

  /** Which timers there are afterwards, and what they are. */
  lemma AfterBatch(q: Queue, a: Addr)
    requires Agree(q)
    ensures var r := ResetAll(q);
            if a !in q.heap then a !in r.heap
            else if !InBatch(q, a) then a in r.heap && r.heap[a] == q.heap[a]
            else Fate(q, r, a)
  {
    if a !in q.heap {
      GoneStaysGone(q, a);
    } else if InBatch(q, a) {
      BatchFate(q, a);
    } else {
      ResetAllOthers(q, a);
    }
  }

  // ----- Step by step

  lemma CreateTraced(q: Queue, steps: seq<Step>, l: Step)
    requires Inv(q) && Traced(q, steps) && l.Create? && Next(q, l).Some?
    requires forall id :: id in q.log ==> id.sequence <= q.created
    ensures Traced(Next(q, l).value, steps + [l])
  {
    var r := Next(q, l).value;
    Snoc(steps, l);
    assert Requests(steps + [l]) == Requests(steps) + [l];
    forall id | Live(r, id)
      ensures 1 <= id.sequence <= |Requests(steps + [l])|
              && AsRequested(r, id, Requests(steps + [l])[id.sequence - 1])
    {
      if id.timer != l.timer { assert Live(q, id); }
    }
  }

  /** A step that leaves the timers' contents alone. */
  lemma SameTimersTraced(q: Queue, r: Queue, steps: seq<Step>, l: Step)
    requires Traced(q, steps) && !l.Create? && r.created == q.created && MarksTraced(r, steps + [l])
    requires forall id :: Live(r, id) ==> Live(q, id) && r.heap[id.timer] == q.heap[id.timer]
    requires forall id :: id in q.log ==> id in r.log
    requires r.calling ==> LastRead(steps + [l]) == Some(r.readTime)
    ensures Traced(r, steps + [l])
  {
    Snoc(steps, l);
    assert Requests(steps + [l]) == Requests(steps);
  }

  lemma CancelTraced(q: Queue, steps: seq<Step>, id: Id)
    requires Inv(q) && Traced(q, steps) && !q.aborted
    ensures Traced(Cancel(q, id), steps + [CancelInLoop(id)])
  {
    var r, l := Cancel(q, id), CancelInLoop(id);
    Snoc(steps, l);
    if id in q.active { CancelErases(q, id); }
    forall i | r.calling && i in CancelledSince(steps + [l])
      ensures i in r.canceling || (i.sequence <= r.created && !Live(r, i))
    {
    }
    SameTimersTraced(q, r, steps, l);
  }

  /** A timer that survives the batch was there before, as it was but for its deadline;
      and that has changed only if its callback has been run. */
  lemma FinishLive(q: Queue, id: Id)
    requires Inv(q) && LogEndsWithBatch(q) && q.calling && q.ran == |q.batch|
    requires Live(ResetAll(q.(calling := false, ran := 0)), id)
    ensures var t := ResetAll(q.(calling := false, ran := 0)).heap[id.timer];
            Live(q, id) && (t == q.heap[id.timer] || (id in q.log && t == q.heap[id.timer].(expiration := t.expiration)))
  {
    var p := q.(calling := false, ran := 0);
    FlagsKeep(q, p);
    AfterBatch(p, id.timer);
    if InBatch(p, id.timer) {
      assert EntryOf(q, id.timer) == EntryOf(p, id.timer);
      var k :| 0 <= k < |q.batch| && q.batch[k] == EntryOf(q, id.timer);
      assert q.log[|q.log| - q.ran + k] == IdOf(q, id.timer) == id;
    }
  }

  lemma FinishSame(q: Queue, clock: Clock)
    requires q.calling
    ensures var p, r := ResetAll(q.(calling := false, ran := 0)), FinishBatch(q, clock);
            && r.heap == p.heap && r.log == q.log && r.created == q.created && !r.calling && r.canceling == q.canceling
  {
    var p := q.(calling := false, ran := 0);
    ResetAllLog(p);
    ResetAllMarks(p);
  }

  lemma FinishTraced(q: Queue, steps: seq<Step>, clock: Clock)
    requires Inv(q) && Traced(q, steps) && LogEndsWithBatch(q) && Next(q, EndRead(clock)).Some?
    ensures Traced(Next(q, EndRead(clock)).value, steps + [EndRead(clock)])
  {
    var r, l := Next(q, EndRead(clock)).value, EndRead(clock);
    Snoc(steps, l);
    assert Requests(steps + [l]) == Requests(steps);
    FinishSame(q, clock);
    forall id | Live(r, id) ensures Live(q, id) && AsRequested(r, id, Requests(steps)[id.sequence - 1]) {
      FinishLive(q, id);
    }
  }

  lemma {:induction false} ResetAllMarks(q: Queue)
    ensures ResetAll(q).canceling == q.canceling && ResetAll(q).readTime == q.readTime
    decreases |q.batch|
  {
    if q.batch != [] {
      ResetAllMarks(ResetOne(q));
    }
  }

  lemma BeginTraced(q: Queue, steps: seq<Step>, now: Clock)
    requires Traced(q, steps) && Next(q, BeginRead(now)).Some?
    ensures Traced(Next(q, BeginRead(now)).value, steps + [BeginRead(now)])
  {
    assert (steps + [BeginRead(now)])[..|steps|] == steps;
    SameTimersTraced(q, Next(q, BeginRead(now)).value, steps, BeginRead(now));
  }

  lemma PlainTraced(q: Queue, steps: seq<Step>, l: Step)
    requires Traced(q, steps) && Next(q, l).Some? && (l.AddInLoop? || l.RunNext?)
    ensures Traced(Next(q, l).value, steps + [l])
  {
    var r := Next(q, l).value;
    Snoc(steps, l);
    if l.AddInLoop? {
      assert r.heap == q.heap && r.log == q.log;
    } else {
      forall id | id in q.log ensures id in r.log {}
    }
    SameTimersTraced(q, r, steps, l);
  }

  ghost predicate LogKnown(q: Queue) {
    forall id :: id in q.log ==> id.sequence <= q.created
  }

  lemma StepLogKnown(q: Queue, l: Step)
    requires Inv(q) && LogKnown(q) && Next(q, l).Some?
    ensures LogKnown(Next(q, l).value)
  {
    match l
    case Create(_, _, _, _) =>
    case AddInLoop(a, clock) => assert AddTimer(q, a, clock).log == q.log && AddTimer(q, a, clock).created == q.created;
    case CancelInLoop(_) =>
    case BeginRead(_) =>
    case RunNext => RunLogKnown(q);
    case EndRead(clock) => FinishSame(q, clock);
  }

  lemma RunLogKnown(q: Queue)
    requires SequencesUnique(q) && LogKnown(q) && q.ran < |q.batch| && q.batch[q.ran].timer in q.heap
    ensures LogKnown(RunOne(q))
  {
  }

  lemma StepTraced(q: Queue, steps: seq<Step>, l: Step)
    requires Inv(q) && Traced(q, steps) && LogEndsWithBatch(q) && LogKnown(q) && Next(q, l).Some?
    ensures Traced(Next(q, l).value, steps + [l])
  {
    match l
    case Create(_, _, _, _) => CreateTraced(q, steps, l);
    case AddInLoop(_, _) => PlainTraced(q, steps, l);
    case CancelInLoop(id) => CancelTraced(q, steps, id);
    case BeginRead(now) => BeginTraced(q, steps, now);
    case RunNext => PlainTraced(q, steps, l);
    case EndRead(clock) => FinishTraced(q, steps, clock);
  }

  ghost predicate Known(q: Queue, steps: seq<Step>) {
    Inv(q) && Traced(q, steps) && LogEndsWithBatch(q) && LogKnown(q)
  }

  lemma RunTraced(steps: seq<Step>)
    requires RunFrom(Empty, steps).Some?
    ensures Known(RunFrom(Empty, steps).value, steps)
  {
    var next := (p: Queue, l: Step) => Next(p, l);
    forall q, ls, l | Known(q, ls) && Run(next, Empty, ls) == Some(q) && next(q, l).Some?
      ensures Known(next(q, l).value, ls + [l])
    {
      StepKeeps(q, l);
      StepTraced(q, ls, l);
      StepLogs(q, l);
      StepLogKnown(q, l);
    }
    RunKeepsTrace(next, (q, ls) => Known(q, ls), Empty, steps);
  }

  // ----- Every run

  /** In every run a timer that exists is what the request that made it asked for: its
      address, interval and repetition; and until its callback is run, its deadline. */
  lemma TimersAsRequested(steps: seq<Step>, id: Id)
    requires RunFrom(Empty, steps).Some? && Live(RunFrom(Empty, steps).value, id)
    ensures 1 <= id.sequence <= |Requests(steps)|
    ensures AsRequested(RunFrom(Empty, steps).value, id, Requests(steps)[id.sequence - 1])
  {
    RunTraced(steps);
  }

  lemma DueSplit(timers: seq<Entry>, now: Clock)
    requires Sorted(timers) && forall e :: e in timers ==> e.timer < UINTPTR_MAX
    ensures var n := ExpiredCount(timers, now);
            && timers == timers[..n] + timers[n..]
            && (forall e :: e in timers[..n] ==> e.when <= now) && (forall e :: e in timers[n..] ==> now < e.when)
  {
    ExpiredSplit(timers, now);
  }

  lemma EntriesAreAllocated(q: Queue)
    requires Inv(q) && !q.calling
    ensures Sorted(q.timers) && forall e :: e in q.timers ==> e.timer < UINTPTR_MAX
  {
  }

  /** A batch takes exactly what is due, in order, and leaves the rest. */
  lemma DueAreTaken(q: Queue, now: Clock)
    requires Inv(q) && !q.calling && !q.aborted
    ensures Next(q, BeginRead(now)).Some?
    ensures var r := Next(q, BeginRead(now)).value;
            && q.timers == r.batch + r.timers && r.ran == 0
            && (forall e :: e in r.batch ==> e.when <= now) && (forall e :: e in r.timers ==> now < e.when)
  {
    EntriesAreAllocated(q);
    DueSplit(q.timers, now);
  }

  lemma FateAtReset(q: Queue, id: Id)
    requires Inv(q) && q.calling && Live(q, id) && InBatch(q, id.timer)
    ensures var t, r := q.heap[id.timer], ResetAll(q.(calling := false, ran := 0));
            if t.repeat && id !in q.canceling
            then Live(r, id) && Scheduled(r, id.timer) && r.heap[id.timer].expiration == q.readTime + t.interval
            else !Live(r, id)
  {
    var p := q.(calling := false, ran := 0);
    FlagsKeep(q, p);
    assert InBatch(p, id.timer) && IdOf(p, id.timer) == id;
    AfterBatch(p, id.timer);
  }

  lemma ActiveAtFinish(q: Queue, clock: Clock, id: Id)
    requires Inv(q) && q.calling && q.ran == |q.batch|
    ensures var r := FinishBatch(q, clock); Live(r, id) && EntryOf(r, id.timer) in r.timers ==> id in r.active
  {
    FinishKeeps(q, clock);
  }

  lemma FateAtFinish(q: Queue, clock: Clock, id: Id)
    requires Inv(q) && q.calling && q.ran == |q.batch| && Live(q, id) && InBatch(q, id.timer)
    ensures var t, r := q.heap[id.timer], FinishBatch(q, clock);
            if t.repeat && id !in q.canceling
            then Live(r, id) && Entry(q.readTime + t.interval, id.timer) in r.timers && id in r.active
            else !Live(r, id)
  {
    var p, r := ResetAll(q.(calling := false, ran := 0)), FinishBatch(q, clock);
    FateAtReset(q, id);
    ActiveAtFinish(q, clock, id);
    assert r.heap == p.heap && r.timers == p.timers;
    assert Live(r, id) ==> EntryOf(r, id.timer) == EntryOf(p, id.timer);
  }

  /** In every run, when a batch ends: a timer of it that was requested to repeat, and not
      cancelled since the batch was read, is scheduled at that reading and its
      interval; any other is gone. */
  lemma RepeatsAtItsInterval(steps: seq<Step>, clock: Clock, id: Id)
    requires RunFrom(Empty, steps).Some?
    requires var q := RunFrom(Empty, steps).value;
             Next(q, EndRead(clock)).Some? && Live(q, id) && InBatch(q, id.timer)
    ensures 1 <= id.sequence <= |Requests(steps)| && LastRead(steps).Some?
    ensures var r, c := Next(RunFrom(Empty, steps).value, EndRead(clock)).value, Requests(steps)[id.sequence - 1];
            if c.repeat && id !in CancelledSince(steps)
            then Live(r, id) && Entry(LastRead(steps).value + c.interval, id.timer) in r.timers && id in r.active
            else !Live(r, id)
  {
    RunTraced(steps);
    FateAtFinish(RunFrom(Empty, steps).value, clock, id);
  }
}
