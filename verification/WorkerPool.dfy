/** The thread pool with an unbounded queue: workers that wait, pop and run, callers
    that enqueue, and a stop that joins every worker; all interleaved. */
module WorkerPool {
  import opened Runs

  type Item = nat
  type Worker = nat
  type Caller = nat

  /** A worker holds no lock outside its waiting; `Asleep` waits to be notified. */
  datatype WorkerAt = Asleep | Awake | Running(item: Item) | Gone

  /** What a caller owes after leaving the lock. */
  datatype Owes = Nothing | NotifyOne | NotifyAll

  /** `accepted`, `popped` and `done` are all items ever accepted, popped and run. */
  datatype Pool = Pool(
    workers: seq<WorkerAt>,
    callers: map<Caller, Owes>,
    items: seq<Item>,
    stopping: bool,
    accepted: seq<Item>,
    popped: seq<Item>,
    done: multiset<Item>)

  function Fresh(n: nat): (r: Pool) {
    Pool(seq(n, _ => Awake), map[], [], false, [], [], multiset{})
  }

  datatype Step =
    | Enqueue(k: Caller, item: Item)
    | Stop(k: Caller)
    | Notify(k: Caller, chosen: Worker)
    | SpuriousWake(w: Worker)
    | TakeTurn(w: Worker)       // the wait's predicate is tested under the lock
    | Finish(w: Worker)

  function Owed(p: Pool, k: Caller): (r: Owes) {
    if k in p.callers then p.callers[k] else Nothing
  }

  function Wake(at: WorkerAt): (r: WorkerAt) {
    if at == Asleep then Awake else at
  }

  function Next(p: Pool, step: Step): (r: Option<Pool>) {
    match step
    case Enqueue(k, item) =>
      // A stopped pool refuses by throwing.
      if Owed(p, k) != Nothing then None
      else if p.stopping then Some(p)
      else
        Some(p.(items := p.items + [item], accepted := p.accepted + [item], callers := p.callers[k := NotifyOne]))
    case Stop(k) =>
      if Owed(p, k) != Nothing then None
      else if p.stopping then Some(p)
      else Some(p.(stopping := true, callers := p.callers[k := NotifyAll]))
    case Notify(k, chosen) =>
      (match Owed(p, k)
       case Nothing => None
       case NotifyAll =>
         Some(p.(workers := seq(|p.workers|, i requires 0 <= i < |p.workers| => Wake(p.workers[i])),
                 callers := p.callers[k := Nothing]))
       case NotifyOne =>
         // One sleeper is woken, if there is any.
         if chosen < |p.workers| && p.workers[chosen] == Asleep then
           Some(p.(workers := p.workers[chosen := Awake], callers := p.callers[k := Nothing]))
         else if Asleep !in p.workers then Some(p.(callers := p.callers[k := Nothing]))
         else None)
    case SpuriousWake(w) =>
      if w < |p.workers| && p.workers[w] == Asleep then Some(p.(workers := p.workers[w := Awake])) else None
    case TakeTurn(w) =>
      if w >= |p.workers| || p.workers[w] != Awake then None
      else if p.items != [] then
        Some(p.(workers := p.workers[w := Running(p.items[0])], items := p.items[1..], popped := p.popped + [p.items[0]]))
      else if p.stopping then Some(p.(workers := p.workers[w := Gone]))
      else Some(p.(workers := p.workers[w := Asleep]))
    case Finish(w) =>
      if w < |p.workers| && p.workers[w].Running? then
        Some(p.(workers := p.workers[w := Awake], done := p.done + multiset{p.workers[w].item}))
      else None
  }

  function Of(at: WorkerAt): (r: multiset<Item>) {
    if at.Running? then multiset{at.item} else multiset{}
  }

  /** The items being run right now. */
  function InHand(ws: seq<WorkerAt>): (r: multiset<Item>) {
    if ws == [] then multiset{} else Of(ws[0]) + InHand(ws[1..])
  }

  lemma Exchange(a: multiset<Item>, rest: multiset<Item>, b: multiset<Item>)
    ensures (a + rest) + b == (b + rest) + a
  {
  }

  lemma Prepended(head: multiset<Item>, x: multiset<Item>, y: multiset<Item>, a: multiset<Item>, b: multiset<Item>)
    requires x + a == y + b
    ensures (head + x) + a == (head + y) + b
  {
    assert (head + x) + a == head + (x + a);
    assert (head + y) + b == head + (y + b);
  }

  lemma {:induction false} InHandUpdate(ws: seq<WorkerAt>, w: nat, at: WorkerAt)
    requires w < |ws|
    ensures InHand(ws[w := at]) + Of(ws[w]) == InHand(ws) + Of(at)
  {
    var us := ws[w := at];
    if w == 0 {
      assert us[1..] == ws[1..];
      Exchange(Of(at), InHand(ws[1..]), Of(ws[0]));
    } else {
      assert us[1..] == ws[1..][w - 1 := at];
      InHandUpdate(ws[1..], w - 1, at);
      Prepended(Of(ws[0]), InHand(us[1..]), InHand(ws[1..]), Of(ws[w]), Of(at));
    }
  }

  lemma {:induction false} InHandSame(ws: seq<WorkerAt>, us: seq<WorkerAt>)
    requires |us| == |ws| && forall i :: 0 <= i < |ws| ==> us[i] == Wake(ws[i])
    ensures InHand(us) == InHand(ws)
  {
    if ws != [] {
      InHandSame(ws[1..], us[1..]);
    }
  }

  lemma {:induction false} InHandNone(ws: seq<WorkerAt>)
    requires forall i :: 0 <= i < |ws| ==> !ws[i].Running?
    ensures InHand(ws) == multiset{}
  {
    if ws != [] {
      InHandNone(ws[1..]);
    }
  }

  ghost predicate OwedByAny(p: Pool, o: Owes) {
    exists k :: k in p.callers && p.callers[k] == o
  }

  predicate Attends(at: WorkerAt) {
    at == Awake || at.Running?
  }

  /** Somebody will come for the queue. */
  ghost predicate Attended(p: Pool) {
    (exists w :: 0 <= w < |p.workers| && Attends(p.workers[w])) || OwedByAny(p, NotifyOne)
  }

  /** The queue's order, and every popped item run or in hand. */
  ghost predicate Ledgers(p: Pool) {
    p.accepted == p.popped + p.items && multiset(p.popped) == p.done + InHand(p.workers)
  }

  /** Nobody sleeps through work or through a stop, and none leaves before the work is over. */
  ghost predicate Attention(p: Pool) {
    && (p.items != [] && |p.workers| > 0 ==> Attended(p))
    && (p.stopping && Asleep in p.workers ==> OwedByAny(p, NotifyAll))
    && (Gone in p.workers ==> p.stopping && p.items == [])
  }

  // The ledgers, step by step.

  lemma TurnLedgers(p: Pool, w: Worker)
    requires Ledgers(p) && Next(p, TakeTurn(w)).Some?
    ensures Ledgers(Next(p, TakeTurn(w)).value)
  {
    if p.items != [] {
      PopOrder(p.popped, p.items);
      PopLedger(p.workers, w, p.popped, p.items[0], p.done);
    } else {
      IdleUpdate(p.workers, w, if p.stopping then Gone else Asleep);
    }
  }

  lemma PopOrder(popped: seq<Item>, items: seq<Item>)
    requires items != []
    ensures popped + items == (popped + [items[0]]) + items[1..]
  {
  }

  lemma PopLedger(ws: seq<WorkerAt>, w: nat, popped: seq<Item>, x: Item, done: multiset<Item>)
    requires w < |ws| && ws[w] == Awake && multiset(popped) == done + InHand(ws)
    ensures multiset(popped + [x]) == done + InHand(ws[w := Running(x)])
  {
    var us := ws[w := Running(x)];
    InHandUpdate(ws, w, Running(x));
    assert InHand(us) == InHand(us) + Of(ws[w]);
    assert multiset(popped + [x]) == multiset(popped) + multiset{x};
    assert (done + InHand(ws)) + multiset{x} == done + (InHand(ws) + multiset{x});
  }

  /** A worker with nothing in hand that takes nothing changes nothing in hand. */
  lemma IdleUpdate(ws: seq<WorkerAt>, w: nat, at: WorkerAt)
    requires w < |ws| && !ws[w].Running? && !at.Running?
    ensures InHand(ws[w := at]) == InHand(ws)
  {
    InHandUpdate(ws, w, at);
    assert InHand(ws[w := at]) == InHand(ws[w := at]) + Of(ws[w]);
    assert InHand(ws) == InHand(ws) + Of(at);
  }

  lemma FinishLedgers(p: Pool, w: Worker)
    requires Ledgers(p) && Next(p, Finish(w)).Some?
    ensures Ledgers(Next(p, Finish(w)).value)
  {
    var x := p.workers[w].item;
    InHandUpdate(p.workers, w, Awake);
    assert InHand(p.workers) == InHand(p.workers[w := Awake]) + multiset{x};
    assert p.done + InHand(p.workers) == p.done + multiset{x} + InHand(p.workers[w := Awake]);
  }

  lemma StepLedgers(p: Pool, step: Step)
    requires Ledgers(p) && Next(p, step).Some?
    ensures Ledgers(Next(p, step).value)
  {
    match step
    case Enqueue(_, item) => assert p.popped + (p.items + [item]) == p.popped + p.items + [item];
    case Stop(_) =>
    case Notify(k, chosen) =>
      if Owed(p, k) == NotifyAll {
        InHandSame(p.workers, Next(p, step).value.workers);
      } else if chosen < |p.workers| && p.workers[chosen] == Asleep {
        IdleUpdate(p.workers, chosen, Awake);
      }
    case SpuriousWake(w) => IdleUpdate(p.workers, w, Awake);
    case TakeTurn(w) => TurnLedgers(p, w);
    case Finish(w) => FinishLedgers(p, w);
  }

  // Attention, step by step.

  /** A caller that owes nothing, or has paid, leaves the debts of the others standing. */
  lemma DebtStands(p: Pool, r: Pool, k: Caller, o: Owes, q: Owes)
    requires r.callers == p.callers[k := o] && OwedByAny(p, q) && (Owed(p, k) != q || o == q)
    ensures OwedByAny(r, q)
  {
    var j :| j in p.callers && p.callers[j] == q;
    assert j in r.callers && r.callers[j] == q;
  }

  lemma EnqueueAttention(p: Pool, k: Caller, item: Item)
    requires Attention(p) && Next(p, Enqueue(k, item)).Some?
    ensures Attention(Next(p, Enqueue(k, item)).value)
  {
    var r := Next(p, Enqueue(k, item)).value;
    if !p.stopping {
      assert r.callers[k] == NotifyOne;
    }
  }

  lemma StopAttention(p: Pool, k: Caller)
    requires Attention(p) && Next(p, Stop(k)).Some?
    ensures Attention(Next(p, Stop(k)).value)
  {
    var r := Next(p, Stop(k)).value;
    if !p.stopping {
      assert r.callers[k] == NotifyAll;
      if OwedByAny(p, NotifyOne) {
        DebtStands(p, r, k, NotifyAll, NotifyOne);
      }
    }
  }

  lemma NotifyAttention(p: Pool, k: Caller, chosen: Worker)
    requires Attention(p) && Next(p, Notify(k, chosen)).Some?
    ensures Attention(Next(p, Notify(k, chosen)).value)
  {
    var r, o := Next(p, Notify(k, chosen)).value, Owed(p, k);
    if o == NotifyAll {
      forall i | 0 <= i < |r.workers| ensures r.workers[i] == Wake(p.workers[i]) && r.workers[i] != Asleep {}
    }
    if r.items != [] && |r.workers| > 0 {
      assert p.workers[0] != Gone;
      var w := if o == NotifyOne && chosen < |p.workers| && p.workers[chosen] == Asleep then chosen else 0;
      assert Attends(r.workers[w]);
    }
    if o == NotifyOne && OwedByAny(p, NotifyAll) {
      DebtStands(p, r, k, Nothing, NotifyAll);
    }
  }

  /** A worker's own step: it attends afterwards, or there is nothing to attend to. */
  lemma WorkerAttention(p: Pool, step: Step)
    requires Attention(p) && (step.SpuriousWake? || step.TakeTurn? || step.Finish?) && Next(p, step).Some?
    ensures Attention(Next(p, step).value)
  {
    var r := Next(p, step).value;
    assert r.callers == p.callers;
    if r.items != [] {
      assert Attends(r.workers[step.w]);
    }
    if OwedByAny(p, NotifyAll) {
      var j :| j in p.callers && p.callers[j] == NotifyAll;
      assert r.callers[j] == NotifyAll;
    }
  }

  ghost predicate Inv(n: nat, p: Pool) {
    |p.workers| == n && Ledgers(p) && Attention(p) && (n == 0 ==> p.popped == [])
  }

  lemma StepAttention(p: Pool, step: Step)
    requires Attention(p) && Next(p, step).Some?
    ensures Attention(Next(p, step).value)
  {
    match step
    case Enqueue(k, item) => EnqueueAttention(p, k, item);
    case Stop(k) => StopAttention(p, k);
    case Notify(k, chosen) => NotifyAttention(p, k, chosen);
    case SpuriousWake(_) => WorkerAttention(p, step);
    case TakeTurn(_) => WorkerAttention(p, step);
    case Finish(_) => WorkerAttention(p, step);
  }

  lemma SameSize(p: Pool, step: Step)
    requires Next(p, step).Some?
    ensures |Next(p, step).value.workers| == |p.workers|
    ensures p.workers == [] ==> Next(p, step).value.popped == p.popped
  {
  }

  lemma StepKeeps(n: nat, p: Pool, step: Step)
    requires Inv(n, p) && Next(p, step).Some?
    ensures Inv(n, Next(p, step).value)
  {
    SameSize(p, step);
    StepLedgers(p, step);
    StepAttention(p, step);
  }

  lemma Started(n: nat)
    ensures Inv(n, Fresh(n))
  {
    InHandNone(Fresh(n).workers);
  }

  lemma RunInv(n: nat, steps: seq<Step>)
    requires Run(Next, Fresh(n), steps).Some?
    ensures Inv(n, Run(Next, Fresh(n), steps).value)
  {
    Started(n);
    forall p, l | Inv(n, p) && Next(p, l).Some? ensures Inv(n, Next(p, l).value) {
      StepKeeps(n, p, l);
    }
    RunKeeps(Next, p => Inv(n, p), Fresh(n), steps);
  }

  // ----- Every run

  /** Has a stop been asked for? */
  predicate StopAsked(steps: seq<Step>) {
    steps != [] && (Last(steps).Stop? || StopAsked(Front(steps)))
  }

  /** The items enqueued in a run before any stop, in order. */
  function Enqueued(steps: seq<Step>): (r: seq<Item>) {
    if steps == [] then []
    else Enqueued(Front(steps)) + (if Last(steps).Enqueue? && !StopAsked(steps) then [Last(steps).item] else [])
  }

  /** How many items have been run to their end. */
  function Finished(steps: seq<Step>): (r: nat) {
    if steps == [] then 0 else Finished(Front(steps)) + (if Last(steps).Finish? then 1 else 0)
  }

  predicate Traced(p: Pool, steps: seq<Step>) {
    (p.stopping <==> StopAsked(steps)) && p.accepted == Enqueued(steps) && |p.done| == Finished(steps)
  }

  lemma StepTraced(p: Pool, steps: seq<Step>, l: Step)
    requires Traced(p, steps) && Next(p, l).Some?
    ensures Traced(Next(p, l).value, steps + [l])
  {
    Snoc(steps, l);
    assert p.accepted + [] == p.accepted;
  }

  lemma RunTraced(n: nat, steps: seq<Step>)
    requires Run(Next, Fresh(n), steps).Some?
    ensures Traced(Run(Next, Fresh(n), steps).value, steps)
  {
    forall p, ls, l | Traced(p, ls) && Run(Next, Fresh(n), ls) == Some(p) && Next(p, l).Some?
      ensures Traced(Next(p, l).value, ls + [l])
    {
      StepTraced(p, ls, l);
    }
    RunKeepsTrace(Next, (p, ls) => Traced(p, ls), Fresh(n), steps);
  }

  /** Exactly the items enqueued before any stop are accepted. They leave the queue in
      the order they entered it, and each one popped is run once or is in some worker's
      hand. */
  lemma PoppedInOrder(n: nat, steps: seq<Step>)
    requires Run(Next, Fresh(n), steps).Some?
    ensures var p := Run(Next, Fresh(n), steps).value;
            && p.popped + p.items == Enqueued(steps)
            && multiset(p.popped) == p.done + InHand(p.workers) && |p.done| == Finished(steps)
  {
    RunInv(n, steps);
    RunTraced(n, steps);
  }

  /** Work is never stranded: with any worker at all, a queued item has a worker
      that will test the queue again or a caller about to notify one. */
  lemma NoStrandedItem(n: nat, steps: seq<Step>)
    requires n > 0 && Run(Next, Fresh(n), steps).Some?
    requires Run(Next, Fresh(n), steps).value.items != []
    ensures Attended(Run(Next, Fresh(n), steps).value)
  {
    RunInv(n, steps);
  }

  /** Once a stop has notified, the join waits on no sleeper: each worker can take a step or has left. */
  lemma JoinCannotHang(n: nat, steps: seq<Step>, w: Worker)
    requires Run(Next, Fresh(n), steps).Some? && w < n
    requires var p := Run(Next, Fresh(n), steps).value; p.stopping && !OwedByAny(p, NotifyAll)
    ensures var p := Run(Next, Fresh(n), steps).value;
            |p.workers| == n && (p.workers[w] == Gone || Next(p, TakeTurn(w)).Some? || Next(p, Finish(w)).Some?)
  {
    RunInv(n, steps);
    var p := Run(Next, Fresh(n), steps).value;
    assert p.workers[w] != Asleep;
  }

  ghost predicate Joined(p: Pool) {
    p.stopping && forall w :: 0 <= w < |p.workers| ==> p.workers[w] == Gone
  }

  lemma Drained(n: nat, p: Pool)
    requires Inv(n, p) && Joined(p)
    ensures p.done == multiset(p.accepted) <==> n > 0 || p.accepted == []
    ensures n > 0 ==> p.items == []
  {
    InHandNone(p.workers);
    if n > 0 {
      assert p.workers[0] == Gone;
      assert p.accepted == p.popped;
    } else if p.accepted != [] {
      assert p.accepted[0] in multiset(p.accepted);
    }
  }

  /** When `stop` has joined, everything enqueued before the stop has been run exactly
      once; except that a pool of no workers runs nothing. */
  lemma StopDrains(n: nat, steps: seq<Step>)
    requires Run(Next, Fresh(n), steps).Some? && Joined(Run(Next, Fresh(n), steps).value)
    ensures var p := Run(Next, Fresh(n), steps).value;
            p.done == multiset(Enqueued(steps)) <==> n > 0 || Enqueued(steps) == []
    ensures n > 0 ==> Run(Next, Fresh(n), steps).value.items == []
  {
    RunInv(n, steps);
    RunTraced(n, steps);
    Drained(n, Run(Next, Fresh(n), steps).value);
  }

  /** After a stop nothing more is accepted. */
  lemma {:induction false} NothingAcceptedAfterStop(p: Pool, steps: seq<Step>)
    requires p.stopping && Run(Next, p, steps).Some?
    ensures Run(Next, p, steps).value.accepted == p.accepted
  {
    RunKeeps(Next, (r: Pool) => r.stopping && r.accepted == p.accepted, p, steps);
  }
}
