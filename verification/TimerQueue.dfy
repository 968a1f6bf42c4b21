/** The timer queue object. Each method's effect on the whole state is a step of
    the machine in `Timers`; the assertions are the source's own. */
module TimerQueueObject {
  import opened Runs
  import opened Timers
  import opened TimerTheorems
  import TimerTraces

  lemma OneMoreId(q: Queue, s: seq<Entry>, k: nat)
    requires k < |s| && s[k].timer in q.heap
    ensures IdsOf(q, s[..k + 1]) == IdsOf(q, s[..k]) + {Id(s[k].timer, q.heap[s[k].timer].sequence)}
  {
    assert s[..k + 1] == s[..k] + [s[k]];
  }

  lemma FinishedHeap(q: Queue, clock: Clock, b: Addr)
    requires Inv(q) && q.calling && q.ran == |q.batch|
    ensures var r := FinishBatch(q, clock);
            if b !in q.heap then b !in r.heap
            else if !InBatch(q, b) then b in r.heap && r.heap[b] == q.heap[b]
            else TimerTraces.Fate(q, r, b)
  {
    var p := q.(calling := false, ran := 0);
    FlagsKeep(q, p);
    assert InBatch(p, b) == InBatch(q, b);
    TimerTraces.AfterBatch(p, b);
    var r := FinishBatch(q, clock);
    assert r.heap == ResetAll(p).heap && r.timers == ResetAll(p).timers;
    if b in r.heap { assert EntryOf(r, b) == EntryOf(ResetAll(p), b); }
  }

  /** The timers there are after a batch, and what has become of them. */
  lemma FinishedHeaps(q: Queue, clock: Clock)
    requires Inv(q) && q.calling && q.ran == |q.batch|
    ensures var r := FinishBatch(q, clock);
            && (forall b: Addr :: b in r.heap <==>
                  b in q.heap && (InBatch(q, b) ==> q.heap[b].repeat && Id(b, q.heap[b].sequence) !in q.canceling))
            && (forall b: Addr :: b in r.heap ==>
                  r.heap[b] == if InBatch(q, b) then q.heap[b].(expiration := q.readTime + q.heap[b].interval)
                               else q.heap[b])
  {
    var r := FinishBatch(q, clock);
    forall b: Addr
      ensures b in r.heap <==>
                b in q.heap && (InBatch(q, b) ==> q.heap[b].repeat && Id(b, q.heap[b].sequence) !in q.canceling)
      ensures b in r.heap ==>
                r.heap[b] == if InBatch(q, b) then q.heap[b].(expiration := q.readTime + q.heap[b].interval)
                             else q.heap[b]
    {
      FinishedHeap(q, clock, b);
    }
  }

  class TimerQueue {
    var heap: map<Addr, Timer>       // the Timer objects that exist
    var numCreated: nat
    var timers: seq<Entry>           // ordered by expiration, then address
    var activeTimers: set<Id>
    var callingExpiredTimers: bool
    var cancelingTimers: set<Id>
    var expired: seq<Entry>          // the batch being run
    var ran: nat
    var now: Clock                   // when the batch was read
    var armed: Option<Timestamp>     // the timer descriptor
    var aborted: bool
    ghost var inflight: set<Addr>    // created, their insertion still queued
    ghost var zeroDelay: bool
    ghost var log: seq<Id>

    ghost function Model(): (r: Queue)
      reads this
    {
      Queue(heap, numCreated, inflight, timers, activeTimers, callingExpiredTimers, cancelingTimers,
            expired, ran, now, armed, zeroDelay, aborted, log)
    }

    ghost predicate Valid()
      reads this
    {
      Inv(Model()) && !aborted
    }

    constructor ()
      ensures Model() == Empty && Valid()
    {
      heap, numCreated, inflight := map[], 0, {};
      timers, activeTimers, callingExpiredTimers, cancelingTimers := [], {}, false, {};
      expired, ran, now := [], 0, EPOCH;
      armed, zeroDelay, aborted, log := None, false, false, [];
    }

    /** The thread-safe half of adding: the object is allocated at a free address. */
    method AddTimer(a: Addr, when: Timestamp, interval: nat, repeat: bool) returns (id: Id)
      requires Valid() && a !in heap
      modifies `numCreated, `heap, `inflight
      ensures Valid() && Some(Model()) == Next(old(Model()), Create(a, when, interval, repeat))
      ensures id == Id(a, numCreated) && numCreated == old(numCreated) + 1
      ensures heap == old(heap)[a := Timer(when, interval, repeat, numCreated)]
    {
      CreateKeeps(Model(), Create(a, when, interval, repeat));
      id := Allocate(a, when, interval, repeat);
    }

    method Allocate(a: Addr, when: Timestamp, interval: nat, repeat: bool) returns (id: Id)
      requires a !in heap && !aborted
      modifies `numCreated, `heap, `inflight
      ensures Some(Model()) == Next(old(Model()), Create(a, when, interval, repeat))
      ensures id == Id(a, numCreated) && numCreated == old(numCreated) + 1
      ensures heap == old(heap)[a := Timer(when, interval, repeat, numCreated)]
    {
      numCreated := numCreated + 1;
      heap := heap[a := Timer(when, interval, repeat, numCreated)];
      inflight := inflight + {a};
      id := Id(a, numCreated);
    }

    method SetTimerfd(deadline: Timestamp, clock: Clock)
      modifies `armed, `aborted, `zeroDelay
      ensures Model() == ResetTimerfd(old(Model()), deadline, clock)
      ensures aborted == (old(aborted) || deadline < clock)
      ensures armed == if deadline < clock then old(armed) else if deadline == clock then None else Some(deadline)
    {
      if deadline < clock {
        aborted := true;
      } else if deadline == clock {
        armed, zeroDelay := None, true;
      } else {
        armed, zeroDelay := Some(deadline), false;
      }
    }

    method InsertBoth(a: Addr) returns (earliestChanged: bool)
      requires a in heap
      requires Entry(heap[a].expiration, a) !in timers && Id(a, heap[a].sequence) !in activeTimers
      modifies `timers, `activeTimers
      ensures Model() == InsertTimer(old(Model()), a)
      ensures earliestChanged == (old(timers) == [] || heap[a].expiration < old(timers)[0].when)
      ensures forall e :: e in timers <==> e in old(timers) || e == Entry(heap[a].expiration, a)
      ensures activeTimers == old(activeTimers) + {Id(a, heap[a].sequence)}
    {
      MembersWith(timers, LowerBound(timers, Entry(heap[a].expiration, a)), Entry(heap[a].expiration, a));
      var when := heap[a].expiration;
      earliestChanged := timers == [] || when < timers[0].when;
      timers := Insert(timers, Entry(when, a));
      activeTimers := activeTimers + {Id(a, heap[a].sequence)};
    }

    method AddTimerInLoop(a: Addr, clock: Clock)
      requires Valid() && a in inflight
      modifies `timers, `activeTimers, `inflight, `armed, `aborted, `zeroDelay
      ensures Some(Model()) == Next(old(Model()), AddInLoop(a, clock)) && Inv(Model())
      ensures forall e :: e in timers <==> e in old(timers) || e == Entry(heap[a].expiration, a)
      ensures activeTimers == old(activeTimers) + {Id(a, heap[a].sequence)} && inflight == old(inflight) - {a}
      ensures var w := heap[a].expiration;
              if old(timers) == [] || w < old(timers)[0].when
              then aborted == (w < clock)
                   && armed == (if w < clock then old(armed) else if w == clock then None else Some(w))
              else aborted == old(aborted) && armed == old(armed)
    {
      AddKeeps(Model(), a, clock);
      assert !Scheduled(Model(), a);
      inflight := inflight - {a};
      var earliestChanged := InsertBoth(a);
      if earliestChanged {
        SetTimerfd(heap[a].expiration, clock);
      }
    }

    method CancelTimerInLoop(id: Id)
      requires Valid()
      modifies `timers, `heap, `activeTimers, `cancelingTimers
      ensures Valid() && Some(Model()) == Next(old(Model()), CancelInLoop(id))
      ensures if id in old(activeTimers)
              then heap == old(heap) - {id.timer} && activeTimers == old(activeTimers) - {id}
                   && (forall e :: e in timers <==> e in old(timers) && e.timer != id.timer)
                   && cancelingTimers == old(cancelingTimers)
              else heap == old(heap) && activeTimers == old(activeTimers) && timers == old(timers)
                   && cancelingTimers == old(cancelingTimers) + (if callingExpiredTimers then {id} else {})
    {
      CancelKeeps(Model(), id);
      if id in activeTimers { CancelErases(Model(), id); }
      if id in activeTimers {
        var e := Entry(heap[id.timer].expiration, id.timer);
        assert e in timers;
        timers := Erase(timers, e);
        heap := heap - {id.timer};
        activeTimers := activeTimers - {id};
      } else if callingExpiredTimers {
        cancelingTimers := cancelingTimers + {id};
      }
    }

    /** Takes the expired entries out of both sets. */
    method TakeExpired(when: Clock)
      requires Sorted(timers) && forall e :: e in timers ==> e.timer in heap
      modifies `timers, `activeTimers, `expired
      ensures Model() == GetExpired(old(Model()), when)
      ensures expired + timers == old(timers)
    {
      var n := ExpiredCount(timers, when);
      ExpiredSplit(timers, when);
      assert n == |timers| || when < timers[n].when;
      expired, timers := timers[..n], timers[n..];
      EraseExpired();
    }

    /** Erases the ids of the expired timers one by one. */
    method EraseExpired()
      requires forall e :: e in expired ==> e.timer in heap
      modifies `activeTimers
      ensures activeTimers == old(activeTimers) - IdsOf(Model(), expired)
    {
      ghost var q := Model();
      var k := 0;
      while k < |expired|
        invariant 0 <= k <= |expired|
        invariant activeTimers == q.active - IdsOf(q, expired[..k])
      {
        var e := expired[k];
        assert e in expired;
        activeTimers := activeTimers - {Id(e.timer, heap[e.timer].sequence)};
        OneMoreId(q, expired, k);
        k := k + 1;
      }
      assert expired[..k] == expired;
    }

    /** A descriptor event: the batch is taken and about to be run. */
    method HandleRead(when: Clock)
      requires Valid() && !callingExpiredTimers
      modifies `timers, `activeTimers, `expired, `callingExpiredTimers, `cancelingTimers, `ran, `now, `armed
      ensures Valid() && Some(Model()) == Next(old(Model()), BeginRead(when))
      ensures expired + timers == old(timers)
      ensures (forall e :: e in expired ==> e.when <= when) && (forall e :: e in timers ==> when < e.when)
      ensures callingExpiredTimers && cancelingTimers == {} && ran == 0 && now == when
      ensures armed == if old(armed).Some? && old(armed).value <= when then None else old(armed)
    {
      StartKeeps(Model(), when);
      TimerTraces.DueAreTaken(Model(), when);
      assert Sorted(timers) && forall e :: e in timers ==> e.timer in heap;
      TakeBatch(when);
    }

    method TakeBatch(when: Clock)
      requires Sorted(timers) && forall e :: e in timers ==> e.timer in heap
      modifies `timers, `activeTimers, `expired, `callingExpiredTimers, `cancelingTimers, `ran, `now, `armed
      ensures Model() == StartBatch(old(Model()), when) && expired + timers == old(timers)
      ensures callingExpiredTimers && cancelingTimers == {} && ran == 0 && now == when
      ensures armed == if old(armed).Some? && old(armed).value <= when then None else old(armed)
    {
      ConsumeEvent(when);
      TakeExpired(when);
      callingExpiredTimers := true;
      cancelingTimers := {};
      ran := 0;
    }

    method ConsumeEvent(when: Clock)
      modifies `now, `armed
      ensures Model() == old(Model()).(readTime := when,
                armed := if old(armed).Some? && old(armed).value <= when then None else old(armed))
    {
      now := when;
      if armed.Some? && armed.value <= when {
        armed := None;
      }
    }

    /** Runs the next callback; what it adds or cancels are further method calls. */
    method RunExpired() returns (id: Id)
      requires Valid() && callingExpiredTimers && ran < |expired|
      modifies `ran, `log
      ensures Some(Model()) == Next(old(Model()), RunNext)
      ensures log == old(log) + [id] && Valid() && ran == old(ran) + 1
      ensures id == Id(expired[old(ran)].timer, heap[expired[old(ran)].timer].sequence)
    {
      FlagsKeep(Model(), Model().(ran := ran + 1, log := log + [IdOf(Model(), expired[ran].timer)]));
      assert expired[ran] in expired;
      id := Id(expired[ran].timer, heap[expired[ran].timer].sequence);
      ran := ran + 1;
      log := log + [id];
    }

    /** Restarts or deletes the first timer of the batch. */
    method ResetFirst()
      requires expired != [] && expired[0].timer in heap
      requires forall e :: e in timers ==> e.timer != expired[0].timer
      requires forall i :: i in activeTimers ==> i.timer != expired[0].timer
      modifies `expired, `heap, `timers, `activeTimers
      ensures Model() == ResetOne(old(Model())) && expired == old(expired)[1..]
      ensures var a := old(expired)[0].timer; var t := old(heap)[a];
              if t.repeat && Id(a, t.sequence) !in cancelingTimers
              then heap == old(heap)[a := t.(expiration := now + t.interval)]
                   && activeTimers == old(activeTimers) + {Id(a, t.sequence)}
                   && Entry(now + t.interval, a) in timers
              else heap == old(heap) - {a} && activeTimers == old(activeTimers) && timers == old(timers)
    {
      var a := expired[0].timer;
      var id := Id(a, heap[a].sequence);
      expired := expired[1..];
      if heap[a].repeat && id !in cancelingTimers {
        heap := heap[a := heap[a].(expiration := now + heap[a].interval)];
        var earliestChanged := InsertBoth(a);
      } else {
        heap := heap - {a};
      }
    }

    /** The batch is over: reset its timers and set the next deadline. */
    method Reset(clock: Clock)
      requires Valid() && callingExpiredTimers && ran == |expired|
      modifies this
      ensures Some(Model()) == Next(old(Model()), EndRead(clock)) && Inv(Model())
      ensures expired == [] && !callingExpiredTimers && ran == 0
      ensures forall b: Addr :: b in heap <==>
                && b in old(heap)
                && (InBatch(old(Model()), b) ==>
                      old(heap)[b].repeat && Id(b, old(heap)[b].sequence) !in old(cancelingTimers))
      ensures forall b: Addr :: b in heap ==>
                heap[b] == if InBatch(old(Model()), b) then old(heap)[b].(expiration := now + old(heap)[b].interval)
                           else old(heap)[b]
      ensures var d := if timers == [] then 0 else timers[0].when;
              d != TIMESTAMP_MIN ==>
                && aborted == (d < clock)
                && armed == (if d < clock then old(armed) else if d == clock then None else Some(d))
    {
      ghost var q := Model();
      ghost var p := q.(calling := false, ran := 0);
      FinishKeeps(q, clock);
      FlagsKeep(q, p);
      assert Agree(p);
      EndBatch(clock);
      FinishedHeaps(q, clock);
    }

    method EndBatch(clock: Clock)
      requires Agree(Model().(calling := false, ran := 0))
      modifies this
      ensures Model() == FinishBatch(old(Model()), clock) && now == old(now)
      ensures expired == [] && !callingExpiredTimers && ran == 0
      ensures var d := if timers == [] then 0 else timers[0].when;
              d != TIMESTAMP_MIN ==>
                && aborted == (old(aborted) || d < clock)
                && armed == (if d < clock then old(armed) else if d == clock then None else Some(d))
    {
      callingExpiredTimers, ran := false, 0;
      ResetBatch();
      SetNextExpire(clock);
    }

    method ResetBatch()
      requires Agree(Model())
      modifies `expired, `heap, `timers, `activeTimers
      ensures Model() == ResetAll(old(Model())) && expired == []
    {
      ghost var left := Model();
      while expired != []
        invariant Model() == left && Agree(left) && ResetAll(left) == ResetAll(old(Model()))
        decreases |expired|
      {
        BatchHead(left);
        ResetOneKeeps(left);
        ResetFirst();
        left := ResetOne(left);
      }
    }

    method SetNextExpire(clock: Clock)
      modifies `armed, `aborted, `zeroDelay
      ensures var q := old(Model());
              Model() == if NextExpire(q) != TIMESTAMP_MIN then ResetTimerfd(q, NextExpire(q), clock) else q
      ensures var d := if timers == [] then 0 else timers[0].when;
              d != TIMESTAMP_MIN ==>
                && aborted == (old(aborted) || d < clock)
                && armed == (if d < clock then old(armed) else if d == clock then None else Some(d))
    {
      var nextExpire := if timers == [] then EPOCH else timers[0].when;
      if nextExpire != TIMESTAMP_MIN {
        SetTimerfd(nextExpire, clock);
      }
    }
  }
}
