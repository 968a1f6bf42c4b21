/** The pool object with its threads' positions; each method is one critical section
    (or one running of a task) that takes a step of `WorkerPool` and keeps its invariant. */
module ThreadPoolObject {
  import opened Runs
  import opened WorkerPool

  class ThreadPool {
    const threadCount: nat
    var workers: seq<WorkerAt>
    var callers: map<Caller, Owes>
    var tasks: seq<Item>
    var stopped: bool
    ghost var accepted: seq<Item>
    ghost var popped: seq<Item>
    ghost var done: multiset<Item>

    ghost function Model(): (r: Pool)
      reads this
    {
      Pool(workers, callers, tasks, stopped, accepted, popped, done)
    }

    ghost predicate Valid()
      reads this
    {
      Inv(threadCount, Model())
    }

    constructor (threads: nat)
      ensures Valid() && threadCount == threads && Model() == Fresh(threads)
    {
      threadCount := threads;
      workers, callers, tasks, stopped := seq(threads, _ => Awake), map[], [], false;
      accepted, popped, done := [], [], multiset{};
      Started(threads);
    }

    /** Accepts the item unless the pool is stopped; the caller then has a worker to notify. */
    method Enqueue(k: Caller, item: Item) returns (ok: bool)
      requires Valid() && Owed(Model(), k) == Nothing
      modifies `tasks, `accepted, `callers
      ensures ok == !stopped
      ensures tasks == old(tasks) + (if ok then [item] else []) && accepted == old(accepted) + (if ok then [item] else [])
      ensures callers == if ok then old(callers)[k := NotifyOne] else old(callers)
      ensures Valid() && Some(Model()) == Next(old(Model()), WorkerPool.Enqueue(k, item))
    {
      StepKeeps(threadCount, Model(), WorkerPool.Enqueue(k, item));
      ok := !stopped;
      if ok {
        tasks, accepted := tasks + [item], accepted + [item];
        callers := callers[k := NotifyOne];
      }
    }

    method Stop(k: Caller)
      requires Valid() && Owed(Model(), k) == Nothing
      modifies `stopped, `callers
      ensures Valid() && Some(Model()) == Next(old(Model()), WorkerPool.Stop(k))
      ensures stopped && callers == if old(stopped) then old(callers) else old(callers)[k := NotifyAll]
    {
      StepKeeps(threadCount, Model(), WorkerPool.Stop(k));
      if stopped { return; }
      stopped, callers := true, callers[k := NotifyAll];
    }

    method NotifyOneWorker(k: Caller, chosen: Worker)
      requires Valid() && Owed(Model(), k) == NotifyOne
      requires (chosen < |workers| && workers[chosen] == Asleep) || Asleep !in workers
      modifies `workers, `callers
      ensures Valid() && Some(Model()) == Next(old(Model()), Notify(k, chosen))
      ensures callers == old(callers)[k := Nothing]
      ensures workers == if Asleep in old(workers) then old(workers)[chosen := Awake] else old(workers)
    {
      StepKeeps(threadCount, Model(), Notify(k, chosen));
      if chosen < |workers| && workers[chosen] == Asleep {
        workers := workers[chosen := Awake];
      }
      callers := callers[k := Nothing];
    }

    method NotifyEveryWorker(k: Caller)
      requires Valid() && Owed(Model(), k) == NotifyAll
      modifies `workers, `callers
      ensures Valid() && Some(Model()) == Next(old(Model()), Notify(k, 0))
      ensures callers == old(callers)[k := Nothing] && Asleep !in workers && |workers| == |old(workers)|
      ensures forall w :: 0 <= w < |workers| ==>
                workers[w] == if old(workers)[w] == Asleep then Awake else old(workers)[w]
    {
      StepKeeps(threadCount, Model(), Notify(k, 0));
      var i := 0;
      while i < |workers|
        invariant i <= |workers| == |old(workers)| && callers == old(callers)
        invariant forall j :: 0 <= j < i ==> workers[j] == Wake(old(workers)[j])
        invariant forall j :: i <= j < |workers| ==> workers[j] == old(workers)[j]
      {
        workers := workers[i := Wake(workers[i])];
        i := i + 1;
      }
      assert workers == Next(old(Model()), Notify(k, 0)).value.workers;
      callers := callers[k := Nothing];
    }

    /** A worker wakes with the lock, tests the wait's predicate, and pops, leaves or sleeps again. */
    method TakeTurn(w: Worker)
      requires Valid() && w < |workers| && workers[w] == Awake
      modifies `workers, `tasks, `popped
      ensures Valid() && Some(Model()) == Next(old(Model()), WorkerPool.TakeTurn(w))
      ensures if old(tasks) != []
              then workers == old(workers)[w := Running(old(tasks)[0])] && tasks == old(tasks)[1..]
                   && popped == old(popped) + [old(tasks)[0]]
              else workers == old(workers)[w := if stopped then Gone else Asleep] && tasks == []
    {
      StepKeeps(threadCount, Model(), WorkerPool.TakeTurn(w));
      PopOrRest(w);
    }

    method PopOrRest(w: Worker)
      requires w < |workers| && workers[w] == Awake
      modifies `workers, `tasks, `popped
      ensures Some(Model()) == Next(old(Model()), WorkerPool.TakeTurn(w))
      ensures if old(tasks) != []
              then workers == old(workers)[w := Running(old(tasks)[0])] && tasks == old(tasks)[1..]
                   && popped == old(popped) + [old(tasks)[0]]
              else workers == old(workers)[w := if stopped then Gone else Asleep] && tasks == []
    {
      if !stopped && tasks == [] {
        workers := workers[w := Asleep];
      } else if stopped && tasks == [] {
        workers := workers[w := Gone];
      } else {
        workers, popped, tasks := workers[w := Running(tasks[0])], popped + [tasks[0]], tasks[1..];
      }
    }

    method RunTask(w: Worker)
      requires Valid() && w < |workers| && workers[w].Running?
      modifies `workers, `done
      ensures Valid() && Some(Model()) == Next(old(Model()), Finish(w))
      ensures workers == old(workers)[w := Awake] && done == old(done) + multiset{old(workers)[w].item}
    {
      StepKeeps(threadCount, Model(), Finish(w));
      Complete(w);
    }

    method Complete(w: Worker)
      requires w < |workers| && workers[w].Running?
      modifies `workers, `done
      ensures Some(Model()) == Next(old(Model()), Finish(w))
      ensures workers == old(workers)[w := Awake] && done == old(done) + multiset{old(workers)[w].item}
    {
      done := done + multiset{workers[w].item};
      workers := workers[w := Awake];
    }

    /** `stop` returns when every worker has been joined; all that was accepted has
        then been run exactly once, if there was a worker at all. */
    method JoinAll()
      requires Valid() && stopped && forall w :: 0 <= w < |workers| ==> workers[w] == Gone
      ensures done == multiset(accepted) <==> threadCount > 0 || accepted == []
      ensures threadCount > 0 ==> tasks == []
    {
      Drained(threadCount, Model());
    }
  }
}
