/** The event loop object, cut where threads can interleave: each method is one
    atomic section, takes one step of the machine in `LoopHandoff` and keeps its
    invariant. */
module EventLoopObject {
  import opened Runs
  import opened LoopHandoff

  class EventLoop {
    var quit: bool
    var callingPendingFunctors: bool
    var pendingFunctors: seq<Functor>
    var functors: seq<Functor>        // the local vector of doPendingFunctors
    var wakeupCounter: nat            // the eventfd
    var iteration: nat
    ghost var at: LoopAt
    ghost var executed: seq<Functor>
    ghost var queued: seq<Functor>
    ghost var threads: map<Thread, ThreadAt>
    ghost var early: bool
    ghost var seen: nat
    ghost var askedBefore: bool
    ghost var askedSince: bool

    ghost function Model(): (r: Loop)
      reads this
    {
      Loop(at, quit, callingPendingFunctors, pendingFunctors, functors, executed, queued,
           wakeupCounter, threads, iteration, early, seen, askedBefore, askedSince)
    }

    ghost predicate Valid()
      reads this
    {
      Inv(Model())
    }

    constructor ()
      ensures Valid() && Model() == Fresh
    {
      quit, callingPendingFunctors, pendingFunctors, functors := false, false, [], [];
      wakeupCounter, iteration, at, executed, queued := 0, 0, NotStarted, [], [];
      threads, early, seen, askedBefore, askedSince := map[], false, 0, false, false;
    }

    /** The locked part of queueInLoop on thread `t`, which still has to wake the loop. */
    method PushLocked(ghost t: Thread, f: Functor)
      requires Valid() && At(Model(), t) == Idle
      modifies `pendingFunctors, `queued, `threads
      ensures Valid() && Some(Model()) == Next(old(Model()), ForeignPush(t, f))
      ensures pendingFunctors == old(pendingFunctors) + [f] && At(Model(), t) == MustWake(false)
    {
      StepKeeps(Model(), ForeignPush(t, f));
      pendingFunctors := pendingFunctors + [f];
      queued := queued + [f];
      threads := threads[t := MustWake(false)];
    }

    method Wakeup(ghost t: Thread)
      requires Valid() && At(Model(), t).MustWake?
      modifies `wakeupCounter, `threads
      ensures Valid() && Some(Model()) == Next(old(Model()), ForeignWake(t))
      ensures wakeupCounter == old(wakeupCounter) + 1 && At(Model(), t) == Idle
    {
      StepKeeps(Model(), ForeignWake(t));
      wakeupCounter := wakeupCounter + 1;
      threads := threads[t := Idle];
    }

    method QuitFrom(ghost t: Thread)
      requires Valid() && At(Model(), t) == Idle
      modifies `quit, `askedBefore, `askedSince, `threads
      ensures Valid() && Some(Model()) == Next(old(Model()), ForeignQuit(t))
      ensures quit && At(Model(), t) == MustWake(true)
    {
      StepKeeps(Model(), ForeignQuit(t));
      RequestQuit();
      threads := threads[t := MustWake(true)];
    }

    /** quit on the loop's own thread. */
    method QuitHere()
      requires Valid() && InUserCode(Model())
      modifies `quit, `askedBefore, `askedSince
      ensures Valid() && Some(Model()) == Next(old(Model()), LoopQuit)
      ensures quit
    {
      StepKeeps(Model(), LoopQuit);
      RequestQuit();
    }

    method RequestQuit()
      modifies `quit, `askedBefore, `askedSince
      ensures Model() == LoopHandoff.Quit(old(Model()))
    {
      quit := true;
      askedBefore, askedSince := askedBefore || at == NotStarted, askedSince || at != NotStarted;
    }

    /** queueInLoop on the loop's own thread: it wakes itself only while functors run. */
    method QueueInLoop(f: Functor)
      requires Valid() && InUserCode(Model())
      modifies `pendingFunctors, `queued, `early, `wakeupCounter
      ensures Valid() && Some(Model()) == Next(old(Model()), LoopPush(f))
      ensures pendingFunctors == old(pendingFunctors) + [f]
      ensures wakeupCounter == old(wakeupCounter) + (if callingPendingFunctors then 1 else 0)
    {
      StepKeeps(Model(), LoopPush(f));
      pendingFunctors := pendingFunctors + [f];
      queued := queued + [f];
      early := early || at == NotStarted;
      if callingPendingFunctors {
        wakeupCounter := wakeupCounter + 1;
      }
    }

    method Begin()
      requires Valid() && at == NotStarted
      modifies `quit, `at
      ensures Valid() && Some(Model()) == Next(old(Model()), Start)
      ensures !quit && at == Top
    {
      StepKeeps(Model(), Start);
      quit := false;
      at := Top;
    }

    /** The loop condition, and then poll. */
    method EnterPoll() returns (leave: bool)
      requires Valid() && at == Top
      modifies `at
      ensures Valid() && Some(Model()) == Next(old(Model()), TestQuit)
      ensures leave == askedSince && at == if leave then Stopped else Polling
      ensures leave == old(quit)
    {
      StepKeeps(Model(), TestQuit);
      leave := quit;
      at := if quit then Stopped else Polling;
    }

    method LeavePoll() returns (woken: bool)
      requires Valid() && at == Polling
      modifies `iteration, `at, `seen
      ensures Valid() && Some(Model()) == Next(old(Model()), PollReturns) && at == Handling(woken)
      ensures woken == (wakeupCounter > 0) && iteration == old(iteration) + 1
    {
      StepKeeps(Model(), PollReturns);
      woken := wakeupCounter > 0;
      iteration := iteration + 1;
      at, seen := Handling(woken), |queued|;
    }

    method HandleRead()
      requires Valid() && at == Handling(true)
      modifies `wakeupCounter, `at
      ensures Valid() && Some(Model()) == Next(old(Model()), ReadEventfd)
      ensures wakeupCounter == 0 && at == Handling(false)
    {
      StepKeeps(Model(), ReadEventfd);
      wakeupCounter := 0;
      at := Handling(false);
    }

    method BeginPendingFunctors()
      requires Valid() && at == Handling(false)
      modifies `callingPendingFunctors, `at
      ensures Valid() && Some(Model()) == Next(old(Model()), EndHandling)
      ensures callingPendingFunctors && at == BeforeSwap
    {
      StepKeeps(Model(), EndHandling);
      callingPendingFunctors := true;
      at := BeforeSwap;
    }

    method SwapLocked()
      requires Valid() && at == BeforeSwap
      modifies `functors, `pendingFunctors, `at
      ensures Valid() && Some(Model()) == Next(old(Model()), Swap)
      ensures functors == old(pendingFunctors) && pendingFunctors == [] && at == Running
    {
      StepKeeps(Model(), Swap);
      functors, pendingFunctors := pendingFunctors, functors;
      at := Running;
    }

    method CallFunctor() returns (f: Functor)
      requires Valid() && at == Running && functors != []
      modifies `functors, `executed
      ensures Valid() && Some(Model()) == Next(old(Model()), RunFunctor) && executed == old(executed) + [f]
      ensures |executed| <= |queued| && f == queued[|executed| - 1]
      ensures [f] + functors == old(functors)
    {
      StepKeeps(Model(), RunFunctor);
      f := functors[0];
      functors := functors[1..];
      executed := executed + [f];
      assert queued == executed + (functors + pendingFunctors);
    }

    method EndPendingFunctors()
      requires Valid() && at == Running && functors == []
      modifies `callingPendingFunctors, `at
      ensures Valid() && Some(Model()) == Next(old(Model()), EndFunctors)
      ensures seen <= |executed| && executed[..seen] == queued[..seen]
      ensures !callingPendingFunctors && at == Top
    {
      StepKeeps(Model(), EndFunctors);
      callingPendingFunctors := false;
      at := Top;
      assert queued[..|executed|] == executed;
    }
  }
}
