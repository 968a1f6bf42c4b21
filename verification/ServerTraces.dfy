/** The server against the steps of its run: each connection lives in the loop it was
    accepted for, and it comes down exactly if its peer closed or somebody asked. */
module ServerTraces {
  import opened Runs
  import opened ConnStates
  import opened ServerLifecycle

  /** The loops that connections were accepted for, in order; the n-th connection has number n. */
  function Homes(steps: seq<Step>): (r: seq<Loop>) {
    if steps == [] then []
    else Homes(Front(steps)) + (if Last(steps).Accept? then [Last(steps).home] else [])
  }

  /** Did the peer close, or was a forced close queued? */
  predicate AskedToClose(steps: seq<Step>, c: ConnId) {
    PeerClosed(c) in steps || RequestForceClose(c) in steps || PushForceClose(c) in steps
  }

  ghost predicate Numbered(s: Server, steps: seq<Step>) {
    && s.nextConnId == |Homes(steps)| + 1
    && (forall c :: c in s.conns <==> 1 <= c <= |Homes(steps)|)
    && (forall c :: c in s.conns ==> s.conns[c].home == Homes(steps)[c - 1])
  }

  /** A forced close is for a connection that has been up. */
  predicate Born(s: Server, steps: seq<Step>, c: ConnId) {
    (AskedToClose(steps, c) || c in s.late ==> c in s.conns) &&
    (c in s.conns && (AskedToClose(steps, c) || c in s.late) ==> s.conns[c].life != [])
  }

  /** It is down or about to be exactly if somebody asked. */
  predicate Comes(s: Server, steps: seq<Step>, c: ConnId) {
    c in s.conns ==>
      (AskedToClose(steps, c) <==>
       Closed in s.conns[c].life || Count(s, s.conns[c].home, ForceClose(c)) > 0)
  }

  ghost predicate Traced(s: Server, steps: seq<Step>) {
    Inv(s) && Numbered(s, steps) && forall c :: Born(s, steps, c) && Comes(s, steps, c)
  }

  /** Of the connections only `c` has changed: its life has gone on by `more`. */
  ghost predicate Touches(s: Server, r: Server, c: ConnId, more: seq<Event>) {
    && r.nextConnId == s.nextConnId && r.late == s.late && r.conns.Keys == s.conns.Keys
    && (forall x :: x in s.conns ==>
          r.conns[x].home == s.conns[x].home && r.conns[x].life == s.conns[x].life + (if x == c then more else []))
    && (forall h, x :: Count(r, h, ForceClose(x)) == Count(s, h, ForceClose(x)))
  }

  lemma EstablishTouches(s: Server, c: ConnId)
    requires c in s.conns && s.conns[c].state == Connecting
    ensures Touches(s, EstablishNow(s, c), c, [Up])
  {
  }

  lemma EraseTouches(s: Server, c: ConnId)
    requires c in s.conns && c in s.connections
    ensures Touches(s, EraseNow(s, c), c, [Erased])
  {
  }

  /** What a close adds to a life. */
  function Closing(s: Server, c: ConnId): (r: seq<Event>)
    requires c in s.conns
  {
    if s.conns[c].home == BASE then [Down, Closed] + [Erased] else [Down, Closed]
  }

  lemma CloseTouches(s: Server, c: ConnId)
    requires c in s.conns && Open(s.conns[c]) && !s.failed && !CloseNow(s, c).failed
    ensures Touches(s, CloseNow(s, c), c, Closing(s, c))
  {
    var r := s.(conns := s.conns[c := s.conns[c].(state := Disconnected, channel := Muted,
                                                  life := s.conns[c].life + [Down, Closed])]);
    if s.conns[c].home == BASE {
      EraseTouches(r, c);
      assert s.conns[c].life + [Down, Closed] + [Erased] == s.conns[c].life + ([Down, Closed] + [Erased]);
    }
  }

  /** What performing a task adds to a life. */
  function Adds(s: Server, t: Task): (r: seq<Event>)
    requires t.c in s.conns
  {
    match t
    case Establish(_) => [Up]
    case Erase(_) => [Erased]
    case ForceClose(c) => if Open(s.conns[c]) then Closing(s, c) else []
    case Destroy(c) => if s.conns[c].state == Connected then [Down] + [Destroyed] else [Destroyed]
  }

  lemma DestroyTouches(s: Server, c: ConnId)
    requires c in s.conns && !s.failed && !DestroyNow(s, c).failed
    ensures Touches(s, DestroyNow(s, c), c, Adds(s, Destroy(c)))
  {
  }

  lemma PerformTouches(s: Server, t: Task)
    requires t.c in s.conns && !s.failed && !Perform(s, t).failed
    ensures Touches(s, Perform(s, t), t.c, Adds(s, t))
  {
    match t
    case Establish(c) => EstablishTouches(s, c);
    case Erase(c) => EraseTouches(s, c);
    case ForceClose(c) => if Open(s.conns[c]) { CloseTouches(s, c); }
    case Destroy(c) => DestroyTouches(s, c);
  }

  /** Does the step take a forced close of `c` out of its queue? */
  predicate TakesForceClose(s: Server, l: Step, c: ConnId) {
    l.RunTask? && Queue(s, l.l) != [] && Queue(s, l.l)[0] == ForceClose(c)
  }

  /** Does the step close `c`? */
  predicate Closes(s: Server, l: Step, c: ConnId)
    requires c in s.conns
  {
    l == PeerClosed(c) || (TakesForceClose(s, l, c) && Open(s.conns[c]))
  }

  predicate Queues(l: Step, c: ConnId) {
    l == RequestForceClose(c) || l == PushForceClose(c)
  }

  function Bit(b: bool): (r: nat) {
    if b then 1 else 0
  }

  /** What a step does to connection `c`, if it is there. */
  ghost predicate Effect(s: Server, r: Server, l: Step, c: ConnId)
    requires c in s.conns
  {
    && c in r.conns && r.conns[c].home == s.conns[c].home && s.conns[c].life <= r.conns[c].life
    && (Closed in r.conns[c].life <==> Closed in s.conns[c].life || Closes(s, l, c))
    && (var h, t := s.conns[c].home, ForceClose(c);
        Count(r, h, t) == Count(s, h, t) + Bit(Queues(l, c)) - Bit(TakesForceClose(s, l, c)))
    && (c in r.late ==> c in s.late || l == ForceCloseFromOutside(c))
  }

  lemma Touched(s: Server, r: Server, x: ConnId, more: seq<Event>, c: ConnId)
    requires Touches(s, r, x, more) && c in s.conns
    ensures c in r.conns && r.conns[c].home == s.conns[c].home && s.conns[c].life <= r.conns[c].life
    ensures Closed in r.conns[c].life <==> Closed in s.conns[c].life || (c == x && Closed in more)
    ensures r.late == s.late && forall h :: Count(r, h, ForceClose(c)) == Count(s, h, ForceClose(c))
  {
  }

  lemma NoFailure(s: Server, l: Step)
    requires Inv(s) && Next(s, l).Some?
    ensures !s.failed && !Next(s, l).value.failed
  {
    StepKeeps(s, l);
  }

  lemma TaskTouches(s: Server, l: Loop)
    requires !s.failed && Next(s, RunTask(l)).Some? && !Next(s, RunTask(l)).value.failed
    ensures Queue(s, l) != [] && Queue(s, l)[0].c in s.conns
    ensures var t := Queue(s, l)[0]; Touches(Pop(s, l), Next(s, RunTask(l)).value, t.c, Adds(s, t))
  {
    PerformTouches(Pop(s, l), Queue(s, l)[0]);
  }

  lemma PeerTouches(s: Server, x: ConnId)
    requires Inv(s) && Next(s, PeerClosed(x)).Some?
    ensures x in s.conns && Touches(s, Next(s, PeerClosed(x)).value, x, Closing(s, x))
  {
    StepKeeps(s, PeerClosed(x));
    OnItsWayUp(s, x);
    CloseTouches(s, x);
  }

  lemma TaskEffect(s: Server, r: Server, l: Loop, c: ConnId)
    requires Queue(s, l) != [] && Queue(s, l)[0].c in s.conns && c in s.conns
    requires Touches(Pop(s, l), r, Queue(s, l)[0].c, Adds(s, Queue(s, l)[0]))
    requires TakesForceClose(s, RunTask(l), c) ==> l == s.conns[c].home
    ensures Effect(s, r, RunTask(l), c)
  {
    var t := Queue(s, l)[0];
    CountPop(s, l, s.conns[c].home, ForceClose(c));
    Touched(Pop(s, l), r, t.c, Adds(s, t), c);
    assert Closed in Adds(s, t) <==> t.ForceClose? && Open(s.conns[t.c]);
  }

  lemma PeerEffect(s: Server, r: Server, x: ConnId, c: ConnId)
    requires x in s.conns && Touches(s, r, x, Closing(s, x)) && c in s.conns
    ensures Effect(s, r, PeerClosed(x), c)
  {
    Touched(s, r, x, Closing(s, x), c);
    assert Closed in Closing(s, x);
  }

  lemma AcceptEffect(s: Server, home: Loop, c: ConnId)
    requires c in s.conns && c != s.nextConnId
    ensures Effect(s, AcceptNow(s, home), Accept(home), c)
  {
    var d := Listed(s, home);
    assert AcceptNow(s, home) == if home == BASE then EstablishNow(d, s.nextConnId)
                                 else QueueInLoop(d, home, Establish(s.nextConnId));
    CountPush(d, home, Establish(s.nextConnId), s.conns[c].home, ForceClose(c));
  }

  /** A forced close of `x` is queued, while no life changes. */
  lemma QueuedEffect(s: Server, d: Server, x: ConnId, l: Step, c: ConnId)
    requires x in s.conns && c in s.conns && (l == RequestForceClose(x) || l == PushForceClose(x))
    requires d.queues == s.queues && c in d.conns && (c in d.late ==> c in s.late)
    requires d.conns[c].home == s.conns[c].home && d.conns[c].life == s.conns[c].life
    ensures Effect(s, QueueInLoop(d, s.conns[x].home, ForceClose(x)), l, c)
  {
    CountPush(d, s.conns[x].home, ForceClose(x), s.conns[c].home, ForceClose(c));
  }

  lemma LeaveEffect(s: Server, l: Step, c: ConnId)
    requires Next(s, l).Some? && c in s.conns && (l.RequestShutdown? || l.ForceCloseFromOutside?)
    ensures Effect(s, Next(s, l).value, l, c)
  {
  }

  lemma FiledAtHome(s: Server, l: Loop)
    requires Inv(s) && Queue(s, l) != [] && Queue(s, l)[0].ForceClose?
    ensures Queue(s, l)[0].c in s.conns && l == s.conns[Queue(s, l)[0].c].home
  {
    Dequeue(s, l, Consistent);
  }

  lemma StepEffect(s: Server, l: Step, c: ConnId)
    requires Inv(s) && Next(s, l).Some? && c in s.conns
    ensures Effect(s, Next(s, l).value, l, c)
  {
    match l
    case Accept(home) => AcceptEffect(s, home, c);
    case RunTask(k) =>
      NoFailure(s, l);
      TaskTouches(s, k);
      if Queue(s, k)[0].ForceClose? { FiledAtHome(s, k); }
      TaskEffect(s, Next(s, l).value, k, c);
    case PeerClosed(x) =>
      PeerTouches(s, x);
      PeerEffect(s, Next(s, l).value, x, c);
    case RequestForceClose(x) => QueuedEffect(s, Leaving(s, x), x, l, c);
    case PushForceClose(x) => QueuedEffect(s, s.(late := s.late - multiset{x}), x, l, c);
    case _ => LeaveEffect(s, l, c);
  }

  /** Whoever is asked to close is there and has been up. */
  lemma AskedIsUp(s: Server, l: Step, c: ConnId)
    requires Inv(s) && Next(s, l).Some?
    requires l == PeerClosed(c) || Queues(l, c) || l == ForceCloseFromOutside(c)
    ensures c in s.conns && (l.PushForceClose? ==> c in s.late) && (!l.PushForceClose? ==> s.conns[c].life != [])
  {
    if !l.PushForceClose? { OnItsWayUp(s, c); }
  }

  lemma StepBorn(s: Server, steps: seq<Step>, l: Step, c: ConnId)
    requires Inv(s) && Born(s, steps, c) && Next(s, l).Some?
    ensures Born(Next(s, l).value, steps + [l], c)
  {
    if l == PeerClosed(c) || Queues(l, c) || l == ForceCloseFromOutside(c) { AskedIsUp(s, l, c); }
    if c in s.conns { StepEffect(s, l, c); } else { NobodyLate(s, l, c); }
  }

  lemma SameLate(s: Server, t: Task)
    requires t.c in s.conns
    ensures Perform(s, t).late == CloseNow(s, t.c).late == s.late
  {
  }

  lemma NobodyLate(s: Server, l: Step, c: ConnId)
    requires c !in s.conns && c !in s.late && Next(s, l).Some?
    ensures c !in Next(s, l).value.late && !Queues(l, c) && l != PeerClosed(c)
  {
    match l
    case RunTask(k) => SameLate(Pop(s, k), Queue(s, k)[0]);
    case PeerClosed(x) => SameLate(s, Destroy(x));
    case _ =>
  }

  /** A forced close taken out of its queue finds the connection open, or down already. */
  lemma TakenInTime(s: Server, c: ConnId)
    requires Inv(s) && c in s.conns && s.conns[c].life != []
    ensures Open(s.conns[c]) || Closed in s.conns[c].life
  {
    ViewsAreConsistent(s, c);
  }

  lemma KnownComes(s: Server, r: Server, steps: seq<Step>, l: Step, c: ConnId)
    requires c in s.conns && Born(s, steps, c) && Comes(s, steps, c) && Effect(s, r, l, c)
    requires s.conns[c].life != [] ==> Open(s.conns[c]) || Closed in s.conns[c].life
    requires TakesForceClose(s, l, c) ==> Count(s, s.conns[c].home, ForceClose(c)) > 0
    ensures Comes(r, steps + [l], c)
  {
  }

  lemma StepComes(s: Server, steps: seq<Step>, l: Step, c: ConnId)
    requires Inv(s) && Born(s, steps, c) && Comes(s, steps, c) && Next(s, l).Some?
    ensures Comes(Next(s, l).value, steps + [l], c)
  {
    if c in s.conns {
      StepEffect(s, l, c);
      if TakesForceClose(s, l, c) {
        CountPositive(s, l.l);
        FiledAtHome(s, l.l);
      }
      if s.conns[c].life != [] { TakenInTime(s, c); }
      KnownComes(s, Next(s, l).value, steps, l, c);
    } else {
      StrangerComes(s, steps, l, c);
    }
  }

  /** A connection just accepted has a queue without a close, and is not down. */
  lemma Newcomer(s: Server, home: Loop)
    requires Inv(s) && !AcceptNow(s, home).failed
    ensures var c, r := s.nextConnId, AcceptNow(s, home);
            && r.conns.Keys == s.conns.Keys + {c} && r.conns[c].home == home && Closed !in r.conns[c].life
            && Count(r, home, ForceClose(c)) == 0
  {
    var c, d := s.nextConnId, Listed(s, home);
    NoTasksYet(LedgerOf(s), c);
    assert LedgerOf(s).count(home, ForceClose(c)) == 0;
    CountPush(d, home, Establish(c), home, ForceClose(c));
    assert AcceptNow(s, home) == if home == BASE then EstablishNow(d, c) else QueueInLoop(d, home, Establish(c));
  }

  lemma StrangerComes(s: Server, steps: seq<Step>, l: Step, c: ConnId)
    requires Inv(s) && c !in s.conns && Born(s, steps, c) && Next(s, l).Some?
    ensures Comes(Next(s, l).value, steps + [l], c)
  {
    NobodyLate(s, l, c);
    NoFailure(s, l);
    match l
    case Accept(home) => Newcomer(s, home);
    case RunTask(k) => TaskTouches(s, k);
    case PeerClosed(x) => PeerTouches(s, x);
    case _ =>
  }

  /** No step but an acceptance brings a connection or changes where one lives. */
  lemma HomesStay(s: Server, l: Step)
    requires Inv(s) && Next(s, l).Some? && !l.Accept?
    ensures var r := Next(s, l).value;
            && r.nextConnId == s.nextConnId && r.conns.Keys == s.conns.Keys
            && forall c :: c in s.conns ==> r.conns[c].home == s.conns[c].home
  {
    NoFailure(s, l);
    match l
    case RunTask(k) => TaskTouches(s, k);
    case PeerClosed(x) => PeerTouches(s, x);
    case _ =>
  }

  lemma AcceptAdds(s: Server, home: Loop)
    ensures var r := AcceptNow(s, home);
            && r.nextConnId == s.nextConnId + 1 && r.conns.Keys == s.conns.Keys + {s.nextConnId}
            && r.conns[s.nextConnId].home == home
            && forall c :: c in s.conns && c != s.nextConnId ==> r.conns[c].home == s.conns[c].home
  {
  }

  lemma NumberedStays(s: Server, r: Server, steps: seq<Step>, l: Step)
    requires Numbered(s, steps) && !l.Accept? && r.nextConnId == s.nextConnId && r.conns.Keys == s.conns.Keys
    requires forall c :: c in s.conns ==> r.conns[c].home == s.conns[c].home
    ensures Numbered(r, steps + [l])
  {
    Snoc(steps, l);
  }

  lemma StepNumbered(s: Server, steps: seq<Step>, l: Step)
    requires Inv(s) && Numbered(s, steps) && Next(s, l).Some?
    ensures Numbered(Next(s, l).value, steps + [l])
  {
    Snoc(steps, l);
    if l.Accept? {
      AcceptAdds(s, l.home);
    } else {
      HomesStay(s, l);
      NumberedStays(s, Next(s, l).value, steps, l);
    }
  }

  lemma RunTraced(steps: seq<Step>)
    requires Run(Next, Fresh, steps).Some?
    ensures Traced(Run(Next, Fresh, steps).value, steps)
  {
    forall s, ls, l | Traced(s, ls) && Run(Next, Fresh, ls) == Some(s) && Next(s, l).Some?
      ensures Traced(Next(s, l).value, ls + [l])
    {
      StepKeeps(s, l);
      StepNumbered(s, ls, l);
      forall c ensures Born(Next(s, l).value, ls + [l], c) { StepBorn(s, ls, l, c); }
      forall c ensures Comes(Next(s, l).value, ls + [l], c) { StepComes(s, ls, l, c); }
    }
    RunKeepsTrace(Next, (s, ls) => Traced(s, ls), Fresh, steps);
  }

  // ----- Every run

  /** The n-th connection accepted has number n and lives, as long as it is there, in the
      loop it was accepted for; its close is waiting or has happened exactly if its peer
      closed or a forced close was queued. */
  lemma HomesAreKept(steps: seq<Step>, c: ConnId)
    requires Run(Next, Fresh, steps).Some?
    ensures var s := Run(Next, Fresh, steps).value;
            && (c in s.conns <==> 1 <= c <= |Homes(steps)|)
            && (c in s.conns ==>
                  && s.conns[c].home == Homes(steps)[c - 1]
                  && (AskedToClose(steps, c) <==>
                      Closed in s.conns[c].life || ForceClose(c) in Queue(s, s.conns[c].home)))
  {
    RunTraced(steps);
    assert Comes(Run(Next, Fresh, steps).value, steps, c);
  }

  /** Nothing is forgotten: when no task is left in any loop, a connection has come up and
      gone all the way down if its peer closed or a forced close was queued, and is up
      otherwise. */
  lemma QuietServerHasNoZombies(steps: seq<Step>, c: ConnId)
    requires Run(Next, Fresh, steps).Some? && 1 <= c <= |Homes(steps)|
    requires forall l :: Queue(Run(Next, Fresh, steps).value, l) == []
    ensures var s := Run(Next, Fresh, steps).value;
            c in s.conns && s.conns[c].life ==
                            if AskedToClose(steps, c) then [Up, Down, Closed, Erased, Destroyed] else [Up]
  {
    HomesAreKept(steps, c);
    RunInv(steps);
    ViewsAreConsistent(Run(Next, Fresh, steps).value, c);
  }
}
