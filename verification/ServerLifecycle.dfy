/** The life of accepted connections across the server's base loop and the I/O
    loops: every hop between loops is a queued task, and loops interleave freely. */
module ServerLifecycle {
  import opened Runs
  import opened ConnStates

  type Loop = nat
  type ConnId = nat   // the number in the connection's unique name

  const BASE: Loop := 0

  /** The connection's channel in its loop's poller. */
  datatype ChannelAt = Unregistered | Watched | Muted | Removed

  datatype Task = Establish(c: ConnId) | Erase(c: ConnId) | ForceClose(c: ConnId) | Destroy(c: ConnId)

  /** `Up` and `Down` are the user's connection callback, `Closed` the server's. */
  datatype Event = Up | Down | Closed | Erased | Destroyed

  // A life as far as it can have come; the last is the whole of it.
  const UNBORN: seq<Event> := []
  const AFTER_UP := [Up]
  const AFTER_CLOSE := [Up, Down, Closed]
  const AFTER_ERASE := [Up, Down, Closed, Erased]
  const FULL_LIFE := [Up, Down, Closed, Erased, Destroyed]

  datatype Conn = Conn(home: Loop, state: ConnState, channel: ChannelAt, life: seq<Event>)

  /** `late` are the connections for which some thread has set the state for a forced close
      and is about to queue it; `failed` is set where one of the source's assertions
      would fire. */
  datatype Server = Server(
    nextConnId: nat,
    conns: map<ConnId, Conn>,
    connections: set<ConnId>,
    queues: map<Loop, seq<Task>>,
    late: multiset<ConnId>,
    failed: bool)

  const Fresh := Server(1, map[], {}, map[], multiset{}, false)

  datatype Step =
    | Accept(home: Loop)
    | RunTask(l: Loop)
    | PeerClosed(c: ConnId)
    | RequestShutdown(c: ConnId)
    | RequestForceClose(c: ConnId)   // on its loop's thread
    | ForceCloseFromOutside(c: ConnId)
    | PushForceClose(c: ConnId)

  function Queue(s: Server, l: Loop): (r: seq<Task>) {
    if l in s.queues then s.queues[l] else []
  }

  function QueueInLoop(s: Server, l: Loop, t: Task): (r: Server) {
    s.(queues := s.queues[l := Queue(s, l) + [t]])
  }

  predicate Open(c: Conn) {
    c.state == Connected || c.state == Disconnecting
  }

  function EstablishNow(s: Server, c: ConnId): (r: Server)
    requires c in s.conns
  {
    if s.conns[c].state != Connecting then s.(failed := true)
    else s.(conns := s.conns[c := s.conns[c].(state := Connected, channel := Watched, life := s.conns[c].life + [Up])])
  }

  /** Erased from the map by name; the destruction is queued for the home loop. */
  function EraseNow(s: Server, c: ConnId): (r: Server)
    requires c in s.conns
  {
    if c !in s.connections then s.(failed := true)
    else
      QueueInLoop(s.(connections := s.connections - {c}, conns := s.conns[c := s.conns[c].(life := s.conns[c].life + [Erased])]),
                  s.conns[c].home, Destroy(c))
  }

  function CloseNow(s: Server, c: ConnId): (r: Server)
    requires c in s.conns
  {
    if !Open(s.conns[c]) then s.(failed := true)
    else
      var r := s.(conns := s.conns[c := s.conns[c].(state := Disconnected, channel := Muted,
                                                   life := s.conns[c].life + [Down, Closed])]);
      if s.conns[c].home == BASE then EraseNow(r, c) else QueueInLoop(r, BASE, Erase(c))
  }

  function DestroyNow(s: Server, c: ConnId): (r: Server)
    requires c in s.conns
  {
    var k := if s.conns[c].state == Connected
             then s.conns[c].(state := Disconnected, channel := Muted, life := s.conns[c].life + [Down])
             else s.conns[c];
    if k.channel != Muted then s.(failed := true)
    else s.(conns := s.conns[c := k.(channel := Removed, life := k.life + [Destroyed])])
  }

  function Perform(s: Server, t: Task): (r: Server)
    requires t.c in s.conns
  {
    match t
    case Establish(c) => EstablishNow(s, c)
    case Erase(c) => EraseNow(s, c)
    case ForceClose(c) => if Open(s.conns[c]) then CloseNow(s, c) else s
    case Destroy(c) => DestroyNow(s, c)
  }

  function AcceptNow(s: Server, home: Loop): (r: Server) {
    var c := s.nextConnId;
    var r := s.(nextConnId := c + 1, connections := s.connections + {c},
                conns := s.conns[c := Conn(home, Connecting, Unregistered, [])]);
    if home == BASE then EstablishNow(r, c) else QueueInLoop(r, home, Establish(c))
  }

  function Next(s: Server, step: Step): (r: Option<Server>) {
    if s.failed then None
    else
      match step
      case Accept(home) => Some(AcceptNow(s, home))
      case RunTask(l) =>
        if Queue(s, l) == [] || Queue(s, l)[0].c !in s.conns then None
        else Some(Perform(s.(queues := s.queues[l := Queue(s, l)[1..]]), Queue(s, l)[0]))
      case PeerClosed(c) =>
        if c in s.conns && s.conns[c].channel == Watched then Some(CloseNow(s, c)) else None
      case RequestShutdown(c) =>
        if c in s.conns && s.conns[c].state == Connected then
          Some(s.(conns := s.conns[c := s.conns[c].(state := Disconnecting)]))
        else None
      case RequestForceClose(c) =>
        if c in s.conns && Open(s.conns[c]) then
          Some(QueueInLoop(s.(conns := s.conns[c := s.conns[c].(state := Disconnecting)]), s.conns[c].home, ForceClose(c)))
        else None
      case ForceCloseFromOutside(c) =>
        if c in s.conns && Open(s.conns[c]) then
          Some(s.(conns := s.conns[c := s.conns[c].(state := Disconnecting)], late := s.late + multiset{c}))
        else None
      case PushForceClose(c) =>
        if c in s.late && c in s.conns then
          Some(QueueInLoop(s.(late := s.late - multiset{c}), s.conns[c].home, ForceClose(c)))
        else None
  }

  // ----- The invariant: what is queued for a connection matches how far its life has come

  function Count(s: Server, l: Loop, t: Task): (r: nat) {
    multiset(Queue(s, l))[t]
  }

  /** The server with its queues reduced to how often each task waits in them. */
  datatype Ledger = Ledger(
    nextConnId: nat,
    conns: map<ConnId, Conn>,
    connections: set<ConnId>,
    count: (Loop, Task) -> nat)

  function LedgerOf(s: Server): (r: Ledger) {
    Ledger(s.nextConnId, s.conns, s.connections, (l, t) => Count(s, l, t))
  }

  /** Everything the server holds about one connection. */
  datatype View = View(conn: Conn, listed: bool, establish: int, erase: int, destroy: int, forced: int)

  function ViewOf(b: Ledger, c: ConnId): (r: View)
    requires c in b.conns
  {
    var h := b.conns[c].home;
    View(b.conns[c], c in b.connections, b.count(h, Establish(c)), b.count(BASE, Erase(c)),
         b.count(h, Destroy(c)), b.count(h, ForceClose(c)))
  }

  predicate Consistent(v: View) {
    var k := v.conn;
    || (k.life == UNBORN && k.state == Connecting && k.channel == Unregistered
        && v.listed && v.establish == 1 && v.erase == 0 && v.destroy == 0)
    || (k.life == AFTER_UP && Open(k) && k.channel == Watched
        && v.listed && v.establish == 0 && v.erase == 0 && v.destroy == 0)
    || (k.life == AFTER_CLOSE && k.state == Disconnected && k.channel == Muted
        && v.listed && v.establish == 0 && v.erase == 1 && v.destroy == 0)
    || (k.life == AFTER_ERASE && k.state == Disconnected && k.channel == Muted
        && !v.listed && v.establish == 0 && v.erase == 0 && v.destroy == 1)
    || (k.life == FULL_LIFE && k.state == Disconnected && k.channel == Removed
        && !v.listed && v.establish == 0 && v.erase == 0 && v.destroy == 0)
  }

  /** Tasks are for known connections and wait in the right loop. */
  ghost predicate WellFiled(b: Ledger) {
    forall l, t :: b.count(l, t) > 0 ==> t.c in b.conns && l == HomeOf(b, t)
  }

  function HomeOf(b: Ledger, t: Task): (r: Loop)
    requires t.c in b.conns
  {
    if t.Erase? then BASE else b.conns[t.c].home
  }

  /** All is well, and every connection but `x` looks as `ok` wants. */
  ghost predicate InvBut(b: Ledger, x: ConnId, ok: View -> bool) {
    && (forall c :: c in b.conns ==> c < b.nextConnId)
    && (forall c :: c in b.connections ==> c in b.conns)
    && WellFiled(b)
    && (forall c :: c in b.conns && c != x ==> ok(ViewOf(b, c)))
  }

  /** All is well; the next connection does not exist yet. */
  ghost predicate Inv(s: Server) {
    !s.failed && InvBut(LedgerOf(s), s.nextConnId, Consistent)
  }

  lemma CountPush(s: Server, l: Loop, t: Task, k: Loop, u: Task)
    ensures Count(QueueInLoop(s, l, t), k, u) == Count(s, k, u) + (if k == l && u == t then 1 else 0)
  {
  }

  function Pop(s: Server, l: Loop): (r: Server)
    requires Queue(s, l) != []
  {
    s.(queues := s.queues[l := Queue(s, l)[1..]])
  }

  lemma CountPop(s: Server, l: Loop, k: Loop, u: Task)
    requires Queue(s, l) != []
    ensures Count(Pop(s, l), k, u) == Count(s, k, u) - (if k == l && u == Queue(s, l)[0] then 1 else 0)
  {
    assert Queue(s, l) == [Queue(s, l)[0]] + Queue(s, l)[1..];
  }

  /** Changing `x` leaves the others' views alone. */
  lemma ChangeOne(b: Ledger, r: Ledger, x: ConnId, ok: View -> bool)
    requires InvBut(b, x, ok) && x in b.conns && x in r.conns && r.conns[x].home == b.conns[x].home
    requires r.nextConnId == b.nextConnId && r.conns == b.conns[x := r.conns[x]]
    requires forall c :: c != x ==> (c in r.connections <==> c in b.connections)
    requires forall l, t :: r.count(l, t) == b.count(l, t)
    ensures InvBut(r, x, ok)
    ensures ViewOf(r, x) == ViewOf(b, x).(conn := r.conns[x], listed := x in r.connections)
  {
    forall c | c in r.conns && c != x ensures ViewOf(r, c) == ViewOf(b, c) {}
  }

  /** A view after `n` more of task `t` have been queued. */
  function Waiting(v: View, t: Task, n: int): (r: View) {
    match t
    case Establish(_) => v.(establish := v.establish + n)
    case Erase(_) => v.(erase := v.erase + n)
    case ForceClose(_) => v.(forced := v.forced + n)
    case Destroy(_) => v.(destroy := v.destroy + n)
  }

  /** The counts differ by `n` for task `t` in loop `h`, and nowhere else. */
  ghost predicate CountsDiffer(b: Ledger, r: Ledger, h: Loop, t: Task, n: int) {
    forall l, u :: r.count(l, u) == b.count(l, u) + (if l == h && u == t then n else 0)
  }

  lemma RequeuedView(b: Ledger, r: Ledger, t: Task, n: int)
    requires t.c in b.conns && r.conns == b.conns && r.connections == b.connections
    requires CountsDiffer(b, r, HomeOf(b, t), t, n)
    ensures ViewOf(r, t.c) == Waiting(ViewOf(b, t.c), t, n)
    ensures forall c :: c in r.conns && c != t.c ==> ViewOf(r, c) == ViewOf(b, c)
  {
  }

  /** Queueing a task for `t.c`, or taking one out, leaves the others' views alone. */
  lemma Requeue(b: Ledger, r: Ledger, t: Task, n: int, ok: View -> bool)
    requires t.c in b.conns && InvBut(b, t.c, ok)
    requires r.nextConnId == b.nextConnId && r.conns == b.conns && r.connections == b.connections
    requires CountsDiffer(b, r, HomeOf(b, t), t, n)
    ensures InvBut(r, t.c, ok) && ViewOf(r, t.c) == Waiting(ViewOf(b, t.c), t, n)
  {
    RequeuedView(b, r, t, n);
    forall l, u | r.count(l, u) > 0 ensures u.c in r.conns && l == HomeOf(r, u) {
      assert b.count(l, u) > 0 || (l == HomeOf(b, t) && u == t);
    }
  }

  lemma Enqueue(s: Server, t: Task, ok: View -> bool)
    requires t.c in s.conns && InvBut(LedgerOf(s), t.c, ok)
    ensures var r := QueueInLoop(s, HomeOf(LedgerOf(s), t), t);
            InvBut(LedgerOf(r), t.c, ok) && ViewOf(LedgerOf(r), t.c) == Waiting(ViewOf(LedgerOf(s), t.c), t, 1)
  {
    var l := HomeOf(LedgerOf(s), t);
    forall k, u { CountPush(s, l, t, k, u); }
    Requeue(LedgerOf(s), LedgerOf(QueueInLoop(s, l, t)), t, 1, ok);
  }

  lemma Dequeue(s: Server, l: Loop, ok: View -> bool)
    requires Queue(s, l) != [] && InvBut(LedgerOf(s), s.nextConnId, ok)
    ensures var r, t := Pop(s, l), Queue(s, l)[0];
            t.c in s.conns && t.c < s.nextConnId && l == HomeOf(LedgerOf(s), t) &&
            ok(ViewOf(LedgerOf(s), t.c)) &&
            InvBut(LedgerOf(r), t.c, ok) && ViewOf(LedgerOf(r), t.c) == Waiting(ViewOf(LedgerOf(s), t.c), t, -1)
  {
    var b, t := LedgerOf(s), Queue(s, l)[0];
    assert b.count(l, t) == Count(s, l, t) > 0;
    forall k, u { CountPop(s, l, k, u); }
    assert t.c in b.conns && InvBut(b, t.c, ok);
    Requeue(b, LedgerOf(Pop(s, l)), t, -1, ok);
  }

  /** A view that is well again makes the whole well. */
  lemma Restore(s: Server, c: ConnId)
    requires !s.failed && InvBut(LedgerOf(s), c, Consistent) && c in s.conns && Consistent(ViewOf(LedgerOf(s), c))
    ensures Inv(s)
  {
  }

  lemma ChangeConn(s: Server, x: ConnId, k: Conn, ok: View -> bool)
    requires x in s.conns && k.home == s.conns[x].home && InvBut(LedgerOf(s), x, ok)
    ensures var r := LedgerOf(s.(conns := s.conns[x := k]));
            InvBut(r, x, ok) && ViewOf(r, x) == ViewOf(LedgerOf(s), x).(conn := k)
  {
    ChangeOne(LedgerOf(s), LedgerOf(s.(conns := s.conns[x := k])), x, ok);
  }

  // ----- Each operation makes a connection's view the next one

  /** A view ready for each operation, its own task already taken out. */
  predicate Born(v: View) {
    && v.conn.life == UNBORN && v.conn.state == Connecting && v.conn.channel == Unregistered && v.listed
    && v.establish == 0 && v.erase == 0 && v.destroy == 0
  }

  predicate Lives(v: View) {
    && v.conn.life == AFTER_UP && Open(v.conn) && v.conn.channel == Watched && v.listed
    && v.establish == 0 && v.erase == 0 && v.destroy == 0
  }

  predicate Shut(v: View) {
    && v.conn.life == AFTER_CLOSE && v.conn.state == Disconnected && v.conn.channel == Muted && v.listed
    && v.establish == 0 && v.erase == 0 && v.destroy == 0
  }

  predicate Doomed(v: View) {
    && v.conn.life == AFTER_ERASE && v.conn.state == Disconnected && v.conn.channel == Muted && !v.listed
    && v.establish == 0 && v.erase == 0 && v.destroy == 0
  }

  lemma LifeGrows()
    ensures UNBORN + [Up] == AFTER_UP && AFTER_UP + [Down, Closed] == AFTER_CLOSE
    ensures AFTER_CLOSE + [Erased] == AFTER_ERASE && AFTER_ERASE + [Destroyed] == FULL_LIFE
  {
  }

  /** The operation went well, left the others alone and `c` consistent. */
  ghost predicate Done(s: Server, c: ConnId, ok: View -> bool) {
    !s.failed && c in s.conns && InvBut(LedgerOf(s), c, ok) && Consistent(ViewOf(LedgerOf(s), c))
  }

  lemma EstablishDone(s: Server, c: ConnId, ok: View -> bool)
    requires !s.failed && InvBut(LedgerOf(s), c, ok) && c in s.conns && Born(ViewOf(LedgerOf(s), c))
    ensures Done(EstablishNow(s, c), c, ok)
  {
    ChangeConn(s, c, EstablishNow(s, c).conns[c], ok);
    LifeGrows();
  }

  lemma EraseDone(s: Server, c: ConnId, ok: View -> bool)
    requires !s.failed && InvBut(LedgerOf(s), c, ok) && c in s.conns && Shut(ViewOf(LedgerOf(s), c))
    ensures Done(EraseNow(s, c), c, ok)
  {
    var r := s.(connections := s.connections - {c}, conns := s.conns[c := s.conns[c].(life := s.conns[c].life + [Erased])]);
    ChangeOne(LedgerOf(s), LedgerOf(r), c, ok);
    LifeGrows();
    Enqueue(r, Destroy(c), ok);
  }

  lemma CloseDone(s: Server, c: ConnId, ok: View -> bool)
    requires !s.failed && InvBut(LedgerOf(s), c, ok) && c in s.conns && Lives(ViewOf(LedgerOf(s), c))
    ensures Done(CloseNow(s, c), c, ok)
  {
    var k := s.conns[c].(state := Disconnected, channel := Muted, life := s.conns[c].life + [Down, Closed]);
    var r := s.(conns := s.conns[c := k]);
    ChangeConn(s, c, k, ok);
    LifeGrows();
    if k.home == BASE {
      EraseDone(r, c, ok);
    } else {
      Enqueue(r, Erase(c), ok);
    }
  }

  lemma DestroyDone(s: Server, c: ConnId, ok: View -> bool)
    requires !s.failed && InvBut(LedgerOf(s), c, ok) && c in s.conns && Doomed(ViewOf(LedgerOf(s), c))
    ensures Done(DestroyNow(s, c), c, ok)
  {
    ChangeConn(s, c, s.conns[c].(channel := Removed, life := s.conns[c].life + [Destroyed]), ok);
    LifeGrows();
  }

  /** A waiting task finds its connection ready for it. */
  lemma TaskFindsItsView(v: View, t: Task)
    requires Consistent(v)
    ensures t.Establish? && v.establish > 0 ==> Born(Waiting(v, t, -1))
    ensures t.Erase? && v.erase > 0 ==> Shut(Waiting(v, t, -1))
    ensures t.Destroy? && v.destroy > 0 ==> Doomed(Waiting(v, t, -1))
    ensures t.ForceClose? && v.forced > 0 && Open(v.conn) ==> Lives(Waiting(v, t, -1))
    ensures t.ForceClose? && v.forced > 0 ==> Consistent(Waiting(v, t, -1))
    ensures v.conn.channel == Watched || Open(v.conn) ==> Lives(v)
  {
  }

  lemma TaskDone(s: Server, l: Loop, ok: View -> bool)
    requires !s.failed && Queue(s, l) != [] && InvBut(LedgerOf(s), s.nextConnId, ok)
    requires forall v :: ok(v) ==> Consistent(v)
    ensures var t := Queue(s, l)[0];
            t.c in s.conns && Done(Perform(Pop(s, l), t), t.c, ok)
  {
    var r, t := Pop(s, l), Queue(s, l)[0];
    Dequeue(s, l, ok);
    CountPositive(s, l);
    var v := ViewOf(LedgerOf(s), t.c);
    TaskFindsItsView(v, t);
    match t
    case Establish(c) => assert v.establish > 0; EstablishDone(r, c, ok);
    case Erase(c) => assert v.erase > 0; EraseDone(r, c, ok);
    case ForceClose(c) => assert v.forced > 0; if Open(r.conns[c]) { CloseDone(r, c, ok); }
    case Destroy(c) => assert v.destroy > 0; DestroyDone(r, c, ok);
  }

  lemma CountPositive(s: Server, l: Loop)
    requires Queue(s, l) != []
    ensures Count(s, l, Queue(s, l)[0]) > 0
  {
  }

  function Listed(s: Server, home: Loop): (r: Server) {
    s.(nextConnId := s.nextConnId + 1, connections := s.connections + {s.nextConnId},
       conns := s.conns[s.nextConnId := Conn(home, Connecting, Unregistered, [])])
  }

  /** A connection nobody has heard of is added. */
  lemma NewcomerLedger(b: Ledger, d: Ledger, c: ConnId, k: Conn, ok: View -> bool)
    requires InvBut(b, c, ok) && c == b.nextConnId && d.nextConnId == c + 1
    requires d.conns == b.conns[c := k] && d.connections == b.connections + {c}
    requires forall l, t :: d.count(l, t) == b.count(l, t)
    ensures InvBut(d, c, ok)
    ensures ViewOf(d, c) == View(k, true, 0, 0, 0, 0)
  {
    NewcomerFiled(b, d, c, k);
    forall x | x in d.conns && x != c ensures ok(ViewOf(d, x)) {
      assert ViewOf(d, x) == ViewOf(b, x);
    }
    NoTasksYet(b, c);
    assert d.count(k.home, Establish(c)) == 0 && d.count(BASE, Erase(c)) == 0;
    assert d.count(k.home, Destroy(c)) == 0 && d.count(k.home, ForceClose(c)) == 0;
  }

  lemma NewcomerFiled(b: Ledger, d: Ledger, c: ConnId, k: Conn)
    requires WellFiled(b) && c !in b.conns && d.conns == b.conns[c := k]
    requires forall l, t :: d.count(l, t) == b.count(l, t)
    ensures WellFiled(d)
  {
  }

  lemma NoTasksYet(b: Ledger, c: ConnId)
    requires WellFiled(b) && c !in b.conns
    ensures forall l: Loop, t: Task :: t.c == c ==> b.count(l, t) == 0
  {
  }

  lemma NewcomerListed(s: Server, home: Loop, ok: View -> bool)
    requires InvBut(LedgerOf(s), s.nextConnId, ok)
    ensures InvBut(LedgerOf(Listed(s, home)), s.nextConnId, ok)
    ensures Born(ViewOf(LedgerOf(Listed(s, home)), s.nextConnId))
  {
    var b, d := LedgerOf(s), LedgerOf(Listed(s, home));
    forall l, t ensures d.count(l, t) == b.count(l, t) {}
    NewcomerLedger(b, d, s.nextConnId, Conn(home, Connecting, Unregistered, []), ok);
  }

  lemma AcceptDone(s: Server, home: Loop, ok: View -> bool)
    requires !s.failed && InvBut(LedgerOf(s), s.nextConnId, ok)
    ensures Done(AcceptNow(s, home), s.nextConnId, ok)
  {
    NewcomerListed(s, home, ok);
    if home == BASE {
      EstablishDone(Listed(s, home), s.nextConnId, ok);
      assert AcceptNow(s, home) == EstablishNow(Listed(s, home), s.nextConnId);
    } else {
      AwayDone(Listed(s, home), s.nextConnId, ok);
      assert AcceptNow(s, home) == QueueInLoop(Listed(s, home), home, Establish(s.nextConnId));
    }
  }

  lemma AwayDone(s: Server, c: ConnId, ok: View -> bool)
    requires !s.failed && c in s.conns && s.conns[c].home != BASE
    requires InvBut(LedgerOf(s), c, ok) && Born(ViewOf(LedgerOf(s), c))
    ensures Done(QueueInLoop(s, s.conns[c].home, Establish(c)), c, ok)
  {
    Enqueue(s, Establish(c), ok);
  }

  function Leaving(s: Server, c: ConnId): (r: Server)
    requires c in s.conns
  {
    s.(conns := s.conns[c := s.conns[c].(state := Disconnecting)])
  }

  lemma ShutdownDone(s: Server, c: ConnId, ok: View -> bool)
    requires !s.failed && InvBut(LedgerOf(s), c, ok) && c in s.conns && Lives(ViewOf(LedgerOf(s), c))
    ensures Done(Leaving(s, c), c, ok) && Lives(ViewOf(LedgerOf(Leaving(s, c)), c))
  {
    ChangeConn(s, c, s.conns[c].(state := Disconnecting), ok);
  }

  lemma ForceCloseDone(s: Server, c: ConnId, ok: View -> bool)
    requires !s.failed && InvBut(LedgerOf(s), c, ok) && c in s.conns && Lives(ViewOf(LedgerOf(s), c))
    ensures Done(QueueInLoop(Leaving(s, c), s.conns[c].home, ForceClose(c)), c, ok)
  {
    ShutdownDone(s, c, ok);
    Enqueue(Leaving(s, c), ForceClose(c), ok);
  }

  /** Who is about to queue what does not show in the views. */
  lemma LateUnseen(s: Server, r: Server, x: ConnId, ok: View -> bool)
    requires r == s.(late := r.late) && InvBut(LedgerOf(s), x, ok)
    ensures InvBut(LedgerOf(r), x, ok)
    ensures forall c :: c in s.conns ==> ViewOf(LedgerOf(r), c) == ViewOf(LedgerOf(s), c)
  {
    var b, d := LedgerOf(s), LedgerOf(r);
    forall l, t ensures d.count(l, t) == b.count(l, t) {}
    forall c | c in s.conns ensures ViewOf(d, c) == ViewOf(b, c) {}
  }

  lemma OutsideDone(s: Server, c: ConnId, late: multiset<ConnId>, ok: View -> bool)
    requires !s.failed && InvBut(LedgerOf(s), c, ok) && c in s.conns && Lives(ViewOf(LedgerOf(s), c))
    ensures Done(Leaving(s, c).(late := late), c, ok)
  {
    ShutdownDone(s, c, ok);
    LateUnseen(Leaving(s, c), Leaving(s, c).(late := late), c, ok);
  }

  /** A forced close that comes late finds its connection in any state. */
  lemma PushDone(s: Server, c: ConnId, late: multiset<ConnId>, ok: View -> bool)
    requires !s.failed && InvBut(LedgerOf(s), c, ok) && c in s.conns && Consistent(ViewOf(LedgerOf(s), c))
    ensures Done(QueueInLoop(s.(late := late), s.conns[c].home, ForceClose(c)), c, ok)
  {
    var r := s.(late := late);
    LateUnseen(s, r, c, ok);
    Enqueue(r, ForceClose(c), ok);
  }

  lemma ViewsAreConsistent(s: Server, c: ConnId)
    requires Inv(s) && c in s.conns
    ensures Consistent(ViewOf(LedgerOf(s), c)) && InvBut(LedgerOf(s), c, Consistent)
  {
  }

  lemma OnItsWayUp(s: Server, c: ConnId)
    requires Inv(s) && c in s.conns && (s.conns[c].channel == Watched || Open(s.conns[c]))
    ensures InvBut(LedgerOf(s), c, Consistent) && Lives(ViewOf(LedgerOf(s), c))
  {
    ViewsAreConsistent(s, c);
    TaskFindsItsView(ViewOf(LedgerOf(s), c), Establish(c));
  }

  /** The connection a step is about. */
  function Subject(s: Server, step: Step): (c: ConnId)
    requires Next(s, step).Some?
  {
    match step
    case Accept(_) => s.nextConnId
    case RunTask(l) => Queue(s, l)[0].c
    case PeerClosed(c) => c
    case RequestShutdown(c) => c
    case RequestForceClose(c) => c
    case ForceCloseFromOutside(c) => c
    case PushForceClose(c) => c
  }

  lemma RequestKeeps(s: Server, step: Step)
    requires Inv(s) && Next(s, step).Some? && !step.Accept? && !step.RunTask? && !step.PushForceClose?
    ensures Done(Next(s, step).value, Subject(s, step), Consistent)
  {
    var c := Subject(s, step);
    OnItsWayUp(s, c);
    match step
    case PeerClosed(_) => CloseDone(s, c, Consistent);
    case RequestShutdown(_) => ShutdownDone(s, c, Consistent);
    case RequestForceClose(_) => ForceCloseDone(s, c, Consistent);
    case ForceCloseFromOutside(_) => OutsideDone(s, c, s.late + multiset{c}, Consistent);
  }

  lemma PushKeeps(s: Server, c: ConnId)
    requires Inv(s) && Next(s, PushForceClose(c)).Some?
    ensures Done(Next(s, PushForceClose(c)).value, c, Consistent)
  {
    var late := s.late - multiset{c};
    ViewsAreConsistent(s, c);
    PushDone(s, c, late, Consistent);
    assert Next(s, PushForceClose(c)) == Some(QueueInLoop(s.(late := late), s.conns[c].home, ForceClose(c)));
  }

  lemma StepKeeps(s: Server, step: Step)
    requires Inv(s) && Next(s, step).Some?
    ensures Inv(Next(s, step).value)
  {
    match step {
      case Accept(home) => AcceptDone(s, home, Consistent);
      case RunTask(l) => TaskDone(s, l, Consistent);
      case PushForceClose(c) => PushKeeps(s, c);
      case _ => RequestKeeps(s, step);
    }
    Restore(Next(s, step).value, Subject(s, step));
  }

  // ----- Every run

  lemma RunInv(steps: seq<Step>)
    requires Run(Next, Fresh, steps).Some?
    ensures Inv(Run(Next, Fresh, steps).value)
  {
    assert Inv(Fresh);
    forall s, l | Inv(s) && Next(s, l).Some? ensures Inv(Next(s, l).value) {
      StepKeeps(s, l);
    }
    RunKeeps(Next, s => Inv(s), Fresh, steps);
  }

  /** In every interleaving no assertion fires, and every connection's life is a
      beginning of: up, down, closed, erased, destroyed, each at most once and in
      that order. It is in the map until erased; its channel is registered from up
      to destroyed and watches for events exactly between up and down. */
  lemma LivesInOrder(steps: seq<Step>, c: ConnId)
    requires Run(Next, Fresh, steps).Some?
    requires c in Run(Next, Fresh, steps).value.conns
    ensures var s := Run(Next, Fresh, steps).value; var k := s.conns[c];
            && !s.failed
            && k.life <= [Up, Down, Closed, Erased, Destroyed]
            && (c in s.connections <==> Erased !in k.life)
            && (k.channel == Unregistered <==> Up !in k.life)
            && (k.channel == Watched <==> Up in k.life && Down !in k.life)
            && (k.channel == Removed <==> Destroyed in k.life)
            && (k.state == Disconnected <==> Closed in k.life)
  {
    RunInv(steps);
    ViewsAreConsistent(Run(Next, Fresh, steps).value, c);
  }

  /** A queued task can always be performed. */
  lemma TasksCanRun(steps: seq<Step>, l: Loop)
    requires Run(Next, Fresh, steps).Some? && Queue(Run(Next, Fresh, steps).value, l) != []
    ensures Next(Run(Next, Fresh, steps).value, RunTask(l)).Some?
  {
    RunInv(steps);
    Dequeue(Run(Next, Fresh, steps).value, l, Consistent);
  }
}
