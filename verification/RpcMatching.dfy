/** Remote calls: callers on many threads, a server that answers each request at
    most once and in any order, and a FIFO connection each way. */
module RpcMatching {
  import opened Runs

  type Id = nat
  type Thread = nat

  type Name = nat

  /** What is asked of which method of which service. */
  datatype Request = Request(service: Name, operation: Name, argument: nat)

  /** The server's services, each with its methods; none at all if it was given no map. */
  type Services = Option<map<Name, set<Name>>>

  predicate Offers(services: Services, r: Request) {
    services.Some? && r.service in services.value && r.operation in services.value[r.service]
  }

  /** A call's request, and whether the caller gave a response prototype and a callback. */
  datatype Call = Call(request: Request, hasPrototype: bool, hasDone: bool) {
    predicate WantsReply() { hasPrototype && hasDone }
  }

  /** A message with its id: a request, a reply, or a reply handed to its callback. */
  datatype Msg<B> = Msg(id: Id, body: B)

  /** `CallMethod` between its three interleavable parts. */
  datatype ThreadAt = Idle | HasId(id: Id) | HasRegistered(id: Id)

  /** How far a call has come. */
  datatype Stage =
    | Taken(thread: Thread) | Registered(thread: Thread) | Sent | Serving | Answered | Finished | Ignored

  /** `issued`, `stage`, `replies` and `servedFor` record each id's call, progress,
      reply and the request the server replied to; `finished` are the callbacks
      run and `unknown` counts replies that matched no outstanding call. */
  datatype Rpc = Rpc(
    services: Services,
    counter: nat,
    threads: map<Thread, ThreadAt>,
    outstandings: map<Id, Call>,
    toServer: seq<Msg<Request>>,
    serving: map<Id, Request>,
    toClient: seq<Msg<nat>>,
    finished: seq<Msg<nat>>,
    unknown: nat,
    issued: map<Id, Call>,
    stage: map<Id, Stage>,
    replies: map<Id, nat>,
    servedFor: map<Id, Request>)

  function Fresh(services: Services): (r: Rpc) {
    Rpc(services, 0, map[], map[], [], map[], [], [], 0, map[], map[], map[], map[])
  }

  datatype Step =
    | TakeId(t: Thread, call: Call)
    | Register(t: Thread)
    | Transmit(t: Thread)
    | ServerReceives
    | ServerAnswers(id: Id, reply: nat)
    | ClientReceives

  function At(s: Rpc, t: Thread): (r: ThreadAt) {
    if t in s.threads then s.threads[t] else Idle
  }

  function Answer(s: Rpc, id: Id, reply: nat): (r: Rpc)
    requires id in s.serving
  {
    s.(serving := s.serving - {id}, toClient := s.toClient + [Msg(id, reply)], stage := s.stage[id := Answered],
       replies := s.replies[id := reply], servedFor := s.servedFor[id := s.serving[id]])
  }

  /** A reply comes in: the outstanding call is found and erased, and its callback
      run if it left one. */
  function Receive(s: Rpc, m: Msg<nat>): (r: Rpc) {
    if m.id !in s.outstandings then s.(unknown := s.unknown + 1)
    else
      s.(outstandings := s.outstandings - {m.id}, stage := s.stage[m.id := Finished],
         finished := if s.outstandings[m.id].WantsReply() then s.finished + [m] else s.finished)
  }

  /** A request comes in: it is served, or dropped without a word when no such
      service or method is there. */
  function Serve(s: Rpc, m: Msg<Request>): (r: Rpc) {
    if Offers(s.services, m.body) then Served(s, m) else Ignore(s, m)
  }

  function Served(s: Rpc, m: Msg<Request>): (r: Rpc) {
    s.(serving := s.serving[m.id := m.body], stage := s.stage[m.id := Serving])
  }

  function Ignore(s: Rpc, m: Msg<Request>): (r: Rpc) {
    s.(stage := s.stage[m.id := Ignored])
  }

  function Next(s: Rpc, step: Step): (r: Option<Rpc>) {
    match step
    case TakeId(t, call) =>
      if At(s, t) != Idle then None
      else
        var id := s.counter + 1;
        Some(s.(counter := id, threads := s.threads[t := HasId(id)],
                issued := s.issued[id := call], stage := s.stage[id := Taken(t)]))
    case Register(t) =>
      if !At(s, t).HasId? || At(s, t).id !in s.issued then None
      else
        var id := At(s, t).id;
        Some(s.(outstandings := s.outstandings[id := s.issued[id]],
                threads := s.threads[t := HasRegistered(id)], stage := s.stage[id := Registered(t)]))
    case Transmit(t) =>
      if !At(s, t).HasRegistered? || At(s, t).id !in s.issued then None
      else
        var id := At(s, t).id;
        Some(s.(toServer := s.toServer + [Msg(id, s.issued[id].request)],
                threads := s.threads[t := Idle], stage := s.stage[id := Sent]))
    case ServerReceives =>
      if s.toServer == [] then None
      else Some(Serve(s.(toServer := s.toServer[1..]), s.toServer[0]))
    case ServerAnswers(id, reply) =>
      if id !in s.serving then None else Some(Answer(s, id, reply))
    case ClientReceives =>
      if s.toClient == [] then None
      else Some(Receive(s.(toClient := s.toClient[1..]), s.toClient[0]))
  }

  // ----- The invariant

  ghost predicate Distinct<B>(ms: seq<Msg<B>>) {
    forall i, j :: 0 <= i < j < |ms| ==> ms[i].id != ms[j].id
  }

  ghost predicate Holds<B(!new)>(ms: seq<Msg<B>>, id: Id) {
    exists m :: m in ms && m.id == id
  }

  lemma Push<B(!new)>(ms: seq<Msg<B>>, m: Msg<B>)
    requires Distinct(ms) && !Holds(ms, m.id)
    ensures Distinct(ms + [m])
    ensures forall id :: Holds(ms + [m], id) <==> Holds(ms, id) || id == m.id
  {
    forall i | 0 <= i < |ms| ensures ms[i].id != m.id {
      assert ms[i] in ms;
    }
    forall id ensures Holds(ms + [m], id) <==> Holds(ms, id) || id == m.id {
      if Holds(ms, id) {
        var x :| x in ms && x.id == id;
        assert x in ms + [m];
      }
      assert m in ms + [m];
    }
  }

  lemma Pop<B(!new)>(ms: seq<Msg<B>>)
    requires Distinct(ms) && ms != []
    ensures Distinct(ms[1..]) && Holds(ms, ms[0].id)
    ensures forall id :: Holds(ms[1..], id) <==> Holds(ms, id) && id != ms[0].id
  {
    assert ms == [ms[0]] + ms[1..];
    assert ms[0] in ms;
    forall id ensures Holds(ms[1..], id) <==> Holds(ms, id) && id != ms[0].id {
      if Holds(ms[1..], id) {
        var x :| x in ms[1..] && x.id == id;
        assert x in ms;
      }
      if Holds(ms, id) && id != ms[0].id {
        var x :| x in ms && x.id == id;
        assert x in ms[1..];
      }
    }
  }

  /** Where each id is: the thread that has it, and the places that hold it. */
  datatype Ledger = Ledger(
    counter: nat,
    stage: map<Id, Stage>,
    at: Thread -> ThreadAt,
    outstanding: Id -> bool,
    sent: Id -> bool,
    serving: Id -> bool,
    answered: Id -> bool,
    ran: Id -> bool,
    wants: Id -> bool)

  ghost function LedgerOf(s: Rpc): (r: Ledger) {
    Ledger(s.counter, s.stage, (t: Thread) => At(s, t), (id: Id) => id in s.outstandings,
           (id: Id) => Holds(s.toServer, id), (id: Id) => id in s.serving, (id: Id) => Holds(s.toClient, id),
           (id: Id) => Holds(s.finished, id), (id: Id) => id in s.issued && s.issued[id].WantsReply())
  }

  predicate Is(b: Ledger, id: Id, g: Stage) {
    id in b.stage && b.stage[id] == g
  }

  predicate IsOutstanding(g: Stage) {
    !g.Taken? && g != Finished
  }

  /** Each place holds exactly the ids whose stage says so. */
  ghost predicate Placed(b: Ledger, id: Id) {
    && (id in b.stage <==> 1 <= id <= b.counter)
    && (b.outstanding(id) <==> id in b.stage && IsOutstanding(b.stage[id]))
    && (b.sent(id) <==> Is(b, id, Sent))
    && (b.serving(id) <==> Is(b, id, Serving))
    && (b.answered(id) <==> Is(b, id, Answered))
    && (b.ran(id) <==> Is(b, id, Finished) && b.wants(id))
  }

  ghost predicate ThreadPlaced(b: Ledger, t: Thread) {
    && (forall id :: b.at(t) == HasId(id) <==> Is(b, id, Taken(t)))
    && (forall id :: b.at(t) == HasRegistered(id) <==> Is(b, id, Registered(t)))
  }

  ghost predicate LedgerOk(b: Ledger) {
    (forall id :: Placed(b, id)) && (forall t :: ThreadPlaced(b, t))
  }

  /** Apart from `x` the two ledgers show the same. */
  ghost predicate SameBut(b: Ledger, r: Ledger, x: Id) {
    && x in r.stage && r.stage == b.stage[x := r.stage[x]]
    && (r.counter == b.counter || (r.counter == b.counter + 1 == x))
    && (forall id :: id != x ==>
          && r.outstanding(id) == b.outstanding(id) && r.sent(id) == b.sent(id) && r.serving(id) == b.serving(id)
          && r.answered(id) == b.answered(id) && r.ran(id) == b.ran(id) && r.wants(id) == b.wants(id))
  }

  /** A call moves on; no thread is involved. */
  lemma MoveOn(b: Ledger, r: Ledger, x: Id)
    requires LedgerOk(b) && SameBut(b, r, x) && Placed(r, x) && x in b.stage
    requires forall t :: r.at(t) == b.at(t)
    requires !b.stage[x].Taken? && !b.stage[x].Registered? && !r.stage[x].Taken? && !r.stage[x].Registered?
    ensures LedgerOk(r)
  {
    forall id ensures Placed(r, id) { assert Placed(b, id); }
    forall t ensures ThreadPlaced(r, t) { assert ThreadPlaced(b, t); }
  }

  /** Thread `u` takes up a call, moves it on, or lets go of it. */
  lemma ThreadMoves(b: Ledger, r: Ledger, x: Id, u: Thread)
    requires LedgerOk(b) && SameBut(b, r, x) && Placed(r, x)
    requires forall t :: t != u ==> r.at(t) == b.at(t)
    requires b.at(u) == Idle || b.at(u).id == x
    requires x in b.stage ==> b.stage[x] == Taken(u) || b.stage[x] == Registered(u)
    requires r.stage[x] == (match r.at(u) case Idle => Sent case HasId(_) => Taken(u) case HasRegistered(_) => Registered(u))
    requires r.at(u) == Idle || r.at(u).id == x
    ensures LedgerOk(r)
  {
    forall id ensures Placed(r, id) { assert Placed(b, id); }
    forall t ensures ThreadPlaced(r, t) { assert ThreadPlaced(b, t); }
  }

  // ----- Bodies

  ghost predicate RequestsRight(s: Rpc, ms: seq<Msg<Request>>) {
    forall i :: 0 <= i < |ms| ==> ms[i].id in s.issued && ms[i].body == s.issued[ms[i].id].request
  }

  ghost predicate RepliesRight(s: Rpc, ms: seq<Msg<nat>>) {
    forall i :: 0 <= i < |ms| ==> ms[i].id in s.replies && ms[i].body == s.replies[ms[i].id]
  }

  ghost predicate BodiesRight(s: Rpc) {
    && (forall id :: id in s.outstandings ==> id in s.issued && s.outstandings[id] == s.issued[id])
    && RequestsRight(s, s.toServer)
    && (forall id :: id in s.serving ==> id in s.issued && s.serving[id] == s.issued[id].request)
    && RepliesRight(s, s.toClient) && RepliesRight(s, s.finished)
    && (forall id :: id in s.servedFor ==> id in s.issued && s.servedFor[id] == s.issued[id].request)
    && s.replies.Keys == s.servedFor.Keys
  }

  ghost predicate Records(s: Rpc) {
    && s.unknown == 0
    && (forall id :: id in s.issued <==> id in s.stage)
    && (forall id :: id in s.replies ==> id in s.stage && (s.stage[id] == Answered || s.stage[id] == Finished))
  }

  /** A call is ignored if its service or method is not there, and served if it is. */
  ghost predicate LookedUp(s: Rpc) {
    forall id :: id in s.stage && id in s.issued ==>
      && (s.stage[id] == Ignored ==> !Offers(s.services, s.issued[id].request))
      && (s.stage[id] == Serving || s.stage[id] == Answered || s.stage[id] == Finished ==>
            Offers(s.services, s.issued[id].request))
  }

  ghost predicate Wires(s: Rpc) {
    Distinct(s.toServer) && Distinct(s.toClient) && Distinct(s.finished) && LedgerOk(LedgerOf(s))
  }

  ghost predicate Inv(s: Rpc) {
    Records(s) && Wires(s) && BodiesRight(s) && LookedUp(s)
  }

  lemma TakeWires(s: Rpc, t: Thread, call: Call)
    requires Wires(s) && At(s, t) == Idle
    ensures Wires(Next(s, TakeId(t, call)).value) && s.counter + 1 !in s.stage
  {
    var b, x := LedgerOf(s), s.counter + 1;
    assert Placed(b, x);
    ThreadMoves(b, LedgerOf(Next(s, TakeId(t, call)).value), x, t);
  }

  lemma RegisterWires(s: Rpc, t: Thread)
    requires Wires(s) && Next(s, Register(t)).Some?
    ensures Wires(Next(s, Register(t)).value) && At(s, t).id in s.stage && s.stage[At(s, t).id] == Taken(t)
  {
    var b, x := LedgerOf(s), At(s, t).id;
    assert ThreadPlaced(b, t) && b.at(t) == HasId(x);
    assert Placed(b, x);
    ThreadMoves(b, LedgerOf(Next(s, Register(t)).value), x, t);
  }

  lemma TransmitWires(s: Rpc, t: Thread)
    requires Wires(s) && Next(s, Transmit(t)).Some?
    ensures Wires(Next(s, Transmit(t)).value) && At(s, t).id in s.stage && s.stage[At(s, t).id] == Registered(t)
  {
    var b, x := LedgerOf(s), At(s, t).id;
    assert ThreadPlaced(b, t) && b.at(t) == HasRegistered(x);
    assert Placed(b, x);
    Push(s.toServer, Msg(x, s.issued[x].request));
    ThreadMoves(b, LedgerOf(Next(s, Transmit(t)).value), x, t);
  }

  lemma ServedWires(s: Rpc)
    requires Wires(s) && s.toServer != [] && s.toServer[0].id in s.stage && s.stage[s.toServer[0].id] == Sent
    ensures Wires(Served(s.(toServer := s.toServer[1..]), s.toServer[0]))
  {
    var b, m := LedgerOf(s), s.toServer[0];
    Pop(s.toServer);
    assert Placed(b, m.id);
    MoveOn(b, LedgerOf(Served(s.(toServer := s.toServer[1..]), m)), m.id);
  }

  lemma IgnoredWires(s: Rpc)
    requires Wires(s) && s.toServer != [] && s.toServer[0].id in s.stage && s.stage[s.toServer[0].id] == Sent
    ensures Wires(Ignore(s.(toServer := s.toServer[1..]), s.toServer[0]))
  {
    var b, m := LedgerOf(s), s.toServer[0];
    Pop(s.toServer);
    assert Placed(b, m.id);
    MoveOn(b, LedgerOf(Ignore(s.(toServer := s.toServer[1..]), m)), m.id);
  }

  lemma SentComesIn(s: Rpc)
    requires Wires(s) && s.toServer != []
    ensures s.toServer[0].id in s.stage && s.stage[s.toServer[0].id] == Sent
  {
    Pop(s.toServer);
    assert Placed(LedgerOf(s), s.toServer[0].id);
  }

  lemma ServerTakesWires(s: Rpc)
    requires Wires(s) && s.toServer != []
    ensures Wires(Next(s, ServerReceives).value)
  {
    SentComesIn(s);
    if Offers(s.services, s.toServer[0].body) {
      ServedWires(s);
    } else {
      IgnoredWires(s);
    }
  }

  lemma AnswerLedger(s: Rpc, id: Id, reply: nat)
    requires id in s.serving && Distinct(s.toClient) && !Holds(s.toClient, id)
    ensures var r := Answer(s, id, reply);
            Distinct(r.toClient) && Holds(r.toClient, id) && SameBut(LedgerOf(s), LedgerOf(r), id)
  {
    Push(s.toClient, Msg(id, reply));
  }

  lemma AnswerWires(s: Rpc, id: Id, reply: nat)
    requires Wires(s) && id in s.serving
    ensures Wires(Answer(s, id, reply)) && id in s.stage && s.stage[id] == Serving
  {
    var b := LedgerOf(s);
    assert Placed(b, id) && b.serving(id);
    AnswerLedger(s, id, reply);
    MoveOn(b, LedgerOf(Answer(s, id, reply)), id);
  }

  lemma ReceiveLedger(s: Rpc)
    requires s.toClient != [] && Distinct(s.toClient) && Distinct(s.finished)
    requires s.toClient[0].id in s.outstandings && !Holds(s.finished, s.toClient[0].id)
    ensures var m := s.toClient[0]; var r := Receive(s.(toClient := s.toClient[1..]), m);
            && Distinct(r.toClient) && Distinct(r.finished) && !Holds(r.toClient, m.id)
            && Holds(r.finished, m.id) == s.outstandings[m.id].WantsReply()
            && SameBut(LedgerOf(s), LedgerOf(r), m.id)
  {
    Pop(s.toClient);
    ReceiveRuns(s.(toClient := s.toClient[1..]), s.toClient[0]);
  }

  lemma ReceiveWires(s: Rpc)
    requires Wires(s) && s.toClient != []
    requires forall id :: id in s.outstandings ==> id in s.issued && s.outstandings[id] == s.issued[id]
    ensures Wires(Next(s, ClientReceives).value)
    ensures s.toClient[0].id in s.outstandings && s.toClient[0].id in s.stage
  {
    var m, b := s.toClient[0], LedgerOf(s);
    Pop(s.toClient);
    assert Placed(b, m.id) && b.answered(m.id);
    ReceiveLedger(s);
    MoveOn(b, LedgerOf(Receive(s.(toClient := s.toClient[1..]), m)), m.id);
  }

  lemma ReceiveRuns(s: Rpc, m: Msg<nat>)
    requires m.id in s.outstandings && Distinct(s.finished) && !Holds(s.finished, m.id)
    ensures var r := Receive(s, m);
            && Distinct(r.finished)
            && (forall id :: id != m.id ==> Holds(r.finished, id) == Holds(s.finished, id))
            && Holds(r.finished, m.id) == s.outstandings[m.id].WantsReply()
  {
    if s.outstandings[m.id].WantsReply() {
      Push(s.finished, m);
    }
  }

  lemma TakeBodies(s: Rpc, t: Thread, call: Call)
    requires BodiesRight(s) && Records(s) && At(s, t) == Idle && s.counter + 1 !in s.stage
    ensures var r := Next(s, TakeId(t, call)).value; BodiesRight(r) && Records(r)
  {
  }

  lemma RegisterBodies(s: Rpc, t: Thread)
    requires BodiesRight(s) && Records(s) && Next(s, Register(t)).Some?
    requires At(s, t).id in s.stage && s.stage[At(s, t).id] == Taken(t)
    ensures var r := Next(s, Register(t)).value; BodiesRight(r) && Records(r)
  {
  }

  lemma TransmitBodies(s: Rpc, t: Thread)
    requires BodiesRight(s) && Records(s) && Next(s, Transmit(t)).Some?
    requires At(s, t).id in s.stage && s.stage[At(s, t).id] == Registered(t)
    ensures var r := Next(s, Transmit(t)).value; BodiesRight(r) && Records(r)
  {
  }

  lemma ServerTakesBodies(s: Rpc)
    requires BodiesRight(s) && Records(s) && s.toServer != []
    requires s.toServer[0].id in s.stage && s.stage[s.toServer[0].id] == Sent
    ensures var r := Next(s, ServerReceives).value; BodiesRight(r) && Records(r)
  {
    var p, m := s.(toServer := s.toServer[1..]), s.toServer[0];
    assert BodiesRight(p);
    if Offers(s.services, m.body) {
      ServedBodies(p, m);
    } else {
      IgnoredBodies(p, m);
    }
  }

  lemma ServedBodies(s: Rpc, m: Msg<Request>)
    requires BodiesRight(s) && Records(s) && m.id in s.issued && m.body == s.issued[m.id].request
    requires m.id in s.stage && s.stage[m.id] == Sent
    ensures BodiesRight(Served(s, m)) && Records(Served(s, m))
  {
  }

  lemma IgnoredBodies(s: Rpc, m: Msg<Request>)
    requires BodiesRight(s) && Records(s) && m.id in s.stage && s.stage[m.id] == Sent
    ensures BodiesRight(Ignore(s, m)) && Records(Ignore(s, m))
  {
  }

  lemma AnswerBodies(s: Rpc, id: Id, reply: nat)
    requires BodiesRight(s) && Records(s) && id in s.serving && id in s.stage && s.stage[id] == Serving
    ensures var r := Answer(s, id, reply); BodiesRight(r) && Records(r)
  {
    assert id !in s.replies;
  }

  lemma ReceiveBodies(s: Rpc)
    requires BodiesRight(s) && Records(s) && s.toClient != [] && s.toClient[0].id in s.outstandings
    requires s.toClient[0].id in s.stage
    ensures var r := Next(s, ClientReceives).value; BodiesRight(r) && Records(r)
  {
  }

  /** Call `x` comes to stage `g`. */
  lemma StageMoves(s: Rpc, r: Rpc, x: Id, g: Stage)
    requires LookedUp(s) && r.services == s.services && r.stage == s.stage[x := g]
    requires forall id :: id in r.issued && id != x ==> id in s.issued && r.issued[id] == s.issued[id]
    requires x in r.issued ==>
               && (g == Ignored ==> !Offers(s.services, r.issued[x].request))
               && (g == Serving || g == Answered || g == Finished ==> Offers(s.services, r.issued[x].request))
    ensures LookedUp(r)
  {
  }

  /** The lookup is made once, when the server takes the request. */
  lemma StepLookedUp(s: Rpc, step: Step)
    requires Inv(s) && Next(s, step).Some?
    ensures LookedUp(Next(s, step).value)
  {
    var r := Next(s, step).value;
    match step
    case TakeId(t, _) => StageMoves(s, r, s.counter + 1, Taken(t));
    case Register(t) => StageMoves(s, r, At(s, t).id, Registered(t));
    case Transmit(t) => StageMoves(s, r, At(s, t).id, Sent);
    case ServerReceives => ServeLookedUp(s);
    case ServerAnswers(id, reply) =>
      AnswerWires(s, id, reply);
      StageMoves(s, r, id, Answered);
    case ClientReceives => ReceiveLookedUp(s);
  }

  lemma ServeLookedUp(s: Rpc)
    requires LookedUp(s) && BodiesRight(s) && s.toServer != []
    ensures LookedUp(Next(s, ServerReceives).value)
  {
    var m, r := s.toServer[0], Next(s, ServerReceives).value;
    StageMoves(s, r, m.id, if Offers(s.services, m.body) then Serving else Ignored);
  }

  lemma ReceiveLookedUp(s: Rpc)
    requires LookedUp(s) && Wires(s) && s.toClient != []
    ensures LookedUp(Next(s, ClientReceives).value)
  {
    AnsweredComesIn(s);
    if s.toClient[0].id in s.outstandings {
      StageMoves(s, Next(s, ClientReceives).value, s.toClient[0].id, Finished);
    }
  }

  lemma AnsweredComesIn(s: Rpc)
    requires Wires(s) && s.toClient != []
    ensures s.toClient[0].id in s.stage && s.stage[s.toClient[0].id] == Answered
  {
    Pop(s.toClient);
    assert Placed(LedgerOf(s), s.toClient[0].id);
  }

  lemma StepKeeps(s: Rpc, step: Step)
    requires Inv(s) && Next(s, step).Some?
    ensures Inv(Next(s, step).value)
  {
    StepLookedUp(s, step);
    match step
    case TakeId(t, call) => TakeWires(s, t, call); TakeBodies(s, t, call);
    case Register(t) => RegisterWires(s, t); RegisterBodies(s, t);
    case Transmit(t) => TransmitWires(s, t); TransmitBodies(s, t);
    case ServerReceives => SentComesIn(s); ServerTakesWires(s); ServerTakesBodies(s);
    case ServerAnswers(id, reply) => AnswerWires(s, id, reply); AnswerBodies(s, id, reply);
    case ClientReceives => ReceiveWires(s); ReceiveBodies(s);
  }

  lemma NothingYet(services: Services)
    ensures Inv(Fresh(services))
  {
  }

  lemma SameServices(s: Rpc, step: Step)
    requires Next(s, step).Some?
    ensures Next(s, step).value.services == s.services
  {
  }

  lemma RunInv(services: Services, steps: seq<Step>)
    requires Run(Next, Fresh(services), steps).Some?
    ensures var s := Run(Next, Fresh(services), steps).value; Inv(s) && s.services == services
  {
    NothingYet(services);
    forall s, l | Inv(s) && s.services == services && Next(s, l).Some?
      ensures Inv(Next(s, l).value) && Next(s, l).value.services == services
    {
      StepKeeps(s, l);
      SameServices(s, l);
    }
    RunKeeps(Next, s => Inv(s) && s.services == services, Fresh(services), steps);
  }

  lemma FinishedOnce(s: Rpc, m: Msg<nat>)
    requires Inv(s) && m in s.finished
    ensures m.id in s.issued && s.issued[m.id].WantsReply() && m.id !in s.outstandings
    ensures m.id in s.servedFor && s.servedFor[m.id] == s.issued[m.id].request
  {
    assert Placed(LedgerOf(s), m.id) && Holds(s.finished, m.id);
  }

  lemma ReplyExpected(s: Rpc, m: Msg<nat>)
    requires Wires(s) && m in s.toClient
    ensures m.id in s.outstandings
  {
    assert Placed(LedgerOf(s), m.id) && LedgerOf(s).answered(m.id);
  }

  lemma NewIdIsFree(s: Rpc)
    requires Inv(s)
    ensures s.counter + 1 !in s.issued
  {
    assert Placed(LedgerOf(s), s.counter + 1);
  }

  lemma RegisteredIsOutstanding(s: Rpc, t: Thread)
    requires Inv(s) && At(s, t).HasRegistered?
    ensures var id := At(s, t).id;
            id in s.outstandings && id in s.issued && s.outstandings[id] == s.issued[id]
  {
    var b, id := LedgerOf(s), At(s, t).id;
    assert ThreadPlaced(b, t) && b.at(t) == HasRegistered(id);
    assert Placed(b, id) && Is(b, id, Registered(t));
  }

  lemma IdsDiffer(s: Rpc, t: Thread, u: Thread)
    requires Wires(s) && t != u && !At(s, t).Idle? && !At(s, u).Idle?
    ensures At(s, t).id != At(s, u).id
  {
    var b := LedgerOf(s);
    assert ThreadPlaced(b, t) && ThreadPlaced(b, u);
    assert b.at(t) == At(s, t) && b.at(u) == At(s, u);
  }

  lemma IdleHasNothing(b: Ledger, t: Thread, id: Id)
    requires ThreadPlaced(b, t) && b.at(t) == Idle
    ensures !Is(b, id, Taken(t)) && !Is(b, id, Registered(t))
  {
  }

  lemma Settled(s: Rpc, id: Id)
    requires Wires(s) && s.toServer == [] && s.serving == map[] && s.toClient == []
    requires 1 <= id <= s.counter && forall t :: At(s, t) == Idle
    ensures id in s.stage && (s.stage[id] == Ignored || s.stage[id] == Finished)
    ensures id in s.outstandings <==> s.stage[id] == Ignored
    ensures Holds(s.finished, id) <==> s.stage[id] == Finished && id in s.issued && s.issued[id].WantsReply()
  {
    var b := LedgerOf(s);
    assert Placed(b, id) && !b.sent(id) && !b.answered(id) && !b.serving(id);
    if s.stage[id].Taken? || s.stage[id].Registered? {
      var t := s.stage[id].thread;
      assert ThreadPlaced(b, t) && b.at(t) == At(s, t);
      IdleHasNothing(b, t, id);
    }
    assert b.ran(id) == Holds(s.finished, id);
  }
}
