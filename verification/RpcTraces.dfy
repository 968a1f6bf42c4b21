/** Remote calls against the steps of a run: the calls made, the requests and replies
    on the wires, and the callbacks run. */
module RpcTraces {
  import opened Runs
  import opened RpcMatching

  /** The calls made in a run's steps, in order; the n-th has id n. */
  function Calls(steps: seq<Step>): (r: seq<Call>) {
    if steps == [] then []
    else Calls(Front(steps)) + (if Last(steps).TakeId? then [Last(steps).call] else [])
  }

  /** The call with this id. */
  function CallOf(steps: seq<Step>, id: Id): (r: Option<Call>) {
    if 1 <= id <= |Calls(steps)| then Some(Calls(steps)[id - 1]) else None
  }

  /** The id that a thread took last. */
  function LastId(steps: seq<Step>, t: Thread): (r: Id) {
    if steps == [] then 0
    else if Last(steps).TakeId? && Last(steps).t == t then |Calls(steps)|
    else LastId(Front(steps), t)
  }

  /** The requests sent, in order: each is that of the call its thread made last. */
  function Requests(steps: seq<Step>): (r: seq<Msg<Request>>) {
    if steps == [] then []
    else
      Requests(Front(steps)) +
      match Last(steps)
      case Transmit(t) =>
        var id := LastId(Front(steps), t);
        if CallOf(Front(steps), id).Some? then [Msg(id, CallOf(Front(steps), id).value.request)] else []
      case _ => []
  }

  /** How many requests have come in. */
  function RequestsRead(steps: seq<Step>): (r: nat) {
    if steps == [] then 0 else RequestsRead(Front(steps)) + (if Last(steps) == ServerReceives then 1 else 0)
  }

  /** The replies that services gave, in order. */
  function Replies(steps: seq<Step>): (r: seq<Msg<nat>>) {
    if steps == [] then []
    else Replies(Front(steps)) + (if Last(steps).ServerAnswers? then [Msg(Last(steps).id, Last(steps).reply)] else [])
  }

  /** How many replies have come in. */
  function RepliesRead(steps: seq<Step>): (r: nat) {
    if steps == [] then 0 else RepliesRead(Front(steps)) + (if Last(steps) == ClientReceives then 1 else 0)
  }

  /** Does the reply's call have a prototype and a callback? */
  predicate Wanted(steps: seq<Step>, m: Msg<nat>) {
    CallOf(steps, m.id).Some? && CallOf(steps, m.id).value.WantsReply()
  }

  /** The callbacks run, in order, each with its reply. */
  function Callbacks(steps: seq<Step>): (r: seq<Msg<nat>>) {
    if steps == [] then []
    else
      var before, n := Front(steps), RepliesRead(Front(steps));
      Callbacks(before) +
      if Last(steps) == ClientReceives && n < |Replies(before)| && Wanted(before, Replies(before)[n])
      then [Replies(before)[n]] else []
  }

  // ----- The machine's own records agree with these

  ghost predicate Numbered(s: Rpc, steps: seq<Step>) {
    && s.counter == |Calls(steps)|
    && (forall id :: id in s.issued <==> CallOf(steps, id).Some?)
    && (forall id :: id in s.issued ==> s.issued[id] == CallOf(steps, id).value)
    && (forall t :: !At(s, t).Idle? ==> At(s, t).id == LastId(steps, t))
  }

  predicate Wired(s: Rpc, steps: seq<Step>) {
    && RequestsRead(steps) <= |Requests(steps)| && s.toServer == Requests(steps)[RequestsRead(steps)..]
    && RepliesRead(steps) <= |Replies(steps)| && s.toClient == Replies(steps)[RepliesRead(steps)..]
    && s.finished == Callbacks(steps)
  }

  ghost predicate Traced(s: Rpc, steps: seq<Step>) {
    Numbered(s, steps) && Wired(s, steps)
  }

  /** Taking an id is all that changes the calls and who has which. */
  lemma StepCalls(s: Rpc, steps: seq<Step>, l: Step)
    requires s.counter == |Calls(steps)| && Next(s, l).Some?
    ensures var r, after := Next(s, l).value, steps + [l];
            && r.counter == |Calls(after)|
            && (forall id :: CallOf(after, id) ==
                             if l.TakeId? && id == s.counter + 1 then Some(l.call) else CallOf(steps, id))
            && (forall t :: LastId(after, t) == if l.TakeId? && l.t == t then s.counter + 1 else LastId(steps, t))
  {
    Snoc(steps, l);
  }

  /** So it is in the machine. */
  lemma StepIssues(s: Rpc, l: Step)
    requires Next(s, l).Some?
    ensures Next(s, l).value.issued == if l.TakeId? then s.issued[s.counter + 1 := l.call] else s.issued
  {
  }

  lemma StepThreads(s: Rpc, l: Step, t: Thread)
    requires Next(s, l).Some? && !At(Next(s, l).value, t).Idle?
    ensures var at := At(Next(s, l).value, t);
            if l.TakeId? && l.t == t then at == HasId(s.counter + 1) else !At(s, t).Idle? && at.id == At(s, t).id
  {
  }

  lemma StepNumbered(s: Rpc, steps: seq<Step>, l: Step)
    requires Numbered(s, steps) && Next(s, l).Some?
    ensures Numbered(Next(s, l).value, steps + [l])
  {
    StepCalls(s, steps, l);
    StepIssues(s, l);
    forall t | !At(Next(s, l).value, t).Idle? { StepThreads(s, l, t); }
  }

  lemma StepRequests(s: Rpc, steps: seq<Step>, l: Step)
    requires Numbered(s, steps) && Wired(s, steps) && Next(s, l).Some?
    ensures var after := steps + [l];
            RequestsRead(after) <= |Requests(after)|
            && Next(s, l).value.toServer == Requests(after)[RequestsRead(after)..]
  {
    Snoc(steps, l);
    var q, n := Requests(steps), RequestsRead(steps);
    assert q + [] == q;
    match l
    case Transmit(t) =>
      Joins(q, n, Msg(At(s, t).id, s.issued[At(s, t).id].request));
    case ServerReceives => Leaves(q, n);
    case _ =>
  }

  lemma StepReplies(s: Rpc, steps: seq<Step>, l: Step)
    requires Wired(s, steps) && Next(s, l).Some?
    ensures var after := steps + [l];
            RepliesRead(after) <= |Replies(after)|
            && Next(s, l).value.toClient == Replies(after)[RepliesRead(after)..]
  {
    Snoc(steps, l);
    var q, n := Replies(steps), RepliesRead(steps);
    assert q + [] == q;
    match l
    case ServerAnswers(id, reply) => Joins(q, n, Msg(id, reply));
    case ClientReceives => Leaves(q, n);
    case _ =>
  }

  /** A reply that comes in finds its call outstanding, as it was made. */
  lemma ReplyFindsCall(s: Rpc, steps: seq<Step>)
    requires Inv(s) && Numbered(s, steps) && s.toClient != []
    ensures var m := s.toClient[0];
            m.id in s.outstandings && s.outstandings[m.id].WantsReply() == Wanted(steps, m)
  {
    ReplyExpected(s, s.toClient[0]);
  }

  lemma StepFinishes(s: Rpc, l: Step)
    requires Next(s, l).Some? && (s.toClient != [] ==> s.toClient[0].id in s.outstandings)
    ensures l == ClientReceives ==> s.toClient != []
    ensures Next(s, l).value.finished ==
            s.finished + (if l == ClientReceives && s.outstandings[s.toClient[0].id].WantsReply() then [s.toClient[0]] else [])
  {
    assert s.finished + [] == s.finished;
  }

  lemma StepCallbacks(s: Rpc, steps: seq<Step>, l: Step)
    requires Inv(s) && Numbered(s, steps) && Wired(s, steps) && Next(s, l).Some?
    ensures Next(s, l).value.finished == Callbacks(steps + [l])
  {
    Snoc(steps, l);
    if s.toClient != [] {
      ReplyFindsCall(s, steps);
      assert s.toClient[0] == Replies(steps)[RepliesRead(steps)];
    }
    StepFinishes(s, l);
  }

  lemma RunTraced(services: Services, steps: seq<Step>)
    requires Run(Next, Fresh(services), steps).Some?
    ensures Traced(Run(Next, Fresh(services), steps).value, steps)
  {
    NothingYet(services);
    forall s, ls, l | Inv(s) && Traced(s, ls) && Run(Next, Fresh(services), ls) == Some(s) && Next(s, l).Some?
      ensures Inv(Next(s, l).value) && Traced(Next(s, l).value, ls + [l])
    {
      StepKeeps(s, l);
      StepNumbered(s, ls, l);
      StepRequests(s, ls, l);
      StepReplies(s, ls, l);
      StepCallbacks(s, ls, l);
    }
    RunKeepsTrace(Next, (s, ls) => Inv(s) && Traced(s, ls), Fresh(services), steps);
  }

  lemma {:induction false} InReplies(steps: seq<Step>, m: Msg<nat>)
    requires m in Replies(steps)
    ensures ServerAnswers(m.id, m.body) in steps
  {
    assert steps == Front(steps) + [Last(steps)];
    if m in Replies(Front(steps)) {
      InReplies(Front(steps), m);
    }
  }

  lemma {:induction false} InCallbacks(steps: seq<Step>, m: Msg<nat>)
    requires m in Callbacks(steps)
    ensures m in Replies(steps)
  {
    assert steps == Front(steps) + [Last(steps)];
    if m in Callbacks(Front(steps)) {
      InCallbacks(Front(steps), m);
    }
  }

  // ----- Every run

  /** In every interleaving: the wires hold what was sent and not yet read, in order; no
      two threads have the same id; a reply on its way finds its call outstanding. The
      callbacks run are those asked for, each at most once and in the order in which the
      replies came; each is handed what a service answered to that very call's request. */
  lemma RepliesMatch(services: Services, steps: seq<Step>)
    requires Run(Next, Fresh(services), steps).Some?
    ensures var s := Run(Next, Fresh(services), steps).value;
            && s.unknown == 0
            && RequestsRead(steps) <= |Requests(steps)| && s.toServer == Requests(steps)[RequestsRead(steps)..]
            && RepliesRead(steps) <= |Replies(steps)| && s.toClient == Replies(steps)[RepliesRead(steps)..]
            && (forall m :: m in s.toClient ==> m.id in s.outstandings)
            && (forall t, u :: t != u && !At(s, t).Idle? && !At(s, u).Idle? ==> At(s, t).id != At(s, u).id)
    ensures var s, ran := Run(Next, Fresh(services), steps).value, Callbacks(steps);
            && s.finished == ran
            && (forall i, j :: 0 <= i < j < |ran| ==> ran[i].id != ran[j].id)
            && (forall m :: m in ran ==>
                  && Wanted(steps, m) && m.id !in s.outstandings && ServerAnswers(m.id, m.body) in steps
                  && m.id in s.servedFor && s.servedFor[m.id] == CallOf(steps, m.id).value.request)
  {
    RunInv(services, steps);
    RunTraced(services, steps);
    var s := Run(Next, Fresh(services), steps).value;
    forall m | m in s.toClient ensures m.id in s.outstandings { ReplyExpected(s, m); }
    forall t, u | t != u && !At(s, t).Idle? && !At(s, u).Idle? ensures At(s, t).id != At(s, u).id {
      IdsDiffer(s, t, u);
    }
    forall m | m in s.finished
      ensures && Wanted(steps, m) && m.id !in s.outstandings && ServerAnswers(m.id, m.body) in steps
              && m.id in s.servedFor && s.servedFor[m.id] == CallOf(steps, m.id).value.request
    {
      FinishedOnce(s, m);
      InCallbacks(steps, m);
      InReplies(steps, m);
    }
  }

  /** When everything has settled, exactly the calls of a service or method that the
      server does not have are still outstanding, for ever; and the callback has run
      of exactly the others that left one. */
  lemma SettledCallsAreDone(services: Services, steps: seq<Step>, id: Id)
    requires Run(Next, Fresh(services), steps).Some?
    requires var s := Run(Next, Fresh(services), steps).value;
             && s.toServer == [] && s.serving == map[] && s.toClient == []
             && (forall t :: At(s, t) == Idle)
    requires CallOf(steps, id).Some?
    ensures var s, call := Run(Next, Fresh(services), steps).value, CallOf(steps, id).value;
            && (id in s.outstandings <==> !Offers(services, call.request))
            && (Holds(Callbacks(steps), id) <==> Offers(services, call.request) && call.WantsReply())
  {
    RunInv(services, steps);
    RunTraced(services, steps);
    Settled(Run(Next, Fresh(services), steps).value, id);
  }
}
