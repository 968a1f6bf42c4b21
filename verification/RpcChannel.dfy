/** The client's channel object with the two directions of its connection; its
    methods are the atomic parts of a call, take steps of `RpcMatching` and keep its
    invariant. */
module RpcChannelObject {
  import opened Runs
  import opened RpcMatching

  class RpcChannel {
    const services: Services                // the server's
    var id: nat                             // the atomic counter
    var outstandings: map<Id, Call>         // guarded by the mutex
    var toServer: seq<Msg<Request>>
    var toClient: seq<Msg<nat>>
    var serving: map<Id, Request>           // what the server has in hand
    ghost var threads: map<Thread, ThreadAt>
    ghost var finished: seq<Msg<nat>>
    ghost var unknown: nat
    ghost var issued: map<Id, Call>
    ghost var stage: map<Id, Stage>
    ghost var replies: map<Id, nat>
    ghost var servedFor: map<Id, Request>

    ghost function Model(): (r: Rpc)
      reads this
    {
      Rpc(services, id, threads, outstandings, toServer, serving, toClient, finished, unknown, issued, stage,
          replies, servedFor)
    }

    ghost predicate Valid()
      reads this
    {
      Inv(Model())
    }

    constructor (services: Services)
      ensures Valid() && Model() == Fresh(services)
    {
      this.services := services;
      id, outstandings, toServer, toClient, serving := 0, map[], [], [], map[];
      threads, finished, unknown, issued := map[], [], 0, map[];
      stage, replies, servedFor := map[], map[], map[];
      NothingYet(services);
    }

    /** `CallMethod` takes an id, which no call had before. */
    method TakeId(ghost t: Thread, call: Call) returns (mine: Id)
      requires Valid() && At(Model(), t) == Idle
      modifies `id, `threads, `issued, `stage
      ensures Valid() && Some(Model()) == Next(old(Model()), Step.TakeId(t, call))
      ensures mine == id == old(id) + 1 && issued == old(issued)[mine := call] && mine !in old(issued)
      ensures threads == old(threads)[t := HasId(mine)]
    {
      StepKeeps(Model(), Step.TakeId(t, call));
      NewIdIsFree(Model());
      mine := Count(t, call);
    }

    method Count(ghost t: Thread, call: Call) returns (mine: Id)
      requires At(Model(), t) == Idle
      modifies `id, `threads, `issued, `stage
      ensures Some(Model()) == Next(old(Model()), Step.TakeId(t, call))
      ensures mine == id == old(id) + 1 && issued == old(issued)[mine := call]
      ensures threads == old(threads)[t := HasId(mine)]
    {
      id := id + 1;
      mine := id;
      threads, issued, stage := threads[t := HasId(id)], issued[id := call], stage[id := Taken(t)];
    }

    /** Under the lock, it files the call. */
    method FileCall(ghost t: Thread, mine: Id, call: Call)
      requires Valid() && At(Model(), t) == HasId(mine) && mine in issued && issued[mine] == call
      modifies `outstandings, `threads, `stage
      ensures Valid() && Some(Model()) == Next(old(Model()), Register(t))
      ensures outstandings == old(outstandings)[mine := call] && threads == old(threads)[t := HasRegistered(mine)]
    {
      StepKeeps(Model(), Register(t));
      Insert(t, mine, call);
    }

    method Insert(ghost t: Thread, mine: Id, call: Call)
      requires At(Model(), t) == HasId(mine) && mine in issued && issued[mine] == call
      modifies `outstandings, `threads, `stage
      ensures Some(Model()) == Next(old(Model()), Register(t))
      ensures outstandings == old(outstandings)[mine := call] && threads == old(threads)[t := HasRegistered(mine)]
    {
      outstandings := outstandings[mine := call];
      threads, stage := threads[t := HasRegistered(mine)], stage[mine := Registered(t)];
    }

    /** And sends the request; the call is outstanding by then. */
    method SendRequest(ghost t: Thread, mine: Id, call: Call)
      requires Valid() && At(Model(), t) == HasRegistered(mine) && mine in issued && issued[mine] == call
      modifies `toServer, `threads, `stage
      ensures Valid() && Some(Model()) == Next(old(Model()), Transmit(t))
      ensures toServer == old(toServer) + [Msg(mine, call.request)] && threads == old(threads)[t := Idle]
      ensures mine in outstandings && outstandings[mine] == call
    {
      StepKeeps(Model(), Transmit(t));
      RegisteredIsOutstanding(Model(), t);
      Push(t, mine, call.request);
    }

    method Push(ghost t: Thread, mine: Id, request: Request)
      requires At(Model(), t) == HasRegistered(mine) && mine in issued && issued[mine].request == request
      modifies `toServer, `threads, `stage
      ensures Some(Model()) == Next(old(Model()), Transmit(t))
      ensures toServer == old(toServer) + [Msg(mine, request)] && threads == old(threads)[t := Idle]
    {
      toServer := toServer + [Msg(mine, request)];
      threads, stage := threads[t := Idle], stage[mine := Sent];
    }

    /** The server's channel takes the next request and looks its service and method up. */
    method CallServiceMethod() returns (known: bool)
      requires Valid() && toServer != []
      modifies `toServer, `serving, `stage
      ensures Valid() && Some(Model()) == Next(old(Model()), ServerReceives)
      ensures var r := old(toServer[0].body);
              known == (services.Some? && r.service in services.value && r.operation in services.value[r.service])
      ensures var m := old(toServer[0]);
              toServer == old(toServer)[1..] && serving == if known then old(serving)[m.id := m.body] else old(serving)
    {
      StepKeeps(Model(), ServerReceives);
      known := LookUp(toServer[0].body);
      TakeRequest(known);
    }

    method LookUp(r: Request) returns (known: bool)
      ensures known == (services.Some? && r.service in services.value && r.operation in services.value[r.service])
    {
      known := false;
      if services.Some? {
        if r.service in services.value {
          known := r.operation in services.value[r.service];
        }
      }
    }

    method TakeRequest(known: bool)
      requires toServer != [] && known == Offers(services, toServer[0].body)
      modifies `toServer, `serving, `stage
      ensures Some(Model()) == Next(old(Model()), ServerReceives)
      ensures var m := old(toServer[0]);
              toServer == old(toServer)[1..] && serving == if known then old(serving)[m.id := m.body] else old(serving)
    {
      var m := toServer[0];
      toServer := toServer[1..];
      if known {
        serving, stage := serving[m.id := m.body], stage[m.id := Serving];
      } else {
        stage := stage[m.id := Ignored];
      }
    }

    /** The service calls its done callback for request `n`. */
    method DoneCallback(n: Id, reply: nat)
      requires Valid() && n in serving
      modifies `replies, `servedFor, `stage, `serving, `toClient
      ensures Valid() && Some(Model()) == Next(old(Model()), ServerAnswers(n, reply))
      ensures toClient == old(toClient) + [Msg(n, reply)] && serving == old(serving) - {n}
      ensures servedFor == old(servedFor)[n := old(serving)[n]]
    {
      StepKeeps(Model(), ServerAnswers(n, reply));
      SendReply(n, reply);
    }

    method SendReply(n: Id, reply: nat)
      requires n in serving
      modifies `replies, `servedFor, `stage, `serving, `toClient
      ensures Some(Model()) == Next(old(Model()), ServerAnswers(n, reply))
      ensures toClient == old(toClient) + [Msg(n, reply)] && serving == old(serving) - {n}
      ensures servedFor == old(servedFor)[n := old(serving)[n]]
    {
      replies, servedFor, stage := replies[n := reply], servedFor[n := serving[n]], stage[n := Answered];
      serving := serving - {n};
      toClient := toClient + [Msg(n, reply)];
    }

    /** The next reply arrives: its call is there, and its callback runs exactly when the
        call left a prototype and a callback; not for the second time. */
    method OnRpcMessage() returns (ran: bool)
      requires Valid() && toClient != []
      modifies `toClient, `outstandings, `stage, `finished, `unknown
      ensures Valid() && Some(Model()) == Next(old(Model()), ClientReceives)
      ensures var m := old(toClient[0]);
              && toClient == old(toClient)[1..]
              && m.id in old(outstandings) && outstandings == old(outstandings) - {m.id}
              && ran == (old(outstandings)[m.id].hasPrototype && old(outstandings)[m.id].hasDone)
              && finished == (if ran then old(finished) + [m] else old(finished))
    {
      StepKeeps(Model(), ClientReceives);
      ReplyExpected(Model(), toClient[0]);
      ran := TakeReply();
    }

    method TakeReply() returns (ran: bool)
      requires toClient != []
      modifies `toClient, `outstandings, `stage, `finished, `unknown
      ensures Some(Model()) == Next(old(Model()), ClientReceives)
      ensures var m := old(toClient[0]);
              && toClient == old(toClient)[1..] && outstandings == old(outstandings) - {m.id}
              && ran == (m.id in old(outstandings) && old(outstandings)[m.id].hasPrototype && old(outstandings)[m.id].hasDone)
              && finished == (if ran then old(finished) + [m] else old(finished))
    {
      ran := false;
      var m := toClient[0];
      toClient := toClient[1..];
      if m.id in outstandings {
        var out := outstandings[m.id];
        outstandings := outstandings - {m.id};
        stage := stage[m.id := Finished];
        if out.hasPrototype && out.hasDone {
          finished, ran := finished + [m], true;
        }
      } else {
        unknown := unknown + 1;
      }
    }
  }
}
