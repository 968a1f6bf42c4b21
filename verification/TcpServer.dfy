/** The server object with the connections it created and the queues of the loops
    they live in. Each method takes steps of the machine in `ServerLifecycle`, and those
    the loops call keep its invariant. */
module TcpServerObject {
  import opened Runs
  import opened ConnStates
  import opened ServerLifecycle

  /** What performing its task makes of a connection. */
  predicate After(t: Task, was: Conn, k: Conn) {
    match t
    case Establish(_) => k == was.(state := Connected, channel := Watched, life := was.life + [Up])
    case Erase(_) => k == was.(life := was.life + [Erased])
    case ForceClose(_) =>
      if was.state == Connected || was.state == Disconnecting
      then k.state == Disconnected && k.channel == Muted && was.life + [Down, Closed] <= k.life
      else k == was
    case Destroy(_) =>
      k.channel == Removed && k.state != Connected && was.life < k.life && Last(k.life) == Destroyed
  }

  class TcpServer {
    var nextConnId: nat
    var connections: set<ConnId>             // by name, which ends in the number
    var conns: map<ConnId, Conn>             // every connection object ever created
    var queues: map<Loop, seq<Task>>
    var failed: bool                         // an assertion has fired
    ghost var late: multiset<ConnId>         // forced closes about to be queued

    ghost function Model(): (r: Server)
      reads this
    {
      Server(nextConnId, conns, connections, queues, late, failed)
    }

    ghost predicate Valid()
      reads this
    {
      Inv(Model())
    }

    constructor ()
      ensures Model() == Fresh && Valid()
    {
      nextConnId, connections, conns, queues, failed, late := 1, {}, map[], map[], false, multiset{};
    }

    method Enqueue(l: Loop, t: Task)
      modifies `queues
      ensures Model() == QueueInLoop(old(Model()), l, t)
      ensures queues == old(queues)[l := Queue(old(Model()), l) + [t]]
    {
      queues := queues[l := (if l in queues then queues[l] else []) + [t]];
    }

    method NewConnection(home: Loop)
      requires Valid()
      modifies `nextConnId, `connections, `conns, `queues, `failed
      ensures Some(Model()) == Next(old(Model()), Accept(home)) && Valid() && !failed
      ensures nextConnId == old(nextConnId) + 1 && connections == old(connections) + {old(nextConnId)}
      ensures var up, down := Conn(home, Connected, Watched, [Up]), Conn(home, Connecting, Unregistered, []);
              if home == 0
              then conns == old(conns)[old(nextConnId) := up] && queues == old(queues)
              else conns == old(conns)[old(nextConnId) := down]
                   && queues == old(queues)[home := old(Queue(Model(), home)) + [Establish(old(nextConnId))]]
    {
      StepKeeps(Model(), Accept(home));
      Admit(home);
    }

    /** The connection object, the map entry, and the hop to its loop. */
    method Admit(home: Loop)
      modifies `nextConnId, `connections, `conns, `queues, `failed
      ensures Model() == AcceptNow(old(Model()), home)
      ensures nextConnId == old(nextConnId) + 1 && connections == old(connections) + {old(nextConnId)}
      ensures var up, down := Conn(home, Connected, Watched, [Up]), Conn(home, Connecting, Unregistered, []);
              if home == 0
              then conns == old(conns)[old(nextConnId) := up] && queues == old(queues)
              else conns == old(conns)[old(nextConnId) := down]
                   && queues == old(queues)[home := old(Queue(Model(), home)) + [Establish(old(nextConnId))]]
    {
      var c := nextConnId;
      nextConnId := nextConnId + 1;
      conns := conns[c := Conn(home, Connecting, Unregistered, [])];
      connections := connections + {c};
      if home == BASE {
        ConnectEstablished(c);
        assert conns[c].life == [Up];
      } else {
        Enqueue(home, Establish(c));
      }
    }

    method ConnectEstablished(c: ConnId)
      requires c in conns
      modifies `conns, `failed
      ensures Model() == EstablishNow(old(Model()), c)
      ensures if old(conns[c].state) != Connecting then failed
              else failed == old(failed)
                   && conns == old(conns)[c := old(conns[c]).(state := Connected, channel := Watched,
                                                                life := old(conns[c].life) + [Up])]
    {
      if conns[c].state != Connecting {
        failed := true;
      } else {
        conns := conns[c := conns[c].(state := Connected, channel := Watched, life := conns[c].life + [Up])];
      }
    }

    method RemoveConnectionInLoop(c: ConnId)
      requires c in conns
      modifies `connections, `conns, `queues, `failed
      ensures Model() == EraseNow(old(Model()), c)
      ensures if c !in old(connections) then failed
              else failed == old(failed) && connections == old(connections) - {c}
                   && conns == old(conns)[c := old(conns[c]).(life := old(conns[c].life) + [Erased])]
                   && queues == old(queues)[conns[c].home := old(Queue(Model(), conns[c].home)) + [Destroy(c)]]
    {
      if c !in connections {
        failed := true;
        return;
      }
      connections := connections - {c};
      conns := conns[c := conns[c].(life := conns[c].life + [Erased])];
      Enqueue(conns[c].home, Destroy(c));
    }

    /** The close callback: on the base loop at once, from elsewhere queued for it. */
    method RemoveConnection(c: ConnId, onBase: bool)
      requires c in conns && onBase == (conns[c].home == BASE)
      modifies `connections, `conns, `queues, `failed
      ensures !onBase ==> connections == old(connections) && conns == old(conns) && failed == old(failed)
                          && queues == old(queues)[0 := old(Queue(Model(), 0)) + [Erase(c)]]
      ensures onBase && c in old(connections) ==>
                && failed == old(failed) && connections == old(connections) - {c}
                && queues == old(queues)[0 := old(Queue(Model(), 0)) + [Destroy(c)]]
      ensures Model() == if onBase then EraseNow(old(Model()), c) else QueueInLoop(old(Model()), BASE, Erase(c))
    {
      if onBase {
        RemoveConnectionInLoop(c);
      } else {
        Enqueue(BASE, Erase(c));
      }
    }

    method HandleClose(c: ConnId)
      requires c in conns
      modifies `connections, `conns, `queues, `failed
      ensures Model() == CloseNow(old(Model()), c)
      ensures !old(conns[c].state == Connected || conns[c].state == Disconnecting) ==> failed
      ensures Open(old(conns[c])) && (old(conns[c].home) == 0 ==> c in old(connections)) ==>
                && failed == old(failed) && conns.Keys == old(conns).Keys && conns[c].home == old(conns[c].home)
                && conns[c].state == Disconnected && conns[c].channel == Muted
                && conns[c].life == old(conns[c].life) + [Down, Closed] + (if conns[c].home == 0 then [Erased] else [])
      ensures old(conns[c].home) != 0 && Open(old(conns[c])) ==>
                queues == old(queues)[0 := old(Queue(Model(), 0)) + [Erase(c)]] && connections == old(connections)
      ensures old(conns[c].home) == 0 && c in old(connections) && Open(old(conns[c])) ==>
                queues == old(queues)[0 := old(Queue(Model(), 0)) + [Destroy(c)]] && connections == old(connections) - {c}
    {
      if !Open(conns[c]) {
        failed := true;
        return;
      }
      conns := conns[c := conns[c].(state := Disconnected, channel := Muted, life := conns[c].life + [Down, Closed])];
      RemoveConnection(c, conns[c].home == BASE);
    }

    method ConnectDestroyed(c: ConnId)
      requires c in conns
      modifies `conns, `failed
      ensures Model() == DestroyNow(old(Model()), c)
      ensures if old(conns[c].state) != Connected && old(conns[c].channel) != Muted then failed
              else failed == old(failed)
                   && conns == old(conns)[c := conns[c]] && conns[c].home == old(conns[c].home)
                   && conns[c].channel == Removed
                   && conns[c].state == (if old(conns[c].state) == Connected then Disconnected else old(conns[c].state))
                   && conns[c].life ==
                      old(conns[c].life) + (if old(conns[c].state) == Connected then [Down] else []) + [Destroyed]
    {
      var k := conns[c];
      if k.state == Connected {
        k := k.(state := Disconnected, channel := Muted, life := k.life + [Down]);
      }
      if k.channel != Muted {
        failed := true;
      } else {
        conns := conns[c := k.(channel := Removed, life := k.life + [Destroyed])];
      }
    }

    method PerformTask(t: Task)
      requires t.c in conns
      modifies `connections, `conns, `queues, `failed
      ensures Model() == Perform(old(Model()), t)
      ensures !failed ==> conns.Keys == old(conns).Keys && After(t, old(conns)[t.c], conns[t.c])
      ensures !failed && t.Erase? ==> t.c in old(connections) && t.c !in connections
    {
      match t {
        case Establish(c) => ConnectEstablished(c);
        case Erase(c) => RemoveConnectionInLoop(c);
        case ForceClose(c) => if Open(conns[c]) { HandleClose(c); }
        case Destroy(c) => ConnectDestroyed(c);
      }
    }

    /** Loop `l` takes its next task. */
    method RunTask(l: Loop)
      requires Valid() && Queue(Model(), l) != []
      modifies `connections, `conns, `queues, `failed
      ensures Some(Model()) == Next(old(Model()), Step.RunTask(l)) && Valid() && !failed
      ensures old(Queue(Model(), l))[0].c in old(conns) && conns.Keys == old(conns).Keys
      ensures var t := old(Queue(Model(), l))[0];
              && After(t, old(conns)[t.c], conns[t.c])
              && (t.Erase? ==> t.c in old(connections) && t.c !in connections)
    {
      Dequeue(Model(), l, Consistent);
      StepKeeps(Model(), Step.RunTask(l));
      TakeTask(l);
    }

    method TakeTask(l: Loop)
      requires Queue(Model(), l) != [] && Queue(Model(), l)[0].c in conns
      modifies `connections, `conns, `queues, `failed
      ensures Model() == Perform(Pop(old(Model()), l), old(Queue(Model(), l))[0])
      ensures var t := old(Queue(Model(), l))[0];
              !failed ==>
                && conns.Keys == old(conns).Keys && After(t, old(conns)[t.c], conns[t.c])
                && (t.Erase? ==> t.c in old(connections) && t.c !in connections)
    {
      var t := queues[l][0];
      queues := queues[l := queues[l][1..]];
      PerformTask(t);
    }

    /** Loop `l` sees connection `c`'s peer close. */
    method PeerCloses(c: ConnId)
      requires Valid() && c in conns && conns[c].channel == Watched
      modifies `connections, `conns, `queues, `failed
      ensures Some(Model()) == Next(old(Model()), PeerClosed(c)) && Valid() && !failed
      ensures conns.Keys == old(conns).Keys && conns[c].state == Disconnected && conns[c].channel == Muted
      ensures old(conns[c].life) + [Down, Closed] <= conns[c].life
    {
      StepKeeps(Model(), PeerClosed(c));
      HandleClose(c);
    }

    /** The user shuts connection `c` down. */
    method RequestShutdown(c: ConnId)
      requires Valid() && c in conns && conns[c].state == Connected
      modifies `conns
      ensures Some(Model()) == Next(old(Model()), Step.RequestShutdown(c)) && Valid()
      ensures conns == old(conns)[c := old(conns[c]).(state := Disconnecting)]
    {
      StepKeeps(Model(), Step.RequestShutdown(c));
      conns := conns[c := conns[c].(state := Disconnecting)];
    }

    /** A forced close on the connection's own loop: queued there. */
    method RequestForceClose(c: ConnId)
      requires Valid() && c in conns && Open(conns[c])
      modifies `conns, `queues
      ensures Some(Model()) == Next(old(Model()), Step.RequestForceClose(c)) && Valid()
      ensures conns == old(conns)[c := old(conns[c]).(state := Disconnecting)]
      ensures queues == old(queues)[conns[c].home := old(Queue(Model(), conns[c].home)) + [ForceClose(c)]]
    {
      StepKeeps(Model(), Step.RequestForceClose(c));
      conns := conns[c := conns[c].(state := Disconnecting)];
      Enqueue(conns[c].home, ForceClose(c));
    }

    /** A forced close on another thread sets the state first. */
    method ForceCloseFrom(c: ConnId)
      requires Valid() && c in conns && Open(conns[c])
      modifies `conns, `late
      ensures Some(Model()) == Next(old(Model()), ForceCloseFromOutside(c)) && Valid()
      ensures conns == old(conns)[c := old(conns[c]).(state := Disconnecting)] && late == old(late) + multiset{c}
    {
      StepKeeps(Model(), ForceCloseFromOutside(c));
      conns := conns[c := conns[c].(state := Disconnecting)];
      late := late + multiset{c};
    }

    /** And is queued later, whatever has become of the connection. */
    method QueueForceClose(c: ConnId)
      requires Valid() && c in conns && c in late
      modifies `queues, `late
      ensures Some(Model()) == Next(old(Model()), PushForceClose(c)) && Valid()
      ensures queues == old(queues)[conns[c].home := old(Queue(Model(), conns[c].home)) + [ForceClose(c)]]
      ensures late == old(late) - multiset{c}
    {
      StepKeeps(Model(), PushForceClose(c));
      late := late - multiset{c};
      Enqueue(conns[c].home, ForceClose(c));
    }
  }
}
