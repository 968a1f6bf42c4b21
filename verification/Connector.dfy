/** The connector object; each method takes steps of `ConnectingMachine`, and the ones
    its loop and its users call keep the invariant. */
module ConnectorObject {
  import opened Runs
  import opened ConnectingMachine

  class Connector {
    var connect: bool
    var state: State
    var channel: Option<Socket>
    var watching: bool
    var retryDelayMs: nat
    var queue: seq<Task>
    var timers: nat
    var created: nat
    var failed: bool
    var fatal: bool
    ghost var closed: set<Socket>
    ghost var handed: set<Socket>
    ghost var twice: bool
    ghost var delays: seq<nat>
    ghost var started: bool

    ghost function Model(): (r: ConnectingMachine.Connector)
      reads this
    {
      ConnectingMachine.Connector(connect, state, channel, watching, retryDelayMs, queue, timers, created,
                                  closed, handed, twice, delays, started, fatal, failed)
    }

    /** Until the program ends or an assertion fails, every socket opened is in exactly
        one place. */
    ghost predicate Valid()
      reads this
    {
      Inv(Model())
    }

    constructor ()
      ensures Valid() && Model() == Fresh
    {
      connect, state, channel, watching, retryDelayMs := false, Disconnected, None, false, INIT_RETRY_DELAY_MS;
      queue, timers, created, failed, fatal := [], 0, 0, false, false;
      closed, handed, twice, delays, started := {}, {}, false, [], false;
    }

    method CloseSocket(fd: Socket)
      modifies `closed, `twice
      ensures Model() == Close(old(Model()), fd)
      ensures closed == old(closed) + {fd}
    {
      twice := twice || fd in closed || fd in handed;
      closed := closed + {fd};
    }

    method RetryLater(fd: Socket)
      modifies `closed, `twice, `state, `timers, `delays, `retryDelayMs
      ensures Model() == Retry(old(Model()), fd)
      ensures state == Disconnected && closed == old(closed) + {fd}
      ensures if connect
              then timers == old(timers) + 1 && delays == old(delays) + [old(retryDelayMs)]
                   && retryDelayMs == (if old(retryDelayMs) * 2 <= 30000 then old(retryDelayMs) * 2 else 30000)
              else timers == old(timers) && delays == old(delays) && retryDelayMs == old(retryDelayMs)
    {
      CloseSocket(fd);
      state := Disconnected;
      if connect {
        timers := timers + 1;
        delays := delays + [retryDelayMs];
        retryDelayMs := if retryDelayMs * 2 <= MAX_RETRY_DELAY_MS then retryDelayMs * 2 else MAX_RETRY_DELAY_MS;
      }
    }

    method StartWatching(fd: Socket)
      modifies `failed, `state, `channel, `watching
      ensures Model() == Watch(old(Model()), fd)
      ensures if old(channel) == None
              then state == Connecting && channel == Some(fd) && watching && failed == old(failed)
              else failed && state == old(state) && channel == old(channel) && watching == old(watching)
    {
      if channel != None {
        failed := true;
      } else {
        state, channel, watching := Connecting, Some(fd), true;
      }
    }

    method OpenAndConnect(result: ConnectResult)
      modifies `created, `fatal, `failed, `state, `channel, `watching, `closed, `twice, `timers, `delays, `retryDelayMs
      ensures Model() == ConnectingMachine.Connect(old(Model()), result)
      ensures created == old(created) + 1 && fatal == (old(fatal) || result.Fatal?)
      ensures result.InProgress? && old(channel) == None ==> state == Connecting && channel == Some(created) && watching
      ensures failed == (old(failed) || (result.InProgress? && old(channel) != None))
      ensures result.Retryable? ==> state == Disconnected && closed == old(closed) + {created}
      ensures var again := result.Retryable? && connect;
              && timers == old(timers) + (if again then 1 else 0)
              && delays == old(delays) + (if again then [old(retryDelayMs)] else [])
    {
      created := created + 1;
      Attempt(result);
    }

    /** The kernel's answer to a connection attempt on the socket just created. */
    method Attempt(result: ConnectResult)
      modifies `fatal, `failed, `state, `channel, `watching, `closed, `twice, `timers, `delays, `retryDelayMs
      ensures Model() == Attempted(old(Model()), result)
      ensures fatal == (old(fatal) || result.Fatal?)
      ensures result.InProgress? && old(channel) == None ==> state == Connecting && channel == Some(created) && watching
      ensures failed == (old(failed) || (result.InProgress? && old(channel) != None))
      ensures result.Retryable? ==> state == Disconnected && closed == old(closed) + {created}
      ensures var again := result.Retryable? && connect;
              && timers == old(timers) + (if again then 1 else 0)
              && delays == old(delays) + (if again then [old(retryDelayMs)] else [])
    {
      match result {
        case InProgress => StartWatching(created);
        case Retryable => RetryLater(created);
        case Fatal => fatal := true;
      }
    }

    method StartNow(result: ConnectResult)
      modifies `created, `fatal, `failed, `state, `channel, `watching, `closed, `twice, `timers, `delays, `retryDelayMs
      ensures Model() == StartInLoop(old(Model()), result)
      ensures old(state) != Disconnected ==> failed
      ensures old(state) != Disconnected || !connect ==> created == old(created) && timers == old(timers)
      ensures old(state) == Disconnected && connect ==>
                && created == old(created) + 1
                && (result.InProgress? && old(channel) == None ==>
                      state == Connecting && channel == Some(created) && watching)
                && (result.Retryable? ==>
                      state == Disconnected && closed == old(closed) + {created} && timers == old(timers) + 1)
                && fatal == (old(fatal) || result.Fatal?)
    {
      if state != Disconnected {
        failed := true;
      } else if connect {
        OpenAndConnect(result);
      }
    }

    method RequestStart(inLoop: bool, result: ConnectResult)
      requires Valid() && !fatal && !failed && !started
      modifies this
      ensures Valid() && !failed && Some(Model()) == Next(old(Model()), Start(inLoop, result))
      ensures connect && started
      ensures !inLoop ==> queue == old(queue) + [StartTask] && created == old(created)
      ensures inLoop ==> queue == old(queue) && created == old(created) + 1
      ensures inLoop && result.InProgress? ==> state == Connecting && channel == Some(created) && watching
      ensures inLoop && result.Retryable? ==> created in closed && timers == old(timers) + 1
    {
      StepKeeps(Model(), Start(inLoop, result));
      started, connect := true, true;
      if inLoop {
        StartNow(result);
      } else {
        queue := queue + [StartTask];
      }
    }

    method RequestStop()
      requires Valid() && !fatal && !failed
      modifies `connect, `queue
      ensures Valid() && !failed && Some(Model()) == Next(old(Model()), Stop)
      ensures !connect && queue == old(queue) + [StopTask]
    {
      StepKeeps(Model(), Stop);
      connect := false;
      queue := queue + [StopTask];
    }

    method RemoveAndResetChannel() returns (fd: Socket)
      requires channel.Some?
      modifies `watching, `queue
      ensures Model() == RemoveAndReset(old(Model())) && channel == Some(fd)
      ensures !watching && queue == old(queue) + [ResetTask]
    {
      watching := false;
      queue := queue + [ResetTask];
      fd := channel.value;
    }

    method StopNow()
      modifies `state, `watching, `queue, `closed, `twice, `timers, `delays, `retryDelayMs
      ensures Model() == StopInLoop(old(Model()))
      ensures if old(state) == Connecting && channel.Some?
              then !watching && queue == old(queue) + [ResetTask] && state == Disconnected
                   && closed == old(closed) + {channel.value} && timers == old(timers) + (if connect then 1 else 0)
              else closed == old(closed) && timers == old(timers) && state == old(state) && watching == old(watching)
    {
      if state == Connecting && channel.Some? {
        state := Connected;
        var fd := RemoveAndResetChannel();
        RetryLater(fd);
      }
    }

    method ErrorNow()
      modifies `state, `watching, `queue, `closed, `twice, `timers, `delays, `retryDelayMs
      ensures Model() == HandleError(old(Model()))
      ensures if old(state) == Connecting && channel.Some?
              then !watching && queue == old(queue) + [ResetTask] && state == Disconnected
                   && closed == old(closed) + {channel.value} && timers == old(timers) + (if connect then 1 else 0)
              else closed == old(closed) && timers == old(timers) && state == old(state) && watching == old(watching)
    {
      if state == Connecting && channel.Some? {
        var fd := RemoveAndResetChannel();
        RetryLater(fd);
      }
    }

    method WriteNow(socketError: bool, selfConnect: bool)
      modifies `state, `watching, `queue, `closed, `handed, `twice, `timers, `delays, `retryDelayMs, `failed
      ensures Model() == HandleWrite(old(Model()), socketError, selfConnect)
      ensures var open, bad := old(state) == Connecting && channel.Some?, socketError || selfConnect;
              && (open ==> !watching && queue == old(queue) + [ResetTask])
              && state == (if !open then old(state) else if bad then Disconnected else Connected)
              && timers == old(timers) + (if open && bad && connect then 1 else 0)
              && handed == old(handed) + (if open && !bad && connect then {channel.value} else {})
              && closed == old(closed) + (if open && (bad || !connect) then {channel.value} else {})
    {
      if state == Connecting && channel.Some? {
        var fd := RemoveAndResetChannel();
        if socketError || selfConnect {
          RetryLater(fd);
        } else {
          state := Connected;
          if connect {
            twice := twice || fd in closed || fd in handed;
            handed := handed + {fd};
          } else {
            CloseSocket(fd);
          }
        }
      } else if state != Disconnected {
        failed := true;
      }
    }

    /** The channel's events are dispatched: an error before writability. */
    method Dispatch(error: bool, writable: bool, socketError: bool, selfConnect: bool)
      requires Valid() && watching && !fatal && !failed
      modifies `state, `watching, `queue, `closed, `handed, `twice, `timers, `delays, `retryDelayMs, `failed
      ensures Valid() && !failed && Some(Model()) == Next(old(Model()), ChannelEvent(error, writable, socketError, selfConnect))
      ensures error || (writable && (socketError || selfConnect)) ==>
                && !watching && state == Disconnected && closed == old(closed) + {channel.value} && handed == old(handed)
                && timers == old(timers) + (if connect then 1 else 0)
      ensures !error && writable && !socketError && !selfConnect ==>
                && !watching && state == Connected
                && handed == old(handed) + (if connect then {channel.value} else {})
                && closed == old(closed) + (if connect then {} else {channel.value})
    {
      StepKeeps(Model(), ChannelEvent(error, writable, socketError, selfConnect));
      if error { ErrorNow(); }
      if writable { WriteNow(socketError, selfConnect); }
    }

    method RunQueued(result: ConnectResult)
      requires Valid() && queue != [] && !fatal && !failed
      modifies this
      ensures Valid() && !failed && Some(Model()) == Next(old(Model()), RunTask(result))
      ensures connect == old(connect)
      ensures match old(queue)[0]
              case StartTask => created == old(created) + (if connect then 1 else 0)
              case StopTask => !watching && (old(watching) ==> closed == old(closed) + {channel.value})
              case ResetTask => channel == None
    {
      StepKeeps(Model(), RunTask(result));
      var task := queue[0];
      queue := queue[1..];
      match task {
        case StartTask => StartNow(result);
        case StopTask => StopNow();
        case ResetTask => channel := None;
      }
    }

    method RetryTimer(result: ConnectResult)
      requires Valid() && timers > 0 && !fatal && !failed
      modifies this
      ensures Valid() && Some(Model()) == Next(old(Model()), TimerFires(result))
      ensures failed <==> connect && result == InProgress && ResetTask in queue
      ensures connect == old(connect) && queue == old(queue) && created == old(created) + (if connect then 1 else 0)
      ensures timers == old(timers) - (if connect && result.Retryable? then 0 else 1)
      ensures connect && result.InProgress? && !failed ==> state == Connecting && channel == Some(created) && watching
    {
      StepKeeps(Model(), TimerFires(result));
      timers := timers - 1;
      StartNow(result);
    }
  }
}
