/** The TCP connection object: its output buffer, its channel and the poller the
    channel is registered with. Each method takes steps of the machine in
    `Connections` and keeps its invariant. */
module TcpConnectionObject {
  import opened Bytes
  import opened Runs
  import opened ConnStates
  import opened ByteBuffer
  import opened ChannelAndPoller
  import opened Connections
  import Interests
  import Codec
  import ProtobufCodec

  class TcpConnection {
    const channel: Channel
    const poller: EpollPoller
    const outputBuffer: Buffer
    const inputBuffer: Buffer
    var state: ConnState
    var shutdownWrite: bool              // the socket's write side
    var queue: seq<Task>                 // what is queued for this connection in its loop
    var aborted: bool
    ghost var sent: seq<byte>            // what the kernel has taken
    ghost var messages: seq<seq<byte>>
    ghost var shutClosed: bool
    ghost var late: bool
    ghost var past: multiset<Task>       // what other threads are about to queue
    ghost var ups: nat
    ghost var downs: nat

    /** The parts fit together. */
    ghost predicate Wired()
      reads this, channel, poller, poller.channels.Values, outputBuffer, inputBuffer
    {
      && outputBuffer.Valid() && inputBuffer.Valid() && inputBuffer != outputBuffer
      && inputBuffer.data != outputBuffer.data
      && poller.Knows(channel)
    }

    ghost predicate Valid()
      reads this, channel, poller, poller.channels.Values, outputBuffer, outputBuffer.data, inputBuffer
    {
      Wired() && Connections.Inv(Model())
    }

    ghost function Model(): (r: Conn)
      reads this, channel, outputBuffer, outputBuffer.data
      requires outputBuffer.Valid()
    {
      Conn(state, channel.events.read, channel.events.write, outputBuffer.Readable(), sent, messages,
           shutdownWrite, shutClosed, late, queue, past, ups, downs, aborted)
    }

    /** The constructor's channel is for a descriptor the poller does not know. */
    constructor (fd: nat, poller: EpollPoller)
      requires fd !in poller.channels
      requires forall d :: d in poller.channels ==> poller.channels[d].fd == d && poller.channels[d].index != New
      ensures Valid() && Model() == JustAccepted && this.poller == poller
      ensures fresh(channel) && fresh(outputBuffer) && fresh(outputBuffer.data)
    {
      channel := new Channel(fd);
      outputBuffer := new Buffer();
      inputBuffer := new Buffer();
      this.poller := poller;
      state, shutdownWrite, queue, aborted := Connecting, false, [], false;
      sent, messages, shutClosed, late, past, ups, downs := [], [], false, false, multiset{}, 0, 0;
    }

    /** Keeps what the kernel did not take and asks to be told when it will. */
    method KeepRemaining(remaining: seq<byte>)
      requires Wired()
      modifies outputBuffer, outputBuffer.data, channel, poller
      ensures Wired() && Model() == Keep(old(Model()), remaining)
      ensures outputBuffer.Readable() == old(outputBuffer.Readable()) + remaining
      ensures channel.events == Interests.Interest(old(channel.events.read), old(channel.events.write) || remaining != [])
      ensures outputBuffer.failed ==
                (old(outputBuffer.failed) || (remaining != [] && old(outputBuffer.StopsFor(|remaining|))))
    {
      if remaining != [] {
        outputBuffer.Append(remaining);
        if !channel.events.write {
          channel.EnableWriting(poller);
        }
      }
    }

    /** Sends on the loop thread; `reply` is the kernel's answer if it is asked. */
    method SendNow(data: seq<byte>, reply: Reply)
      requires Wired() && Possible(shutdownWrite, reply, |data|)
      modifies `messages, `sent, `aborted, `late, outputBuffer, outputBuffer.data, channel, poller
      ensures Wired() && Model() == SendInLoop(old(Model()), data, reply)
      ensures messages == old(messages) + (if state == Disconnected then [] else [data])
      ensures !aborted ==>
                sent + outputBuffer.Readable() ==
                old(sent) + old(outputBuffer.Readable()) + (if state == Disconnected then [] else data)
    {
      if state == Disconnected {
        return;
      }
      Accept(data, reply);
    }

    /** The connection is open: what goes before the message is sent first. */
    method Accept(data: seq<byte>, reply: Reply)
      requires Wired() && state != Disconnected && Possible(shutdownWrite, reply, |data|)
      modifies `messages, `sent, `aborted, `late, outputBuffer, outputBuffer.data, channel, poller
      ensures Wired() && Model() == SendInLoop(old(Model()), data, reply)
      ensures messages == old(messages) + [data]
      ensures !aborted ==> sent + outputBuffer.Readable() == old(sent) + old(outputBuffer.Readable()) + data
    {
      SendAddsUp(Model(), data, reply);
      messages := messages + [data];
      if !channel.events.write && outputBuffer.ReadableBytes() == 0 {
        SendDirectly(data, reply);
      } else {
        KeepRemaining(data);
      }
    }

    /** Nothing waits before `data`: the kernel is asked at once. */
    method SendDirectly(data: seq<byte>, reply: Reply)
      requires Wired() && Possible(shutdownWrite, reply, |data|)
      modifies `sent, `aborted, `late, outputBuffer, outputBuffer.data, channel, poller
      ensures Wired()
      ensures reply.Failed? ==> aborted
      ensures !reply.Failed? ==>
                var n := if reply.Wrote? then reply.n else 0;
                && sent == old(sent) + data[..n] && aborted == old(aborted)
                && outputBuffer.Readable() == old(outputBuffer.Readable()) + data[n..]
      ensures var m := Offered(old(Model()), data, reply);
              Model() == if reply.Failed? then m else Keep(m, Untaken(data, reply))
    {
      var remaining, fault := Write(data, reply);
      if !fault {
        KeepRemaining(remaining);
      }
    }

    /** The kernel's answer to one write: a part taken, nothing, or the end of the program. */
    method Write(data: seq<byte>, reply: Reply) returns (remaining: seq<byte>, fault: bool)
      requires Wired() && Possible(shutdownWrite, reply, |data|)
      modifies `sent, `aborted, `late
      ensures Wired() && Model() == Offered(old(Model()), data, reply)
      ensures fault == reply.Failed? && remaining == (if reply.Wrote? then data[reply.n..] else data)
      ensures sent == old(sent) + (if reply.Wrote? then data[..reply.n] else [])
      ensures aborted == (old(aborted) || reply.Failed?)
    {
      remaining, fault := data, false;
      match reply {
        case Wrote(n) =>
          sent := sent + data[..n];
          remaining := data[n..];
        case WouldBlock =>
        case Failed =>
          fault, aborted, late := true, true, shutdownWrite;
      }
    }

    method Send(data: seq<byte>, reply: Reply)
      requires Valid() && !aborted && Possible(shutdownWrite, reply, |data|)
      modifies `messages, `sent, `aborted, `late, outputBuffer, outputBuffer.data, channel, poller
      ensures Valid() && Some(Model()) == Next(old(Model()), Connections.Send(data, reply))
      ensures messages == old(messages) + (if state == Connected then [data] else [])
      ensures !aborted ==>
                sent + outputBuffer.Readable() ==
                old(sent) + old(outputBuffer.Readable()) + (if state == Connected then data else [])
    {
      StepKeeps(Model(), Connections.Send(data, reply));
      if state == Connected {
        SendNow(data, reply);
      }
    }

    /** Sending from another thread: first it reads the state. */
    method SendFrom(data: seq<byte>) returns (go: bool)
      requires Valid() && !aborted
      modifies `past
      ensures Valid() && Some(Model()) == Next(old(Model()), SendFromOutside(data))
      ensures go == (state == Connected)
      ensures past == old(past) + (if go then multiset{SendTask(data)} else multiset{})
    {
      StepKeeps(Model(), SendFromOutside(data));
      go := state == Connected;
      if go {
        past := past + multiset{SendTask(data)};
      }
    }

    /** And then, whatever the state is by now, it queues its task for the loop. */
    method QueueFrom(task: Task)
      requires Valid() && !aborted && task in past
      modifies `queue, `past
      ensures Valid() && Some(Model()) == Next(old(Model()), Push(task))
      ensures queue == old(queue) + [task] && past == old(past) - multiset{task}
    {
      StepKeeps(Model(), Push(task));
      queue, past := queue + [task], past - multiset{task};
    }

    method ShutdownNow(refused: bool)
      requires Wired()
      modifies `shutdownWrite, `shutClosed, `aborted
      ensures Wired() && Model() == ShutdownInLoop(old(Model()), refused)
      ensures shutdownWrite == (old(shutdownWrite) || (!channel.events.write && !refused))
      ensures aborted == (old(aborted) || (!channel.events.write && refused))
    {
      if !channel.events.write {
        if refused {
          aborted := true;
        } else if !shutdownWrite {
          shutdownWrite, shutClosed := true, state == Disconnected;
        }
      }
    }

    method RequestShutdown(refused: bool)
      requires Valid() && !aborted
      modifies `state, `shutdownWrite, `shutClosed, `aborted
      ensures Valid() && Some(Model()) == Next(old(Model()), Shutdown(refused))
      ensures state == if old(state) == Connected then Disconnecting else old(state)
      ensures var asked := old(state) == Connected && !channel.events.write;
              shutdownWrite == (old(shutdownWrite) || (asked && !refused)) && aborted == (asked && refused)
    {
      StepKeeps(Model(), Shutdown(refused));
      if state == Connected {
        state := Disconnecting;
        ShutdownNow(refused);
      }
    }

    /** From another thread; the task is queued afterwards, by `QueueFrom`. */
    method ShutdownFrom() returns (go: bool)
      requires Valid() && !aborted
      modifies `state, `past
      ensures Valid() && Some(Model()) == Next(old(Model()), ShutdownFromOutside)
      ensures go == (old(state) == Connected) && state == if go then Disconnecting else old(state)
      ensures past == old(past) + (if go then multiset{ShutdownTask} else multiset{})
    {
      StepKeeps(Model(), ShutdownFromOutside);
      go := state == Connected;
      if go {
        state, past := Disconnecting, past + multiset{ShutdownTask};
      }
    }

    method RequestForceClose()
      requires Valid() && !aborted
      modifies `state, `queue
      ensures Valid() && Some(Model()) == Next(old(Model()), ForceClose)
      ensures var open := old(state) == Connected || old(state) == Disconnecting;
              && state == (if open then Disconnecting else old(state))
              && queue == old(queue) + (if open then [ForceCloseTask] else [])
    {
      StepKeeps(Model(), ForceClose);
      if state == Connected || state == Disconnecting {
        state := Disconnecting;
        queue := queue + [ForceCloseTask];
      }
    }

    method ForceCloseFrom() returns (go: bool)
      requires Valid() && !aborted
      modifies `state, `past
      ensures Valid() && Some(Model()) == Next(old(Model()), ForceCloseFromOutside)
      ensures go == (old(state) == Connected || old(state) == Disconnecting)
      ensures state == (if go then Disconnecting else old(state))
      ensures past == old(past) + (if go then multiset{ForceCloseTask} else multiset{})
    {
      StepKeeps(Model(), ForceCloseFromOutside);
      go := state == Connected || state == Disconnecting;
      if go {
        state, past := Disconnecting, past + multiset{ForceCloseTask};
      }
    }

    method ConnectEstablished()
      requires Valid() && !aborted && state == Connecting
      modifies `state, `ups, channel, poller
      ensures Valid() && channel.index != New
      ensures Some(Model()) == Next(old(Model()), Establish)
      ensures state == Connected && ups == 1 && channel.events == Interests.Interest(true, old(channel.events.write))
    {
      StepKeeps(Model(), Establish);
      state := Connected;
      StartReading();
      ups := ups + 1;
    }

    method StartReading()
      requires Wired()
      modifies channel, poller
      ensures Wired() && channel.index != New
      ensures channel.events == Interests.Interest(true, old(channel.events.write))
    {
      channel.EnableReading(poller);
    }

    method Quiet()
      requires Wired()
      modifies channel, poller
      ensures Wired() && channel.events == Interests.NONE && channel.index != New
    {
      channel.DisableAll(poller);
    }

    /** The peer is gone or the close was forced: the channel goes quiet, the user
        and then the server are told. */
    method CloseNow()
      requires Wired()
      modifies `state, `downs, `aborted, channel, poller
      ensures Wired() && Model() == HandleClose(old(Model()))
      ensures old(state) == Connected || old(state) == Disconnecting ==>
                state == Disconnected && downs == old(downs) + 1 && channel.events == Interests.NONE
                && aborted == old(aborted)
      ensures old(state) == Connecting || old(state) == Disconnected ==> aborted
    {
      if state == Connected || state == Disconnecting {
        TakeDown();
      } else {
        aborted := true;
      }
    }

    method TakeDown()
      requires Wired()
      modifies `state, `downs, channel, poller
      ensures Wired() && channel.index != New && channel.events == Interests.NONE
      ensures state == Disconnected && downs == old(downs) + 1
      ensures Model() == old(Model()).(state := Disconnected, reading := false, writing := false, downs := old(downs) + 1)
    {
      state := Disconnected;
      Quiet();
      downs := downs + 1;
    }

    /** Runs the first task queued for this connection. */
    method RunQueued(reply: Reply)
      requires Valid() && !aborted && Next(Model(), RunTask(reply)).Some?
      modifies this, outputBuffer, outputBuffer.data, channel, poller
      ensures Valid() && Some(Model()) == Next(old(Model()), RunTask(reply))
      ensures queue == old(queue)[1..]
      ensures match old(queue)[0]
              case SendTask(data) =>
                var accepted := if old(state) == Disconnected then [] else data;
                && messages == old(messages) + (if old(state) == Disconnected then [] else [data])
                && (!aborted ==> sent + outputBuffer.Readable() == old(sent) + old(outputBuffer.Readable()) + accepted)
                && state == old(state)
              case ShutdownTask =>
                && shutdownWrite == (old(shutdownWrite) || (!channel.events.write && !reply.Failed?))
                && state == old(state)
              case ForceCloseTask =>
                old(state) == Connected || old(state) == Disconnecting ==>
                  state == Disconnected && downs == old(downs) + 1 && channel.events == Interests.NONE
    {
      StepKeeps(Model(), RunTask(reply));
      var task := queue[0];
      queue := queue[1..];
      PerformQueued(task, reply);
    }

    method PerformQueued(task: Task, reply: Reply)
      requires Wired() && PerformTask(Model(), task, reply).Some?
      modifies this, outputBuffer, outputBuffer.data, channel, poller
      ensures Wired() && Some(Model()) == PerformTask(old(Model()), task, reply)
      ensures queue == old(queue)
      ensures match task
              case SendTask(data) =>
                var accepted := if old(state) == Disconnected then [] else data;
                && messages == old(messages) + (if old(state) == Disconnected then [] else [data])
                && (!aborted ==> sent + outputBuffer.Readable() == old(sent) + old(outputBuffer.Readable()) + accepted)
                && state == old(state)
              case ShutdownTask =>
                && shutdownWrite == (old(shutdownWrite) || (!channel.events.write && !reply.Failed?))
                && state == old(state)
              case ForceCloseTask =>
                old(state) == Connected || old(state) == Disconnecting ==>
                  state == Disconnected && downs == old(downs) + 1 && channel.events == Interests.NONE
    {
      match task {
        case SendTask(data) => if state != Disconnected { SendNow(data, reply); }
        case ShutdownTask => ShutdownNow(reply.Failed?);
        case ForceCloseTask =>
          if state == Connected || state == Disconnecting {
            CloseNow();
          }
      }
    }

    /** The channel is writable: `reply` answers a write of the whole output buffer. */
    method WriteNow(reply: Reply, refused: bool)
      requires Valid() && !aborted && Possible(shutdownWrite, reply, |outputBuffer.Readable()|)
      modifies `sent, `shutdownWrite, `shutClosed, `aborted, outputBuffer, channel, poller
      ensures Valid() && Model() == HandleWrite(old(Model()), reply, refused)
      ensures var out, n := old(outputBuffer.Readable()), if reply.Wrote? then reply.n else 0;
              && (old(channel.events.write) && n == 0 ==> aborted)
              && (old(channel.events.write) && n > 0 ==>
                    && sent == old(sent) + out[..n] && outputBuffer.Readable() == out[n..]
                    && channel.events == Interests.Interest(old(channel.events.read), n < |out|)
                    && (n < |out| || state != Disconnecting ==> shutdownWrite == old(shutdownWrite))
                    && (n == |out| && state == Disconnecting && !refused ==> shutdownWrite))
      ensures !old(channel.events.write) ==> Model() == old(Model())
    {
      if !channel.events.write {
        return;
      }
      StepKeeps(Model(), Writable(reply, refused));
      WriteOut(reply, refused);
    }

    method WriteOut(reply: Reply, refused: bool)
      requires Wired() && channel.events.write && Possible(shutdownWrite, reply, |outputBuffer.Readable()|)
      modifies `sent, `shutdownWrite, `shutClosed, `aborted, outputBuffer, channel, poller
      ensures Wired() && Model() == HandleWrite(old(Model()), reply, refused)
      ensures var out, n := old(outputBuffer.Readable()), if reply.Wrote? then reply.n else 0;
              && (n == 0 ==> aborted)
              && (n > 0 ==>
                    && sent == old(sent) + out[..n] && outputBuffer.Readable() == out[n..]
                    && channel.events == Interests.Interest(old(channel.events.read), n < |out|)
                    && (n < |out| || state != Disconnecting ==> shutdownWrite == old(shutdownWrite))
                    && (n == |out| && state == Disconnecting && !refused ==> shutdownWrite))
    {
      if reply.Wrote? && reply.n > 0 {
        sent := sent + outputBuffer.Readable()[..reply.n];
        outputBuffer.Retrieve(reply.n);
        if outputBuffer.ReadableBytes() == 0 {
          DrainedNow(refused);
        }
      } else {
        aborted := true;
      }
    }

    /** Everything is written: writing stops, and a shutdown asked for meanwhile happens. */
    method DrainedNow(refused: bool)
      requires Wired()
      modifies `shutdownWrite, `shutClosed, `aborted, channel, poller
      ensures Wired() && channel.events == Interests.Interest(old(channel.events.read), false)
      ensures state != Disconnecting ==> shutdownWrite == old(shutdownWrite)
      ensures state == Disconnecting && !refused ==> shutdownWrite
      ensures var d := old(Model()).(writing := false);
              Model() == if d.state == Disconnecting then ShutdownInLoop(d, refused) else d
    {
      StopWriting();
      if state == Disconnecting {
        ShutdownNow(refused);
      }
    }

    method StopWriting()
      requires Wired()
      modifies channel, poller
      ensures Wired() && channel.events == old(channel.events).(write := false)
    {
      channel.DisableWriting(poller);
    }

    /** The channel is readable, and `answer` is what the kernel delivered: the bytes go
        through the input buffer to the codec; no bytes at all means the peer has
        closed; a failed read is only logged. */
    method ReadNow(answer: ReadAnswer, codec: ProtobufCodec.ProtobufCodecLite)
      requires Valid() && !aborted && channel.events.read && codec.format.Valid()
      requires answer.Got? ==> |answer.bytes| <= inputBuffer.ReadLimit()
      modifies `state, `downs, `aborted, inputBuffer, inputBuffer.data, channel, poller, codec
      ensures Valid()
      ensures answer == Got([]) ==> state == Disconnected && downs == 1 && channel.events == Interests.NONE
      ensures answer == Got([]) ==> Some(Model()) == Next(old(Model()), PeerClosed)
      ensures answer != Got([]) ==> Model() == old(Model())
      ensures answer.ReadFailed? || answer == Got([]) ==>
                && inputBuffer.Readable() == old(inputBuffer.Readable())
                && codec.delivered == old(codec.delivered) && codec.reported == old(codec.reported)
      ensures answer.Got? && answer.bytes != [] ==>
                var d := Codec.Decode(codec.format, old(inputBuffer.Readable()) + answer.bytes);
                && inputBuffer.Readable() == d.rest
                && codec.delivered == old(codec.delivered) + d.messages
                && codec.reported == old(codec.reported) + (if d.error == Codec.NoError then [] else [d.error])
    {
      StepKeeps(Model(), PeerClosed);
      var n, savedErrno := Receive(answer, codec);
      if n == 0 {
        CloseNow();
      }
    }

    /** What was read goes to the codec. */
    method Receive(answer: ReadAnswer, codec: ProtobufCodec.ProtobufCodecLite)
      returns (n: int, savedErrno: int)
      requires Wired() && codec.format.Valid()
      requires answer.Got? ==> |answer.bytes| <= inputBuffer.ReadLimit()
      modifies inputBuffer, inputBuffer.data, codec
      ensures Wired() && n == (if answer.Got? then |answer.bytes| else n) && (answer.ReadFailed? ==> n < 0)
      ensures n <= 0 ==>
                && inputBuffer.Readable() == old(inputBuffer.Readable())
                && codec.delivered == old(codec.delivered) && codec.reported == old(codec.reported)
      ensures answer.Got? && answer.bytes != [] ==>
                var d := Codec.Decode(codec.format, old(inputBuffer.Readable()) + answer.bytes);
                && inputBuffer.Readable() == d.rest
                && codec.delivered == old(codec.delivered) + d.messages
                && codec.reported == old(codec.reported) + (if d.error == Codec.NoError then [] else [d.error])
    {
      n, savedErrno := inputBuffer.ReadFd(answer);
      if n > 0 {
        codec.OnMessage(inputBuffer);
      } else if n == 0 {
        assert old(inputBuffer.Readable()) + [] == old(inputBuffer.Readable());
      }
    }

    /** The last act: the channel leaves the poller, a connection still up being taken
        down first. The source's assertions stop it if the channel was never
        registered or still wants something. */
    method ConnectDestroyed()
      requires Valid() && !aborted
      modifies `state, `downs, `aborted, channel, poller
      ensures Valid() && Some(Model()) == Next(old(Model()), Destroy(old(channel.index) != New))
      ensures old(state) == Connected ==> !aborted && state == Disconnected && downs == 1 && channel.events == Interests.NONE
      ensures old(state) != Connected ==>
                state == old(state) && (aborted <==> old(channel.index) == New || !channel.events.IsNone())
      ensures !aborted ==> channel.index == New && channel.fd !in poller.channels
    {
      StepKeeps(Model(), Destroy(channel.index != New));
      LeavePoller();
    }

    method LeavePoller()
      requires Wired()
      modifies `state, `downs, `aborted, channel, poller
      ensures Wired() && Model() == DestroyInLoop(old(Model()), old(channel.index) != New)
      ensures old(state) == Connected ==> state == Disconnected && downs == old(downs) + 1 && channel.events == Interests.NONE
      ensures old(state) == Connected ==> aborted == old(aborted)
      ensures old(state) != Connected ==>
                && state == old(state)
                && (aborted <==> old(aborted) || old(channel.index) == New || !channel.events.IsNone())
      ensures old(aborted) || aborted || (channel.index == New && channel.fd !in poller.channels)
    {
      if state == Connected {
        TakeDown();
        channel.Remove(poller);
      } else if channel.index == New || !channel.events.IsNone() {
        aborted := true;
      } else {
        channel.Remove(poller);
      }
    }
  }
}
