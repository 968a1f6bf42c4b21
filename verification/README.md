# Starry: a Dafny model of the reactor's protocols

Starry is a C++ network library: one event loop per thread, TCP connections and a
server on top of it, a framed message codec, remote calls, timers, an asynchronous
logger and a thread pool. This project models the parts of it that are correct only
because several steps, threads or structures agree, and proves that they do.

## How it is built

Most components come as two files. The first is a step machine on values: a datatype
for the whole state, a datatype of steps, and a function `Next` that gives the state
after a step or `None` when the step is not enabled. Theorems are about every run of
such a machine, so about every interleaving of threads and every answer of the kernel
(`Runs.dfy` holds runs and their induction). The second is the object itself, a class
whose fields and methods are those of the C++ class cut at the points where other threads
can come in. A method that a thread, the loop or a user calls proves that the object's state
moves by exactly one step of the machine and that the machine's invariant, named in the
object's `Valid`, is kept, so the theorems hold of the object; the methods these are made
of are specified by the functions the step is made of. Beside that, each method says outright
what it leaves in the object's fields. Buffer and codec are specified by functions on byte
sequences.

Sequence-valued fields such as `log`, `sent`, `executed` or `accepted` are histories that only
specifications read. The theorems do not take a machine's word for them: what was asked of
the machine is computed from the steps of the run alone, or from the steps and the states they
were taken in (`HandedOver`, `AcceptedIn`, `Requests`, `Calls`, `Homes`, `Enqueued`, `Appended`),
and the histories are proved equal to that.

| part | values and theorems | object |
|---|---|---|
| byte buffer | `Bytes.dfy` | `Buffer.dfy` |
| framing codec | `Adler32.dfy`, `Codec.dfy` | `ProtobufCodec.dfy` |
| timer queue | `Timers.dfy`, `TimerTheorems.dfy`, `TimerAssertions.dfy`, `TimerCancellation.dfy`, `TimerDeadline.dfy`, `TimerTraces.dfy` | `TimerQueue.dfy` |
| event loop hand-off | `LoopHandoff.dfy` | `EventLoop.dfy` |
| channel and epoll | `Interests.dfy` | `Channel.dfy` |
| TCP connection | `Connections.dfy`, `ConnectionTraces.dfy` | `TcpConnection.dfy` |
| codec over a connection | `EndToEnd.dfy` | |
| server and its connections' lives | `ServerLifecycle.dfy`, `ServerTraces.dfy` | `TcpServer.dfy` |
| remote calls | `RpcMatching.dfy`, `RpcTraces.dfy` | `RpcChannel.dfy` |
| asynchronous log | `LogPipeline.dfy` | `LogStream.dfy`, `AsyncLogger.dfy` |
| connector | `Connecting.dfy` | `Connector.dfy` |
| thread pool | `WorkerPool.dfy` | `ThreadPool.dfy` |

An assertion of the source sets a `failed` flag in the machine, and the theorems prove that the
flag is never set, or exactly when it is; the timer queue's are listed step by step in `TimerAssertions.dfy` instead.
Where an assertion can fail, or a `LOG_FATAL` ends the program
(`starry/base/log/src/logging.cpp:49-52`), the outcome is recorded and the state is terminal.
System calls, the clock and the kernel's answers are parameters of steps.

## Where the code does less than it seems to promise

Each of these is kept as the code has it, shown on a concrete state, and the promise is
proved under its exact condition.

* `starry/net/include/buffer.h:252` asserts that more than eight bytes are readable before
  compacting. The buffer records when that fails (`failed`, set exactly under `Stops`), and
  `CompactionAssertionTooStrong` builds a buffer where it does. What the copy needs, that it
  moves left, always holds (`MakeSpace`), and so does what each operation does to the bytes.
* `starry/net/rpc/protobuf_codec_lite.cpp:77` narrows the size to eight bits, so encoding
  completes exactly for payloads shorter than 256 bytes, in a buffer that does not meet the
  assertion above (`FillEmptyBuffer`, an equivalence on the state before the call); a new
  buffer never does (`IntactEncodes`), one whose last bytes were taken back can
  (`UnwrittenBufferStops`). The decoder's own limit is 64 MiB, and `RoundTrip` is an
  equivalence for that one.
* `starry/net/src/timer_queue.cpp:184` starts from the epoch but line 200 compares with the
  minimum timestamp. When the batch leaves no timer, the epoch is armed, the delay is
  negative, `timerfd_settime` refuses it and the program aborts; likewise when a timer
  left has already passed (`FinishFatal`, an equivalence on the state before; `LoneTimerFatal`,
  an ordinary one-shot timer). A delay of exactly zero disarms the descriptor
  (`DeadlineArmed`, an equivalence; `ZeroDelayDisarms`). Adding can be fatal in the same way
  (`AddFatal`, an equivalence).
* A cancel of a timer whose insertion is still queued is lost (`CancelLostExactly`, an equivalence;
  `LostCancelRuns`).
* `starry/net/src/eventloop.cpp:125` does not wake the loop for a functor that the loop's own
  thread queues before `loop()` (`EarlyPushStrands`); `NoStrandedFunctor` says exactly when
  the loop is stranded, which lasts until an event or the poll's time-out of ten seconds.
  `quit()` before `loop()` is overwritten at line 77 (`EarlyQuitIsLost`);
  `QuitHonouredExactly` is the equivalence.
* A write after the write side was shut fails and ends the program (the signal that comes with
  it may end it sooner). A message of another thread gets there if it was queued before the
  shutdown, or if its sender had only read the state by then and queues it later
  (`ForeignSendIsFatal`); `LateWriteExact` and `ShutdownIsSafe` say exactly when one can, by the
  queue and the senders under way at the shutdown. Otherwise nothing follows a shutdown
  (`NothingAfterShut`).
* `starry/net/src/connector.cpp:116` asserts that the last channel has been dropped. A retry timer
  that fires while the drop is still queued, with the connection in progress at once, fails it
  (`LateDropFails`, a loop more than half a second late); `AssertionFailsExactly` says that
  this is the only way.
* A shutdown performed on a connection that was closed with output pending leaves it unsent
  (`ShutdownLeavesUnsent`, an equivalence; `ClosedThenShut`).
* Disabling a channel twice registers it again, with an empty mask (`LatestRequest`).
* A request that names an unknown service or method gets no answer, so its call stays
  outstanding for ever (`SettledCallsAreDone`, two equivalences).
* A batch of more than 25 log buffers is cut to its first two (`OverlongBatchIsCut`), and what is
  buffered when the logger stops never reaches the file (`StopLosesTheTail`). The file is always
  exactly the buffers kept, whole lines in order (`FileIsTheKeptBuffers`); `NothingElseIsLost`
  and `StopExact` are the equivalences.
* A stopped pool of no workers runs nothing (`StopDrains`, an equivalence).

## Assumptions

* The monotonic clock and `Timestamp` agree, and the clock never reads the minimum timestamp.
* A connection's or codec's callbacks do not themselves take bytes out of the buffer they are
  given; the error callback is called again on each later arrival, so the verdict stays.
* A hang-up event without input comes without urgent or half-closed input, so that one event does
  not both close and read (`starry/net/src/channel.cpp:66-85`).
* The test and the set of a state in `shutdown` and `forceClose` happen together; what they, and
  `send`, then queue is queued later.
* `shutdown` and `write` on a socket may fail at any time, and `write` does after `shutdown`.
* The RPC server answers a request at most once, and one connection carries the messages in order.

## Model

| member | source | states |
|---|---|---|
| `ByteBuffer.Buffer.constructor` | starry/net/include/buffer.h:21-24 | a new buffer has nothing readable, eight bytes to prepend to and the asked space |
| `ByteBuffer.Buffer.ReadableBytes` | starry/net/include/buffer.h:34-38 | the index difference is the length of the readable sequence |
| `ByteBuffer.Buffer.Swap` | starry/net/include/buffer.h:27-31 | the two buffers exchange storage and indices, hence contents |
| `ByteBuffer.Buffer.Retrieve` | starry/net/include/buffer.h:69-76 | drops exactly `len` bytes from the front, also when that empties the buffer and resets it |
| `ByteBuffer.Buffer.RetrieveAsString` | starry/net/include/buffer.h:97-102 | what is returned followed by what stays is what was readable |
| `ByteBuffer.Buffer.RetrieveAll` | starry/net/include/buffer.h:130-133 | empties the buffer and restores the prepend area |
| `ByteBuffer.Buffer.MoveLeft` | starry/net/include/buffer.h:253-255 | the forward copy onto overlapping bytes puts the readable bytes behind the prepend area |
| `ByteBuffer.Buffer.MakeSpace` | starry/net/include/buffer.h:248-260 | both branches, growth and the overlapping left copy, keep the readable bytes; exactly how much room and prepend area there is afterwards; the assertion fails exactly when compacting with at most eight readable bytes |
| `ByteBuffer.CompactionAssertionTooStrong` | starry/net/include/buffer.h:249-252 | a buffer in the compaction branch with at most eight readable bytes |
| `ByteBuffer.Buffer.EnsureWritableBytes` | starry/net/include/buffer.h:116-121 | contents kept, exactly how much room there is afterwards, nothing moved if there was room, and when the assertion fails |
| `ByteBuffer.Buffer.CopyToEnd` | starry/net/include/buffer.h:123-127 | bytes copied into the free space and passed over are appended |
| `ByteBuffer.Buffer.Append` | starry/net/include/buffer.h:105-113 | contents grow by exactly the data at the end, for any length; room left, and when the assertion fails, exactly |
| `ByteBuffer.Buffer.Unwrite` | starry/net/include/buffer.h:139-142 | takes back exactly the last `len` bytes |
| `ByteBuffer.Buffer.Prepend` | starry/net/include/buffer.h:223-228 | contents grow by exactly the data at the front |
| `ByteBuffer.Buffer.Shrink` | starry/net/include/buffer.h:231-236 | contents move unchanged to fresh storage with the reserve free |
| `ByteBuffer.Buffer.ReadFd` | starry/net/src/buffer.cpp:17-37 | a scatter read of any possible length appends exactly what the kernel delivered, with or without a spill; a failed one changes nothing and reports the error |
| `ByteBuffer.Buffer.AppendInt32` | starry/net/include/buffer.h:150-153 | appends four bytes in network order |
| `ByteBuffer.Buffer.PeekInt32` | starry/net/include/buffer.h:187-192 | the signed value of the first four bytes; nothing is taken |
| `ByteBuffer.Buffer.ReadInt32` | starry/net/include/buffer.h:166-170 | takes off four bytes and returns the integer whose network-order bytes they are |
| `ByteBuffer.Buffer.PrependInt32` | starry/net/include/buffer.h:211-214 | prepends four bytes in network order |
| `Bytes.ReadAfterWrite` | starry/net/include/buffer.h:144-214 | reading back what was written in network order gives the value, for every width |
| `Bytes.WriteAfterRead` | starry/net/include/buffer.h:144-214 | writing what was read in network order gives the bytes, for every width |
| `Bytes.BigEndian32Inverse` | starry/net/include/buffer.h:150-192 | network-order writing and reading of 32 bits are inverse in both directions |
| `Bytes.BigEndianBytes` | starry/net/include/buffer.h:150-153 | the most significant byte comes first, each byte as a quotient |
| `Bytes.BigEndianValue` | starry/net/include/buffer.h:187-192 | the value of four bytes, the first weighing most |
| `Adler32.RunningIsWideReduced` | starry/net/rpc/protobuf_codec_lite.cpp:121-125 | the checksum's running sums, reduced at each byte as RFC 1950 section 8.2 defines them, are the unbounded weighted sums reduced once |
| `Adler32.ChecksumClosedForm` | starry/net/rpc/protobuf_codec_lite.cpp:121-125 | the low sixteen bits are one plus the sum of the bytes modulo 65521, the high ones the length plus the sum of each byte times its distance from the end, modulo 65521 |
| `Adler32.ChecksumOfTag` | starry/net/rpc/rpc_codec.h:17-24 | the checksum of the four bytes of the RPC tag is 0x02F20116 |
| `Adler32.TwoByteChangeMissed` | starry/net/rpc/protobuf_codec_lite.cpp:121-125 | a change confined to two bytes goes unnoticed if and only if one gains what the other loses and they lie a multiple of 65521 apart (or nothing changed), for every length |
| `Adler32.OneByteChangeNoticed` | starry/net/rpc/protobuf_codec_lite.cpp:121-125 | no change to one byte goes unnoticed |
| `Codec.FirstFrameStable` | starry/net/rpc/protobuf_codec_lite.cpp:92-118 | a verdict on the head of the stream is not changed by bytes that arrive later |
| `Codec.DecodeAppend` | starry/net/rpc/protobuf_codec_lite.cpp:86-119 | decoding, and later decoding the leftover with more bytes, equals decoding all at once; after an error nothing more is delivered and the error stays |
| `Codec.ChunkIndependence` | starry/net/rpc/protobuf_codec_lite.cpp:86-119 | for every stream and every way to cut it into arrivals: same messages, same leftover, same verdict as one call |
| `Codec.ParseInvertsBody` | starry/net/rpc/protobuf_codec_lite.cpp:181-205 | the parser accepts a body as `p` if and only if it is the body encoded for `p` and the message parser takes it |
| `Codec.FirstIsFrame` | starry/net/rpc/protobuf_codec_lite.cpp:86-119 | a message taken from the head came from exactly the frame the encoder builds for it |
| `Codec.ParseChecksum` | starry/net/rpc/protobuf_codec_lite.cpp:167-173 | a body is rejected with the checksum error if and only if its last four bytes are not the checksum of the rest |
| `Codec.ForeignFrame` | starry/net/rpc/protobuf_codec_lite.cpp:92-118 | what a decoder makes of any frame encoded under any tag: too short, wrong length, wrong tag, unparsable, or a message, in that order |
| `Codec.DecodeFrames` | starry/net/rpc/protobuf_codec_lite.cpp:29-119 | decoding frames followed by anything delivers their payloads, then what the rest decodes to |
| `Codec.DecodeIsSound` | starry/net/rpc/protobuf_codec_lite.cpp:86-119 | on any stream the bytes consumed are exactly the frames of the messages delivered |
| `Codec.RoundTrip` | starry/net/rpc/protobuf_codec_lite.cpp:29-119 | concatenated frames decode to their payloads with nothing left over if and only if each payload is within the decoder's limit and parses |
| `Codec.FrameLayout` | starry/net/rpc/rpc_codec.h:17-24 | a frame byte by byte: length, tag, payload, and the two weighted sums of tag and payload, high half first, with every constant a numeral |
| `Codec.LengthDecides` | starry/net/rpc/protobuf_codec_lite.cpp:92-118 | from the first four bytes: too little waits; over 67108864 or under tag and checksum, and only then, is the length error; a part of a frame waits |
| `Codec.FramesInjective` | starry/net/rpc/rpc_codec.h:17-24 | the frame format is self-delimiting: equal bytes come from equal payload sequences |
| `Codec.DecodePrefix` | starry/net/rpc/protobuf_codec_lite.cpp:86-119 | of any beginning of a frame sequence, a beginning of the payloads is delivered and no error is reported |
| `Codec.CorruptBody` | starry/net/rpc/protobuf_codec_lite.cpp:167-205 | a frame body changed in two bytes is accepted by the checksum test exactly when Adler-32 misses the change |
| `Codec.CorruptNeighbours` | starry/net/rpc/protobuf_codec_lite.cpp:167-205 | any one-byte change and any exchange of unequal neighbours in tag or payload is rejected with the checksum error, for every length |
| `Codec.CorruptFrameStopsStream` | starry/net/rpc/protobuf_codec_lite.cpp:86-119 | a corrupted frame after good ones: those are delivered, nothing after is, the verdict is the checksum error |
| `ProtobufCodec.ProtobufCodecLite.SerializeToBuffer` | starry/net/rpc/protobuf_codec_lite.cpp:61-84 | appends the payload and returns its size if and only if the message is initialized and shorter than 256 bytes; else appends nothing and returns -1 |
| `ProtobufCodec.ProtobufCodecLite.FillEmptyBuffer` | starry/net/rpc/protobuf_codec_lite.cpp:29-54 | completes if and only if the message is initialized and shorter than 256 bytes and the buffer before the call does not lead to the compaction assertion; then it holds exactly the frame |
| `ProtobufCodec.ProtobufCodecLite.AppendTagAndWire` | starry/net/rpc/protobuf_codec_lite.cpp:39-43 | tag and payload behind it, or the tag alone; whether the compaction assertion is met by then, or will be by the checksum |
| `ProtobufCodec.IntactEncodes` | starry/net/rpc/protobuf_codec_lite.cpp:24-25 | encoding into a new buffer, as `send` does, never meets the compaction assertion |
| `ProtobufCodec.UnwrittenBufferStops` | starry/net/rpc/protobuf_codec_lite.cpp:29-54 | an empty buffer, reached by appending, reading and taking back, in which encoding meets it |
| `ProtobufCodec.ProtobufCodecLite.Examine` | starry/net/rpc/protobuf_codec_lite.cpp:92-117 | one test of the buffer's head, nothing consumed, agrees with the stream specification |
| `ProtobufCodec.ProtobufCodecLite.OnMessage` | starry/net/rpc/protobuf_codec_lite.cpp:86-119 | the loop terminates; leftover, messages delivered and error reported are those of the stream specification |
| `Timers.LowerBound` | starry/net/src/timer_queue.cpp:161-166 | the position splits an ordered set at an entry |
| `Timers.InsertSorted` | starry/net/src/timer_queue.cpp:213-223 | insertion keeps the order and adds exactly the entry; it is first exactly when it is earliest |
| `Timers.EraseSorted` | starry/net/src/timer_queue.cpp:130-135 | erasure keeps the order and removes exactly the entry |
| `TimerTheorems.ExpiredSplit` | starry/net/src/timer_queue.cpp:161-171 | the split is exact: all taken have expired, all that stay have not, both in order |
| `TimerTheorems.SetsAlwaysAgree` | starry/net/src/timer_queue.cpp:115-234 | in every run, with adds and cancels inside callbacks and addresses used again, both sets hold the same timers under their current expirations and ids, and each timer is in exactly one of in flight, scheduled or batch |
| `TimerAssertions.NoAssertionFails` | starry/net/src/timer_queue.cpp:126-234 | in every run both sets have the same size, and in whatever step comes next every assertion holds: sizes before and after, one entry erased, both insertions new, the end of the split |
| `TimerAssertions.SizesAgree` | starry/net/src/timer_queue.cpp:128-140 | sets that agree have the same size |
| `TimerTheorems.StepKeeps` | starry/net/src/timer_queue.cpp:101-234 | every step of the queue keeps that agreement |
| `TimerCancellation.CancellationIsSafe` | starry/net/src/timer_queue.cpp:126-141 | in any continuation, a cancelled timer runs never again if it was scheduled, and at most once if it was waiting in the current batch |
| `TimerCancellation.CancelledForEver` | starry/net/src/timer_queue.cpp:126-158 | once no batch is being run any more, a cancelled timer never runs again |
| `TimerCancellation.CancelLostExactly` | starry/net/src/timer_queue.cpp:101-141 | a cancel of a live timer takes effect if and only if the timer has been inserted; else nothing changes but a mark |
| `TimerCancellation.LostCancelRuns` | starry/net/src/timer_queue.cpp:101-158 | a timer cancelled before its insertion runs all the same |
| `TimerCancellation.CancelTouchesOnly` | starry/net/src/timer_queue.cpp:126-141 | cancelling an id, stale or not, leaves every other timer in its place and unmarked, even one that has the same address |
| `TimerCancellation.BatchesRunInOrder` | starry/net/src/timer_queue.cpp:144-158 | callbacks run in the order of the expired batch, and the timer of one still waiting has not been deleted |
| `TimerTraces.TimersAsRequested` | starry/net/src/timer_queue.cpp:101-107 | in every run each timer that exists has the address, interval and repetition of the request with its number, and until its callback is run that request's deadline |
| `TimerTraces.DueAreTaken` | starry/net/src/timer_queue.cpp:161-179 | a batch takes exactly the timers due, in order, and leaves the rest |
| `TimerTraces.RepeatsAtItsInterval` | starry/net/src/timer_queue.cpp:183-203 | in every run, when a batch ends, a timer of it requested as repeating and not cancelled since the batch was read is scheduled at that reading plus its interval; any other of it is gone |
| `TimerDeadline.DeadlineArmed` | starry/net/src/timer_queue.cpp:183-203 | after every step outside a batch, the descriptor is armed no later than the earliest timer if and only if it was not last set with zero delay |
| `TimerDeadline.BatchLeaves` | starry/net/src/timer_queue.cpp:183-194 | after a batch exactly these are scheduled: what was, and the restarts of repeating timers that nobody cancelled |
| `TimerDeadline.FinishFatal` | starry/net/src/timer_queue.cpp:183-203 | ending a batch aborts if and only if, judged before, some timer then waiting has passed, or none waits and the epoch has |
| `TimerDeadline.AddFatal` | starry/net/src/timer_queue.cpp:65-122 | adding aborts if and only if the new timer has passed and is earlier than every scheduled one |
| `TimerDeadline.ZeroDelayDisarms` | starry/net/src/timer_queue.cpp:38-75 | a new timer due at this very moment leaves the descriptor disarmed |
| `TimerDeadline.LoneTimerFatal` | starry/net/src/timer_queue.cpp:183-203 | a one-shot timer that is the only one runs its callback and then ends the program |
| `TimerQueueObject.TimerQueue.constructor` | starry/net/src/timer_queue.cpp:81-89 | starts as the empty queue |
| `TimerQueueObject.TimerQueue.AddTimer` | starry/net/src/timer_queue.cpp:101-107 | the heap is as before but for the free address, which holds exactly the deadline, interval and repetition asked for under a number never used before; the id returned is that timer's |
| `TimerQueueObject.TimerQueue.SetTimerfd` | starry/net/src/timer_queue.cpp:65-75 | a negative delay is fatal, a zero one disarms, another arms at the deadline |
| `TimerQueueObject.TimerQueue.InsertBoth` | starry/net/src/timer_queue.cpp:206-234 | both sets get the timer; the result says whether it is the new earliest |
| `TimerQueueObject.TimerQueue.AddTimerInLoop` | starry/net/src/timer_queue.cpp:115-122 | the in-loop half of adding, with the descriptor set when the earliest changed |
| `TimerQueueObject.TimerQueue.CancelTimerInLoop` | starry/net/src/timer_queue.cpp:126-141 | an active timer leaves both sets and is deleted; during a batch another id is marked; otherwise nothing |
| `TimerQueueObject.TimerQueue.TakeExpired` | starry/net/src/timer_queue.cpp:161-179 | expired entries, and only they, leave both sets |
| `TimerQueueObject.TimerQueue.HandleRead` | starry/net/src/timer_queue.cpp:144-151 | a batch starts, marks are forgotten |
| `TimerQueueObject.TimerQueue.RunExpired` | starry/net/src/timer_queue.cpp:152-155 | the next callback of the batch is run and logged |
| `TimerQueueObject.TimerQueue.ResetFirst` | starry/net/src/timer_queue.cpp:186-194 | a repeating unmarked timer is restarted at the time of reading plus its interval and is in both sets again, any other is deleted |
| `TimerQueueObject.TimerQueue.ResetBatch` | starry/net/src/timer_queue.cpp:186-194 | the loop treats every timer of the batch so, in order |
| `TimerQueueObject.TimerQueue.SetNextExpire` | starry/net/src/timer_queue.cpp:196-202 | the next deadline, the epoch when there is none |
| `TimerQueueObject.TimerQueue.Reset` | starry/net/src/timer_queue.cpp:183-203 | the end of a batch: which timers are left and what each is, and what the descriptor is armed for |
| `LoopHandoff.NoStrandedFunctor` | starry/net/src/eventloop.cpp:73-128 | in every interleaving executed, batch and pending together are what the run's steps handed over, in order; a turn executes all that was queued when its poll returned; the loop is stranded in poll if and only if it is its first poll, its own thread pushed before `loop`, and nobody else has called since |
| `LoopHandoff.CalledInOrder` | starry/net/src/eventloop.cpp:119-221 | the functors called are the first of those the run's steps handed over, in order, as many as there were calls; the rest are in the batch or pending |
| `LoopHandoff.EarlyPushStrands` | starry/net/src/eventloop.cpp:119-128 | one functor queued by the loop thread before `loop` is stranded in the first poll |
| `LoopHandoff.QuitHonouredExactly` | starry/net/src/eventloop.cpp:73-107 | the loop leaves at its next test if and only if one of the run's steps called quit after `loop` began, and such a call does not find it asleep for good |
| `LoopHandoff.EarlyQuitIsLost` | starry/net/src/eventloop.cpp:73-107 | a quit before `loop` is overwritten and the loop goes to sleep |
| `LoopHandoff.StepKeeps` | starry/net/src/eventloop.cpp:73-221 | each step of the loop or of another thread keeps the hand-off invariant |
| `EventLoopObject.EventLoop.PushLocked` | starry/net/src/eventloop.cpp:119-123 | another thread's push under the lock puts the functor at the end of the pending ones; its wakeup is still owed |
| `EventLoopObject.EventLoop.Wakeup` | starry/net/src/eventloop.cpp:190-196 | the eventfd counter rises and the debt is paid |
| `EventLoopObject.EventLoop.QuitFrom` | starry/net/src/eventloop.cpp:102-107 | another thread's quit; its wakeup is still owed |
| `EventLoopObject.EventLoop.QuitHere` | starry/net/src/eventloop.cpp:102-107 | quit on the loop thread, without a wakeup |
| `EventLoopObject.EventLoop.QueueInLoop` | starry/net/src/eventloop.cpp:119-128 | the loop thread's push puts the functor at the end of the pending ones, with a wakeup exactly while functors are being called |
| `EventLoopObject.EventLoop.Begin` | starry/net/src/eventloop.cpp:73-77 | entering `loop` clears the quit flag |
| `EventLoopObject.EventLoop.EnterPoll` | starry/net/src/eventloop.cpp:79-82 | leaves exactly when quit was called since `loop` began, otherwise polls |
| `EventLoopObject.EventLoop.LeavePoll` | starry/net/src/eventloop.cpp:82-93 | poll returns, the wakeup channel active exactly when the counter is positive |
| `EventLoopObject.EventLoop.HandleRead` | starry/net/src/eventloop.cpp:199-205 | reading the eventfd resets the counter |
| `EventLoopObject.EventLoop.BeginPendingFunctors` | starry/net/src/eventloop.cpp:208-210 | the calling flag is set before the lock is taken |
| `EventLoopObject.EventLoop.SwapLocked` | starry/net/src/eventloop.cpp:212-215 | the pending functors become the batch under the lock |
| `EventLoopObject.EventLoop.CallFunctor` | starry/net/src/eventloop.cpp:217-219 | the functor called is the next in the queueing history |
| `EventLoopObject.EventLoop.EndPendingFunctors` | starry/net/src/eventloop.cpp:220-221 | the flag is cleared, and all that was queued when poll returned has been executed |
| `Interests.StepAgrees` | starry/net/src/epoll_poller.cpp:72-120 | every request and removal keeps the kernel's set agreeing |
| `Interests.AlwaysAgree` | starry/net/src/epoll_poller.cpp:72-120 | in every run no control call is refused, and the kernel watches a descriptor for what its channel has asked for last in the run's steps: always if that is something, never if it was removed or never asked |
| `Interests.LatestRequest` | starry/net/src/epoll_poller.cpp:72-100 | after two requests the kernel watches the descriptor for the second, and if and only if it wants something or both wanted nothing and it was watched |
| `ChannelAndPoller.Channel.ChangeEvents` | starry/net/src/channel.cpp:43-46 | the channel's new mask reaches the poller: one step of the machine, filed under its descriptor |
| `ChannelAndPoller.Channel.EnableReading` | starry/net/include/channel.h:37 | adds reading, keeps writing |
| `ChannelAndPoller.Channel.EnableWriting` | starry/net/include/channel.h:39 | adds writing, keeps reading |
| `ChannelAndPoller.Channel.DisableWriting` | starry/net/include/channel.h:40 | drops writing, keeps reading |
| `ChannelAndPoller.Channel.DisableAll` | starry/net/include/channel.h:41 | drops both |
| `ChannelAndPoller.Channel.Remove` | starry/net/src/channel.cpp:48-52 | a channel that wants nothing is forgotten and new again |
| `ChannelAndPoller.EpollPoller.EpollControl` | starry/net/src/epoll_poller.cpp:123-136 | one kernel call, refused and fatal on a present or absent descriptor |
| `ChannelAndPoller.EpollPoller.UpdateChannel` | starry/net/src/epoll_poller.cpp:72-100 | new, added and deleted channels each get the right kernel call and index |
| `ChannelAndPoller.EpollPoller.RemoveChannel` | starry/net/src/epoll_poller.cpp:103-120 | an added channel leaves the kernel, and any leaves the map |
| `ConnectionTraces.OutputIsExact` | starry/net/src/tcp_connection.cpp:83-158 | in every run the messages accepted are exactly those of the sends made on the loop thread while connected and of the queued sends performed before the connection was down; with arbitrary partial and refused writes, the bytes given to the kernel, as many as it answered to have taken, followed by the output buffer are these messages in order; the channel asks to write exactly while output is pending |
| `ConnectionTraces.TasksInOrder` | starry/net/src/tcp_connection.cpp:83-193 | tasks are performed in the order they are queued, none lost; those other threads have decided on are queued or about to be |
| `Connections.HalfCloseIsGraceful` | starry/net/src/tcp_connection.cpp:161-175 | the write side is shut only with every accepted message with the kernel, unless the connection was closed before; a requested shutdown is not forgotten; one callback up and at most one down |
| `Connections.ShutdownLeavesUnsent` | starry/net/src/tcp_connection.cpp:170-175 | a shutdown leaves accepted bytes unsent if and only if it is performed on a connection closed with output pending |
| `Connections.ClosedThenShut` | starry/net/src/tcp_connection.cpp:161-175 | a run in which that happens |
| `Connections.NothingAfterShut` | starry/net/src/tcp_connection.cpp:115-175 | after the shutdown the kernel is given nothing more, whoever sends, and no message is accepted unless it ends the program |
| `Connections.LateWriteExact` | starry/net/src/tcp_connection.cpp:115-175 | some continuation writes after the shutdown, which ends the program, if and only if at the shutdown the connection is open, and a message is queued with no close before it, or a sender is past its test of the state and no close is queued |
| `Connections.ShutdownIsSafe` | starry/net/src/tcp_connection.cpp:161-167 | `shutdown` on the loop thread, nothing being left to write, can be followed by such a write if and only if another thread's message is queued or about to be |
| `Connections.ForeignSendIsFatal` | starry/net/src/tcp_connection.cpp:83-139 | a message that another thread had only decided to queue at the shutdown, the queue being empty, ends the program |
| `Connections.StepKeeps` | starry/net/src/tcp_connection.cpp:83-321 | every step keeps conservation, the writing flag, shutdown order and callback counts |
| `TcpConnectionObject.TcpConnection.constructor` | starry/net/src/tcp_connection.cpp:35-56 | a connection starts connecting, watching nothing, with empty buffers |
| `TcpConnectionObject.TcpConnection.KeepRemaining` | starry/net/src/tcp_connection.cpp:145-157 | what the kernel did not take is buffered and writing enabled; when the buffer's assertion fails |
| `TcpConnectionObject.TcpConnection.Write` | starry/net/src/tcp_connection.cpp:125-140 | the direct write: a part taken, nothing taken, or a fatal error |
| `TcpConnectionObject.TcpConnection.SendNow` | starry/net/src/tcp_connection.cpp:115-158 | unless the connection is closed the message is accepted, and bytes sent and buffered are those before and then, whole, this message |
| `TcpConnectionObject.TcpConnection.Send` | starry/net/src/tcp_connection.cpp:83-93 | on the loop thread exactly a connected connection accepts the message, whole and behind what was there before |
| `TcpConnectionObject.TcpConnection.SendFrom` | starry/net/src/tcp_connection.cpp:83-84 | a send from another thread first reads the state |
| `TcpConnectionObject.TcpConnection.QueueFrom` | starry/net/src/tcp_connection.cpp:88-91 | and then queues its task, whatever the state is by now |
| `TcpConnectionObject.TcpConnection.SendDirectly` | starry/net/src/tcp_connection.cpp:124-157 | with nothing waiting, the kernel is asked and the rest kept |
| `TcpConnectionObject.TcpConnection.ShutdownNow` | starry/net/src/tcp_connection.cpp:170-175 | shuts the write side unless output is pending; a refusal ends the program |
| `TcpConnectionObject.TcpConnection.RequestShutdown` | starry/net/src/tcp_connection.cpp:161-167 | on the loop thread: connected becomes disconnecting, and the shutdown follows at once |
| `TcpConnectionObject.TcpConnection.ShutdownFrom` | starry/net/src/tcp_connection.cpp:161-167 | on another thread: connected becomes disconnecting, the task is about to be queued |
| `TcpConnectionObject.TcpConnection.RequestForceClose` | starry/net/src/tcp_connection.cpp:178-185 | on the loop thread: the close is queued, from connected or disconnecting |
| `TcpConnectionObject.TcpConnection.ForceCloseFrom` | starry/net/src/tcp_connection.cpp:178-185 | on another thread: disconnecting, the close is about to be queued |
| `TcpConnectionObject.TcpConnection.ConnectEstablished` | starry/net/src/tcp_connection.cpp:245-253 | connecting becomes connected, reading starts, the user hears once |
| `TcpConnectionObject.TcpConnection.CloseNow` | starry/net/src/tcp_connection.cpp:311-321 | the channel is quiet, the state disconnected, the user hears once |
| `TcpConnectionObject.TcpConnection.RunQueued` | starry/net/src/tcp_connection.cpp:83-193 | the next queued task leaves the queue: a message is accepted unless the connection is closed, a shutdown happens unless output is pending, a close takes an open connection down |
| `TcpConnectionObject.TcpConnection.WriteNow` | starry/net/src/tcp_connection.cpp:284-308 | a partial write drops exactly what was taken; when drained, writing stops and a pending shutdown happens |
| `TcpConnectionObject.TcpConnection.ReadNow` | starry/net/src/tcp_connection.cpp:268-281 | what arrives goes through the input buffer into the codec with the stream specification's result; a failed read changes nothing; end of file closes |
| `TcpConnectionObject.TcpConnection.ConnectDestroyed` | starry/net/src/tcp_connection.cpp:256-265 | a connection still connected is closed first; then the channel leaves the poller, or an assertion fails because it was never registered or still wants something |
| `EndToEnd.MessagesArriveInOrder` | starry/net/rpc/protobuf_codec_lite.cpp:21-119 | if the messages of a run's accepted sends are the frames of payloads, then in any pieces of any part of what the kernel took a beginning of these payloads arrives, all of them once all has, and never an error |
| `ServerLifecycle.LivesInOrder` | starry/net/src/tcp_server.cpp:63-99 | in every interleaving of the base loop and the I/O loops no assertion fails and each connection goes up, down, is closed, erased, destroyed, each at most once and in that order, with its channel registered until destroyed |
| `ServerTraces.HomesAreKept` | starry/net/src/tcp_server.cpp:63-82 | in every run the n-th connection accepted has number n and lives in the loop it was accepted for; it is down, or its close is queued there, if and only if its peer closed or a forced close was queued |
| `ServerTraces.QuietServerHasNoZombies` | starry/net/src/tcp_server.cpp:63-99 | when no task is queued anywhere, each connection has its whole life behind it if its peer closed or a forced close was queued, and is up otherwise |
| `ServerLifecycle.TasksCanRun` | starry/net/src/tcp_server.cpp:63-99 | a queued task of the life cycle can always be performed |
| `ServerLifecycle.StepKeeps` | starry/net/src/tcp_server.cpp:63-99 | every hop of a connection between loops keeps the life-cycle invariant |
| `TcpServerObject.TcpServer.NewConnection` | starry/net/src/tcp_server.cpp:63-82 | a connection gets the next number, is listed, and is up at once on the base loop or has its establishment queued in the loop given |
| `TcpServerObject.TcpServer.RemoveConnection` | starry/net/src/tcp_server.cpp:85-87 | on the base loop at once, otherwise queued there |
| `TcpServerObject.TcpServer.RemoveConnectionInLoop` | starry/net/src/tcp_server.cpp:90-99 | exactly one entry is erased, and destruction is queued for the home loop |
| `TcpServerObject.TcpServer.ConnectEstablished` | starry/net/src/tcp_connection.cpp:245-253 | as part of the life cycle: connecting becomes connected and watched |
| `TcpServerObject.TcpServer.HandleClose` | starry/net/src/tcp_connection.cpp:311-321 | an open connection is closed, its channel quiet, and its removal done at once or queued on the base loop |
| `TcpServerObject.TcpServer.ConnectDestroyed` | starry/net/src/tcp_connection.cpp:256-265 | as part of the life cycle: the last step, the channel removed |
| `TcpServerObject.TcpServer.RunTask` | starry/net/src/eventloop.cpp:208-221 | a loop's next task performs its life-cycle step and no assertion fails |
| `TcpServerObject.TcpServer.PeerCloses` | starry/net/src/tcp_connection.cpp:268-281 | the peer's close starts the way down |
| `TcpServerObject.TcpServer.RequestShutdown` | starry/net/src/tcp_connection.cpp:161-167 | connected becomes disconnecting |
| `TcpServerObject.TcpServer.RequestForceClose` | starry/net/src/tcp_connection.cpp:178-185 | on its loop's thread: disconnecting, and the close is queued in its loop |
| `TcpServerObject.TcpServer.ForceCloseFrom` | starry/net/src/tcp_connection.cpp:178-185 | on another thread: disconnecting, the close is about to be queued |
| `TcpServerObject.TcpServer.QueueForceClose` | starry/net/src/tcp_connection.cpp:178-185 | and is queued in its loop, whatever has become of the connection |
| `RpcTraces.RepliesMatch` | starry/net/rpc/rpc_channel.cpp:34-142 | in every interleaving of callers with a server answering in any order: the wires hold what was sent and not read, ids are unique, a reply in flight finds its call; the callbacks run are, in the order the replies came, those asked for, each at most once, each with what one of the run's steps answered under its id, to its own request |
| `RpcTraces.SettledCallsAreDone` | starry/net/rpc/rpc_channel.cpp:34-142 | when nothing is in flight a call is outstanding if and only if its service or method is not there, and its callback has run if and only if it is there and the call left one |
| `RpcMatching.StepKeeps` | starry/net/rpc/rpc_channel.cpp:34-142 | every step of a caller, the server or the client keeps the matching |
| `RpcChannelObject.RpcChannel.TakeId` | starry/net/rpc/rpc_channel.cpp:40 | the counter goes up by one and that is the id, which no call had before |
| `RpcChannelObject.RpcChannel.FileCall` | starry/net/rpc/rpc_channel.cpp:46-50 | the call is filed under its id, nothing else being filed or lost, before it is sent |
| `RpcChannelObject.RpcChannel.SendRequest` | starry/net/rpc/rpc_channel.cpp:51 | the call's own request, under its id, follows the earlier ones, its call being outstanding |
| `RpcChannelObject.RpcChannel.CallServiceMethod` | starry/net/rpc/rpc_channel.cpp:104-130 | the next request is looked up, and served exactly when its service and method are there |
| `RpcChannelObject.RpcChannel.DoneCallback` | starry/net/rpc/rpc_channel.cpp:132-142 | the reply the service gave, under the request's id, follows the earlier ones |
| `RpcChannelObject.RpcChannel.OnRpcMessage` | starry/net/rpc/rpc_channel.cpp:63-102 | a reply finds its call, takes it out, and runs the callback exactly when there is a prototype and a callback |
| `LogStreams.Fill` | starry/base/log/include/log_stream.h:49-53 | what a fixed-size buffer holds after a write: all of it exactly when it fits, else as much as fits |
| `LogStreams.LogStream.Append` | starry/base/log/include/log_stream.h:49-53 | the array holds that, with its length in either case |
| `LogStreams.LogStream.Clear` | starry/base/log/include/log_stream.h:64 | the buffer is empty |
| `LogPipeline.FileIsTheKeptBuffers` | starry/base/log/src/async_logger.cpp:31-106 | in every interleaving recycling never meets an empty vector and spares are empty; the lines that the run's steps appended, cut at 4194304 bytes, are in the buffers in order and whole; the file is exactly the kept buffers of the batches written |
| `LogPipeline.NothingElseIsLost` | starry/base/log/src/async_logger.cpp:31-106 | file, batch, full and current buffer are all that the run's steps appended, in order, if and only if every batch cut lost empty buffers only; so while no batch exceeds 25; byte counts always add up |
| `LogPipeline.StopExact` | starry/base/log/src/async_logger.cpp:50-118 | once the back end has left, the file is all that the run's steps appended if and only if nothing was dropped and nothing was buffered |
| `LogPipeline.OverlongBatchIsCut` | starry/base/log/src/async_logger.cpp:50-106 | for every k > 25, k full-size lines in one turn leave only the first in the file |
| `LogPipeline.SparesFound` | starry/base/log/src/async_logger.cpp:82-105 | after a turn the back end has two empty spares and has written what it kept |
| `LogPipeline.StopLosesTheTail` | starry/base/log/src/async_logger.cpp:50-118 | a line appended before a stop that never reaches the file |
| `LogPipeline.StepKeeps` | starry/base/log/src/async_logger.cpp:31-118 | every step of front or back end keeps the ledger |
| `AsyncLoggerObject.AsyncLogging.constructor` | starry/base/log/src/async_logger.cpp:9-22 | one current and one spare buffer, both empty; not running |
| `AsyncLoggerObject.AsyncLogging.AppendLine` | starry/base/log/src/async_logger.cpp:31-47 | a line goes into the current buffer, or into the spare or a new one when it does not fit |
| `AsyncLoggerObject.AsyncLogging.StartThread` | starry/base/log/src/async_logger.cpp:109-112 | running, and the back end before its first test |
| `AsyncLoggerObject.AsyncLogging.KeepsRunning` | starry/base/log/src/async_logger.cpp:59 | the back end's loop test |
| `AsyncLoggerObject.AsyncLogging.CollectBuffers` | starry/base/log/src/async_logger.cpp:60-71 | under the lock all buffers become the batch and are replaced |
| `AsyncLoggerObject.AsyncLogging.DropAndWrite` | starry/base/log/src/async_logger.cpp:73-84 | an over-long batch is cut to two, and the rest written in order |
| `AsyncLoggerObject.AsyncLogging.Recycle` | starry/base/log/src/async_logger.cpp:86-102 | missing spares are taken from the written buffers, which suffice |
| `AsyncLoggerObject.AsyncLogging.WriteBuffers` | starry/base/log/src/async_logger.cpp:73-105 | the unlocked part of a turn as one step |
| `AsyncLoggerObject.AsyncLogging.WriteAll` | starry/base/log/src/async_logger.cpp:82-84 | the loop writes the batch's buffers in order |
| `AsyncLoggerObject.AsyncLogging.StopRunning` | starry/base/log/src/async_logger.cpp:114-118 | the running flag falls |
| `ConnectingMachine.SocketsAreAccountedFor` | starry/net/src/connector.cpp:32-189 | for one start with any connect results, events (an error and writability together included) and stops: until the program ends or an assertion fails, each socket opened is in exactly one of held, closed once, handed over once, and the k-th delay is min(500*2^k, 30000) ms |
| `ConnectingMachine.StopStops` | starry/net/src/connector.cpp:49-62 | after a stop, in every continuation without a new start: no socket is opened or handed over, no retry scheduled, no assertion fails; and once the queue has been run every socket not handed over before is closed |
| `ConnectingMachine.KeepsTrying` | starry/net/src/connector.cpp:32-189 | started and not stopped since, it never gives up: exactly one of a queued attempt, a retry timer, a watched socket and a connection handed over |
| `ConnectingMachine.AssertionFailsExactly` | starry/net/src/connector.cpp:38-189 | in every run an assertion fails in the next step if and only if a retry timer fires and the connection is in progress at once while the drop of the last channel is queued |
| `ConnectingMachine.LateDropFails` | starry/net/src/connector.cpp:114-189 | a run in which that happens |
| `ConnectingMachine.QuietConnectorHoldsNothing` | starry/net/src/connector.cpp:32-189 | when the channel watches nothing, every socket not handed over has been closed |
| `ConnectingMachine.DelayClosedForm` | starry/net/src/connector.cpp:176-189 | doubling with a cap in closed form |
| `ConnectingMachine.StepKeeps` | starry/net/src/connector.cpp:32-189 | every step keeps sockets, attempts and delays accounted for |
| `ConnectorObject.Connector.RequestStart` | starry/net/src/connector.cpp:32-35 | the attempt starts in the loop or is queued for it |
| `ConnectorObject.Connector.StartNow` | starry/net/src/connector.cpp:38-46 | connects unless stopped in between |
| `ConnectorObject.Connector.OpenAndConnect` | starry/net/src/connector.cpp:65-102 | by result: wait, retry, or end the program |
| `ConnectorObject.Connector.Attempt` | starry/net/src/connector.cpp:65-102 | the kernel's answer to the attempt on the new socket |
| `ConnectorObject.Connector.StartWatching` | starry/net/src/connector.cpp:114-121 | the socket gets a channel; there is none yet |
| `ConnectorObject.Connector.RequestStop` | starry/net/src/connector.cpp:49-52 | the wish is withdrawn at once and stopping is queued |
| `ConnectorObject.Connector.StopNow` | starry/net/src/connector.cpp:55-62 | an attempt under way gives up its socket |
| `ConnectorObject.Connector.RemoveAndResetChannel` | starry/net/src/connector.cpp:124-130 | the channel is quiet and its drop queued |
| `ConnectorObject.Connector.WriteNow` | starry/net/src/connector.cpp:138-162 | writable: retried on error or self-connect, else handed over, or closed when stopped |
| `ConnectorObject.Connector.ErrorNow` | starry/net/src/connector.cpp:165-173 | an error gives up the attempt |
| `ConnectorObject.Connector.RetryLater` | starry/net/src/connector.cpp:176-189 | the socket is closed, and a retry scheduled with the delay doubled under its cap |
| `ConnectorObject.Connector.Dispatch` | starry/net/src/channel.cpp:66-85 | error before writability, in one event |
| `ConnectorObject.Connector.RunQueued` | starry/net/src/connector.cpp:32-135 | the next queued start, stop or channel drop is performed |
| `ConnectorObject.Connector.RetryTimer` | starry/net/src/connector.cpp:176-189 | a retry timer starts the next attempt; exactly when the assertion fails |
| `WorkerPool.PoppedInOrder` | starry/base/thread_pool/include/thread_pool.h:39-95 | in every interleaving popped and queued items together are what was enqueued before any stop, in order, and each popped one is run once or in a worker's hand |
| `WorkerPool.NoStrandedItem` | starry/base/thread_pool/include/thread_pool.h:39-95 | with any worker, a queued item has a worker that will look or a caller about to notify |
| `WorkerPool.JoinCannotHang` | starry/base/thread_pool/include/thread_pool.h:57-70 | after a stop has notified, each worker can step or has left: none sleeps through it |
| `WorkerPool.StopDrains` | starry/base/thread_pool/include/thread_pool.h:57-70 | when all workers have left after a stop, every item enqueued before it was run exactly once, if and only if there was a worker or no item |
| `WorkerPool.NothingAcceptedAfterStop` | starry/base/thread_pool/include/thread_pool.h:80-83 | a stopped pool accepts nothing more |
| `ThreadPoolObject.ThreadPool.constructor` | starry/base/thread_pool/include/thread_pool.h:18-55 | a pool starts with its workers about to test the queue |
| `ThreadPoolObject.ThreadPool.Enqueue` | starry/base/thread_pool/include/thread_pool.h:72-95 | accepted exactly while running, and then a notification is owed |
| `ThreadPoolObject.ThreadPool.NotifyOneWorker` | starry/base/thread_pool/include/thread_pool.h:93 | one sleeper, if any, wakes |
| `ThreadPoolObject.ThreadPool.Stop` | starry/base/thread_pool/include/thread_pool.h:57-65 | stopping is set once, and a notification to all owed |
| `ThreadPoolObject.ThreadPool.NotifyEveryWorker` | starry/base/thread_pool/include/thread_pool.h:66 | every sleeper wakes, nobody else changes |
| `ThreadPoolObject.ThreadPool.TakeTurn` | starry/base/thread_pool/include/thread_pool.h:39-49 | under the lock a worker pops, leaves when stopped and empty, or sleeps |
| `ThreadPoolObject.ThreadPool.RunTask` | starry/base/thread_pool/include/thread_pool.h:50-51 | the task in hand is run once |
| `ThreadPoolObject.ThreadPool.JoinAll` | starry/base/thread_pool/include/thread_pool.h:66-69 | when every worker has left, all that was accepted has been run exactly once, if and only if there was a worker or nothing was accepted |

## Left out

* Sockets, address conversion, the acceptor and its idle descriptor: system-call wrappers.
* Protobuf: a message is its payload bytes, with a flag for missing fields and a predicate for what the parser accepts.
* zlib's implementation: the checksum is the definition of RFC 1950.
* Log files, formatting, rolling and flushing; date and time strings.
* Write-complete and high-water-mark callbacks, `startRead` and `stopRead`.
* Server destruction with half-closed connections, `TcpClient` and its reconnection.
* A bounded thread-pool queue and producers blocked on it, and `start` after `stop`.
* `EventLoopThreadPool`, service registration, the RPC meta service, examples: plumbing.
* Overflow of 64-bit ids, sizes and timestamps, and the truncation of connection names.
* Searches for line ends, and the methods for 8, 16 and 64-bit integers: the 32-bit ones again, over digits that are inverse at every width.
* How often a condition variable's or a poll's time-out ends: a time-out is a step that may always be taken.
- TimerQueueObject.TimerQueue.constructor: `Timer` objects are values in a map from address to timer, so that addresses can be used again; pointers are not dereferenced. The repeat interval is a number in the clock's unit, because `starry/net/include/timer.h:15` and `starry/net/src/timer.cpp:13` disagree on it.
- TcpServerObject.TcpServer.RunTask: connections are values in a map with the part of their state that the life cycle needs, not the objects of `TcpConnectionObject`; shared ownership is the channel's state and not a count, and the loops are interleaved task by task.
- AsyncLoggerObject.AsyncLogging.AppendLine: buffers are byte sequences moved between fields, so that swapping is assignment; the fixed-size array itself is `LogStreams.LogStream`.
- EventLoopObject.EventLoop.QueueInLoop: a functor is a number; what it does is whatever other steps follow.
- RpcTraces.RepliesMatch: requests and replies are values in FIFO order, not frames of `Codec`; the encoder's limit of 255 bytes, which would end the program at a longer RPC message, is stated at `FillEmptyBuffer` only.
- LoopHandoff.NoStrandedFunctor: safety only; that a woken thread is scheduled at last is not stated. `loop` is entered once.
- ConnectionTraces.OutputIsExact: the buffer's compaction assertion, which can end the program while output is appended, is recorded in the buffer object (`KeepRemaining` says when) and not in this machine; the machine's runs go on, so what holds of all of them holds of the ones cut short.
- WorkerPool.JoinCannotHang: a worker can always step after a stop; that it is scheduled, and that its task returns, is not stated.
