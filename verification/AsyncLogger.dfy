/** The asynchronous logger object. Its buffers are owned one by one, so they are
    held as values; each method is one atomic section and one step of `LogPipeline`. */
module AsyncLoggerObject {
  import opened Bytes
  import opened Runs
  import opened LogStreams
  import opened LogPipeline

  class AsyncLogging {
    var currentBuffer: Text
    var nextBuffer: Option<Text>
    var buffers: seq<Text>
    var newBuffer1: Option<Text>      // these three belong to the back end's thread
    var newBuffer2: Option<Text>
    var buffersToWrite: seq<Text>
    var running: bool
    var output: Text                  // the log file
    var failed: bool
    ghost var at: BackendAt
    ghost var lines: seq<Text>
    ghost var closed: seq<seq<Text>>
    ghost var open: seq<Text>
    ghost var batches: seq<seq<Text>>

    ghost function Model(): (r: Log)
      reads this
    {
      Log(currentBuffer, nextBuffer, buffers, newBuffer1, newBuffer2, buffersToWrite, output, at, running, failed,
          lines, closed, open, batches)
    }

    ghost predicate Valid()
      reads this
    {
      Inv(Model())
    }

    constructor ()
      ensures Model() == Constructed && Valid()
    {
      currentBuffer, nextBuffer, buffers := [], Some([]), [];
      newBuffer1, newBuffer2, buffersToWrite := Some([]), Some([]), [];
      running, output, failed, at := false, [], false, NotStarted;
      lines, closed, open, batches := [], [], [], [];
    }

    method StartThread()
      requires Valid() && at == NotStarted
      modifies `running, `at
      ensures Valid() && Some(Model()) == Next(old(Model()), Start)
      ensures running && at == Top
    {
      StepKeeps(Model(), Start);
      running, at := true, Top;
    }

    method AppendLine(line: Text)
      requires Valid()
      modifies `currentBuffer, `nextBuffer, `buffers, `lines, `closed, `open
      ensures Valid() && Some(Model()) == Next(old(Model()), Append(line))
      ensures if 4194304 - |old(currentBuffer)| > |line|
              then currentBuffer == old(currentBuffer) + line && buffers == old(buffers) && nextBuffer == old(nextBuffer)
              else buffers == old(buffers) + [old(currentBuffer)] && nextBuffer == None
                   && currentBuffer == if |line| <= 4194304 then line else line[..4194304]
    {
      AppendKeeps(Model(), line);
      AppendLocked(line);
    }

    method AppendLocked(line: Text)
      requires SizesOk(Model()) && (nextBuffer.Some? ==> nextBuffer.value == [])
      modifies `currentBuffer, `nextBuffer, `buffers, `lines, `closed, `open
      ensures Model() == LogPipeline.AppendLine(old(Model()), line)
      ensures if 4194304 - |old(currentBuffer)| > |line|
              then currentBuffer == old(currentBuffer) + line && buffers == old(buffers) && nextBuffer == old(nextBuffer)
              else buffers == old(buffers) + [old(currentBuffer)] && nextBuffer == None
                   && currentBuffer == if |line| <= 4194304 then line else line[..4194304]
    {
      lines := lines + [AsKept(line)];
      if LARGE_BUFFER - |currentBuffer| > |line| {
        open := open + [AsKept(line)];
        currentBuffer := Fill(currentBuffer, line, LARGE_BUFFER);
      } else {
        buffers := buffers + [currentBuffer];
        currentBuffer := if nextBuffer.Some? then nextBuffer.value else [];
        nextBuffer := None;
        closed, open := closed + [open], [AsKept(line)];
        currentBuffer := Fill(currentBuffer, line, LARGE_BUFFER);
      }
    }

    method StopRunning()
      requires Valid() && at != NotStarted
      modifies `running
      ensures Valid() && Some(Model()) == Next(old(Model()), Stop) && !running
    {
      StepKeeps(Model(), Stop);
      ClearRunning();
    }

    method ClearRunning()
      modifies `running
      ensures Model() == old(Model()).(running := false) && !running
    {
      running := false;
    }

    /** The back end's loop condition. */
    method KeepsRunning() returns (again: bool)
      requires Valid() && at == Top
      modifies `at
      ensures Valid() && Some(Model()) == Next(old(Model()), TestRunning)
      ensures again == running && at == if again then InLoop else Exited
    {
      StepKeeps(Model(), TestRunning);
      again := running;
      at := if running then InLoop else Exited;
    }

    /** The back end's locked section. */
    method CollectBuffers()
      requires Valid() && at == InLoop
      modifies `buffers, `currentBuffer, `nextBuffer, `newBuffer1, `newBuffer2, `buffersToWrite, `at
      modifies `closed, `open, `batches
      ensures Valid() && Some(Model()) == Next(old(Model()), Collect)
      ensures buffersToWrite == old(buffers) + [old(currentBuffer)] && buffers == []
      ensures currentBuffer == [] && newBuffer1 == None && at == Writing
      ensures if old(nextBuffer) == None
              then nextBuffer == old(newBuffer2) && newBuffer2 == None
              else nextBuffer == old(nextBuffer) && newBuffer2 == old(newBuffer2)
    {
      CollectKeeps(Model());
      CollectLocked();
    }

    method CollectLocked()
      requires newBuffer1.Some? && buffersToWrite == []
      modifies `buffers, `currentBuffer, `nextBuffer, `newBuffer1, `newBuffer2, `buffersToWrite, `at
      modifies `closed, `open, `batches
      ensures Model() == CollectNow(old(Model()))
      ensures buffersToWrite == old(buffers) + [old(currentBuffer)] && buffers == []
      ensures currentBuffer == old(newBuffer1).value && newBuffer1 == None && at == Writing
      ensures if old(nextBuffer) == None
              then nextBuffer == old(newBuffer2) && newBuffer2 == None
              else nextBuffer == old(nextBuffer) && newBuffer2 == old(newBuffer2)
    {
      SwapBatch();
      if nextBuffer == None {
        nextBuffer, newBuffer2 := newBuffer2, None;
      }
      at := Writing;
    }

    /** The current buffer joins the full ones, and they are exchanged for the back
        end's empty vector. */
    method SwapBatch()
      requires newBuffer1.Some? && buffersToWrite == []
      modifies `buffers, `currentBuffer, `newBuffer1, `buffersToWrite, `closed, `open, `batches
      ensures buffersToWrite == old(buffers) + [old(currentBuffer)] && buffers == []
      ensures currentBuffer == old(newBuffer1).value && newBuffer1 == None
      ensures closed == old(closed) + [old(open)] && open == [] && batches == old(batches) + [buffersToWrite]
    {
      closed, open := closed + [open], [];
      buffers := buffers + [currentBuffer];
      batches := batches + [buffers];
      currentBuffer, newBuffer1 := newBuffer1.value, None;
      buffersToWrite, buffers := buffers, buffersToWrite;
    }

    /** The rest of the back end's turn, on its own buffers. */
    method WriteBuffers()
      requires Valid() && at == Writing
      modifies `buffersToWrite, `output, `newBuffer1, `newBuffer2, `at
      ensures Valid() && Some(Model()) == Next(old(Model()), WriteOut)
      ensures var batch := old(buffersToWrite);
              output == old(output) + Flatten(if |batch| > 25 then batch[..2] else batch)
      ensures buffersToWrite == [] && newBuffer1 == Some([]) && newBuffer2 == Some([]) && at == Top
    {
      ghost var s := Model();
      WriteKeeps(s);
      SparesFound(s);
      WriteUnlocked();
    }

    method WriteUnlocked()
      requires newBuffer1 == None && buffersToWrite != []
      requires newBuffer2 == Some([]) || (newBuffer2 == None && |buffersToWrite| >= 2)
      modifies `buffersToWrite, `output, `newBuffer1, `newBuffer2, `at
      ensures Model() == old(Model()).(file := old(output) + Flatten(Kept(old(buffersToWrite))), batch := [], at := Top,
                                       new1 := Some([]), new2 := Some([]))
      ensures var batch := old(buffersToWrite);
              output == old(output) + Flatten(if |batch| > 25 then batch[..2] else batch)
      ensures buffersToWrite == [] && newBuffer1 == Some([]) && newBuffer2 == Some([]) && at == Top
    {
      DropAndWrite();
      Recycle();
      at := Top;
    }

    method DropAndWrite()
      modifies `buffersToWrite, `output
      ensures buffersToWrite == if |old(buffersToWrite)| > 25 then old(buffersToWrite)[..2] else old(buffersToWrite)
      ensures output == old(output) + Flatten(buffersToWrite)
    {
      if |buffersToWrite| > MAX_BATCH {
        buffersToWrite := buffersToWrite[..2];
      }
      WriteAll();
    }

    /** Two of the written buffers become the spares that are missing. */
    method Recycle()
      requires newBuffer1 == None && buffersToWrite != []
      requires newBuffer2 == None ==> |buffersToWrite| >= 2
      modifies `buffersToWrite, `newBuffer1, `newBuffer2
      ensures buffersToWrite == [] && newBuffer1 == Some([])
      ensures newBuffer2 == if old(newBuffer2) == None then Some([]) else old(newBuffer2)
    {
      if |buffersToWrite| > 2 {
        buffersToWrite := buffersToWrite[..2];
      }
      if newBuffer1 == None {
        assert buffersToWrite != [];
        newBuffer1, buffersToWrite := Some([]), buffersToWrite[..|buffersToWrite| - 1];
      }
      if newBuffer2 == None {
        assert buffersToWrite != [];
        newBuffer2, buffersToWrite := Some([]), buffersToWrite[..|buffersToWrite| - 1];
      }
      buffersToWrite := [];
    }

    method WriteAll()
      modifies `output
      ensures output == old(output) + Flatten(buffersToWrite)
    {
      var i := 0;
      assert buffersToWrite[..0] == [];
      while i < |buffersToWrite|
        invariant 0 <= i <= |buffersToWrite|
        invariant output == old(output) + Flatten(buffersToWrite[..i])
      {
        FlattenSnoc(buffersToWrite[..i], buffersToWrite[i]);
        assert buffersToWrite[..i + 1] == buffersToWrite[..i] + [buffersToWrite[i]];
        output := output + buffersToWrite[i];
        i := i + 1;
      }
      assert buffersToWrite[..i] == buffersToWrite;
    }
  }
}
