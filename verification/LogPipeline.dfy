/** Double-buffered logging as a step machine: front ends append under a lock, one
    back end collects full buffers, writes them, and recycles two of them. */
module LogPipeline {
  import opened Bytes
  import opened Runs
  import opened LogStreams

  type Text = seq<byte>

  const MAX_BATCH := 25

  datatype BackendAt = NotStarted | Top | InLoop | Writing | Exited

  /** `batch` is the back end's vector of buffers in hand; `failed` is set by taking
      from an empty vector or a null buffer. Four histories: `lines` is every line
      as kept when appended; `closed` groups them by the buffers no longer filled,
      `open` are those in the current one; `batches` is every batch collected. */
  datatype Log = Log(
    current: Text,
    next: Option<Text>,
    buffers: seq<Text>,
    new1: Option<Text>,
    new2: Option<Text>,
    batch: seq<Text>,
    file: Text,
    at: BackendAt,
    running: bool,
    failed: bool,
    lines: seq<Text>,
    closed: seq<seq<Text>>,
    open: seq<Text>,
    batches: seq<seq<Text>>)

  const Constructed := Log([], Some([]), [], Some([]), Some([]), [], [], NotStarted, false, false, [], [], [], [])

  datatype Step = Append(line: Text) | Start | Stop | TestRunning | Collect | WriteOut

  predicate SizesOk(s: Log) {
    |s.current| <= LARGE_BUFFER && (s.next.Some? ==> |s.next.value| <= LARGE_BUFFER)
  }

  /** A line as a buffer keeps it: whole, unless longer than the buffer. */
  function AsKept(line: Text): (r: Text) {
    Fill([], line, LARGE_BUFFER)
  }

  /** A full buffer makes room for the spare one, or for a new one. */
  function AppendLine(s: Log, line: Text): (r: Log)
    requires SizesOk(s)
  {
    var r := s.(lines := s.lines + [AsKept(line)]);
    if LARGE_BUFFER - |s.current| > |line| then
      r.(current := Fill(s.current, line, LARGE_BUFFER), open := s.open + [AsKept(line)])
    else
      r.(buffers := s.buffers + [s.current], next := None,
         current := Fill(if s.next.Some? then s.next.value else [], line, LARGE_BUFFER),
         closed := s.closed + [s.open], open := [AsKept(line)])
  }

  /** Under the lock: everything appended so far becomes the batch. */
  function CollectNow(s: Log): (r: Log) {
    if s.new1 == None then s.(failed := true)
    else
      s.(batch := s.buffers + [s.current], buffers := [], current := s.new1.value, new1 := None,
         next := if s.next == None then s.new2 else s.next, new2 := if s.next == None then None else s.new2,
         at := Writing, closed := s.closed + [s.open], open := [],
         batches := s.batches + [s.buffers + [s.current]])
  }

  /** The buffers of a batch that are written. */
  function Kept(batch: seq<Text>): (r: seq<Text>) {
    if |batch| > MAX_BATCH then batch[..2] else batch
  }

  function Dropped(batch: seq<Text>): (r: seq<Text>) {
    if |batch| > MAX_BATCH then batch[2..] else []
  }

  /** A missing spare is taken from the back of what is left, and cleared. */
  function TakeSpare(spare: Option<Text>, left: seq<Text>): (r: Option<(Option<Text>, seq<Text>)>) {
    if spare != None then Some((spare, left))
    else if left == [] then None
    else Some((Some([]), Front(left)))
  }

  function WriteNow(s: Log): (r: Log) {
    var kept := Kept(s.batch);
    var r := s.(file := s.file + Flatten(kept), batch := [], at := Top);
    match TakeSpare(s.new1, if |kept| > 2 then kept[..2] else kept)
    case None => r.(failed := true)
    case Some((n1, left)) =>
      match TakeSpare(s.new2, left)
      case None => r.(failed := true)
      case Some((n2, _)) => r.(new1 := n1, new2 := n2)
  }

  function Next(s: Log, step: Step): (r: Option<Log>) {
    if s.failed then None
    else
      match step
      case Append(line) => if SizesOk(s) then Some(AppendLine(s, line)) else None
      case Start => if s.at == NotStarted then Some(s.(running := true, at := Top)) else None
      case Stop => if s.at == NotStarted then None else Some(s.(running := false))
      case TestRunning => if s.at == Top then Some(s.(at := if s.running then InLoop else Exited)) else None
      case Collect => if s.at == InLoop then Some(CollectNow(s)) else None
      case WriteOut => if s.at == Writing then Some(WriteNow(s)) else None
  }

  // ----- What every run keeps

  /** The batches that have been dealt with. */
  function Written(s: Log): (r: seq<seq<Text>>) {
    if s.at == Writing && s.batches != [] then Front(s.batches) else s.batches
  }

  /** Of a sequence of batches, the buffers that were written, and the others. */
  function Survivors(batches: seq<seq<Text>>): (r: seq<Text>) {
    if batches == [] then [] else Survivors(Front(batches)) + Kept(Last(batches))
  }

  function Casualties(batches: seq<seq<Text>>): (r: seq<Text>) {
    if batches == [] then [] else Casualties(Front(batches)) + Dropped(Last(batches))
  }

  /** Every buffer ever filled, in the order it was given up. */
  function Filled(s: Log): (r: seq<Text>) {
    Flatten(s.batches) + s.buffers
  }

  /** The contents of buffers that hold these lines. */
  function Contents(groups: seq<seq<Text>>): (r: seq<Text>)
    ensures |r| == |groups|
  {
    if groups == [] then [] else Contents(Front(groups)) + [Flatten(Last(groups))]
  }

  /** The lines are in the buffers in order, each whole in one of them. */
  predicate Grouped(s: Log) {
    && s.lines == Flatten(s.closed) + s.open
    && Filled(s) == Contents(s.closed) && s.current == Flatten(s.open)
  }

  /** The file holds the buffers kept of the batches written, in order. */
  predicate FileExact(s: Log) {
    && s.file == Flatten(Survivors(Written(s)))
    && (s.at == Writing ==> s.batches != [] && s.batch == Last(s.batches))
  }

  /** Spares are empty, and there will be enough buffers to recycle. */
  predicate SparesReady(s: Log) {
    && !s.failed && |s.current| <= LARGE_BUFFER
    && (s.next == None || s.next == Some([])) && (s.next == None ==> s.buffers != [])
    && (s.at != Writing ==> s.new1 == Some([]) && s.new2 == Some([]) && s.batch == [])
    && (s.at == Writing ==>
          && s.new1 == None && s.batch != []
          && (s.new2 == Some([]) || (s.new2 == None && |s.batch| >= 2)))
  }

  predicate Inv(s: Log) {
    Grouped(s) && FileExact(s) && SparesReady(s)
  }

  lemma FlattenOne(line: Text)
    ensures Flatten([line]) == line
  {
    assert [line][1..] == [];
    assert Flatten([line]) == line + Flatten([line][1..]);
  }

  lemma AppendGrouped(s: Log, line: Text)
    requires Grouped(s) && SparesReady(s)
    ensures Grouped(AppendLine(s, line))
  {
    var kept := AsKept(line);
    FlattenOne(kept);
    if LARGE_BUFFER - |s.current| > |line| {
      assert kept == [] + line == line;
      FlattenSnoc(s.open, kept);
      ConcatAssociative(Flatten(s.closed), s.open, [kept]);
    } else {
      Snoc(s.closed, s.open);
      FlattenSnoc(s.closed, s.open);
      ConcatAssociative(Flatten(s.batches), s.buffers, [s.current]);
    }
  }

  lemma AppendKeeps(s: Log, line: Text)
    requires Inv(s)
    ensures Inv(AppendLine(s, line))
  {
    AppendGrouped(s, line);
    AppendSpares(s, line);
    SameFile(s, AppendLine(s, line));
  }

  lemma AppendSpares(s: Log, line: Text)
    requires SparesReady(s)
    ensures SparesReady(AppendLine(s, line))
  {
  }

  lemma SameFile(s: Log, r: Log)
    requires FileExact(s)
    requires r.file == s.file && r.batches == s.batches && r.batch == s.batch && (r.at == Writing <==> s.at == Writing)
    ensures FileExact(r)
  {
  }

  lemma CollectGrouped(s: Log)
    requires Grouped(s) && s.new1 == Some([])
    ensures Grouped(CollectNow(s))
  {
    var batch := s.buffers + [s.current];
    Snoc(s.closed, s.open);
    FlattenSnoc(s.closed, s.open);
    FlattenSnoc(s.batches, batch);
    ConcatAssociative(Flatten(s.batches), s.buffers, [s.current]);
    assert Flatten(s.batches) + batch + [] == Flatten(s.batches) + batch;
    assert s.lines + [] == s.lines;
  }

  lemma CollectKeeps(s: Log)
    requires Inv(s) && s.at == InLoop
    ensures Inv(CollectNow(s))
  {
    CollectGrouped(s);
    Snoc(s.batches, s.buffers + [s.current]);
  }

  /** With enough buffers in hand, both spares are there again afterwards. */
  lemma SparesFound(s: Log)
    requires SparesReady(s) && s.at == Writing
    ensures WriteNow(s) == s.(file := s.file + Flatten(Kept(s.batch)), batch := [], at := Top,
                              new1 := Some([]), new2 := Some([]))
  {
  }

  lemma WriteKeeps(s: Log)
    requires Inv(s) && s.at == Writing
    ensures Inv(WriteNow(s))
  {
    SparesFound(s);
    FlattenAppend(Survivors(Written(s)), Kept(s.batch));
  }

  lemma StepKeeps(s: Log, step: Step)
    requires Inv(s) && Next(s, step).Some?
    ensures Inv(Next(s, step).value)
  {
    match step
    case Append(line) => AppendKeeps(s, line);
    case Collect => CollectKeeps(s);
    case WriteOut => WriteKeeps(s);
    case _ => SameFile(s, Next(s, step).value);
  }

  lemma RunInv(steps: seq<Step>)
    requires Run(Next, Constructed, steps).Some?
    ensures Inv(Run(Next, Constructed, steps).value)
  {
    forall s, l | Inv(s) && Next(s, l).Some? ensures Inv(Next(s, l).value) {
      StepKeeps(s, l);
    }
    RunKeeps(Next, s => Inv(s), Constructed, steps);
  }

  // ----- Every run

  /** The lines appended in a run, in order; of each as much as fits into an empty buffer. */
  function Appended(steps: seq<Step>): (r: seq<Text>) {
    if steps == [] then []
    else
      Appended(Front(steps)) +
      match Last(steps)
      case Append(line) => [if |line| <= 4194304 then line else line[..4194304]]
      case _ => []
  }

  /** How many batches have been collected. */
  function Collected(steps: seq<Step>): (r: nat) {
    if steps == [] then 0 else Collected(Front(steps)) + (if Last(steps) == Collect then 1 else 0)
  }

  predicate Traced(s: Log, steps: seq<Step>) {
    s.lines == Appended(steps) && (!s.failed ==> |s.batches| == Collected(steps))
  }

  lemma KeptIsCut(line: Text)
    ensures AsKept(line) == if |line| <= 4194304 then line else line[..4194304]
  {
    assert line[..|line|] == line;
  }

  lemma StepLines(s: Log, l: Step)
    requires Next(s, l).Some?
    ensures l.Append? ==>
              Next(s, l).value.lines == s.lines + [if |l.line| <= 4194304 then l.line else l.line[..4194304]]
    ensures !l.Append? ==> Next(s, l).value.lines == s.lines
  {
    if l.Append? { KeptIsCut(l.line); }
  }

  lemma StepBatches(s: Log, l: Step)
    requires Next(s, l).Some? && !Next(s, l).value.failed
    ensures |Next(s, l).value.batches| == |s.batches| + (if l == Collect then 1 else 0)
  {
  }

  lemma StepTraced(s: Log, steps: seq<Step>, l: Step)
    requires Inv(s) && Traced(s, steps) && Next(s, l).Some?
    ensures Traced(Next(s, l).value, steps + [l])
  {
    Snoc(steps, l);
    StepLines(s, l);
    StepKeeps(s, l);
    StepBatches(s, l);
    assert s.lines + [] == s.lines;
  }

  lemma RunTraced(steps: seq<Step>)
    requires Run(Next, Constructed, steps).Some?
    ensures Traced(Run(Next, Constructed, steps).value, steps)
  {
    forall s, ls, l | Inv(s) && Traced(s, ls) && Run(Next, Constructed, ls) == Some(s) && Next(s, l).Some?
      ensures Inv(Next(s, l).value) && Traced(Next(s, l).value, ls + [l])
    {
      StepKeeps(s, l);
      StepTraced(s, ls, l);
    }
    RunKeepsTrace(Next, (s, ls) => Inv(s) && Traced(s, ls), Constructed, steps);
  }

  /** In every interleaving the recycling never finds an empty vector and every spare
      buffer is empty; the lines, in order and each whole, are the contents of the
      buffers filled, in order, and of the current one; and the file is exactly the
      buffers kept of the batches written so far. */
  lemma FileIsTheKeptBuffers(steps: seq<Step>)
    requires Run(Next, Constructed, steps).Some?
    ensures var s := Run(Next, Constructed, steps).value;
            && !s.failed
            && (s.next == None || s.next == Some([]))
            && (s.at != Writing ==> s.new1 == Some([]) && s.new2 == Some([]))
            && Flatten(s.closed) + s.open == Appended(steps) && |s.batches| == Collected(steps)
            && Flatten(s.batches) + s.buffers == Contents(s.closed) && s.current == Flatten(s.open)
            && s.file == Flatten(Survivors(Written(s)))
  {
    RunInv(steps);
    RunTraced(steps);
  }

  /** From the file to the buffer being filled. */
  function Everything(s: Log): (r: Text) {
    s.file + Flatten(s.batch) + Flatten(s.buffers) + s.current
  }

  /** Every over-long batch held, from its third buffer on, only empty ones. */
  predicate NothingDropped(batches: seq<seq<Text>>) {
    forall b :: b in batches && |b| > 25 ==> Flatten(b[2..]) == []
  }

  lemma {:induction false} FlattenContents(groups: seq<seq<Text>>)
    ensures Flatten(Contents(groups)) == Flatten(Flatten(groups))
  {
    if groups != [] {
      var front, last := Front(groups), Last(groups);
      FlattenContents(front);
      assert groups == front + [last];
      FlattenSnoc(front, last);
      FlattenSnoc(Contents(front), Flatten(last));
      FlattenAppend(Flatten(front), last);
    }
  }

  lemma BatchSplits(batch: seq<Text>)
    ensures Flatten(batch) == Flatten(Kept(batch)) + Flatten(Dropped(batch))
  {
    assert batch == Kept(batch) + Dropped(batch);
    FlattenAppend(Kept(batch), Dropped(batch));
  }

  lemma OneMoreBatch(front: seq<seq<Text>>, last: seq<Text>)
    ensures Flatten(Flatten(front + [last])) == Flatten(Flatten(front)) + Flatten(last)
    ensures Flatten(Survivors(front + [last])) == Flatten(Survivors(front)) + Flatten(Kept(last))
    ensures Flatten(Casualties(front + [last])) == Flatten(Casualties(front)) + Flatten(Dropped(last))
  {
    Snoc(front, last);
    FlattenSnoc(front, last);
    FlattenAppend(Flatten(front), last);
    FlattenAppend(Survivors(front), Kept(last));
    FlattenAppend(Casualties(front), Dropped(last));
  }

  /** What the batches held is what survived and what did not. */
  predicate Splits(batches: seq<seq<Text>>) {
    && |Flatten(Flatten(batches))| == |Flatten(Survivors(batches))| + |Flatten(Casualties(batches))|
    && (Flatten(Casualties(batches)) == [] ==> Flatten(Survivors(batches)) == Flatten(Flatten(batches)))
  }

  lemma SplitsOneMore(front: seq<seq<Text>>, last: seq<Text>)
    requires Splits(front)
    ensures Splits(front + [last])
  {
    BatchSplits(last);
    OneMoreBatch(front, last);
    AddUp(Flatten(Flatten(front)), Flatten(Survivors(front)), Flatten(Casualties(front)),
          Flatten(last), Flatten(Kept(last)), Flatten(Dropped(last)));
  }

  lemma {:induction false} BatchesSplit(batches: seq<seq<Text>>)
    ensures Splits(batches)
  {
    if batches != [] {
      var front, last := Front(batches), Last(batches);
      BatchesSplit(front);
      SplitsOneMore(front, last);
      assert batches == front + [last];
    }
  }

  lemma AddUp(all: Text, kept: Text, lost: Text, more: Text, moreKept: Text, moreLost: Text)
    requires |all| == |kept| + |lost| && (lost == [] ==> kept == all) && more == moreKept + moreLost
    ensures |all + more| == |kept + moreKept| + |lost + moreLost|
    ensures lost + moreLost == [] ==> kept + moreKept == all + more
  {
  }

  lemma {:induction false} NoCasualties(batches: seq<seq<Text>>)
    ensures Flatten(Casualties(batches)) == [] <==> NothingDropped(batches)
  {
    if batches != [] {
      var front, last := Front(batches), Last(batches);
      NoCasualties(front);
      assert batches == front + [last];
      OneMoreBatch(front, last);
      assert NothingDropped(batches) <==> NothingDropped(front) && Flatten(Dropped(last)) == [] by {
        assert last in batches && forall b :: b in batches <==> b in front || b == last;
      }
    }
  }

  lemma WrittenAndInHand(s: Log)
    requires FileExact(s) && SparesReady(s)
    ensures Flatten(Flatten(s.batches)) == Flatten(Flatten(Written(s))) + Flatten(s.batch)
  {
    var w := Written(s);
    if s.at == Writing {
      assert s.batches == w + [s.batch];
      FlattenSnoc(w, s.batch);
      FlattenAppend(Flatten(w), s.batch);
    } else {
      assert Flatten(Flatten(w)) + [] == Flatten(Flatten(w));
    }
  }

  lemma LinesInBuffers(s: Log)
    requires Grouped(s)
    ensures Flatten(s.lines) == Flatten(Flatten(s.batches)) + Flatten(s.buffers) + s.current
  {
    FlattenAppend(Flatten(s.closed), s.open);
    FlattenContents(s.closed);
    FlattenAppend(Flatten(s.batches), s.buffers);
  }

  /** All that was appended is what the batches, the full buffers and the current one held. */
  lemma LinesAreBuffers(s: Log)
    requires Inv(s)
    ensures Flatten(s.lines) == Flatten(Flatten(Written(s))) + Flatten(s.batch) + Flatten(s.buffers) + s.current
  {
    WrittenAndInHand(s);
    LinesInBuffers(s);
  }

  lemma Cancel(a: Text, b: Text, tail: Text)
    ensures |a + tail| - |b + tail| == |a| - |b|
    ensures a == b ==> a + tail == b + tail
  {
  }

  /** File, batch in hand, full buffers and current buffer together are all that was
      appended, in order, exactly when every batch cut so far lost empty buffers
      only; so always while no batch has more than 25 buffers. */
  lemma NothingElseIsLost(steps: seq<Step>)
    requires Run(Next, Constructed, steps).Some?
    ensures var s := Run(Next, Constructed, steps).value;
            && (Everything(s) == Flatten(Appended(steps)) <==> NothingDropped(Written(s)))
            && |Everything(s)| + |Flatten(Casualties(Written(s)))| == |Flatten(Appended(steps))|
            && ((forall b :: b in s.batches ==> |b| <= 25) ==> Everything(s) == Flatten(Appended(steps)))
  {
    RunInv(steps);
    RunTraced(steps);
    var s := Run(Next, Constructed, steps).value;
    var tail := Flatten(s.batch) + Flatten(s.buffers) + s.current;
    LinesAreBuffers(s);
    BatchesSplit(Written(s));
    NoCasualties(Written(s));
    Regroup(s.file, Flatten(s.batch), Flatten(s.buffers), s.current);
    Regroup(Flatten(Flatten(Written(s))), Flatten(s.batch), Flatten(s.buffers), s.current);
    Cancel(s.file, Flatten(Flatten(Written(s))), tail);
  }

  lemma Regroup(a: Text, b: Text, c: Text, d: Text)
    ensures a + b + c + d == a + (b + c + d)
  {
  }

  /** When the back end has left its loop, the file is all that was appended exactly
      when nothing was dropped and nothing was still buffered. */
  lemma StopExact(steps: seq<Step>)
    requires Run(Next, Constructed, steps).Some? && Run(Next, Constructed, steps).value.at == Exited
    ensures var s := Run(Next, Constructed, steps).value;
            s.file == Flatten(Appended(steps)) <==> NothingDropped(s.batches) && Flatten(s.buffers) + s.current == []
  {
    RunInv(steps);
    RunTraced(steps);
    NothingElseIsLost(steps);
    var s := Run(Next, Constructed, steps).value;
    NoCasualties(s.batches);
    assert Flatten(s.batch) == [];
    FileAndTail(s.file, Flatten(s.buffers), s.current);
  }

  lemma FileAndTail(file: Text, buffers: Text, current: Text)
    ensures |file + [] + buffers + current| == |file| + |buffers + current|
    ensures buffers + current == [] ==> file + [] + buffers + current == file
  {
  }

  /** One line appended before a stop can be lost. */
  lemma StopLosesTheTail(b: byte)
    ensures var s := Run(Next, Constructed, [Start, Append([b]), Stop, TestRunning]);
            s.Some? && s.value.at == Exited && s.value.file == [] && s.value.lines == [[b]]
  {
    var l := [Start, Append([b]), Stop, TestRunning];
    var s0 := Next(Constructed, l[0]).value;
    var s1 := Next(s0, l[1]).value;
    var s2 := Next(s1, l[2]).value;
    assert Fill([], [b], LARGE_BUFFER) == [] + [b] == [b];
    assert l[1..][1..] == l[2..] && l[2..][1..] == l[3..] == [TestRunning];
    RunSingle(Next, s2, TestRunning);
    assert Run(Next, s1, l[2..]) == Run(Next, s2, l[2..][1..]);
    assert Run(Next, s0, l[1..]) == Run(Next, s1, l[1..][1..]);
  }

  /** The state after `k` lines, each as long as a buffer, have come while the back end
      was about to test its loop condition. */
  predicate FullAfter(s: Log, k: nat, line: Text) {
    && s.at == Top && s.running && !s.failed && s.file == [] && s.new1 == Some([])
    && s.lines == seq(k, _ => line)
    && s.buffers == (if k == 0 then [] else [[]] + seq(k - 1, _ => line))
    && s.current == (if k == 0 then [] else line)
    && s.next == (if k == 0 then Some([]) else None)
  }

  lemma OneMoreFull(s: Log, k: nat, line: Text)
    requires FullAfter(s, k, line) && |line| == LARGE_BUFFER
    ensures Next(s, Append(line)).Some? && FullAfter(Next(s, Append(line)).value, k + 1, line)
  {
    assert Fill([], line, LARGE_BUFFER) == [] + line == line;
    assert seq(k + 1, _ => line) == seq(k, _ => line) + [line];
    if k > 0 {
      assert [[]] + seq(k - 1, _ => line) + [line] == [[]] + seq(k, _ => line);
    }
  }

  lemma {:induction false} FullLines(k: nat, line: Text)
    requires |line| == LARGE_BUFFER
    ensures var r := Run(Next, Next(Constructed, Start).value, seq(k, _ => Append(line)));
            r.Some? && FullAfter(r.value, k, line)
  {
    if k > 0 {
      var s0, front := Next(Constructed, Start).value, seq(k - 1, _ => Append(line));
      FullLines(k - 1, line);
      var s := Run(Next, s0, front).value;
      OneMoreFull(s, k - 1, line);
      assert seq(k, _ => Append(line)) == front + [Append(line)];
      RunAppend(Next, s0, front, [Append(line)]);
      RunSingle(Next, s, Append(line));
    }
  }

  /** And when they come faster than the back end turns, more than 25 of them end as
      one: the batch is cut, and only the first line reaches the file. */
  lemma OverlongBatchIsCut(k: nat, line: Text)
    requires k > 25 && |line| == 4194304
    ensures var s := Run(Next, Constructed, [Start] + seq(k, _ => Append(line)) + [TestRunning, Collect, WriteOut]);
            s.Some? && s.value.file == line && s.value.lines == seq(k, _ => line)
                    && s.value.batch == [] && s.value.buffers == [] && s.value.current == []
  {
    var fill, turn := seq(k, _ => Append(line)), [TestRunning, Collect, WriteOut];
    var s0 := Next(Constructed, Start).value;
    FullLines(k, line);
    CutTurn(Run(Next, s0, fill).value, k, line);
    RunAppend(Next, s0, fill, turn);
    assert ([Start] + fill + turn)[1..] == fill + turn;
  }

  /** The turn of the back end that finds them. */
  lemma CutTurn(s: Log, k: nat, line: Text)
    requires k > MAX_BATCH && !s.failed && s.at == Top && s.running && s.file == [] && s.new1 == Some([])
    requires s.buffers == [[]] + seq(k - 1, _ => line) && s.current == line && s.next == None
    ensures var r := Run(Next, s, [TestRunning, Collect, WriteOut]);
            r.Some? && r.value.file == line && r.value.lines == s.lines
                    && r.value.batch == [] && r.value.buffers == [] && r.value.current == []
  {
    var turn := [TestRunning, Collect, WriteOut];
    var s2 := Next(s, TestRunning).value;
    var s3 := Next(s2, Collect).value;
    assert turn[1..][1..] == [WriteOut];
    RunSingle(Next, s3, WriteOut);
    assert Run(Next, s2, turn[1..]) == Run(Next, s3, turn[1..][1..]);
    assert Run(Next, s, turn) == Run(Next, s2, turn[1..]);
    assert s3.batch == [[]] + seq(k - 1, _ => line) + [line];
    assert Kept(s3.batch) == [[], line];
    assert [[], line][1..] == [line];
    FlattenOne(line);
  }
}
