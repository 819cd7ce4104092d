/** The asynchronous logger's buffers as objects (muduox/base/logging/AsyncLogging.cpp). Each method
    is one atomic part: a critical section, or a part only the writer thread runs. Every method
    keeps Valid, so any interleaving of them does. Which pointer leads to which buffer moves as
    LogPipeline says. */
module AsyncLoggingModel {
  import opened Prelude
  import opened FixedBufferModel
  import opened LogPipeline
  import opened LogFileModel
  import Rolling = LogRolling

  function Opt(b: FixedBuffer?): Option<FixedBuffer> { if b == null then None else Some(b) }

  // Different bytes, hence different buffers.

  predicate Apart(p: FixedBuffer?, q: FixedBuffer?) {
    p == null || q == null || p.data != q.data
  }

  predicate Outside(p: FixedBuffer?, xs: seq<FixedBuffer>) {
    p == null || forall x <- xs :: x.data != p.data
  }

  predicate AllApart(xs: seq<FixedBuffer>) {
    forall i, j | 0 <= i < j < |xs| :: xs[i].data != xs[j].data
  }

  predicate Disjoint(xs: seq<FixedBuffer>, ys: seq<FixedBuffer>) {
    forall x <- xs, y <- ys :: x.data != y.data
  }

  /** No two pointers own the same buffer. */
  predicate Separate(current: FixedBuffer?, next: FixedBuffer?, full: seq<FixedBuffer>,
                     new1: FixedBuffer?, new2: FixedBuffer?, toWrite: seq<FixedBuffer>)
  {
    && Apart(current, next) && Apart(current, new1) && Apart(current, new2)
    && Apart(next, new1) && Apart(next, new2) && Apart(new1, new2)
    && Outside(current, full) && Outside(next, full) && Outside(new1, full) && Outside(new2, full)
    && Outside(current, toWrite) && Outside(next, toWrite) && Outside(new1, toWrite) && Outside(new2, toWrite)
    && AllApart(full) && AllApart(toWrite) && Disjoint(full, toWrite)
  }

  /** The buffer shares its bytes with none of these. */
  predicate New(b: FixedBuffer, current: FixedBuffer?, next: FixedBuffer?, full: seq<FixedBuffer>,
                new1: FixedBuffer?, new2: FixedBuffer?, toWrite: seq<FixedBuffer>)
  {
    && Apart(b, current) && Apart(b, next) && Apart(b, new1) && Apart(b, new2)
    && Outside(b, full) && Outside(b, toWrite)
  }

  /** append() moves the spare, or a new buffer, to the current one's place. */
  lemma RotatedIsSeparate(current: FixedBuffer, next: FixedBuffer?, full: seq<FixedBuffer>,
                          new1: FixedBuffer?, new2: FixedBuffer?, toWrite: seq<FixedBuffer>, made: FixedBuffer)
    requires Separate(current, next, full, new1, new2, toWrite)
    requires if next == null then New(made, current, next, full, new1, new2, toWrite) else made == next
    ensures Separate(made, null, full + [current], new1, new2, toWrite)
  {
  }

  ghost predicate Sound(b: FixedBuffer?)
    reads b
  {
    b != null ==> b.Valid() && b.data.Length == LARGE_BUFFER
  }

  ghost predicate AllSound(xs: seq<FixedBuffer>)
    reads xs
  {
    forall b <- xs :: Sound(b)
  }

  class AsyncLogging {
    // Guarded by the mutex.
    var currentBuffer: FixedBuffer?
    var nextBuffer: FixedBuffer?
    var buffers: seq<FixedBuffer>
    // Locals of the writer thread.
    var newBuffer1: FixedBuffer?
    var newBuffer2: FixedBuffer?
    var buffersToWrite: seq<FixedBuffer>
    const output: LogFile

    function SharedView(): Shared<FixedBuffer>
      reads this
    {
      Shared(Opt(currentBuffer), Opt(nextBuffer), buffers)
    }

    function WriterView(): Writer<FixedBuffer>
      reads this
    {
      Writer(Opt(newBuffer1), Opt(newBuffer2), buffersToWrite)
    }

    ghost predicate NoSharing()
      reads this
    {
      Separate(currentBuffer, nextBuffer, buffers, newBuffer1, newBuffer2, buffersToWrite)
    }

    ghost predicate Valid()
      reads this, currentBuffer, nextBuffer, buffers, newBuffer1, newBuffer2, buffersToWrite
    {
      && currentBuffer != null && NoSharing()
      && Sound(currentBuffer) && Sound(nextBuffer) && AllSound(buffers)
      && Sound(newBuffer1) && Sound(newBuffer2) && AllSound(buffersToWrite)
    }

    /** The constructor of the logger and the start of threadFunc. */
    constructor (output: LogFile)
      ensures Valid() && this.output == output
      ensures buffers == [] && buffersToWrite == []
      ensures nextBuffer != null && newBuffer1 != null && newBuffer2 != null
      ensures currentBuffer.View() == nextBuffer.View() == newBuffer1.View() == newBuffer2.View() == EMPTY
    {
      currentBuffer := new FixedBuffer(LARGE_BUFFER);
      nextBuffer := new FixedBuffer(LARGE_BUFFER);
      newBuffer1 := new FixedBuffer(LARGE_BUFFER);
      newBuffer2 := new FixedBuffer(LARGE_BUFFER);
      buffers, buffersToWrite := [], [];
      this.output := output;
      new;
      newBuffer1.Bzero();
      newBuffer2.Bzero();
    }

    /** append(): the line goes to the current buffer, or to the spare or a new one that takes its
        place. No other buffer's contents change. */
    method Append(line: Line)
      requires Valid()
      modifies this, currentBuffer, currentBuffer.data, nextBuffer, if nextBuffer == null then {} else {nextBuffer.data}
      ensures Valid() && WriterView() == old(WriterView())
      ensures old(Fits(currentBuffer.View(), line)) ==>
        SharedView() == old(SharedView()) &&
        currentBuffer.View() == Appended(LARGE_BUFFER, old(currentBuffer.View()), line)
      ensures !old(Fits(currentBuffer.View(), line)) ==>
        SharedView() == Rotate(old(SharedView()), currentBuffer) &&
        old(currentBuffer).Valid() && old(currentBuffer).View() == old(currentBuffer.View()) &&
        (old(nextBuffer) == null ==> fresh(currentBuffer)) &&
        currentBuffer.View() ==
          Appended(LARGE_BUFFER, if old(nextBuffer) == null then EMPTY else old(nextBuffer.View()), line)
      // The current buffer is replaced exactly if the line would fill it or more.
      ensures currentBuffer == old(currentBuffer) <==> LARGE_BUFFER - |old(currentBuffer.View().bytes)| > |line|
      ensures currentBuffer != old(currentBuffer) ==>
        buffers == old(buffers) + [old(currentBuffer)] && nextBuffer == null &&
        (old(nextBuffer) != null ==> currentBuffer == old(nextBuffer))
    {
      if currentBuffer.Avail() > |line| {
        AppendToCurrent(line);
      } else {
        RotateBuffers();
        AppendToCurrent(line);
      }
    }

    method AppendToCurrent(line: Line)
      requires Valid()
      modifies currentBuffer, currentBuffer.data
      ensures Valid() && currentBuffer.View() == Appended(LARGE_BUFFER, old(currentBuffer.View()), line)
    {
      currentBuffer.Append(line);
    }

    /** The current buffer is full: the spare or a new one takes its place. */
    method RotateBuffers()
      requires Valid()
      modifies this
      ensures Valid() && WriterView() == old(WriterView())
      ensures SharedView() == Rotate(old(SharedView()), currentBuffer)
      ensures if old(nextBuffer) != null then currentBuffer == old(nextBuffer)
              else fresh(currentBuffer) && fresh(currentBuffer.data) && currentBuffer.View() == EMPTY
    {
      var full, next := currentBuffer, nextBuffer;
      var made := nextBuffer;
      if made == null {
        made := new FixedBuffer(LARGE_BUFFER);
      }
      RotatedIsSeparate(full, next, buffers, newBuffer1, newBuffer2, buffersToWrite, made);
      hide Separate, Apart, Outside;
      buffers := buffers + [full];
      currentBuffer, nextBuffer := made, null;
    }

    /** The first critical section of the writer's loop. */
    method Collect()
      requires Valid() && newBuffer1 != null
      modifies this
      ensures Valid()
      ensures (SharedView(), WriterView()) == LogPipeline.Collect(old(SharedView()), old(WriterView()))
      // The writer gets the full buffers and the current one; the spare is refilled if it is missing.
      ensures buffersToWrite == old(buffers) + [old(currentBuffer)] && buffers == old(buffersToWrite)
      ensures currentBuffer == old(newBuffer1) && newBuffer1 == null
      ensures if old(nextBuffer) == null then nextBuffer == old(newBuffer2) && newBuffer2 == null
              else nextBuffer == old(nextBuffer) && newBuffer2 == old(newBuffer2)
    {
      buffers := buffers + [currentBuffer];
      currentBuffer, newBuffer1 := newBuffer1, null;
      buffersToWrite, buffers := buffers, buffersToWrite;
      if nextBuffer == null {
        nextBuffer, newBuffer2 := newBuffer2, null;
      }
    }

    /** The critical section after the writer's loop. */
    method FinalCollect()
      requires Valid() && newBuffer1 != null
      modifies this
      ensures Valid()
      ensures (SharedView(), WriterView()) ==
        LogPipeline.FinalCollect(old(SharedView()), old(WriterView()), |old(currentBuffer.View().bytes)| > 0)
      ensures buffers == old(buffersToWrite) && nextBuffer == old(nextBuffer) && newBuffer2 == old(newBuffer2)
      ensures if old(currentBuffer.View().bytes) == [] then
                buffersToWrite == old(buffers) && currentBuffer == old(currentBuffer) && newBuffer1 == old(newBuffer1)
              else
                buffersToWrite == old(buffers) + [old(currentBuffer)] && currentBuffer == old(newBuffer1) &&
                newBuffer1 == null
    {
      if currentBuffer.Length() > 0 {
        buffers := buffers + [currentBuffer];
        currentBuffer, newBuffer1 := newBuffer1, null;
      }
      buffersToWrite, buffers := buffers, buffersToWrite;
    }

    /** The writer, outside the lock: every non-empty collected buffer goes to the log file. */
    method WriteBuffers(answers: seq<Rolling.Answers>, ghost bytes: seq<seq<Byte>>)
      requires Valid() && Rolling.Valid(output.View())
      requires |answers| == |bytes| == |buffersToWrite|
      requires forall i | 0 <= i < |bytes| ::
        bytes[i] == buffersToWrite[i].data[..buffersToWrite[i].cur] && answers[i].written <= |bytes[i]|
      modifies output
      ensures WritesAll(old(output.View()), bytes, answers)
      ensures output.View() == AfterWrites(old(output.View()), bytes, answers)
      // The files grow, in order, by what fwrite took of each buffer while the file was open.
      ensures Concat(output.View().files) ==
        Concat(old(output.View()).files) + Taken(old(output.View()), bytes, answers)
      ensures old(output.View()).isOpen && AllTaken(bytes, answers) ==>
        Concat(output.View().files) == Concat(old(output.View()).files) + Concat(bytes)
    {
      hide Taken, AllTaken, Concat;
      WritesExactly(output.View(), bytes, answers);
      if output.View().isOpen && AllTaken(bytes, answers) {
        WritesEverything(output.View(), bytes, answers);
      }
      var i := 0;
      while i < |buffersToWrite|
        invariant 0 <= i <= |buffersToWrite|
        invariant Rolling.Valid(output.View())
        invariant WritesAll(old(output.View()), bytes[..i], answers[..i])
        invariant output.View() == AfterWrites(old(output.View()), bytes[..i], answers[..i])
      {
        var b := buffersToWrite[i];
        assert Sound(b);
        var contents := b.Contents();
        assert bytes[..i + 1][..i] == bytes[..i] && answers[..i + 1][..i] == answers[..i];
        if b.Length() > 0 {
          Rolling.AppendKeeps(output.View(), contents, answers[i]);
          output.Append(contents, answers[i]);
        }
        i := i + 1;
      }
      assert bytes[..i] == bytes && answers[..i] == answers;
    }

    /** The last buffer written, reset, for the pointer it is moved to. */
    method TakeBack() returns (b: FixedBuffer)
      requires Valid() && |buffersToWrite| > 0
      modifies this`buffersToWrite, buffersToWrite[|buffersToWrite| - 1]
      ensures Valid() && Sound(b) && b.View() == EMPTY
      ensures buffersToWrite == old(buffersToWrite[..|buffersToWrite| - 1])
      ensures b == old(buffersToWrite[|buffersToWrite| - 1])
      ensures Apart(b, currentBuffer) && Apart(b, nextBuffer) && Apart(b, newBuffer1) && Apart(b, newBuffer2)
      ensures Outside(b, buffers) && Outside(b, buffersToWrite)
    {
      b := buffersToWrite[|buffersToWrite| - 1];
      assert Sound(b);
      buffersToWrite := buffersToWrite[..|buffersToWrite| - 1];
      b.Reset();
    }

    /** resize(2): the other buffers are freed. */
    method KeepTwo()
      requires Valid()
      modifies this`buffersToWrite
      ensures Valid() && buffersToWrite == old(Kept(WriterView()))
    {
      if |buffersToWrite| > 2 {
        buffersToWrite := buffersToWrite[..2];
      }
    }

    method Refill1()
      requires Valid() && (newBuffer1 == null ==> |buffersToWrite| > 0)
      modifies this`newBuffer1, this`buffersToWrite, buffersToWrite
      ensures Valid() && newBuffer1 != null && (old(newBuffer1) == null ==> newBuffer1.View() == EMPTY)
      ensures var w, n := old(buffersToWrite), |old(buffersToWrite)|;
        if old(newBuffer1) == null then newBuffer1 == w[n - 1] && buffersToWrite == w[..n - 1]
        else newBuffer1 == old(newBuffer1) && buffersToWrite == w
      ensures newBuffer2 != null ==> newBuffer2.Valid() && newBuffer2.View() == old(newBuffer2.View())
    {
      if newBuffer1 == null {
        assert |buffersToWrite| > 0;
        newBuffer1 := TakeBack();
      }
    }

    method Refill2()
      requires Valid() && (newBuffer2 == null ==> |buffersToWrite| > 0) && newBuffer1 != null
      modifies this`newBuffer2, this`buffersToWrite, buffersToWrite
      ensures Valid() && newBuffer2 != null && (old(newBuffer2) == null ==> newBuffer2.View() == EMPTY)
      ensures var w, n := old(buffersToWrite), |old(buffersToWrite)|;
        if old(newBuffer2) == null then newBuffer2 == w[n - 1] && buffersToWrite == w[..n - 1]
        else newBuffer2 == old(newBuffer2) && buffersToWrite == w
      ensures newBuffer1.View() == old(newBuffer1.View())
    {
      if newBuffer2 == null {
        assert |buffersToWrite| > 0;
        newBuffer2 := TakeBack();
      }
    }

    /** clear(): what is left is freed. */
    method DropRest()
      requires Valid()
      modifies this`buffersToWrite
      ensures Valid() && buffersToWrite == []
    {
      buffersToWrite := [];
    }

    /** Recycling, on the writer thread. Its two assert statements are in Refill1 and Refill2. */
    method Recycle()
      requires Valid() && RecycleAsserts(WriterView())
      modifies this, buffersToWrite
      ensures Valid() && SharedView() == old(SharedView()) && WriterView() == Reused(old(WriterView()))
      ensures newBuffer1 != null && (old(newBuffer1) == null ==> newBuffer1.View() == EMPTY)
      ensures newBuffer2 != null && (old(newBuffer2) == null ==> newBuffer2.View() == EMPTY)
      ensures newBuffer1 == old(newBuffer1) || (old(newBuffer1) == null && newBuffer1 in old(buffersToWrite))
      ensures newBuffer2 == old(newBuffer2) || (old(newBuffer2) == null && newBuffer2 in old(buffersToWrite))
      ensures buffersToWrite == []
    {
      hide NoSharing, AllSound;
      KeepTwo();
      Refill1();
      Refill2();
      DropRest();
    }
  }

  /** Each write finds the log in order. */
  predicate WritesAll(log: Rolling.Log, bytes: seq<seq<Byte>>, answers: seq<Rolling.Answers>)
    requires |answers| == |bytes|
    decreases |bytes|, 0
  {
    if bytes == [] then true
    else
      var n := |bytes| - 1;
      WritesAll(log, bytes[..n], answers[..n]) && answers[n].written <= |bytes[n]| &&
      var before := AfterWrites(log, bytes[..n], answers[..n]); before.isOpen ==> before.files != []
  }

  /** The log after these buffers, empty ones skipped. */
  function AfterWrites(log: Rolling.Log, bytes: seq<seq<Byte>>, answers: seq<Rolling.Answers>): Rolling.Log
    requires |answers| == |bytes| && WritesAll(log, bytes, answers)
    decreases |bytes|, 1
  {
    if bytes == [] then log
    else
      var n := |bytes| - 1;
      var before := AfterWrites(log, bytes[..n], answers[..n]);
      if |bytes[n]| > 0 then Rolling.Append(before, bytes[n], answers[n]) else before
  }

  /** What fwrite takes of each buffer, while the file is open when its turn comes. */
  function Taken(log: Rolling.Log, bytes: seq<seq<Byte>>, answers: seq<Rolling.Answers>): seq<Byte>
    requires |answers| == |bytes| && WritesAll(log, bytes, answers)
    decreases |bytes|
  {
    if bytes == [] then []
    else
      var n := |bytes| - 1;
      Taken(log, bytes[..n], answers[..n]) +
      (if AfterWrites(log, bytes[..n], answers[..n]).isOpen then bytes[n][..answers[n].written] else [])
  }

  predicate Answered(bytes: seq<seq<Byte>>, answers: seq<Rolling.Answers>) {
    |answers| == |bytes| && forall i | 0 <= i < |bytes| :: answers[i].written <= |bytes[i]|
  }

  /** fopen and fwrite do all they are asked for these buffers. */
  predicate AllTaken(bytes: seq<seq<Byte>>, answers: seq<Rolling.Answers>) {
    |answers| == |bytes| && forall i | 0 <= i < |bytes| :: answers[i].opens && answers[i].written == |bytes[i]|
  }

  lemma {:induction false} WritesExactly(log: Rolling.Log, bytes: seq<seq<Byte>>, answers: seq<Rolling.Answers>)
    requires Rolling.Valid(log) && Answered(bytes, answers)
    ensures WritesAll(log, bytes, answers) && Rolling.Valid(AfterWrites(log, bytes, answers))
    ensures Concat(AfterWrites(log, bytes, answers).files) == Concat(log.files) + Taken(log, bytes, answers)
    decreases |bytes|
  {
    if bytes != [] {
      hide Rolling.Valid, Rolling.Append, Concat;
      var n := |bytes| - 1;
      WritesExactly(log, bytes[..n], answers[..n]);
      OneWrite(AfterWrites(log, bytes[..n], answers[..n]), bytes[n], answers[n]);
      hide Answered;
    }
  }

  lemma {:induction false} WritesEverything(log: Rolling.Log, bytes: seq<seq<Byte>>, answers: seq<Rolling.Answers>)
    requires Rolling.Valid(log) && log.isOpen && AllTaken(bytes, answers)
    ensures WritesAll(log, bytes, answers) && AfterWrites(log, bytes, answers).isOpen
    ensures Taken(log, bytes, answers) == Concat(bytes)
    decreases |bytes|
  {
    WritesExactly(log, bytes, answers);
    if bytes != [] {
      hide Rolling.Valid, Rolling.Append, Concat;
      var n := |bytes| - 1;
      WritesEverything(log, bytes[..n], answers[..n]);
      WritesExactly(log, bytes[..n], answers[..n]);
      OneWrite(AfterWrites(log, bytes[..n], answers[..n]), bytes[n], answers[n]);
      ConcatSnoc(bytes);
      assert bytes[n][..answers[n].written] == bytes[n];
    }
  }

  lemma OneWrite(log: Rolling.Log, b: seq<Byte>, a: Rolling.Answers)
    requires Rolling.Valid(log) && a.written <= |b|
    ensures log.isOpen ==> log.files != []
    ensures var g := if |b| > 0 then Rolling.Append(log, b, a) else log;
      && Rolling.Valid(g) && (log.isOpen && a.opens ==> g.isOpen)
      && Concat(g.files) == Concat(log.files) + (if log.isOpen then b[..a.written] else [])
  {
    Rolling.AppendKeeps(log, b, a);
    hide Rolling.Append, Rolling.Extends;
  }

  // ---- the same as the machine's steps ----

  function WriteEvents(answers: seq<Rolling.Answers>): seq<Event> {
    if answers == [] then [] else WriteEvents(answers[..|answers| - 1]) + [WriteEvent(answers[|answers| - 1])]
  }

  lemma {:induction false} OneMoreEvent(g: Logger, es: seq<Event>, e: Event)
    requires IsRun(g, es) && Enabled(LogPipeline.After(g, es), e)
    ensures IsRun(g, es + [e]) && LogPipeline.After(g, es + [e]) == Step(LogPipeline.After(g, es), e)
    decreases |es|
  {
    if es == [] {
      assert es + [e] == [e] && [e][1..] == [];
    } else {
      assert (es + [e])[1..] == es[1..] + [e];
      hide Step, Enabled;
      OneMoreEvent(Step(g, es[0]), es[1..], e);
    }
  }

  /** What WriteBuffers does to the log file is what the machine does in one write step for each
      collected buffer. */
  lemma {:induction false} WritesAreTheMachines(
      g: Logger, last: bool, bytes: seq<seq<Byte>>, answers: seq<Rolling.Answers>)
    requires g.pc == Writing(0, last) && Rolling.Valid(g.log) && Answered(bytes, answers)
    requires |bytes| <= |g.writer.toWrite| && forall i | 0 <= i < |bytes| :: bytes[i] == g.writer.toWrite[i].bytes
    ensures WritesAll(g.log, bytes, answers) && IsRun(g, WriteEvents(answers))
    ensures var t := LogPipeline.After(g, WriteEvents(answers));
      t.log == AfterWrites(g.log, bytes, answers) && t.pc == Writing(|bytes|, last) && t.writer == g.writer
    decreases |bytes|
  {
    WritesExactly(g.log, bytes, answers);
    if bytes != [] {
      hide IsRun, LogPipeline.After, Step, Rolling.Append, Rolling.Valid, Concat, Taken, Enabled;
      var n := |bytes| - 1;
      WritesAreTheMachines(g, last, bytes[..n], answers[..n]);
      WritesExactly(g.log, bytes[..n], answers[..n]);
      var t := LogPipeline.After(g, WriteEvents(answers[..n]));
      OpenHasFile(t.log);
      WriteStep(t, n, last, bytes[n], answers[n]);
      OneMoreEvent(g, WriteEvents(answers[..n]), WriteEvent(answers[n]));
    }
  }

  lemma OpenHasFile(log: Rolling.Log)
    requires Rolling.Valid(log)
    ensures log.isOpen ==> log.files != []
  {
  }

  lemma WriteStep(g: Logger, i: nat, last: bool, b: seq<Byte>, a: Rolling.Answers)
    requires g.pc == Writing(i, last) && i < |g.writer.toWrite| && b == g.writer.toWrite[i].bytes
    requires a.written <= |b| && (g.log.isOpen ==> g.log.files != [])
    ensures Enabled(g, WriteEvent(a))
    ensures var t := Step(g, WriteEvent(a));
      && t.log == (if |b| > 0 then Rolling.Append(g.log, b, a) else g.log)
      && t.pc == Writing(i + 1, last) && t.writer == g.writer
  {
    hide Rolling.Append;
  }
}
