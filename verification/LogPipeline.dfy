/** The double-buffered logger as a step relation: any number of appending threads, the writer
    thread and the log file (muduox/base/logging/AsyncLogging.cpp over LogFile.cpp). One step is
    one critical section, one buffer written, or one recycling. */
module LogPipeline {
  import opened Prelude
  import opened FixedBufferModel
  import Rolling = LogRolling

  const LARGE_BUFFER: nat := 4 * 1000 * 1000

  type Line = seq<Byte>

  /** The members the mutex guards; None is a null pointer. B is what a pointer leads to. */
  datatype Shared<B> = Shared(current: Option<B>, next: Option<B>, full: seq<B>)

  /** The writer thread's locals. */
  datatype Writer<B> = Writer(new1: Option<B>, new2: Option<B>, toWrite: seq<B>)

  // ---- how buffers move ----

  /** append() when the line does not fit: made is the buffer made when there is no spare. */
  function Rotate<B>(s: Shared<B>, made: B): Shared<B>
    requires s.current.Some?
  {
    Shared(Some(if s.next.Some? then s.next.value else made), None, s.full + [s.current.value])
  }

  /** The critical section of the writer's loop. */
  function Collect<B>(s: Shared<B>, w: Writer<B>): (Shared<B>, Writer<B>)
    requires s.current.Some?
  {
    var full := s.full + [s.current.value];
    if s.next.None? then (Shared(w.new1, w.new2, w.toWrite), Writer(None, None, full))
    else (Shared(w.new1, s.next, w.toWrite), Writer(None, w.new2, full))
  }

  /** The critical section after the loop; used says that the current buffer is not empty. */
  function FinalCollect<B>(s: Shared<B>, w: Writer<B>, used: bool): (Shared<B>, Writer<B>)
    requires s.current.Some?
  {
    if used then (Shared(w.new1, s.next, w.toWrite), Writer(None, w.new2, s.full + [s.current.value]))
    else (s.(full := w.toWrite), w.(toWrite := s.full))
  }

  function Kept<B>(w: Writer<B>): seq<B> {
    if |w.toWrite| > 2 then w.toWrite[..2] else w.toWrite
  }

  /** The two asserts of the recycling code. */
  predicate RecycleAsserts<B>(w: Writer<B>) {
    (w.new1.None? ==> |Kept(w)| > 0) &&
    (w.new2.None? ==> |Kept(w)| > (if w.new1.None? then 1 else 0))
  }

  /** Recycling takes buffers from the back of the kept ones and frees the others. */
  function Reused<B>(w: Writer<B>): Writer<B>
    requires RecycleAsserts(w)
  {
    var n := |Kept(w)|;
    Writer(if w.new1.None? then Some(Kept(w)[n - 1]) else w.new1,
           if w.new2.None? then Some(Kept(w)[if w.new1.None? then n - 2 else n - 1]) else w.new2,
           [])
  }

  // ---- what is in the buffers ----

  predicate Fits(b: Buf, line: Line) { LARGE_BUFFER - |b.bytes| > |line| }

  function AppendToCurrent(s: Shared<Buf>, line: Line): Shared<Buf>
    requires s.current.Some?
  {
    s.(current := Some(Appended(LARGE_BUFFER, s.current.value, line)))
  }

  function AppendLine(s: Shared<Buf>, line: Line): Shared<Buf>
    requires s.current.Some?
  {
    AppendToCurrent(if Fits(s.current.value, line) then s else Rotate(s, EMPTY), line)
  }

  /** A buffer that is taken back is reset. */
  function Recycle(w: Writer<Buf>): Writer<Buf>
    requires RecycleAsserts(w)
  {
    var r := Reused(w);
    Writer(if w.new1.None? then Some(EMPTY) else r.new1, if w.new2.None? then Some(EMPTY) else r.new2, r.toWrite)
  }

  // ---- the machine ----

  /** Before the loop test; writing buffer i, in the loop or after it. */
  datatype Pc = Top | Writing(i: nat, last: bool)

  /** The log file being given one buffer: what the buffer held, whether the file was open, what
      fwrite took, and whether the file then rolled and fopen succeeded. */
  datatype Attempt = Attempt(
    lines: seq<Line>, data: seq<Byte>, wasOpen: bool, written: nat, rolled: bool, opens: bool)

  datatype Logger = Logger(
    shared: Shared<Buf>, writer: Writer<Buf>, pc: Pc, log: Rolling.Log,
    attempts: seq<Attempt>,     // history: the non-empty buffers given to the log file
    groups: seq<seq<Line>>,     // history: the lines written to each file
    lines: seq<Line>,           // history: the non-empty lines appended
    cut: nat)                   // history: how many of them before the final critical section

  datatype Event =
    | AppendEvent(line: Line)
    | CollectEvent
    | WriteEvent(a: Rolling.Answers)
    | RecycleEvent
    | FinalCollectEvent

  predicate Enabled(g: Logger, e: Event) {
    match e
    case AppendEvent(line) => g.shared.current.Some?
    case CollectEvent => g.pc.Top? && g.shared.current.Some?
    case FinalCollectEvent => g.pc.Top? && g.shared.current.Some?
    case WriteEvent(a) =>
      g.pc.Writing? && g.pc.i < |g.writer.toWrite| && a.written <= |g.writer.toWrite[g.pc.i].bytes| &&
      (g.log.isOpen ==> g.log.files != [])
    case RecycleEvent => g.pc == Writing(|g.writer.toWrite|, false) && RecycleAsserts(g.writer)
  }

  function GroupsAfter(groups: seq<seq<Line>>, lines: seq<Line>, before: nat, after: nat): seq<seq<Line>> {
    (if groups == [] then [] else groups[|groups| - 1 := groups[|groups| - 1] + lines]) +
    (if after > before then [[]] else [])
  }

  function WriteBuf(g: Logger, b: Buf, a: Rolling.Answers): Logger
    requires a.written <= |b.bytes| && (g.log.isOpen ==> g.log.files != [])
  {
    if |b.bytes| > 0 then
      var log := Rolling.Append(g.log, b.bytes, a);
      var attempt := Attempt(b.lines, b.bytes, g.log.isOpen, a.written, log.lastRoll != g.log.lastRoll, a.opens);
      g.(log := log, attempts := g.attempts + [attempt],
         groups := GroupsAfter(g.groups, b.lines, |g.log.files|, |log.files|))
    else g
  }

  function Step(g: Logger, e: Event): Logger
    requires Enabled(g, e)
  {
    match e
    case AppendEvent(line) =>
      g.(shared := AppendLine(g.shared, line), lines := if line == [] then g.lines else g.lines + [line])
    case CollectEvent =>
      var (s, w) := Collect(g.shared, g.writer);
      g.(shared := s, writer := w, pc := Writing(0, false))
    case FinalCollectEvent =>
      var (s, w) := FinalCollect(g.shared, g.writer, |g.shared.current.value.bytes| > 0);
      g.(shared := s, writer := w, pc := Writing(0, true), cut := |g.lines|)
    case WriteEvent(a) =>
      WriteBuf(g, g.writer.toWrite[g.pc.i], a).(pc := Writing(g.pc.i + 1, g.pc.last))
    case RecycleEvent => g.(writer := Recycle(g.writer), pc := Top)
  }

  function Init(log: Rolling.Log): Logger {
    Logger(Shared(Some(EMPTY), Some(EMPTY), []), Writer(Some(EMPTY), Some(EMPTY), []), Top, log,
           [], seq(|log.files|, i => []), [], 0)
  }

  /** A run with any answers of the clock, fopen and fwrite. */
  predicate IsRun(g: Logger, es: seq<Event>)
    decreases |es|
  {
    es == [] || (Enabled(g, es[0]) && IsRun(Step(g, es[0]), es[1..]))
  }

  function After(g: Logger, es: seq<Event>): Logger
    requires IsRun(g, es)
    decreases |es|
  {
    if es == [] then g else After(Step(g, es[0]), es[1..])
  }

  /** fopen and fwrite do what they are asked. */
  predicate Succeeds(g: Logger, e: Event)
    requires Enabled(g, e)
  {
    e.WriteEvent? ==> e.a.opens && e.a.written == |g.writer.toWrite[g.pc.i].bytes|
  }

  predicate AllSucceed(g: Logger, es: seq<Event>)
    requires IsRun(g, es)
    decreases |es|
  {
    es == [] || (Succeeds(g, es[0]) && AllSucceed(Step(g, es[0]), es[1..]))
  }

  // ---- what lines become ----

  /** A line longer than a whole buffer is cut. */
  function Stored(line: Line): Line { line[..Min(LARGE_BUFFER, |line|)] }

  function StoredBytes(lines: seq<Line>): seq<Byte> {
    if lines == [] then [] else Stored(lines[0]) + StoredBytes(lines[1..])
  }

  lemma {:induction false} StoredAppend(a: seq<Line>, b: seq<Line>)
    ensures StoredBytes(a + b) == StoredBytes(a) + StoredBytes(b)
  {
    if a == [] {
      assert a + b == b;
    } else {
      assert (a + b)[1..] == a[1..] + b;
      StoredAppend(a[1..], b);
    }
  }

  lemma StoredOne(line: Line)
    ensures StoredBytes([line]) == Stored(line)
  {
  }

  /** Lines are written whole exactly when none is longer than a buffer. */
  lemma {:induction false} StoredIsWholeExactly(lines: seq<Line>)
    ensures |StoredBytes(lines)| <= |Concat(lines)|
    ensures StoredBytes(lines) == Concat(lines) <==> forall l <- lines :: |l| <= LARGE_BUFFER
    ensures |StoredBytes(lines)| == |Concat(lines)| ==> StoredBytes(lines) == Concat(lines)
  {
    if lines != [] {
      var head, tail := lines[0], lines[1..];
      StoredIsWholeExactly(tail);
      assert forall l :: l in lines <==> l == head || l in tail;
      if |head| <= LARGE_BUFFER {
        assert Stored(head) == head;
        assert StoredBytes(lines)[|head|..] == StoredBytes(tail) && Concat(lines)[|head|..] == Concat(tail);
      } else {
        assert |StoredBytes(lines)| < |Concat(lines)|;
      }
    }
  }

  function Flat(groups: seq<seq<Line>>): seq<Line> {
    if groups == [] then [] else groups[0] + Flat(groups[1..])
  }

  lemma {:induction false} FlatAppend(a: seq<seq<Line>>, b: seq<seq<Line>>)
    ensures Flat(a + b) == Flat(a) + Flat(b)
  {
    if a == [] {
      assert a + b == b;
    } else {
      assert (a + b)[1..] == a[1..] + b;
      FlatAppend(a[1..], b);
    }
  }

  function LinesOf(bufs: seq<Buf>): seq<Line> {
    if bufs == [] then [] else bufs[0].lines + LinesOf(bufs[1..])
  }

  lemma {:induction false} LinesAppend(a: seq<Buf>, b: seq<Buf>)
    ensures LinesOf(a + b) == LinesOf(a) + LinesOf(b)
  {
    if a == [] {
      assert a + b == b;
    } else {
      assert (a + b)[1..] == a[1..] + b;
      LinesAppend(a[1..], b);
    }
  }

  // ---- the invariant ----

  ghost predicate Whole(b: Buf) {
    b.bytes == StoredBytes(b.lines) && |b.bytes| <= LARGE_BUFFER && forall l <- b.lines :: l != []
  }

  ghost predicate AllWhole(bufs: seq<Buf>) { forall b <- bufs :: Whole(b) }

  lemma AllWholeAppends(bufs: seq<Buf>, b: Buf)
    requires AllWhole(bufs) && Whole(b)
    ensures AllWhole(bufs + [b])
  {
  }

  ghost predicate SharedOk(s: Shared<Buf>) {
    && s.current.Some? && Whole(s.current.value)
    && (s.next.Some? ==> s.next.value == EMPTY)
    && AllWhole(s.full)
  }

  /** Where the writer stands decides which of its buffers it has given away. */
  ghost predicate WriterOk(g: Logger) {
    var w := g.writer;
    && AllWhole(w.toWrite)
    && (w.new1.Some? ==> w.new1.value == EMPTY) && (w.new2.Some? ==> w.new2.value == EMPTY)
    && match g.pc
       case Top => w.new1.Some? && w.new2.Some? && w.toWrite == []
       case Writing(i, last) =>
         i <= |w.toWrite| && (!last ==> |w.toWrite| >= (if w.new2.None? then 2 else 1) && w.new1.None?)
  }

  /** Until the final critical section a missing spare means a full buffer waits. */
  ghost predicate SpareOk(g: Logger) {
    !(g.pc.Writing? && g.pc.last) && g.shared.next.None? ==> g.shared.full != []
  }

  function Unwritten(g: Logger): seq<Line> {
    if g.pc.Writing? && g.pc.i <= |g.writer.toWrite| then LinesOf(g.writer.toWrite[g.pc.i..]) else []
  }

  function Waiting(s: Shared<Buf>): seq<Line> {
    LinesOf(s.full) + (if s.current.Some? then s.current.value.lines else [])
  }

  /** Empty lines leave no trace. */
  function NewLines(line: Line): seq<Line> { if line == [] then [] else [line] }

  /** Each file holds the bytes of its group of lines. */
  ghost predicate Matches(files: seq<seq<Byte>>, groups: seq<seq<Line>>) {
    |groups| == |files| && forall k | 0 <= k < |groups| :: files[k] == StoredBytes(groups[k])
  }

  /** The lines of the buffers given to the log file so far. */
  function Handed(attempts: seq<Attempt>): seq<Line> {
    if attempts == [] then []
    else Handed(attempts[..|attempts| - 1]) + attempts[|attempts| - 1].lines
  }

  /** What fwrite took of them while the file was open. */
  function Took(attempts: seq<Attempt>): seq<Byte>
    requires forall k | 0 <= k < |attempts| :: attempts[k].written <= |attempts[k].data|
  {
    if attempts == [] then []
    else
      var x := attempts[|attempts| - 1];
      Took(attempts[..|attempts| - 1]) + (if x.wasOpen then x.data[..x.written] else [])
  }

  ghost predicate OrderOk(g: Logger) {
    && Handed(g.attempts) + Unwritten(g) + Waiting(g.shared) == g.lines
    && (g.pc.Writing? && g.pc.last ==> g.cut <= |g.lines| && Handed(g.attempts) + Unwritten(g) == g.lines[..g.cut])
  }

  /** What holds whatever the log file does. */
  ghost predicate Inv(g: Logger) {
    SharedOk(g.shared) && WriterOk(g) && SpareOk(g) && OrderOk(g)
  }

  /** The log file is open after an attempt exactly if it was before and any roll opened a file. */
  predicate OpenAfter(x: Attempt) { x.wasOpen && (x.opens || !x.rolled) }

  ghost predicate Recorded(attempts: seq<Attempt>) {
    forall k | 0 <= k < |attempts| :: IsOf(attempts[k])
  }

  /** The attempt gave the file a non-empty buffer of these lines. */
  ghost predicate IsOf(x: Attempt) { x.written <= |x.data| && x.data == StoredBytes(x.lines) && x.data != [] }

  ghost predicate Chained(attempts: seq<Attempt>, wasOpen: bool) {
    forall k {:trigger OpenAt(attempts, wasOpen, k)} | 0 <= k < |attempts| ::
      attempts[k].wasOpen == OpenAt(attempts, wasOpen, k)
  }

  /** The log file beside the buffers; wasOpen says whether it was open at the start. */
  ghost predicate LogOk(g: Logger, wasOpen: bool) {
    && Rolling.Valid(g.log) && Recorded(g.attempts) && Chained(g.attempts, wasOpen)
    && Concat(g.log.files) == Took(g.attempts)
    && g.log.isOpen == OpenAt(g.attempts, wasOpen, |g.attempts|)
  }

  /** Whether the file is open when attempt k comes. */
  predicate OpenAt(attempts: seq<Attempt>, wasOpen: bool, k: nat)
    requires k <= |attempts|
  {
    if k == 0 then wasOpen else OpenAfter(attempts[k - 1])
  }

  /** The files when fopen and fwrite succeed. */
  ghost predicate FilesOk(g: Logger) {
    Rolling.Valid(g.log) && g.log.isOpen && Matches(g.log.files, g.groups) && Flat(g.groups) == Handed(g.attempts)
  }

  lemma StoredIsNotEmpty(lines: seq<Line>)
    requires lines != [] && forall l <- lines :: l != []
    ensures StoredBytes(lines) != []
  {
    assert lines[0] in lines;
    assert |Stored(lines[0])| > 0;
  }

  lemma WholeEmpty(b: Buf)
    requires Whole(b) && b.bytes == []
    ensures b == EMPTY
  {
    if b.lines != [] {
      StoredIsNotEmpty(b.lines);
    }
  }

  lemma AppendedIsWhole(b: Buf, line: Line)
    requires Whole(b) && (b == EMPTY || |b.bytes| + |line| < LARGE_BUFFER)
    ensures Whole(Appended(LARGE_BUFFER, b, line))
  {
    StoredAppend(b.lines, [line]);
    StoredOne(line);
    assert Fitting(LARGE_BUFFER - |b.bytes|, line) == Stored(line);
  }

  lemma AppendLineKeeps(s: Shared<Buf>, line: Line)
    requires SharedOk(s)
    ensures var t := AppendLine(s, line);
      && SharedOk(t) && Waiting(t) == Waiting(s) + NewLines(line)
      && (t.next.None? && s.next.Some? ==> t.full != []) && (s.full != [] ==> t.full != [])
  {
    var current := s.current.value;
    if Fits(current, line) {
      AppendedIsWhole(current, line);
    } else {
      AppendedIsWhole(EMPTY, line);
      LinesAppend(s.full, [current]);
      assert LinesOf([current]) == current.lines + LinesOf([current][1..]);
    }
  }

  lemma AppendKeepsOrder(g: Logger, t: Logger, line: Line)
    requires OrderOk(g) && t == g.(shared := t.shared, lines := g.lines + NewLines(line))
    requires Waiting(t.shared) == Waiting(g.shared) + NewLines(line)
    ensures OrderOk(t)
  {
    assert t.lines[..|g.lines|] == g.lines;
    hide Handed, Unwritten, Waiting, NewLines;
    assert Handed(g.attempts) + Unwritten(g) + (Waiting(g.shared) + NewLines(line))
      == Handed(g.attempts) + Unwritten(g) + Waiting(g.shared) + NewLines(line);
  }

  lemma AppendEventKeeps(g: Logger, line: Line)
    requires Inv(g)
    ensures Enabled(g, AppendEvent(line)) && Inv(Step(g, AppendEvent(line)))
  {
    AppendLineKeeps(g.shared, line);
    var t := Step(g, AppendEvent(line));
    assert t == g.(shared := t.shared, lines := g.lines + NewLines(line));
    hide AppendLine, Whole, AllWhole, Waiting, Handed, OrderOk;
    AppendKeepsOrder(g, t, line);
  }

  lemma CurrentGoesLast(s: Shared<Buf>)
    requires s.current.Some?
    ensures LinesOf(s.full + [s.current.value]) == Waiting(s)
  {
    LinesAppend(s.full, [s.current.value]);
    assert LinesOf([s.current.value]) == s.current.value.lines + LinesOf([s.current.value][1..]);
  }

  lemma CollectKeepsOrder(g: Logger)
    requires g.pc.Top? && g.shared.current.Some? && g.writer.toWrite == [] && g.writer.new1 == Some(EMPTY) && OrderOk(g)
    ensures OrderOk(Step(g, CollectEvent))
  {
    CurrentGoesLast(g.shared);
    var t := Step(g, CollectEvent);
    assert t.writer.toWrite[0..] == t.writer.toWrite;
    assert Unwritten(g) == [] && Unwritten(t) == Waiting(g.shared) && Waiting(t.shared) == [];
    hide LinesOf, Handed, Waiting, Unwritten, Step;
  }

  lemma CollectKeepsBuffers(g: Logger)
    requires SharedOk(g.shared) && WriterOk(g) && SpareOk(g) && g.pc.Top?
    ensures var t := Step(g, CollectEvent); SharedOk(t.shared) && WriterOk(t) && SpareOk(t)
  {
    assert Whole(EMPTY);
    AllWholeAppends(g.shared.full, g.shared.current.value);
    hide Whole, AllWhole;
  }

  lemma CollectKeeps(g: Logger)
    requires Inv(g) && g.pc.Top?
    ensures Enabled(g, CollectEvent) && Inv(Step(g, CollectEvent))
  {
    CollectKeepsOrder(g);
    CollectKeepsBuffers(g);
    hide OrderOk, Step;
  }

  lemma FinalCollectKeepsOrder(g: Logger)
    requires g.pc.Top? && SharedOk(g.shared) && g.writer.toWrite == [] && g.writer.new1 == Some(EMPTY) && OrderOk(g)
    ensures OrderOk(Step(g, FinalCollectEvent))
  {
    var t := Step(g, FinalCollectEvent);
    var current := g.shared.current.value;
    if |current.bytes| == 0 {
      WholeEmpty(current);
    }
    CurrentGoesLast(g.shared);
    assert t.writer.toWrite[0..] == t.writer.toWrite;
    assert g.lines[..|g.lines|] == g.lines;
  }

  lemma FinalCollectKeepsBuffers(g: Logger)
    requires SharedOk(g.shared) && WriterOk(g) && g.pc.Top?
    ensures var t := Step(g, FinalCollectEvent); SharedOk(t.shared) && WriterOk(t) && SpareOk(t)
  {
    assert Whole(EMPTY);
    AllWholeAppends(g.shared.full, g.shared.current.value);
    hide Whole, AllWhole;
  }

  lemma FinalCollectKeeps(g: Logger)
    requires Inv(g) && g.pc.Top?
    ensures Enabled(g, FinalCollectEvent) && Inv(Step(g, FinalCollectEvent))
  {
    FinalCollectKeepsOrder(g);
    FinalCollectKeepsBuffers(g);
    hide OrderOk, Step;
  }

  lemma RecycleKeeps(g: Logger)
    requires Inv(g) && g.pc == Writing(|g.writer.toWrite|, false)
    ensures Enabled(g, RecycleEvent) && Inv(Step(g, RecycleEvent))
  {
  }

  lemma GroupsFlat(groups: seq<seq<Line>>, lines: seq<Line>, before: nat, after: nat)
    requires groups != []
    ensures Flat(GroupsAfter(groups, lines, before, after)) == Flat(groups) + lines
  {
    FlatLast(groups, lines);
    var added: seq<seq<Line>> := if after > before then [[]] else [];
    FlatAppend(groups[|groups| - 1 := groups[|groups| - 1] + lines], added);
    assert Flat(added) == [];
  }

  lemma GroupsMatch(f: Rolling.Log, t: Rolling.Log, groups: seq<seq<Line>>, b: Buf)
    requires f.files != [] && Matches(f.files, groups) && Whole(b)
    requires Rolling.Extends(Rolling.Write(f, b.bytes), t)
    ensures Matches(t.files, GroupsAfter(groups, b.lines, |f.files|, |t.files|))
  {
    StoredAppend(groups[|groups| - 1], b.lines);
  }

  lemma WriteKeepsFiles(g: Logger, b: Buf, a: Rolling.Answers)
    requires FilesOk(g) && Whole(b) && a.opens && a.written == |b.bytes|
    ensures g.log.isOpen ==> g.log.files != []
    ensures FilesOk(WriteBuf(g, b, a))
  {
    if |b.bytes| > 0 {
      HandedWrite(g, b, a);
      var t := Rolling.Append(g.log, b.bytes, a);
      assert b.bytes[..a.written] == b.bytes;
      Rolling.AppendKeeps(g.log, b.bytes, a);
      GroupsMatch(g.log, t, g.groups, b);
      GroupsFlat(g.groups, b.lines, |g.log.files|, |t.files|);
    }
  }

  lemma HandedWrite(g: Logger, b: Buf, a: Rolling.Answers)
    requires a.written <= |b.bytes| && (g.log.isOpen ==> g.log.files != []) && Whole(b)
    ensures Handed(WriteBuf(g, b, a).attempts) == Handed(g.attempts) + b.lines
  {
    if |b.bytes| == 0 {
      WholeEmpty(b);
    } else {
      var t := WriteBuf(g, b, a);
      assert t.attempts[..|t.attempts| - 1] == g.attempts;
    }
  }

  lemma AttemptChained(attempts: seq<Attempt>, x: Attempt, wasOpen: bool)
    requires Chained(attempts, wasOpen) && x.wasOpen == OpenAt(attempts, wasOpen, |attempts|)
    ensures var t := attempts + [x]; Chained(t, wasOpen) && OpenAt(t, wasOpen, |t|) == OpenAfter(x)
  {
    var t := attempts + [x];
    forall k | 0 <= k < |t|
      ensures t[k].wasOpen == OpenAt(t, wasOpen, k)
    {
      assert k < |attempts| ==> attempts[k].wasOpen == OpenAt(attempts, wasOpen, k);
    }
  }

  lemma AttemptRecorded(attempts: seq<Attempt>, x: Attempt, wasOpen: bool)
    requires Recorded(attempts) && IsOf(x) && Chained(attempts, wasOpen)
    requires x.wasOpen == OpenAt(attempts, wasOpen, |attempts|)
    ensures var t := attempts + [x];
      && Recorded(t) && Chained(t, wasOpen) && OpenAt(t, wasOpen, |t|) == OpenAfter(x)
      && Took(t) == Took(attempts) + (if x.wasOpen then x.data[..x.written] else [])
  {
    TookAppends(attempts, x);
    AttemptChained(attempts, x, wasOpen);
    hide Took, StoredBytes, Chained, OpenAt;
  }

  lemma TookAppends(attempts: seq<Attempt>, x: Attempt)
    requires (forall k | 0 <= k < |attempts| :: attempts[k].written <= |attempts[k].data|) && x.written <= |x.data|
    ensures Took(attempts + [x]) == Took(attempts) + (if x.wasOpen then x.data[..x.written] else [])
  {
    assert (attempts + [x])[..|attempts|] == attempts;
  }

  lemma WriteKeepsLog(g: Logger, b: Buf, a: Rolling.Answers, wasOpen: bool)
    requires LogOk(g, wasOpen) && Whole(b) && a.written <= |b.bytes|
    ensures g.log.isOpen ==> g.log.files != []
    ensures LogOk(WriteBuf(g, b, a), wasOpen)
  {
    if |b.bytes| > 0 {
      Rolling.AppendKeeps(g.log, b.bytes, a);
      var log := Rolling.Append(g.log, b.bytes, a);
      var x := Attempt(b.lines, b.bytes, g.log.isOpen, a.written, log.lastRoll != g.log.lastRoll, a.opens);
      assert WriteBuf(g, b, a).attempts == g.attempts + [x] && WriteBuf(g, b, a).log == log;
      hide Rolling.Append, Rolling.Valid, Rolling.Extends, Took, Chained, OpenAt, WriteBuf, Recorded, StoredBytes;
      AttemptRecorded(g.attempts, x, wasOpen);
    }
  }

  lemma FlatLast(groups: seq<seq<Line>>, lines: seq<Line>)
    requires groups != []
    ensures var k := |groups| - 1; Flat(groups[k := groups[k] + lines]) == Flat(groups) + lines
  {
    var k := |groups| - 1;
    var last := groups[k] + lines;
    assert groups == groups[..k] + [groups[k]] && groups[k := last] == groups[..k] + [last];
    FlatAppend(groups[..k], [groups[k]]);
    FlatAppend(groups[..k], [last]);
    assert [last][1..] == [] && [groups[k]][1..] == [];
  }

  lemma WriteKeepsOrder(g: Logger, t: Logger, b: Buf)
    requires OrderOk(g) && g.pc.Writing? && g.pc.i < |g.writer.toWrite| && b == g.writer.toWrite[g.pc.i]
    requires t == g.(log := t.log, attempts := t.attempts, groups := t.groups, pc := Writing(g.pc.i + 1, g.pc.last))
    requires Handed(t.attempts) == Handed(g.attempts) + b.lines
    ensures OrderOk(t)
  {
  }

  lemma WriteKeeps(g: Logger, e: Event)
    requires Inv(g) && e.WriteEvent? && Enabled(g, e)
    ensures Inv(Step(g, e))
  {
    var b := g.writer.toWrite[g.pc.i];
    assert Whole(b);
    HandedWrite(g, b, e.a);
    WriteKeepsOrder(g, Step(g, e), b);
    hide OrderOk, SharedOk, Whole;
  }

  lemma StepKeeps(g: Logger, e: Event)
    requires Inv(g) && Enabled(g, e)
    ensures Inv(Step(g, e))
  {
    match e
    case AppendEvent(line) => AppendEventKeeps(g, line);
    case CollectEvent => CollectKeeps(g);
    case WriteEvent(a) => WriteKeeps(g, e);
    case RecycleEvent => RecycleKeeps(g);
    case FinalCollectEvent => FinalCollectKeeps(g);
  }

  lemma StepKeepsLog(g: Logger, e: Event, wasOpen: bool)
    requires Inv(g) && LogOk(g, wasOpen) && Enabled(g, e)
    ensures LogOk(Step(g, e), wasOpen)
  {
    if e.WriteEvent? {
      var b := g.writer.toWrite[g.pc.i];
      assert Whole(b);
      hide Inv, Whole, WriteBuf, Recorded, Chained, OpenAt, Took, Rolling.Valid;
      WriteKeepsLog(g, b, e.a, wasOpen);
    }
  }

  lemma StepKeepsFiles(g: Logger, e: Event)
    requires Inv(g) && FilesOk(g) && Enabled(g, e) && Succeeds(g, e)
    ensures FilesOk(Step(g, e))
  {
    if e.WriteEvent? {
      var b := g.writer.toWrite[g.pc.i];
      assert Whole(b);
      WriteKeepsFiles(g, b, e.a);
      hide Inv, Whole;
    }
  }

  lemma {:induction false} RunKeeps(g: Logger, es: seq<Event>)
    requires Inv(g) && IsRun(g, es)
    ensures Inv(After(g, es))
    decreases |es|
  {
    if es != [] {
      StepKeeps(g, es[0]);
      RunKeeps(Step(g, es[0]), es[1..]);
    }
  }

  lemma {:induction false} RunKeepsLog(g: Logger, es: seq<Event>, wasOpen: bool)
    requires Inv(g) && LogOk(g, wasOpen) && IsRun(g, es)
    ensures LogOk(After(g, es), wasOpen)
    decreases |es|
  {
    if es != [] {
      StepKeeps(g, es[0]);
      StepKeepsLog(g, es[0], wasOpen);
      hide Inv, LogOk, Step, Enabled;
      RunKeepsLog(Step(g, es[0]), es[1..], wasOpen);
    }
  }

  lemma {:induction false} RunKeepsFiles(g: Logger, es: seq<Event>)
    requires Inv(g) && FilesOk(g) && IsRun(g, es) && AllSucceed(g, es)
    ensures FilesOk(After(g, es))
    decreases |es|
  {
    if es != [] {
      StepKeeps(g, es[0]);
      StepKeepsFiles(g, es[0]);
      hide Inv, FilesOk, Step, Enabled, Succeeds;
      RunKeepsFiles(Step(g, es[0]), es[1..]);
    }
  }

  /** The log file as threadFunc finds it. */
  ghost predicate Started(log: Rolling.Log) {
    Rolling.Valid(log) && log.isOpen && |log.files| == 1 && log.files[0] == []
  }

  /** The constructor of the log file starts it exactly when the clock is positive and fopen works. */
  lemma OpenStarts(rollSize: int, flushInterval: int, checkEveryN: int, now: int, opens: bool)
    ensures Started(Rolling.Open(rollSize, flushInterval, checkEveryN, now, opens)) <==> now > 0 && opens
  {
  }

  lemma InitHolds(log: Rolling.Log)
    ensures Inv(Init(log))
    ensures Rolling.Valid(log) && Concat(log.files) == [] ==> LogOk(Init(log), log.isOpen)
    ensures Started(log) ==> FilesOk(Init(log))
  {
  }

  // ---- what whole runs give ----

  function NewLine(e: Event): seq<Line> {
    if e.AppendEvent? && e.line != [] then [e.line] else []
  }

  /** The non-empty lines appended in a run. */
  function LinesIn(es: seq<Event>): seq<Line> {
    if es == [] then []
    else NewLine(es[0]) + LinesIn(es[1..])
  }

  /** Those appended before the final critical section. */
  function LinesBeforeFinal(es: seq<Event>): seq<Line> {
    if es == [] || es[0].FinalCollectEvent? then []
    else NewLine(es[0]) + LinesBeforeFinal(es[1..])
  }

  predicate InFinal(g: Logger) { g.pc.Writing? && g.pc.last }

  lemma StepRecords(g: Logger, e: Event)
    requires Enabled(g, e)
    ensures var t := Step(g, e);
      && t.lines == g.lines + NewLine(e)
      && (InFinal(t) <==> InFinal(g) || e.FinalCollectEvent?)
      && (InFinal(g) ==> t.cut == g.cut) && (e.FinalCollectEvent? ==> t.cut == |g.lines|)
  {
  }

  lemma {:induction false} LinesAreRecorded(g: Logger, es: seq<Event>)
    requires IsRun(g, es)
    ensures After(g, es).lines == g.lines + LinesIn(es)
    ensures InFinal(g) ==> InFinal(After(g, es)) && After(g, es).cut == g.cut
    decreases |es|
  {
    if es != [] {
      StepRecords(g, es[0]);
      hide Step, Enabled;
      LinesAreRecorded(Step(g, es[0]), es[1..]);
    }
  }

  /** The lines before the final critical section are these. */
  ghost predicate CutAfter(g: Logger, lines: seq<Line>) { g.cut == |lines| && lines <= g.lines }

  lemma Unroll(g: Logger, es: seq<Event>)
    requires IsRun(g, es)
    ensures es == [] ==> After(g, es) == g
    ensures es != [] ==>
      Enabled(g, es[0]) && IsRun(Step(g, es[0]), es[1..]) && After(g, es) == After(Step(g, es[0]), es[1..])
  {
  }

  lemma CutAtFinal(g: Logger, es: seq<Event>)
    requires IsRun(g, es) && InFinal(g) && g.cut == |g.lines|
    ensures CutAfter(After(g, es), g.lines)
  {
    LinesAreRecorded(g, es);
  }

  lemma {:induction false} CutIsRecorded(g: Logger, es: seq<Event>)
    requires IsRun(g, es) && !InFinal(g) && InFinal(After(g, es))
    ensures CutAfter(After(g, es), g.lines + LinesBeforeFinal(es))
    decreases |es|
  {
    hide Step, Enabled, IsRun, After, CutAfter;
    Unroll(g, es);
    if es == [] {
      return;
    }
    var e, t := es[0], Step(g, es[0]);
    StepRecords(g, e);
    if e.FinalCollectEvent? {
      CutAtFinal(t, es[1..]);
      assert t.lines == g.lines + LinesBeforeFinal(es);
    } else {
      CutIsRecorded(t, es[1..]);
      assert t.lines + LinesBeforeFinal(es[1..]) == g.lines + LinesBeforeFinal(es);
    }
  }

  /** In every interleaving of appending threads with the writer, whatever the log file, the clock,
      fopen and fwrite do: the current buffer is there, a missing spare means a full buffer waits
      (until the final section), at the top of the writer's loop both of its buffers are there and
      empty, and when it recycles both asserts hold. */
  lemma RecyclingNeverFails(log: Rolling.Log, es: seq<Event>)
    requires IsRun(Init(log), es)
    ensures var g := After(Init(log), es);
      && g.shared.current.Some?
      && (!InFinal(g) && g.shared.next.None? ==> g.shared.full != [])
      && (g.shared.next.Some? ==> g.shared.next.value == EMPTY)
      && (g.pc.Top? ==> g.writer == Writer(Some(EMPTY), Some(EMPTY), []))
      && (g.pc == Writing(|g.writer.toWrite|, false) ==> RecycleAsserts(g.writer))
  {
    InitHolds(log);
    RunKeeps(Init(log), es);
  }

  /** No guard of the steps ever blocks an appending thread or the writer. */
  lemma NobodyIsStuck(log: Rolling.Log, es: seq<Event>, line: Line, a: Rolling.Answers)
    requires Rolling.Valid(log) && Concat(log.files) == [] && IsRun(Init(log), es)
    ensures var g := After(Init(log), es);
      && Enabled(g, AppendEvent(line))
      && (g.pc.Top? ==> Enabled(g, CollectEvent) && Enabled(g, FinalCollectEvent))
      && (g.pc.Writing? ==> g.pc.i <= |g.writer.toWrite|)
      && (g.pc.Writing? && g.pc.i < |g.writer.toWrite| && a.written <= |g.writer.toWrite[g.pc.i].bytes| ==>
            Enabled(g, WriteEvent(a)))
      && (g.pc == Writing(|g.writer.toWrite|, false) ==> Enabled(g, RecycleEvent))
  {
    RecyclingNeverFails(log, es);
    InitHolds(log);
    RunKeeps(Init(log), es);
    RunKeepsLog(Init(log), es, log.isOpen);
    var g := After(Init(log), es);
    assert WriterOk(g) && LogOk(g, log.isOpen);
  }

  /** The writer has written its last buffer. */
  predicate Done(g: Logger) { g.pc == Writing(|g.writer.toWrite|, true) }

  lemma NothingUnwritten(g: Logger)
    requires Inv(g) && Done(g)
    ensures g.cut <= |g.lines| && Handed(g.attempts) == g.lines[..g.cut]
  {
  }

  lemma EverythingHanded(log: Rolling.Log, es: seq<Event>)
    requires IsRun(Init(log), es) && Done(After(Init(log), es))
    ensures Inv(After(Init(log), es)) && Handed(After(Init(log), es).attempts) == LinesBeforeFinal(es)
  {
    hide IsRun, After;
    InitHolds(log);
    RunKeeps(Init(log), es);
    CutIsRecorded(Init(log), es);
    NothingUnwritten(After(Init(log), es));
    assert [] + LinesBeforeFinal(es) == LinesBeforeFinal(es);
  }

  /** When the writer is done and fopen and fwrite succeeded throughout, the files in opening order
      hold the lines appended before its final critical section, in order, cut at the buffer size,
      and each file holds whole lines only. This is for every interleaving, every mix of rolls and
      any clock. */
  lemma LoggedInOrder(log: Rolling.Log, es: seq<Event>)
    requires Started(log) && IsRun(Init(log), es) && AllSucceed(Init(log), es) && Done(After(Init(log), es))
    ensures var g := After(Init(log), es);
      && |g.groups| == |g.log.files| && Flat(g.groups) == LinesBeforeFinal(es)
      && (forall k | 0 <= k < |g.groups| :: g.log.files[k] == StoredBytes(g.groups[k]))
      && Concat(g.log.files) == StoredBytes(LinesBeforeFinal(es))
      && (Concat(g.log.files) == Concat(LinesBeforeFinal(es)) <==>
            forall l <- LinesBeforeFinal(es) :: |l| <= LARGE_BUFFER)
  {
    hide Inv, IsRun, After, AllSucceed;
    var g := After(Init(log), es);
    InitHolds(log);
    EverythingHanded(log, es);
    RunKeepsFiles(Init(log), es);
    FilesAreLines(g.log.files, g.groups);
    StoredIsWholeExactly(LinesBeforeFinal(es));
  }

  /** Every roll that came with the first k attempts opened a file. */
  predicate RollsBefore(attempts: seq<Attempt>, k: nat)
    requires k <= |attempts|
  {
    forall j | 0 <= j < k :: attempts[j].opens || !attempts[j].rolled
  }

  /** The file was open for the buffer and fwrite took all of it. */
  predicate Complete(x: Attempt) { x.wasOpen && x.written == |x.data| }

  /** Whatever the clock, fopen and fwrite answer, from any log file that is in order and empty: when
      the writer is done, its buffers held the lines appended before the final critical section, in
      order, and the files hold what fwrite took of each while the log was open, in order. The file
      is open for a buffer exactly if it was at the start and every roll before found fopen
      succeeding. And the files equal the lines exactly if no line is cut, the file was open for
      every buffer, and every fwrite took all. */
  lemma LoggedExactly(log: Rolling.Log, es: seq<Event>)
    requires Rolling.Valid(log) && Concat(log.files) == []
    requires IsRun(Init(log), es) && Done(After(Init(log), es))
    ensures var g := After(Init(log), es);
      && Handed(g.attempts) == LinesBeforeFinal(es)
      && Recorded(g.attempts) && Concat(g.log.files) == Took(g.attempts)
      && (forall k | 0 <= k < |g.attempts| ::
            g.attempts[k].wasOpen <==> log.isOpen && RollsBefore(g.attempts, k))
      && (Concat(g.log.files) == Concat(LinesBeforeFinal(es)) <==>
            (forall l <- LinesBeforeFinal(es) :: |l| <= LARGE_BUFFER) && forall x <- g.attempts :: Complete(x))
  {
    hide Inv, IsRun, After, Rolling.Valid, Init;
    InitHolds(log);
    EverythingHanded(log, es);
    RunKeepsLog(Init(log), es, log.isOpen);
    LogTells(After(Init(log), es), log.isOpen, LinesBeforeFinal(es));
  }

  lemma LogTells(g: Logger, wasOpen: bool, lines: seq<Line>)
    requires LogOk(g, wasOpen) && Handed(g.attempts) == lines
    ensures Recorded(g.attempts) && Concat(g.log.files) == Took(g.attempts)
    ensures forall k | 0 <= k < |g.attempts| ::
      g.attempts[k].wasOpen <==> wasOpen && RollsBefore(g.attempts, k)
    ensures Concat(g.log.files) == Concat(lines) <==>
      (forall l <- lines :: |l| <= LARGE_BUFFER) && forall x <- g.attempts :: Complete(x)
  {
    forall k | 0 <= k < |g.attempts|
      ensures g.attempts[k].wasOpen <==> wasOpen && RollsBefore(g.attempts, k)
    {
      OpenExactly(g.attempts, wasOpen, k);
    }
    TookIsAllExactly(g.attempts);
    StoredIsWholeExactly(lines);
  }

  lemma {:induction false} OpenExactly(attempts: seq<Attempt>, wasOpen: bool, k: nat)
    requires k < |attempts|
    requires Chained(attempts, wasOpen)
    ensures attempts[k].wasOpen <==> wasOpen && RollsBefore(attempts, k)
  {
    assert attempts[k].wasOpen == OpenAt(attempts, wasOpen, k);
    if k > 0 {
      OpenExactly(attempts, wasOpen, k - 1);
    }
  }

  /** What was taken is never more than what was handed over, and all of it exactly if every
      attempt was complete. */
  lemma {:induction false} TookIsAllExactly(attempts: seq<Attempt>)
    requires Recorded(attempts)
    ensures |Took(attempts)| <= |StoredBytes(Handed(attempts))|
    ensures |Took(attempts)| == |StoredBytes(Handed(attempts))| <==> forall x <- attempts :: Complete(x)
    ensures |Took(attempts)| == |StoredBytes(Handed(attempts))| ==> Took(attempts) == StoredBytes(Handed(attempts))
  {
    if attempts != [] {
      var n := |attempts| - 1;
      var x := attempts[n];
      TookIsAllExactly(attempts[..n]);
      StoredAppend(Handed(attempts[..n]), x.lines);
      assert IsOf(x) && (Complete(x) ==> x.data[..x.written] == x.data);
      assert StoredBytes(Handed(attempts)) == StoredBytes(Handed(attempts[..n])) + x.data;
      assert attempts == attempts[..n] + [x];
      assert forall y :: y in attempts <==> y in attempts[..n] || y == x;
    }
  }

  lemma {:induction false} FilesAreLines(files: seq<seq<Byte>>, groups: seq<seq<Line>>)
    requires |groups| == |files| && forall k | 0 <= k < |groups| :: files[k] == StoredBytes(groups[k])
    ensures Concat(files) == StoredBytes(Flat(groups))
  {
    if files != [] {
      StoredAppend(groups[0], Flat(groups[1..]));
      FilesAreLines(files[1..], groups[1..]);
    }
  }
}
