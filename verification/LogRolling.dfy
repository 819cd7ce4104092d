/** Size and day rolling of the log file (muduox/base/logging/LogFile.cpp). The clock, fopen and
    fwrite answer from outside; files are listed in the order they were opened. */
module LogRolling {
  import opened Prelude

  const SECONDS_PER_DAY: int := 60 * 60 * 24

  /** time_t division: towards zero. */
  function TruncDiv(a: int, b: int): int
    requires b > 0
  {
    if a >= 0 then a / b else -(-a / b)
  }

  function PeriodStart(now: int): int { TruncDiv(now, SECONDS_PER_DAY) * SECONDS_PER_DAY }

  lemma PeriodStartIsMonotone(a: int, b: int)
    requires a <= b
    ensures PeriodStart(a) <= PeriodStart(b)
  {
  }

  /** The start of a UTC day: a multiple of 24 hours, the last one not after a time since 1970. */
  lemma UtcDay(t: int)
    ensures PeriodStart(t) % 86400 == 0
    ensures t >= 0 ==> PeriodStart(t) <= t < PeriodStart(t) + 86400
    ensures t < 0 ==> t <= PeriodStart(t) < t + 86400
  {
  }

  datatype Log = Log(
    rollSize: int, flushInterval: int, checkEveryN: int,
    count: int, startOfPeriod: int, lastRoll: int, lastFlush: int,
    isOpen: bool,               // fp_ is not null
    writtenBytes: int,
    files: seq<seq<Byte>>,      // contents of the files opened so far
    rollTimes: seq<int>)        // history: the clock at each of those openings

  /** The answers one call gets: time() for the day check, time() in rollFile, whether fopen
      succeeds and how much fwrite takes. */
  datatype Answers = Answers(check: int, roll: int, opens: bool, written: nat)

  function RollFile(f: Log, now: int, opens: bool): Log {
    if now <= f.lastRoll then f
    else
      var g := f.(lastRoll := now, lastFlush := now, startOfPeriod := PeriodStart(now));
      if opens then
        g.(isOpen := true, writtenBytes := 0, files := g.files + [[]], rollTimes := g.rollTimes + [now])
      else g.(isOpen := false)
  }

  function Open(rollSize: int, flushInterval: int, checkEveryN: int, now: int, opens: bool): Log {
    RollFile(Log(rollSize, flushInterval, checkEveryN, 0, 0, 0, 0, false, 0, [], []), now, opens)
  }

  function Write(f: Log, data: seq<Byte>): Log
    requires f.files != []
  {
    var k := |f.files| - 1;
    f.(files := f.files[k := f.files[k] + data], writtenBytes := f.writtenBytes + |data|)
  }

  /** append_unlocked after the write. */
  function AfterWrite(g: Log, a: Answers): Log {
    if g.writtenBytes > g.rollSize && g.rollSize > 0 then RollFile(g, a.roll, a.opens)
    else if g.count + 1 < g.checkEveryN then g.(count := g.count + 1)
    else
      var h := g.(count := 0);
      if PeriodStart(a.check) != h.startOfPeriod then RollFile(h, a.roll, a.opens)
      else if a.check - h.lastFlush > h.flushInterval then h.(lastFlush := a.check)
      else h
  }

  /** append_unlocked. */
  function Append(f: Log, data: seq<Byte>, a: Answers): Log
    requires (f.isOpen ==> f.files != []) && a.written <= |data|
  {
    if !f.isOpen then f
    else AfterWrite(Write(f, data[..a.written]), a)
  }

  /** Files are opened at strictly increasing times and the period is always the UTC day of the
      last roll. */
  ghost predicate Valid(f: Log) {
    && (f.isOpen ==> f.files != [])
    && |f.rollTimes| == |f.files|
    && (forall i, j | 0 <= i < j < |f.rollTimes| :: f.rollTimes[i] < f.rollTimes[j])
    && (forall t <- f.rollTimes :: 0 < t <= f.lastRoll)
    && (f.isOpen ==> f.rollTimes[|f.rollTimes| - 1] == f.lastRoll)
    && (f.isOpen ==> f.writtenBytes == |f.files[|f.files| - 1]|)
    && f.startOfPeriod == PeriodStart(f.lastRoll)
    && 0 <= f.lastRoll
    && 0 <= f.count && (f.count < Max(1, f.checkEveryN))
  }

  lemma OpenIsValid(rollSize: int, flushInterval: int, checkEveryN: int, now: int, opens: bool)
    ensures var f := Open(rollSize, flushInterval, checkEveryN, now, opens);
      && Valid(f) && (f.isOpen <==> now > 0 && opens) && Concat(f.files) == []
      && f.lastRoll == f.lastFlush == (if now > 0 then now else 0) && f.count == 0
      && f.files == (if f.isOpen then [[]] else [])
      && f.rollSize == rollSize && f.flushInterval == flushInterval && f.checkEveryN == checkEveryN
  {
  }

  lemma RollKeeps(f: Log, now: int, opens: bool)
    requires Valid(f)
    ensures Valid(RollFile(f, now, opens)) && Concat(RollFile(f, now, opens).files) == Concat(f.files)
  {
    assert forall i | 0 <= i < |f.rollTimes| :: f.rollTimes[i] in f.rollTimes;
    if now > f.lastRoll && opens {
      ConcatAppend(f.files, [[]]);
      var one: seq<seq<Byte>> := [[]];
      assert Concat(one) == one[0] + Concat(one[1..]);
    }
  }

  lemma WriteAppends(f: Log, data: seq<Byte>)
    requires f.files != []
    ensures Concat(Write(f, data).files) == Concat(f.files) + data
  {
    var k := |f.files| - 1;
    var last := f.files[k] + data;
    assert f.files == f.files[..k] + [f.files[k]];
    assert Write(f, data).files == f.files[..k] + [last];
    ConcatAppend(f.files[..k], [f.files[k]]);
    ConcatAppend(f.files[..k], [last]);
    assert [last][1..] == [] && [f.files[k]][1..] == [];
  }

  /** At most one file is added, after the current one. */
  ghost predicate Extends(f: Log, g: Log) {
    f.files <= g.files && |g.files| <= |f.files| + 1 && (|g.files| > |f.files| ==> g.files[|f.files|] == [])
  }

  lemma RollExtends(f: Log, now: int, opens: bool)
    ensures Extends(f, RollFile(f, now, opens))
    ensures f.isOpen ==> (RollFile(f, now, opens).isOpen <==> opens || RollFile(f, now, opens).lastRoll == f.lastRoll)
  {
  }

  lemma CounterKeeps(f: Log, count: int, lastFlush: int)
    requires Valid(f)
    ensures var g := f.(count := count, lastFlush := lastFlush);
      Extends(f, g) && (count in {0, f.count + 1} && count < Max(1, f.checkEveryN) ==> Valid(g))
  {
  }

  lemma AfterWriteKeeps(f: Log, a: Answers)
    requires Valid(f) && f.isOpen
    ensures var g := AfterWrite(f, a);
      && Valid(g) && Concat(g.files) == Concat(f.files) && Extends(f, g)
      && (g.isOpen <==> a.opens || g.lastRoll == f.lastRoll)
  {
    hide RollFile, Concat, Valid, PeriodStart;
    if f.writtenBytes > f.rollSize && f.rollSize > 0 {
      RollKeeps(f, a.roll, a.opens);
      RollExtends(f, a.roll, a.opens);
    } else if f.count + 1 < f.checkEveryN {
      CounterKeeps(f, f.count + 1, f.lastFlush);
    } else {
      var h := f.(count := 0);
      CounterKeeps(f, 0, f.lastFlush);
      CounterKeeps(f, 0, a.check);
      RollKeeps(h, a.roll, a.opens);
      RollExtends(h, a.roll, a.opens);
    }
  }

  /** An open log keeps exactly what fwrite took, at the end of the current file; a closed one
      keeps nothing. The log is open afterwards exactly if it was and did not roll to a file that
      fopen refused. */
  lemma AppendKeeps(f: Log, data: seq<Byte>, a: Answers)
    requires Valid(f) && a.written <= |data|
    ensures var g := Append(f, data, a);
      && Valid(g)
      && Concat(g.files) == Concat(f.files) + (if f.isOpen then data[..a.written] else [])
      && (g.isOpen <==> f.isOpen && (a.opens || g.lastRoll == f.lastRoll))
      && (f.isOpen ==> Extends(Write(f, data[..a.written]), g))
  {
    if f.isOpen {
      WriteAppends(f, data[..a.written]);
      AfterWriteKeeps(Write(f, data[..a.written]), a);
    }
  }

  /** The current file is too large with this many more bytes. */
  predicate TooLarge(f: Log, written: nat)
    requires f.files != []
  {
    f.rollSize > 0 && |f.files[|f.files| - 1]| + written > f.rollSize
  }

  /** When an append rolls: if the current file, this write included, exceeds a positive roll size, or
      else if it is the checkEveryN-th append since the last check and the check falls on another day
      than the last roll; and in both cases only if the clock is past the last roll. A check that does
      not roll flushes after the flush interval. */
  lemma AppendRollsExactly(f: Log, data: seq<Byte>, a: Answers)
    requires Valid(f) && f.isOpen && a.written <= |data|
    ensures var g := Append(f, data, a);
      var checks := !TooLarge(f, a.written) && f.count + 1 >= f.checkEveryN;
      var otherDay := PeriodStart(a.check) != PeriodStart(f.lastRoll);
      var rolls := (TooLarge(f, a.written) || (checks && otherDay)) && a.roll > f.lastRoll;
      && (g.lastRoll == if rolls then a.roll else f.lastRoll)
      && (|g.files| == if rolls && a.opens then |f.files| + 1 else |f.files|)
      && (g.count == if TooLarge(f, a.written) then f.count else if checks then 0 else f.count + 1)
      && (g.lastFlush ==
            if rolls then a.roll
            else if checks && !otherDay && a.check - f.lastFlush > f.flushInterval then a.check
            else f.lastFlush)
  {
    hide PeriodStart, Concat;
  }

  /** A log whose fopen failed stays closed: every later line is dropped. */
  lemma {:induction false} ClosedForGood(f: Log, lines: seq<(seq<Byte>, Answers)>)
    requires Valid(f) && !f.isOpen && forall l <- lines :: l.1.written <= |l.0|
    ensures IsLogRun(f, lines) && AfterLines(f, lines) == f
  {
    if lines != [] {
      assert lines[0] in lines;
      ClosedForGood(f, lines[1..]);
    }
  }

  predicate IsLogRun(f: Log, lines: seq<(seq<Byte>, Answers)>)
    decreases |lines|
  {
    (f.isOpen ==> f.files != []) &&
    (lines == [] || (lines[0].1.written <= |lines[0].0| && IsLogRun(Append(f, lines[0].0, lines[0].1), lines[1..])))
  }

  function AfterLines(f: Log, lines: seq<(seq<Byte>, Answers)>): Log
    requires IsLogRun(f, lines)
    decreases |lines|
  {
    if lines == [] then f else AfterLines(Append(f, lines[0].0, lines[0].1), lines[1..])
  }

  /** Whenever the log rolls, fopen succeeds. */
  predicate RollsOpen(f: Log, lines: seq<(seq<Byte>, Answers)>)
    requires IsLogRun(f, lines)
    decreases |lines|
  {
    lines == [] ||
    var g := Append(f, lines[0].0, lines[0].1);
    (g.lastRoll == f.lastRoll || lines[0].1.opens) && RollsOpen(g, lines[1..])
  }

  /** A log is open after any appends exactly if it was before and every roll found fopen
      succeeding; with ClosedForGood, one refused fopen drops all that follows. */
  lemma {:induction false} OpenAtEndExactly(f: Log, lines: seq<(seq<Byte>, Answers)>)
    requires Valid(f) && forall l <- lines :: l.1.written <= |l.0|
    ensures IsLogRun(f, lines)
    ensures Valid(AfterLines(f, lines)) && (AfterLines(f, lines).isOpen <==> f.isOpen && RollsOpen(f, lines))
    decreases |lines|
  {
    if lines != [] {
      assert lines[0] in lines;
      AppendKeeps(f, lines[0].0, lines[0].1);
      OpenAtEndExactly(Append(f, lines[0].0, lines[0].1), lines[1..]);
      hide Append, Valid, Extends;
    }
  }

  // ---- how late a day roll can be ----

  /** An append that begins at a time and gets its answers then or later. */
  datatype Timed = Timed(begin: int, data: seq<Byte>, a: Answers)

  /** The clock never goes back: not within an append, nor from one to the next. */
  predicate Monotone(t: int, ops: seq<Timed>)
    decreases |ops|
  {
    ops == [] ||
    (t <= ops[0].begin <= ops[0].a.check <= ops[0].a.roll && ops[0].a.written <= |ops[0].data| &&
     Monotone(ops[0].a.roll, ops[1..]))
  }

  /** How many appends land in file k although they began on a later day than it was opened. */
  function LateLandings(f: Log, ops: seq<Timed>, k: nat): nat
    requires Valid(f) && exists t :: Monotone(t, ops)
    decreases |ops|
  {
    if ops == [] then 0
    else
      AppendKeeps(f, ops[0].data, ops[0].a);
      assert Monotone(ops[0].a.roll, ops[1..]);
      (if f.isOpen && |f.files| - 1 == k && PeriodStart(ops[0].begin) > PeriodStart(f.rollTimes[k]) then 1 else 0) +
      LateLandings(Append(f, ops[0].data, ops[0].a), ops[1..], k)
  }

  /** Once a file is closed nothing lands in it. */
  lemma {:induction false} ClosedFileGetsNothing(f: Log, t: int, ops: seq<Timed>, k: nat)
    requires Valid(f) && Monotone(t, ops) && (k + 1 < |f.files| || !f.isOpen)
    ensures LateLandings(f, ops, k) == 0
    decreases |ops|
  {
    if ops != [] {
      AppendKeeps(f, ops[0].data, ops[0].a);
      ClosedFileGetsNothing(Append(f, ops[0].data, ops[0].a), ops[0].a.roll, ops[1..], k);
    }
  }

  /** A late append rolls the file, unless it is one of the few before the next day check. */
  lemma LateAppend(f: Log, op: Timed)
    requires Valid(f) && f.isOpen && op.begin <= op.a.check <= op.a.roll && op.a.written <= |op.data|
    requires PeriodStart(op.begin) > PeriodStart(f.lastRoll)
    ensures var g := Append(f, op.data, op.a);
      |g.files| > |f.files| || !g.isOpen ||
      (g.lastRoll == f.lastRoll && g.count == f.count + 1 && g.checkEveryN == f.checkEveryN)
  {
  }

  lemma {:induction false} LateRun(f: Log, t: int, ops: seq<Timed>)
    requires Valid(f) && f.isOpen && Monotone(t, ops)
    requires PeriodStart(t) > PeriodStart(f.lastRoll)
    ensures LateLandings(f, ops, |f.files| - 1) <= Max(1, f.checkEveryN) - f.count
    decreases |ops|
  {
    if ops != [] {
      var op := ops[0];
      var g := Append(f, op.data, op.a);
      AppendKeeps(f, op.data, op.a);
      PeriodStartIsMonotone(t, op.begin);
      LateAppend(f, op);
      if |g.files| > |f.files| || !g.isOpen {
        ClosedFileGetsNothing(g, op.a.roll, ops[1..], |f.files| - 1);
      } else {
        PeriodStartIsMonotone(t, op.a.roll);
        LateRun(g, op.a.roll, ops[1..]);
      }
    }
  }

  lemma {:induction false} CurrentFileLag(f: Log, t: int, ops: seq<Timed>)
    requires Valid(f) && f.isOpen && Monotone(t, ops)
    ensures LateLandings(f, ops, |f.files| - 1) <= Max(1, f.checkEveryN)
    decreases |ops|
  {
    if ops != [] {
      var op := ops[0];
      if PeriodStart(op.begin) > PeriodStart(f.lastRoll) {
        LateRun(f, op.begin, ops);
      } else {
        var g := Append(f, op.data, op.a);
        AppendKeeps(f, op.data, op.a);
        if |g.files| > |f.files| || !g.isOpen {
          ClosedFileGetsNothing(g, op.a.roll, ops[1..], |f.files| - 1);
        } else {
          CurrentFileLag(g, op.a.roll, ops[1..]);
        }
      }
    }
  }

  /** With a clock that never goes back, at most checkEveryN appends begun on a later day land in
      any one file, whatever mix of size rolls, day checks and failing opens there is. */
  lemma {:induction false} DayRollLag(f: Log, t: int, ops: seq<Timed>, k: nat)
    requires Valid(f) && Monotone(t, ops)
    requires f.isOpen ==> k + 1 >= |f.files|
    ensures LateLandings(f, ops, k) <= Max(1, f.checkEveryN)
    decreases |ops|
  {
    if !f.isOpen {
      ClosedFileGetsNothing(f, t, ops, k);
    } else if k + 1 == |f.files| {
      CurrentFileLag(f, t, ops);
    } else if ops != [] {
      var g := Append(f, ops[0].data, ops[0].a);
      AppendKeeps(f, ops[0].data, ops[0].a);
      DayRollLag(g, ops[0].a.roll, ops[1..], k);
    }
  }
}
