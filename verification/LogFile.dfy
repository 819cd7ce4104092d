/** The log file object (muduox/base/logging/LogFile.cpp). */
module LogFileModel {
  import opened Prelude
  import opened Spec = LogRolling

  class LogFile {
    const rollSize: int
    const flushInterval: int
    const checkEveryN: int
    var count: int
    var startOfPeriod: int
    var lastRoll: int
    var lastFlush: int
    var isOpen: bool
    var writtenBytes: int
    var files: seq<seq<Byte>>   // the disk
    ghost var rollTimes: seq<int>

    ghost function View(): Log
      reads this
    {
      Log(rollSize, flushInterval, checkEveryN, count, startOfPeriod, lastRoll, lastFlush, isOpen,
          writtenBytes, files, rollTimes)
    }

    constructor (rollSize: int, flushInterval: int, checkEveryN: int, now: int, opens: bool)
      ensures View() == Open(rollSize, flushInterval, checkEveryN, now, opens)
    {
      this.rollSize, this.flushInterval, this.checkEveryN := rollSize, flushInterval, checkEveryN;
      count, startOfPeriod, lastRoll, lastFlush, isOpen, writtenBytes := 0, 0, 0, 0, false, 0;
      files, rollTimes := [], [];
      new;
      var rolled := RollFile(now, opens);
    }

    method RollFile(now: int, opens: bool) returns (rolled: bool)
      modifies this
      ensures View() == Spec.RollFile(old(View()), now, opens)
      ensures rolled <==> now > old(lastRoll) && opens
      ensures now <= old(lastRoll) ==> View() == old(View())
      ensures now > old(lastRoll) ==>
        lastRoll == lastFlush == now && startOfPeriod == PeriodStart(now) && isOpen == opens && count == old(count)
      ensures files == if rolled then old(files) + [[]] else old(files)
      ensures writtenBytes == if rolled then 0 else old(writtenBytes)
    {
      rolled := false;
      var start := PeriodStart(now);
      if now > lastRoll {
        lastRoll, lastFlush, startOfPeriod := now, now, start;
        isOpen := opens;
        if opens {
          files := files + [[]];
          rollTimes := rollTimes + [now];
          writtenBytes := 0;
          rolled := true;
        }
      }
    }

    method Append(data: seq<Byte>, a: Answers)
      requires (isOpen ==> files != []) && a.written <= |data|
      modifies this
      ensures View() == Spec.Append(old(View()), data, a)
    {
      if !isOpen {
        return;
      }
      files := files[|files| - 1 := files[|files| - 1] + data[..a.written]];
      writtenBytes := writtenBytes + a.written;
      if writtenBytes > rollSize && rollSize > 0 {
        var rolled := RollFile(a.roll, a.opens);
      } else {
        count := count + 1;
        if count >= checkEveryN {
          count := 0;
          var thisPeriod := PeriodStart(a.check);
          if thisPeriod != startOfPeriod {
            var rolled := RollFile(a.roll, a.opens);
          } else if a.check - lastFlush > flushInterval {
            lastFlush := a.check;
          }
        }
      }
    }
  }
}
