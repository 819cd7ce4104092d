/** What each operation of a connection does to its state, its interest bits and its outgoing
    bytes (muduox/net/tcp/TcpConnection.cpp), and the FIFO the bytes form. The class in
    TcpConnection.dfy and the server-wide step relation in Lifecycle.dfy both follow these
    functions. */
module ConnectionStream {
  import opened Prelude
  import opened EpollModel

  datatype State = Connecting | Connected | Disconnecting | Disconnected

  datatype Conn = Conn(
    state: State,
    interest: Interest,       // the channel's events_
    out: seq<Byte>,           // readable bytes of outputBuffer_
    wire: seq<Byte>,          // history: every byte that send() took
    admitted: seq<Byte>,      // history: every payload past the state test, in order
    finAt: Option<nat>)       // history: |wire| at the first half-close

  /** What a call leaves for the loop's functor queue. */
  datatype Task = SendTask(data: seq<Byte>) | ShutdownTask | CloseTask

  function Buffered(c: Conn, data: seq<Byte>): Conn {
    c.(out := c.out + data, interest := c.interest.(writing := true))
  }

  /** n is what send() returned, if it was called: at most the length offered, negative on error. */
  function SendInLoop(c: Conn, data: seq<Byte>, n: int): Conn
    requires n <= |data|
  {
    if c.state != Connected then c
    else
      var a := c.(admitted := c.admitted + data);
      if c.interest.writing || c.out != [] || n < 0 then Buffered(a, data)
      else if n >= |data| then a.(wire := c.wire + data)
      else Buffered(a.(wire := c.wire + data[..n]), data[n..])
  }

  /** send(Buffer*) on the loop thread has no direct write and no test for an empty payload. */
  function SendBufferInLoop(c: Conn, data: seq<Byte>): Conn {
    if c.state != Connected then c else Buffered(c.(admitted := c.admitted + data), data)
  }

  function HalfClose(c: Conn): Conn {
    if c.finAt.None? then c.(finAt := Some(|c.wire|)) else c
  }

  function ShutdownInLoop(c: Conn): Conn {
    if c.interest.writing then c else HalfClose(c)
  }

  function Closed(c: Conn): Conn { c.(state := Disconnected) }

  datatype WriteOutcome = NotWriting | Partial | Drained | SendFailed

  /** handleWrite up to the write-complete callback. */
  function WriteSome(c: Conn, n: int): (Conn, WriteOutcome)
    requires n <= |c.out|
  {
    if !c.interest.writing then (c, NotWriting)
    else if n <= 0 then (c, SendFailed)
    else
      var d := c.(wire := c.wire + c.out[..n], out := c.out[n..]);
      if d.out != [] then (d, Partial) else (d.(interest := d.interest.(writing := false)), Drained)
  }

  /** handleWrite after the write-complete callback. */
  function FinishWrite(c: Conn): Conn {
    if c.state == Disconnecting then HalfClose(c) else c
  }

  // ---- the public calls; inLoop says whether the caller is the connection's own loop thread ----

  function Send(c: Conn, inLoop: bool, data: seq<Byte>, n: int): (Conn, Option<Task>)
    requires n <= |data|
  {
    if c.state != Connected then (c, None)
    else if inLoop then (SendInLoop(c, data, n), None)
    else (c, Some(SendTask(data)))
  }

  function SendBuffer(c: Conn, inLoop: bool, data: seq<Byte>): (Conn, Option<Task>) {
    if c.state != Connected then (c, None)
    else if inLoop then (SendBufferInLoop(c, data), None)
    else (c, Some(SendTask(data)))
  }

  function Shutdown(c: Conn, inLoop: bool): (Conn, Option<Task>) {
    if c.state != Connected then (c, None)
    else
      var d := c.(state := Disconnecting);
      if inLoop then (ShutdownInLoop(d), None) else (d, Some(ShutdownTask))
  }

  /** forceClose always queues, even on the loop thread. */
  function ForceClose(c: Conn): (Conn, Option<Task>) {
    if c.state == Connected || c.state == Disconnecting then (c.(state := Disconnecting), Some(CloseTask))
    else (c, None)
  }

  function RunTask(c: Conn, task: Task, n: int): Conn
    requires task.SendTask? ==> n <= |task.data|
  {
    match task
    case SendTask(data) => SendInLoop(c, data, n)
    case ShutdownTask => ShutdownInLoop(c)
    case CloseTask => Closed(c)
  }

  // ---- the stream invariant ----

  /** Wire and buffer are the two ends of one FIFO of admitted bytes, and buffered bytes are
      always waiting for a write event. */
  ghost predicate Stream(c: Conn) {
    && c.wire + c.out == c.admitted
    && (c.out != [] ==> c.interest.writing)
  }

  /** Nothing is lost, nothing is on the wire twice and the half-close is the last thing. */
  ghost predicate CleanFin(c: Conn) {
    c.finAt.Some? ==>
      && c.state in {Disconnecting, Disconnected}
      && c.out == [] && |c.wire| == c.finAt.value && c.wire == c.admitted
  }

  /** What the FIFO allows in one step: bytes are only added, at the ends. */
  ghost predicate Grows(c: Conn, d: Conn) {
    c.wire <= d.wire && c.admitted <= d.admitted && (c.finAt.Some? ==> d.finAt == c.finAt)
  }

  lemma SendInLoopKeeps(c: Conn, data: seq<Byte>, n: int)
    requires n <= |data| && Stream(c)
    ensures var d := SendInLoop(c, data, n);
      && Stream(d) && Grows(c, d) && d.state == c.state && d.finAt == c.finAt
      && d.admitted == c.admitted + (if c.state == Connected then data else [])
      && (CleanFin(c) ==> CleanFin(d))
      // The fast path writes only when nothing is buffered.
      && (d.wire != c.wire ==> c.out == [])
      && (data != [] && (c.out == [] <==> !c.interest.writing) ==> (d.out == [] <==> !d.interest.writing))
  {
  }

  lemma SendBufferInLoopKeeps(c: Conn, data: seq<Byte>)
    requires Stream(c)
    ensures var d := SendBufferInLoop(c, data);
      && Stream(d) && Grows(c, d) && d.state == c.state && d.finAt == c.finAt && d.wire == c.wire
      && d.admitted == c.admitted + (if c.state == Connected then data else [])
      && (CleanFin(c) ==> CleanFin(d))
      && (data != [] && (c.out == [] <==> !c.interest.writing) ==> (d.out == [] <==> !d.interest.writing))
  {
  }

  lemma WriteSomeKeeps(c: Conn, n: int)
    requires n <= |c.out| && Stream(c)
    ensures var (d, o) := WriteSome(c, n);
      && Stream(d) && Grows(c, d) && d.state == c.state && d.finAt == c.finAt && d.admitted == c.admitted
      && (CleanFin(c) ==> CleanFin(d))
      && (o.Drained? ==> d.out == [] && !d.interest.writing && d.wire == d.admitted)
      && ((c.out == [] <==> !c.interest.writing) ==> (d.out == [] <==> !d.interest.writing))
  {
  }

  // ---- what the public calls leave to the loop ----

  /** A send by another thread queues exactly its payload and changes nothing; one on the loop's
      thread queues nothing and is accepted whole; on a connection that is not connected neither
      does anything. */
  lemma SendsExactly(c: Conn, inLoop: bool, data: seq<Byte>, n: int)
    requires n <= |data| && Stream(c)
    ensures forall r: (Conn, Option<Task>) | r in {Send(c, inLoop, data, n), SendBuffer(c, inLoop, data)} ::
      && (r.1 == if c.state == Connected && !inLoop then Some(SendTask(data)) else None)
      && (c.state != Connected || !inLoop ==> r.0 == c)
      && (c.state == Connected && inLoop ==>
            && r.0.admitted == c.admitted + data && r.0.wire + r.0.out == r.0.admitted && c.wire <= r.0.wire
            && r.0.state == Connected && r.0.finAt == c.finAt && r.0.interest.reading == c.interest.reading)
  {
    SendInLoopKeeps(c, data, n);
    SendBufferInLoopKeeps(c, data);
  }

  /** shutdown takes a connected connection to kDisconnecting and half-closes at once on the loop's
      thread unless bytes are awaited, or queues that; forceClose takes a connection that is not closed
      there and always queues the close. Neither moves a byte. */
  lemma StopsExactly(c: Conn, inLoop: bool)
    ensures var (d, task) := Shutdown(c, inLoop);
      && (task == if c.state == Connected && !inLoop then Some(ShutdownTask) else None)
      && (d.state == if c.state == Connected then Disconnecting else c.state)
      && (d.finAt == if c.state == Connected && inLoop && !c.interest.writing && c.finAt.None? then Some(|c.wire|)
                     else c.finAt)
      && d.out == c.out && d.wire == c.wire && d.admitted == c.admitted && d.interest == c.interest
    ensures var (d, task) := ForceClose(c);
      && (task == if c.state in {Connected, Disconnecting} then Some(CloseTask) else None)
      && (d.state == if c.state in {Connected, Disconnecting} then Disconnecting else c.state)
      && d.finAt == c.finAt
      && d.out == c.out && d.wire == c.wire && d.admitted == c.admitted && d.interest == c.interest
  {
  }

  // ---- when the half-close of a write event is clean ----

  /** A call that takes effect on the connection while its write-complete callback runs: one that
      the callback makes, with what its send() returned, or a shutdown or forceClose by any other
      thread, which changes the state at once. Other threads' sends only queue. The calls of nested
      callbacks are in the list too: nothing happens after a callback of sendInLoop. */
  datatype Call =
    | CallSend(data: seq<Byte>, n: int)
    | CallSendBuffer(data: seq<Byte>)
    | CallShutdown(inLoop: bool)
    | CallForceClose
  {
    predicate Legal() { CallSend? ==> n <= |data| }

    predicate Stops() { CallShutdown? || CallForceClose? }
  }

  function RunCall(c: Conn, call: Call): Conn
    requires call.Legal()
  {
    match call
    case CallSend(data, n) => Send(c, true, data, n).0
    case CallSendBuffer(data) => SendBuffer(c, true, data).0
    case CallShutdown(inLoop) => Shutdown(c, inLoop).0
    case CallForceClose => ForceClose(c).0
  }

  function RunCalls(c: Conn, calls: seq<Call>): Conn
    requires forall call <- calls :: call.Legal()
    decreases |calls|
  {
    if calls == [] then c else RunCalls(RunCall(c, calls[0]), calls[1..])
  }

  /** A whole handleWrite, with the calls between its two halves. */
  function HandleWrite(c: Conn, n: int, calls: seq<Call>): (Conn, WriteOutcome)
    requires n <= |c.out| && forall call <- calls :: call.Legal()
  {
    var (d, o) := WriteSome(c, n);
    match o
    case Drained => (FinishWrite(RunCalls(d, calls)), o)
    case SendFailed => (Closed(d), o)
    case _ => (d, o)
  }

  /** What a write event does, by what send() returned: nothing without write interest; a failure
      closes the connection however many bytes wait; otherwise the bytes sent leave the front of the
      buffer, and write interest goes exactly when it is empty. */
  lemma WriteEventExactly(c: Conn, n: int, calls: seq<Call>)
    requires n <= |c.out| && forall call <- calls :: call.Legal()
    ensures var (d, o) := WriteSome(c, n);
      && (o.NotWriting? <==> !c.interest.writing)
      && (o.SendFailed? <==> c.interest.writing && n <= 0)
      && (o.Partial? <==> c.interest.writing && 0 < n < |c.out|)
      && (o.Drained? <==> c.interest.writing && 0 < n == |c.out|)
      && (o.NotWriting? ==> HandleWrite(c, n, calls) == (c, o))
      && (o.SendFailed? ==> HandleWrite(c, n, calls) == (c.(state := Disconnected), o))
      && (o.Partial? || o.Drained? ==>
            && d.out == c.out[n..] && d.wire == c.wire + c.out[..n] && d.admitted == c.admitted
            && d.state == c.state && d.finAt == c.finAt && d.interest.reading == c.interest.reading
            && (d.interest.writing <==> o.Partial?))
      && (o.Partial? ==> HandleWrite(c, n, calls) == (d, o))
  {
  }

  /** The calls before the first shutdown or forceClose; none when there is no such call. */
  function BeforeStop(calls: seq<Call>): Option<seq<Call>> {
    if calls == [] then None
    else if calls[0].Stops() then Some([])
    else match BeforeStop(calls[1..])
      case None => None
      case Some(rest) => Some([calls[0]] + rest)
  }

  /** Some send leaves bytes in the buffer; writing says whether write interest is on already. */
  predicate LeavesBytes(calls: seq<Call>, writing: bool) {
    calls != [] &&
    match calls[0]
    case CallSend(data, n) =>
      if writing || n < 0 then data != [] || LeavesBytes(calls[1..], true)
      else n < |data| || LeavesBytes(calls[1..], false)
    case CallSendBuffer(data) => data != [] || LeavesBytes(calls[1..], true)
    case _ => LeavesBytes(calls[1..], writing)
  }

  /** The connection is stopped, by any thread, after a send of the callback that was not written out. */
  predicate StopsWithBytes(calls: seq<Call>) {
    var before := BeforeStop(calls);
    before.Some? && LeavesBytes(before.value, false)
  }

  lemma {:induction false} CallsAfterStop(c: Conn, calls: seq<Call>)
    requires forall call <- calls :: call.Legal()
    requires c.state == Disconnecting
    ensures RunCalls(c, calls) == c
    decreases |calls|
  {
    if calls != [] {
      assert calls[0] in calls;
      CallsAfterStop(c, calls[1..]);
    }
  }

  lemma {:induction false} OnceLeftStays(c: Conn, calls: seq<Call>)
    requires forall call <- calls :: call.Legal()
    requires c.out != [] && c.interest.writing
    ensures var d := RunCalls(c, calls); d.out != [] && d.interest.writing
    ensures c.state == Connected ==>
      (RunCalls(c, calls).state == Disconnecting <==> BeforeStop(calls).Some?)
    ensures c.state == Connected ==> RunCalls(c, calls).state in {Connected, Disconnecting}
    decreases |calls|
  {
    if calls != [] {
      assert calls[0] in calls;
      var d := RunCall(c, calls[0]);
      if d.state == Disconnecting {
        CallsAfterStop(d, calls[1..]);
      } else {
        OnceLeftStays(d, calls[1..]);
      }
    }
  }

  lemma {:induction false} CallsExactly(c: Conn, calls: seq<Call>)
    requires forall call <- calls :: call.Legal()
    requires c.state == Connected && c.out == []
    ensures var d := RunCalls(c, calls);
      && (d.state == Disconnecting <==> BeforeStop(calls).Some?)
      && d.state in {Connected, Disconnecting}
      && (BeforeStop(calls).Some? ==>
            (d.out != [] <==> LeavesBytes(BeforeStop(calls).value, c.interest.writing)))
    decreases |calls|
  {
    if calls != [] {
      var call, rest := calls[0], calls[1..];
      assert call in calls;
      var d := RunCall(c, call);
      if call.Stops() {
        CallsAfterStop(d, rest);
      } else {
        if d.out == [] {
          CallsExactly(d, rest);
        } else {
          OnceLeftStays(d, rest);
        }
        if BeforeStop(rest).Some? {
          assert ([call] + BeforeStop(rest).value)[1..] == BeforeStop(rest).value;
        }
      }
    }
  }

  /** handleWrite half-closes with unsent bytes exactly when the buffer drains, the connection is
      still connected, and while its write-complete callback runs a send of the callback is not
      written out and then the callback or any other thread stops the connection. */
  lemma HalfCloseLosesBytesExactly(c: Conn, n: int, calls: seq<Call>)
    requires n <= |c.out| && forall call <- calls :: call.Legal()
    requires Stream(c) && c.finAt.None?
    ensures var (d, o) := HandleWrite(c, n, calls);
      d.finAt.Some? && d.out != [] <==>
      0 < n == |c.out| && c.state == Connected && StopsWithBytes(calls)
  {
    WriteSomeKeeps(c, n);
    var (d, o) := WriteSome(c, n);
    if o.Drained? {
      if c.state == Connected {
        FinSetsOnlyWhenStopped(d, calls);
        CallsExactly(d, calls);
      } else if c.state == Disconnecting {
        CallsAfterStop(d, calls);
      } else {
        CallsIgnored(d, calls);
      }
    }
  }

  lemma {:induction false} FinSetsOnlyWhenStopped(c: Conn, calls: seq<Call>)
    requires forall call <- calls :: call.Legal()
    requires c.finAt.None? && c.state == Connected
    ensures var d := RunCalls(c, calls); d.finAt.Some? ==> d.state == Disconnecting
    decreases |calls|
  {
    if calls != [] {
      assert calls[0] in calls;
      var d := RunCall(c, calls[0]);
      if d.state == Disconnecting {
        CallsAfterStop(d, calls[1..]);
      } else {
        FinSetsOnlyWhenStopped(d, calls[1..]);
      }
    }
  }

  lemma {:induction false} CallsIgnored(c: Conn, calls: seq<Call>)
    requires forall call <- calls :: call.Legal()
    requires c.state in {Connecting, Disconnected}
    ensures RunCalls(c, calls) == c
    decreases |calls|
  {
    if calls != [] {
      assert calls[0] in calls;
      CallsIgnored(c, calls[1..]);
    }
  }

  /** The loss does happen: one byte of two is written, the callback's reply is half written and
      the shutdown that follows it, by whichever thread, lets handleWrite half-close. */
  lemma HalfCloseCanLoseBytes(inLoop: bool)
    ensures var calls := [CallSend([1, 2], 1), CallShutdown(inLoop)];
      var c := Conn(Connected, Interest(true, true), [7], [], [7], None);
      var d := HandleWrite(c, 1, calls).0;
      && Stream(c) && d.wire == [7, 1] && d.out == [2] && d.finAt == Some(2) && d.interest.writing
  {
    var calls := [CallSend([1, 2], 1), CallShutdown(inLoop)];
    var d := WriteSome(Conn(Connected, Interest(true, true), [7], [], [7], None), 1).0;
    var e := RunCall(d, calls[0]);
    assert e.wire == [7, 1] && e.out == [2] && e.state == Connected;
    var f := RunCall(e, calls[1]);
    assert calls[1..] == [calls[1]] && calls[1..][1..] == [];
    assert RunCalls(f, []) == f && RunCalls(e, [calls[1]]) == f && RunCalls(d, calls) == f;
  }

  /** Write interest is on exactly when bytes wait. */
  ghost predicate Tight(c: Conn) { c.interest.writing <==> c.out != [] }

  /** On a connected, tight connection exactly these sends leave write interest on an empty buffer:
      an empty Buffer, or an empty message whose direct write failed. */
  lemma TightExactly(c: Conn, data: seq<Byte>, n: int)
    requires n <= |data| && Tight(c) && c.state == Connected
    ensures Tight(SendBufferInLoop(c, data)) <==> data != [] || c.out != []
    ensures Tight(SendInLoop(c, data, n)) <==> data != [] || c.out != [] || n >= 0
  {
  }

  /** ... and a write event that comes before anything else is buffered closes the connection,
      whatever send() returns. */
  lemma EmptySendCloses(c: Conn, failed: int, n: int, calls: seq<Call>)
    requires c.state == Connected && c.out == [] && failed < 0
    requires n <= 0 && forall call <- calls :: call.Legal()
    ensures var d := SendBufferInLoop(c, []);
      n <= |d.out| && HandleWrite(d, n, calls) == (Closed(d), SendFailed)
    ensures var d := SendInLoop(c, [], failed);
      n <= |d.out| && HandleWrite(d, n, calls) == (Closed(d), SendFailed)
  {
  }
}
