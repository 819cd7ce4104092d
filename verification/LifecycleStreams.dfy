/** The outgoing streams over whole runs of the server: order and conservation, clean half-close,
    and the end of a deferred shutdown. */
module LifecycleStreams {
  import opened Prelude
  import opened ConnectionStream
  import opened Lifecycle
  import opened LifecycleInvariant
  import opened LifecycleTheorems

  // ---- order and conservation ----

  /** The payload a step makes connection c accept. */
  function Payload(s: Server, e: Event, c: Id): seq<Byte>
    requires Enabled(s, e)
  {
    if c !in s.objects || s.objects[c].conn.state != Connected then []
    else
      match e
      case UserSend(t, d, data, n) => if d == c && Inside(s, t, c) then data else []
      case UserSendBuffer(t, d, data) => if d == c && Inside(s, t, c) then data else []
      case RunNext(l, n) =>
        var f := s.loops[l].batch[0];
        if f.Run? && f.c == c && f.task.SendTask? then f.task.data else []
      case _ => []
  }

  /** All payloads connection c accepts in a run, in order. */
  function Ledger(s: Server, es: seq<Event>, c: Id): seq<Byte>
    requires IsRun(s, es)
    decreases |es|
  {
    if es == [] then [] else Payload(s, es[0], c) + Ledger(Step(s, es[0]), es[1..], c)
  }

  function AdmittedAtStart(s: Server, c: Id): seq<Byte> {
    if c in s.objects then s.objects[c].conn.admitted else []
  }

  lemma StepAdmits(s: Server, e: Event, c: Id)
    requires Enabled(s, e) && c in s.objects
    ensures c in Step(s, e).objects
    ensures Step(s, e).objects[c].conn.admitted == s.objects[c].conn.admitted + Payload(s, e, c)
  {
    StepConns(s, e, c);
    hide Step;
  }

  lemma AcceptAdmits(s: Server, e: Event, c: Id)
    requires Enabled(s, e) && c !in s.objects && c in Step(s, e).objects
    ensures e.Accept? && e.c == c && Step(s, e).objects[c].conn.admitted == []
    ensures Step(s, e).objects[c].conn.finAt == None && Step(s, e).objects[c].conn.out == []
    ensures !Step(s, e).objects[c].conn.interest.writing
  {
    StepLoops(s, e, 0);
    if e.Accept? && e.l == 0 {
      EstablishedConns(Inserted(s, e.c, e.fd, e.l), 0, e.c);
    }
  }

  lemma {:induction false} RunAdmits(s: Server, es: seq<Event>, c: Id)
    requires IsRun(s, es)
    ensures c in s.objects ==> c in After(s, es).objects
    ensures c in After(s, es).objects ==>
      After(s, es).objects[c].conn.admitted == AdmittedAtStart(s, c) + Ledger(s, es, c)
    decreases |es|
  {
    if es != [] {
      var e := es[0];
      var t := Step(s, e);
      RunAdmits(t, es[1..], c);
      if c in s.objects {
        StepAdmits(s, e, c);
      } else if c in t.objects {
        AcceptAdmits(s, e, c);
      }
      hide Step, Payload, Enabled;
    }
  }

  /** In every run, the bytes on the wire followed by the bytes still buffered are all the accepted
      payloads in the order they were accepted: the direct write never overtakes buffered data. And
      buffered bytes of an open connection are waiting for a write event. */
  lemma DeliveredInOrder(threadNum: nat, es: seq<Event>, c: Id)
    requires IsRun(Init(threadNum), es) && c in After(Init(threadNum), es).objects
    ensures var o := After(Init(threadNum), es).objects[c];
      && o.conn.wire + o.conn.out == Ledger(Init(threadNum), es, c)
      && (o.open && o.conn.out != [] ==> o.conn.interest.writing)
  {
    var s := Init(threadNum);
    assert AdmittedAtStart(s, c) == [];
    hide Init, Inv, IsRun, After, Ledger;
    RunAdmits(s, es, c);
    InitHolds(threadNum);
    RunKeeps(s, es);
    OpenFacts(After(s, es), c);
  }

  // ---- the half-close ----

  /** No send on the connection whose write-complete callback is running by that callback's thread. */
  predicate Quiet(s: Server, e: Event) {
    (e.UserSend? || e.UserSendBuffer?) && e.t.OnLoop? && e.t.l < |s.loops| ==> InCallback(s, e.t.l) != Some(e.c)
  }

  predicate IsQuietRun(s: Server, es: seq<Event>)
    requires IsRun(s, es)
    decreases |es|
  {
    es == [] || (Quiet(s, es[0]) && IsQuietRun(Step(s, es[0]), es[1..]))
  }

  ghost predicate Clean(s: Server) {
    && (forall c <- s.objects :: CleanFin(s.objects[c].conn))
    && (forall l | 0 <= l < |s.loops| && InCallback(s, l).Some? ::
          InCallback(s, l).value in s.objects && s.objects[InCallback(s, l).value].conn.out == [])
  }

  /** What the invariant says of the next functor, for the connection it is about. */
  lemma HeadFacts(s: Server, l: nat, n: int, c: Id)
    requires Inv(s) && Enabled(s, RunNext(l, n)) && c in s.objects
    ensures var f, conn := s.loops[l].batch[0], s.objects[c].conn;
      && (f == Establish(c) ==> conn.state == Connecting && conn.out == [])
      && (f == Destroy(c) ==> conn.state == Disconnected)
      && (f.Run? && f.c == c ==> s.objects[c].loop == l && s.objects[c].open && ConnectionStream.Stream(conn))
      && (f.Run? && f.c == c && !f.task.SendTask? ==> conn.state in {Disconnecting, Disconnected})
    ensures InCallback(s, l) == None
  {
    LoopIsWf(s, l);
    var f := s.loops[l].batch[0];
    if !f.Other? && f.c == c && !f.Remove? {
      HeadIsPlaced(s, l);
      HeadTellsStage(c, SliceOf(s, c));
      assert f in SliceOf(s, c).pend;
    }
  }

  lemma CallbackFacts(s: Server, l: nat)
    requires Inv(s) && l < |s.loops| && InCallback(s, l).Some?
    ensures var c := InCallback(s, l).value; On(s, l, c) && s.loops[l].phase.Dispatching?
  {
    LoopIsWf(s, l);
  }

  lemma OpenFacts(s: Server, c: Id)
    requires Inv(s) && c in s.objects
    ensures s.objects[c].conn.wire + s.objects[c].conn.out == s.objects[c].conn.admitted
    ensures s.objects[c].open && s.objects[c].conn.out != [] ==> s.objects[c].conn.interest.writing
    ensures s.objects[c].conn.state in {Connected, Disconnecting} ==>
      s.objects[c].open && ConnectionStream.Stream(s.objects[c].conn)
  {
  }

  ghost predicate FinKept(c: Conn, d: Conn) {
    CleanFin(d) && (c.finAt.Some? ==> d.wire == c.wire && d.finAt == c.finAt)
  }

  lemma TaskKeepsFin(c: Conn, task: Task, n: int)
    requires CleanFin(c) && ConnectionStream.Stream(c) && (task.SendTask? ==> n <= |task.data|)
    requires !task.SendTask? ==> c.state in {Disconnecting, Disconnected}
    ensures FinKept(c, RunTask(c, task, n))
  {
  }

  lemma HeadKeepsFin(s: Server, l: nat, n: int, c: Id)
    requires Inv(s) && Enabled(s, RunNext(l, n)) && c in s.objects && CleanFin(s.objects[c].conn)
    ensures FinKept(s.objects[c].conn, ConnStep(s, RunNext(l, n), c))
  {
    HeadFacts(s, l, n, c);
    OpenFacts(s, c);
    hide Inv, Step, HalfClose, SendInLoop, RunTask, Closed;
    var conn, f := s.objects[c].conn, s.loops[l].batch[0];
    if f.Run? && f.c == c {
      TaskKeepsFin(conn, f.task, n);
    }
  }

  lemma CallsKeepFin(c: Conn, inLoop: bool, data: seq<Byte>, n: int)
    requires CleanFin(c) && n <= |data| && c.wire + c.out == c.admitted
    requires c.state in {Connected, Disconnecting} ==> ConnectionStream.Stream(c)
    ensures FinKept(c, Send(c, inLoop, data, n).0) && FinKept(c, SendBuffer(c, inLoop, data).0)
    ensures FinKept(c, Shutdown(c, inLoop).0) && FinKept(c, ForceClose(c).0) && FinKept(c, Closed(c))
  {
  }

  lemma WritesKeepFin(c: Conn, n: int)
    requires CleanFin(c) && n <= |c.out| && c.wire + c.out == c.admitted
    ensures FinKept(c, WriteSome(c, n).0) && (c.out == [] ==> FinKept(c, FinishWrite(c)))
  {
  }

  lemma CallKeepsFin(s: Server, e: Event, c: Id)
    requires Enabled(s, e) && c in s.objects && CleanFin(s.objects[c].conn) && !e.RunNext?
    requires var conn := s.objects[c].conn;
      && conn.wire + conn.out == conn.admitted
      && (conn.state in {Connected, Disconnecting} ==> ConnectionStream.Stream(conn))
    requires e.FinishWriteEvent? && e.l < |s.loops| && s.loops[e.l].current == Some(c) ==> s.objects[c].conn.out == []
    ensures FinKept(s.objects[c].conn, ConnStep(s, e, c))
  {
    hide CleanFin, ConnectionStream.Stream, Send, SendBuffer, Shutdown, ForceClose, WriteSome, FinishWrite, RunTask;
    var conn := s.objects[c].conn;
    if e.UserSend? {
      CallsKeepFin(conn, Inside(s, e.t, c), e.data, e.n);
    } else if e.UserSendBuffer? {
      CallsKeepFin(conn, Inside(s, e.t, c), e.data, 0);
    } else if e.UserShutdown? {
      CallsKeepFin(conn, Inside(s, e.t, c), [], 0);
    } else if e.WriteReady? {
      CallsKeepFin(conn, true, [], 0);
      WritesKeepFin(conn, if Current(s, e.l) == c then e.n else 0);
    } else if e.FinishWriteEvent? {
      WritesKeepFin(conn, 0);
    } else {
      CallsKeepFin(conn, true, [], 0);
    }
  }

  lemma StepKeepsFin(s: Server, e: Event, c: Id)
    requires Inv(s) && Clean(s) && Enabled(s, e) && c in s.objects
    ensures FinKept(s.objects[c].conn, ConnStep(s, e, c))
  {
    if e.RunNext? {
      HeadKeepsFin(s, e.l, e.n, c);
    } else {
      if e.FinishWriteEvent? {
        assert InCallback(s, e.l) == s.loops[e.l].current;
      }
      OpenFacts(s, c);
      CallKeepsFin(s, e, c);
    }
  }

  /** Outside loop l only a foreign thread or another loop calls, and those only queue. */
  lemma EmptyStays(s: Server, e: Event, l: nat, c: Id)
    requires Enabled(s, e) && Quiet(s, e) && c in s.objects && s.objects[c].conn.out == []
    requires l < |s.loops| && InCallback(s, l) == Some(c) && s.objects[c].loop == l
    requires e.RunNext? ==> (s.loops[e.l].batch[0].Run? && s.loops[e.l].batch[0].c == c ==> e.l == l) && e.l != l
    ensures ConnStep(s, e, c).out == []
  {
  }

  /** A callback's buffer stays empty in a quiet step. */
  lemma StepKeepsCallback(s: Server, e: Event, l: nat)
    requires Inv(s) && Clean(s) && Enabled(s, e) && Quiet(s, e) && l < |s.loops|
    requires CallbackStep(s, e, l).Some?
    ensures var c := CallbackStep(s, e, l).value; c in s.objects && ConnStep(s, e, c).out == []
  {
    var c := CallbackStep(s, e, l).value;
    if InCallback(s, l) == Some(c) {
      CallbackFacts(s, l);
      assert s.objects[c].conn.out == [];
      if e.RunNext? {
        HeadFacts(s, e.l, e.n, c);
      }
      hide Inv, Clean, CallbackStep;
      EmptyStays(s, e, l, c);
    } else {
      hide Inv, Clean;
    }
  }

  lemma StepKeepsClean(s: Server, e: Event)
    requires Inv(s) && Clean(s) && Enabled(s, e) && Quiet(s, e)
    ensures Clean(Step(s, e))
  {
    hide Inv;
    var t := Step(s, e);
    forall c <- t.objects
      ensures CleanFin(t.objects[c].conn)
    {
      if c in s.objects {
        StepConns(s, e, c);
        StepKeepsFin(s, e, c);
      } else {
        AcceptAdmits(s, e, c);
      }
    }
    StepLoops(s, e, 0);
    forall l | 0 <= l < |t.loops| && InCallback(t, l).Some?
      ensures InCallback(t, l).value in t.objects && t.objects[InCallback(t, l).value].conn.out == []
    {
      StepLoops(s, e, l);
      StepKeepsCallback(s, e, l);
      StepConns(s, e, InCallback(t, l).value);
    }
  }

  lemma {:induction false} RunKeepsClean(s: Server, es: seq<Event>)
    requires Inv(s) && Clean(s) && IsRun(s, es) && IsQuietRun(s, es)
    ensures Clean(After(s, es))
    ensures forall c <- s.objects ::
      c in After(s, es).objects && FinKept(s.objects[c].conn, After(s, es).objects[c].conn)
    decreases |es|
  {
    if es != [] {
      StepKeeps(s, es[0]);
      StepKeepsClean(s, es[0]);
      var t := Step(s, es[0]);
      RunKeepsClean(t, es[1..]);
      forall c <- s.objects
        ensures c in t.objects && FinKept(s.objects[c].conn, t.objects[c].conn)
      {
        StepConns(s, es[0], c);
        StepKeepsFin(s, es[0], c);
      }
    }
  }

  /** If write-complete callbacks do not send on their own connection, every half-close of every
      run happens with the buffer empty and everything accepted on the wire, and nothing reaches the
      wire after it. */
  lemma HalfCloseIsClean(threadNum: nat, es: seq<Event>, more: seq<Event>, c: Id)
    requires IsRun(Init(threadNum), es) && IsQuietRun(Init(threadNum), es)
    requires var s := After(Init(threadNum), es); IsRun(s, more) && IsQuietRun(s, more)
    requires var s := After(Init(threadNum), es); c in s.objects && s.objects[c].conn.finAt.Some?
    ensures var s := After(Init(threadNum), es);
      var conn, t := s.objects[c].conn, After(s, more);
      && conn.out == [] && conn.wire == conn.admitted == Ledger(Init(threadNum), es, c)
      && |conn.wire| == conn.finAt.value
      && c in t.objects && t.objects[c].conn.wire == conn.wire && t.objects[c].conn.out == []
  {
    var s := After(Init(threadNum), es);
    InitHolds(threadNum);
    RunKeeps(Init(threadNum), es);
    RunKeepsClean(Init(threadNum), es);
    RunKeepsClean(s, more);
    DeliveredInOrder(threadNum, es, c);
  }

  // ---- write interest and payloads ----

  predicate NonEmptyPayload(e: Event) { (e.UserSend? || e.UserSendBuffer?) ==> e.data != [] }

  predicate NoEmptyTask(loop: Loop) {
    forall f <- Pending(loop) :: f.Run? && f.task.SendTask? ==> f.task.data != []
  }

  /** No payload is empty, and write interest is on exactly while bytes wait. */
  ghost predicate AllTight(s: Server) {
    && (forall l | 0 <= l < |s.loops| :: NoEmptyTask(s.loops[l]))
    && (forall c <- s.objects :: s.objects[c].open ==> Tight(s.objects[c].conn))
  }

  lemma HeadKeepsTight(s: Server, e: Event, c: Id)
    requires Enabled(s, e) && e.RunNext? && NoEmptyTask(s.loops[e.l]) && c in s.objects && Tight(s.objects[c].conn)
    ensures Tight(ConnStep(s, e, c)) || s.loops[e.l].batch[0] == Destroy(c)
  {
  }

  lemma StepKeepsTight(s: Server, e: Event, c: Id)
    requires Enabled(s, e) && NonEmptyPayload(e) && c in s.objects && Tight(s.objects[c].conn) && !e.RunNext?
    ensures Tight(ConnStep(s, e, c))
  {
  }

  lemma DestroyCloses(s: Server, l: nat, n: int, c: Id)
    requires Enabled(s, RunNext(l, n)) && s.loops[l].batch[0] == Destroy(c)
    ensures c in Step(s, RunNext(l, n)).objects && !Step(s, RunNext(l, n)).objects[c].open
  {
  }

  lemma StepKeepsAllTight(s: Server, e: Event)
    requires Inv(s) && AllTight(s) && Enabled(s, e) && NonEmptyPayload(e)
    ensures AllTight(Step(s, e))
  {
    hide Inv;
    var t := Step(s, e);
    StepLoops(s, e, 0);
    forall l | 0 <= l < |t.loops|
      ensures NoEmptyTask(t.loops[l])
    {
      StepLoops(s, e, l);
      assert NoEmptyTask(s.loops[l]);
    }
    forall c <- t.objects
      ensures t.objects[c].open ==> Tight(t.objects[c].conn)
    {
      if c !in s.objects {
        AcceptAdmits(s, e, c);
      } else {
        StepConns(s, e, c);
        if t.objects[c].open {
          assert Tight(s.objects[c].conn);
          if !e.RunNext? {
            StepKeepsTight(s, e, c);
          } else {
            HeadKeepsTight(s, e, c);
            if s.loops[e.l].batch[0] == Destroy(c) {
              DestroyCloses(s, e.l, e.n, c);
            }
          }
        }
      }
    }
  }

  lemma {:induction false} RunKeepsTight(s: Server, es: seq<Event>)
    requires Inv(s) && AllTight(s) && IsRun(s, es) && forall e <- es :: NonEmptyPayload(e)
    ensures AllTight(After(s, es))
    decreases |es|
  {
    if es != [] {
      assert es[0] in es;
      StepKeeps(s, es[0]);
      StepKeepsAllTight(s, es[0]);
      RunKeepsTight(Step(s, es[0]), es[1..]);
    }
  }

  /** With non-empty payloads, in every state of every run an open connection watches for write
      events exactly while bytes wait in its buffer. */
  lemma WriteInterestIsExact(threadNum: nat, es: seq<Event>, c: Id)
    requires IsRun(Init(threadNum), es) && forall e <- es :: NonEmptyPayload(e)
    requires c in After(Init(threadNum), es).objects
    ensures var o := After(Init(threadNum), es).objects[c];
      o.open ==> (o.conn.interest.writing <==> o.conn.out != [])
  {
    InitHolds(threadNum);
    RunKeepsTight(Init(threadNum), es);
  }

  // ---- deferred shutdown ----

  /** A write event reaches the connection while it watches for one; without write interest
      handleWrite does nothing. */
  predicate IsWriteTo(s: Server, e: Event, c: Id)
    requires Enabled(s, e)
  {
    e.WriteReady? && Current(s, e.l) == c && s.objects[c].conn.interest.writing
  }

  /** The connection stays in kDisconnecting, and each of its write events sends something. */
  predicate IsDrainRun(s: Server, es: seq<Event>, c: Id)
    requires IsRun(s, es)
    decreases |es|
  {
    && c in s.objects && s.objects[c].conn.state == Disconnecting
    && (es == [] ||
        ((IsWriteTo(s, es[0], c) ==> es[0].n > 0) && IsDrainRun(Step(s, es[0]), es[1..], c)))
  }

  function Writes(s: Server, es: seq<Event>, c: Id): nat
    requires IsRun(s, es)
    decreases |es|
  {
    if es == [] then 0
    else (if IsWriteTo(s, es[0], c) then 1 else 0) + Writes(Step(s, es[0]), es[1..], c)
  }

  /** The bytes these write events send. */
  function Sent(s: Server, es: seq<Event>, c: Id): int
    requires IsRun(s, es)
    decreases |es|
  {
    if es == [] then 0
    else (if IsWriteTo(s, es[0], c) then es[0].n else 0) + Sent(Step(s, es[0]), es[1..], c)
  }

  /** The write-complete callback of the last write event is running. */
  ghost predicate LastCallback(s: Server, c: Id) {
    c in s.objects && s.objects[c].loop < |s.loops| && InCallback(s, s.objects[c].loop) == Some(c) &&
    s.objects[c].conn.out == []
  }

  /** Bytes wait, outside a callback of this connection. */
  ghost predicate Waiting(s: Server, c: Id) {
    c in s.objects && s.objects[c].loop < |s.loops| && InCallback(s, s.objects[c].loop) != Some(c) &&
    s.objects[c].conn.out != [] && s.objects[c].conn.finAt.None?
  }

  /** The half-close is made and everything accepted is on the wire. */
  ghost predicate Finished(s: Server, c: Id) {
    c in s.objects && s.objects[c].conn.finAt.Some? && s.objects[c].conn.out == []
  }

  /** A connection that stays in kDisconnecting only writes, half-closes or stands still. */
  ghost predicate DrainsAs(s: Server, e: Event, c: Id, d: Conn)
    requires Enabled(s, e) && c in s.objects
  {
    var conn := s.objects[c].conn;
    if IsWriteTo(s, e, c) then !WriteSome(conn, e.n).1.SendFailed? && d == WriteSome(conn, e.n).0
    else if e.FinishWriteEvent? && InCallback(s, e.l) == Some(c) then d == HalfClose(conn)
    else d == conn || (d == HalfClose(conn) && !conn.interest.writing)
  }

  lemma DrainHead(s: Server, e: Event, c: Id)
    requires Inv(s) && Enabled(s, e) && e.RunNext? && c in s.objects && s.objects[c].conn.state == Disconnecting
    requires ConnStep(s, e, c).state == Disconnecting
    ensures DrainsAs(s, e, c, ConnStep(s, e, c))
  {
    HeadFacts(s, e.l, e.n, c);
    hide Inv, Step;
    var conn, f := s.objects[c].conn, s.loops[e.l].batch[0];
    if f.Run? && f.c == c {
      DrainTask(conn, f.task, e.n);
    }
    hide RunTask, HalfClose;
  }

  /** Nothing is sent any more: a task only half-closes, when no write event is awaited. */
  lemma DrainTask(c: Conn, task: Task, n: int)
    requires c.state == Disconnecting && (task.SendTask? ==> n <= |task.data|)
    requires RunTask(c, task, n).state == Disconnecting
    ensures var d := RunTask(c, task, n); d == c || (d == HalfClose(c) && !c.interest.writing)
  {
  }

  lemma DrainCall(s: Server, e: Event, c: Id)
    requires Enabled(s, e) && !e.RunNext? && c in s.objects && s.objects[c].conn.state == Disconnecting
    requires ConnStep(s, e, c).state == Disconnecting
    ensures DrainsAs(s, e, c, ConnStep(s, e, c))
  {
  }

  lemma DrainConn(s: Server, e: Event, c: Id)
    requires Inv(s) && Enabled(s, e) && c in s.objects && s.objects[c].conn.state == Disconnecting
    requires ConnStep(s, e, c).state == Disconnecting
    ensures DrainsAs(s, e, c, ConnStep(s, e, c))
  {
    hide ConnStep, DrainsAs;
    if e.RunNext? {
      DrainHead(s, e, c);
    } else {
      DrainCall(s, e, c);
    }
  }

  /** What a draining step sees of the connection and of its loop. */
  ghost predicate DrainFacts(s: Server, e: Event, c: Id)
    requires Enabled(s, e)
  {
    && c in s.objects && c in Step(s, e).objects && LoopFollows(s, e, s.objects[c].loop)
    && Step(s, e).objects[c].loop == s.objects[c].loop < |s.loops|
    && ConnectionStream.Stream(s.objects[c].conn) && DrainsAs(s, e, c, Step(s, e).objects[c].conn)
    && (IsWriteTo(s, e, c) ==> e.l == s.objects[c].loop)
    && (e.FinishWriteEvent? && InCallback(s, e.l) == Some(c) ==> e.l == s.objects[c].loop)
  }

  lemma DrainSees(s: Server, e: Event, c: Id)
    requires Inv(s) && Enabled(s, e) && c in s.objects && s.objects[c].conn.state == Disconnecting
    requires ConnStep(s, e, c).state == Disconnecting
    ensures DrainFacts(s, e, c)
  {
    OpenFacts(s, c);
    StepConns(s, e, c);
    StepLoops(s, e, s.objects[c].loop);
    DrainConn(s, e, c);
    if e.WriteReady? {
      CurrentIsGood(s, e.l);
    }
    if e.FinishWriteEvent? && InCallback(s, e.l) == Some(c) {
      CallbackFacts(s, e.l);
    }
    ObjectHasLoop(s, c);
    hide Inv, Step, ConnStep, LoopFollows, DrainsAs;
  }

  lemma ObjectHasLoop(s: Server, c: Id)
    requires Inv(s) && c in s.objects
    ensures s.objects[c].loop < |s.loops|
  {
  }

  lemma DrainWaits(s: Server, e: Event, c: Id)
    requires Enabled(s, e) && DrainFacts(s, e, c) && Waiting(s, c) && (IsWriteTo(s, e, c) ==> e.n > 0)
    ensures var t := Step(s, e);
      if IsWriteTo(s, e, c) then
        && |t.objects[c].conn.out| == |s.objects[c].conn.out| - e.n
        && (LastCallback(t, c) || Waiting(t, c))
      else Waiting(t, c) && t.objects[c].conn.out == s.objects[c].conn.out
  {
  }

  lemma DrainLast(s: Server, e: Event, c: Id)
    requires Enabled(s, e) && DrainFacts(s, e, c)
    ensures LastCallback(s, c) ==> LastCallback(Step(s, e), c) || Finished(Step(s, e), c)
    ensures Finished(s, c) ==> Finished(Step(s, e), c)
  {
  }

  lemma NothingAdmitted(s: Server, e: Event, c: Id)
    requires Enabled(s, e) && c in s.objects && s.objects[c].conn.state == Disconnecting
    ensures c in Step(s, e).objects && Step(s, e).objects[c].conn.admitted == s.objects[c].conn.admitted
  {
    StepAdmits(s, e, c);
    hide Step;
  }

  /** A write event that sends something needs something to send. */
  lemma NothingToWrite(s: Server, e: Event, c: Id)
    requires Enabled(s, e) && (LastCallback(s, c) || Finished(s, c))
    ensures IsWriteTo(s, e, c) ==> e.n <= 0
  {
  }

  lemma {:induction false} DrainRun(s: Server, es: seq<Event>, c: Id)
    requires Inv(s) && IsRun(s, es) && IsDrainRun(s, es, c)
    ensures c in After(s, es).objects && After(s, es).objects[c].conn.admitted == s.objects[c].conn.admitted
    ensures LastCallback(s, c) || Finished(s, c) ==>
      Sent(s, es, c) == 0 && (LastCallback(After(s, es), c) || Finished(After(s, es), c))
    ensures Writes(s, es, c) <= Sent(s, es, c)
    ensures Waiting(s, c) ==>
      var t := After(s, es);
      && |t.objects[c].conn.out| + Sent(s, es, c) == |s.objects[c].conn.out|
      && (LastCallback(t, c) || Finished(t, c) || Waiting(t, c))
    decreases |es|
  {
    if es != [] {
      hide Inv, Payload;
      var e, t := es[0], Step(s, es[0]);
      StepKeeps(s, e);
      StepConns(s, e, c);
      NothingAdmitted(s, e, c);
      DrainSees(s, e, c);
      DrainLast(s, e, c);
      if Waiting(s, c) {
        DrainWaits(s, e, c);
      } else if LastCallback(s, c) || Finished(s, c) {
        NothingToWrite(s, e, c);
      }
      hide Step, DrainFacts, LastCallback, Finished, Waiting, ConnStep, IsWriteTo;
      DrainRun(t, es[1..], c);
    }
  }

  /** How far a shutdown deferred by waiting bytes has come, in any run in which the connection stays
      in kDisconnecting and each of its write events sends at least one byte, however many: nothing
      more is accepted, and exactly what the write events sent is gone from the waiting bytes, in at
      most as many write events. Once they have sent all that waited, and only then, the last
      write-complete callback is running or the half-close is made, with exactly what had been
      accepted on the wire; before, bytes wait under write interest. The end of that callback
      half-closes. */
  lemma DeferredShutdownEnds(s: Server, es: seq<Event>, c: Id)
    requires Reachable(s) && IsRun(s, es) && IsDrainRun(s, es, c) && Waiting(s, c)
    ensures var t := After(s, es);
      && c in t.objects && t.objects[c].conn.admitted == s.objects[c].conn.admitted
      && Writes(s, es, c) <= Sent(s, es, c) <= |s.objects[c].conn.out|
      && |t.objects[c].conn.out| == |s.objects[c].conn.out| - Sent(s, es, c)
      && (LastCallback(t, c) || Finished(t, c) <==> Sent(s, es, c) == |s.objects[c].conn.out|)
      && if LastCallback(t, c) || Finished(t, c) then t.objects[c].conn.wire == s.objects[c].conn.admitted
         else Waiting(t, c) && t.objects[c].conn.interest.writing
    ensures var t := After(s, es);
      forall e | Enabled(t, e) && e.FinishWriteEvent? && e.l == t.objects[c].loop && LastCallback(t, c) ::
        Finished(Step(t, e), c)
  {
    hide Inv, Enabled, Step;
    ReachableIsInv(s);
    DrainRun(s, es, c);
    RunKeeps(s, es);
    var t := After(s, es);
    OpenFacts(t, c);
    DrainRunEnds(s, es, c);
    forall e | Enabled(t, e) && e.FinishWriteEvent? && e.l == t.objects[c].loop && LastCallback(t, c)
      ensures Finished(Step(t, e), c)
    {
      FinishEnds(t, e, c);
    }
  }

  lemma FinishEnds(s: Server, e: Event, c: Id)
    requires Enabled(s, e) && e.FinishWriteEvent? && LastCallback(s, c) && e.l == s.objects[c].loop
    requires s.objects[c].conn.state == Disconnecting
    ensures Finished(Step(s, e), c)
  {
  }

  lemma {:induction false} DrainRunEnds(s: Server, es: seq<Event>, c: Id)
    requires IsRun(s, es) && IsDrainRun(s, es, c)
    ensures c in After(s, es).objects && After(s, es).objects[c].conn.state == Disconnecting
    decreases |es|
  {
    if es != [] {
      DrainRunEnds(Step(s, es[0]), es[1..], c);
    }
  }
}
