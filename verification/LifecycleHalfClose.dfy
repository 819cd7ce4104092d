/** Which half-closes of whole runs leave unsent bytes behind. The write-complete callback of
    handleWrite is not atomic: between its start and the final test of the state every thread may
    call, so the condition speaks of all calls that take effect in between. */
module LifecycleHalfClose {
  import opened Prelude
  import opened ConnectionStream
  import opened Lifecycle
  import opened LifecycleInvariant
  import opened LifecycleTheorems
  import opened LifecycleStreams

  /** The call that a step is, if it takes effect on connection c at once. */
  function CallOf(s: Server, e: Event, c: Id): seq<Call>
    requires Enabled(s, e) && c in s.objects
  {
    match e
    case UserSend(t, d, data, n) => if d == c && Inside(s, t, c) then [CallSend(data, n)] else []
    case UserSendBuffer(t, d, data) => if d == c && Inside(s, t, c) then [CallSendBuffer(data)] else []
    case UserShutdown(t, d) => if d == c then [CallShutdown(Inside(s, t, c))] else []
    case UserForceClose(t, d) => if d == c then [CallForceClose] else []
    case _ => []
  }

  /** A write-complete callback in progress: the connection as the write event left it when the
      callback began, and the calls on it since. */
  datatype Callback = Callback(start: Conn, calls: seq<Call>)

  function NextCallback(s: Server, e: Event, l: nat, now: Option<Callback>): Option<Callback>
    requires Enabled(s, e) && l < |s.loops|
  {
    if e.WriteReady? && e.l == l && WriteSome(s.objects[Current(s, l)].conn, e.n).1.Drained? then
      Some(Callback(WriteSome(s.objects[Current(s, l)].conn, e.n).0, []))
    else if e.FinishWriteEvent? && e.l == l then None
    else if now.Some? && InCallback(s, l).Some? && InCallback(s, l).value in s.objects then
      Some(now.value.(calls := now.value.calls + CallOf(s, e, InCallback(s, l).value)))
    else now
  }

  /** The callback loop l is in after a run, when it was in callback now before it. */
  function CallbackAfter(s: Server, es: seq<Event>, l: nat, now: Option<Callback>): Option<Callback>
    requires IsRun(s, es)
    decreases |es|
  {
    if es == [] then now
    else CallbackAfter(Step(s, es[0]), es[1..], l, if l < |s.loops| then NextCallback(s, es[0], l, now) else now)
  }

  /** The step calls shutdownWrite on the connection's socket. */
  predicate HalfCloses(s: Server, e: Event, c: Id)
    requires Enabled(s, e) && c in s.objects
  {
    var conn := s.objects[c].conn;
    match e
    case FinishWriteEvent(l) => s.loops[l].current == Some(c) && conn.state == Disconnecting
    case RunNext(l, n) => s.loops[l].batch[0] == Run(c, ShutdownTask) && !conn.interest.writing
    case UserShutdown(t, d) => d == c && Inside(s, t, c) && conn.state == Connected && !conn.interest.writing
    case _ => false
  }

  /** These are the steps that record a half-close, and they move no byte. */
  lemma HalfClosesAreRecorded(s: Server, e: Event, c: Id)
    requires Enabled(s, e) && c in s.objects
    ensures var conn, d := s.objects[c].conn, ConnStep(s, e, c);
      && d.finAt == (if HalfCloses(s, e, c) && conn.finAt.None? then Some(|conn.wire|) else conn.finAt)
      && (HalfCloses(s, e, c) ==> d.out == conn.out && d.wire == conn.wire)
  {
  }

  lemma {:induction false} RunCallsSnoc(c: Conn, calls: seq<Call>, call: Call)
    requires call.Legal() && forall k <- calls :: k.Legal()
    ensures RunCalls(c, calls + [call]) == RunCall(RunCalls(c, calls), call)
    decreases |calls|
  {
    if calls == [] {
      assert [call][1..] == [];
    } else {
      assert (calls + [call])[1..] == calls[1..] + [call];
      assert calls[0] in calls;
      RunCallsSnoc(RunCall(c, calls[0]), calls[1..], call);
    }
  }

  /** No dispatch reaches a connection while its callback runs ... */
  lemma NoDispatchReaches(s: Server, e: Event, l: nat, c: Id)
    requires Inv(s) && Enabled(s, e) && l < |s.loops| && InCallback(s, l) == Some(c)
    requires e.ReadReady? || e.WriteReady? || e.CloseReady? || (e.FinishWriteEvent? && e.l != l)
    ensures s.loops[e.l].current != Some(c)
  {
    hide Inv;
    CallbackFacts(s, l);
    if s.loops[e.l].current.Some? {
      CurrentIsGood(s, e.l);
    }
  }

  /** ... nor does a functor. */
  lemma NoFunctorReaches(s: Server, e: Event, l: nat, c: Id)
    requires Inv(s) && Enabled(s, e) && l < |s.loops| && InCallback(s, l) == Some(c) && e.RunNext?
    ensures !About(s.loops[e.l].batch[0], c)
  {
    CallbackFacts(s, l);
    if !s.loops[e.l].batch[0].Other? {
      HeadIsPlaced(s, e.l);
    }
    hide Inv, Good, SliceOf;
  }

  lemma NothingElseReaches(s: Server, e: Event, l: nat, c: Id)
    requires Inv(s) && Enabled(s, e) && l < |s.loops| && InCallback(s, l) == Some(c)
    ensures On(s, l, c)
    ensures e.ReadReady? || e.WriteReady? || e.CloseReady? ==> Current(s, e.l) != c
    ensures e.FinishWriteEvent? && e.l != l ==> s.loops[e.l].current != Some(c)
    ensures e.RunNext? ==> !About(s.loops[e.l].batch[0], c)
  {
    hide Inv, About, LoopWf, WriteSome;
    CallbackFacts(s, l);
    if e.RunNext? {
      NoFunctorReaches(s, e, l, c);
    } else if e.ReadReady? || e.WriteReady? || e.CloseReady? || (e.FinishWriteEvent? && e.l != l) {
      NoDispatchReaches(s, e, l, c);
    }
  }

  /** A step that neither dispatches to a connection nor runs a functor of it only makes calls. */
  lemma CallStep(s: Server, e: Event, c: Id)
    requires Enabled(s, e) && c in s.objects
    requires e.ReadReady? || e.WriteReady? || e.CloseReady? ==> Current(s, e.l) != c
    requires e.FinishWriteEvent? ==> s.loops[e.l].current != Some(c)
    requires e.RunNext? ==> !About(s.loops[e.l].batch[0], c)
    ensures var calls := CallOf(s, e, c);
      && |calls| <= 1 && (forall call <- calls :: call.Legal())
      && ConnStep(s, e, c) == (if calls == [] then s.objects[c].conn else RunCall(s.objects[c].conn, calls[0]))
  {
    hide SendInLoop, SendBufferInLoop, ShutdownInLoop, WriteSome, FinishWrite, RunTask;
    match e
    case UserSend(_, _, _, _) =>
    case UserSendBuffer(_, _, _) =>
    case UserShutdown(_, _) =>
    case UserForceClose(_, _) =>
    case _ => assert CallOf(s, e, c) == [];
  }

  /** While its callback runs, a connection changes only by the calls on it. */
  lemma OnlyCallsCount(s: Server, e: Event, l: nat, c: Id)
    requires Inv(s) && Enabled(s, e) && l < |s.loops| && InCallback(s, l) == Some(c)
    requires !(e.FinishWriteEvent? && e.l == l)
    ensures c in s.objects
    ensures var calls := CallOf(s, e, c);
      && |calls| <= 1 && (forall call <- calls :: call.Legal())
      && ConnStep(s, e, c) == (if calls == [] then s.objects[c].conn else RunCall(s.objects[c].conn, calls[0]))
  {
    hide Inv, Enabled, ConnStep, CallOf, RunCall;
    NothingElseReaches(s, e, l, c);
    CallStep(s, e, c);
  }

  /** The callback's record explains the connection. */
  ghost predicate Explains(s: Server, l: nat, now: Option<Callback>) {
    l < |s.loops| && InCallback(s, l).Some? ==>
      && now.Some? && InCallback(s, l).value in s.objects
      && now.value.start.out == [] && !now.value.start.interest.writing
      && (forall call <- now.value.calls :: call.Legal())
      && s.objects[InCallback(s, l).value].conn == RunCalls(now.value.start, now.value.calls)
  }

  lemma CallIsExplained(start: Conn, before: seq<Call>, calls: seq<Call>, c: Conn, d: Conn)
    requires |calls| <= 1 && (forall call <- before + calls :: call.Legal())
    requires forall call <- before :: call.Legal()
    requires forall call <- calls :: call.Legal()
    requires c == RunCalls(start, before) && d == (if calls == [] then c else RunCall(c, calls[0]))
    ensures d == RunCalls(start, before + calls)
  {
    if calls == [] {
      assert before + calls == before;
    } else {
      assert calls == [calls[0]];
      RunCallsSnoc(start, before, calls[0]);
    }
  }

  /** A step inside the callback, and one that begins it. */
  lemma StepInside(s: Server, e: Event, l: nat, now: Option<Callback>, c: Id)
    requires Inv(s) && Enabled(s, e) && l < |s.loops| && Explains(s, l, now)
    requires InCallback(s, l) == Some(c) && !(e.FinishWriteEvent? && e.l == l)
    ensures NextCallback(s, e, l, now).Some? && c in s.objects
    ensures var next := NextCallback(s, e, l, now).value;
      && next.start == now.value.start && (forall call <- next.calls :: call.Legal())
      && ConnStep(s, e, c) == RunCalls(next.start, next.calls)
  {
    OnlyCallsCount(s, e, l, c);
    NothingElseReaches(s, e, l, c);
    InCallbackDispatchesNothing(s, e, l);
    var calls := CallOf(s, e, c);
    assert forall call <- now.value.calls + calls :: call in now.value.calls || call in calls;
    CallIsExplained(now.value.start, now.value.calls, calls, s.objects[c].conn, ConnStep(s, e, c));
    hide Inv, ConnStep, CallOf, RunCalls;
  }

  lemma InCallbackDispatchesNothing(s: Server, e: Event, l: nat)
    requires Enabled(s, e) && l < |s.loops| && InCallback(s, l).Some?
    ensures !(e.WriteReady? && e.l == l)
  {
  }

  lemma StepBegins(s: Server, e: Event, l: nat, now: Option<Callback>)
    requires Enabled(s, e) && l < |s.loops| && CallbackStep(s, e, l).Some?
    requires e.WriteReady? && e.l == l
    ensures NextCallback(s, e, l, now).Some?
    ensures var c, next := CallbackStep(s, e, l).value, NextCallback(s, e, l, now).value;
      && c in s.objects && next.calls == [] && next.start == ConnStep(s, e, c)
      && next.start.out == [] && !next.start.interest.writing
  {
  }

  lemma StepExplains(s: Server, e: Event, l: nat, now: Option<Callback>)
    requires Inv(s) && Enabled(s, e) && l < |s.loops| && Explains(s, l, now)
    ensures Explains(Step(s, e), l, NextCallback(s, e, l, now))
  {
    hide Inv, Step, CallOf, ConnStep, NextCallback;
    StepLoops(s, e, l);
    var next := CallbackStep(s, e, l);
    if next.Some? {
      if e.WriteReady? && e.l == l {
        StepBegins(s, e, l, now);
      } else {
        StepInside(s, e, l, now, next.value);
      }
      StepConns(s, e, next.value);
    }
    hide Enabled, RunCalls, WriteSome;
  }

  lemma {:induction false} RunExplains(s: Server, es: seq<Event>, l: nat, now: Option<Callback>)
    requires Inv(s) && IsRun(s, es) && Explains(s, l, now)
    ensures Explains(After(s, es), l, CallbackAfter(s, es, l, now))
    decreases |es|
  {
    if es != [] {
      StepKeeps(s, es[0]);
      LoopsStay(s, es[0]);
      if l < |s.loops| {
        StepExplains(s, es[0], l, now);
      }
      hide Inv, Step, Enabled;
      RunExplains(Step(s, es[0]), es[1..], l, if l < |s.loops| then NextCallback(s, es[0], l, now) else now);
    }
  }

  lemma LoopsStay(s: Server, e: Event)
    requires Enabled(s, e) && Inv(s)
    ensures |Step(s, e).loops| == |s.loops|
  {
    assert |s.loops| > 0;
    StepLoops(s, e, 0);
  }

  /** What the calls during a callback make of the connection that was drained before it. */
  lemma CallbackEnds(c: Conn, calls: seq<Call>)
    requires forall call <- calls :: call.Legal()
    requires c.out == [] && !c.interest.writing
    ensures var d := RunCalls(c, calls);
      d.state == Disconnecting && d.out != [] <==> c.state == Connected && StopsWithBytes(calls)
  {
    if c.state == Connected {
      CallsExactly(c, calls);
    } else if c.state == Disconnecting {
      CallsAfterStop(c, calls);
    } else {
      CallsIgnored(c, calls);
    }
  }

  /** Outside the end of a callback a half-close is always clean. */
  lemma OtherHalfClosesAreClean(s: Server, e: Event, c: Id)
    requires Inv(s) && Enabled(s, e) && c in s.objects && HalfCloses(s, e, c) && !e.FinishWriteEvent?
    ensures s.objects[c].conn.out == []
  {
    OpenFacts(s, c);
    if e.RunNext? {
      HeadFacts(s, e.l, e.n, c);
    }
    hide Inv;
  }

  /** In every run, a step half-closes a connection with unsent bytes exactly if it ends a
      write-complete callback that began with the connection connected, and during which a send by
      the loop's thread was not written out and after that send a shutdown or forceClose came from
      any thread. */
  lemma DirtyHalfCloseExactly(threadNum: nat, es: seq<Event>, e: Event, c: Id)
    requires IsRun(Init(threadNum), es)
    requires var s := After(Init(threadNum), es); Enabled(s, e) && c in s.objects
    ensures var s := After(Init(threadNum), es);
      HalfCloses(s, e, c) && s.objects[c].conn.out != [] <==>
        && e.FinishWriteEvent? && s.loops[e.l].current == Some(c)
        && var callback := CallbackAfter(Init(threadNum), es, e.l, None);
          callback.Some? && callback.value.start.state == Connected && StopsWithBytes(callback.value.calls)
  {
    var s := After(Init(threadNum), es);
    InitHolds(threadNum);
    RunKeeps(Init(threadNum), es);
    if e.FinishWriteEvent? {
      assert Explains(Init(threadNum), e.l, None);
      RunExplains(Init(threadNum), es, e.l, None);
      hide Inv, IsRun, After, Init, CallbackAfter;
      if s.loops[e.l].current == Some(c) {
        var callback := CallbackAfter(Init(threadNum), es, e.l, None).value;
        CallbackEnds(callback.start, callback.calls);
      }
    } else if HalfCloses(s, e, c) {
      OtherHalfClosesAreClean(s, e, c);
    }
  }
}
