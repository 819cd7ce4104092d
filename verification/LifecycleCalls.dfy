/** What the public calls of a connection lead to in whole runs, made by any thread: a payload
    queued by another thread, a forceClose and a shutdown all get done. */
module LifecycleCalls {
  import opened Prelude
  import opened ConnectionStream
  import opened Lifecycle
  import opened LifecycleInvariant
  import opened LifecycleTheorems
  import opened LifecycleStreams
  import opened LifecycleOrder

  // ---- what a call queues ----

  predicate IsSend(e: Event) { e.UserSend? || e.UserSendBuffer? }

  predicate IsCall(e: Event) { IsSend(e) || e.UserShutdown? || e.UserForceClose? }

  /** The functor a call is to leave on the connection's loop, told from the call and the state. */
  function Leaves(s: Server, e: Event): Option<Task>
    requires Enabled(s, e) && IsCall(e)
  {
    var state := s.objects[e.c].conn.state;
    if e.UserForceClose? then if state in {Connected, Disconnecting} then Some(CloseTask) else None
    else if state != Connected || Inside(s, e.t, e.c) then None
    else if e.UserShutdown? then Some(ShutdownTask)
    else Some(SendTask(e.data))
  }

  lemma LeavesTask(s: Server, e: Event)
    requires Enabled(s, e) && IsCall(e)
    ensures CallTask(s, e) == Leaves(s, e)
  {
    hide SendInLoop, SendBufferInLoop;
  }

  /** Each call leaves exactly this at the end of what is pending on the connection's loop, and
      nothing on any other loop. */
  lemma CallsQueueExactly(s: Server, e: Event, l: nat)
    requires Enabled(s, e) && IsCall(e) && l < |s.loops|
    ensures |Step(s, e).loops| == |s.loops|
    ensures Pending(Step(s, e).loops[l]) == Pending(s.loops[l]) +
      (if l == s.objects[e.c].loop && Leaves(s, e).Some? then [Run(e.c, Leaves(s, e).value)] else [])
  {
    LeavesTask(s, e);
    hide Leaves, AfterCall;
    var conn := s.objects[e.c].conn;
    match e
    case UserSend(t, d, data, n) => AfterCallPending(s, d, Send(conn, Inside(s, t, d), data, n), l);
    case UserSendBuffer(t, d, data) => AfterCallPending(s, d, SendBuffer(conn, Inside(s, t, d), data), l);
    case UserShutdown(t, d) => AfterCallPending(s, d, Shutdown(conn, Inside(s, t, d)), l);
    case UserForceClose(t, d) => AfterCallPending(s, d, ForceClose(conn), l);
  }

  lemma AfterCallPending(s: Server, c: Id, r: (Conn, Option<Task>), l: nat)
    requires Has(s, c) && l < |s.loops|
    ensures var t := AfterCall(s, c, r);
      && |t.loops| == |s.loops|
      && Pending(t.loops[l]) == Pending(s.loops[l]) +
           (if l == s.objects[c].loop && r.1.Some? then [Run(c, r.1.value)] else [])
  {
    PutConnPending(s, c, r.0, l);
    hide PutConn;
    assert Pending(s.loops[l]) + [] == Pending(s.loops[l]);
  }

  lemma PutConnPending(s: Server, c: Id, conn: Conn, l: nat)
    requires Has(s, c) && l < |s.loops|
    ensures var t := PutConn(s, c, conn);
      |t.loops| == |s.loops| && t.objects.Keys == s.objects.Keys && t.objects[c].loop == s.objects[c].loop
      && t.loops[l].batch == s.loops[l].batch && t.loops[l].queue == s.loops[l].queue
  {
  }

  // ---- sends by other threads ----

  lemma AcceptedIfConnected(u: Server, l: nat, n: int, c: Id, data: seq<Byte>)
    requires l < |u.loops| && Pending(u.loops[l]) != [] && Pending(u.loops[l])[0] == Run(c, SendTask(data))
    requires Enabled(u, RunNext(l, n)) && c in u.objects
    ensures u.loops[l].batch[0] == Run(c, SendTask(data))
    ensures Payload(u, RunNext(l, n), c) == (if u.objects[c].conn.state == Connected then data else [])
  {
    assert u.loops[l].batch[0] == Pending(u.loops[l])[0];
  }

  lemma RunsFromBatch(s: Server, l: nat, n: int)
    requires Enabled(s, RunNext(l, n))
    ensures l < |s.loops| && s.loops[l].batch != []
  {
  }

  lemma SenderIsConnected(s: Server, e: Event)
    requires Enabled(s, e) && IsSend(e) && Leaves(s, e).Some?
    ensures e.c in s.objects && s.objects[e.c].conn.state == Connected && ConnStep(s, e, e.c) == s.objects[e.c].conn
    ensures s.objects[e.c].loop < |s.loops| && Leaves(s, e) == Some(SendTask(e.data))
  {
  }

  /** From s to t the task is queued last on the connection's loop. */
  ghost predicate QueuesLast(s: Server, t: Server, c: Id, task: Task) {
    && Has(s, c) && |t.loops| == |s.loops|
    && var l := s.objects[c].loop; Pending(t.loops[l]) == Pending(s.loops[l]) + [Run(c, task)]
  }

  /** After this run loop l comes to the send, and it is accepted exactly if nothing stopped c. */
  ghost predicate ComesTo(t: Server, es: seq<Event>, l: nat, c: Id, data: seq<Byte>)
    requires IsRun(t, es)
  {
    var u := After(t, es);
    && l < |u.loops| && Pending(u.loops[l]) != [] && Pending(u.loops[l])[0] == Run(c, SendTask(data))
    && (forall n | Enabled(u, RunNext(l, n)) ::
          && u.loops[l].batch[0] == Run(c, SendTask(data))
          && Payload(u, RunNext(l, n), c) == (if NeverStops(t, es, c) then data else []))
  }

  /** A send by another thread on a connected connection changes nothing but that its payload is queued
      last on the connection's loop, which comes to it after the functors pending before. It is
      accepted then exactly if no shutdown, forceClose or close of the connection has taken effect
      since it was queued; otherwise nothing of it is. */
  lemma CrossThreadSendExactly(s: Server, e: Event, es: seq<Event>)
    requires Reachable(s) && Enabled(s, e) && IsSend(e)
    requires s.objects[e.c].conn.state == Connected && !Inside(s, e.t, e.c)
    requires IsRun(Step(s, e), es) && RunsOf(es, s.objects[e.c].loop) == |Pending(s.loops[s.objects[e.c].loop])|
    ensures QueuesLast(s, Step(s, e), e.c, SendTask(e.data))
    ensures e.c in Step(s, e).objects && Step(s, e).objects[e.c].conn == s.objects[e.c].conn
    ensures ComesTo(Step(s, e), es, s.objects[e.c].loop, e.c, e.data)
  {
    SenderIsConnected(s, e);
    hide Inv, Reachable, IsRun, Step, After, NeverStops, Payload, Enabled, ConnStep, Pending, Leaves, ComesTo;
    var c, l, t := e.c, s.objects[e.c].loop, Step(s, e);
    ReachableIsInv(s);
    StepKeeps(s, e);
    StepConns(s, e, c);
    CallsQueueExactly(s, e, l);
    PlacedSend(t, es, l, |Pending(s.loops[l])|, c, e.data);
  }

  /** A send task at a place of the loop's pending functors, when the loop comes to it. */
  lemma PlacedSend(t: Server, es: seq<Event>, l: nat, i: nat, c: Id, data: seq<Byte>)
    requires Inv(t) && IsRun(t, es) && l < |t.loops| && RunsOf(es, l) == i < |Pending(t.loops[l])|
    requires Pending(t.loops[l])[i] == Run(c, SendTask(data)) && c in t.objects && t.objects[c].conn.state == Connected
    ensures ComesTo(t, es, l, c, data)
  {
    hide Inv, IsRun, Step, After, NeverStops, Payload, Enabled, Pending;
    KeepsPlace(t, es, l, i);
    ConnectedUnlessStopped(t, es, c);
    var u := After(t, es);
    forall n | Enabled(u, RunNext(l, n))
      ensures u.loops[l].batch != [] && u.loops[l].batch[0] == Run(c, SendTask(data))
      ensures Payload(u, RunNext(l, n), c) == (if NeverStops(t, es, c) then data else [])
    {
      RunsFromBatch(u, l, n);
      AcceptedIfConnected(u, l, n, c, data);
    }
  }

  // ---- forceClose ----

  lemma StopQueues(s: Server, e: Event)
    requires Inv(s) && Enabled(s, e) && (e.UserForceClose? || e.UserShutdown?) && Leaves(s, e).Some?
    ensures e.c in s.objects && s.objects[e.c].loop < |s.loops|
    ensures QueuesLast(s, Step(s, e), e.c, Leaves(s, e).value)
    ensures var f, t := Run(e.c, Leaves(s, e).value), Step(s, e);
      && Owes(t, f) && LoopOf(t, f) == s.objects[e.c].loop
      && e.c in t.objects && t.objects[e.c].conn.state == Disconnecting
  {
    hide Inv, Step, ConnStep, Gone, Pending, Leaves;
    StopState(s, e);
    CallsQueueExactly(s, e, s.objects[e.c].loop);
    StepConns(s, e, e.c);
    var l := s.objects[e.c].loop;
    assert Run(e.c, Leaves(s, e).value) in Pending(Step(s, e).loops[l]);
  }

  lemma StopState(s: Server, e: Event)
    requires Enabled(s, e) && (e.UserForceClose? || e.UserShutdown?) && Leaves(s, e).Some?
    ensures e.c in s.objects && s.objects[e.c].loop < |s.loops|
    ensures ConnStep(s, e, e.c).state == Disconnecting && !Leaves(s, e).value.SendTask?
  {
  }

  /** forceClose closes: called by any thread on a connection that is connected or shutting down, it
      leaves its functor last on the connection's loop, and when that loop has completed a whole
      drain the connection is closed, whatever else happens. */
  lemma ForceCloseCloses(s: Server, e: Event, es: seq<Event>)
    requires Reachable(s) && Enabled(s, e) && e.UserForceClose?
    requires s.objects[e.c].conn.state in {Connected, Disconnecting}
    requires IsRun(Step(s, e), es) && WholeDrain(es, s.objects[e.c].loop)
    ensures QueuesLast(s, Step(s, e), e.c, CloseTask)
    ensures var u := After(Step(s, e), es);
      && e.c in u.objects && u.objects[e.c].conn.state == Disconnected && u.objects[e.c].loop == s.objects[e.c].loop
  {
    hide Inv, Reachable, IsRun, Step, After, WholeDrain, Pending, Owes;
    ReachableIsInv(s);
    StepKeeps(s, e);
    StopQueues(s, e);
    CallsQueueExactly(s, e, s.objects[e.c].loop);
    var f := Run(e.c, CloseTask);
    DrainRunsOwed(Step(s, e), es, f);
    GoneForGood(Step(s, e), es, f);
    hide Enabled;
  }

  /** ... and three drains destroy it: of its own loop, of the accepting loop and of its own again. */
  lemma ForceCloseEnds(s: Server, e: Event, es: seq<Event>, fs: seq<Event>, gs: seq<Event>)
    requires Reachable(s) && Enabled(s, e) && e.UserForceClose?
    requires s.objects[e.c].conn.state in {Connected, Disconnecting}
    requires IsRun(Step(s, e), es) && WholeDrain(es, s.objects[e.c].loop)
    requires var t := After(Step(s, e), es); IsRun(t, fs) && WholeDrain(fs, 0)
    requires var u := After(After(Step(s, e), es), fs); IsRun(u, gs) && WholeDrain(gs, s.objects[e.c].loop)
    ensures var v := After(After(After(Step(s, e), es), fs), gs);
      && e.c in v.objects && !v.objects[e.c].open && v.objects[e.c].destroyed == 1
      && !(v.objects[e.c].fd in v.openFds && v.openFds[v.objects[e.c].fd] == e.c)
  {
    ForceCloseCloses(s, e, es);
    StepReached(s, e);
    hide Reachable, IsRun, Step, After, WholeDrain;
    RunReached(Step(s, e), es);
    ClosedConnectionsEnd(After(Step(s, e), es), fs, gs, e.c);
  }

  lemma StepReached(s: Server, e: Event)
    requires Reachable(s) && Enabled(s, e)
    ensures Reachable(Step(s, e))
  {
    var threadNum: nat, es :| IsRun(Init(threadNum), es) && After(Init(threadNum), es) == s;
    hide Init, Step, Enabled;
    RunsJoin(Init(threadNum), es, [e]);
    assert [e][1..] == [];
    assert IsRun(s, [e]) && After(s, [e]) == Step(s, e);
    assert IsRun(Init(threadNum), es + [e]) && After(Init(threadNum), es + [e]) == Step(s, e);
  }

  lemma RunReached(s: Server, fs: seq<Event>)
    requires Reachable(s) && IsRun(s, fs)
    ensures Reachable(After(s, fs))
  {
    var threadNum: nat, es :| IsRun(Init(threadNum), es) && After(Init(threadNum), es) == s;
    RunsJoin(Init(threadNum), es, fs);
    assert IsRun(Init(threadNum), es + fs);
  }

  lemma {:induction false} RunsJoin(s: Server, es: seq<Event>, fs: seq<Event>)
    requires IsRun(s, es) && IsRun(After(s, es), fs)
    ensures IsRun(s, es + fs) && After(s, es + fs) == After(After(s, es), fs)
    decreases |es|
  {
    if es == [] {
      assert es + fs == fs;
    } else {
      assert (es + fs)[1..] == es[1..] + fs;
      hide Step, Enabled;
      RunsJoin(Step(s, es[0]), es[1..], fs);
    }
  }

  // ---- shutdown ----

  /** A shutdown by another thread is served: it changes the state at once and leaves its functor last
      on the connection's loop; when that loop has completed a whole drain the half-close is made, or
      a write event that will make it is awaited or being handled, or the connection was closed. */
  lemma ForeignShutdownServed(s: Server, e: Event, es: seq<Event>)
    requires Reachable(s) && Enabled(s, e) && e.UserShutdown?
    requires s.objects[e.c].conn.state == Connected && !Inside(s, e.t, e.c)
    requires IsRun(Step(s, e), es) && WholeDrain(es, s.objects[e.c].loop)
    ensures QueuesLast(s, Step(s, e), e.c, ShutdownTask)
    ensures e.c in Step(s, e).objects && Step(s, e).objects[e.c].conn.state == Disconnecting
    ensures Served(After(Step(s, e), es), e.c)
    // With nothing waiting, the half-close is made.
    ensures var u := After(Step(s, e), es); var o := u.objects[e.c];
      !o.conn.interest.writing && InCallback(u, o.loop) != Some(e.c) ==>
        o.conn.finAt.Some? || o.conn.state == Disconnected
  {
    hide Inv, Reachable, IsRun, Step, After, WholeDrain, Pending, Owes;
    ReachableIsInv(s);
    StepKeeps(s, e);
    StopQueues(s, e);
    CallsQueueExactly(s, e, s.objects[e.c].loop);
    StepConns(s, e, e.c);
    var f := Run(e.c, ShutdownTask);
    DrainRunsOwed(Step(s, e), es, f);
    hide Enabled;
  }

  /** A shutdown on the loop's own thread queues nothing and half-closes at once, unless write events
      are awaited. */
  lemma OwnShutdownExactly(s: Server, e: Event)
    requires Inv(s) && Enabled(s, e) && e.UserShutdown? && Inside(s, e.t, e.c) && s.objects[e.c].conn.state == Connected
    ensures var t := Step(s, e); var conn := s.objects[e.c].conn;
      && e.c in t.objects && t.objects[e.c].conn.state == Disconnecting
      && (!conn.interest.writing ==> t.objects[e.c].conn.finAt.Some?)
      && (conn.interest.writing ==> t.objects[e.c].conn.finAt == conn.finAt)
    ensures |Step(s, e).loops| == |s.loops|
    ensures forall l | 0 <= l < |s.loops| :: Pending(Step(s, e).loops[l]) == Pending(s.loops[l])
  {
    hide Inv, Step, ConnStep, Pending, Leaves;
    StepConns(s, e, e.c);
    OwnShutdownConn(s, e);
    CallsQueueExactly(s, e, s.objects[e.c].loop);
    forall l | 0 <= l < |s.loops|
      ensures Pending(Step(s, e).loops[l]) == Pending(s.loops[l])
    {
      CallsQueueExactly(s, e, l);
      assert Pending(s.loops[l]) + [] == Pending(s.loops[l]);
    }
  }

  lemma OwnShutdownConn(s: Server, e: Event)
    requires Enabled(s, e) && e.UserShutdown? && Inside(s, e.t, e.c) && s.objects[e.c].conn.state == Connected
    ensures e.c in s.objects && Leaves(s, e).None?
    ensures var c, d := s.objects[e.c].conn, ConnStep(s, e, e.c);
      && d.state == Disconnecting
      && (!c.interest.writing ==> d.finAt.Some?) && (c.interest.writing ==> d.finAt == c.finAt)
  {
  }
}
