/** The functor queues of the loops over whole runs: a functor keeps its place until it is run.
    From this, when a send from another thread is accepted, and that closed connections end. */
module LifecycleOrder {
  import opened Prelude
  import opened EpollModel
  import opened ConnectionStream
  import opened Lifecycle
  import opened LifecycleInvariant
  import opened LifecycleTheorems
  import opened LifecycleStreams

  // ---- what a step does to the queues ----

  predicate LoopAppends(a: Loop, b: Loop) {
    b.phase == a.phase && b.active == a.active && b.current == a.current && b.batch == a.batch && a.queue <= b.queue
  }

  ghost predicate Appends(s: Server, t: Server) {
    |t.loops| == |s.loops| && forall l | 0 <= l < |s.loops| :: LoopAppends(s.loops[l], t.loops[l])
  }

  /** No connection's name or descriptor changes and no entry joins connections_. */
  ghost predicate Shrinks(s: Server, t: Server) {
    && (forall c <- s.objects ::
          c in t.objects && t.objects[c].name == s.objects[c].name && t.objects[c].fd == s.objects[c].fd)
    && (forall k <- t.table.connections ::
          k in s.table.connections && t.table.connections[k] == s.table.connections[k])
  }

  lemma AppendsChain(s: Server, t: Server, u: Server)
    requires Appends(s, t) && Appends(t, u) && Shrinks(s, t) && Shrinks(t, u)
    ensures Appends(s, u) && Shrinks(s, u)
  {
    forall l | 0 <= l < |s.loops|
      ensures LoopAppends(s.loops[l], u.loops[l])
    {
      assert LoopAppends(s.loops[l], t.loops[l]);
    }
  }

  lemma PutConnAppends(s: Server, c: Id, conn: Conn)
    requires Has(s, c)
    ensures Appends(s, PutConn(s, c, conn)) && Shrinks(s, PutConn(s, c, conn))
  {
  }

  lemma UpdateAppends(s: Server, c: Id)
    requires Has(s, c)
    ensures Has(UpdateChannel(s, c), c) && Appends(s, UpdateChannel(s, c)) && Shrinks(s, UpdateChannel(s, c))
    ensures Has(RemoveChannel(s, c), c) && Appends(s, RemoveChannel(s, c)) && Shrinks(s, RemoveChannel(s, c))
  {
  }

  lemma HandleCloseAppends(s: Server, l: nat, c: Id)
    requires Has(s, c) && l < |s.loops|
    ensures Appends(s, HandleClose(s, l, c)) && Shrinks(s, HandleClose(s, l, c))
  {
  }

  lemma EstablishedAppends(s: Server, l: nat, c: Id)
    requires Has(s, c)
    ensures Appends(s, ConnectEstablished(s, l, c)) && Shrinks(s, ConnectEstablished(s, l, c))
  {
  }

  lemma DestroyedAppends(s: Server, l: nat, c: Id)
    requires Has(s, c)
    ensures Appends(s, ConnectDestroyed(s, l, c)) && Shrinks(s, ConnectDestroyed(s, l, c))
  {
    hide UpdateChannel, RemoveChannel;
    var t := Put(Blame(s, l != s.objects[c].loop, WrongThread), c,
                 s.objects[c].(conn := s.objects[c].conn.(interest := NO_EVENT)));
    assert Appends(s, t) && Shrinks(s, t);
    UpdateAppends(t, c);
    UpdateAppends(UpdateChannel(t, c), c);
    hide Appends, Shrinks;
    AppendsChain(s, t, UpdateChannel(t, c));
    AppendsChain(s, UpdateChannel(t, c), RemoveChannel(UpdateChannel(t, c), c));
    CloseFdAppends(RemoveChannel(UpdateChannel(t, c), c), c);
    AppendsChain(s, RemoveChannel(UpdateChannel(t, c), c), ConnectDestroyed(s, l, c));
  }

  lemma CloseFdAppends(s: Server, c: Id)
    requires Has(s, c)
    ensures Appends(s, CloseFd(s, c)) && Shrinks(s, CloseFd(s, c))
  {
  }

  /** How loop l moves in a step. */
  predicate LoopMoves(e: Event, l: nat, a: Loop, b: Loop) {
    if e == StartDrain(l) then
      a.active == [] && b.active == [] && b.phase.Draining? && b.batch == a.queue && b.queue == []
    else if e == EndDrain(l) then
      b.phase.Polling? && b.active == a.active && a.batch == [] && b.batch == [] && b.queue == a.queue
    else if e.PollReturn? && e.l == l then
      b.phase.Dispatching? && b.active == e.ready && b.batch == a.batch && b.queue == a.queue
    else if e == NextChannel(l) then
      && b.phase == a.phase && b.batch == a.batch && b.queue == a.queue
      && a.active != [] && b.current == Some(a.active[0]) && b.active == a.active[1..]
    else if e.RunNext? && e.l == l then
      && a.phase.Draining? && a.batch != [] && b.phase.Draining? && b.batch == a.batch[1..] && a.queue <= b.queue
      && b.active == a.active
    else LoopAppends(a, b)
  }

  ghost predicate Moves(s: Server, e: Event, t: Server) {
    |t.loops| == |s.loops| && forall l | 0 <= l < |s.loops| :: LoopMoves(e, l, s.loops[l], t.loops[l])
  }

  lemma RunFunctorAppends(s: Server, l: nat, f: Functor, n: int)
    requires l < |s.loops| && (f.Other? || Has(s, f.c)) && (f.Run? && f.task.SendTask? ==> n <= |f.task.data|)
    ensures Appends(s, RunFunctor(s, l, f, n)) && Shrinks(s, RunFunctor(s, l, f, n))
  {
    hide ConnectEstablished, ConnectDestroyed, HandleClose, PutConn;
    match f
    case Establish(c) => EstablishedAppends(s, l, c);
    case Destroy(c) => DestroyedAppends(s, l, c);
    case Remove(c) =>
    case Run(c, task) =>
      var u := Blame(Blame(s, !s.objects[c].open, StaleTask), l != s.objects[c].loop, WrongThread);
      if task.CloseTask? {
        HandleCloseAppends(u, l, c);
      } else {
        PutConnAppends(u, c, RunTask(u.objects[c].conn, task, n));
      }
    case Other =>
  }

  lemma WriteAppends(s: Server, e: Event)
    requires Enabled(s, e) && e.WriteReady?
    ensures Appends(s, Step(s, e)) && Shrinks(s, Step(s, e))
  {
    hide HandleClose, PutConn, WriteSome;
    var d := s.loops[e.l].current.value;
    var u := Blame(s, s.objects[d].index < 0, StaleChannel);
    HandleCloseAppends(u, e.l, d);
    PutConnAppends(u, d, WriteSome(s.objects[d].conn, e.n).0);
  }

  lemma FinishWriteAppends(s: Server, e: Event)
    requires Enabled(s, e) && e.FinishWriteEvent?
    ensures Appends(s, Step(s, e)) && Shrinks(s, Step(s, e))
  {
    hide PutConn;
    var d := s.loops[e.l].current.value;
    var u := Blame(s, s.objects[d].index < 0, StaleChannel);
    PutConnAppends(SetLoop(u, e.l, s.loops[e.l].(inWriteCallback := false)), d, FinishWrite(s.objects[d].conn));
  }

  lemma ClosingAppends(s: Server, e: Event)
    requires Enabled(s, e) && (e.ReadReady? || e.CloseReady?)
    ensures Appends(s, Step(s, e)) && Shrinks(s, Step(s, e))
  {
    hide HandleClose;
    var d := s.loops[e.l].current.value;
    HandleCloseAppends(Blame(s, s.objects[d].index < 0, StaleChannel), e.l, d);
  }

  lemma HandlerAppends(s: Server, e: Event)
    requires Enabled(s, e) && (e.ReadReady? || e.WriteReady? || e.CloseReady? || e.FinishWriteEvent?)
    ensures Appends(s, Step(s, e)) && Shrinks(s, Step(s, e))
  {
    hide Step, Appends, Shrinks;
    if e.WriteReady? {
      WriteAppends(s, e);
    } else if e.FinishWriteEvent? {
      FinishWriteAppends(s, e);
    } else {
      ClosingAppends(s, e);
    }
  }

  lemma AfterCallAppends(s: Server, c: Id, r: (Conn, Option<Task>))
    requires Has(s, c)
    ensures var t := AfterCall(s, c, r); Appends(s, t) && Shrinks(s, t) && var l := s.objects[c].loop;
      r.1.Some? ==> t.loops[l].queue == s.loops[l].queue + [Run(c, r.1.value)]
  {
    PutConnAppends(s, c, r.0);
  }

  lemma UserCallAppends(s: Server, e: Event)
    requires Enabled(s, e)
    requires e.UserSend? || e.UserSendBuffer? || e.UserShutdown? || e.UserForceClose?
    ensures Appends(s, Step(s, e)) && Shrinks(s, Step(s, e))
    ensures CallTask(s, e).Some? ==>
      var l := s.objects[e.c].loop; Step(s, e).loops[l].queue == s.loops[l].queue + [Run(e.c, CallTask(s, e).value)]
  {
    hide AfterCall;
    var conn := s.objects[e.c].conn;
    match e
    case UserSend(t, d, data, n) => AfterCallAppends(s, d, Send(conn, Inside(s, t, d), data, n));
    case UserSendBuffer(t, d, data) => AfterCallAppends(s, d, SendBuffer(conn, Inside(s, t, d), data));
    case UserShutdown(t, d) => AfterCallAppends(s, d, Shutdown(conn, Inside(s, t, d)));
    case UserForceClose(t, d) => AfterCallAppends(s, d, ForceClose(conn));
  }

  lemma AcceptAppends(s: Server, e: Event)
    requires Enabled(s, e) && e.Accept?
    ensures Appends(s, Step(s, e)) && Shrinks(Inserted(s, e.c, e.fd, e.l), Step(s, e))
  {
    var t := Inserted(s, e.c, e.fd, e.l);
    if e.l == 0 {
      EstablishedAppends(t, 0, e.c);
    }
    hide ConnectEstablished;
  }

  /** Each loop's queue only grows at its end, and its batch only shrinks at its front. */
  lemma StepMoves(s: Server, e: Event)
    requires Enabled(s, e)
    ensures Moves(s, e, Step(s, e))
  {
    hide Step, Enabled, Appends, Shrinks, Moves;
    if {
      case e.Accept? => AcceptAppends(s, e); AppendsMoves(s, e, Step(s, e));
      case e.RunNext? => RunNextMoves(s, e);
      case e.ReadReady? || e.WriteReady? || e.CloseReady? || e.FinishWriteEvent? =>
        HandlerAppends(s, e);
        AppendsMoves(s, e, Step(s, e));
      case e.UserSend? || e.UserSendBuffer? || e.UserShutdown? || e.UserForceClose? =>
        UserCallAppends(s, e);
        AppendsMoves(s, e, Step(s, e));
      case e.PollReturn? || e.NextChannel? || e.StartDrain? || e.EndDrain? || e.UserQueue? => PhaseMoves(s, e);
    }
  }

  lemma AppendsMoves(s: Server, e: Event, t: Server)
    requires Appends(s, t) && !e.PollReturn? && !e.NextChannel? && !e.StartDrain? && !e.EndDrain? && !e.RunNext?
    ensures Moves(s, e, t)
  {
    hide LoopAppends;
  }

  lemma RunNextMoves(s: Server, e: Event)
    requires Enabled(s, e) && e.RunNext?
    ensures Moves(s, e, Step(s, e))
  {
    RunFunctorAppends(Pop(s, e.l), e.l, s.loops[e.l].batch[0], e.n);
    hide RunFunctor, Shrinks;
  }

  lemma PhaseMoves(s: Server, e: Event)
    requires Enabled(s, e) && (e.PollReturn? || e.NextChannel? || e.StartDrain? || e.EndDrain? || e.UserQueue?)
    ensures Moves(s, e, Step(s, e))
  {
  }

  // ---- a functor keeps its place ----

  /** The functors loop l runs in a run. */
  function RunsOf(es: seq<Event>, l: nat): nat {
    if es == [] then 0 else (if es[0].RunNext? && es[0].l == l then 1 else 0) + RunsOf(es[1..], l)
  }

  lemma PlaceMoves(e: Event, l: nat, a: Loop, b: Loop, i: nat)
    requires LoopMoves(e, l, a, b) && (!a.phase.Draining? ==> a.batch == []) && i < |Pending(a)|
    requires e == StartDrain(l) ==> !a.phase.Draining?
    requires e.RunNext? && e.l == l ==> i > 0
    ensures var k := if e.RunNext? && e.l == l then i - 1 else i;
      k < |Pending(b)| && Pending(b)[k] == Pending(a)[i]
  {
  }

  lemma NoBatchOutside(s: Server, l: nat)
    requires Inv(s) && l < |s.loops|
    ensures !s.loops[l].phase.Draining? ==> s.loops[l].batch == [] && Pending(s.loops[l]) == s.loops[l].queue
  {
    LoopIsWf(s, l);
    hide Inv;
    assert !s.loops[l].phase.Draining? ==> s.loops[l].batch == [];
  }

  /** Whatever else happens, the functor at place i of what is pending on a loop is the next one when
      the loop has run i functors. */
  lemma {:induction false} KeepsPlace(s: Server, es: seq<Event>, l: nat, i: nat)
    requires Inv(s) && IsRun(s, es) && l < |s.loops| && RunsOf(es, l) <= i < |Pending(s.loops[l])|
    ensures var t, k := After(s, es), i - RunsOf(es, l);
      && |t.loops| == |s.loops| && k < |Pending(t.loops[l])|
      && Pending(t.loops[l])[k] == Pending(s.loops[l])[i]
    decreases |es|
  {
    hide Inv, Step, Enabled, Pending;
    if es != [] {
      var e := es[0];
      PlaceStep(s, e, l, i);
      KeepsPlace(Step(s, e), es[1..], l, if e.RunNext? && e.l == l then i - 1 else i);
    }
  }

  lemma PlaceStep(s: Server, e: Event, l: nat, i: nat)
    requires Inv(s) && Enabled(s, e) && l < |s.loops| && i < |Pending(s.loops[l])|
    requires e.RunNext? && e.l == l ==> i > 0
    ensures var t, k := Step(s, e), if e.RunNext? && e.l == l then i - 1 else i;
      && Inv(t) && |t.loops| == |s.loops|
      && k < |Pending(t.loops[l])| && Pending(t.loops[l])[k] == Pending(s.loops[l])[i]
  {
    hide Inv, Step, LoopMoves, Pending;
    StepKeeps(s, e);
    StepMoves(s, e);
    NoBatchOutside(s, l);
    DrainStartsIdle(s, e, l);
    hide Enabled;
    PlaceMoves(e, l, s.loops[l], Step(s, e).loops[l], i);
  }

  lemma DrainStartsIdle(s: Server, e: Event, l: nat)
    requires Enabled(s, e)
    ensures e == StartDrain(l) ==> l < |s.loops| && !s.loops[l].phase.Draining?
  {
  }

  // ---- every ready channel gets its turn ----

  /** The channels loop l turns to in a run, in order. */
  function Turns(s: Server, es: seq<Event>, l: nat): seq<Id>
    requires IsRun(s, es)
    decreases |es|
  {
    if es == [] then []
    else
      (if es[0] == NextChannel(l) then [s.loops[l].active[0]] else []) + Turns(Step(s, es[0]), es[1..], l)
  }

  lemma {:induction false} TurnsAndActive(s: Server, es: seq<Event>, l: nat)
    requires IsRun(s, es) && l < |s.loops| && s.loops[l].phase.Dispatching?
    requires StartDrain(l) !in es
    ensures var t := After(s, es);
      && l < |t.loops| && t.loops[l].phase.Dispatching?
      && Turns(s, es, l) + t.loops[l].active == s.loops[l].active
    decreases |es|
  {
    if es != [] {
      var e := es[0];
      assert e in es;
      StepMoves(s, e);
      StaysDispatching(s, e, l);
      hide Step, Enabled;
      TurnsAndActive(Step(s, e), es[1..], l);
      if e == NextChannel(l) {
        assert s.loops[l].active == [s.loops[l].active[0]] + s.loops[l].active[1..];
      }
    }
  }

  lemma StaysDispatching(s: Server, e: Event, l: nat)
    requires Enabled(s, e) && l < |s.loops| && s.loops[l].phase.Dispatching?
    ensures e != EndDrain(l) && !(e.PollReturn? && e.l == l) && !(e.RunNext? && e.l == l)
  {
  }

  /** Between a poll and the functors that follow it, the loop turns to every channel the poll
      reported, once, in the order of the report, whatever else happens. */
  lemma ReadyIsDispatched(s: Server, l: nat, ready: seq<Id>, es: seq<Event>)
    requires Enabled(s, PollReturn(l, ready)) && IsRun(Step(s, PollReturn(l, ready)), es)
    requires StartDrain(l) !in es && Enabled(After(Step(s, PollReturn(l, ready)), es), StartDrain(l))
    ensures Turns(Step(s, PollReturn(l, ready)), es, l) == ready
  {
    StepMoves(s, PollReturn(l, ready));
    TurnsAndActive(Step(s, PollReturn(l, ready)), es, l);
    hide IsRun, After, Step, Turns;
  }

  // ---- how a connection's state moves ----

  /** The step closes connection c: end of file, an error, or the functor of a forceClose. */
  predicate Closes(s: Server, e: Event, c: Id)
    requires Enabled(s, e) && c in s.objects
  {
    match e
    case ReadReady(l, n) => Current(s, l) == c && n <= 0
    case CloseReady(l) => Current(s, l) == c
    case WriteReady(l, n) => Current(s, l) == c && s.objects[c].conn.interest.writing && n <= 0
    case RunNext(l, n) => s.loops[l].batch[0] == Run(c, CloseTask)
    case _ => false
  }

  /** The step takes connection c out of kConnected. */
  predicate Stops(s: Server, e: Event, c: Id)
    requires Enabled(s, e) && c in s.objects
  {
    match e
    case UserShutdown(t, d) => d == c
    case UserForceClose(t, d) => d == c
    case _ => Closes(s, e, c)
  }

  predicate NeverStops(s: Server, es: seq<Event>, c: Id)
    requires IsRun(s, es)
    decreases |es|
  {
    es == [] || (c in s.objects && !Stops(s, es[0], c) && NeverStops(Step(s, es[0]), es[1..], c))
  }

  lemma TaskState(c: Conn, task: Task, n: int)
    requires task.SendTask? ==> n <= |task.data|
    ensures RunTask(c, task, n).state == if task.CloseTask? then Disconnected else c.state
  {
  }

  lemma HeadStateMoves(s: Server, e: Event, c: Id)
    requires Inv(s) && Enabled(s, e) && e.RunNext? && c in s.objects && s.objects[c].conn.state != Connecting
    ensures ConnStep(s, e, c).state == if Closes(s, e, c) then Disconnected else s.objects[c].conn.state
  {
    hide Inv, Step, RunTask, ConnectionStream.Stream;
    HeadFacts(s, e.l, e.n, c);
    var f := s.loops[e.l].batch[0];
    if f.Run? && f.c == c {
      TaskState(s.objects[c].conn, f.task, e.n);
    }
  }

  lemma EventStateMoves(s: Server, e: Event, c: Id)
    requires Enabled(s, e) && !e.RunNext? && c in s.objects && s.objects[c].conn.state != Connecting
    ensures var conn, d := s.objects[c].conn, ConnStep(s, e, c);
      && d.state != Connecting
      && (d.state == Connected <==> conn.state == Connected && !Stops(s, e, c))
      && (d.state == Disconnected <==> conn.state == Disconnected || Closes(s, e, c))
  {
  }

  /** kConnected is left exactly by these steps, and never entered again; kDisconnected is reached
      exactly by the closing ones, and is final. */
  lemma StateMoves(s: Server, e: Event, c: Id)
    requires Inv(s) && Enabled(s, e) && c in s.objects && s.objects[c].conn.state != Connecting
    ensures var conn, d := s.objects[c].conn, ConnStep(s, e, c);
      && d.state != Connecting
      && (d.state == Connected <==> conn.state == Connected && !Stops(s, e, c))
      && (d.state == Disconnected <==> conn.state == Disconnected || Closes(s, e, c))
  {
    hide ConnStep, Closes;
    if e.RunNext? {
      HeadStateMoves(s, e, c);
    } else {
      EventStateMoves(s, e, c);
    }
  }

  /** A step that closes a connection leaves it closed and its removal from connections_ done or
      pending on the accepting loop; with ClosedConnectionsEnd it is then destroyed. */
  lemma CloseBeginsRemoval(s: Server, e: Event, c: Id)
    requires Reachable(s) && Enabled(s, e) && c in s.objects && s.objects[c].conn.state != Connecting && Closes(s, e, c)
    ensures var t := Step(s, e);
      && c in t.objects && t.objects[c].conn.state == Disconnected
      && |t.loops| > 0 && (Listed(t, c) ==> Remove(c) in Pending(t.loops[0]))
  {
    ReachableIsInv(s);
    StepConns(s, e, c);
    StateMoves(s, e, c);
    StepKeeps(s, e);
    hide Reachable, Step, Closes, ConnStep;
    OwedIsPending(Step(s, e), Remove(c));
    hide Inv;
  }

  lemma {:induction false} ConnectedUnlessStopped(s: Server, es: seq<Event>, c: Id)
    requires Inv(s) && IsRun(s, es) && c in s.objects && s.objects[c].conn.state != Connecting
    ensures c in After(s, es).objects
    ensures After(s, es).objects[c].conn.state == Connected <==>
      s.objects[c].conn.state == Connected && NeverStops(s, es, c)
    decreases |es|
  {
    if es != [] {
      StepKeeps(s, es[0]);
      StepConns(s, es[0], c);
      StateMoves(s, es[0], c);
      hide Inv, Step, Enabled, Stops, ConnStep;
      ConnectedUnlessStopped(Step(s, es[0]), es[1..], c);
    }
  }

  // ---- what a drain gets done ----

  predicate Listed(s: Server, c: Id) {
    c in s.objects && s.objects[c].name in s.table.connections && s.table.connections[s.objects[c].name] == c
  }

  /** A shutdown has been served: the half-close is made, or it will be at the end of the write event
      that is being handled or still awaited, or the connection has been closed. */
  predicate Served(s: Server, c: Id) {
    && c in s.objects && s.objects[c].loop < |s.loops| && s.objects[c].conn.state in {Disconnecting, Disconnected}
    && (s.objects[c].conn.finAt.Some? || s.objects[c].conn.interest.writing
        || InCallback(s, s.objects[c].loop) == Some(c) || s.objects[c].conn.state == Disconnected)
  }

  /** The functor has done its work. */
  predicate Gone(s: Server, f: Functor) {
    match f
    case Remove(c) => !Listed(s, c)
    case Destroy(c) => c in s.objects && !s.objects[c].open
    case Run(c, task) =>
      (task.CloseTask? && c in s.objects && s.objects[c].conn.state == Disconnected) ||
      (task.ShutdownTask? && Served(s, c))
    case _ => false
  }

  /** From such a state on the functor is pending until it has done its work. */
  predicate Owes(s: Server, f: Functor) {
    match f
    case Remove(c) => c in s.objects && s.objects[c].conn.state == Disconnected
    case Destroy(c) => c in s.objects && !Listed(s, c)
    case Run(c, task) =>
      && c in s.objects && s.objects[c].loop < |s.loops| && s.objects[c].conn.state != Connecting
      && !task.SendTask?
      && (task.ShutdownTask? ==> s.objects[c].conn.state in {Disconnecting, Disconnected})
      && (Gone(s, f) || f in Pending(s.loops[s.objects[c].loop]))
    case _ => false
  }

  function LoopOf(s: Server, f: Functor): nat {
    if (f.Destroy? || f.Run?) && f.c in s.objects then s.objects[f.c].loop else 0
  }

  lemma OwedIsPending(s: Server, f: Functor)
    requires Inv(s) && Owes(s, f)
    ensures LoopOf(s, f) < |s.loops| && (Gone(s, f) || f in Pending(s.loops[LoopOf(s, f)]))
  {
    if !f.Run? {
      assert Has(s, f.c);
      var sl := SliceOf(s, f.c);
      assert Good(f.c, sl);
      if f.Destroy? && sl.o.open {
        assert sl.pend[|sl.pend| - 1] in sl.pend;
        ProjMember(Pending(s.loops[sl.o.loop]), f.c, f);
      }
    }
  }

  lemma InsertListsOnlyNew(s: Server, c: Id, fd: Fd, l: nat, d: Id)
    requires NamesWf(s) && c !in s.objects && l < |s.loops| && d in s.objects
    ensures Listed(Inserted(s, c, fd, l), d) <==> Listed(s, d)
    ensures Inserted(s, c, fd, l).objects[d] == s.objects[d]
  {
  }

  lemma ShrinksUnlists(s: Server, t: Server, c: Id)
    requires Shrinks(s, t) && c in s.objects
    ensures Listed(t, c) ==> Listed(s, c)
  {
  }

  lemma NamesAreWf(s: Server)
    requires Inv(s)
    ensures NamesWf(s)
  {
  }

  lemma StepUnlists(s: Server, e: Event, c: Id)
    requires Inv(s) && Enabled(s, e) && c in s.objects
    ensures Listed(Step(s, e), c) ==> Listed(s, c)
    ensures e.RunNext? && s.loops[e.l].batch[0] == Remove(c) ==> !Listed(Step(s, e), c)
  {
    if e.Accept? {
      AcceptAppends(s, e);
      NamesAreWf(s);
      hide Inv, Step, Shrinks;
      InsertListsOnlyNew(s, e.c, e.fd, e.l, c);
      ShrinksUnlists(Inserted(s, e.c, e.fd, e.l), Step(s, e), c);
    } else {
      StepShrinks(s, e);
      ShrinksUnlists(s, Step(s, e), c);
      if e.RunNext? && s.loops[e.l].batch[0] == Remove(c) {
        RemovalUnlists(s, e, c);
      }
    }
  }

  lemma RemovalUnlists(s: Server, e: Event, c: Id)
    requires Enabled(s, e) && e.RunNext? && s.loops[e.l].batch[0] == Remove(c)
    ensures !Listed(Step(s, e), c)
  {
  }

  lemma StepShrinks(s: Server, e: Event)
    requires Enabled(s, e) && !e.Accept?
    ensures Shrinks(s, Step(s, e))
  {
    if {
      case e.RunNext? => RunFunctorAppends(Pop(s, e.l), e.l, s.loops[e.l].batch[0], e.n);
      case e.ReadReady? || e.WriteReady? || e.CloseReady? || e.FinishWriteEvent? => HandlerAppends(s, e);
      case e.UserSend? || e.UserSendBuffer? || e.UserShutdown? || e.UserForceClose? => UserCallAppends(s, e);
      case e.PollReturn? || e.NextChannel? || e.StartDrain? || e.EndDrain? || e.UserQueue? =>
    }
    hide RunFunctor, HandleClose, PutConn, WriteEvent, AfterCall, Appends;
  }

  /** A pending functor stays pending until it runs. */
  lemma PendingLeaves(e: Event, l: nat, a: Loop, b: Loop, f: Functor)
    requires LoopMoves(e, l, a, b) && (!a.phase.Draining? ==> a.batch == []) && f in Pending(a)
    requires e == StartDrain(l) ==> !a.phase.Draining?
    ensures f in Pending(b) || (e.RunNext? && e.l == l && a.batch != [] && a.batch[0] == f)
  {
    assert a.batch != [] ==> a.batch == [a.batch[0]] + a.batch[1..];
    assert a.queue <= b.queue ==> forall g <- a.queue :: g in b.queue;
  }

  lemma StaysPending(s: Server, e: Event, l: nat, f: Functor)
    requires Inv(s) && Enabled(s, e) && l < |s.loops| && f in Pending(s.loops[l])
    ensures l < |Step(s, e).loops|
    ensures f in Pending(Step(s, e).loops[l]) || (e.RunNext? && e.l == l && s.loops[l].batch[0] == f)
  {
    hide Inv, Step, LoopMoves;
    StepMoves(s, e);
    NoBatchOutside(s, l);
    DrainStartsIdle(s, e, l);
    PendingLeaves(e, l, s.loops[l], Step(s, e).loops[l], f);
  }

  /** A half-close once made, awaited or under way is not forgotten. */
  lemma ServedStays(s: Server, e: Event, c: Id)
    requires Inv(s) && Enabled(s, e) && Served(s, c)
    ensures Served(Step(s, e), c)
  {
    StepConns(s, e, c);
    StateMoves(s, e, c);
    StepMoves(s, e);
    if ConnStep(s, e, c).state == Disconnecting {
      DrainSees(s, e, c);
      DrainingStaysServed(s, e, c);
    }
    hide Inv, Step, ConnStep, LoopMoves, DrainFacts;
  }

  lemma DrainingStaysServed(s: Server, e: Event, c: Id)
    requires Enabled(s, e) && DrainFacts(s, e, c) && Served(s, c)
    requires s.objects[c].conn.state == Disconnecting && Step(s, e).objects[c].conn.state == Disconnecting
    ensures Served(Step(s, e), c)
  {
    hide Step;
  }

  /** The functor of a shutdown half-closes, or leaves it to the write event that is awaited. */
  lemma ShutdownServes(s: Server, e: Event, c: Id)
    requires Inv(s) && Enabled(s, e) && e.RunNext? && s.loops[e.l].batch[0] == Run(c, ShutdownTask)
    requires c in s.objects && s.objects[c].loop < |s.loops| && s.objects[c].conn.state in {Disconnecting, Disconnected}
    ensures Served(Step(s, e), c)
  {
    hide Inv, Step, LoopMoves, ConnStep, Closes, Stops;
    StepConns(s, e, c);
    StateMoves(s, e, c);
    StepMoves(s, e);
    ShutdownConn(s, e, c);
  }

  lemma ShutdownConn(s: Server, e: Event, c: Id)
    requires Enabled(s, e) && e.RunNext? && s.loops[e.l].batch[0] == Run(c, ShutdownTask) && c in s.objects
    ensures ConnStep(s, e, c).finAt.Some? || ConnStep(s, e, c).interest.writing
  {
  }

  lemma RunGoneStays(s: Server, e: Event, f: Functor)
    requires Inv(s) && Enabled(s, e) && f.Run? && Owes(s, f)
    ensures Gone(s, f) ==> Gone(Step(s, e), f)
    ensures e.RunNext? && s.loops[e.l].batch[0] == f ==> Gone(Step(s, e), f)
  {
    hide Inv, Step, ConnStep, Served, Pending;
    StepConns(s, e, f.c);
    StateMoves(s, e, f.c);
    if f.task.ShutdownTask? {
      if Served(s, f.c) {
        ServedStays(s, e, f.c);
      }
      if e.RunNext? && s.loops[e.l].batch[0] == f {
        ShutdownServes(s, e, f.c);
      }
    }
  }

  lemma RunOwesStays(s: Server, e: Event, f: Functor)
    requires Inv(s) && Enabled(s, e) && f.Run? && Owes(s, f)
    ensures Owes(Step(s, e), f) && LoopOf(Step(s, e), f) == LoopOf(s, f)
  {
    RunGoneStays(s, e, f);
    StepConns(s, e, f.c);
    StateMoves(s, e, f.c);
    StepMoves(s, e);
    if f in Pending(s.loops[s.objects[f.c].loop]) {
      StaysPending(s, e, s.objects[f.c].loop, f);
    }
    hide Inv, Step, ConnStep, Pending, Gone, LoopMoves;
  }

  lemma GoneStays(s: Server, e: Event, f: Functor)
    requires Inv(s) && Enabled(s, e) && Owes(s, f)
    ensures f.c in Step(s, e).objects
    ensures Gone(s, f) ==> Gone(Step(s, e), f)
    ensures Owes(Step(s, e), f) && LoopOf(Step(s, e), f) == LoopOf(s, f)
    ensures e.RunNext? && s.loops[e.l].batch[0] == f ==> Gone(Step(s, e), f)
  {
    hide Inv, Step, ConnStep, Listed;
    if f.Run? {
      RunGoneStays(s, e, f);
      RunOwesStays(s, e, f);
    } else {
      StepConns(s, e, f.c);
      StepUnlists(s, e, f.c);
      if s.objects[f.c].conn.state == Disconnected {
        StateMoves(s, e, f.c);
      }
      if e.RunNext? && f.Destroy? && s.loops[e.l].batch[0] == f {
        DestroyCloses(s, e.l, e.n, f.c);
      }
    }
    hide Enabled;
  }

  /** Loop l empties its queue into a batch and then finishes a batch. */
  predicate WholeDrain(es: seq<Event>, l: nat) {
    exists i, j | 0 <= i < j < |es| :: es[i] == StartDrain(l) && es[j] == EndDrain(l)
  }

  predicate Ends(es: seq<Event>, l: nat) { exists j | 0 <= j < |es| :: es[j] == EndDrain(l) }

  lemma EndsTail(es: seq<Event>, l: nat)
    requires Ends(es, l)
    ensures es[0] == EndDrain(l) || Ends(es[1..], l)
  {
    var j :| 0 <= j < |es| && es[j] == EndDrain(l);
    assert j > 0 ==> es[1..][j - 1] == EndDrain(l);
  }

  lemma WholeDrainTail(es: seq<Event>, l: nat)
    requires WholeDrain(es, l)
    ensures if es[0] == StartDrain(l) then Ends(es[1..], l) else WholeDrain(es[1..], l)
  {
    var i, j :| 0 <= i < j < |es| && es[i] == StartDrain(l) && es[j] == EndDrain(l);
    assert es[1..][j - 1] == EndDrain(l);
    assert i > 0 ==> es[1..][i - 1] == StartDrain(l);
  }

  lemma {:induction false} GoneForGood(s: Server, es: seq<Event>, f: Functor)
    requires Inv(s) && IsRun(s, es) && Owes(s, f)
    ensures f.c in After(s, es).objects && (Gone(s, f) ==> Gone(After(s, es), f))
    ensures Owes(After(s, es), f) && LoopOf(After(s, es), f) == LoopOf(s, f)
    decreases |es|
  {
    if es != [] {
      StepKeeps(s, es[0]);
      GoneStays(s, es[0], f);
      hide Inv, Step, Enabled, Gone, Owes, LoopOf;
      GoneForGood(Step(s, es[0]), es[1..], f);
    }
  }

  /** A functor in the batch has run when the batch is done. */
  lemma {:induction false} BatchRuns(s: Server, es: seq<Event>, l: nat, f: Functor)
    requires Inv(s) && IsRun(s, es) && Owes(s, f) && Ends(es, l)
    requires l < |s.loops| && s.loops[l].phase.Draining? && (Gone(s, f) || f in s.loops[l].batch)
    ensures Gone(After(s, es), f)
    decreases |es|
  {
    hide Inv, Step, Gone, Owes, LoopMoves;
    var e, t := es[0], Step(s, es[0]);
    if e == EndDrain(l) {
      EmptyAtEnd(s, l);
      GoneForGood(s, es, f);
    } else {
      StepKeeps(s, e);
      StepMoves(s, e);
      GoneStays(s, e, f);
      EndsTail(es, l);
      StaysDraining(s, e, l);
      BatchLeaves(e, l, s.loops[l], t.loops[l], f);
      hide Enabled;
      BatchRuns(t, es[1..], l, f);
    }
  }

  lemma EmptyAtEnd(s: Server, l: nat)
    ensures Enabled(s, EndDrain(l)) ==> l < |s.loops| && s.loops[l].batch == []
  {
  }

  lemma StaysDraining(s: Server, e: Event, l: nat)
    requires Enabled(s, e) && l < |s.loops| && s.loops[l].phase.Draining?
    ensures e != StartDrain(l) && !(e.PollReturn? && e.l == l)
  {
  }

  lemma BatchLeaves(e: Event, l: nat, a: Loop, b: Loop, f: Functor)
    requires LoopMoves(e, l, a, b) && e != EndDrain(l) && e != StartDrain(l) && !(e.PollReturn? && e.l == l)
    requires a.phase.Draining?
    ensures b.phase.Draining?
    ensures f in a.batch ==> f in b.batch || (e.RunNext? && e.l == l && a.batch != [] && a.batch[0] == f)
  {
  }

  /** The functor owed is in the batch when the drain begins. */
  lemma DrainTakesOwed(s: Server, f: Functor)
    requires Inv(s) && Owes(s, f) && Enabled(s, StartDrain(LoopOf(s, f)))
    ensures var l := LoopOf(s, f);
      var t := Step(s, StartDrain(l));
      l < |t.loops| && t.loops[l].phase.Draining? && (Gone(s, f) || f in t.loops[l].batch)
  {
    hide Inv, Gone, Owes, LoopOf, Step;
    var l := LoopOf(s, f);
    OwesIsAbout(s, f);
    OwedIsPending(s, f);
    GoneStays(s, StartDrain(l), f);
    StepMoves(s, StartDrain(l));
    NoBatchOutside(s, l);
    hide Enabled;
  }

  /** What is owed has been done when its loop has completed a drain. */
  lemma {:induction false} DrainRunsOwed(s: Server, es: seq<Event>, f: Functor)
    requires Inv(s) && IsRun(s, es) && Owes(s, f) && WholeDrain(es, LoopOf(s, f))
    ensures Gone(After(s, es), f)
    decreases |es|
  {
    var e, l := es[0], LoopOf(s, f);
    OwesIsAbout(s, f);
    hide Inv, Step, Enabled, Gone, Owes, LoopOf, Ends, WholeDrain;
    StepKeeps(s, e);
    GoneStays(s, e, f);
    WholeDrainTail(es, l);
    if e == StartDrain(l) {
      DrainTakesOwed(s, f);
      BatchRuns(Step(s, e), es[1..], l, f);
    } else {
      DrainRunsOwed(Step(s, e), es[1..], f);
    }
  }

  lemma OwesIsAbout(s: Server, f: Functor)
    requires Owes(s, f)
    ensures (f.Remove? || f.Destroy? || f.Run?) && f.c in s.objects
  {
  }

  /** A closed connection ends: from any reachable state in which it is closed, when the accepting
      loop has completed a whole drain of its queue and then its own loop has, connectDestroyed has
      run, once, and its descriptor is closed, whatever else happens meanwhile. */
  lemma ClosedConnectionsEnd(s: Server, es: seq<Event>, fs: seq<Event>, c: Id)
    requires Reachable(s) && c in s.objects && s.objects[c].conn.state == Disconnected
    requires IsRun(s, es) && WholeDrain(es, 0)
    requires IsRun(After(s, es), fs) && WholeDrain(fs, s.objects[c].loop)
    ensures var u := After(After(s, es), fs);
      && c in u.objects && !u.objects[c].open && u.objects[c].destroyed == 1
      && !(u.objects[c].fd in u.openFds && u.openFds[u.objects[c].fd] == c)
  {
    hide Inv, IsRun, After, WholeDrain, Reachable, Listed;
    var t, u := After(s, es), After(After(s, es), fs);
    ReachableIsInv(s);
    RunKeeps(s, es);
    RunKeeps(t, fs);
    DrainRunsOwed(s, es, Remove(c));
    GoneForGood(s, es, Remove(c));
    LoopStays(s, es, c);
    DrainRunsOwed(t, fs, Destroy(c));
    GoneForGood(t, fs, Destroy(c));
    ClosedFacts(u, c);
  }

  lemma ClosedFacts(s: Server, c: Id)
    requires Inv(s) && c in s.objects && !s.objects[c].open
    ensures s.objects[c].destroyed == 1 && !(s.objects[c].fd in s.openFds && s.openFds[s.objects[c].fd] == c)
  {
    assert Good(c, SliceOf(s, c));
  }

  lemma {:induction false} LoopStays(s: Server, es: seq<Event>, c: Id)
    requires IsRun(s, es) && c in s.objects
    ensures c in After(s, es).objects && After(s, es).objects[c].loop == s.objects[c].loop
    decreases |es|
  {
    if es != [] {
      StepConns(s, es[0], c);
      hide Step, Enabled, ConnStep;
      LoopStays(Step(s, es[0]), es[1..], c);
    }
  }
}
