/** What the invariant gives for whole runs. Every theorem is about all event sequences that are
    runs from the initial state, for any number of pool loops including none. */
module LifecycleTheorems {
  import opened Prelude
  import opened EpollModel
  import opened ConnectionStream
  import opened Lifecycle
  import opened LifecycleInvariant

  /** A state some run reaches. */
  ghost predicate Reachable(s: Server) {
    exists threadNum: nat, es :: IsRun(Init(threadNum), es) && After(Init(threadNum), es) == s
  }

  lemma ReachableIsInv(s: Server)
    requires Reachable(s)
    ensures Inv(s)
  {
    var threadNum: nat, es :| IsRun(Init(threadNum), es) && After(Init(threadNum), es) == s;
    InitHolds(threadNum);
    RunKeeps(Init(threadNum), es);
  }

  /** No assertInLoopThread fails, no epoll_ctl fails, no raw-this functor runs after
      connectDestroyed, no event reaches an unregistered channel and no descriptor is closed twice:
      a failing step would have left its mark. */
  lemma NothingGoesWrong(threadNum: nat, es: seq<Event>)
    requires IsRun(Init(threadNum), es)
    ensures After(Init(threadNum), es).faults == {}
  {
    InitHolds(threadNum);
    RunKeeps(Init(threadNum), es);
  }

  // ---- order and lifetime ----

  lemma {:induction false} ProjCounts(p: seq<Functor>, c: Id, f: Functor)
    requires About(f, c)
    ensures multiset(Proj(p, c))[f] == multiset(p)[f]
  {
    if p != [] {
      assert p == [p[0]] + p[1..];
      ProjCounts(p[1..], c, f);
    }
  }

  /** Each connection is established once before anything else happens to it; connectDestroyed is
      queued once and runs once, exactly when the name has left connections_. */
  lemma LifeOfAConnection(s: Server, c: Id)
    requires Reachable(s) && c in s.objects
    ensures Has(s, c)
    ensures var o, sl, p := s.objects[c], SliceOf(s, c), Pending(s.loops[s.objects[c].loop]);
      && o.established == (if o.conn.state.Connecting? then 0 else 1)
      && (o.conn.state.Connecting? <==> multiset(p)[Establish(c)] == 1)
      && multiset(p)[Establish(c)] <= 1
      && (sl.listed <==> o.destroyed == 0 && multiset(p)[Destroy(c)] == 0)
      && o.destroyed + multiset(p)[Destroy(c)] == (if sl.listed then 0 else 1)
      && (o.destroyed == 1 ==> !o.open && o.conn.state == Disconnected)
      // A closed connection still in the table is about to be removed.
      && (sl.listed && o.conn.state == Disconnected ==> sl.removing)
      // Names are never shared.
      && (forall d <- s.objects :: s.objects[d].name == o.name ==> d == c)
  {
    ReachableIsInv(s);
    assert Has(s, c) && NamesWf(s);
    var sl := SliceOf(s, c);
    var p := Pending(s.loops[s.objects[c].loop]);
    ProjCounts(p, c, Establish(c));
    ProjCounts(p, c, Destroy(c));
    StageCounts(c, sl);
  }

  lemma TasksCount(p: seq<Functor>, f: Functor)
    requires Tasks(p) && !f.Run?
    ensures multiset(p)[f] == 0
  {
  }

  lemma StageCounts(c: Id, sl: Slice)
    requires Good(c, sl)
    ensures multiset(sl.pend)[Establish(c)] == (if sl.o.conn.state.Connecting? then 1 else 0)
    ensures multiset(sl.pend)[Destroy(c)] == (if sl.o.open && !sl.listed then 1 else 0)
  {
    if Tasks(sl.pend) {
      TasksCount(sl.pend, Establish(c));
      TasksCount(sl.pend, Destroy(c));
    } else if !sl.o.conn.state.Connecting? {
      var n := |sl.pend| - 1;
      assert sl.pend == sl.pend[..n] + [Destroy(c)];
      TasksCount(sl.pend[..n], Establish(c));
      TasksCount(sl.pend[..n], Destroy(c));
    }
  }

  /** While a functor that captured a raw this is queued, wherever it is, the connection is open
      and something holds it: the table or a queued destroy functor; and FIFO order puts that
      functor before the destroy functor. */
  lemma RawFunctorsAreSafe(s: Server, l: nat, i: nat)
    requires Reachable(s) && l < |s.loops| && i < |Pending(s.loops[l])| && Pending(s.loops[l])[i].Run?
    ensures var p := Pending(s.loops[l]);
      var c := p[i].c;
      && c in s.objects && Has(s, c) && s.objects[c].loop == l && s.objects[c].open
      && (SliceOf(s, c).listed || Destroy(c) in p)
      && (forall j | 0 <= j < |p| && p[j] == Destroy(c) :: i < j)
  {
    ReachableIsInv(s);
    LoopIsWf(s, l);
    var p := Pending(s.loops[l]);
    var c := p[i].c;
    assert Placed(s, l, p[i]);
    var sl := SliceOf(s, c);
    assert Good(c, sl);
    hide Inv;
    hide Good;
    RawImpliesHeld(p, c, sl, i);
    forall j | 0 <= j < |p| && p[j] == Destroy(c)
      ensures i < j
    {
      RawBeforeDestroy(p, c, sl, i, j);
    }
  }

  lemma RawImpliesHeld(p: seq<Functor>, c: Id, sl: Slice, i: nat)
    requires Good(c, sl) && sl.pend == Proj(p, c) && i < |p| && p[i].Run? && p[i].c == c
    ensures sl.o.open && (sl.listed || Destroy(c) in p)
  {
    ProjMember(p, c, p[i]);
    ProjMember(p, c, Destroy(c));
    if !sl.listed && sl.pend != [] {
      assert sl.pend[|sl.pend| - 1] in sl.pend;
    }
  }

  lemma RawBeforeDestroy(p: seq<Functor>, c: Id, sl: Slice, i: nat, j: nat)
    requires Good(c, sl) && sl.pend == Proj(p, c)
    requires i < |p| && p[i].Run? && p[i].c == c && j < |p| && p[j] == Destroy(c)
    ensures i < j
  {
    if j < i {
      assert p == p[..j + 1] + p[j + 1..] && p[..j + 1] == p[..j] + [Destroy(c)];
      ProjAppend(p[..j + 1], p[j + 1..], c);
      ProjAppend(p[..j], [Destroy(c)], c);
      assert [Destroy(c)][1..] == [];
      assert p[j + 1..][i - j - 1] == p[i];
      ProjMember(p[j + 1..], c, p[i]);
      DestroyIsLast(c, sl, Proj(p[..j], c), Proj(p[j + 1..], c));
    }
  }

  lemma TaskAt(p: seq<Functor>, n: nat, k: nat)
    requires k < n <= |p| && Tasks(p[..n])
    ensures p[k].Run?
  {
  }

  lemma DestroyIsLast(c: Id, sl: Slice, before: seq<Functor>, after: seq<Functor>)
    requires Good(c, sl) && sl.pend == before + [Destroy(c)] + after
    ensures after == []
  {
    var n := |before|;
    assert sl.pend[n] == Destroy(c) && sl.pend[n] in sl.pend;
    if n < |sl.pend| - 1 && Tasks(sl.pend[..|sl.pend| - 1]) {
      TaskAt(sl.pend, |sl.pend| - 1, n);
    }
  }

  /** What the loops hold and dispatch is registered: index_, channels_ and the kernel's interest
      set agree with the channel's bits for every connection, and every registered descriptor is
      open and the connection's own, although the kernel reuses descriptors. */
  lemma RegistrationAgrees(s: Server)
    requires Reachable(s)
    ensures forall c <- s.objects ::
      Has(s, c) && var sl := SliceOf(s, c);
      && (sl.o.index >= 0 <==> sl.o.open && !sl.o.conn.state.Connecting?)
      && (sl.o.index >= 0 <==> sl.chan) && (sl.o.index >= 0 <==> sl.reg == Some(sl.o.conn.interest))
      && (sl.o.index < 0 <==> sl.reg.None?)
    ensures forall l, fd | 0 <= l < |s.loops| && fd in s.loops[l].tables.kernel ::
      var c := s.loops[l].tables.kernel[fd].owner;
      On(s, l, c) && s.objects[c].fd == fd && s.objects[c].open && fd in s.openFds && s.openFds[fd] == c
  {
    ReachableIsInv(s);
    forall c <- s.objects
      ensures Has(s, c) && Good(c, SliceOf(s, c))
    {
    }
    forall l, fd | 0 <= l < |s.loops| && fd in s.loops[l].tables.kernel
      ensures var c := s.loops[l].tables.kernel[fd].owner;
        On(s, l, c) && s.objects[c].fd == fd && s.objects[c].open && fd in s.openFds && s.openFds[fd] == c
    {
      RegisteredIsOwned(s, l, fd);
      assert TablesWf(s, l);
    }
  }

  /** Whatever handlers close, a channel still to be dispatched is registered and its connection is
      alive: it is in the table or its destroy functor is still queued. */
  lemma DispatchedChannelsAreAlive(s: Server, l: nat, c: Id)
    requires Reachable(s) && l < |s.loops| && (c in s.loops[l].active || s.loops[l].current == Some(c))
    ensures On(s, l, c) && Has(s, c) && s.objects[c].index >= 0 && s.objects[c].open
    ensures SliceOf(s, c).listed || Destroy(c) in Pending(s.loops[l])
  {
    ReachableIsInv(s);
    assert LoopWf(s, l);
    var sl := SliceOf(s, c);
    assert Good(c, sl);
    ProjMember(Pending(s.loops[l]), c, Destroy(c));
    if !sl.listed {
      assert sl.pend[|sl.pend| - 1] in sl.pend;
    }
  }

  /** A functor can run whatever send answers, and the current channel can receive any event. */
  ghost predicate Unguarded(s: Server, l: nat, n: int)
    requires l < |s.loops|
  {
    var loop := s.loops[l];
    && (loop.batch != [] && Answers(loop.batch[0], n) ==> Enabled(s, RunNext(l, n)))
    && (loop.current.Some? && !loop.inWriteCallback ==> Enabled(s, ReadReady(l, n)) && Enabled(s, CloseReady(l)))
  }

  predicate Answers(f: Functor, n: int) { f.Run? && f.task.SendTask? ==> n <= |f.task.data| }

  ghost predicate CanGoOn(s: Server, l: nat)
    requires l < |s.loops|
  {
    match s.loops[l].phase
    case Polling => Enabled(s, PollReturn(l, []))
    case Dispatching =>
      if s.loops[l].inWriteCallback then Enabled(s, FinishWriteEvent(l))
      else Enabled(s, NextChannel(l)) || Enabled(s, StartDrain(l))
    case Draining => Enabled(s, EndDrain(l)) || Enabled(s, RunNext(l, 0))
  }

  lemma WfLoopGoesOn(s: Server, l: nat, n: int)
    requires l < |s.loops| && LoopWf(s, l) && NamesWf(s)
    ensures Unguarded(s, l, n) && CanGoOn(s, l)
  {
    var loop := s.loops[l];
    if loop.batch != [] {
      assert loop.batch[0] in Pending(loop) && Placed(s, l, loop.batch[0]);
    }
  }

  /** No guard of the step relation that mentions a connection ever blocks a loop, and in each phase
      some step of the loop is possible. */
  lemma NoLoopIsStuck(s: Server, l: nat, n: int)
    requires Reachable(s) && l < |s.loops|
    ensures Unguarded(s, l, n) && CanGoOn(s, l)
  {
    ReachableIsInv(s);
    assert LoopWf(s, l) && NamesWf(s);
    WfLoopGoesOn(s, l, n);
  }

  // ---- the streams ----

  /** What a step does to one connection's value. */
  function ConnStep(s: Server, e: Event, c: Id): Conn
    requires Enabled(s, e) && c in s.objects
  {
    var conn := s.objects[c].conn;
    match e
    case ReadReady(l, n) => if Current(s, l) == c && n <= 0 then Closed(conn) else conn
    case CloseReady(l) => if Current(s, l) == c then Closed(conn) else conn
    case WriteReady(l, n) =>
      if Current(s, l) != c then conn
      else if WriteSome(conn, n).1.SendFailed? then Closed(conn)
      else WriteSome(conn, n).0
    case FinishWriteEvent(l) => if s.loops[l].current.value == c then FinishWrite(conn) else conn
    case RunNext(l, n) =>
      var f := s.loops[l].batch[0];
      if f == Establish(c) then conn.(state := Connected, interest := conn.interest.(reading := true))
      else if f == Destroy(c) then conn.(interest := NO_EVENT)
      else if f.Run? && f.c == c then RunTask(conn, f.task, n)
      else conn
    case UserSend(t, d, data, n) => if d == c then Send(conn, Inside(s, t, c), data, n).0 else conn
    case UserSendBuffer(t, d, data) => if d == c then SendBuffer(conn, Inside(s, t, c), data).0 else conn
    case UserShutdown(t, d) => if d == c then Shutdown(conn, Inside(s, t, c)).0 else conn
    case UserForceClose(t, d) => if d == c then ForceClose(conn).0 else conn
    case _ => conn
  }

  /** Which connection's write-complete callback the loop is in. */
  function InCallback(s: Server, l: nat): Option<Id>
    requires l < |s.loops|
  {
    if s.loops[l].inWriteCallback then s.loops[l].current else None
  }

  /** The loop is in the same callback and has no new raw-this functor. */
  ghost predicate NoNewTask(a: Loop, b: Loop) {
    && b.inWriteCallback == a.inWriteCallback && b.current == a.current
    && forall f <- Pending(b) :: f.Run? ==> f in Pending(a)
  }

  /** The connection of c becomes conn, no other changes, and nothing but a removal or destroy
      functor is queued. */
  ghost predicate Conns(s: Server, t: Server, c: Id, conn: Conn) {
    && s.objects.Keys == t.objects.Keys && |t.loops| == |s.loops| && c in t.objects && t.objects[c].conn == conn
    && (forall l | 0 <= l < |s.loops| :: NoNewTask(s.loops[l], t.loops[l]))
    && forall d <- s.objects :: t.objects[d].loop == s.objects[d].loop && (t.objects[d].open ==> s.objects[d].open)
         && (d != c ==> t.objects[d].conn == s.objects[d].conn)
  }

  lemma PutConnConns(s: Server, c: Id, conn: Conn)
    requires Has(s, c)
    ensures Conns(s, PutConn(s, c, conn), c, conn)
  {
  }

  lemma HandleCloseConns(s: Server, l: nat, c: Id)
    requires Has(s, c) && l < |s.loops|
    ensures Conns(s, HandleClose(s, l, c), c, Closed(s.objects[c].conn))
  {
  }

  lemma UnregisteredConns(s: Server, c: Id)
    requires Has(s, c)
    ensures Has(UpdateChannel(s, c), c)
    ensures Conns(s, RemoveChannel(UpdateChannel(s, c), c), c, s.objects[c].conn)
  {
  }

  lemma CloseFdConns(s: Server, c: Id)
    requires Has(s, c)
    ensures Conns(s, CloseFd(s, c), c, s.objects[c].conn)
  {
  }

  lemma ConnsChain(s: Server, t: Server, u: Server, c: Id, conn: Conn, conn': Conn)
    requires Conns(s, t, c, conn) && Conns(t, u, c, conn')
    ensures Conns(s, u, c, conn')
  {
  }

  lemma DestroyedConns(s: Server, l: nat, c: Id)
    requires Has(s, c)
    ensures Conns(s, ConnectDestroyed(s, l, c), c, s.objects[c].conn.(interest := NO_EVENT))
  {
    hide UpdateChannel, RemoveChannel, CloseFd;
    var conn := s.objects[c].conn.(interest := NO_EVENT);
    var t := Put(Blame(s, l != s.objects[c].loop, WrongThread), c, s.objects[c].(conn := conn));
    assert Conns(s, t, c, conn);
    hide Conns;
    UnregisteredConns(t, c);
    var v := RemoveChannel(UpdateChannel(t, c), c);
    ConnsChain(s, t, v, c, conn, conn);
    CloseFdConns(v, c);
    ConnsChain(s, v, CloseFd(v, c), c, conn, conn);
  }

  lemma EstablishedConns(s: Server, l: nat, c: Id)
    requires Has(s, c)
    ensures Conns(s, ConnectEstablished(s, l, c), c, EstablishedObject(s.objects[c]).conn)
  {
  }

  lemma RunFunctorConns(s: Server, l: nat, n: int, c: Id)
    requires Enabled(s, RunNext(l, n)) && c in s.objects
    ensures var t := Step(s, RunNext(l, n));
      c in t.objects && t.objects[c].conn == ConnStep(s, RunNext(l, n), c) && t.objects[c].loop == s.objects[c].loop
      && (t.objects[c].open ==> s.objects[c].open)
  {
    hide ConnectEstablished, ConnectDestroyed, HandleClose, PutConn;
    var f := s.loops[l].batch[0];
    var t := Pop(s, l);
    match f
    case Establish(d) => EstablishedConns(t, l, d);
    case Destroy(d) => DestroyedConns(t, l, d);
    case Remove(d) =>
    case Run(d, task) =>
      var u := Blame(Blame(t, !t.objects[d].open, StaleTask), l != t.objects[d].loop, WrongThread);
      if task.CloseTask? {
        HandleCloseConns(u, l, d);
      } else {
        PutConnConns(u, d, RunTask(u.objects[d].conn, task, n));
      }
    case Other =>
  }

  lemma UserCallConns(s: Server, e: Event, c: Id)
    requires Enabled(s, e) && c in s.objects
    requires e.UserSend? || e.UserSendBuffer? || e.UserShutdown? || e.UserForceClose?
    ensures var t := Step(s, e);
      c in t.objects && t.objects[c].conn == ConnStep(s, e, c) && t.objects[c].loop == s.objects[c].loop
      && (t.objects[c].open ==> s.objects[c].open)
  {
    var conn := s.objects[e.c].conn;
    match e
    case UserSend(t, d, data, n) => PutConnConns(s, d, Send(conn, Inside(s, t, d), data, n).0);
    case UserSendBuffer(t, d, data) => PutConnConns(s, d, SendBuffer(conn, Inside(s, t, d), data).0);
    case UserShutdown(t, d) => PutConnConns(s, d, Shutdown(conn, Inside(s, t, d)).0);
    case UserForceClose(t, d) => PutConnConns(s, d, ForceClose(conn).0);
  }

  lemma FinishWriteConns(s: Server, e: Event, c: Id)
    requires Enabled(s, e) && c in s.objects && e.FinishWriteEvent?
    ensures var t := Step(s, e);
      c in t.objects && t.objects[c].conn == ConnStep(s, e, c) && t.objects[c].loop == s.objects[c].loop
      && (t.objects[c].open ==> s.objects[c].open)
  {
    hide PutConn;
    var d := s.loops[e.l].current.value;
    var u := Blame(s, s.objects[d].index < 0, StaleChannel);
    var v := SetLoop(u, e.l, s.loops[e.l].(inWriteCallback := false));
    PutConnConns(v, d, FinishWrite(s.objects[d].conn));
  }

  lemma WriteConns(s: Server, e: Event, c: Id)
    requires Enabled(s, e) && c in s.objects && e.WriteReady?
    ensures var t := Step(s, e);
      c in t.objects && t.objects[c].conn == ConnStep(s, e, c) && t.objects[c].loop == s.objects[c].loop
      && (t.objects[c].open ==> s.objects[c].open)
  {
    hide HandleClose, PutConn;
    var d := s.loops[e.l].current.value;
    var u := Blame(s, s.objects[d].index < 0, StaleChannel);
    HandleCloseConns(u, e.l, d);
    PutConnConns(u, d, WriteSome(s.objects[d].conn, e.n).0);
    hide WriteSome, Blame;
  }

  lemma ClosingConns(s: Server, e: Event, c: Id)
    requires Enabled(s, e) && c in s.objects && (e.ReadReady? || e.CloseReady?)
    ensures var t := Step(s, e);
      c in t.objects && t.objects[c].conn == ConnStep(s, e, c) && t.objects[c].loop == s.objects[c].loop
      && (t.objects[c].open ==> s.objects[c].open)
  {
    hide HandleClose;
    var d := s.loops[e.l].current.value;
    HandleCloseConns(Blame(s, s.objects[d].index < 0, StaleChannel), e.l, d);
  }

  /** A step changes a connection as ConnStep says, moves it to no other loop and reopens nothing. */
  lemma StepConns(s: Server, e: Event, c: Id)
    requires Enabled(s, e) && c in s.objects
    ensures var t := Step(s, e);
      c in t.objects && t.objects[c].conn == ConnStep(s, e, c) && t.objects[c].loop == s.objects[c].loop
      && (t.objects[c].open ==> s.objects[c].open)
  {
    if {
      case e.Accept? =>
        if e.l == 0 {
          EstablishedConns(Inserted(s, e.c, e.fd, e.l), 0, e.c);
        }
      case e.RunNext? => RunFunctorConns(s, e.l, e.n, c);
      case e.WriteReady? => WriteConns(s, e, c);
      case e.ReadReady? || e.CloseReady? => ClosingConns(s, e, c);
      case e.FinishWriteEvent? => FinishWriteConns(s, e, c);
      case e.UserSend? || e.UserSendBuffer? || e.UserShutdown? || e.UserForceClose? => UserCallConns(s, e, c);
      case e.PollReturn? || e.NextChannel? || e.StartDrain? || e.EndDrain? || e.UserQueue? =>
    }
  }

  /** What a step does to the callback a loop is in. */
  function CallbackStep(s: Server, e: Event, l: nat): Option<Id>
    requires Enabled(s, e) && l < |s.loops|
  {
    if e.WriteReady? && e.l == l && WriteSome(s.objects[Current(s, l)].conn, e.n).1.Drained? then
      Some(Current(s, l))
    else if e.FinishWriteEvent? && e.l == l then None
    else InCallback(s, l)
  }

  /** The functor a public call queues. */
  function CallTask(s: Server, e: Event): Option<Task>
    requires Enabled(s, e)
  {
    match e
    case UserSend(t, c, data, n) => Send(s.objects[c].conn, Inside(s, t, c), data, n).1
    case UserSendBuffer(t, c, data) => SendBuffer(s.objects[c].conn, Inside(s, t, c), data).1
    case UserShutdown(t, c) => Shutdown(s.objects[c].conn, Inside(s, t, c)).1
    case UserForceClose(t, c) => ForceClose(s.objects[c].conn).1
    case _ => None
  }

  /** Loop l after the step: its callback, and no raw-this functor but the one a call queued. */
  ghost predicate LoopFollows(s: Server, e: Event, l: nat)
    requires Enabled(s, e)
  {
    var t := Step(s, e);
    && (!e.Accept? ==> t.objects.Keys == s.objects.Keys)
    && (l < |s.loops| ==>
      && |t.loops| == |s.loops| && InCallback(t, l) == CallbackStep(s, e, l)
      && forall f <- Pending(t.loops[l]) ::
           f.Run? ==> f in Pending(s.loops[l]) || CallTask(s, e) == Some(f.task))
  }

  lemma RunFunctorLoops(s: Server, l: nat, n: int, k: nat)
    requires Enabled(s, RunNext(l, n))
    ensures LoopFollows(s, RunNext(l, n), k)
  {
    hide ConnectEstablished, ConnectDestroyed, HandleClose, PutConn;
    var f := s.loops[l].batch[0];
    var t := Pop(s, l);
    assert s.loops[l].batch == [f] + t.loops[l].batch;
    match f
    case Establish(d) => EstablishedConns(t, l, d);
    case Destroy(d) => DestroyedConns(t, l, d);
    case Remove(d) =>
    case Run(d, task) =>
      var u := Blame(Blame(t, !t.objects[d].open, StaleTask), l != t.objects[d].loop, WrongThread);
      if task.CloseTask? {
        HandleCloseConns(u, l, d);
      } else {
        PutConnConns(u, d, RunTask(u.objects[d].conn, task, n));
      }
    case Other =>
  }

  lemma AfterCallLoops(s: Server, c: Id, r: (Conn, Option<Task>), l: nat)
    requires Has(s, c)
    ensures var t := AfterCall(s, c, r);
      && t.objects.Keys == s.objects.Keys && |t.loops| == |s.loops|
      && (l < |s.loops| ==>
        && InCallback(t, l) == InCallback(s, l)
        && forall f <- Pending(t.loops[l]) :: f.Run? ==> f in Pending(s.loops[l]) || r.1 == Some(f.task))
  {
    PutConnConns(s, c, r.0);
    hide PutConn;
    var u := PutConn(s, c, r.0);
    assert l < |s.loops| ==> NoNewTask(s.loops[l], u.loops[l]);
  }

  lemma UserCallLoops(s: Server, e: Event, l: nat)
    requires Enabled(s, e)
    requires e.UserSend? || e.UserSendBuffer? || e.UserShutdown? || e.UserForceClose?
    ensures LoopFollows(s, e, l)
  {
    hide AfterCall;
    var conn := s.objects[e.c].conn;
    match e
    case UserSend(t, d, data, n) => AfterCallLoops(s, d, Send(conn, Inside(s, t, d), data, n), l);
    case UserSendBuffer(t, d, data) => AfterCallLoops(s, d, SendBuffer(conn, Inside(s, t, d), data), l);
    case UserShutdown(t, d) => AfterCallLoops(s, d, Shutdown(conn, Inside(s, t, d)), l);
    case UserForceClose(t, d) => AfterCallLoops(s, d, ForceClose(conn), l);
  }

  lemma FinishWriteLoops(s: Server, e: Event, l: nat)
    requires Enabled(s, e) && e.FinishWriteEvent?
    ensures LoopFollows(s, e, l)
  {
    hide PutConn;
    var d := s.loops[e.l].current.value;
    var u := Blame(s, s.objects[d].index < 0, StaleChannel);
    var v := SetLoop(u, e.l, s.loops[e.l].(inWriteCallback := false));
    PutConnConns(v, d, FinishWrite(s.objects[d].conn));
  }

  lemma WriteLoops(s: Server, e: Event, l: nat)
    requires Enabled(s, e) && e.WriteReady?
    ensures LoopFollows(s, e, l)
  {
    hide HandleClose, PutConn;
    var d := s.loops[e.l].current.value;
    var u := Blame(s, s.objects[d].index < 0, StaleChannel);
    HandleCloseConns(u, e.l, d);
    PutConnConns(u, d, WriteSome(s.objects[d].conn, e.n).0);
  }

  lemma HandlerLoops(s: Server, e: Event, l: nat)
    requires Enabled(s, e) && (e.ReadReady? || e.CloseReady?)
    ensures LoopFollows(s, e, l)
  {
    hide HandleClose;
    var d := s.loops[e.l].current.value;
    HandleCloseConns(Blame(s, s.objects[d].index < 0, StaleChannel), e.l, d);
  }

  lemma StepLoops(s: Server, e: Event, l: nat)
    requires Enabled(s, e)
    ensures LoopFollows(s, e, l)
  {
    if {
      case e.Accept? =>
        if e.l == 0 {
          EstablishedConns(Inserted(s, e.c, e.fd, e.l), 0, e.c);
        }
      case e.RunNext? => RunFunctorLoops(s, e.l, e.n, l);
      case e.WriteReady? => WriteLoops(s, e, l);
      case e.FinishWriteEvent? => FinishWriteLoops(s, e, l);
      case e.ReadReady? || e.CloseReady? => HandlerLoops(s, e, l);
      case e.UserSend? || e.UserSendBuffer? || e.UserShutdown? || e.UserForceClose? => UserCallLoops(s, e, l);
      case e.PollReturn? || e.NextChannel? || e.StartDrain? || e.EndDrain? || e.UserQueue? =>
    }
  }
}
