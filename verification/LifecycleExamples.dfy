/** Two runs of a server with one pool loop in which promises that seem natural fail. */
module LifecycleExamples {
  import opened Prelude
  import opened EpollModel
  import opened ConnectionStream
  import opened TcpServerModel
  import opened Lifecycle
  import opened LifecycleTheorems
  import opened LifecycleHalfClose
  import opened LifecycleInterest

  const READING := Interest(true, false)
  const BOTH := Interest(true, true)
  const OPENED := Conn(Connected, READING, [], [], [], None)

  /** The pool loop with one connection, on descriptor 5, registered. */
  function PoolLoop(
      phase: Phase, active: seq<Id>, current: Option<Id>, callback: bool, queue: seq<Functor>, i: Interest): Loop
  {
    Loop(phase, active, current, callback, [], queue, Tables(map[5 := 0], map[5 := Registration(0, i)]))
  }

  function World(loop: Loop, conn: Conn): Server {
    Server([IDLE_LOOP.(phase := Dispatching), loop], map[0 := Object(conn, 1, 1, 5, 0, true, 1, 0)],
           Table(2, map[1 := 0]), map[5 := 0], {})
  }

  ghost predicate Reaches(es: seq<Event>, s: Server) { IsRun(Init(1), es) && After(Init(1), es) == s }

  lemma {:induction false} OneMore(s: Server, es: seq<Event>, e: Event)
    requires IsRun(s, es) && Enabled(After(s, es), e)
    ensures IsRun(s, es + [e]) && After(s, es + [e]) == Step(After(s, es), e)
    decreases |es|
  {
    if es == [] {
      assert es + [e] == [e] && [e][1..] == [];
    } else {
      assert (es + [e])[1..] == es[1..] + [e];
      hide Step, Enabled;
      OneMore(Step(s, es[0]), es[1..], e);
    }
  }

  lemma Then(es: seq<Event>, s: Server, e: Event)
    requires Reaches(es, s) && Enabled(s, e)
    ensures Reaches(es + [e], Step(s, e))
  {
    OneMore(Init(1), es, e);
  }

  /** Servers with two loops are equal if their parts are. */
  lemma Same(s: Server, t: Server)
    requires |s.loops| == 2 && |t.loops| == 2
    requires forall l | 0 <= l < 2 :: SameLoop(s.loops[l], t.loops[l])
    requires s.objects == t.objects && s.openFds == t.openFds && s.faults == t.faults
    requires s.table.nextConnId == t.table.nextConnId && s.table.connections == t.table.connections
    ensures s == t
  {
    assert SameLoop(s.loops[0], t.loops[0]) && SameLoop(s.loops[1], t.loops[1]);
    assert s.loops == t.loops;
  }

  ghost predicate SameLoop(a: Loop, b: Loop) {
    && a.phase == b.phase && a.active == b.active && a.current == b.current && a.inWriteCallback == b.inWriteCallback
    && a.batch == b.batch && a.queue == b.queue
    && a.tables.channels == b.tables.channels && a.tables.kernel == b.tables.kernel
  }

  // ---- the connection is made ----

  function Accepted(loop: Loop): Server {
    Server([IDLE_LOOP.(phase := Dispatching), loop],
           map[0 := Object(Conn(Connecting, NO_EVENT, [], [], [], None), 1, 1, 5, -1, true, 0, 0)],
           Table(2, map[1 := 0]), map[5 := 0], {})
  }

  const BEGIN := [] + [PollReturn(0, [])] + [Accept(0, 5, 1)] + [PollReturn(1, [])] + [StartDrain(1)] + [RunNext(1, 0)]

  lemma Accepting()
    ensures var s := Init(1).(loops := [IDLE_LOOP.(phase := Dispatching), IDLE_LOOP]);
      && Enabled(Init(1), PollReturn(0, [])) && Step(Init(1), PollReturn(0, [])) == s
      && Enabled(s, Accept(0, 5, 1))
      && Step(s, Accept(0, 5, 1)) == Accepted(IDLE_LOOP.(queue := [Establish(0)]))
  {
    var s := Init(1).(loops := [IDLE_LOOP.(phase := Dispatching), IDLE_LOOP]);
    Same(Step(Init(1), PollReturn(0, [])), s);
    Same(Step(s, Accept(0, 5, 1)), Accepted(IDLE_LOOP.(queue := [Establish(0)])));
  }

  lemma Draining0()
    ensures var a := Accepted(IDLE_LOOP.(queue := [Establish(0)]));
      var b := Accepted(IDLE_LOOP.(queue := [Establish(0)], phase := Dispatching));
      var c := Accepted(IDLE_LOOP.(batch := [Establish(0)], phase := Draining));
      && Enabled(a, PollReturn(1, [])) && Step(a, PollReturn(1, [])) == b
      && Enabled(b, StartDrain(1)) && Step(b, StartDrain(1)) == c
  {
    var a := Accepted(IDLE_LOOP.(queue := [Establish(0)]));
    var b := Accepted(IDLE_LOOP.(queue := [Establish(0)], phase := Dispatching));
    var c := Accepted(IDLE_LOOP.(batch := [Establish(0)], phase := Draining));
    Same(Step(a, PollReturn(1, [])), b);
    Same(Step(b, StartDrain(1)), c);
  }

  lemma Establishing()
    ensures var c := Accepted(IDLE_LOOP.(batch := [Establish(0)], phase := Draining));
      && Enabled(c, RunNext(1, 0))
      && Step(c, RunNext(1, 0)) == World(PoolLoop(Draining, [], None, false, [], READING), OPENED)
  {
    var c := Accepted(IDLE_LOOP.(batch := [Establish(0)], phase := Draining));
    Same(Step(c, RunNext(1, 0)), World(PoolLoop(Draining, [], None, false, [], READING), OPENED));
  }

  lemma Beginning()
    ensures Reaches(BEGIN, World(PoolLoop(Draining, [], None, false, [], READING), OPENED))
  {
    Accepting();
    Draining0();
    Establishing();
    var s := Init(1).(loops := [IDLE_LOOP.(phase := Dispatching), IDLE_LOOP]);
    var a := Accepted(IDLE_LOOP.(queue := [Establish(0)]));
    var b := Accepted(IDLE_LOOP.(queue := [Establish(0)], phase := Dispatching));
    var c := Accepted(IDLE_LOOP.(batch := [Establish(0)], phase := Draining));
    assert Reaches([], Init(1));
    hide Reaches, Step, Enabled, Init, Accepted, World;
    Then([], Init(1), PollReturn(0, []));
    Then([] + [PollReturn(0, [])], s, Accept(0, 5, 1));
    Then([] + [PollReturn(0, [])] + [Accept(0, 5, 1)], a, PollReturn(1, []));
    Then([] + [PollReturn(0, [])] + [Accept(0, 5, 1)] + [PollReturn(1, [])], b, StartDrain(1));
    Then([] + [PollReturn(0, [])] + [Accept(0, 5, 1)] + [PollReturn(1, [])] + [StartDrain(1)], c, RunNext(1, 0));
  }

  // ---- a send on the loop's thread, and then the channel is dispatched ----

  function SendFirst(data: seq<Byte>): seq<Event> {
    BEGIN + [UserSendBuffer(OnLoop(1), 0, data)] + [EndDrain(1)] + [PollReturn(1, [0])] + [NextChannel(1)]
  }

  function Buffering(data: seq<Byte>): Conn { Conn(Connected, BOTH, data, [], data, None) }

  /** A connection that comes to watch for write events. */
  lemma Putting(phase: Phase, current: Option<Id>, callback: bool, c: Conn, d: Conn)
    requires c.interest == READING && d.interest == BOTH
    ensures var s := World(PoolLoop(phase, [], current, callback, [], READING), c);
      Has(s, 0) && PutConn(s, 0, d) == World(PoolLoop(phase, [], current, callback, [], BOTH), d)
  {
    var s := World(PoolLoop(phase, [], current, callback, [], READING), c);
    Same(PutConn(s, 0, d), World(PoolLoop(phase, [], current, callback, [], BOTH), d));
  }

  lemma Sending(data: seq<Byte>)
    ensures var s := World(PoolLoop(Draining, [], None, false, [], READING), OPENED);
      var e := UserSendBuffer(OnLoop(1), 0, data);
      Enabled(s, e) && Step(s, e) == World(PoolLoop(Draining, [], None, false, [], BOTH), Buffering(data))
  {
    assert [] + data == data;
    assert SendBuffer(OPENED, true, data) == (Buffering(data), None);
    hide SendBuffer, PutConn;
    Putting(Draining, None, false, OPENED, Buffering(data));
  }

  lemma Turning(conn: Conn)
    ensures var a := World(PoolLoop(Draining, [], None, false, [], BOTH), conn);
      var b := World(PoolLoop(Polling, [], None, false, [], BOTH), conn);
      var c := World(PoolLoop(Dispatching, [0], None, false, [], BOTH), conn);
      && Enabled(a, EndDrain(1)) && Step(a, EndDrain(1)) == b
      && Enabled(b, PollReturn(1, [0])) && Step(b, PollReturn(1, [0])) == c
      && Enabled(c, NextChannel(1))
      && Step(c, NextChannel(1)) == World(PoolLoop(Dispatching, [], Some(0), false, [], BOTH), conn)
  {
    var t := World(PoolLoop(Polling, [], None, false, [], BOTH), conn).loops[1].tables;
    assert 5 in t.kernel && t.kernel[5].owner == 0;
    assert Lifecycle.Watched(t, 0);
    var a := World(PoolLoop(Draining, [], None, false, [], BOTH), conn);
    var b := World(PoolLoop(Polling, [], None, false, [], BOTH), conn);
    var c := World(PoolLoop(Dispatching, [0], None, false, [], BOTH), conn);
    Same(Step(a, EndDrain(1)), b);
    Same(Step(b, PollReturn(1, [0])), c);
    Same(Step(c, NextChannel(1)), World(PoolLoop(Dispatching, [], Some(0), false, [], BOTH), conn));
  }

  lemma SentFirst(data: seq<Byte>)
    ensures Reaches(SendFirst(data), World(PoolLoop(Dispatching, [], Some(0), false, [], BOTH), Buffering(data)))
  {
    Beginning();
    Sending(data);
    Turning(Buffering(data));
    var conn := Buffering(data);
    hide Reaches, Step, Enabled, World, PoolLoop;
    var e := UserSendBuffer(OnLoop(1), 0, data);
    Then(BEGIN, World(PoolLoop(Draining, [], None, false, [], READING), OPENED), e);
    Then(BEGIN + [e], World(PoolLoop(Draining, [], None, false, [], BOTH), conn), EndDrain(1));
    Then(BEGIN + [e] + [EndDrain(1)], World(PoolLoop(Polling, [], None, false, [], BOTH), conn), PollReturn(1, [0]));
    Then(BEGIN + [e] + [EndDrain(1)] + [PollReturn(1, [0])],
         World(PoolLoop(Dispatching, [0], None, false, [], BOTH), conn), NextChannel(1));
  }

  /** An empty send(Buffer*): the connection, still open and connected, watches for write events with
      nothing to write, and the write event that comes can only close it. */
  lemma EmptySendInARun()
    ensures IsRun(Init(1), SendFirst([]))
    ensures var s := After(Init(1), SendFirst([]));
      && OpenAndWatching(s, 0) && s.objects[0].conn.state == Connected && s.objects[0].conn.out == []
      && Handling(s, 1) && Current(s, 1) == 0 && OnlyCloses(s, 1, 0)
  {
    SentFirst([]);
    hide IsRun, After, Init;
  }

  predicate OpenAndWatching(s: Server, c: Id) { Watches(s, c) && s.objects[c].open }

  // ---- a stop by another thread during the write-complete callback ----

  const DRAINED := Conn(Connected, READING, [], [7], [7], None)
  const REPLYING := Conn(Connected, BOTH, [2], [7, 1], [7, 1, 2], None)

  const DIRTY := SendFirst([7]) + [WriteReady(1, 1)] + [UserSend(OnLoop(1), 0, [1, 2], 1)] + [UserShutdown(Foreign, 0)]

  lemma Draining7()
    ensures var s := World(PoolLoop(Dispatching, [], Some(0), false, [], BOTH), Buffering([7]));
      && Enabled(s, WriteReady(1, 1))
      && Step(s, WriteReady(1, 1)) == World(PoolLoop(Dispatching, [], Some(0), true, [], READING), DRAINED)
  {
    assert [7][..1] == [7] && [7][1..] == [] && [] + [7] == [7];
    assert WriteSome(Buffering([7]), 1) == (DRAINED, Drained);
    hide WriteSome;
    Same(Step(World(PoolLoop(Dispatching, [], Some(0), false, [], BOTH), Buffering([7])), WriteReady(1, 1)),
         World(PoolLoop(Dispatching, [], Some(0), true, [], READING), DRAINED));
  }

  lemma Replying()
    ensures var s := World(PoolLoop(Dispatching, [], Some(0), true, [], READING), DRAINED);
      var e := UserSend(OnLoop(1), 0, [1, 2], 1);
      Enabled(s, e) && Step(s, e) == World(PoolLoop(Dispatching, [], Some(0), true, [], BOTH), REPLYING)
  {
    assert [1, 2][..1] == [1] && [1, 2][1..] == [2] && [7] + [1] == [7, 1] && [7] + [1, 2] == [7, 1, 2];
    var d := Send(DRAINED, true, [1, 2], 1).0;
    assert d.wire == [7, 1] && d.out == [2] && d.admitted == [7, 1, 2];
    assert d == REPLYING;
    hide Send, PutConn;
    Putting(Dispatching, Some(0), true, DRAINED, REPLYING);
  }

  lemma Stopping()
    ensures var s := World(PoolLoop(Dispatching, [], Some(0), true, [], BOTH), REPLYING);
      var t := World(PoolLoop(Dispatching, [], Some(0), true, [Run(0, ShutdownTask)], BOTH),
                     REPLYING.(state := Disconnecting));
      Enabled(s, UserShutdown(Foreign, 0)) && Step(s, UserShutdown(Foreign, 0)) == t
  {
    Same(Step(World(PoolLoop(Dispatching, [], Some(0), true, [], BOTH), REPLYING), UserShutdown(Foreign, 0)),
         World(PoolLoop(Dispatching, [], Some(0), true, [Run(0, ShutdownTask)], BOTH),
               REPLYING.(state := Disconnecting)));
  }

  /** The callback sends and another thread shuts down before the callback returns: the end of the
      write event half-closes with a byte of the reply unsent. */
  lemma DirtyHalfCloseInARun()
    ensures IsRun(Init(1), DIRTY)
    ensures var s := After(Init(1), DIRTY);
      && Enabled(s, FinishWriteEvent(1)) && 0 in s.objects && HalfCloses(s, FinishWriteEvent(1), 0)
      && s.objects[0].conn.out == [2] && s.objects[0].conn.wire == [7, 1]
      && var d := ConnStep(s, FinishWriteEvent(1), 0); d.finAt == Some(2) && d.out == [2]
  {
    var t := World(PoolLoop(Dispatching, [], Some(0), true, [Run(0, ShutdownTask)], BOTH),
                   REPLYING.(state := Disconnecting));
    DirtyIsReached(t);
    hide IsRun, After, Init;
  }

  lemma DirtyIsReached(t: Server)
    requires t == World(PoolLoop(Dispatching, [], Some(0), true, [Run(0, ShutdownTask)], BOTH),
                        REPLYING.(state := Disconnecting))
    ensures Reaches(DIRTY, t)
  {
    SentFirst([7]);
    Draining7();
    Replying();
    Stopping();
    var run := SendFirst([7]);
    hide Reaches, Step, Enabled, World, PoolLoop, SendFirst;
    Then(run, World(PoolLoop(Dispatching, [], Some(0), false, [], BOTH), Buffering([7])), WriteReady(1, 1));
    Then(run + [WriteReady(1, 1)], World(PoolLoop(Dispatching, [], Some(0), true, [], READING), DRAINED),
         UserSend(OnLoop(1), 0, [1, 2], 1));
    Then(run + [WriteReady(1, 1)] + [UserSend(OnLoop(1), 0, [1, 2], 1)],
         World(PoolLoop(Dispatching, [], Some(0), true, [], BOTH), REPLYING), UserShutdown(Foreign, 0));
  }
}
