/** When a connection watches for write events with nothing to write, in whole runs. Then the next
    write event can only close it. */
module LifecycleInterest {
  import opened Prelude
  import opened ConnectionStream
  import opened Lifecycle
  import opened LifecycleInvariant
  import opened LifecycleTheorems
  import opened LifecycleStreams

  /** What sendInLoop puts in the output buffer, if it gets that far. */
  function Remainder(c: Conn, data: seq<Byte>, n: int): Option<seq<Byte>>
    requires n <= |data|
  {
    if c.interest.writing || c.out != [] || n < 0 then Some(data)
    else if n >= |data| then None
    else Some(data[n..])
  }

  /** What a step puts in the output buffer of connection c. */
  function BufferedBy(s: Server, e: Event, c: Id): Option<seq<Byte>>
    requires Enabled(s, e) && c in s.objects
  {
    var conn := s.objects[c].conn;
    if conn.state != Connected then None
    else
      match e
      case UserSend(t, d, data, n) => if d == c && Inside(s, t, c) then Remainder(conn, data, n) else None
      case UserSendBuffer(t, d, data) => if d == c && Inside(s, t, c) then Some(data) else None
      case RunNext(l, n) =>
        var f := s.loops[l].batch[0];
        if f.Run? && f.c == c && f.task.SendTask? then Remainder(conn, f.task.data, n) else None
      case _ => None
  }

  predicate Watches(s: Server, c: Id) { c in s.objects && s.objects[c].conn.interest.writing }

  function AsSeq<T>(x: Option<T>): seq<T> { if x.Some? then [x.value] else [] }

  /** The pieces buffered since write interest came on, after one more step. */
  function NextBuffered(s: Server, e: Event, c: Id, pieces: seq<seq<Byte>>): seq<seq<Byte>>
    requires Enabled(s, e)
  {
    if !Watches(Step(s, e), c) || c !in s.objects then []
    else (if Watches(s, c) then pieces else []) + AsSeq(BufferedBy(s, e, c))
  }

  function BufferedSince(s: Server, es: seq<Event>, c: Id, pieces: seq<seq<Byte>>): seq<seq<Byte>>
    requires IsRun(s, es)
    decreases |es|
  {
    if es == [] then pieces else BufferedSince(Step(s, es[0]), es[1..], c, NextBuffered(s, es[0], c, pieces))
  }

  predicate AllEmpty(pieces: seq<seq<Byte>>) { forall p <- pieces :: p == [] }

  ghost predicate Accounted(s: Server, c: Id, pieces: seq<seq<Byte>>) {
    Watches(s, c) ==> (s.objects[c].conn.out == [] <==> AllEmpty(pieces))
  }

  /** How one step of a connection moves its buffer and its write interest. */
  ghost predicate Moves(c: Conn, d: Conn, put: Option<seq<Byte>>) {
    && (put.Some? ==> d.interest.writing && d.out == c.out + put.value)
    && (put.None? && d.interest.writing ==> c.interest.writing && (d.out == [] <==> c.out == []))
  }

  lemma TaskMoves(c: Conn, task: Task, n: int)
    requires task.SendTask? ==> n <= |task.data|
    ensures Moves(c, RunTask(c, task, n),
                  if task.SendTask? && c.state == Connected then Remainder(c, task.data, n) else None)
  {
  }

  lemma ConnMoves(s: Server, e: Event, c: Id)
    requires Enabled(s, e) && c in s.objects
    ensures Moves(s.objects[c].conn, ConnStep(s, e, c), BufferedBy(s, e, c))
  {
    hide Step;
    if e.RunNext? {
      var f := s.loops[e.l].batch[0];
      if f.Run? && f.c == c {
        TaskMoves(s.objects[c].conn, f.task, e.n);
      }
    }
    hide RunTask;
  }

  lemma StepAccounts(s: Server, e: Event, c: Id, pieces: seq<seq<Byte>>)
    requires Inv(s) && Enabled(s, e) && Accounted(s, c, pieces)
    ensures Accounted(Step(s, e), c, NextBuffered(s, e, c, pieces))
  {
    if c in s.objects {
      OpenFacts(s, c);
      StepConns(s, e, c);
      ConnMoves(s, e, c);
      PutsKeep(if Watches(s, c) then pieces else [], BufferedBy(s, e, c));
      BufferedWhenConnected(s, e, c);
    } else if c in Step(s, e).objects {
      AcceptAdmits(s, e, c);
    }
    hide Inv, Step, ConnStep, BufferedBy, AllEmpty;
  }

  lemma BufferedWhenConnected(s: Server, e: Event, c: Id)
    requires Enabled(s, e) && c in s.objects
    ensures BufferedBy(s, e, c).Some? ==> s.objects[c].conn.state == Connected
  {
  }

  lemma PutsKeep(pieces: seq<seq<Byte>>, put: Option<seq<Byte>>)
    ensures AllEmpty(pieces + AsSeq(put)) <==> AllEmpty(pieces) && (put.Some? ==> put.value == [])
    ensures AllEmpty([])
  {
    if put.Some? {
      assert put.value in pieces + AsSeq(put);
    }
    assert forall p <- pieces :: p in pieces + AsSeq(put);
  }

  lemma {:induction false} RunAccounts(s: Server, es: seq<Event>, c: Id, pieces: seq<seq<Byte>>)
    requires Inv(s) && IsRun(s, es) && Accounted(s, c, pieces)
    ensures Accounted(After(s, es), c, BufferedSince(s, es, c, pieces))
    decreases |es|
  {
    if es != [] {
      StepKeeps(s, es[0]);
      StepAccounts(s, es[0], c, pieces);
      hide Inv, Step, Enabled, NextBuffered, Accounted;
      RunAccounts(Step(s, es[0]), es[1..], c, NextBuffered(s, es[0], c, pieces));
    }
  }

  /** Whatever send() answers, a write event on c closes it. */
  ghost predicate OnlyCloses(s: Server, l: nat, c: Id) {
    forall n | Enabled(s, WriteReady(l, n)) && Current(s, l) == c && c in s.objects ::
      ConnStep(s, WriteReady(l, n), c).state == Disconnected
  }

  /** In every run, a connection that watches for write events has nothing to write exactly if
      every piece buffered since the interest came on is empty. And for the current channel that
      is exactly when a write event can only close the connection, whatever send() answers. */
  lemma IdleInterestExactly(threadNum: nat, es: seq<Event>, c: Id)
    requires IsRun(Init(threadNum), es) && Watches(After(Init(threadNum), es), c)
    ensures var s, pieces := After(Init(threadNum), es), BufferedSince(Init(threadNum), es, c, []);
      && (s.objects[c].conn.out == [] <==> AllEmpty(pieces))
      && (forall l | Handling(s, l) && Current(s, l) == c && s.objects[c].conn.state != Disconnected ::
            OnlyCloses(s, l, c) <==> AllEmpty(pieces))
  {
    var s, pieces := After(Init(threadNum), es), BufferedSince(Init(threadNum), es, c, []);
    InitHolds(threadNum);
    assert Accounted(Init(threadNum), c, []);
    RunAccounts(Init(threadNum), es, c, []);
    hide Inv, IsRun, After, Init, BufferedSince, AllEmpty;
    forall l | Handling(s, l) && Current(s, l) == c && s.objects[c].conn.state != Disconnected
      ensures OnlyCloses(s, l, c) <==> s.objects[c].conn.out == []
    {
      OnlyClosesExactly(s, l, c);
    }
  }

  lemma OnlyClosesExactly(s: Server, l: nat, c: Id)
    requires Handling(s, l) && Current(s, l) == c && c in s.objects
    requires s.objects[c].conn.interest.writing && s.objects[c].conn.state != Disconnected
    ensures OnlyCloses(s, l, c) <==> s.objects[c].conn.out == []
  {
    var n := |s.objects[c].conn.out|;
    if n > 0 {
      assert Enabled(s, WriteReady(l, n)) && ConnStep(s, WriteReady(l, n), c).state != Disconnected;
    }
  }
}
