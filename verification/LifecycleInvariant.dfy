/** The inductive invariant of the step relation. What the rest of the state says about one
    connection is its Slice; a step changes the slice of at most one connection. */
module LifecycleInvariant {
  import opened Prelude
  import opened EpollModel
  import opened ConnectionStream
  import opened TcpServerModel
  import opened Lifecycle

  /** The functors of a connection that run on its own loop. */
  predicate About(f: Functor, c: Id) {
    (f.Establish? || f.Run? || f.Destroy?) && f.c == c
  }

  function Proj(p: seq<Functor>, c: Id): seq<Functor> {
    if p == [] then [] else (if About(p[0], c) then [p[0]] else []) + Proj(p[1..], c)
  }

  /** Everything queued on a loop, in the order it will run. */
  function Pending(loop: Loop): seq<Functor> { loop.batch + loop.queue }

  lemma {:induction false} ProjAppend(p: seq<Functor>, q: seq<Functor>, c: Id)
    ensures Proj(p + q, c) == Proj(p, c) + Proj(q, c)
  {
    if p == [] {
      assert p + q == q;
    } else {
      assert (p + q)[1..] == p[1..] + q && (p + q)[0] == p[0];
      ProjAppend(p[1..], q, c);
      hide About;
      var head := if About(p[0], c) then [p[0]] else [];
      assert head + (Proj(p[1..], c) + Proj(q, c)) == (head + Proj(p[1..], c)) + Proj(q, c);
    }
  }

  lemma {:induction false} ProjMember(p: seq<Functor>, c: Id, f: Functor)
    ensures f in Proj(p, c) <==> f in p && About(f, c)
  {
    if p != [] {
      ProjMember(p[1..], c, f);
    }
  }

  datatype Slice = Slice(
    o: Object,
    listed: bool,               // in connections_
    pend: seq<Functor>,         // its functors pending on its loop
    removing: bool,             // a removal functor is pending on loop 0
    reg: Option<Interest>,      // its entry in the kernel's interest set
    chan: bool,                 // present in the poller's channels_
    owns: bool)                 // its descriptor is open and its own

  function SliceOf(s: Server, c: Id): Slice
    requires Has(s, c) && |s.loops| > 0
  {
    var o := s.objects[c];
    var t := s.loops[o.loop].tables;
    Slice(o,
          o.name in s.table.connections && s.table.connections[o.name] == c,
          Proj(Pending(s.loops[o.loop]), c),
          Remove(c) in Pending(s.loops[0]),
          if o.fd in t.kernel && t.kernel[o.fd].owner == c then Some(t.kernel[o.fd].interest) else None,
          o.fd in t.channels && t.channels[o.fd] == c,
          o.fd in s.openFds && s.openFds[o.fd] == c)
  }

  ghost predicate Tasks(p: seq<Functor>) { forall f <- p :: f.Run? }

  /** The stage of a connection's life decides what is pending for it. */
  ghost predicate Staged(c: Id, sl: Slice) {
    match sl.o.conn.state
    case Connecting =>
      sl.o.open && sl.listed && sl.pend == [Establish(c)] && sl.o.conn.interest == NO_EVENT && sl.o.conn.out == []
    case Disconnected =>
      if sl.listed then sl.o.open && sl.removing && Tasks(sl.pend)
      else if sl.o.open then
        sl.pend != [] && sl.pend[|sl.pend| - 1] == Destroy(c) && Tasks(sl.pend[..|sl.pend| - 1])
      else sl.pend == []
    case _ => sl.o.open && sl.listed && Tasks(sl.pend)
  }

  ghost predicate Good(c: Id, sl: Slice) {
    && Staged(c, sl)
    && (sl.removing ==> sl.o.conn.state.Disconnected?)
    && (sl.o.index >= 0 <==> sl.o.open && !sl.o.conn.state.Connecting?)
    && sl.reg == (if sl.o.index >= 0 then Some(sl.o.conn.interest) else None)
    && sl.chan == (sl.o.index >= 0)
    && sl.owns == sl.o.open
    && sl.o.established == (if sl.o.conn.state.Connecting? then 0 else 1)
    && sl.o.destroyed == (if sl.o.open then 0 else 1)
    && sl.o.conn.wire + sl.o.conn.out == sl.o.conn.admitted
    && (sl.o.open && sl.o.conn.out != [] ==> sl.o.conn.interest.writing)
    // A queued shutdown or close was queued together with a change of state.
    && (forall f <- sl.pend :: f.Run? && !f.task.SendTask? ==> sl.o.conn.state in {Disconnecting, Disconnected})
  }

  ghost predicate On(s: Server, l: nat, c: Id) { c in s.objects && s.objects[c].loop == l }

  ghost predicate Placed(s: Server, l: nat, f: Functor) {
    f.Other? || (if f.Remove? then f.c in s.objects && l == 0 else On(s, l, f.c))
  }

  /** The functors of a loop belong there and its dispatch lists hold registered channels. */
  ghost predicate LoopWf(s: Server, l: nat)
    requires l < |s.loops|
  {
    var loop := s.loops[l];
    && (forall f <- Pending(loop) :: Placed(s, l, f))
    && (!loop.phase.Draining? ==> loop.batch == [])
    && (!loop.phase.Dispatching? ==> loop.active == [] && loop.current.None? && !loop.inWriteCallback)
    && (loop.inWriteCallback ==> loop.current.Some?)
    && (forall c <- loop.active :: On(s, l, c) && s.objects[c].index >= 0)
    && (loop.current.Some? ==> On(s, l, loop.current.value) && s.objects[loop.current.value].index >= 0)
  }

  /** What is registered with a loop's poller is a connection of that loop. */
  ghost predicate TablesWf(s: Server, l: nat)
    requires l < |s.loops|
  {
    var t := s.loops[l].tables;
    && (forall fd <- t.kernel :: On(s, l, t.kernel[fd].owner) && s.objects[t.kernel[fd].owner].fd == fd)
    && (forall fd <- t.channels :: On(s, l, t.channels[fd]) && s.objects[t.channels[fd]].fd == fd)
  }

  ghost predicate NamesWf(s: Server) {
    && (forall c <- s.objects :: Has(s, c) && s.objects[c].name < s.table.nextConnId)
    && (forall c <- s.objects, d <- s.objects :: s.objects[c].name == s.objects[d].name ==> c == d)
    && (forall n <- s.table.connections ::
          var c := s.table.connections[n]; c in s.objects && s.objects[c].name == n)
  }

  ghost predicate FdsWf(s: Server) {
    forall fd <- s.openFds :: var c := s.openFds[fd]; c in s.objects && s.objects[c].fd == fd
  }

  ghost predicate Wf(s: Server) {
    && |s.loops| > 0 && NamesWf(s) && FdsWf(s) && s.faults == {}
    && (forall l | 0 <= l < |s.loops| :: LoopWf(s, l))
    && (forall l | 0 <= l < |s.loops| :: TablesWf(s, l))
  }

  ghost predicate Inv(s: Server) {
    Wf(s) && forall c <- s.objects :: Good(c, SliceOf(s, c))
  }

  /** From s to t only the slice of c changes, to sl. */
  ghost predicate Changed(s: Server, t: Server, c: Id, sl: Slice) {
    && Wf(s) && Wf(t) && t.objects.Keys == s.objects.Keys && |t.loops| == |s.loops|
    && c in s.objects && SliceOf(t, c) == sl
    && forall d <- s.objects :: d != c ==> SliceOf(t, d) == SliceOf(s, d)
  }

  lemma Restore(s: Server, t: Server, c: Id, sl: Slice)
    requires Changed(s, t, c, sl) && Good(c, sl)
    requires forall d <- s.objects :: d != c ==> Good(d, SliceOf(s, d))
    ensures Inv(t)
  {
    forall d <- t.objects
      ensures Good(d, SliceOf(t, d))
    {
      assert d in s.objects;
    }
  }

  lemma Chain(s: Server, t: Server, u: Server, c: Id, sl: Slice, sl': Slice)
    requires Changed(s, t, c, sl) && Changed(t, u, c, sl')
    ensures Changed(s, u, c, sl')
  {
    forall d <- s.objects | d != c
      ensures SliceOf(u, d) == SliceOf(s, d)
    {
      assert d in t.objects;
    }
  }

  /** What Wf says of the objects does not depend on their connections' state. */
  ghost predicate SameFrames(s: Server, t: Server) {
    && t.objects.Keys == s.objects.Keys && |t.loops| == |s.loops|
    && forall c <- s.objects :: t.objects[c].name == s.objects[c].name && t.objects[c].loop == s.objects[c].loop
         && t.objects[c].fd == s.objects[c].fd
  }

  predicate Drains(s: Server, c: Id) { Has(s, c) && s.loops[s.objects[c].loop].phase.Draining? }

  lemma LoopKept(s: Server, t: Server, l: nat)
    requires SameFrames(s, t) && l < |s.loops| && LoopWf(s, l)
    requires t.loops[l] == s.loops[l].(tables := t.loops[l].tables)
    requires forall c <- s.objects | s.objects[c].index >= 0 && t.objects[c].index < 0 :: Drains(s, c)
    ensures LoopWf(t, l)
  {
    assert forall g :: Placed(t, l, g) == Placed(s, l, g);
    assert Pending(t.loops[l]) == Pending(s.loops[l]);
  }

  lemma AllLoopsKept(s: Server, t: Server)
    requires Wf(s) && SameFrames(s, t)
    requires forall l | 0 <= l < |s.loops| :: t.loops[l] == s.loops[l].(tables := t.loops[l].tables)
    requires forall c <- s.objects | s.objects[c].index >= 0 && t.objects[c].index < 0 :: Drains(s, c)
    ensures forall l | 0 <= l < |t.loops| :: LoopWf(t, l)
  {
    forall l | 0 <= l < |t.loops|
      ensures LoopWf(t, l)
    {
      LoopKept(s, t, l);
    }
  }

  lemma TablesKept(s: Server, t: Server, l: nat)
    requires SameFrames(s, t) && l < |s.loops| && TablesWf(s, l) && t.loops[l].tables == s.loops[l].tables
    ensures TablesWf(t, l)
  {
  }

  lemma AllTablesKept(s: Server, t: Server)
    requires Wf(s) && SameFrames(s, t)
    requires forall l | 0 <= l < |s.loops| :: t.loops[l].tables == s.loops[l].tables
    ensures forall l | 0 <= l < |t.loops| :: TablesWf(t, l)
  {
    forall l | 0 <= l < |t.loops|
      ensures TablesWf(t, l)
    {
      TablesKept(s, t, l);
    }
  }

  // ---- the primitive changes ----

  lemma QueueSlice(s: Server, l: nat, f: Functor, d: Id)
    requires Wf(s) && l < |s.loops| && Placed(s, l, f) && d in s.objects
    ensures var sl := SliceOf(s, d);
      SliceOf(Queue(s, l, f), d) ==
        sl.(pend := if About(f, d) then sl.pend + [f] else sl.pend, removing := sl.removing || f == Remove(d))
  {
    var k := s.objects[d].loop;
    var t := Queue(s, l, f);
    assert Pending(t.loops[l]) == Pending(s.loops[l]) + [f];
    ProjAppend(Pending(s.loops[l]), [f], d);
    assert [f][1..] == [];
    assert Has(s, d);
  }

  lemma QueueChanges(s: Server, l: nat, f: Functor)
    requires Wf(s) && l < |s.loops| && Placed(s, l, f) && !f.Other?
    ensures var sl := SliceOf(s, f.c);
      Changed(s, Queue(s, l, f), f.c,
              if f.Remove? then sl.(removing := true) else sl.(pend := sl.pend + [f]))
  {
    WfAfterQueue(s, l, f);
    forall d <- s.objects
      ensures d != f.c ==> SliceOf(Queue(s, l, f), d) == SliceOf(s, d)
    {
      QueueSlice(s, l, f, d);
    }
    QueueSlice(s, l, f, f.c);
  }

  lemma WfAfterQueue(s: Server, l: nat, f: Functor)
    requires Wf(s) && l < |s.loops| && Placed(s, l, f)
    ensures Wf(Queue(s, l, f))
  {
    var t := Queue(s, l, f);
    assert Pending(t.loops[l]) == Pending(s.loops[l]) + [f];
    forall k | 0 <= k < |t.loops|
      ensures LoopWf(t, k)
    {
      assert LoopWf(s, k);
      assert forall g :: Placed(t, k, g) == Placed(s, k, g);
    }
    AllTablesKept(s, t);
  }

  lemma OtherChangesNothing(s: Server, l: nat)
    requires Inv(s) && l < |s.loops|
    ensures Inv(Queue(s, l, Other))
  {
    WfAfterQueue(s, l, Other);
    forall d <- s.objects
      ensures SliceOf(Queue(s, l, Other), d) == SliceOf(s, d)
    {
      QueueSlice(s, l, Other, d);
    }
  }

  /** Taking the next functor off a batch. */
  function Pop(s: Server, l: nat): Server
    requires l < |s.loops| && s.loops[l].batch != []
  {
    SetLoop(s, l, s.loops[l].(batch := s.loops[l].batch[1..]))
  }

  lemma PopSlice(s: Server, l: nat, d: Id)
    requires Wf(s) && l < |s.loops| && s.loops[l].batch != [] && d in s.objects
    ensures var sl, f := SliceOf(s, d), s.loops[l].batch[0];
      && (About(f, d) ==> sl.pend != [] && sl.pend[0] == f)
      && (f == Remove(d) ==> sl.removing)
      && SliceOf(Pop(s, l), d) ==
           sl.(pend := if About(f, d) then sl.pend[1..] else sl.pend, removing := SliceOf(Pop(s, l), d).removing)
      && (f != Remove(d) ==> SliceOf(Pop(s, l), d).removing == sl.removing)
      && (SliceOf(Pop(s, l), d).removing ==> sl.removing)
  {
    var t, f := Pop(s, l), s.loops[l].batch[0];
    assert Pending(s.loops[l]) == [f] + Pending(t.loops[l]);
    ProjAppend([f], Pending(t.loops[l]), d);
    assert [f][1..] == [];
    assert LoopWf(s, l);
    assert f in Pending(s.loops[l]);
    assert Has(s, d);
  }

  lemma WfAfterPop(s: Server, l: nat)
    requires Wf(s) && l < |s.loops| && s.loops[l].batch != []
    ensures Wf(Pop(s, l))
  {
    var t := Pop(s, l);
    forall k | 0 <= k < |t.loops|
      ensures LoopWf(t, k)
    {
      assert LoopWf(s, k);
      assert forall g :: g in Pending(t.loops[k]) ==> g in Pending(s.loops[k]);
      assert forall g :: Placed(t, k, g) == Placed(s, k, g);
    }
    AllTablesKept(s, t);
  }

  /** An object changes in what is its own: not its name, loop, descriptor or registration. */
  lemma PutChanges(s: Server, c: Id, o: Object)
    requires Wf(s) && c in s.objects
    requires var p := s.objects[c]; o.name == p.name && o.loop == p.loop && o.fd == p.fd && o.index == p.index
    ensures Changed(s, Put(s, c, o), c, SliceOf(s, c).(o := o))
  {
    var t := Put(s, c, o);
    assert Has(s, c);
    AllLoopsKept(s, t);
    AllTablesKept(s, t);
    hide LoopWf, TablesWf;
  }

  /** A channel that is registered, or whose descriptor nothing is registered for. */
  ghost predicate CanUpdate(s: Server, c: Id)
    requires Has(s, c) && |s.loops| > 0
  {
    var sl, t := SliceOf(s, c), s.loops[s.objects[c].loop].tables;
    if sl.o.index >= 0 then sl.reg.Some? && sl.chan else sl.o.fd !in t.kernel && sl.o.fd !in t.channels
  }

  lemma TablesAfter(s: Server, t: Server, l: nat, c: Id)
    requires Wf(s) && SameFrames(s, t) && l < |s.loops| && On(s, l, c)
    requires t.loops[l].tables.kernel.Keys <= s.loops[l].tables.kernel.Keys + {s.objects[c].fd}
    requires t.loops[l].tables.channels.Keys <= s.loops[l].tables.channels.Keys + {s.objects[c].fd}
    requires forall fd <- t.loops[l].tables.kernel ::
      if fd == s.objects[c].fd then t.loops[l].tables.kernel[fd].owner == c
      else t.loops[l].tables.kernel[fd] == s.loops[l].tables.kernel[fd]
    requires forall fd <- t.loops[l].tables.channels ::
      if fd == s.objects[c].fd then t.loops[l].tables.channels[fd] == c
      else t.loops[l].tables.channels[fd] == s.loops[l].tables.channels[fd]
    requires forall k | 0 <= k < |s.loops| && k != l :: t.loops[k] == s.loops[k]
    ensures forall k | 0 <= k < |t.loops| :: TablesWf(t, k)
  {
    assert TablesWf(s, l);
    forall k | 0 <= k < |t.loops|
      ensures TablesWf(t, k)
    {
      if k != l {
        TablesKept(s, t, k);
      }
    }
  }

  lemma WfAfterUpdate(s: Server, c: Id)
    requires Wf(s) && c in s.objects && CanUpdate(s, c)
    ensures Wf(UpdateChannel(s, c))
    ensures SameFrames(s, UpdateChannel(s, c))
  {
    var t := UpdateChannel(s, c);
    assert Has(s, c);
    AllLoopsKept(s, t);
    TablesAfter(s, t, s.objects[c].loop, c);
  }

  lemma UpdateSlice(s: Server, c: Id, d: Id)
    requires Wf(s) && c in s.objects && CanUpdate(s, c) && d in s.objects
    ensures Has(UpdateChannel(s, c), d)
    ensures var sl := SliceOf(s, d);
      SliceOf(UpdateChannel(s, c), d) ==
        if d == c then sl.(o := sl.o.(index := 0), reg := Some(sl.o.conn.interest), chan := true) else sl
  {
  }

  lemma UpdateChanges(s: Server, c: Id)
    requires Wf(s) && c in s.objects && CanUpdate(s, c)
    ensures var sl := SliceOf(s, c);
      Changed(s, UpdateChannel(s, c), c,
              sl.(o := sl.o.(index := 0), reg := Some(sl.o.conn.interest), chan := true))
  {
    WfAfterUpdate(s, c);
    forall d <- s.objects
      ensures d != c ==> SliceOf(UpdateChannel(s, c), d) == SliceOf(s, d)
    {
      UpdateSlice(s, c, d);
    }
    UpdateSlice(s, c, c);
  }

  ghost predicate CanRemove(s: Server, c: Id) {
    Wf(s) && c in s.objects && SliceOf(s, c).reg.Some? && SliceOf(s, c).chan &&
    s.loops[s.objects[c].loop].phase.Draining?
  }

  lemma WfAfterRemove(s: Server, c: Id)
    requires CanRemove(s, c)
    ensures Wf(RemoveChannel(s, c))
    ensures SameFrames(s, RemoveChannel(s, c))
  {
    var t := RemoveChannel(s, c);
    assert Has(s, c);
    AllLoopsKept(s, t);
    TablesAfter(s, t, s.objects[c].loop, c);
  }

  lemma RemoveSlice(s: Server, c: Id, d: Id)
    requires CanRemove(s, c) && d in s.objects
    ensures Has(RemoveChannel(s, c), d)
    ensures var sl := SliceOf(s, d);
      SliceOf(RemoveChannel(s, c), d) ==
        if d == c then sl.(o := sl.o.(index := -1), reg := None, chan := false) else sl
  {
  }

  lemma RemoveChannelChanges(s: Server, c: Id)
    requires CanRemove(s, c)
    ensures var sl := SliceOf(s, c);
      Changed(s, RemoveChannel(s, c), c, sl.(o := sl.o.(index := -1), reg := None, chan := false))
  {
    WfAfterRemove(s, c);
    forall d <- s.objects
      ensures d != c ==> SliceOf(RemoveChannel(s, c), d) == SliceOf(s, d)
    {
      RemoveSlice(s, c, d);
    }
    RemoveSlice(s, c, c);
  }

  lemma CloseFdSlice(s: Server, c: Id, d: Id)
    requires Wf(s) && c in s.objects && SliceOf(s, c).owns && d in s.objects
    ensures Has(CloseFd(s, c), d)
    ensures var sl := SliceOf(s, d);
      SliceOf(CloseFd(s, c), d) ==
        if d == c then sl.(o := sl.o.(open := false, destroyed := sl.o.destroyed + 1), owns := false) else sl
  {
  }

  lemma CloseFdChanges(s: Server, c: Id)
    requires Wf(s) && c in s.objects && SliceOf(s, c).owns
    ensures var sl := SliceOf(s, c);
      Changed(s, CloseFd(s, c), c, sl.(o := sl.o.(open := false, destroyed := sl.o.destroyed + 1), owns := false))
  {
    var t := CloseFd(s, c);
    assert Has(s, c);
    AllLoopsKept(s, t);
    AllTablesKept(s, t);
    forall d <- s.objects
      ensures d != c ==> SliceOf(t, d) == SliceOf(s, d)
    {
      CloseFdSlice(s, c, d);
    }
    CloseFdSlice(s, c, c);
  }

  function Erased(s: Server, c: Id): Server
    requires c in s.objects
  {
    s.(table := Erase(s.table, s.objects[c].name).0)
  }

  lemma EraseSlice(s: Server, c: Id, d: Id)
    requires Wf(s) && c in s.objects && d in s.objects
    ensures Has(Erased(s, c), d)
    ensures SliceOf(Erased(s, c), d) ==
      if d == c then SliceOf(s, d).(listed := false) else SliceOf(s, d)
  {
  }

  lemma EraseChanges(s: Server, c: Id)
    requires Wf(s) && c in s.objects
    ensures Erase(s.table, s.objects[c].name).1 == SliceOf(s, c).listed
    ensures Changed(s, Erased(s, c), c, SliceOf(s, c).(listed := false))
  {
    var t := Erased(s, c);
    assert Has(s, c);
    AllLoopsKept(s, t);
    AllTablesKept(s, t);
    forall d <- s.objects
      ensures d != c ==> SliceOf(t, d) == SliceOf(s, d)
    {
      EraseSlice(s, c, d);
    }
    EraseSlice(s, c, c);
  }

  // ---- the bodies ----

  /** A registered descriptor is open and belongs to the connection it is registered for. */
  lemma RegisteredIsOwned(s: Server, l: nat, fd: Fd)
    requires Wf(s) && l < |s.loops|
    ensures fd in s.loops[l].tables.kernel ==>
      var d := s.loops[l].tables.kernel[fd].owner;
      On(s, l, d) && (Good(d, SliceOf(s, d)) ==> s.objects[d].index >= 0 && fd in s.openFds && s.openFds[fd] == d)
    ensures fd in s.loops[l].tables.channels ==>
      var d := s.loops[l].tables.channels[fd];
      On(s, l, d) && (Good(d, SliceOf(s, d)) ==> s.objects[d].index >= 0 && fd in s.openFds && s.openFds[fd] == d)
  {
    assert TablesWf(s, l);
  }

  /** An open connection's channel can be updated: nobody else has its descriptor. */
  lemma GoodCanUpdate(s: Server, c: Id)
    requires Wf(s) && c in s.objects && Good(c, SliceOf(s, c)) && s.objects[c].open
    requires forall d <- s.objects :: d != c ==> Good(d, SliceOf(s, d))
    ensures CanUpdate(s, c)
  {
    assert Has(s, c);
    RegisteredIsOwned(s, s.objects[c].loop, s.objects[c].fd);
  }

  /** The connection's interest may change whenever its channel can be updated. */
  lemma PutConnChanges(s: Server, c: Id, conn: Conn)
    requires Wf(s) && c in s.objects && CanUpdate(s, c) && s.objects[c].index >= 0
    requires SliceOf(s, c).reg == Some(s.objects[c].conn.interest)
    ensures var sl := SliceOf(s, c);
      Changed(s, PutConn(s, c, conn), c,
              sl.(o := sl.o.(conn := conn, index := PutConn(s, c, conn).objects[c].index), reg := Some(conn.interest)))
      && PutConn(s, c, conn).objects[c].index >= 0
  {
    var sl := SliceOf(s, c);
    var o := s.objects[c].(conn := conn);
    var t := Put(s, c, o);
    PutChanges(s, c, o);
    if conn.interest != s.objects[c].conn.interest {
      UpdateChanges(t, c);
      Chain(s, t, UpdateChannel(t, c), c, sl.(o := o), SliceOf(UpdateChannel(t, c), c));
    }
  }

  /** A changed object whose changed interest then reaches the poller. */
  lemma PutUpdateChanges(s: Server, c: Id, o: Object)
    requires Wf(s) && c in s.objects && CanUpdate(s, c)
    requires var p := s.objects[c]; o.name == p.name && o.loop == p.loop && o.fd == p.fd && o.index == p.index
    ensures Has(Put(s, c, o), c)
    ensures Changed(s, UpdateChannel(Put(s, c, o), c), c,
                    SliceOf(s, c).(o := o.(index := 0), reg := Some(o.conn.interest), chan := true))
  {
    PutChanges(s, c, o);
    var t := Put(s, c, o);
    UpdateChanges(t, c);
    Chain(s, t, UpdateChannel(t, c), c, SliceOf(t, c), SliceOf(UpdateChannel(t, c), c));
  }

  function EstablishedObject(o: Object): Object {
    o.(conn := o.conn.(state := Connected, interest := o.conn.interest.(reading := true)),
       established := o.established + 1)
  }

  lemma EstablishingIsUpdating(s: Server, l: nat, c: Id)
    requires Has(s, c) && On(s, l, c)
    ensures Has(Put(s, c, EstablishedObject(s.objects[c])), c)
    ensures ConnectEstablished(s, l, c) == UpdateChannel(Put(s, c, EstablishedObject(s.objects[c])), c)
  {
  }

  lemma ConnectEstablishedChanges(s: Server, l: nat, c: Id)
    requires Wf(s) && On(s, l, c) && CanUpdate(s, c)
    ensures var sl := SliceOf(s, c);
      var o := EstablishedObject(sl.o).(index := 0);
      Changed(s, ConnectEstablished(s, l, c), c, sl.(o := o, reg := Some(o.conn.interest), chan := true))
  {
    var o := EstablishedObject(s.objects[c]);
    assert SliceOf(s, c).o == s.objects[c];
    hide Changed, UpdateChannel, Wf, CanUpdate, SliceOf, ConnectEstablished, Put;
    EstablishingIsUpdating(s, l, c);
    PutUpdateChanges(s, c, o);
  }

  /** disableAll and remove. */
  lemma UnregisterChanges(s: Server, c: Id)
    requires Wf(s) && c in s.objects && CanUpdate(s, c)
    requires s.loops[s.objects[c].loop].phase.Draining?
    ensures var t := Put(s, c, s.objects[c].(conn := s.objects[c].conn.(interest := NO_EVENT)));
      && Has(t, c) && Has(UpdateChannel(t, c), c)
      && var sl := SliceOf(s, c);
      Changed(s, RemoveChannel(UpdateChannel(t, c), c), c,
              sl.(o := sl.o.(conn := sl.o.conn.(interest := NO_EVENT), index := -1), reg := None, chan := false))
  {
    var o := s.objects[c].(conn := s.objects[c].conn.(interest := NO_EVENT));
    PutUpdateChanges(s, c, o);
    var u := UpdateChannel(Put(s, c, o), c);
    RemoveChannelChanges(u, c);
    Chain(s, u, RemoveChannel(u, c), c, SliceOf(u, c), SliceOf(RemoveChannel(u, c), c));
  }

  lemma ConnectDestroyedChanges(s: Server, l: nat, c: Id)
    requires Wf(s) && On(s, l, c) && CanUpdate(s, c) && SliceOf(s, c).owns
    requires l < |s.loops| && s.loops[l].phase.Draining?
    ensures var sl := SliceOf(s, c);
      Changed(s, ConnectDestroyed(s, l, c), c,
              sl.(o := sl.o.(conn := sl.o.conn.(interest := NO_EVENT), index := -1, open := false,
                             destroyed := sl.o.destroyed + 1),
                  reg := None, chan := false, owns := false))
  {
    UnregisterChanges(s, c);
    var t := Put(s, c, s.objects[c].(conn := s.objects[c].conn.(interest := NO_EVENT)));
    var v := RemoveChannel(UpdateChannel(t, c), c);
    CloseFdChanges(v, c);
    Chain(s, v, CloseFd(v, c), c, SliceOf(v, c), SliceOf(CloseFd(v, c), c));
    assert ConnectDestroyed(s, l, c) == CloseFd(v, c);
  }

  lemma RemoveConnectionChanges(s: Server, c: Id)
    requires Wf(s) && c in s.objects
    ensures var sl := SliceOf(s, c);
      Changed(s, RemoveConnectionInLoop(s, 0, c), c,
              if sl.listed then sl.(listed := false, pend := sl.pend + [Destroy(c)]) else sl)
  {
    assert Has(s, c);
    EraseChanges(s, c);
    var t := Erased(s, c);
    if SliceOf(s, c).listed {
      QueueChanges(t, s.objects[c].loop, Destroy(c));
      var u := Queue(t, s.objects[c].loop, Destroy(c));
      Chain(s, t, u, c, SliceOf(t, c), SliceOf(u, c));
    }
  }

  /** What handleClose leaves of the slice. */
  function ClosedSlice(c: Id, l: nat, sl: Slice): Slice {
    var o := sl.o.(conn := Closed(sl.o.conn));
    if l != 0 then sl.(o := o, removing := true)
    else if sl.listed then sl.(o := o, listed := false, pend := sl.pend + [Destroy(c)])
    else sl.(o := o)
  }

  lemma HandleCloseChanges(s: Server, l: nat, c: Id)
    requires Wf(s) && c in s.objects && l < |s.loops|
    ensures Changed(s, HandleClose(s, l, c), c, ClosedSlice(c, l, SliceOf(s, c)))
  {
    var o := s.objects[c].(conn := Closed(s.objects[c].conn));
    PutChanges(s, c, o);
    var t := Put(s, c, o);
    assert Has(s, c);
    if l == 0 {
      RemoveConnectionChanges(t, c);
    } else {
      QueueChanges(t, 0, Remove(c));
    }
    var u := HandleClose(s, l, c);
    Chain(s, t, u, c, SliceOf(t, c), SliceOf(u, c));
  }

  // ---- every step keeps the invariant ----

  lemma SetLoopKeeps(s: Server, l: nat, loop: Loop)
    requires Inv(s) && l < |s.loops|
    requires Pending(loop) == Pending(s.loops[l]) && loop.tables == s.loops[l].tables
    requires LoopWf(SetLoop(s, l, loop), l)
    ensures Inv(SetLoop(s, l, loop))
  {
    var t := SetLoop(s, l, loop);
    forall k | 0 <= k < |t.loops|
      ensures LoopWf(t, k)
    {
      if k != l {
        LoopKept(s, t, k);
      }
    }
    AllTablesKept(s, t);
    forall d <- s.objects
      ensures Good(d, SliceOf(t, d))
    {
      assert Has(s, d) && Good(d, SliceOf(s, d));
      SetLoopSlices(s, l, loop, d);
      hide Inv, Good, SliceOf;
    }
  }

  /** A loop may change phase and take over other registered channels of its own. */
  lemma NewLoopIsWf(s: Server, l: nat, loop: Loop)
    requires l < |s.loops| && LoopWf(s, l) && Pending(loop) == Pending(s.loops[l])
    requires !loop.phase.Draining? ==> loop.batch == []
    requires !loop.phase.Dispatching? ==> loop.active == [] && loop.current.None? && !loop.inWriteCallback
    requires loop.inWriteCallback ==> loop.current.Some?
    requires forall c <- loop.active :: On(s, l, c) && s.objects[c].index >= 0
    requires loop.current.Some? ==> On(s, l, loop.current.value) && s.objects[loop.current.value].index >= 0
    ensures LoopWf(SetLoop(s, l, loop), l)
  {
  }

  lemma SetLoopSlices(s: Server, l: nat, loop: Loop, d: Id)
    requires Has(s, d) && l < |s.loops|
    requires Pending(loop) == Pending(s.loops[l]) && loop.tables == s.loops[l].tables
    ensures SliceOf(SetLoop(s, l, loop), d) == SliceOf(s, d)
  {
  }

  // What the bodies do to a good slice.

  lemma GoodAfterClose(c: Id, l: nat, sl: Slice)
    requires Good(c, sl) && !sl.o.conn.state.Connecting?
    ensures Good(c, ClosedSlice(c, l, sl))
  {
  }

  lemma GoodAfterConn(c: Id, sl: Slice, conn: Conn, i: int)
    requires Good(c, sl) && sl.o.open && !sl.o.conn.state.Connecting? && i >= 0
    requires ConnectionStream.Stream(conn)
    requires conn.state == sl.o.conn.state || (sl.o.conn.state.Connected? && conn.state.Disconnecting?)
    ensures Good(c, sl.(o := sl.o.(conn := conn, index := i), reg := Some(conn.interest)))
  {
  }

  lemma GoodAfterQueue(c: Id, sl: Slice, task: Task)
    requires Good(c, sl) && sl.o.conn.state in {Connected, Disconnecting}
    requires !task.SendTask? ==> sl.o.conn.state == Disconnecting
    ensures Good(c, sl.(pend := sl.pend + [Run(c, task)]))
  {
  }

  lemma GoodAfterTask(c: Id, sl: Slice)
    requires Good(c, sl) && sl.pend != [] && sl.pend[0].Run?
    ensures Good(c, sl.(pend := sl.pend[1..]))
    ensures sl.o.open && !sl.o.conn.state.Connecting?
  {
  }

  lemma TasksHead(p: seq<Functor>, n: nat)
    requires 0 < n <= |p| && Tasks(p[..n])
    ensures p[0].Run?
  {
  }

  lemma HeadTellsStage(c: Id, sl: Slice)
    requires Good(c, sl) && sl.pend != []
    ensures sl.pend[0].Establish? ==> sl.o.conn.state.Connecting?
    ensures sl.pend[0].Destroy? ==> sl.o.conn.state.Disconnected? && !sl.listed && |sl.pend| == 1
  {
    assert sl.pend[0] in sl.pend;
    if !sl.o.conn.state.Connecting? && !sl.listed && |sl.pend| > 1 {
      TasksHead(sl.pend, |sl.pend| - 1);
    }
  }

  lemma GoodAfterEstablish(c: Id, sl: Slice, sl': Slice)
    requires Good(c, sl) && sl.pend != [] && sl.pend[0] == Establish(c)
    requires sl' == sl.(o := EstablishedObject(sl.o).(index := 0), pend := sl.pend[1..], chan := true,
                        reg := Some(EstablishedObject(sl.o).conn.interest))
    ensures Good(c, sl')
  {
    HeadTellsStage(c, sl);
  }

  /** connectDestroyed is the last functor of its connection. */
  lemma OnlyDestroyLeft(c: Id, sl: Slice)
    requires Good(c, sl) && sl.pend != [] && sl.pend[0] == Destroy(c)
    ensures sl.pend == [Destroy(c)] && sl.o.open && sl.o.conn.state == Disconnected && !sl.listed && sl.owns
  {
    HeadTellsStage(c, sl);
  }

  lemma GoodAfterErase(c: Id, sl: Slice, removing: bool)
    requires Good(c, sl) && sl.removing
    ensures Good(c, if sl.listed then sl.(listed := false, pend := sl.pend + [Destroy(c)], removing := removing)
                    else sl.(removing := removing))
  {
  }

  lemma CloseKeeps(s: Server, l: nat, c: Id)
    requires Inv(s) && l < |s.loops| && c in s.objects && !s.objects[c].conn.state.Connecting?
    ensures Has(s, c) && Inv(HandleClose(s, l, c))
  {
    HandleCloseChanges(s, l, c);
    GoodAfterClose(c, l, SliceOf(s, c));
    Restore(s, HandleClose(s, l, c), c, ClosedSlice(c, l, SliceOf(s, c)));
  }

  /** A connection's stream moves on while its stage does not. */
  lemma PutConnKeeps(s: Server, c: Id, conn: Conn)
    requires Inv(s) && c in s.objects && s.objects[c].open && !s.objects[c].conn.state.Connecting?
    requires ConnectionStream.Stream(conn)
    requires conn.state == s.objects[c].conn.state ||
      (s.objects[c].conn.state.Connected? && conn.state.Disconnecting?)
    ensures Has(s, c) && Inv(PutConn(s, c, conn))
    ensures c in PutConn(s, c, conn).objects && PutConn(s, c, conn).objects[c].conn == conn
    ensures PutConn(s, c, conn).objects[c].loop == s.objects[c].loop
  {
    var sl := SliceOf(s, c);
    assert Good(c, sl);
    PutConnChanges(s, c, conn);
    var t := PutConn(s, c, conn);
    GoodAfterConn(c, sl, conn, t.objects[c].index);
    Restore(s, t, c, SliceOf(t, c));
  }

  lemma QueueTaskKeeps(s: Server, c: Id, task: Task)
    requires Inv(s) && c in s.objects
    requires s.objects[c].conn.state in {Connected, Disconnecting}
    requires !task.SendTask? ==> s.objects[c].conn.state == Disconnecting
    ensures Has(s, c) && Inv(Queue(s, s.objects[c].loop, Run(c, task)))
  {
    assert Has(s, c);
    var t := Queue(s, s.objects[c].loop, Run(c, task));
    QueueChanges(s, s.objects[c].loop, Run(c, task));
    GoodAfterQueue(c, SliceOf(s, c), task);
    Restore(s, t, c, SliceOf(t, c));
  }

  /** A public call leaves the connection and at most one functor. */
  lemma CallKeeps(s: Server, c: Id, r: (Conn, Option<Task>))
    requires Inv(s) && c in s.objects
    requires (r.0 == s.objects[c].conn && r.1.None?) ||
      (ConnectionStream.Stream(r.0) && s.objects[c].conn.state in {Connected, Disconnecting} &&
       (r.0.state == s.objects[c].conn.state || r.0.state == Disconnecting))
    requires r.1.Some? ==>
      r.0.state in {Connected, Disconnecting} && (r.1.value.SendTask? || r.0.state == Disconnecting)
    ensures Has(s, c) && Inv(AfterCall(s, c, r))
  {
    assert Has(s, c) && Good(c, SliceOf(s, c));
    if r.0 == s.objects[c].conn && r.1.None? {
      assert PutConn(s, c, r.0).objects == s.objects;
      assert AfterCall(s, c, r) == s;
    } else {
      PutConnKeeps(s, c, r.0);
      hide Inv, Wf;
      if r.1.Some? {
        QueueTaskKeeps(PutConn(s, c, r.0), c, r.1.value);
      }
    }
  }

  /** The functor at the head of a batch belongs to its loop and to its connection's slice. */
  lemma HeadIsPlaced(s: Server, l: nat)
    requires Inv(s) && l < |s.loops| && s.loops[l].batch != [] && !s.loops[l].batch[0].Other?
    ensures Wf(Pop(s, l))
    ensures forall d <- s.objects :: d != s.loops[l].batch[0].c ==> Good(d, SliceOf(Pop(s, l), d))
    ensures var f := s.loops[l].batch[0];
      && f.c in s.objects && Good(f.c, SliceOf(s, f.c)) && SliceOf(Pop(s, l), f.c).o == s.objects[f.c]
      && (if f.Remove? then l == 0 && SliceOf(s, f.c).removing
          else On(s, l, f.c) && SliceOf(s, f.c).pend != [] && SliceOf(s, f.c).pend[0] == f
               && SliceOf(Pop(s, l), f.c) == SliceOf(s, f.c).(pend := SliceOf(s, f.c).pend[1..]))
  {
    var f := s.loops[l].batch[0];
    assert LoopWf(s, l) && f in Pending(s.loops[l]);
    WfAfterPop(s, l);
    PopSlice(s, l, f.c);
    forall d <- s.objects
      ensures d != f.c ==> Good(d, SliceOf(Pop(s, l), d))
    {
      PopSlice(s, l, d);
    }
  }

  lemma PopTaskKeeps(s: Server, l: nat)
    requires Inv(s) && l < |s.loops| && s.loops[l].batch != [] && s.loops[l].batch[0].Run?
    ensures Inv(Pop(s, l))
    ensures var f := s.loops[l].batch[0];
      On(s, l, f.c) && s.objects[f.c].open && !s.objects[f.c].conn.state.Connecting?
  {
    HeadIsPlaced(s, l);
    var c := s.loops[l].batch[0].c;
    GoodAfterTask(c, SliceOf(s, c));
  }

  lemma PopOtherKeeps(s: Server, l: nat)
    requires Inv(s) && l < |s.loops| && s.loops[l].batch != [] && s.loops[l].batch[0].Other?
    ensures Inv(Pop(s, l))
  {
    WfAfterPop(s, l);
    forall d <- s.objects
      ensures SliceOf(Pop(s, l), d) == SliceOf(s, d)
    {
      PopSlice(s, l, d);
    }
  }

  lemma TaskKeeps(s: Server, c: Id, task: Task, n: int)
    requires Inv(s) && c in s.objects && s.objects[c].open && !s.objects[c].conn.state.Connecting?
    requires !task.CloseTask? && (task.SendTask? ==> n <= |task.data|)
    ensures Has(s, c) && Inv(PutConn(s, c, RunTask(s.objects[c].conn, task, n)))
  {
    var conn := s.objects[c].conn;
    assert Good(c, SliceOf(s, c));
    if task.SendTask? {
      SendInLoopKeeps(conn, task.data, n);
    }
    PutConnKeeps(s, c, RunTask(conn, task, n));
  }

  lemma RunTaskKeeps(s: Server, l: nat, n: int)
    requires Inv(s) && Enabled(s, RunNext(l, n)) && s.loops[l].batch[0].Run?
    ensures Inv(Step(s, RunNext(l, n)))
  {
    var f := s.loops[l].batch[0];
    PopTaskKeeps(s, l);
    if f.task.CloseTask? {
      CloseKeeps(Pop(s, l), l, f.c);
    } else {
      TaskKeeps(Pop(s, l), f.c, f.task, n);
    }
  }

  lemma RunEstablishKeeps(s: Server, l: nat, n: int)
    requires Inv(s) && Enabled(s, RunNext(l, n)) && s.loops[l].batch[0].Establish?
    ensures Inv(Step(s, RunNext(l, n)))
  {
    var c := s.loops[l].batch[0].c;
    var t := Pop(s, l);
    HeadIsPlaced(s, l);
    GoodCanUpdate(s, c);
    ConnectEstablishedChanges(t, l, c);
    var u := ConnectEstablished(t, l, c);
    GoodAfterEstablish(c, SliceOf(s, c), SliceOf(u, c));
    Restore(t, u, c, SliceOf(u, c));
  }

  lemma RunDestroyKeeps(s: Server, l: nat, n: int)
    requires Inv(s) && Enabled(s, RunNext(l, n)) && s.loops[l].batch[0].Destroy?
    ensures Inv(Step(s, RunNext(l, n)))
  {
    var c := s.loops[l].batch[0].c;
    var t := Pop(s, l);
    HeadIsPlaced(s, l);
    OnlyDestroyLeft(c, SliceOf(s, c));
    GoodCanUpdate(s, c);
    ConnectDestroyedChanges(t, l, c);
    var u := ConnectDestroyed(t, l, c);
    assert Good(c, SliceOf(u, c));
    Restore(t, u, c, SliceOf(u, c));
  }

  lemma RemovedSlice(s: Server, l: nat, c: Id)
    requires l < |s.loops| && s.loops[l].batch != [] && s.loops[l].batch[0] == Remove(c)
    requires Wf(s) && Wf(Pop(s, l)) && c in s.objects && Good(c, SliceOf(s, c)) && SliceOf(s, c).removing
    ensures Has(Pop(s, l), c)
    ensures var u := RemoveConnectionInLoop(Pop(s, l), 0, c);
      Has(u, c) && |u.loops| > 0 && Changed(Pop(s, l), u, c, SliceOf(u, c)) && Good(c, SliceOf(u, c))
  {
    PopSlice(s, l, c);
    RemoveConnectionChanges(Pop(s, l), c);
    GoodAfterErase(c, SliceOf(s, c), SliceOf(Pop(s, l), c).removing);
    hide Good, RemoveConnectionInLoop;
  }

  lemma RunRemoveKeeps(s: Server, l: nat, n: int)
    requires Inv(s) && Enabled(s, RunNext(l, n)) && s.loops[l].batch[0].Remove?
    ensures Inv(Step(s, RunNext(l, n)))
  {
    var c := s.loops[l].batch[0].c;
    var t := Pop(s, l);
    HeadIsPlaced(s, l);
    RemovedSlice(s, l, c);
    hide Inv, Good, Wf, SliceOf, Changed;
    var u := RemoveConnectionInLoop(t, 0, c);
    Restore(t, u, c, SliceOf(u, c));
  }

  lemma RunNextKeeps(s: Server, l: nat, n: int)
    requires Inv(s) && Enabled(s, RunNext(l, n))
    ensures Inv(Step(s, RunNext(l, n)))
  {
    match s.loops[l].batch[0]
    case Establish(_) => RunEstablishKeeps(s, l, n);
    case Run(_, _) => RunTaskKeeps(s, l, n);
    case Remove(_) => RunRemoveKeeps(s, l, n);
    case Destroy(_) => RunDestroyKeeps(s, l, n);
    case Other => PopOtherKeeps(s, l);
  }

  // Accepting a connection.

  function Inserted(s: Server, c: Id, fd: Fd, l: nat): Server {
    Put(s.(table := Insert(s.table, c), openFds := s.openFds[fd := c]), c, NewObject(s, fd, l))
  }

  lemma InsertKeepsLoop(s: Server, c: Id, fd: Fd, l: nat, k: nat)
    requires c !in s.objects && k < |s.loops| && LoopWf(s, k)
    ensures LoopWf(Inserted(s, c, fd, l), k)
  {
  }

  lemma InsertKeepsTables(s: Server, c: Id, fd: Fd, l: nat, k: nat)
    requires c !in s.objects && k < |s.loops| && TablesWf(s, k)
    ensures TablesWf(Inserted(s, c, fd, l), k)
  {
  }

  lemma InsertKeepsNames(s: Server, c: Id, fd: Fd, l: nat)
    requires NamesWf(s) && FdsWf(s) && c !in s.objects && fd !in s.openFds && l < |s.loops|
    ensures NamesWf(Inserted(s, c, fd, l)) && FdsWf(Inserted(s, c, fd, l))
  {
  }

  lemma WfAfterInsert(s: Server, c: Id, fd: Fd, l: nat)
    requires Wf(s) && c !in s.objects && fd !in s.openFds && l < |s.loops|
    ensures Wf(Inserted(s, c, fd, l))
  {
    InsertKeepsNames(s, c, fd, l);
    forall k | 0 <= k < |s.loops|
      ensures LoopWf(Inserted(s, c, fd, l), k) && TablesWf(Inserted(s, c, fd, l), k)
    {
      InsertKeepsLoop(s, c, fd, l, k);
      InsertKeepsTables(s, c, fd, l, k);
    }
  }

  lemma {:induction false} NothingAbout(p: seq<Functor>, c: Id)
    requires forall f <- p :: !About(f, c)
    ensures Proj(p, c) == []
  {
    if p != [] {
      assert p[0] in p;
      NothingAbout(p[1..], c);
    }
  }

  lemma InsertedSlices(s: Server, c: Id, fd: Fd, l: nat, d: Id)
    requires NamesWf(s) && c !in s.objects && fd !in s.openFds && 0 <= l < |s.loops| && d in s.objects
    ensures Has(s, d) && Has(Inserted(s, c, fd, l), d) && SliceOf(Inserted(s, c, fd, l), d) == SliceOf(s, d)
  {
  }

  lemma InsertedSlice(s: Server, c: Id, fd: Fd, l: nat)
    requires Inv(s) && c !in s.objects && fd !in s.openFds && l < |s.loops|
    ensures SliceOf(Inserted(s, c, fd, l), c) == Slice(NewObject(s, fd, l), true, [], false, None, false, true)
    ensures fd !in s.loops[l].tables.kernel && fd !in s.loops[l].tables.channels
  {
    assert LoopWf(s, l) && LoopWf(s, 0);
    assert forall f <- Pending(s.loops[l]) :: Placed(s, l, f);
    NothingAbout(Pending(s.loops[l]), c);
    assert Remove(c) in Pending(s.loops[0]) ==> Placed(s, 0, Remove(c));
    RegisteredIsOwned(s, l, fd);
  }

  lemma OthersAfterInsert(s: Server, c: Id, fd: Fd, l: nat)
    requires Inv(s) && c !in s.objects && fd !in s.openFds && l < |s.loops|
    ensures Wf(Inserted(s, c, fd, l))
    ensures var t := Inserted(s, c, fd, l); forall d <- t.objects :: d != c ==> Good(d, SliceOf(t, d))
  {
    var t := Inserted(s, c, fd, l);
    WfAfterInsert(s, c, fd, l);
    forall d <- t.objects
      ensures d != c ==> Good(d, SliceOf(t, d))
    {
      if d != c {
        InsertedSlices(s, c, fd, l, d);
        assert Good(d, SliceOf(s, d));
        hide Inv, Good, SliceOf;
      }
    }
  }

  lemma AcceptKeeps(s: Server, c: Id, fd: Fd, l: nat)
    requires Inv(s) && c !in s.objects && fd !in s.openFds && l < |s.loops|
    ensures Inv(AcceptConnection(s, c, fd, l))
  {
    hide Inv;
    var t := Inserted(s, c, fd, l);
    InsertedSlice(s, c, fd, l);
    OthersAfterInsert(s, c, fd, l);
    if l == 0 {
      ConnectEstablishedChanges(t, 0, c);
      var u := ConnectEstablished(t, 0, c);
      Restore(t, u, c, SliceOf(u, c));
    } else {
      QueueChanges(t, l, Establish(c));
      var u := Queue(t, l, Establish(c));
      Restore(t, u, c, SliceOf(u, c));
    }
  }

  // Events of a loop.

  lemma CurrentIsGood(s: Server, l: nat)
    requires Inv(s) && l < |s.loops| && s.loops[l].current.Some?
    ensures var c := s.loops[l].current.value;
      On(s, l, c) && Has(s, c) && s.objects[c].index >= 0 && s.objects[c].open && !s.objects[c].conn.state.Connecting?
      && ConnectionStream.Stream(s.objects[c].conn)
  {
    assert LoopWf(s, l);
    var c := s.loops[l].current.value;
    assert Good(c, SliceOf(s, c));
  }

  lemma WriteEventKeeps(s: Server, l: nat, n: int)
    requires Inv(s) && Handling(s, l) && n <= |s.objects[Current(s, l)].conn.out|
    ensures Inv(WriteEvent(s, l, n))
  {
    hide Inv;
    CurrentIsGood(s, l);
    var c := Current(s, l);
    WriteSomeKeeps(s.objects[c].conn, n);
    var (conn, outcome) := WriteSome(s.objects[c].conn, n);
    if outcome.SendFailed? {
      CloseKeeps(s, l, c);
    } else {
      PutConnKeeps(s, c, conn);
      if outcome.Drained? {
        CallbackFlagKeeps(PutConn(s, c, conn), l, true);
      }
    }
  }

  lemma CallbackFlagKeeps(s: Server, l: nat, flag: bool)
    requires Inv(s) && l < |s.loops| && s.loops[l].current.Some?
    ensures Inv(SetLoop(s, l, s.loops[l].(inWriteCallback := flag)))
  {
    var loop := s.loops[l].(inWriteCallback := flag);
    LoopIsWf(s, l);
    hide Inv;
    NewLoopIsWf(s, l, loop);
    SetLoopKeeps(s, l, loop);
  }

  lemma FinishWriteKeeps(s: Server, l: nat)
    requires Inv(s) && Enabled(s, FinishWriteEvent(l))
    ensures Inv(Step(s, FinishWriteEvent(l)))
  {
    hide Inv;
    CurrentIsGood(s, l);
    var c := s.loops[l].current.value;
    CallbackFlagKeeps(s, l, false);
    PutConnKeeps(SetLoop(s, l, s.loops[l].(inWriteCallback := false)), c, FinishWrite(s.objects[c].conn));
  }

  lemma PollReturnKeeps(s: Server, l: nat, ready: seq<Id>)
    requires Inv(s) && Enabled(s, PollReturn(l, ready))
    ensures Inv(Step(s, PollReturn(l, ready)))
  {
    var loop := s.loops[l].(phase := Dispatching, active := ready);
    LoopIsWf(s, l);
    hide Inv;
    forall c <- ready
      ensures On(s, l, c) && s.objects[c].index >= 0
    {
      WatchedIsRegistered(s, l, c);
    }
    NewLoopIsWf(s, l, loop);
    SetLoopKeeps(s, l, loop);
  }

  lemma WatchedIsRegistered(s: Server, l: nat, c: Id)
    requires Inv(s) && l < |s.loops| && Watched(s.loops[l].tables, c)
    ensures On(s, l, c) && s.objects[c].index >= 0
  {
    var fd :| fd in s.loops[l].tables.kernel && s.loops[l].tables.kernel[fd].owner == c;
    assert TablesWf(s, l);
    RegisteredIsOwned(s, l, fd);
  }

  lemma LoopIsWf(s: Server, l: nat)
    requires Inv(s) && l < |s.loops|
    ensures LoopWf(s, l)
  {
  }

  lemma NextChannelKeeps(s: Server, l: nat)
    requires Inv(s) && Enabled(s, NextChannel(l))
    ensures Inv(Step(s, NextChannel(l)))
  {
    hide Inv;
    LoopIsWf(s, l);
    var active := s.loops[l].active;
    var loop := s.loops[l].(current := Some(active[0]), active := active[1..]);
    assert active[0] in active && forall c <- active[1..] :: c in active;
    NewLoopIsWf(s, l, loop);
    SetLoopKeeps(s, l, loop);
  }

  /** doPendingFunctors takes the whole queue, and the loop polls when the batch is done. */
  lemma DrainKeeps(s: Server, e: Event)
    requires Inv(s) && Enabled(s, e) && (e.StartDrain? || e.EndDrain?)
    ensures Inv(Step(s, e))
  {
    var l := e.l;
    var loop := Step(s, e).loops[l];
    LoopIsWf(s, l);
    hide Inv;
    assert Pending(loop) == Pending(s.loops[l]);
    NewLoopIsWf(s, l, loop);
    SetLoopKeeps(s, l, loop);
  }

  lemma ConnIsGood(s: Server, c: Id)
    requires Inv(s) && c in s.objects
    ensures s.objects[c].conn.state in {Connected, Disconnecting} ==>
      s.objects[c].open && ConnectionStream.Stream(s.objects[c].conn)
  {
  }

  lemma UserSendKeeps(s: Server, c: Id, inLoop: bool, data: seq<Byte>, n: int)
    requires Inv(s) && Has(s, c) && n <= |data|
    ensures Inv(AfterCall(s, c, Send(s.objects[c].conn, inLoop, data, n)))
    ensures Inv(AfterCall(s, c, SendBuffer(s.objects[c].conn, inLoop, data)))
  {
    hide Inv;
    var conn := s.objects[c].conn;
    ConnIsGood(s, c);
    if conn.state == Connected {
      SendInLoopKeeps(conn, data, n);
      SendBufferInLoopKeeps(conn, data);
    }
    CallKeeps(s, c, Send(conn, inLoop, data, n));
    CallKeeps(s, c, SendBuffer(conn, inLoop, data));
  }

  lemma UserStopKeeps(s: Server, c: Id, inLoop: bool)
    requires Inv(s) && Has(s, c)
    ensures Inv(AfterCall(s, c, Shutdown(s.objects[c].conn, inLoop)))
    ensures Inv(AfterCall(s, c, ForceClose(s.objects[c].conn)))
  {
    hide Inv;
    ConnIsGood(s, c);
    CallKeeps(s, c, Shutdown(s.objects[c].conn, inLoop));
    CallKeeps(s, c, ForceClose(s.objects[c].conn));
  }

  lemma ReadyKeeps(s: Server, e: Event)
    requires Inv(s) && Enabled(s, e) && (e.ReadReady? || e.WriteReady? || e.CloseReady?)
    ensures Inv(Step(s, e))
  {
    hide Inv;
    CurrentIsGood(s, e.l);
    if e.WriteReady? {
      WriteEventKeeps(s, e.l, e.n);
    } else {
      CloseKeeps(s, e.l, Current(s, e.l));
    }
  }

  lemma UserCallKeeps(s: Server, e: Event)
    requires Inv(s) && Enabled(s, e)
    requires e.UserSend? || e.UserSendBuffer? || e.UserShutdown? || e.UserForceClose? || e.UserQueue?
    ensures Inv(Step(s, e))
  {
    hide Inv;
    match e
    case UserSend(t, c, data, n) => UserSendKeeps(s, c, Inside(s, t, c), data, n);
    case UserSendBuffer(t, c, data) => UserSendKeeps(s, c, Inside(s, t, c), data, 0);
    case UserShutdown(t, c) => UserStopKeeps(s, c, Inside(s, t, c));
    case UserForceClose(t, c) => UserStopKeeps(s, c, false);
    case UserQueue(t, l) => OtherChangesNothing(s, l);
  }

  /** The invariant is inductive: every step of every interleaving keeps it. */
  lemma StepKeeps(s: Server, e: Event)
    requires Inv(s) && Enabled(s, e)
    ensures Inv(Step(s, e))
  {
    hide Inv;
    if {
      case e.Accept? => AcceptKeeps(s, e.c, e.fd, e.l);
      case e.PollReturn? => PollReturnKeeps(s, e.l, e.ready);
      case e.NextChannel? => NextChannelKeeps(s, e.l);
      case e.ReadReady? || e.WriteReady? || e.CloseReady? => ReadyKeeps(s, e);
      case e.FinishWriteEvent? => FinishWriteKeeps(s, e.l);
      case e.StartDrain? || e.EndDrain? => DrainKeeps(s, e);
      case e.RunNext? => RunNextKeeps(s, e.l, e.n);
      case e.UserSend? || e.UserSendBuffer? || e.UserShutdown? || e.UserForceClose? || e.UserQueue? =>
        UserCallKeeps(s, e);
    }
  }

  lemma InitHolds(threadNum: nat)
    ensures Inv(Init(threadNum))
  {
  }

  lemma {:induction false} RunKeeps(s: Server, es: seq<Event>)
    requires Inv(s) && IsRun(s, es)
    ensures Inv(After(s, es))
    decreases |es|
  {
    if es != [] {
      StepKeeps(s, es[0]);
      RunKeeps(Step(s, es[0]), es[1..]);
    }
  }
}
