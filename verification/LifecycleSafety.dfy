/** That no step does what must not be done, told from the states the steps start in; and that a
    step which did would leave its mark. */
module LifecycleSafety {
  import opened Prelude
  import opened EpollModel
  import opened ConnectionStream
  import opened Lifecycle
  import opened LifecycleInvariant
  import opened LifecycleTheorems

  /** The connection is registered with the poller of its loop, under its own open descriptor. */
  ghost predicate Registered(s: Server, c: Id) {
    && Has(s, c) && s.objects[c].index >= 0 && s.objects[c].open
    && s.objects[c].fd in s.openFds && s.openFds[s.objects[c].fd] == c
    && var t := s.loops[s.objects[c].loop].tables;
    && s.objects[c].fd in t.kernel && t.kernel[s.objects[c].fd] == Registration(c, s.objects[c].conn.interest)
    && s.objects[c].fd in t.channels && t.channels[s.objects[c].fd] == c
  }

  /** The connection has a descriptor of its own for which nothing is registered yet. */
  ghost predicate Unregistered(s: Server, c: Id) {
    && Has(s, c) && s.objects[c].index < 0 && s.objects[c].open
    && s.objects[c].fd !in s.loops[s.objects[c].loop].tables.kernel
  }

  /** What a step needs of the state it starts in, so that it runs on the right thread, adds only
      absent descriptors and changes or removes only present ones, touches only live channels and
      closes only its own descriptor. */
  ghost predicate Safe(s: Server, e: Event)
    requires Enabled(s, e)
  {
    match e
    case RunNext(l, n) =>
      (match s.loops[l].batch[0]
       case Establish(c) => s.objects[c].loop == l && Unregistered(s, c)
       case Run(c, task) => s.objects[c].loop == l && Registered(s, c)
       case Destroy(c) => s.objects[c].loop == l && Registered(s, c)
       case Remove(c) => l == 0
       case Other => true)
    case ReadReady(l, n) => s.objects[Current(s, l)].loop == l && Registered(s, Current(s, l))
    case WriteReady(l, n) => s.objects[Current(s, l)].loop == l && Registered(s, Current(s, l))
    case CloseReady(l) => s.objects[Current(s, l)].loop == l && Registered(s, Current(s, l))
    case FinishWriteEvent(l) =>
      var c := s.loops[l].current.value; s.objects[c].loop == l && Registered(s, c)
    case UserSend(t, c, data, n) => s.objects[c].conn.state == Connected ==> Registered(s, c)
    case UserSendBuffer(t, c, data) => s.objects[c].conn.state == Connected ==> Registered(s, c)
    case UserShutdown(t, c) => s.objects[c].conn.state == Connected ==> Registered(s, c)
    case _ => true
  }

  lemma GoodIsRegistered(s: Server, c: Id)
    requires Inv(s) && c in s.objects && s.objects[c].open && !s.objects[c].conn.state.Connecting?
    ensures Registered(s, c)
  {
    assert Has(s, c);
    assert Good(c, SliceOf(s, c));
  }

  lemma ConnectingIsUnregistered(s: Server, c: Id)
    requires Inv(s) && c in s.objects && s.objects[c].conn.state.Connecting?
    ensures Unregistered(s, c)
  {
    assert Has(s, c);
    assert Good(c, SliceOf(s, c));
    GoodCanUpdate(s, c);
  }

  lemma HeadIsSafe(s: Server, e: Event)
    requires Inv(s) && Enabled(s, e) && e.RunNext?
    ensures Safe(s, e)
  {
    hide Inv, Good, SliceOf, Registered, Unregistered;
    var l, f := e.l, s.loops[e.l].batch[0];
    if !f.Other? {
      HeadIsPlaced(s, l);
      if f.Establish? {
        EstablishingIsNew(s, l);
        ConnectingIsUnregistered(s, f.c);
      } else if !f.Remove? {
        RunningIsOpen(s, l);
        GoodIsRegistered(s, f.c);
      }
    }
  }

  lemma EstablishingIsNew(s: Server, l: nat)
    requires Inv(s) && l < |s.loops| && s.loops[l].batch != [] && s.loops[l].batch[0].Establish?
    ensures var c := s.loops[l].batch[0].c; c in s.objects && s.objects[c].conn.state.Connecting?
  {
    HeadIsPlaced(s, l);
    HeadTellsStage(s.loops[l].batch[0].c, SliceOf(s, s.loops[l].batch[0].c));
    hide Inv;
  }

  lemma RunningIsOpen(s: Server, l: nat)
    requires Inv(s) && l < |s.loops| && s.loops[l].batch != []
    requires s.loops[l].batch[0].Run? || s.loops[l].batch[0].Destroy?
    ensures var c := s.loops[l].batch[0].c; c in s.objects && s.objects[c].open && !s.objects[c].conn.state.Connecting?
  {
    HeadIsPlaced(s, l);
    var f := s.loops[l].batch[0];
    var sl := SliceOf(s, f.c);
    HeadTellsStage(f.c, sl);
    assert f in sl.pend;
    hide Inv;
  }

  /** Every step that is possible in any reachable state is safe. */
  lemma EveryStepIsSafe(s: Server, e: Event)
    requires Reachable(s) && Enabled(s, e)
    ensures Safe(s, e)
  {
    ReachableIsInv(s);
    hide Reachable, Inv, Registered;
    if e.RunNext? {
      HeadIsSafe(s, e);
    } else if e.ReadReady? || e.WriteReady? || e.CloseReady? || e.FinishWriteEvent? {
      CurrentIsGood(s, e.l);
      GoodIsRegistered(s, s.loops[e.l].current.value);
    } else if e.UserSend? || e.UserSendBuffer? || e.UserShutdown? {
      if s.objects[e.c].conn.state == Connected {
        ConnIsGood(s, e.c);
        GoodIsRegistered(s, e.c);
      }
    }
  }

  // ---- the marks ----

  /** epoll_ctl fails exactly on adding a present descriptor and on changing or removing an absent
      one; otherwise it sets or removes that entry and no other. */
  lemma EpollCtlExactly(kernel: map<Fd, Registration<Id>>, op: CtlOp, fd: Fd, reg: Registration<Id>)
    ensures var r := EpollCtl(kernel, op, fd, reg);
      && (r.None? <==> (op.Add? && fd in kernel) || (!op.Add? && fd !in kernel))
      && (r.Some? ==>
            && (fd in r.value <==> !op.Del?) && (!op.Del? ==> r.value[fd] == reg)
            && forall d | d != fd :: (d in r.value <==> d in kernel) && (d in kernel ==> r.value[d] == kernel[d]))
  {
  }

  /** Channel::update adds a new channel's descriptor and changes a registered one's; Channel::remove
      deletes it, and its channels_ entry goes in any case. A failing epoll_ctl changes nothing else. */
  lemma CtlOutcomesExactly(t: Tables<Id>, c: Id, fd: Fd, i: Interest, index: int)
    ensures var r := AfterUpdate(t, c, fd, i, index);
      && (r.ok <==> (index < 0 <==> fd !in t.kernel))
      && (r.ok ==> r.index == 0 && r.tables == Tables(t.channels[fd := c], t.kernel[fd := Registration(c, i)]))
      && (!r.ok ==> r.index == index && r.tables == t)
    ensures var r := AfterRemove(t, c, fd, i, index);
      && (r.ok <==> fd in t.kernel)
      && r.tables.channels == t.channels - {fd} && r.tables.kernel == t.kernel - {fd}
      && (r.index == if r.ok then -1 else index)
  {
  }

  /** In any state, reachable or not, a functor that runs too late or on the wrong thread, an event
      for an unregistered channel, and the close of a descriptor that is not the connection's own
      leave their marks. */
  lemma MarksAreLeft(s: Server, e: Event)
    requires Enabled(s, e)
    ensures e.RunNext? ==>
      var f, faults := s.loops[e.l].batch[0], Step(s, e).faults;
      && (f.Run? && !s.objects[f.c].open ==> StaleTask in faults)
      && ((f.Run? || f.Establish? || f.Destroy?) && s.objects[f.c].loop != e.l ==> WrongThread in faults)
      && (f.Remove? && e.l != 0 ==> WrongThread in faults)
      && (f.Destroy? && !(s.objects[f.c].fd in s.openFds && s.openFds[s.objects[f.c].fd] == f.c) ==>
            DoubleClose in faults)
    ensures e.ReadReady? || e.WriteReady? || e.CloseReady? || e.FinishWriteEvent? ==>
      (s.objects[s.loops[e.l].current.value].index < 0 ==> StaleChannel in Step(s, e).faults)
  {
    if e.RunNext? {
      FunctorMarks(Pop(s, e.l), e.l, s.loops[e.l].batch[0], e.n);
      hide RunFunctor;
    } else if e.ReadReady? || e.WriteReady? || e.CloseReady? || e.FinishWriteEvent? {
      EventMarks(s, e);
      hide Step;
    }
  }

  /** No body takes a mark away. */
  lemma MarksStay(s: Server, l: nat, c: Id, conn: Conn)
    requires Has(s, c)
    ensures s.faults <= PutConn(s, c, conn).faults && s.faults <= HandleClose(s, l, c).faults
    ensures s.faults <= UpdateChannel(s, c).faults && s.faults <= RemoveChannel(s, c).faults
    ensures s.faults <= CloseFd(s, c).faults
  {
  }

  lemma DestroyMarks(s: Server, l: nat, c: Id)
    requires Has(s, c)
    ensures var faults := ConnectDestroyed(s, l, c).faults;
      && (s.objects[c].loop != l ==> WrongThread in faults)
      && (!(s.objects[c].fd in s.openFds && s.openFds[s.objects[c].fd] == c) ==> DoubleClose in faults)
  {
    var s1 := Put(Blame(s, l != s.objects[c].loop, WrongThread), c,
                  s.objects[c].(conn := s.objects[c].conn.(interest := NO_EVENT)));
    MarksStay(s1, l, c, s1.objects[c].conn);
    var s2 := UpdateChannel(s1, c);
    MarksStay(s2, l, c, s2.objects[c].conn);
    var s3 := RemoveChannel(s2, c);
    MarksStay(s3, l, c, s3.objects[c].conn);
    assert s3.openFds == s.openFds && s3.objects[c].fd == s.objects[c].fd;
    hide UpdateChannel, RemoveChannel;
  }

  lemma FunctorMarks(s: Server, l: nat, f: Functor, n: int)
    requires l < |s.loops| && (f.Other? || Has(s, f.c)) && (f.Run? && f.task.SendTask? ==> n <= |f.task.data|)
    ensures var faults := RunFunctor(s, l, f, n).faults;
      && (f.Run? && !s.objects[f.c].open ==> StaleTask in faults)
      && ((f.Run? || f.Establish? || f.Destroy?) && s.objects[f.c].loop != l ==> WrongThread in faults)
      && (f.Remove? && l != 0 ==> WrongThread in faults)
      && (f.Destroy? && !(s.objects[f.c].fd in s.openFds && s.openFds[s.objects[f.c].fd] == f.c) ==>
            DoubleClose in faults)
  {
    match f
    case Destroy(c) => DestroyMarks(s, l, c);
    case Run(c, task) =>
      var s1 := Blame(Blame(s, !s.objects[c].open, StaleTask), l != s.objects[c].loop, WrongThread);
      MarksStay(s1, l, c, RunTask(s1.objects[c].conn, task, n));
      hide PutConn, HandleClose;
    case _ =>
  }

  lemma EventMarks(s: Server, e: Event)
    requires Enabled(s, e) && (e.ReadReady? || e.WriteReady? || e.CloseReady? || e.FinishWriteEvent?)
    ensures s.objects[s.loops[e.l].current.value].index < 0 ==> StaleChannel in Step(s, e).faults
  {
    var d := s.loops[e.l].current.value;
    var u := Blame(s, s.objects[d].index < 0, StaleChannel);
    hide HandleClose, PutConn;
    MarksStay(u, e.l, d, if e.WriteReady? then WriteSome(s.objects[d].conn, e.n).0 else s.objects[d].conn);
    if e.FinishWriteEvent? {
      var v := SetLoop(u, e.l, s.loops[e.l].(inWriteCallback := false));
      MarksStay(v, e.l, d, FinishWrite(s.objects[d].conn));
    }
  }
}
