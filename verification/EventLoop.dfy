/** One event loop's functor queue and wakeup socket (muduox/net/core/EventLoop.cpp). */
module EventLoopModel {

  /** A functor as it was queued: its number in queueing order and whether another thread queued it. */
  datatype Entry = Entry(id: nat, cross: bool)

  datatype Phase = Polling | Dispatching | Draining

  datatype Loop = Loop(
    phase: Phase,
    queue: seq<Entry>,          // pendingFunctors_
    batch: seq<Entry>,          // what doPendingFunctors has swapped out and not run yet
    calling: set<nat>,          // cross-thread queueInLoop calls between the push and wakeup's return
    unread: nat,                // bytes in the wakeup socket
    run: seq<Entry>,            // history: functors run
    queued: seq<Entry>)         // history: functors queued

  datatype Event =
    | Push(cross: bool)         // the locked part of queueInLoop
    | Wakeup(id: nat, sent: nat) // wakeup() of that call returns; sent is what SOCKET_SEND took
    | ExtraWakeup(sent: nat)    // quit() from another thread
    | PollReturn
    | HandleWakeup(received: nat)
    | Swap                      // doPendingFunctors takes the queue
    | RunOne
    | BackToPoll

  const WAKEUP_BYTES: nat := 8

  predicate Enabled(l: Loop, e: Event) {
    match e
    // The loop's own thread queues only while it is not polling.
    case Push(cross) => cross || !l.phase.Polling?
    // send takes something unless unread bytes fill the socket.
    case Wakeup(id, sent) => id in l.calling && sent <= WAKEUP_BYTES && (sent > 0 || l.unread > 0)
    case ExtraWakeup(sent) => sent <= WAKEUP_BYTES && (sent > 0 || l.unread > 0)
    case PollReturn => l.phase.Polling?
    case HandleWakeup(received) =>
      l.phase.Dispatching? && received <= WAKEUP_BYTES && received <= l.unread
    case Swap => l.phase.Dispatching?
    case RunOne => l.phase.Draining? && l.batch != []
    case BackToPoll => l.phase.Draining? && l.batch == []
  }

  function Step(l: Loop, e: Event): Loop
    requires Enabled(l, e)
  {
    match e
    case Push(cross) =>
      var entry := Entry(|l.queued|, cross);
      l.(queue := l.queue + [entry], queued := l.queued + [entry],
         calling := if cross then l.calling + {entry.id} else l.calling)
    case Wakeup(id, sent) => l.(calling := l.calling - {id}, unread := l.unread + sent)
    case ExtraWakeup(sent) => l.(unread := l.unread + sent)
    case PollReturn => l.(phase := Dispatching)
    case HandleWakeup(received) => l.(unread := l.unread - received)
    case Swap => l.(phase := Draining, batch := l.queue, queue := [])
    case RunOne => l.(batch := l.batch[1..], run := l.run + [l.batch[0]])
    case BackToPoll => l.(phase := Polling)
  }

  const INIT := Loop(Polling, [], [], {}, 0, [], [])

  predicate IsRun(l: Loop, es: seq<Event>)
    decreases |es|
  {
    es == [] || (Enabled(l, es[0]) && IsRun(Step(l, es[0]), es[1..]))
  }

  function After(l: Loop, es: seq<Event>): Loop
    requires IsRun(l, es)
    decreases |es|
  {
    if es == [] then l else After(Step(l, es[0]), es[1..])
  }

  /** The call that queued the functor has returned, and it came from another thread. */
  predicate Returned(l: Loop, entry: Entry) { entry.cross && entry.id !in l.calling }

  ghost predicate Inv(l: Loop) {
    && l.run + l.batch + l.queue == l.queued
    && (forall i | 0 <= i < |l.queued| :: l.queued[i].id == i)
    && (forall id <- l.calling :: id < |l.queued|)
    && (!l.phase.Draining? ==> l.batch == [])
    // From the swap until the next dispatch the byte of a returned call stays in the socket.
    && (!l.phase.Dispatching? && (exists entry <- l.queue :: Returned(l, entry)) ==> l.unread > 0)
  }

  lemma StepKeeps(l: Loop, e: Event)
    requires Inv(l) && Enabled(l, e)
    ensures Inv(Step(l, e))
  {
  }

  lemma {:induction false} RunKeeps(l: Loop, es: seq<Event>)
    requires Inv(l) && IsRun(l, es)
    ensures Inv(After(l, es))
    decreases |es|
  {
    if es != [] {
      StepKeeps(l, es[0]);
      RunKeeps(Step(l, es[0]), es[1..]);
    }
  }

  /** Functors run once each, in the order they were queued, across every swap: the run ones, the
      rest of the current batch and the queue are the whole history. */
  lemma RunInOrder(es: seq<Event>)
    requires IsRun(INIT, es)
    ensures var l := After(INIT, es);
      && l.run + l.batch + l.queue == l.queued
      && forall i | 0 <= i < |l.run| :: l.run[i].id == i
  {
    RunKeeps(INIT, es);
    var l := After(INIT, es);
    assert forall i | 0 <= i < |l.run| :: l.run[i] == l.queued[i];
  }

  /** When the loop polls while a functor of a returned cross-thread call is still queued, the
      wakeup socket is readable, so the poll does not wait. */
  lemma NoLostWakeup(es: seq<Event>)
    requires IsRun(INIT, es)
    ensures var l := After(INIT, es);
      l.phase.Polling? && (exists entry <- l.queue :: Returned(l, entry)) ==> l.unread > 0
  {
    RunKeeps(INIT, es);
  }

  /** What the parts of queueInLoop and handleWakeup do to the queue and the wakeup socket: a call from
      another thread is under way until its byte is sent, and only handleWakeup takes bytes away. */
  lemma WakeupsExactly(l: Loop, e: Event)
    requires Enabled(l, e)
    ensures var m := Step(l, e);
      && (m.unread == l.unread + (if e.Wakeup? || e.ExtraWakeup? then e.sent else 0)
                               - (if e.HandleWakeup? then e.received else 0))
      && (m.calling == if e.Push? && e.cross then l.calling + {|l.queued|}
                       else if e.Wakeup? then l.calling - {e.id}
                       else l.calling)
      && (m.queued == if e.Push? then l.queued + [Entry(|l.queued|, e.cross)] else l.queued)
  {
  }

  // ---- the loop's own functors ----

  /** A run that ends with the loop's next return to poll. */
  predicate UntilPoll(es: seq<Event>) {
    es != [] && es[|es| - 1].BackToPoll? && forall i | 0 <= i < |es| - 1 :: !es[i].BackToPoll?
  }

  lemma UntilPollTail(es: seq<Event>)
    requires UntilPoll(es) && !es[0].BackToPoll?
    ensures UntilPoll(es[1..])
  {
    assert forall i | 0 <= i < |es| - 1 :: es[1..][i] == es[i + 1];
  }

  lemma {:induction false} StaysQueued(l: Loop, es: seq<Event>, x: Entry)
    requires IsRun(l, es) && UntilPoll(es) && l.phase.Draining? && x in l.queue
    ensures x in After(l, es).queue && After(l, es).phase.Polling?
    decreases |es|
  {
    if es[0].BackToPoll? {
      assert es[1..] == [];
    } else {
      UntilPollTail(es);
      StaysQueued(Step(l, es[0]), es[1..], x);
    }
  }

  lemma {:induction false} GetsRun(l: Loop, es: seq<Event>, x: Entry)
    requires IsRun(l, es) && UntilPoll(es)
    requires (l.phase.Dispatching? && x in l.queue) || (l.phase.Draining? && x in l.batch + l.run)
    ensures x in After(l, es).run && After(l, es).phase.Polling?
    decreases |es|
  {
    if es[0].BackToPoll? {
      assert es[1..] == [];
    } else {
      UntilPollTail(es);
      assert l.batch != [] ==> l.batch == [l.batch[0]] + l.batch[1..];
      GetsRun(Step(l, es[0]), es[1..], x);
    }
  }

  lemma QueuedIsNotRun(l: Loop, x: Entry)
    requires Inv(l)
    ensures !(x in l.queue && x in l.run)
  {
    assert forall i | 0 <= i < |l.run| :: l.run[i] == l.queued[i];
    assert forall j | 0 <= j < |l.queue| :: l.queue[j] == l.queued[|l.run| + |l.batch| + j];
  }

  /** A functor that the loop's own thread queues is still queued at the loop's next poll exactly if
      functors were running when it came, and has run by then exactly if channels were being
      dispatched; queueInLoop wakes the loop for neither. This is for every run before and every
      continuation up to that poll. */
  lemma OwnFunctorsWaitExactly(before: seq<Event>, es: seq<Event>)
    requires IsRun(INIT, before) && Enabled(After(INIT, before), Push(false))
    requires IsRun(Step(After(INIT, before), Push(false)), es) && UntilPoll(es)
    ensures var l := After(INIT, before);
      var m, x := After(Step(l, Push(false)), es), Entry(|l.queued|, false);
      && m.phase.Polling?
      && (x in m.queue <==> l.phase.Draining?)
      && (x in m.run <==> l.phase.Dispatching?)
  {
    var l := After(INIT, before);
    var x := Entry(|l.queued|, false);
    var k := Step(l, Push(false));
    RunKeeps(INIT, before);
    StepKeeps(l, Push(false));
    RunKeeps(k, es);
    assert x in k.queue;
    hide Inv, IsRun, After, Step, UntilPoll;
    if l.phase.Draining? {
      StaysQueued(k, es, x);
    } else {
      GetsRun(k, es, x);
    }
    QueuedIsNotRun(After(k, es), x);
  }

  /** Then nothing may wake the poll: here a functor queued by a functor waits. */
  lemma OwnFunctorsMayWait()
    ensures var es := [Push(true), Wakeup(0, 8), PollReturn, HandleWakeup(8), Swap, RunOne, Push(false), BackToPoll];
      IsRun(INIT, es) && After(INIT, es).phase.Polling? && After(INIT, es).unread == 0 &&
      After(INIT, es).queue == [Entry(1, false)]
  {
  }

  // ---- the loop as an object ----

  /** What is queued while each of n functors runs, seen as the steps of the machine. */
  function Arrivals(pushes: seq<bool>): seq<Event> {
    if pushes == [] then [] else Arrivals(pushes[..|pushes| - 1]) + [Push(pushes[|pushes| - 1])]
  }

  /** doPendingFunctors: arrivals[i] is what is queued while functor i runs, by it (false) or by
      another thread (true). */
  function Drains(arrivals: seq<seq<bool>>): seq<Event> {
    if arrivals == [] then [Swap]
    else Drains(arrivals[..|arrivals| - 1]) + [RunOne] + Arrivals(arrivals[|arrivals| - 1])
  }

  lemma {:induction false} RunAppends(l: Loop, es: seq<Event>, fs: seq<Event>)
    requires IsRun(l, es)
    ensures IsRun(l, es + fs) <==> IsRun(After(l, es), fs)
    ensures IsRun(l, es + fs) ==> After(l, es + fs) == After(After(l, es), fs)
    decreases |es|
  {
    if es == [] {
      assert es + fs == fs;
    } else {
      assert (es + fs)[1..] == es[1..] + fs;
      RunAppends(Step(l, es[0]), es[1..], fs);
    }
  }

  lemma OneMore(l: Loop, es: seq<Event>, e: Event)
    requires IsRun(l, es) && Enabled(After(l, es), e)
    ensures IsRun(l, es + [e]) && After(l, es + [e]) == Step(After(l, es), e)
  {
    RunAppends(l, es, [e]);
    assert [e][1..] == [];
  }

  /** A functor is its number in queueing order. */
  class EventLoop {
    var phase: Phase
    var pendingFunctors: seq<Entry>
    var functors: seq<Entry>            // doPendingFunctors' local
    ghost var calling: set<nat>
    var unread: nat                     // bytes in the wakeup socket
    ghost var run: seq<Entry>
    ghost var queued: seq<Entry>
    var next: nat

    constructor ()
      ensures View() == INIT && Numbered()
    {
      phase, pendingFunctors, functors, unread, next := Polling, [], [], 0, 0;
      calling, run, queued := {}, [], [];
    }

    ghost predicate Numbered()
      reads this
    {
      next == |queued|
    }

    ghost function View(): Loop
      reads this
    {
      Loop(phase, pendingFunctors, functors, calling, unread, run, queued)
    }

    /** The locked part of queueInLoop. */
    method Enqueue(inLoopThread: bool)
      requires Numbered() && Enabled(View(), Push(!inLoopThread))
      modifies this`pendingFunctors, this`queued, this`next, this`calling
      ensures Numbered() && View() == Step(old(View()), Push(!inLoopThread))
    {
      var entry := Entry(next, !inLoopThread);
      pendingFunctors := pendingFunctors + [entry];
      queued, next := queued + [entry], next + 1;
      if !inLoopThread {
        calling := calling + {entry.id};
      }
    }

    /** queueInLoop without a step of another thread between its two parts: it wakes the loop
        exactly for calls from other threads. sent is what the socket takes. */
    method QueueInLoop(inLoopThread: bool, sent: nat)
      requires Numbered() && (inLoopThread ==> !phase.Polling?)
      requires !inLoopThread ==> sent <= WAKEUP_BYTES && (sent > 0 || unread > 0)
      modifies this
      ensures Numbered() && var l := old(View());
        View() == if inLoopThread then Step(l, Push(false)) else Step(Step(l, Push(true)), Wakeup(|l.queued|, sent))
      // Last in the queue, with a wakeup exactly for other threads; the call has then returned.
      ensures pendingFunctors == old(pendingFunctors) + [Entry(|old(queued)|, !inLoopThread)]
      ensures unread == old(unread) + (if inLoopThread then 0 else sent)
      ensures phase == old(phase) && functors == old(functors)
      ensures calling == if inLoopThread then old(calling) else old(calling) - {|old(queued)|}
    {
      Enqueue(inLoopThread);
      if !inLoopThread {
        unread, calling := unread + sent, calling - {next - 1};
      }
    }

    /** inline says that the functor is run at once. */
    method RunInLoop(inLoopThread: bool, sent: nat) returns (inline: bool)
      requires Numbered() && (!inLoopThread ==> sent <= WAKEUP_BYTES && (sent > 0 || unread > 0))
      modifies this
      ensures Numbered() && inline == inLoopThread && var l := old(View());
        View() == if inLoopThread then l else Step(Step(l, Push(true)), Wakeup(|l.queued|, sent))
    {
      inline := inLoopThread;
      if !inLoopThread {
        QueueInLoop(inLoopThread, sent);
      }
    }

    method HandleWakeup(received: nat)
      requires Enabled(View(), Event.HandleWakeup(received))
      modifies this`unread
      ensures View() == Step(old(View()), Event.HandleWakeup(received))
      ensures unread == old(unread) - received
    {
      unread := unread - received;
    }

    /** What is queued at the swap runs, in order; what arrives meanwhile stays. */
    method DoPendingFunctors(arrivals: seq<seq<bool>>)
      requires Numbered() && phase.Dispatching? && |arrivals| == |pendingFunctors|
      modifies this
      ensures Numbered() && IsRun(old(View()), Drains(arrivals)) && View() == After(old(View()), Drains(arrivals))
      ensures functors == [] && run == old(run) + old(pendingFunctors)
    {
      ghost var l, done := View(), [Swap];
      ghost var batch := pendingFunctors;
      phase, functors, pendingFunctors := Draining, pendingFunctors, [];
      var i := 0;
      assert [Swap][1..] == [];
      while i < |arrivals|
        invariant 0 <= i <= |arrivals| && Numbered() && phase.Draining?
        invariant done == Drains(arrivals[..i]) && IsRun(l, done) && View() == After(l, done)
        invariant functors == batch[i..] && run == l.run + batch[..i]
      {
        assert arrivals[..i + 1][..i] == arrivals[..i];
        RunFirst(arrivals[i], l, done);
        done := done + [RunOne] + Arrivals(arrivals[i]);
        i := i + 1;
      }
      assert arrivals[..i] == arrivals && batch[..i] == batch;
    }

    /** The first functor of the batch runs while others are queued. */
    method RunFirst(pushes: seq<bool>, ghost l: Loop, ghost done: seq<Event>)
      requires Numbered() && phase.Draining? && functors != [] && IsRun(l, done) && View() == After(l, done)
      modifies this
      ensures Numbered() && phase.Draining? && functors == old(functors[1..]) && run == old(run + [functors[0]])
      ensures var es := done + [RunOne] + Arrivals(pushes); IsRun(l, es) && View() == After(l, es)
    {
      OneMore(l, done, RunOne);
      run := run + [functors[0]];
      functors := functors[1..];
      Arrive(pushes, l, done + [RunOne]);
    }

    /** What other calls queue while a functor runs. */
    method Arrive(pushes: seq<bool>, ghost l: Loop, ghost done: seq<Event>)
      requires Numbered() && phase.Draining? && IsRun(l, done) && View() == After(l, done)
      modifies this`pendingFunctors, this`queued, this`next, this`calling
      ensures Numbered()
      ensures IsRun(l, done + Arrivals(pushes)) && View() == After(l, done + Arrivals(pushes))
    {
      var i := 0;
      assert done + Arrivals(pushes[..0]) == done;
      while i < |pushes|
        invariant 0 <= i <= |pushes| && Numbered()
        invariant IsRun(l, done + Arrivals(pushes[..i])) && View() == After(l, done + Arrivals(pushes[..i]))
      {
        assert pushes[..i + 1][..i] == pushes[..i];
        OneMore(l, done + Arrivals(pushes[..i]), Push(pushes[i]));
        assert done + Arrivals(pushes[..i + 1]) == (done + Arrivals(pushes[..i])) + [Push(pushes[i])];
        Enqueue(!pushes[i]);
        i := i + 1;
      }
      assert pushes[..i] == pushes;
    }
  }
}
