/** What is lost because IocpPoller.cpp does not post every operation again after its completion. */
module IocpReadiness {
  import opened Prelude
  import opened EpollModel
  import opened IocpOwnership
  import opened IocpRuns

  /** No operation of the channel is outstanding in this direction and poll will not try to post one. */
  ghost predicate Unwatched(p: Poller, ch: Ch, dir: Dir) {
    && ch in p.chans && ch !in p.pendingPosts
    && (p.chans[ch].context.Some? && p.chans[ch].context.value in p.contexts ==>
          !IsPending(p.contexts[p.chans[ch].context.value], dir))
  }

  /** The event that readiness in a direction is reported by. */
  function FlagOf(dir: Dir): Flag {
    match dir case Reading => Read case Writing => Write
  }

  lemma RetryStays(p: Poller, r: Retrial, ch: Ch, dir: Dir)
    requires Inv(p) && r.ch in p.pendingPosts && Linked(p, r.ch) && Unwatched(p, ch, dir)
    ensures Unwatched(Retry(p, r.ch, r.readOk, r.writeOk), ch, dir)
  {
    assert ChanOk(p, ch);
    hide Inv;
  }

  lemma {:induction false} RetryAllStays(p: Poller, rs: seq<Retrial>, ch: Ch, dir: Dir)
    requires Inv(p) && Visits(p, rs) && Unwatched(p, ch, dir)
    ensures Unwatched(RetryAll(p, rs), ch, dir)
    decreases |rs|
  {
    if rs != [] {
      var r := rs[0];
      RetryKeeps(p, r.ch, r.readOk, r.writeOk);
      RetryStays(p, r, ch, dir);
      RetryAllStays(Retry(p, r.ch, r.readOk, r.writeOk), rs[1..], ch, dir);
      hide Inv, Retry, Unwatched;
    }
  }

  lemma OutstandingIsPending(p: Poller, op: Op)
    requires Inv(p) && op in p.outstanding
    ensures op.ctx in p.contexts && (p.contexts[op.ctx].channel.Some? ==> IsPending(p.contexts[op.ctx], op.dir))
  {
    assert ContextOk(p, op.ctx);
    match op.dir {
      case Reading => assert op == Op(op.ctx, Reading);
      case Writing => assert op == Op(op.ctx, Writing);
    }
  }

  /** A packet makes no such event for the channel, and posts nothing in this direction. */
  lemma CompletionStays(p: Poller, revents: map<Ch, Revents>, m: Completion, ch: Ch, dir: Dir)
    requires Inv(p) && m.op in p.outstanding && Unwatched(p, ch, dir)
    ensures m.op.ctx in p.contexts
    ensures p.contexts[m.op.ctx].channel.Some? ==> p.contexts[m.op.ctx].channel.value in p.chans
    ensures Unwatched(AfterCompletion(p, revents, m).0, ch, dir) && !Causes(p, m, ch, FlagOf(dir))
  {
    CompletionKeeps(p, revents, m);
    PacketOwner(p, m.op);
    OutstandingIsPending(p, m.op);
    assert ContextOk(p, m.op.ctx);
    hide Inv;
  }

  lemma {:induction false} DrainStays(p: Poller, revents: map<Ch, Revents>, ms: seq<Completion>, ch: Ch, dir: Dir)
    requires Inv(p) && Delivers(p, revents, ms) && Unwatched(p, ch, dir)
    ensures Unwatched(Drain(p, revents, ms).0, ch, dir) && !Caused(p, ms, ch, FlagOf(dir))
    decreases |ms|
  {
    if ms != [] {
      CompletionKeeps(p, revents, ms[0]);
      CompletionStays(p, revents, ms[0], ch, dir);
      var (q, r) := AfterCompletion(p, revents, ms[0]);
      DrainStays(q, r, ms[1..], ch, dir);
      CausedTail(p, q, ms, ch, FlagOf(dir));
      hide Inv, AfterCompletion, Unwatched, Causes, Caused;
    }
  }

  lemma StepStays(p: Poller, e: Event, ch: Ch, dir: Dir)
    requires Inv(p) && Enabled(p, e) && Unwatched(p, ch, dir) && !(e.Update? && e.ch == ch)
    ensures Unwatched(Step(p, e), ch, dir)
  {
    match e
    case Poll(rs, ms) =>
      RetryAllStays(p, rs, ch, dir);
      DrainStays(RetryAll(p, rs), map[], ms, ch, dir);
      hide Unwatched, Inv;
    case Update(d, i, bound, made) =>
      assert ChanOk(p, ch) && ChanOk(p, d);
    case Remove(d) =>
      RemoveKeeps(p, d);
      assert ChanOk(p, ch);
    case NewChannel(d, fd, listening) =>
  }

  /** Once a channel is unwatched in a direction, no poll of any run lists an event of that direction
      for it until its next updateChannel, whatever its interest and the kernel's answers. */
  lemma {:induction false} NoEventUntilUpdate(
      p: Poller, es: seq<Event>, ch: Ch, dir: Dir, rs: seq<Retrial>, ms: seq<Completion>)
    requires Inv(p) && IsRun(p, es) && Unwatched(p, ch, dir) && forall e <- es :: !(e.Update? && e.ch == ch)
    requires Enabled(After(p, es), Poll(rs, ms))
    ensures !Caused(RetryAll(After(p, es), rs), ms, ch, FlagOf(dir)) && Unwatched(After(p, es), ch, dir)
    decreases |es|
  {
    if es == [] {
      RetryAllStays(p, rs, ch, dir);
      DrainStays(RetryAll(p, rs), map[], ms, ch, dir);
    } else {
      assert es[0] in es;
      StepKeeps(p, es[0]);
      StepStays(p, es[0], ch, dir);
      NoEventUntilUpdate(Step(p, es[0]), es[1..], ch, dir, rs, ms);
      hide Inv, Step, Unwatched, Caused;
    }
  }

  // ---- what a whole poll leaves watched ----

  /** The packets a poll takes for one operation. */
  function PacketsFor(ms: seq<Completion>, op: Op): seq<Completion> {
    if ms == [] then [] else (if ms[0].op == op then [ms[0]] else []) + PacketsFor(ms[1..], op)
  }

  /** What one packet does to the channel's flag ... */
  lemma PacketClears(p: Poller, revents: map<Ch, Revents>, m: Completion, ch: Ch, dir: Dir)
    requires Inv(p) && m.op in p.outstanding && Linked(p, ch)
    requires m.op.ctx in p.contexts
    requires p.contexts[m.op.ctx].channel.Some? ==> p.contexts[m.op.ctx].channel.value in p.chans
    ensures var q := AfterCompletion(p, revents, m).0;
      var k := p.chans[ch].context.value;
      && Linked(q, ch) && q.chans == p.chans
      && (m.op != Op(k, dir) ==> IsPending(q.contexts[k], dir) == IsPending(p.contexts[k], dir))
      && (m.op == Op(k, dir) ==> (IsPending(q.contexts[k], dir) <==>
            dir.Reading? && Wants(p.chans[ch], Reading) && m.ok && m.repost && !Lists(revents, ch, Read)))
  {
    hide Inv, EventsOf, Note, Linked;
    CompletionKeeps(p, revents, m);
    assert Linked(p, ch) && Linked(AfterCompletion(p, revents, m).0, ch) by {
      LinkedStays(p, AfterCompletion(p, revents, m).0, ch);
    }
    ContextOfLinked(p, ch);
  }

  lemma LinkedStays(p: Poller, q: Poller, ch: Ch)
    requires SameOwners(p, q) && Linked(p, ch)
    ensures Linked(q, ch)
  {
  }

  lemma ContextOfLinked(p: Poller, ch: Ch)
    requires Linked(p, ch)
    ensures ch in p.chans && p.chans[ch].context.Some? && p.chans[ch].context.value in p.contexts
    ensures p.contexts[p.chans[ch].context.value].channel == Some(ch)
  {
  }

  /** ... and to its read event. */
  lemma PacketLists(p: Poller, revents: map<Ch, Revents>, m: Completion, ch: Ch)
    requires Inv(p) && m.op in p.outstanding && Linked(p, ch)
    requires m.op.ctx in p.contexts
    requires p.contexts[m.op.ctx].channel.Some? ==> p.contexts[m.op.ctx].channel.value in p.chans
    ensures var r := AfterCompletion(p, revents, m).1;
      var completes := m.op == Op(p.chans[ch].context.value, Reading) && m.ok && Wants(p.chans[ch], Reading);
      Lists(r, ch, Read) <==> Lists(revents, ch, Read) || completes
  {
    assert ContextOk(p, m.op.ctx);
    hide Inv, Post, SetPending;
  }

  lemma PacketEffect(p: Poller, revents: map<Ch, Revents>, m: Completion, ch: Ch, dir: Dir)
    requires Inv(p) && m.op in p.outstanding && Linked(p, ch)
    ensures m.op.ctx in p.contexts
    ensures p.contexts[m.op.ctx].channel.Some? ==> p.contexts[m.op.ctx].channel.value in p.chans
    ensures var (q, r) := AfterCompletion(p, revents, m);
      var k := p.chans[ch].context.value;
      && Linked(q, ch) && q.chans == p.chans
      && (m.op != Op(k, dir) ==> IsPending(q.contexts[k], dir) == IsPending(p.contexts[k], dir))
      && (m.op == Op(k, dir) ==> (IsPending(q.contexts[k], dir) <==>
            dir.Reading? && Wants(p.chans[ch], Reading) && m.ok && m.repost && !Lists(revents, ch, Read)))
      && (dir.Reading? ==> (Lists(r, ch, Read) <==>
            Lists(revents, ch, Read) || (m.op == Op(k, dir) && m.ok && Wants(p.chans[ch], Reading))))
  {
    CompletionKeeps(p, revents, m);
    hide Inv, AfterCompletion, Lists, IsPending;
    PacketClears(p, revents, m, ch, dir);
    if dir.Reading? {
      PacketLists(p, revents, m, ch);
    }
  }

  /** An operation that is not pending has no packet. */
  lemma {:induction false} NoPacketUnlessPending(
      p: Poller, revents: map<Ch, Revents>, ms: seq<Completion>, ch: Ch, dir: Dir)
    requires Inv(p) && Delivers(p, revents, ms) && Linked(p, ch)
    requires !IsPending(p.contexts[p.chans[ch].context.value], dir)
    ensures PacketsFor(ms, Op(p.chans[ch].context.value, dir)) == []
    decreases |ms|
  {
    if ms != [] {
      OutstandingIsPending(p, ms[0].op);
      CompletionKeeps(p, revents, ms[0]);
      PacketEffect(p, revents, ms[0], ch, dir);
      var (q, r) := AfterCompletion(p, revents, ms[0]);
      hide Inv, AfterCompletion, IsPending;
      NoPacketUnlessPending(q, r, ms[1..], ch, dir);
    }
  }

  lemma {:induction false} DrainLeavesPending(
      p: Poller, revents: map<Ch, Revents>, ms: seq<Completion>, ch: Ch, dir: Dir)
    requires Inv(p) && Delivers(p, revents, ms) && Linked(p, ch)
    ensures var q := Drain(p, revents, ms).0;
      var k := p.chans[ch].context.value;
      var packets := PacketsFor(ms, Op(k, dir));
      && Linked(q, ch) && q.chans == p.chans && q.pendingPosts == p.pendingPosts
      && (IsPending(q.contexts[k], dir) <==>
            || (packets == [] && IsPending(p.contexts[k], dir))
            || (dir.Reading? && Wants(p.chans[ch], Reading) && |packets| == 1 && packets[0].ok && packets[0].repost
                && !Lists(revents, ch, Read)))
    decreases |ms|
  {
    if ms != [] {
      var m := ms[0];
      CompletionKeeps(p, revents, m);
      PacketEffect(p, revents, m, ch, dir);
      PendingStays(p, revents, m);
      var (q, r) := AfterCompletion(p, revents, m);
      if !IsPending(q.contexts[p.chans[ch].context.value], dir) {
        NoPacketUnlessPending(q, r, ms[1..], ch, dir);
      }
      hide Inv, AfterCompletion, IsPending, Lists;
      DrainLeavesPending(q, r, ms[1..], ch, dir);
    }
  }

  lemma PendingStays(p: Poller, revents: map<Ch, Revents>, m: Completion)
    requires m.op.ctx in p.contexts
    requires p.contexts[m.op.ctx].channel.Some? ==> p.contexts[m.op.ctx].channel.value in p.chans
    ensures AfterCompletion(p, revents, m).0.pendingPosts == p.pendingPosts
  {
  }

  /** After a poll, a registered channel is watched in a direction exactly if the retry loop has kept
      it enrolled, or its operation is posted and no packet for it came, or the direction is reading
      and wanted, exactly one packet for it came, that read succeeded and the new one was accepted. */
  lemma PollWatchesExactly(p: Poller, rs: seq<Retrial>, ms: seq<Completion>, ch: Ch, dir: Dir)
    requires Inv(p) && Enabled(p, Poll(rs, ms)) && Linked(p, ch)
    ensures var p1, q, k := RetryAll(p, rs), Step(p, Poll(rs, ms)), p.chans[ch].context.value;
      var packets := PacketsFor(ms, Op(k, dir));
      && k in p1.contexts
      && (!Unwatched(q, ch, dir) <==>
            || ch in p1.pendingPosts
            || (packets == [] && IsPending(p1.contexts[k], dir))
            || (dir.Reading? && Wants(p.chans[ch], Reading) && |packets| == 1 && packets[0].ok && packets[0].repost))
      && (Wants(p.chans[ch], dir) ==> (CoveredIn(q, ch, dir) <==> !Unwatched(q, ch, dir)))
      && Linked(q, ch) && q.chans == p.chans
  {
    RetryAllOwners(p, rs);
    DrainLeavesPending(RetryAll(p, rs), map[], ms, ch, dir);
    hide Inv, PacketsFor;
  }

  lemma {:induction false} PacketIsFound(ms: seq<Completion>, i: nat)
    requires i < |ms|
    ensures PacketsFor(ms, ms[i].op) != []
    decreases |ms|
  {
    if i > 0 {
      assert ms[1..][i - 1] == ms[i];
      PacketIsFound(ms[1..], i - 1);
    }
  }

  /** In particular a write completion always leaves a channel that is not enrolled unwatched. */
  lemma WriteCompletionUnwatches(p: Poller, rs: seq<Retrial>, ms: seq<Completion>, i: nat, ch: Ch)
    requires Inv(p) && Enabled(p, Poll(rs, ms)) && ch !in RetryAll(p, rs).pendingPosts
    requires i < |ms| && ms[i].op.dir.Writing? && ms[i].op.ctx in p.contexts
    requires p.contexts[ms[i].op.ctx].channel == Some(ch)
    ensures Unwatched(Step(p, Poll(rs, ms)), ch, Writing)
  {
    assert ContextOk(p, ms[i].op.ctx) && ChanOk(p, ch);
    assert ms[i].op == Op(p.chans[ch].context.value, Writing);
    hide Inv, PacketsFor, Unwatched, Enabled, Step;
    PollWatchesExactly(p, rs, ms, ch, Writing);
    PacketIsFound(ms, i);
  }

  // ---- both directions can starve ----

  const RETRIALS := [Retrial(0, true, true)]
  const START := NewChannel(0, 3, false)

  function Want(dir: Dir): Event {
    Update(0, Interest(dir.Reading?, dir.Writing?), true, 0)
  }

  /** Two reads that complete at once, or a write that does. */
  function PacketsIn(dir: Dir): seq<Completion> {
    var m := Completion(Op(0, dir), true, true);
    if dir.Reading? then [m, m] else [m]
  }

  function RegisteredIn(dir: Dir): Poller {
    Poller(map[0 := Chan(3, false, Interest(dir.Reading?, dir.Writing?), 0, Some(0))],
           map[0 := Context(Some(0), false, false)], map[3 := 0], [], {0}, {}, multiset{})
  }

  function PostedIn(dir: Dir): Poller {
    RegisteredIn(dir).(contexts := map[0 := Context(Some(0), dir.Reading?, dir.Writing?)], pendingPosts := {},
                       outstanding := multiset{Op(0, dir)})
  }

  lemma Registering(dir: Dir)
    ensures Inv(EMPTY) && Enabled(EMPTY, START)
    ensures var p := Step(EMPTY, START);
      Inv(p) && Enabled(p, Want(dir)) && Step(p, Want(dir)) == RegisteredIn(dir) && Inv(RegisteredIn(dir))
  {
    StepKeeps(EMPTY, START);
    var p := Step(EMPTY, START);
    assert p == EMPTY.(chans := map[0 := Chan(3, false, NO_EVENT, -1, None)]);
    StepKeeps(p, Want(dir));
  }

  lemma Retrying(dir: Dir)
    requires Inv(RegisteredIn(dir))
    ensures Visits(RegisteredIn(dir), RETRIALS) && RetryAll(RegisteredIn(dir), RETRIALS) == PostedIn(dir)
    ensures Inv(PostedIn(dir))
  {
    var p := RegisteredIn(dir);
    RetryKeeps(p, 0, true, true);
    assert Retry(p, 0, true, true) == PostedIn(dir);
    assert RETRIALS[1..] == [];
    hide Inv, Retry;
  }

  lemma DeliversOne(p: Poller, revents: map<Ch, Revents>, m: Completion)
    requires Inv(p) && m.op in p.outstanding
    ensures Delivers(p, revents, [m])
  {
    CompletionKeeps(p, revents, m);
    assert [m][1..] == [];
  }

  lemma Completing(dir: Dir)
    requires Inv(PostedIn(dir))
    ensures Delivers(PostedIn(dir), map[], PacketsIn(dir))
  {
    var p, m := PostedIn(dir), Completion(Op(0, dir), true, true);
    CompletionKeeps(p, map[], m);
    if dir.Reading? {
      var (q, r) := AfterCompletion(p, map[], m);
      assert q == p;
      hide Inv, AfterCompletion, PostedIn;
      DeliversOne(q, r, m);
      assert PacketsIn(dir)[1..] == [m];
    } else {
      DeliversOne(p, map[], m);
    }
  }

  /** Runs after which a registered channel wants a direction in which it is unwatched: a write that
      completed, and two reads that completed in one poll. */
  lemma InterestCanStarve(dir: Dir)
    ensures Inv(EMPTY)
    ensures var es := [START, Want(dir), Poll(RETRIALS, PacketsIn(dir))];
      IsRun(EMPTY, es) && var p := After(EMPTY, es);
        Unwatched(p, 0, dir) && Linked(p, 0) && Wants(p.chans[0], dir) && p.chans[0].index == 0
  {
    hide Inv, RetryAll, Drain, Delivers, Unwatched, Linked, Wants, PacketsIn, Step, Enabled, RegisteredIn;
    Registering(dir);
    Ends(dir);
    var p, last := RegisteredIn(dir), Poll(RETRIALS, PacketsIn(dir));
    ThreeSteps(START, Want(dir), last);
  }

  lemma ThreeSteps(a: Event, b: Event, c: Event)
    requires Inv(EMPTY) && Enabled(EMPTY, a) && Inv(Step(EMPTY, a)) && Enabled(Step(EMPTY, a), b)
    requires Inv(Step(Step(EMPTY, a), b)) && Enabled(Step(Step(EMPTY, a), b), c)
    ensures IsRun(EMPTY, [a, b, c]) && After(EMPTY, [a, b, c]) == Step(Step(Step(EMPTY, a), b), c)
  {
    hide Inv, Step, Enabled;
    var es, p := [a, b, c], Step(EMPTY, a);
    assert es[1..] == [b, c] && es[1..][1..] == [c];
    Unfolds(Step(p, b), c);
    assert IsRun(p, es[1..]) && After(p, es[1..]) == After(Step(p, b), [c]);
  }

  lemma Ends(dir: Dir)
    requires Inv(RegisteredIn(dir))
    ensures var p, e := RegisteredIn(dir), Poll(RETRIALS, PacketsIn(dir));
      Enabled(p, e) && var q := Step(p, e);
        Unwatched(q, 0, dir) && Linked(q, 0) && Wants(q.chans[0], dir) && q.chans[0].index == 0
  {
    Retrying(dir);
    Completing(dir);
    var p, ms := RegisteredIn(dir), PacketsIn(dir);
    assert Visited(RETRIALS, 0) by {
      assert RETRIALS[0].ch == 0;
    }
    hide Inv, PacketsFor, Unwatched, Drain, RetryAll, Delivers, PacketsIn;
    assert Enabled(p, Poll(RETRIALS, ms)) && Linked(p, 0);
    PollWatchesExactly(p, RETRIALS, ms, 0, dir);
    PacketsCount(dir);
  }

  lemma PacketsCount(dir: Dir)
    ensures |PacketsFor(PacketsIn(dir), Op(0, dir))| == (if dir.Reading? then 2 else 1)
  {
    var m := Completion(Op(0, dir), true, true);
    assert [m][1..] == [] && PacketsFor([m], Op(0, dir)) == [m];
    assert [m, m][1..] == [m];
  }

  lemma Unfolds(p: Poller, e: Event)
    requires Inv(p) && Enabled(p, e)
    ensures Inv(Step(p, e)) && IsRun(p, [e]) && After(p, [e]) == Step(p, e)
  {
    StepKeeps(p, e);
    assert [e][1..] == [];
  }
}
