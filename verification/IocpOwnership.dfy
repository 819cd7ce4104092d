/** Who owns an outstanding zero-byte operation in the IOCP poller
    (muduox/net/poller/IocpPoller.cpp). Contexts are identified by the allocation that made them and
    an OVERLAPPED by its context and direction. */
module IocpOwnership {
  import opened Prelude
  import opened EpollModel

  type Ch = nat                 // a Channel object
  type CtxId = nat              // an IocpContext object

  datatype Dir = Reading | Writing

  datatype Op = Op(ctx: CtxId, dir: Dir)

  datatype Context = Context(channel: Option<Ch>, readPending: bool, writePending: bool)

  /** listening is what SO_ACCEPTCONN says of the socket. */
  datatype Chan = Chan(fd: Fd, listening: bool, interest: Interest, index: int, context: Option<CtxId>)

  datatype Poller = Poller(
    chans: map<Ch, Chan>,
    contexts: map<CtxId, Context>,
    channels: map<Fd, Ch>,
    dead: seq<CtxId>,           // deadContexts_
    pendingPosts: set<Ch>,
    selectChannels: set<Ch>,
    outstanding: multiset<Op>)  // what the kernel has not completed

  const EMPTY := Poller(map[], map[], map[], [], {}, {}, multiset{})

  predicate IsPending(c: Context, dir: Dir) {
    match dir case Reading => c.readPending case Writing => c.writePending
  }

  function SetPending(c: Context, dir: Dir, b: bool): Context {
    match dir case Reading => c.(readPending := b) case Writing => c.(writePending := b)
  }

  /** postRead, postWrite; ok says that WSARecv or WSASend accepts. */
  function Post(p: Poller, k: CtxId, dir: Dir, ok: bool): Poller
    requires k in p.contexts
  {
    if IsPending(p.contexts[k], dir) || !ok then p
    else p.(contexts := p.contexts[k := SetPending(p.contexts[k], dir, true)],
            outstanding := p.outstanding + multiset{Op(k, dir)})
  }

  /** The context made for a channel that is bound to the port. */
  function Bind(p: Poller, ch: Ch, made: CtxId): Poller
    requires ch in p.chans
  {
    p.(contexts := p.contexts[made := Context(Some(ch), false, false)],
       chans := p.chans[ch := p.chans[ch].(context := Some(made))])
  }

  function Enrolled(p: Poller, ch: Ch): Poller
    requires ch in p.chans
  {
    var c := p.chans[ch];
    var q := p.(chans := p.chans[ch := c.(index := 0)], channels := p.channels[c.fd := ch]);
    if c.listening then q.(selectChannels := q.selectChannels + {ch})
    else if c.interest.reading || c.interest.writing then q.(pendingPosts := q.pendingPosts + {ch})
    else q
  }

  /** bound: CreateIoCompletionPort succeeds; made: the context that new returns. */
  function UpdateChannel(p: Poller, ch: Ch, bound: bool, made: CtxId): Poller
    requires ch in p.chans
  {
    if p.chans[ch].index >= 0 then Enrolled(p, ch)
    else if !bound then p
    else Enrolled(Bind(p, ch, made), ch)
  }

  /** The second result says that any_cast throws, on a channel without a context. */
  function RemoveChannel(p: Poller, ch: Ch): (Poller, bool)
    requires ch in p.chans && (p.chans[ch].context.Some? ==> p.chans[ch].context.value in p.contexts)
  {
    var c := p.chans[ch];
    var q := p.(channels := p.channels - {c.fd}, pendingPosts := p.pendingPosts - {ch},
                selectChannels := p.selectChannels - {ch});
    match c.context
    case None => (q, true)
    case Some(k) =>
      (q.(contexts := q.contexts[k := q.contexts[k].(channel := None)], dead := q.dead + [k],
          chans := q.chans[ch := c.(context := None, index := -1)]), false)
  }

  // ---- poll ----

  /** Channels and contexts point at each other. */
  predicate Linked(p: Poller, ch: Ch) {
    && ch in p.chans && p.chans[ch].context.Some? && p.chans[ch].context.value in p.contexts
    && p.contexts[p.chans[ch].context.value].channel == Some(ch)
  }

  /** One pass of the retry loop over a pending channel. */
  function Retry(p: Poller, ch: Ch, readOk: bool, writeOk: bool): Poller
    requires Linked(p, ch)
  {
    var c := p.chans[ch];
    var k := c.context.value;
    var p1 := if c.interest.reading then Post(p, k, Reading, readOk) else p;
    var p2 := if c.interest.writing then Post(p1, k, Writing, writeOk) else p1;
    var readDone := c.interest.reading ==> p2.contexts[k].readPending;
    var done := readDone && (c.interest.writing ==> p2.contexts[k].writePending);
    if done then p2.(pendingPosts := p2.pendingPosts - {ch}) else p2
  }

  /** A completion packet: the operation, its success, and whether a re-posted read is accepted. */
  datatype Completion = Completion(op: Op, ok: bool, repost: bool)

  function Or(a: Revents, b: Revents): Revents {
    Revents(a.read || b.read, a.write || b.write, a.error || b.error, a.close || b.close)
  }

  function EventsOf(c: Chan, m: Completion): Revents {
    if !m.ok then NO_REVENTS.(error := true)
    else match m.op.dir
      case Reading => if c.interest.reading then NO_REVENTS.(read := true) else NO_REVENTS
      case Writing => if c.interest.writing then NO_REVENTS.(write := true) else NO_REVENTS
  }

  function Note(revents: map<Ch, Revents>, ch: Ch, r: Revents): map<Ch, Revents> {
    if r == NO_REVENTS then revents
    else revents[ch := if ch in revents then Or(revents[ch], r) else r]
  }

  function AfterCompletion(p: Poller, revents: map<Ch, Revents>, m: Completion): (Poller, map<Ch, Revents>)
    requires m.op.ctx in p.contexts
    requires p.contexts[m.op.ctx].channel.Some? ==> p.contexts[m.op.ctx].channel.value in p.chans
  {
    var k := m.op.ctx;
    var q := p.(outstanding := p.outstanding - multiset{m.op});
    match p.contexts[k].channel
    case None => (q.(contexts := q.contexts[k := Context(None, false, false)]), revents)
    case Some(ch) =>
      var q1 := q.(contexts := q.contexts[k := SetPending(q.contexts[k], m.op.dir, false)]);
      var again := m.op.dir.Reading? && p.chans[ch].interest.reading && m.ok && !(ch in revents && revents[ch].read);
      (if again then Post(q1, k, Reading, m.repost) else q1, Note(revents, ch, EventsOf(p.chans[ch], m)))
  }

  // ---- the invariant ----

  /** Counts agree with flags for a context in use; a dead one is never posted on again. */
  ghost predicate Counted(p: Poller, k: CtxId)
    requires k in p.contexts
  {
    var c := p.contexts[k];
    if c.channel.Some? then
      p.outstanding[Op(k, Reading)] == (if c.readPending then 1 else 0) &&
      p.outstanding[Op(k, Writing)] == (if c.writePending then 1 else 0)
    else p.outstanding[Op(k, Reading)] <= 1 && p.outstanding[Op(k, Writing)] <= 1
  }

  ghost predicate ContextOk(p: Poller, k: CtxId)
    requires k in p.contexts
  {
    var c := p.contexts[k];
    && Counted(p, k)
    && (c.channel.None? <==> k in p.dead)
    && (c.channel.Some? ==> c.channel.value in p.chans && p.chans[c.channel.value].context == Some(k))
    && (c.channel.Some? && p.chans[c.channel.value].listening ==> !c.readPending && !c.writePending)
  }

  ghost predicate ChanOk(p: Poller, ch: Ch)
    requires ch in p.chans
  {
    (p.chans[ch].index >= 0 <==> p.chans[ch].context.Some?) && (p.chans[ch].context.Some? ==> Linked(p, ch))
  }

  ghost predicate Owned(p: Poller) {
    && (forall k {:trigger ContextOk(p, k)} | k in p.contexts :: ContextOk(p, k))
    && (forall ch {:trigger ChanOk(p, ch)} | ch in p.chans :: ChanOk(p, ch))
    && (forall op <- p.outstanding :: op.ctx in p.contexts)
    && (forall k <- p.dead :: k in p.contexts)
    && (forall i, j | 0 <= i < j < |p.dead| :: p.dead[i] != p.dead[j])
  }

  ghost predicate Listed(p: Poller) {
    && (forall ch <- p.pendingPosts :: ch in p.chans && p.chans[ch].index >= 0 && !p.chans[ch].listening)
    && (forall ch <- p.selectChannels :: ch in p.chans && p.chans[ch].index >= 0 && p.chans[ch].listening)
    && (forall fd <- p.channels :: p.channels[fd] in p.chans && p.chans[p.channels[fd]].fd == fd
          && p.chans[p.channels[fd]].index >= 0)
  }

  ghost predicate Inv(p: Poller) {
    Owned(p) && Listed(p)
  }

  predicate SameEnrolment(c: Chan, d: Chan) {
    c.context == d.context && c.listening == d.listening && (c.index >= 0 <==> d.index >= 0)
  }

  /** Contexts are unaffected by a change that leaves who owns them, and what is outstanding. */
  lemma OwnedStays(p: Poller, q: Poller)
    requires Owned(p) && q.contexts == p.contexts && q.outstanding == p.outstanding && q.dead == p.dead
    requires q.chans.Keys == p.chans.Keys
    requires forall d <- p.chans :: SameEnrolment(p.chans[d], q.chans[d])
    ensures Owned(q)
  {
    forall k <- q.contexts
      ensures ContextOk(q, k)
    {
      assert ContextOk(p, k);
    }
    forall d <- q.chans
      ensures ChanOk(q, d)
    {
      assert ChanOk(p, d);
    }
  }

  lemma PostKeeps(p: Poller, k: CtxId, dir: Dir, ok: bool)
    requires Inv(p) && k in p.contexts && p.contexts[k].channel.Some?
    requires p.contexts[k].channel.value in p.chans && !p.chans[p.contexts[k].channel.value].listening
    ensures var q := Post(p, k, dir, ok);
      && Inv(q) && q.chans == p.chans && q.pendingPosts == p.pendingPosts && q.contexts.Keys == p.contexts.Keys
      && q.contexts[k].channel == p.contexts[k].channel
  {
    var q := Post(p, k, dir, ok);
    forall j <- q.contexts
      ensures ContextOk(q, j)
    {
      assert ContextOk(p, j);
    }
    forall ch <- q.chans
      ensures ChanOk(q, ch)
    {
      assert ChanOk(p, ch);
    }
  }

  lemma UnenrollKeeps(p: Poller, ch: Ch)
    requires Inv(p)
    ensures Inv(p.(pendingPosts := p.pendingPosts - {ch}))
  {
    OwnedStays(p, p.(pendingPosts := p.pendingPosts - {ch}));
  }

  lemma RetryKeeps(p: Poller, ch: Ch, readOk: bool, writeOk: bool)
    requires Inv(p) && ch in p.pendingPosts
    ensures Linked(p, ch)
    ensures var q := Retry(p, ch, readOk, writeOk);
      Inv(q) && q.chans == p.chans && q.contexts.Keys == p.contexts.Keys &&
      (q.pendingPosts == p.pendingPosts || q.pendingPosts == p.pendingPosts - {ch})
  {
    assert ChanOk(p, ch);
    var c := p.chans[ch];
    var k := c.context.value;
    PostKeeps(p, k, Reading, readOk);
    var p1 := if c.interest.reading then Post(p, k, Reading, readOk) else p;
    PostKeeps(p1, k, Writing, writeOk);
    var p2 := if c.interest.writing then Post(p1, k, Writing, writeOk) else p1;
    UnenrollKeeps(p2, ch);
    hide Inv, Post;
  }

  /** What Channel does before it calls update(). */
  function SetInterest(p: Poller, ch: Ch, i: Interest): Poller
    requires ch in p.chans
  {
    p.(chans := p.chans[ch := p.chans[ch].(interest := i)])
  }

  lemma InterestKeeps(p: Poller, ch: Ch, i: Interest)
    requires Inv(p) && ch in p.chans
    ensures Inv(SetInterest(p, ch, i))
  {
    OwnedStays(p, SetInterest(p, ch, i));
  }

  /** The channel is in channels_ under its descriptor; a listening one is where select looks, and any
      other is enrolled for posting if it wants something. No other channel is affected. */
  ghost predicate EnrolledRight(p: Poller, q: Poller, ch: Ch)
    requires ch in p.chans
  {
    && ch in q.chans && q.chans[ch].index == 0 && q.chans[ch].fd == p.chans[ch].fd
    && q.chans[ch].interest == p.chans[ch].interest && q.chans[ch].listening == p.chans[ch].listening
    && q.chans.Keys == p.chans.Keys && (forall d <- p.chans :: d != ch ==> q.chans[d] == p.chans[d])
    && q.channels == p.channels[p.chans[ch].fd := ch]
    && (q.selectChannels == if p.chans[ch].listening then p.selectChannels + {ch} else p.selectChannels)
    && (q.pendingPosts ==
          if !p.chans[ch].listening && p.chans[ch].interest != NO_EVENT then p.pendingPosts + {ch} else p.pendingPosts)
  }

  lemma EnrolKeeps(p: Poller, ch: Ch)
    requires Inv(p) && ch in p.chans && p.chans[ch].index >= 0
    ensures var q := Enrolled(p, ch);
      && Inv(q) && q.contexts == p.contexts && q.dead == p.dead && q.outstanding == p.outstanding
      && Covered(q, ch) && EnrolledRight(p, q, ch)
  {
    var q := Enrolled(p, ch);
    OwnedStays(p, q);
    assert ChanOk(q, ch);
    hide Owned, ContextOk;
  }

  /** A channel with the context that its first update makes. */
  function Bound(p: Poller, ch: Ch, made: CtxId): Poller
    requires ch in p.chans
  {
    var q := Bind(p, ch, made);
    q.(chans := q.chans[ch := q.chans[ch].(index := 0)])
  }

  lemma BindKeeps(p: Poller, ch: Ch, made: CtxId)
    requires Inv(p) && ch in p.chans && made !in p.contexts && p.chans[ch].index < 0
    ensures Inv(Bound(p, ch, made))
  {
    var q := Bound(p, ch, made);
    assert ChanOk(p, ch);
    assert Op(made, Reading) !in p.outstanding && Op(made, Writing) !in p.outstanding;
    forall k <- q.contexts
      ensures ContextOk(q, k)
    {
      if k != made {
        assert ContextOk(p, k);
      }
    }
    forall d <- q.chans
      ensures ChanOk(q, d)
    {
      assert ChanOk(p, d);
    }
  }

  /** A bound channel is enrolled where poll looks for it, under a context that is its own. */
  lemma UpdateKeeps(p: Poller, ch: Ch, bound: bool, made: CtxId)
    requires Inv(p) && ch in p.chans && made !in p.contexts
    ensures var q := UpdateChannel(p, ch, bound, made);
      && Inv(q) && p.contexts.Keys <= q.contexts.Keys && q.dead == p.dead && q.outstanding == p.outstanding
      && (p.chans[ch].index >= 0 || bound ==> Covered(q, ch) && EnrolledRight(p, q, ch))
      && (p.chans[ch].index < 0 && !bound ==> q == p)
      && (p.chans[ch].index < 0 && bound ==> q.chans[ch].context == Some(made))
      && (p.chans[ch].index >= 0 ==> q.contexts == p.contexts)
  {
    if p.chans[ch].index >= 0 {
      EnrolKeeps(p, ch);
    } else if bound {
      BindKeeps(p, ch, made);
      EnrolKeeps(Bound(p, ch, made), ch);
      assert Enrolled(Bind(p, ch, made), ch) == Enrolled(Bound(p, ch, made), ch) by {
        hide Inv, ContextOk, ChanOk, Covered;
      }
    }
  }

  /** removeChannel throws exactly on a channel that is not registered. */
  lemma RemoveKeeps(p: Poller, ch: Ch)
    requires Inv(p) && ch in p.chans
    ensures p.chans[ch].context.Some? ==> p.chans[ch].context.value in p.contexts
    ensures var (q, throws) := RemoveChannel(p, ch);
      && Inv(q) && q.contexts.Keys == p.contexts.Keys && q.outstanding == p.outstanding && p.dead <= q.dead
      && (throws <==> p.chans[ch].index < 0)
      && q.chans[ch].context == None && q.chans[ch].index < 0 && ch !in q.channels.Values
      // ... and nothing else is touched.
      && q.pendingPosts == p.pendingPosts - {ch} && q.selectChannels == p.selectChannels - {ch}
      && q.channels == p.channels - {p.chans[ch].fd}
      && q.chans.Keys == p.chans.Keys && (forall d <- p.chans :: d != ch ==> q.chans[d] == p.chans[d])
      && (forall k <- p.contexts :: Some(k) != p.chans[ch].context ==> q.contexts[k] == p.contexts[k])
  {
    assert ChanOk(p, ch);
    assert p.chans[ch].context.Some? ==> ContextOk(p, p.chans[ch].context.value);
    var (q, throws) := RemoveChannel(p, ch);
    forall k <- q.contexts
      ensures ContextOk(q, k)
    {
      assert ContextOk(p, k);
    }
    forall d <- q.chans
      ensures ChanOk(q, d)
    {
      assert ChanOk(p, d);
    }
  }

  /** What poll never changes. */
  ghost predicate SameOwners(p: Poller, q: Poller) {
    && q.chans == p.chans && q.channels == p.channels && q.selectChannels == p.selectChannels && q.dead == p.dead
    && q.contexts.Keys == p.contexts.Keys
    && forall k <- p.contexts :: q.contexts[k].channel == p.contexts[k].channel
  }

  /** The packet is taken off the port before anything is posted again. */
  function Taken(p: Poller, op: Op): Poller
    requires op.ctx in p.contexts
  {
    var c := p.contexts[op.ctx];
    var cleared := if c.channel.None? then Context(None, false, false) else SetPending(c, op.dir, false);
    p.(outstanding := p.outstanding - multiset{op}, contexts := p.contexts[op.ctx := cleared])
  }

  lemma TakenKeeps(p: Poller, op: Op)
    requires Inv(p) && op in p.outstanding
    ensures op.ctx in p.contexts && Inv(Taken(p, op)) && SameOwners(p, Taken(p, op))
  {
    var q := Taken(p, op);
    assert ContextOk(p, op.ctx);
    forall k <- q.contexts
      ensures ContextOk(q, k)
    {
      assert ContextOk(p, k);
    }
    forall d <- q.chans
      ensures ChanOk(q, d)
    {
      assert ChanOk(p, d);
    }
  }

  /** A packet for a live context is for a registered channel that does not listen. */
  lemma PacketOwner(p: Poller, op: Op)
    requires Inv(p) && op in p.outstanding
    ensures op.ctx in p.contexts
    ensures var owner := p.contexts[op.ctx].channel; owner.Some? ==> Watched(p, owner.value)
  {
    assert ContextOk(p, op.ctx);
    match op.dir {
      case Reading => assert op == Op(op.ctx, Reading);
      case Writing => assert op == Op(op.ctx, Writing);
    }
    var owner := p.contexts[op.ctx].channel;
    if owner.Some? {
      assert ChanOk(p, owner.value);
    }
  }

  ghost predicate Watched(p: Poller, ch: Ch) {
    Linked(p, ch) && p.chans[ch].index >= 0 && !p.chans[ch].listening
  }

  lemma CompletionKeeps(p: Poller, revents: map<Ch, Revents>, m: Completion)
    requires Inv(p) && m.op in p.outstanding
    ensures m.op.ctx in p.contexts
    ensures p.contexts[m.op.ctx].channel.Some? ==> p.contexts[m.op.ctx].channel.value in p.chans
    ensures var (q, r) := AfterCompletion(p, revents, m); Inv(q) && SameOwners(p, q)
  {
    TakenKeeps(p, m.op);
    PacketOwner(p, m.op);
    if p.contexts[m.op.ctx].channel.Some? {
      PostKeeps(Taken(p, m.op), m.op.ctx, Reading, m.repost);
      hide Inv;
    }
  }

  // ---- readiness ----

  predicate Wants(c: Chan, dir: Dir) {
    match dir case Reading => c.interest.reading case Writing => c.interest.writing
  }

  /** A completion for this direction will come, or poll will try to post again. */
  ghost predicate CoveredIn(p: Poller, ch: Ch, dir: Dir) {
    Linked(p, ch) && (Wants(p.chans[ch], dir) ==>
      IsPending(p.contexts[p.chans[ch].context.value], dir) || ch in p.pendingPosts)
  }

  ghost predicate Covered(p: Poller, ch: Ch) {
    Linked(p, ch) && (p.chans[ch].listening || (CoveredIn(p, ch, Reading) && CoveredIn(p, ch, Writing)))
  }

  /** A direction that a completion was reported for is watched again only in this case: no write is
      posted again, and no read after an error, a refused post or a read already listed. */
  lemma RearmedExactly(p: Poller, revents: map<Ch, Revents>, m: Completion, ch: Ch)
    requires Inv(p) && m.op in p.outstanding && m.op.ctx in p.contexts
    requires p.contexts[m.op.ctx].channel == Some(ch) && ch in p.chans && Wants(p.chans[ch], m.op.dir)
    ensures CoveredIn(AfterCompletion(p, revents, m).0, ch, m.op.dir) <==>
      ch in p.pendingPosts || (m.op.dir.Reading? && m.ok && m.repost && !(ch in revents && revents[ch].read))
  {
    CompletionKeeps(p, revents, m);
    assert ContextOk(p, m.op.ctx);
  }
}
