/** Whole polls and whole runs of the IOCP poller. */
module IocpRuns {
  import opened Prelude
  import opened EpollModel
  import opened IocpOwnership

  // ---- the retry loop ----

  /** A visit of the retry loop: whether WSARecv and WSASend accept. */
  datatype Retrial = Retrial(ch: Ch, readOk: bool, writeOk: bool)

  /** One visit to each pending channel of the list, none twice. */
  ghost predicate Visits(p: Poller, rs: seq<Retrial>) {
    && (forall i | 0 <= i < |rs| :: rs[i].ch in p.pendingPosts)
    && (forall i, j | 0 <= i < j < |rs| :: rs[i].ch != rs[j].ch)
  }

  function RetryAll(p: Poller, rs: seq<Retrial>): (q: Poller)
    requires Inv(p) && Visits(p, rs)
    ensures Inv(q)
    decreases |rs|
  {
    if rs == [] then p
    else
      RetryKeeps(p, rs[0].ch, rs[0].readOk, rs[0].writeOk);
      RetryAll(Retry(p, rs[0].ch, rs[0].readOk, rs[0].writeOk), rs[1..])
  }

  lemma PostOwners(p: Poller, k: CtxId, dir: Dir, ok: bool)
    requires k in p.contexts
    ensures SameOwners(p, Post(p, k, dir, ok))
  {}

  lemma RetryOwners(p: Poller, ch: Ch, readOk: bool, writeOk: bool)
    requires Inv(p) && ch in p.pendingPosts
    ensures Linked(p, ch) && SameOwners(p, Retry(p, ch, readOk, writeOk))
  {
    RetryKeeps(p, ch, readOk, writeOk);
    hide Inv, Post;
    var c := p.chans[ch];
    var k := c.context.value;
    PostOwners(p, k, Reading, readOk);
    PostOwners(if c.interest.reading then Post(p, k, Reading, readOk) else p, k, Writing, writeOk);
  }

  /** Each wanted direction of the channel has its operation posted. */
  ghost predicate Armed(p: Poller, ch: Ch) {
    Linked(p, ch) && forall dir :: Wants(p.chans[ch], dir) ==> IsPending(p.contexts[p.chans[ch].context.value], dir)
  }

  /** A visit leaves the channel enrolled exactly when some wanted operation is not posted, and
      other channels as they were. */
  lemma RetryExactly(p: Poller, ch: Ch, readOk: bool, writeOk: bool, d: Ch)
    requires Inv(p) && ch in p.pendingPosts && Linked(p, ch) && Linked(p, d)
    ensures var q := Retry(p, ch, readOk, writeOk);
      && (d in q.pendingPosts <==> d in p.pendingPosts && (d != ch || !Armed(q, ch)))
      && (d != ch ==> (Armed(q, d) <==> Armed(p, d)))
  {
    RetryOwners(p, ch, readOk, writeOk);
    var q := Retry(p, ch, readOk, writeOk);
    assert ChanOk(p, ch) && ChanOk(p, d);
    if d != ch {
      assert q.contexts[p.chans[d].context.value] == p.contexts[p.chans[d].context.value];
    } else if ch !in q.pendingPosts {
      forall dir | Wants(p.chans[ch], dir)
        ensures IsPending(q.contexts[p.chans[ch].context.value], dir)
      {
        match dir {
          case Reading =>
          case Writing =>
        }
      }
    } else {
      assert !Armed(q, ch) by {
        assert (Wants(p.chans[ch], Reading) && !IsPending(q.contexts[p.chans[ch].context.value], Reading))
            || (Wants(p.chans[ch], Writing) && !IsPending(q.contexts[p.chans[ch].context.value], Writing));
      }
    }
  }

  predicate Accepts(r: Retrial, dir: Dir) {
    match dir case Reading => r.readOk case Writing => r.writeOk
  }

  /** The channel is visited and its post in this direction is accepted. */
  ghost predicate Accepted(rs: seq<Retrial>, dir: Dir, d: Ch) {
    exists i | 0 <= i < |rs| :: rs[i].ch == d && Accepts(rs[i], dir)
  }

  lemma AcceptedTail(rs: seq<Retrial>, dir: Dir, d: Ch)
    requires rs != []
    ensures Accepted(rs, dir, d) <==> (rs[0].ch == d && Accepts(rs[0], dir)) || Accepted(rs[1..], dir, d)
  {
    if i: nat :| 0 < i < |rs| && rs[i].ch == d && Accepts(rs[i], dir) {
      assert rs[1..][i - 1] == rs[i];
    }
  }

  /** A visit posts exactly the wanted operations that are not posted yet and that are accepted, and
      touches no other context. */
  lemma RetryPostsExactly(p: Poller, r: Retrial, dir: Dir, d: Ch)
    requires Inv(p) && r.ch in p.pendingPosts && Linked(p, r.ch) && Linked(p, d)
    ensures var q := Retry(p, r.ch, r.readOk, r.writeOk);
      && Linked(q, d)
      && (IsPending(q.contexts[p.chans[d].context.value], dir) <==>
            IsPending(p.contexts[p.chans[d].context.value], dir) ||
            (d == r.ch && Wants(p.chans[d], dir) && Accepts(r, dir)))
  {
    RetryOwners(p, r.ch, r.readOk, r.writeOk);
    assert ChanOk(p, r.ch) && ChanOk(p, d);
    hide Inv;
  }

  /** The whole loop posts exactly the wanted operations of the channels it visits that are accepted. */
  lemma {:induction false} RetryAllPostsExactly(p: Poller, rs: seq<Retrial>, dir: Dir, d: Ch)
    requires Inv(p) && Visits(p, rs) && Linked(p, d)
    ensures var q := RetryAll(p, rs);
      && Linked(q, d) && q.chans == p.chans
      && (IsPending(q.contexts[p.chans[d].context.value], dir) <==>
            IsPending(p.contexts[p.chans[d].context.value], dir) ||
            (Wants(p.chans[d], dir) && Accepted(rs, dir, d)))
    decreases |rs|
  {
    if rs != [] {
      var r := rs[0];
      RetryKeeps(p, r.ch, r.readOk, r.writeOk);
      RetryOwners(p, r.ch, r.readOk, r.writeOk);
      RetryPostsExactly(p, r, dir, d);
      RetryAllPostsExactly(Retry(p, r.ch, r.readOk, r.writeOk), rs[1..], dir, d);
      AcceptedTail(rs, dir, d);
      hide Inv, Retry, IsPending, Linked, Accepted;
    }
  }

  ghost predicate Visited(rs: seq<Retrial>, d: Ch) {
    exists i | 0 <= i < |rs| :: rs[i].ch == d
  }

  lemma VisitedTail(rs: seq<Retrial>, d: Ch)
    requires rs != []
    ensures Visited(rs, d) <==> rs[0].ch == d || Visited(rs[1..], d)
  {
  }

  /** The loop keeps a channel enrolled exactly when it is not armed, whatever the posts answer. */
  lemma {:induction false} RetryAllExactly(p: Poller, rs: seq<Retrial>, d: Ch)
    requires Inv(p) && Visits(p, rs) && Linked(p, d)
    ensures var q := RetryAll(p, rs);
      && Inv(q) && SameOwners(p, q) && Linked(q, d)
      && (d in q.pendingPosts <==> d in p.pendingPosts && (Visited(rs, d) ==> !Armed(q, d)))
      && (!Visited(rs, d) ==> (Armed(q, d) <==> Armed(p, d)))
    decreases |rs|
  {
    if rs == [] {
    } else {
      var r := rs[0];
      RetryKeeps(p, r.ch, r.readOk, r.writeOk);
      RetryOwners(p, r.ch, r.readOk, r.writeOk);
      RetryExactly(p, r.ch, r.readOk, r.writeOk, d);
      var p1 := Retry(p, r.ch, r.readOk, r.writeOk);
      RetryAllExactly(p1, rs[1..], d);
      VisitedTail(rs, d);
      assert Visited(rs[1..], r.ch) ==> false;
      hide Inv, Retry, Armed, Visited;
    }
  }

  // ---- the completion loop ----

  /** Packets the kernel can deliver in this order: each is for an operation outstanding then. */
  ghost predicate Delivers(p: Poller, revents: map<Ch, Revents>, ms: seq<Completion>)
    requires Inv(p)
    decreases |ms|
  {
    ms == [] || (ms[0].op in p.outstanding &&
      (CompletionKeeps(p, revents, ms[0]);
       var (q, r) := AfterCompletion(p, revents, ms[0]);
       Delivers(q, r, ms[1..])))
  }

  function Drain(p: Poller, revents: map<Ch, Revents>, ms: seq<Completion>): (Poller, map<Ch, Revents>)
    requires Inv(p) && Delivers(p, revents, ms)
    decreases |ms|
  {
    if ms == [] then (p, revents)
    else
      CompletionKeeps(p, revents, ms[0]);
      var (q, r) := AfterCompletion(p, revents, ms[0]);
      Drain(q, r, ms[1..])
  }

  datatype Flag = Read | Write | Error | Close

  predicate Shows(r: Revents, f: Flag) {
    match f
    case Read => r.read
    case Write => r.write
    case Error => r.error
    case Close => r.close
  }

  predicate Lists(revents: map<Ch, Revents>, ch: Ch, f: Flag) {
    ch in revents && Shows(revents[ch], f)
  }

  /** The packet is for this channel, and: a successful read or write in a direction the channel
      wants is that event, a failed operation of either kind is an error, and nothing is a close. */
  predicate Causes(p: Poller, m: Completion, ch: Ch, f: Flag) {
    && m.op.ctx in p.contexts && p.contexts[m.op.ctx].channel == Some(ch) && ch in p.chans
    && match f
       case Read => m.ok && m.op.dir.Reading? && p.chans[ch].interest.reading
       case Write => m.ok && m.op.dir.Writing? && p.chans[ch].interest.writing
       case Error => !m.ok
       case Close => false
  }

  /** Every channel listed so far is registered, does not listen and has some event. */
  ghost predicate ListedOk(p: Poller, revents: map<Ch, Revents>) {
    forall ch <- revents :: Watched(p, ch) && revents[ch] != NO_REVENTS
  }

  lemma NoteLists(revents: map<Ch, Revents>, d: Ch, x: Revents, ch: Ch, f: Flag)
    ensures Lists(Note(revents, d, x), ch, f) <==> Lists(revents, ch, f) || (d == ch && Shows(x, f))
  {}

  lemma WatchedStays(p: Poller, q: Poller, ch: Ch)
    requires SameOwners(p, q) && Watched(p, ch)
    ensures Watched(q, ch)
  {}

  lemma EventsExactly(p: Poller, m: Completion, owner: Ch, ch: Ch, f: Flag)
    requires m.op.ctx in p.contexts && p.contexts[m.op.ctx].channel == Some(owner) && owner in p.chans
    ensures Causes(p, m, ch, f) <==> owner == ch && Shows(EventsOf(p.chans[owner], m), f)
  {
  }

  lemma AfterLists(p: Poller, revents: map<Ch, Revents>, m: Completion)
    requires m.op.ctx in p.contexts
    requires p.contexts[m.op.ctx].channel.Some? ==> p.contexts[m.op.ctx].channel.value in p.chans
    ensures var r, owner := AfterCompletion(p, revents, m).1, p.contexts[m.op.ctx].channel;
      r == if owner.None? then revents else Note(revents, owner.value, EventsOf(p.chans[owner.value], m))
  {
  }

  /** What is listed stays right. */
  lemma NoteStaysOk(p: Poller, q: Poller, revents: map<Ch, Revents>, ch: Ch, x: Revents)
    requires SameOwners(p, q) && ListedOk(p, revents) && Watched(p, ch)
    ensures ListedOk(q, Note(revents, ch, x)) && ListedOk(q, revents)
  {
    forall d <- Note(revents, ch, x)
      ensures Watched(q, d) && Note(revents, ch, x)[d] != NO_REVENTS
    {
      hide Watched;
      assert Watched(p, d);
      WatchedStays(p, q, d);
    }
    forall d <- revents
      ensures Watched(q, d)
    {
      WatchedStays(p, q, d);
    }
    hide Watched;
  }

  lemma StaysOk(p: Poller, q: Poller, revents: map<Ch, Revents>)
    requires SameOwners(p, q) && ListedOk(p, revents)
    ensures ListedOk(q, revents)
  {
    forall d <- revents
      ensures Watched(q, d)
    {
      WatchedStays(p, q, d);
    }
  }

  lemma CompletionLists(p: Poller, revents: map<Ch, Revents>, m: Completion, ch: Ch, f: Flag)
    requires Inv(p) && m.op in p.outstanding && ListedOk(p, revents)
    ensures m.op.ctx in p.contexts
    ensures p.contexts[m.op.ctx].channel.Some? ==> p.contexts[m.op.ctx].channel.value in p.chans
    ensures var (q, r) := AfterCompletion(p, revents, m);
      ListedOk(q, r) && (Lists(r, ch, f) <==> Lists(revents, ch, f) || Causes(p, m, ch, f))
  {
    CompletionKeeps(p, revents, m);
    PacketOwner(p, m.op);
    hide Inv, AfterCompletion, ListedOk, Lists, EventsOf, Note, Watched;
    AfterLists(p, revents, m);
    var q, owner := AfterCompletion(p, revents, m).0, p.contexts[m.op.ctx].channel;
    if owner.Some? {
      assert owner.value in p.chans;
      var x := EventsOf(p.chans[owner.value], m);
      EventsExactly(p, m, owner.value, ch, f);
      NoteLists(revents, owner.value, x, ch, f);
      NoteStaysOk(p, q, revents, owner.value, x);
    } else {
      StaysOk(p, q, revents);
    }
  }

  ghost predicate Caused(p: Poller, ms: seq<Completion>, ch: Ch, f: Flag) {
    exists i | 0 <= i < |ms| :: Causes(p, ms[i], ch, f)
  }

  lemma CausedTail(p: Poller, q: Poller, ms: seq<Completion>, ch: Ch, f: Flag)
    requires ms != [] && SameOwners(p, q)
    ensures Caused(p, ms, ch, f) <==> Causes(p, ms[0], ch, f) || Caused(q, ms[1..], ch, f)
  {
  }

  /** An event is listed exactly when some delivered packet caused it, and only for registered
      channels that do not listen. */
  lemma {:induction false} DrainExactly(p: Poller, revents: map<Ch, Revents>, ms: seq<Completion>, ch: Ch, f: Flag)
    requires Inv(p) && Delivers(p, revents, ms) && ListedOk(p, revents)
    ensures var (q, r) := Drain(p, revents, ms);
      && Inv(q) && SameOwners(p, q) && ListedOk(q, r)
      && (Lists(r, ch, f) <==> Lists(revents, ch, f) || Caused(p, ms, ch, f))
    decreases |ms|
  {
    if ms == [] {
    } else {
      var m := ms[0];
      CompletionKeeps(p, revents, m);
      CompletionLists(p, revents, m, ch, f);
      var (p1, r1) := AfterCompletion(p, revents, m);
      DrainExactly(p1, r1, ms[1..], ch, f);
      CausedTail(p, p1, ms, ch, f);
      hide Inv, Causes, ListedOk, Caused, Lists, AfterCompletion;
    }
  }

  // ---- poll ----

  /** The channels poll hands to the loop: those with completions in the order of the map, then the
      listening ones that select finds readable. */
  ghost predicate Actives(p: Poller, revents: map<Ch, Revents>, readable: set<Ch>, active: seq<Ch>) {
    exists n | 0 <= n <= |active| ::
      && (forall i | 0 <= i < n :: active[i] in revents) && (forall ch <- revents :: ch in active[..n])
      && (forall i | n <= i < |active| :: Selected(p, readable, active[i]))
      && (forall ch <- p.selectChannels :: Selected(p, readable, ch) ==> ch in active[n..])
      && Distinct(active[..n]) && Distinct(active[n..])
  }

  predicate Selected(p: Poller, readable: set<Ch>, ch: Ch) {
    ch in p.selectChannels && ch in readable && ch in p.chans && p.chans[ch].interest.reading
  }

  ghost predicate Distinct(s: seq<Ch>) {
    forall i, j | 0 <= i < j < |s| :: s[i] != s[j]
  }

  lemma JoinedDistinct(a: seq<Ch>, b: seq<Ch>)
    requires Distinct(a) && Distinct(b) && forall ch <- a :: ch !in b
    ensures Distinct(a + b)
  {
    forall i, j | 0 <= i < j < |a + b|
      ensures (a + b)[i] != (a + b)[j]
    {
      if i < |a| <= j {
        assert a[i] in a && b[j - |a|] in b;
      }
    }
  }

  lemma SelectedIsRegistered(p: Poller, readable: set<Ch>, ch: Ch)
    requires Inv(p) && Selected(p, readable, ch)
    ensures Linked(p, ch) && p.chans[ch].index >= 0 && !Watched(p, ch)
  {
    assert ChanOk(p, ch);
  }

  /** No channel is handed over twice, and none that is not registered. */
  lemma ActivesAreRegistered(p: Poller, revents: map<Ch, Revents>, readable: set<Ch>, active: seq<Ch>)
    requires Inv(p) && ListedOk(p, revents) && Actives(p, revents, readable, active)
    ensures Distinct(active)
    ensures forall ch :: ch in active <==> ch in revents || Selected(p, readable, ch)
    ensures forall ch <- active :: Linked(p, ch) && p.chans[ch].index >= 0
  {
    hide Inv, Distinct, Linked;
    var n :| 0 <= n <= |active|
      && (forall i | 0 <= i < n :: active[i] in revents) && (forall ch <- revents :: ch in active[..n])
      && (forall i | n <= i < |active| :: Selected(p, readable, active[i]))
      && (forall ch <- p.selectChannels :: Selected(p, readable, ch) ==> ch in active[n..])
      && Distinct(active[..n]) && Distinct(active[n..]);
    assert active == active[..n] + active[n..];
    forall ch <- active
      ensures (ch in active[..n] ==> Watched(p, ch)) && (ch in active[n..] ==> Selected(p, readable, ch))
    {
    }
    forall ch <- active[n..]
      ensures Linked(p, ch) && p.chans[ch].index >= 0 && !Watched(p, ch)
    {
      SelectedIsRegistered(p, readable, ch);
    }
    JoinedDistinct(active[..n], active[n..]);
  }

  lemma ListedExactly(p: Poller, ms: seq<Completion>, ch: Ch)
    requires Inv(p) && Delivers(p, map[], ms)
    ensures var (q, r) := Drain(p, map[], ms);
      Inv(q) && ListedOk(q, r) && (ch in r <==> exists f :: Caused(p, ms, ch, f))
  {
    var (q, r) := Drain(p, map[], ms);
    DrainExactly(p, map[], ms, ch, Read);
    forall f
      ensures Lists(r, ch, f) <==> Caused(p, ms, ch, f)
    {
      DrainExactly(p, map[], ms, ch, f);
      hide Inv, Caused, Drain, Delivers, ListedOk;
    }
    if ch in r {
      var x := r[ch];
      assert x != NO_REVENTS;
      hide Inv, Caused, Drain, Delivers, ListedOk;
      var f := if x.read then Read else if x.write then Write else if x.error then Error else Close;
      assert Lists(r, ch, f);
    }
  }

  /** What one poll reports: a registered channel, once, exactly when select found it readable or a
      packet delivered in this poll caused an event for it. */
  lemma PollReports(p: Poller, rs: seq<Retrial>, ms: seq<Completion>, readable: set<Ch>, active: seq<Ch>, ch: Ch)
    requires Inv(p) && Visits(p, rs)
    requires Delivers(RetryAll(p, rs), map[], ms)
    requires var (q, r) := Drain(RetryAll(p, rs), map[], ms); Actives(q, r, readable, active)
    ensures var (q, r) := Drain(RetryAll(p, rs), map[], ms);
      && Distinct(active)
      && (ch in active ==> Linked(q, ch) && q.chans[ch].index >= 0)
      && (ch in active <==> Selected(q, readable, ch) || exists f :: Caused(RetryAll(p, rs), ms, ch, f))
  {
    hide Caused, Drain, RetryAll, Actives, Inv, Selected, Delivers, Visits, ListedOk;
    ListedExactly(RetryAll(p, rs), ms, ch);
    var (q, r) := Drain(RetryAll(p, rs), map[], ms);
    ActivesAreRegistered(q, r, readable, active);
  }

  // ---- runs ----

  /** A new Channel object, an interest change with its update, a removal, or a poll with what the
      kernel answers in it. */
  datatype Event =
    | NewChannel(ch: Ch, fd: Fd, listening: bool)
    | Update(ch: Ch, interest: Interest, bound: bool, made: CtxId)
    | Remove(ch: Ch)
    | Poll(rs: seq<Retrial>, ms: seq<Completion>)

  /** new returns no context that still exists. */
  ghost predicate Enabled(p: Poller, e: Event)
    requires Inv(p)
  {
    match e
    case NewChannel(ch, _, _) => ch !in p.chans
    case Update(ch, _, _, made) => ch in p.chans && made !in p.contexts
    case Remove(ch) => ch in p.chans
    case Poll(rs, ms) =>
      && Visits(p, rs) && (forall ch <- p.pendingPosts :: Visited(rs, ch))
      && Delivers(RetryAll(p, rs), map[], ms)
  }

  lemma {:induction false} RetryAllOwners(p: Poller, rs: seq<Retrial>)
    requires Inv(p) && Visits(p, rs)
    ensures SameOwners(p, RetryAll(p, rs))
    decreases |rs|
  {
    if rs == [] {
    } else {
      RetryKeeps(p, rs[0].ch, rs[0].readOk, rs[0].writeOk);
      RetryOwners(p, rs[0].ch, rs[0].readOk, rs[0].writeOk);
      RetryAllOwners(Retry(p, rs[0].ch, rs[0].readOk, rs[0].writeOk), rs[1..]);
      hide Inv, Retry;
    }
  }

  function Step(p: Poller, e: Event): Poller
    requires Inv(p) && Enabled(p, e)
  {
    match e
    case NewChannel(ch, fd, listening) => p.(chans := p.chans[ch := Chan(fd, listening, NO_EVENT, -1, None)])
    case Update(ch, i, bound, made) => UpdateChannel(SetInterest(p, ch, i), ch, bound, made)
    case Remove(ch) => RemoveKeeps(p, ch); RemoveChannel(p, ch).0
    case Poll(rs, ms) => Drain(RetryAll(p, rs), map[], ms).0
  }

  lemma NewChannelKeeps(p: Poller, ch: Ch, fd: Fd, listening: bool)
    requires Inv(p) && ch !in p.chans
    ensures Inv(p.(chans := p.chans[ch := Chan(fd, listening, NO_EVENT, -1, None)]))
  {
    var q := p.(chans := p.chans[ch := Chan(fd, listening, NO_EVENT, -1, None)]);
    forall k <- q.contexts
      ensures ContextOk(q, k)
    {
      assert ContextOk(p, k);
    }
    forall d <- q.chans
      ensures ChanOk(q, d)
    {
      assert d != ch ==> ChanOk(p, d);
    }
  }

  /** No step frees a context or takes one off the dead list. */
  lemma StepKeeps(p: Poller, e: Event)
    requires Inv(p) && Enabled(p, e)
    ensures var q := Step(p, e);
      Inv(q) && p.contexts.Keys <= q.contexts.Keys && p.dead <= q.dead
  {
    match e {
      case NewChannel(ch, fd, listening) =>
        NewChannelKeeps(p, ch, fd, listening);
      case Update(ch, i, bound, made) =>
        InterestKeeps(p, ch, i);
        UpdateKeeps(SetInterest(p, ch, i), ch, bound, made);
      case Remove(ch) =>
        RemoveKeeps(p, ch);
      case Poll(rs, ms) =>
        RetryAllOwners(p, rs);
        DrainExactly(RetryAll(p, rs), map[], ms, 0, Read);
    }
    hide Inv;
  }

  ghost predicate IsRun(p: Poller, es: seq<Event>)
    requires Inv(p)
    decreases |es|
  {
    es == [] || (Enabled(p, es[0]) && (StepKeeps(p, es[0]); IsRun(Step(p, es[0]), es[1..])))
  }

  function After(p: Poller, es: seq<Event>): (q: Poller)
    requires Inv(p) && IsRun(p, es)
    ensures Inv(q)
    decreases |es|
  {
    if es == [] then p else StepKeeps(p, es[0]); After(Step(p, es[0]), es[1..])
  }

  lemma {:induction false} RunKeeps(p: Poller, es: seq<Event>)
    requires Inv(p) && IsRun(p, es)
    ensures p.contexts.Keys <= After(p, es).contexts.Keys && p.dead <= After(p, es).dead
    decreases |es|
  {
    if es == [] {
    } else {
      StepKeeps(p, es[0]);
      RunKeeps(Step(p, es[0]), es[1..]);
      hide Inv, Step, Enabled;
    }
  }

  /** Whatever the run: a flag of a context in use is set exactly when one operation for it is
      outstanding; every outstanding operation belongs to a context that exists and that is either
      in use by one registered channel or exactly once on the dead list; and no dead context is in
      use by a channel. */
  lemma OwnershipHolds(es: seq<Event>, op: Op, ch: Ch)
    requires IsRun(EMPTY, es)
    ensures var p := After(EMPTY, es);
      && (op in p.outstanding ==> p.outstanding[op] == 1 && op.ctx in p.contexts)
      && (op.ctx in p.contexts ==>
            multiset(p.dead)[op.ctx] == (if p.contexts[op.ctx].channel.None? then 1 else 0))
      && (op.ctx in p.contexts && p.contexts[op.ctx].channel.Some? ==>
            && (op in p.outstanding <==> IsPending(p.contexts[op.ctx], op.dir))
            && Linked(p, p.contexts[op.ctx].channel.value) && p.chans[p.contexts[op.ctx].channel.value].index >= 0)
      && (ch in p.chans && p.chans[ch].context == Some(op.ctx) ==> op.ctx !in p.dead)
  {
    RunKeeps(EMPTY, es);
    var p := After(EMPTY, es);
    if op.ctx in p.contexts {
      assert ContextOk(p, op.ctx);
      match op.dir {
        case Reading => assert op == Op(op.ctx, Reading);
        case Writing => assert op == Op(op.ctx, Writing);
      }
      Once(p.dead, op.ctx);
      if p.contexts[op.ctx].channel.Some? {
        assert ChanOk(p, p.contexts[op.ctx].channel.value);
      }
      if ch in p.chans {
        assert ChanOk(p, ch);
      }
    }
  }

  lemma {:induction false} Once(s: seq<CtxId>, k: CtxId)
    requires forall i, j | 0 <= i < j < |s| :: s[i] != s[j]
    ensures multiset(s)[k] == if k in s then 1 else 0
  {
    if s == [] {
    } else {
      var n := |s| - 1;
      Once(s[..n], k);
      assert s == s[..n] + [s[n]];
    }
  }
}
