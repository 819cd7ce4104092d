/** The IOCP poller as the object that changes its tables (muduox/net/poller/IocpPoller.cpp). The
    memory of channels and contexts is kept in two maps from identifiers. */
module IocpPollerModel {
  import opened Prelude
  import opened EpollModel
  import opened IocpOwnership
  import opened IocpRuns

  const MAX_PACKETS := 128

  /** The packets one poll takes off the port. */
  function Round(port: seq<Completion>): (r: seq<Completion>)
    ensures r <= port && (r == port || |r| == MAX_PACKETS < |port|)
  {
    if |port| <= MAX_PACKETS then port else port[..MAX_PACKETS]
  }

  class IocpPoller {
    var chans: map<Ch, Chan>
    var contexts: map<CtxId, Context>
    var channels: map<Fd, Ch>
    var deadContexts: seq<CtxId>
    var pendingPosts: set<Ch>
    var selectChannels: set<Ch>
    ghost var outstanding: multiset<Op>

    constructor ()
      ensures View() == EMPTY
    {
      chans, contexts, channels := map[], map[], map[];
      deadContexts, pendingPosts, selectChannels := [], {}, {};
      outstanding := multiset{};
    }

    ghost function View(): Poller
      reads this
    {
      Poller(chans, contexts, channels, deadContexts, pendingPosts, selectChannels, outstanding)
    }

    method PostRead(ctx: CtxId, ok: bool)
      requires ctx in contexts
      modifies this`contexts, this`outstanding
      ensures View() == Post(old(View()), ctx, Reading, ok)
    {
      if contexts[ctx].readPending {
        return;
      }
      if ok {
        outstanding := outstanding + multiset{Op(ctx, Reading)};
        contexts := contexts[ctx := contexts[ctx].(readPending := true)];
      }
    }

    method PostWrite(ctx: CtxId, ok: bool)
      requires ctx in contexts
      modifies this`contexts, this`outstanding
      ensures View() == Post(old(View()), ctx, Writing, ok)
    {
      if contexts[ctx].writePending {
        return;
      }
      if ok {
        outstanding := outstanding + multiset{Op(ctx, Writing)};
        contexts := contexts[ctx := contexts[ctx].(writePending := true)];
      }
    }

    method UpdateChannel(ch: Ch, bound: bool, made: CtxId)
      requires Inv(View()) && ch in chans && made !in contexts
      modifies this
      ensures View() == IocpOwnership.UpdateChannel(old(View()), ch, bound, made) && Inv(View())
    {
      ghost var was := View();
      if chans[ch].index < 0 {
        if !bound {
          return;
        }
        contexts := contexts[made := Context(Some(ch), false, false)];
        chans := chans[ch := chans[ch].(context := Some(made))];
      }
      chans := chans[ch := chans[ch].(index := 0)];
      var c := chans[ch];
      if c.listening {
        selectChannels := selectChannels + {ch};
      } else if c.interest.reading || c.interest.writing {
        pendingPosts := pendingPosts + {ch};
      }
      channels := channels[c.fd := ch];
      UpdateKeeps(was, ch, bound, made);
      hide Inv;
    }

    /** throws: the any_cast of an empty context. */
    method RemoveChannel(ch: Ch) returns (throws: bool)
      requires Inv(View()) && ch in chans
      modifies this
      ensures chans.Keys == old(chans).Keys
      ensures throws <==> old(chans[ch].index) < 0
      ensures old(chans[ch].context).Some? ==> old(chans[ch].context).value in old(contexts)
      ensures (View(), throws) == IocpOwnership.RemoveChannel(old(View()), ch) && Inv(View())
    {
      RemoveKeeps(View(), ch);
      hide Inv;
      channels := channels - {chans[ch].fd};
      pendingPosts := pendingPosts - {ch};
      selectChannels := selectChannels - {ch};
      if chans[ch].context.None? {
        return true;
      }
      var ctx := chans[ch].context.value;
      contexts := contexts[ctx := contexts[ctx].(channel := None)];
      deadContexts := deadContexts + [ctx];
      chans := chans[ch := chans[ch].(context := None, index := -1)];
      throws := false;
    }

    /** One visit of the retry loop. That the channel's context is there and refers back to it is
        what the invariant gives, so the loop's first test never finds otherwise. */
    method RetryOne(ch: Ch, readOk: bool, writeOk: bool)
      requires Linked(View(), ch)
      modifies this`contexts, this`outstanding, this`pendingPosts
      ensures View() == Retry(old(View()), ch, readOk, writeOk)
    {
      var ctx := chans[ch].context.value;
      var done := true;
      if chans[ch].interest.reading && !contexts[ctx].readPending {
        PostRead(ctx, readOk);
        if !contexts[ctx].readPending {
          done := false;
        }
      }
      if chans[ch].interest.writing && !contexts[ctx].writePending {
        PostWrite(ctx, writeOk);
        if !contexts[ctx].writePending {
          done := false;
        }
      }
      if done {
        pendingPosts := pendingPosts - {ch};
      }
    }

    method RetryPending(rs: seq<Retrial>)
      requires Inv(View()) && Visits(View(), rs)
      modifies this`contexts, this`outstanding, this`pendingPosts
      ensures View() == RetryAll(old(View()), rs) && Inv(View())
    {
      ghost var was := View();
      var i := 0;
      while i < |rs|
        invariant 0 <= i <= |rs|
        invariant Inv(View()) && Visits(View(), rs[i..])
        invariant RetryAll(View(), rs[i..]) == RetryAll(was, rs)
      {
        assert rs[i..][0] == rs[i] && rs[i..][1..] == rs[i + 1..];
        RetryKeeps(View(), rs[i].ch, rs[i].readOk, rs[i].writeOk);
        NextVisits(View(), rs[i..]);
        hide Inv, Retry;
        RetryOne(rs[i].ch, rs[i].readOk, rs[i].writeOk);
        i := i + 1;
      }
    }

    method TakePacket(m: Completion, revents: map<Ch, Revents>) returns (r: map<Ch, Revents>)
      requires m.op.ctx in contexts
      requires contexts[m.op.ctx].channel.Some? ==> contexts[m.op.ctx].channel.value in chans
      modifies this`contexts, this`outstanding
      ensures (View(), r) == AfterCompletion(old(View()), revents, m)
    {
      outstanding := outstanding - multiset{m.op};
      var ctx := m.op.ctx;
      if contexts[ctx].channel.None? {
        contexts := contexts[ctx := contexts[ctx].(readPending := false, writePending := false)];
        return revents;
      }
      var ch := contexts[ctx].channel.value;
      var rev := NO_REVENTS;
      if m.op.dir.Reading? {
        contexts := contexts[ctx := contexts[ctx].(readPending := false)];
        if !m.ok {
          rev := rev.(error := true);
        } else if chans[ch].interest.reading {
          rev := rev.(read := true);
        }
        if chans[ch].interest.reading && !rev.error {
          var alreadyHasRead := ch in revents && revents[ch].read;
          if !alreadyHasRead {
            PostRead(ctx, m.repost);
          }
        }
      } else {
        contexts := contexts[ctx := contexts[ctx].(writePending := false)];
        if !m.ok {
          rev := rev.(error := true);
        } else if chans[ch].interest.writing {
          rev := rev.(write := true);
        }
      }
      r := revents;
      if rev != NO_REVENTS {
        r := r[ch := Or(if ch in r then r[ch] else NO_REVENTS, rev)];
      }
    }

    method TakePackets(port: seq<Completion>) returns (revents: map<Ch, Revents>)
      requires Inv(View()) && Delivers(View(), map[], Round(port))
      modifies this`contexts, this`outstanding
      ensures (View(), revents) == Drain(old(View()), map[], Round(port)) && Inv(View())
    {
      hide Inv, AfterCompletion, Delivers, Drain;
      ghost var was := View();
      ghost var ms := Round(port);
      revents := map[];
      var i := 0;
      while i < MAX_PACKETS && i < |port|
        invariant 0 <= i <= |ms|
        invariant Inv(View()) && Delivers(View(), revents, ms[i..])
        invariant Drain(View(), revents, ms[i..]) == Drain(was, map[], ms)
      {
        assert ms[i..][0] == port[i] && ms[i..][1..] == ms[i + 1..];
        NextPacket(View(), revents, ms[i..]);
        revents := TakePacket(port[i], revents);
        i := i + 1;
      }
      NoPackets(View(), revents, ms[i..]);
    }

    /** rs: the visits of the retry loop and their answers; port: the packets waiting; readable: the
        sockets select reports. revents is what the listed channels' events are set to; completed is
        the part of it that the packets give. */
    method Poll(rs: seq<Retrial>, port: seq<Completion>, readable: set<Ch>)
      returns (active: seq<Ch>, revents: map<Ch, Revents>, ghost completed: map<Ch, Revents>)
      requires Inv(View()) && Visits(View(), rs) && forall ch <- pendingPosts :: Visited(rs, ch)
      requires Delivers(RetryAll(View(), rs), map[], Round(port))
      modifies this`contexts, this`outstanding, this`pendingPosts
      ensures (View(), completed) == Drain(RetryAll(old(View()), rs), map[], Round(port)) && Inv(View())
      ensures Actives(View(), completed, readable, active)
      ensures forall ch :: ch in revents <==> ch in active
      ensures forall ch <- active ::
        revents[ch] == if ch in completed then completed[ch] else NO_REVENTS.(read := true)
    {
      hide Inv, Actives, Delivers, Drain, RetryAll, Visits, Distinct, Visited;
      RetryPending(rs);
      revents := TakePackets(port);
      completed := revents;
      active := ListAll(revents.Keys);
      var ready := set ch | ch in selectChannels && ch in readable && ch in chans && chans[ch].interest.reading;
      var more := ListAll(ready);
      ActivesOf(View(), completed, readable, active, more);
      active := active + more;
      revents := map ch | ch in revents.Keys + ready ::
        if ch in revents then revents[ch] else NO_REVENTS.(read := true);
    }
  }

  /** The members of a container in its iteration order. */
  method ListAll(s: set<Ch>) returns (r: seq<Ch>)
    ensures Distinct(r) && forall ch :: ch in r <==> ch in s
  {
    r := [];
    var rest := s;
    while rest != {}
      invariant rest <= s && Distinct(r)
      invariant forall ch :: ch in r <==> ch in s - rest
    {
      var ch :| ch in rest;
      rest := rest - {ch};
      assert forall i | 0 <= i < |r| :: r[i] in r && r[i] != ch;
      r := r + [ch];
    }
  }

  lemma ActivesOf(p: Poller, revents: map<Ch, Revents>, readable: set<Ch>, a: seq<Ch>, b: seq<Ch>)
    requires Distinct(a) && Distinct(b)
    requires forall ch :: ch in a <==> ch in revents
    requires forall ch :: ch in b <==> Selected(p, readable, ch)
    ensures Actives(p, revents, readable, a + b)
  {
    var active := a + b;
    var n := |a|;
    assert active[..n] == a && active[n..] == b;
    forall i | n <= i < |active|
      ensures Selected(p, readable, active[i])
    {
      assert active[i] == b[i - n];
    }
    forall i | 0 <= i < n
      ensures active[i] in revents
    {
      assert active[i] == a[i];
    }
  }

  lemma NoPackets(p: Poller, revents: map<Ch, Revents>, ms: seq<Completion>)
    requires Inv(p) && Delivers(p, revents, ms) && ms == []
    ensures Drain(p, revents, ms) == (p, revents)
  {
  }

  lemma NextPacket(p: Poller, revents: map<Ch, Revents>, ms: seq<Completion>)
    requires Inv(p) && Delivers(p, revents, ms) && ms != []
    ensures ms[0].op.ctx in p.contexts
    ensures p.contexts[ms[0].op.ctx].channel.Some? ==> p.contexts[ms[0].op.ctx].channel.value in p.chans
    ensures var (q, r) := AfterCompletion(p, revents, ms[0]);
      Inv(q) && Delivers(q, r, ms[1..]) && Drain(p, revents, ms) == Drain(q, r, ms[1..])
  {
    CompletionKeeps(p, revents, ms[0]);
  }

  lemma NextVisits(p: Poller, rs: seq<Retrial>)
    requires Inv(p) && Visits(p, rs) && rs != []
    ensures Linked(p, rs[0].ch) && Visits(Retry(p, rs[0].ch, rs[0].readOk, rs[0].writeOk), rs[1..])
  {
    RetryKeeps(p, rs[0].ch, rs[0].readOk, rs[0].writeOk);
  }
}
