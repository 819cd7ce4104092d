/** Channels and their registration with epoll (muduox/net/core/Channel.cpp,
    muduox/net/poller/EpollPoller.cpp). The tables are generic in what owns a channel, so that
    the connection lifecycle runs on the same functions as the classes below. */
module EpollModel {
  import opened Prelude

  type Fd = nat

  datatype Interest = Interest(reading: bool, writing: bool)

  const NO_EVENT := Interest(false, false)

  /** An entry of the kernel's interest set: the pointer in epoll_data and the event mask. */
  datatype Registration<C> = Registration(owner: C, interest: Interest)

  /** channels_ of the poller beside the interest set the kernel keeps for its epoll fd. */
  datatype Tables<C> = Tables(channels: map<Fd, C>, kernel: map<Fd, Registration<C>>)

  datatype CtlOp = Add | Mod | Del

  /** epoll_ctl without resource failures: EEXIST on adding a present fd, ENOENT on changing an
      absent one. */
  function EpollCtl<C>(kernel: map<Fd, Registration<C>>, op: CtlOp, fd: Fd, reg: Registration<C>)
    : Option<map<Fd, Registration<C>>>
  {
    if op.Add? <==> fd in kernel then None
    else if op.Del? then Some(kernel - {fd})
    else Some(kernel[fd := reg])
  }

  /** What one call leaves: the tables, the channel's index and whether epoll_ctl succeeded. */
  datatype Outcome<C> = Outcome(tables: Tables<C>, index: int, ok: bool)

  function AfterCtl<C>(t: Tables<C>, op: CtlOp, owner: C, fd: Fd, interest: Interest, index: int): Outcome<C> {
    match EpollCtl(t.kernel, op, fd, Registration(owner, interest))
    case None => Outcome(t, index, false)
    case Some(kernel) =>
      if op.Del? then Outcome(t.(kernel := kernel), -1, true)
      else Outcome(Tables(t.channels[fd := owner], kernel), 0, true)
  }

  function AfterUpdate<C>(t: Tables<C>, owner: C, fd: Fd, interest: Interest, index: int): Outcome<C> {
    AfterCtl(t, if index < 0 then Add else Mod, owner, fd, interest, index)
  }

  function AfterRemove<C>(t: Tables<C>, owner: C, fd: Fd, interest: Interest, index: int): Outcome<C> {
    var o := AfterCtl(t, Del, owner, fd, interest, index);
    o.(tables := o.tables.(channels := o.tables.channels - {fd}))
  }

  // ---- dispatch ----

  /** revents_: kReadEvent, kWriteEvent, kErrorEvent, kCloseEvent. */
  datatype Revents = Revents(read: bool, write: bool, error: bool, close: bool)

  const NO_REVENTS := Revents(false, false, false, false)

  datatype EpollFlags = EpollFlags(epollIn: bool, pri: bool, rdhup: bool, out: bool, err: bool, hup: bool)

  function Translate(f: EpollFlags): Revents {
    Revents(f.epollIn || f.pri || f.rdhup, f.out, f.err, f.hup)
  }

  datatype Callback = OnError | OnClose | OnRead | OnWrite

  /** One test of handleEvent. */
  function Call(calls: seq<Callback>, c: Callback, occurred: bool, handlers: set<Callback>): seq<Callback> {
    if occurred && c in handlers then calls + [c] else calls
  }

  /** The callbacks of one handleEvent, in order. */
  function Dispatch(r: Revents, handlers: set<Callback>): seq<Callback> {
    var c1 := Call([], OnError, r.error, handlers);
    var c2 := Call(c1, OnClose, r.close, handlers);
    var c3 := Call(c2, OnRead, r.read, handlers);
    Call(c3, OnWrite, r.write, handlers)
  }

  /** The order in which handleEvent considers its callbacks. */
  function Rank(c: Callback): nat {
    match c case OnError => 0 case OnClose => 1 case OnRead => 2 case OnWrite => 3
  }

  /** A callback runs exactly if its event occurred and it is set, at most once, and in rank order. */
  ghost predicate RunsExactly(calls: seq<Callback>, r: Revents, handlers: set<Callback>) {
    && (OnError in calls <==> r.error && OnError in handlers)
    && (OnClose in calls <==> r.close && OnClose in handlers)
    && (OnRead in calls <==> r.read && OnRead in handlers)
    && (OnWrite in calls <==> r.write && OnWrite in handlers)
    && forall i, j | 0 <= i < j < |calls| :: Rank(calls[i]) < Rank(calls[j])
  }

  lemma CallKeepsOrder(calls: seq<Callback>, c: Callback, occurred: bool, handlers: set<Callback>)
    requires forall i, j | 0 <= i < j < |calls| :: Rank(calls[i]) < Rank(calls[j])
    requires forall d <- calls :: Rank(d) < Rank(c)
    ensures var next := Call(calls, c, occurred, handlers);
      && (forall i, j | 0 <= i < j < |next| :: Rank(next[i]) < Rank(next[j]))
      && (forall d :: d in next <==> d in calls || (d == c && occurred && c in handlers))
  {
  }

  lemma DispatchExactly(r: Revents, handlers: set<Callback>)
    ensures RunsExactly(Dispatch(r, handlers), r, handlers)
  {
    hide Call;
    CallKeepsOrder([], OnError, r.error, handlers);
    var c1 := Call([], OnError, r.error, handlers);
    CallKeepsOrder(c1, OnClose, r.close, handlers);
    var c2 := Call(c1, OnClose, r.close, handlers);
    CallKeepsOrder(c2, OnRead, r.read, handlers);
    CallKeepsOrder(Call(c2, OnRead, r.read, handlers), OnWrite, r.write, handlers);
  }

  class Channel {
    const fd: Fd
    const poller: EpollPoller
    var interest: Interest
    var revents: Revents
    var index: int
    var handlers: set<Callback>         // the callbacks that are set

    constructor (poller: EpollPoller, fd: Fd)
      ensures this.poller == poller && this.fd == fd
      ensures interest == NO_EVENT && revents == NO_REVENTS && index == -1 && handlers == {}
    {
      this.poller, this.fd := poller, fd;
      interest, revents, index, handlers := NO_EVENT, NO_REVENTS, -1, {};
    }

    /** setReadCallback and its like. */
    method SetCallback(c: Callback)
      modifies this`handlers
      ensures handlers == old(handlers) + {c}
    {
      handlers := handlers + {c};
    }

    ghost predicate Registered()
      reads this, poller
    {
      index >= 0 && fd in poller.kernel && poller.kernel[fd] == Registration(this, interest) &&
      fd in poller.channels && poller.channels[fd] == this
    }

    ghost predicate Free()
      reads this, poller
    {
      index < 0 && fd !in poller.kernel
    }

    /** What every enable and disable call does with the new interest. */
    twostate predicate UpdatedTo(i: Interest)
      reads this, poller
    {
      var o := AfterUpdate(old(poller.View()), this, fd, i, old(index));
      && interest == i && revents == old(revents) && handlers == old(handlers)
      && poller.View() == o.tables && index == o.index
    }

    method EnableReading()
      modifies this, poller
      ensures UpdatedTo(old(interest).(reading := true))
      ensures old(Registered() || Free()) ==> Registered()
    {
      interest := interest.(reading := true);
      poller.UpdateChannel(this);
    }

    method DisableReading()
      modifies this, poller
      ensures UpdatedTo(old(interest).(reading := false))
      ensures old(Registered() || Free()) ==> Registered()
    {
      interest := interest.(reading := false);
      poller.UpdateChannel(this);
    }

    method EnableWriting()
      modifies this, poller
      ensures UpdatedTo(old(interest).(writing := true))
      ensures old(Registered() || Free()) ==> Registered()
    {
      interest := interest.(writing := true);
      poller.UpdateChannel(this);
    }

    method DisableWriting()
      modifies this, poller
      ensures UpdatedTo(old(interest).(writing := false))
      ensures old(Registered() || Free()) ==> Registered()
    {
      interest := interest.(writing := false);
      poller.UpdateChannel(this);
    }

    method DisableAll()
      modifies this, poller
      ensures UpdatedTo(NO_EVENT)
      ensures old(Registered() || Free()) ==> Registered()
    {
      interest := NO_EVENT;
      poller.UpdateChannel(this);
    }

    method Remove()
      modifies this, poller
      ensures interest == old(interest) && revents == old(revents) && handlers == old(handlers)
      ensures var o := AfterRemove(old(poller.View()), this, fd, interest, old(index));
        poller.View() == o.tables && index == o.index
      ensures old(Registered()) ==> Free() && fd !in poller.channels
    {
      poller.RemoveChannel(this);
    }

    /** The callbacks that run, in order; revents_ is cleared before the first one. */
    method HandleEvent() returns (calls: seq<Callback>)
      modifies this`revents
      ensures calls == Dispatch(old(revents), handlers) && revents == NO_REVENTS
      ensures RunsExactly(calls, old(revents), handlers)
    {
      hide RunsExactly;
      DispatchExactly(revents, handlers);
      var r := revents;
      revents := NO_REVENTS;
      calls := [];
      if r.error && OnError in handlers { calls := calls + [OnError]; }
      if r.close && OnClose in handlers { calls := calls + [OnClose]; }
      if r.read && OnRead in handlers { calls := calls + [OnRead]; }
      if r.write && OnWrite in handlers { calls := calls + [OnWrite]; }
    }
  }

  class EpollPoller {
    var channels: map<Fd, Channel>
    var kernel: map<Fd, Registration<Channel>>
    var capacity: nat

    constructor ()
      ensures View() == Tables(map[], map[]) && capacity == 16
    {
      channels, kernel, capacity := map[], map[], 16;
    }

    function View(): Tables<Channel>
      reads this
    {
      Tables(channels, kernel)
    }

    method UpdateChannel(channel: Channel)
      modifies this`channels, this`kernel, channel`index
      ensures var o := AfterUpdate(old(View()), channel, channel.fd, channel.interest, old(channel.index));
        View() == o.tables && channel.index == o.index
    {
      var op := if channel.index < 0 then Add else Mod;
      Ctl(op, channel);
    }

    method RemoveChannel(channel: Channel)
      modifies this`channels, this`kernel, channel`index
      ensures var o := AfterRemove(old(View()), channel, channel.fd, channel.interest, old(channel.index));
        View() == o.tables && channel.index == o.index
    {
      Ctl(Del, channel);
      channels := channels - {channel.fd};
    }

    method Ctl(op: CtlOp, channel: Channel)
      modifies this`channels, this`kernel, channel`index
      ensures var o := AfterCtl(old(View()), op, channel, channel.fd, channel.interest, old(channel.index));
        View() == o.tables && channel.index == o.index
    {
      match EpollCtl(kernel, op, channel.fd, Registration(channel, channel.interest))
      case None => return;
      case Some(k) =>
        kernel := k;
        channel.index := if op.Del? then -1 else 0;
        if !op.Del? {
          channels := channels[channel.fd := channel];
        }
    }

    /** epoll_wait reports registered channels, each at most once, within the event array. */
    method Poll(ready: seq<(Channel, EpollFlags)>) returns (active: seq<Channel>)
      requires |ready| <= capacity
      requires forall i, j | 0 <= i < j < |ready| :: ready[i].0 != ready[j].0
      modifies this`capacity, (set i | 0 <= i < |ready| :: ready[i].0)`revents
      ensures |active| == |ready|
      ensures forall i | 0 <= i < |ready| ::
        active[i] == ready[i].0 && active[i].revents == Translate(ready[i].1)
      // EPOLLIN, EPOLLPRI or EPOLLRDHUP: read; EPOLLOUT: write; EPOLLERR: error; EPOLLHUP: close.
      ensures forall i | 0 <= i < |ready| ::
        var f, r := ready[i].1, active[i].revents;
        && (r.read <==> f.epollIn || f.pri || f.rdhup) && (r.write <==> f.out)
        && (r.error <==> f.err) && (r.close <==> f.hup)
      ensures capacity == if ready != [] && |ready| == old(capacity) then 2 * old(capacity) else old(capacity)
    {
      active := [];
      var i := 0;
      while i < |ready|
        invariant 0 <= i <= |ready| && |active| == i
        invariant capacity == old(capacity)
        invariant forall j | 0 <= j < i ::
          active[j] == ready[j].0 && active[j].revents == Translate(ready[j].1)
      {
        var channel := ready[i].0;
        channel.revents := Translate(ready[i].1);
        active := active + [channel];
        i := i + 1;
      }
      if |ready| > 0 && |ready| == capacity {
        capacity := 2 * capacity;
      }
    }
  }
}
