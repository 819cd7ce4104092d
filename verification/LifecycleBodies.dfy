/** What the bodies that make, remove and destroy connections do to the server, part by part. */
module LifecycleBodies {
  import opened Prelude
  import opened EpollModel
  import opened ConnectionStream
  import opened TcpServerModel
  import opened Lifecycle
  import opened LifecycleInvariant
  import opened LifecycleSafety

  /** Nothing but the queue of loop l differs, and it has only this functor more. */
  ghost predicate QueuesOnly(s: Server, t: Server, l: nat, f: Functor) {
    && l < |s.loops| && |t.loops| == |s.loops|
    && t.loops[l] == s.loops[l].(queue := s.loops[l].queue + [f])
    && forall k | 0 <= k < |s.loops| && k != l :: t.loops[k] == s.loops[k]
  }

  /** removeConnectionInLoop takes the connection's name, and no other, out of connections_, and queues
      connectDestroyed on the connection's loop exactly if the name was there. */
  lemma RemovalExactly(s: Server, l: nat, c: Id)
    requires Has(s, c)
    ensures var t, name := RemoveConnectionInLoop(s, l, c), s.objects[c].name;
      && t.objects == s.objects && t.openFds == s.openFds && t.table.nextConnId == s.table.nextConnId
      && name !in t.table.connections
      && (forall n | n != name :: (n in t.table.connections <==> n in s.table.connections)
            && (n in s.table.connections ==> t.table.connections[n] == s.table.connections[n]))
      && (if name in s.table.connections then QueuesOnly(s, t, s.objects[c].loop, Destroy(c)) else t.loops == s.loops)
  {
  }

  /** handleClose closes the connection, and no other, and has it removed: at once on the accepting
      loop, by a functor queued there from any other. */
  lemma HandleCloseExactly(s: Server, l: nat, c: Id)
    requires Has(s, c) && l < |s.loops|
    ensures var t, o := HandleClose(s, l, c), s.objects[c];
      && t.objects == s.objects[c := o.(conn := o.conn.(state := Disconnected))] && t.openFds == s.openFds
      && (l != 0 ==> QueuesOnly(s, t, 0, Remove(c)) && t.table == s.table)
      && (l == 0 ==> o.name !in t.table.connections)
      && (l == 0 && o.name in s.table.connections ==> QueuesOnly(s, t, o.loop, Destroy(c)))
      && (l == 0 && o.name !in s.table.connections ==> t.loops == s.loops)
  {
  }

  /** connectEstablished on a connection that is not registered yet. */
  lemma EstablishedExactly(s: Server, c: Id)
    requires Unregistered(s, c) && s.objects[c].fd in s.openFds && s.openFds[s.objects[c].fd] == c
    ensures var t, o := ConnectEstablished(s, s.objects[c].loop, c), s.objects[c];
      && Registered(t, c)
      && t.objects[c].conn == o.conn.(state := Connected, interest := o.conn.interest.(reading := true))
      && t.objects[c].established == o.established + 1 && t.faults == s.faults && t.openFds == s.openFds
      && t.table == s.table && (forall d | d != c :: d in t.objects <==> d in s.objects)
      && (forall d <- s.objects :: d != c ==> t.objects[d] == s.objects[d])
  {
  }

  lemma DisablingExactly(s: Server, c: Id)
    requires Registered(s, c)
    ensures var o := s.objects[c];
      var s1 := Put(s, c, o.(conn := o.conn.(interest := NO_EVENT)));
      && Has(s1, c) && Has(UpdateChannel(s1, c), c)
      && var t := RemoveChannel(UpdateChannel(s1, c), c);
      && t.objects == s.objects[c := o.(conn := o.conn.(interest := NO_EVENT), index := -1)]
      && t.faults == s.faults && t.openFds == s.openFds && t.table == s.table && |t.loops| == |s.loops|
      && o.fd !in t.loops[o.loop].tables.kernel && o.fd !in t.loops[o.loop].tables.channels
  {
    var o := s.objects[c];
    var s1 := Put(s, c, o.(conn := o.conn.(interest := NO_EVENT)));
    var s2 := UpdateChannel(s1, c);
    assert s2.objects == s.objects[c := o.(conn := o.conn.(interest := NO_EVENT), index := 0)];
    assert o.fd in s2.loops[o.loop].tables.kernel && s2.faults == s.faults;
    hide UpdateChannel;
  }

  /** connectDestroyed on a registered connection: the descriptor is unregistered and then closed, and
      the object is left without a socket. */
  lemma DestroyedExactly(s: Server, c: Id)
    requires Registered(s, c)
    ensures var t, o := ConnectDestroyed(s, s.objects[c].loop, c), s.objects[c];
      && t.objects == s.objects[c := o.(conn := o.conn.(interest := NO_EVENT), index := -1, open := false,
                                         destroyed := o.destroyed + 1)]
      && t.openFds == s.openFds - {o.fd} && t.faults == s.faults && t.table == s.table && |t.loops| == |s.loops|
      && o.fd !in t.loops[o.loop].tables.kernel && o.fd !in t.loops[o.loop].tables.channels
  {
    DisablingExactly(s, c);
    hide UpdateChannel, RemoveChannel;
  }

  /** A new connection gets the next name, under which it and no other is entered, and its descriptor.
      When the accepting loop serves it is established at once, and otherwise by a functor queued
      last on its loop. */
  lemma AcceptExactly(s: Server, e: Event)
    requires Enabled(s, e) && e.Accept? && e.fd !in s.loops[e.l].tables.kernel
    ensures var t, c := Step(s, e), e.c;
      && Has(t, c) && t.objects[c].loop == e.l && t.objects[c].fd == e.fd && t.objects[c].name == s.table.nextConnId
      && t.objects[c].open && t.table == Table(s.table.nextConnId + 1, s.table.connections[s.table.nextConnId := c])
      && t.openFds == s.openFds[e.fd := c] && t.faults == s.faults
      && (forall d <- s.objects :: d in t.objects && t.objects[d] == s.objects[d])
      && (e.l == 0 ==> t.objects[c].conn.state == Connected && Registered(t, c) && t.objects[c].established == 1)
      && (e.l == 0 ==> forall k | 0 <= k < |s.loops| ::
            Pending(t.loops[k]) == Pending(s.loops[k]))
      && (e.l != 0 ==> t.objects[c].conn.state == Connecting && QueuesOnly(s, t, e.l, Establish(c)))
  {
    var u := Inserted(s, e.c, e.fd, e.l);
    if e.l == 0 {
      assert Unregistered(u, e.c);
      EstablishedExactly(u, e.c);
      EstablishedQueues(u, 0, e.c);
      hide ConnectEstablished;
    }
  }

  lemma EstablishedQueues(s: Server, l: nat, c: Id)
    requires Has(s, c)
    ensures var t := ConnectEstablished(s, l, c);
      |t.loops| == |s.loops| && forall k | 0 <= k < |s.loops| :: Pending(t.loops[k]) == Pending(s.loops[k])
    ensures ConnectEstablished(s, l, c).objects[c] ==
      EstablishedObject(s.objects[c]).(index := ConnectEstablished(s, l, c).objects[c].index)
  {
  }
}
