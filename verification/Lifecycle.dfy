/** A server with all its event loops, connections, poller tables and descriptors as one step
    relation (TcpServer.cpp, TcpConnection.cpp, EventLoop.cpp, EpollPoller.cpp). Loop 0 accepts;
    with no other loop it also serves. One step is one functor body, one poller event of one
    channel, or one call by user code. What user callbacks do is not scripted: while a loop is not
    polling its thread may make any call at any time, so callbacks of every kind are covered. */
module Lifecycle {
  import opened Prelude
  import opened EpollModel
  import opened ConnectionStream
  import opened TcpServerModel

  type Id = nat

  datatype Functor =
    | Establish(c: Id)          // holds the connection
    | Run(c: Id, task: Task)    // captures a raw this
    | Remove(c: Id)             // holds the connection
    | Destroy(c: Id)            // holds the connection
    | Other                     // a functor of the user's

  datatype Phase = Polling | Dispatching | Draining

  datatype Loop = Loop(
    phase: Phase,
    active: seq<Id>,            // activeChannels_ still to be dispatched
    current: Option<Id>,        // the channel being dispatched
    inWriteCallback: bool,      // handleWrite of current is in its write-complete callback
    batch: seq<Functor>,        // what doPendingFunctors has still to run
    queue: seq<Functor>,        // pendingFunctors_
    tables: Tables<Id>)

  datatype Object = Object(
    conn: Conn, name: nat, loop: nat, fd: Fd,
    index: int,                 // the channel's index_
    open: bool,                 // socket_ is not reset
    established: nat,           // history: runs of connectEstablished
    destroyed: nat)             // history: runs of connectDestroyed

  /** What must never happen. */
  datatype Fault =
    | WrongThread               // assertInLoopThread fails
    | EpollCtlFailed            // ADD of a present descriptor, MOD or DEL of an absent one
    | StaleTask                 // a raw-this functor runs after connectDestroyed
    | StaleChannel              // an event is dispatched to an unregistered channel
    | DoubleClose               // a descriptor is closed that the connection does not own

  datatype Server = Server(
    loops: seq<Loop>,
    objects: map<Id, Object>,   // every connection ever made
    table: Table<Id>,
    openFds: map<Fd, Id>,       // open descriptors and whose they are
    faults: set<Fault>)

  // ---- primitive changes ----

  predicate Has(s: Server, c: Id) { c in s.objects && s.objects[c].loop < |s.loops| }

  function Blame(s: Server, bad: bool, f: Fault): Server {
    if bad then s.(faults := s.faults + {f}) else s
  }

  function Queue(s: Server, l: nat, f: Functor): Server
    requires l < |s.loops|
  {
    s.(loops := s.loops[l := s.loops[l].(queue := s.loops[l].queue + [f])])
  }

  function Put(s: Server, c: Id, o: Object): Server {
    s.(objects := s.objects[c := o])
  }

  function PutOutcome(s: Server, c: Id, r: Outcome<Id>): Server
    requires Has(s, c)
  {
    var l := s.objects[c].loop;
    Blame(Put(s.(loops := s.loops[l := s.loops[l].(tables := r.tables)]), c, s.objects[c].(index := r.index)),
          !r.ok, EpollCtlFailed)
  }

  /** Channel::update. */
  function UpdateChannel(s: Server, c: Id): Server
    requires Has(s, c)
  {
    var o := s.objects[c];
    PutOutcome(s, c, AfterUpdate(s.loops[o.loop].tables, c, o.fd, o.conn.interest, o.index))
  }

  /** Channel::remove. */
  function RemoveChannel(s: Server, c: Id): Server
    requires Has(s, c)
  {
    var o := s.objects[c];
    PutOutcome(s, c, AfterRemove(s.loops[o.loop].tables, c, o.fd, o.conn.interest, o.index))
  }

  /** The connection becomes conn; a changed interest goes to the poller. */
  function PutConn(s: Server, c: Id, conn: Conn): Server
    requires Has(s, c)
  {
    var t := Put(s, c, s.objects[c].(conn := conn));
    if conn.interest == s.objects[c].conn.interest then t else UpdateChannel(t, c)
  }

  // ---- bodies run by the thread of loop l ----

  function ConnectEstablished(s: Server, l: nat, c: Id): Server
    requires Has(s, c)
  {
    var o := s.objects[c];
    var conn := o.conn.(state := Connected, interest := o.conn.interest.(reading := true));
    UpdateChannel(Put(Blame(s, l != o.loop, WrongThread), c,
                      o.(conn := conn, established := o.established + 1)), c)
  }

  function CloseFd(s: Server, c: Id): Server
    requires Has(s, c)
  {
    var o := s.objects[c];
    var t := Put(s, c, o.(open := false, destroyed := o.destroyed + 1));
    Blame(t.(openFds := t.openFds - {o.fd}), !(o.fd in s.openFds && s.openFds[o.fd] == c), DoubleClose)
  }

  function ConnectDestroyed(s: Server, l: nat, c: Id): Server
    requires Has(s, c)
  {
    var o := s.objects[c];
    var s1 := Put(Blame(s, l != o.loop, WrongThread), c, o.(conn := o.conn.(interest := NO_EVENT)));
    CloseFd(RemoveChannel(UpdateChannel(s1, c), c), c)
  }

  function RemoveConnectionInLoop(s: Server, l: nat, c: Id): Server
    requires Has(s, c)
  {
    var (t, erased) := Erase(s.table, s.objects[c].name);
    var s1 := Blame(s.(table := t), l != 0, WrongThread);
    if erased then Queue(s1, s.objects[c].loop, Destroy(c)) else s1
  }

  /** handleClose up to the user's connection callback: removeConnection runs inline on loop 0. */
  function HandleClose(s: Server, l: nat, c: Id): Server
    requires Has(s, c)
  {
    var s1 := Put(s, c, s.objects[c].(conn := Closed(s.objects[c].conn)));
    if l == 0 then RemoveConnectionInLoop(s1, l, c) else Queue(s1, 0, Remove(c))
  }

  function RunFunctor(s: Server, l: nat, f: Functor, n: int): Server
    requires f.Other? || Has(s, f.c)
    requires f.Run? && f.task.SendTask? ==> n <= |f.task.data|
  {
    match f
    case Establish(c) => ConnectEstablished(s, l, c)
    case Destroy(c) => ConnectDestroyed(s, l, c)
    case Remove(c) => RemoveConnectionInLoop(s, l, c)
    case Run(c, task) =>
      var s1 := Blame(Blame(s, !s.objects[c].open, StaleTask), l != s.objects[c].loop, WrongThread);
      if task.CloseTask? then HandleClose(s1, l, c) else PutConn(s1, c, RunTask(s1.objects[c].conn, task, n))
    case Other => s
  }

  // ---- steps ----

  datatype Thread = OnLoop(l: nat) | Foreign

  datatype Event =
    | Accept(c: Id, fd: Fd, l: nat)             // newConnection
    | PollReturn(l: nat, ready: seq<Id>)
    | NextChannel(l: nat)
    | ReadReady(l: nat, n: int)                 // handleRead; n is what readFd returned
    | WriteReady(l: nat, n: int)                // handleWrite; n is what send returned
    | FinishWriteEvent(l: nat)                  // its write-complete callback returns
    | CloseReady(l: nat)                        // EPOLLERR or EPOLLHUP
    | StartDrain(l: nat)
    | RunNext(l: nat, n: int)
    | EndDrain(l: nat)
    | UserSend(t: Thread, c: Id, data: seq<Byte>, n: int)
    | UserSendBuffer(t: Thread, c: Id, data: seq<Byte>)
    | UserShutdown(t: Thread, c: Id)
    | UserForceClose(t: Thread, c: Id)
    | UserQueue(t: Thread, l: nat)

  predicate CanCall(s: Server, t: Thread) {
    t.OnLoop? ==> t.l < |s.loops| && !s.loops[t.l].phase.Polling?
  }

  /** The loop is dispatching and not inside a handler. */
  predicate Dispatches(s: Server, l: nat) {
    l < |s.loops| && s.loops[l].phase.Dispatching? && !s.loops[l].inWriteCallback
  }

  predicate Handling(s: Server, l: nat) {
    Dispatches(s, l) && s.loops[l].current.Some? && Has(s, s.loops[l].current.value)
  }

  function Current(s: Server, l: nat): Id
    requires Handling(s, l)
  {
    s.loops[l].current.value
  }

  predicate Watched(t: Tables<Id>, c: Id) {
    exists fd <- t.kernel :: t.kernel[fd].owner == c
  }

  predicate Enabled(s: Server, e: Event) {
    match e
    case Accept(c, fd, l) =>
      // The kernel hands out a descriptor that is not open. Pool loops, if any, serve.
      Dispatches(s, 0) && c !in s.objects && fd !in s.openFds &&
      l < |s.loops| && (|s.loops| > 1 ==> l != 0)
    case PollReturn(l, ready) =>
      l < |s.loops| && s.loops[l].phase.Polling? && forall c <- ready :: Watched(s.loops[l].tables, c)
    case NextChannel(l) => Dispatches(s, l) && s.loops[l].active != []
    case ReadReady(l, n) => Handling(s, l)
    case WriteReady(l, n) => Handling(s, l) && n <= |s.objects[Current(s, l)].conn.out|
    case FinishWriteEvent(l) =>
      l < |s.loops| && s.loops[l].inWriteCallback && s.loops[l].current.Some? && Has(s, s.loops[l].current.value)
    case CloseReady(l) => Handling(s, l)
    case StartDrain(l) => Dispatches(s, l) && s.loops[l].active == []
    case RunNext(l, n) =>
      && l < |s.loops| && s.loops[l].phase.Draining? && s.loops[l].batch != []
      && var f := s.loops[l].batch[0];
      && (f.Other? || Has(s, f.c)) && (f.Run? && f.task.SendTask? ==> n <= |f.task.data|)
    case EndDrain(l) => l < |s.loops| && s.loops[l].phase.Draining? && s.loops[l].batch == []
    case UserSend(t, c, data, n) => CanCall(s, t) && Has(s, c) && n <= |data|
    case UserSendBuffer(t, c, data) => CanCall(s, t) && Has(s, c)
    case UserShutdown(t, c) => CanCall(s, t) && Has(s, c)
    case UserForceClose(t, c) => CanCall(s, t) && Has(s, c)
    case UserQueue(t, l) => CanCall(s, t) && l < |s.loops|
  }

  function SetLoop(s: Server, l: nat, loop: Loop): Server
    requires l < |s.loops|
  {
    s.(loops := s.loops[l := loop])
  }

  /** The result of a public call: the connection, and a functor for its loop if there is one. */
  function AfterCall(s: Server, c: Id, r: (Conn, Option<Task>)): Server
    requires Has(s, c)
  {
    var s1 := PutConn(s, c, r.0);
    match r.1
    case None => s1
    case Some(task) => Queue(s1, s.objects[c].loop, Run(c, task))
  }

  function NewObject(s: Server, fd: Fd, l: nat): Object {
    Object(Conn(Connecting, NO_EVENT, [], [], [], None), s.table.nextConnId, l, fd, -1, true, 0, 0)
  }

  function AcceptConnection(s: Server, c: Id, fd: Fd, l: nat): Server
    requires l < |s.loops|
  {
    var s1 := Put(s.(table := Insert(s.table, c), openFds := s.openFds[fd := c]), c, NewObject(s, fd, l));
    // runInLoop: inline when the serving loop is the accepting one.
    if l == 0 then ConnectEstablished(s1, 0, c) else Queue(s1, l, Establish(c))
  }

  /** An event reaches the current channel. */
  function Dispatched(s: Server, l: nat): Server
    requires Handling(s, l)
  {
    Blame(s, s.objects[Current(s, l)].index < 0, StaleChannel)
  }

  function WriteEvent(s: Server, l: nat, n: int): Server
    requires Handling(s, l) && n <= |s.objects[Current(s, l)].conn.out|
  {
    var c := Current(s, l);
    var (conn, outcome) := WriteSome(s.objects[c].conn, n);
    match outcome
    case SendFailed => HandleClose(s, l, c)
    case Drained =>
      var s1 := PutConn(s, c, conn);
      SetLoop(s1, l, s1.loops[l].(inWriteCallback := true))
    case _ => PutConn(s, c, conn)
  }

  function Inside(s: Server, t: Thread, c: Id): bool
    requires c in s.objects
  {
    t.OnLoop? && t.l == s.objects[c].loop
  }

  function Step(s: Server, e: Event): Server
    requires Enabled(s, e)
  {
    match e
    case Accept(c, fd, l) => AcceptConnection(s, c, fd, l)
    case PollReturn(l, ready) => SetLoop(s, l, s.loops[l].(phase := Dispatching, active := ready))
    case NextChannel(l) =>
      SetLoop(s, l, s.loops[l].(current := Some(s.loops[l].active[0]), active := s.loops[l].active[1..]))
    case ReadReady(l, n) =>
      if n > 0 then Dispatched(s, l) else HandleClose(Dispatched(s, l), l, Current(s, l))
    case WriteReady(l, n) => WriteEvent(Dispatched(s, l), l, n)
    case FinishWriteEvent(l) =>
      var c := s.loops[l].current.value;
      var s1 := Blame(s, s.objects[c].index < 0, StaleChannel);
      PutConn(SetLoop(s1, l, s.loops[l].(inWriteCallback := false)), c, FinishWrite(s.objects[c].conn))
    case CloseReady(l) => HandleClose(Dispatched(s, l), l, Current(s, l))
    case StartDrain(l) =>
      SetLoop(s, l, s.loops[l].(phase := Draining, current := None, batch := s.loops[l].queue, queue := []))
    case RunNext(l, n) =>
      RunFunctor(SetLoop(s, l, s.loops[l].(batch := s.loops[l].batch[1..])), l, s.loops[l].batch[0], n)
    case EndDrain(l) => SetLoop(s, l, s.loops[l].(phase := Polling))
    case UserSend(t, c, data, n) => AfterCall(s, c, Send(s.objects[c].conn, Inside(s, t, c), data, n))
    case UserSendBuffer(t, c, data) => AfterCall(s, c, SendBuffer(s.objects[c].conn, Inside(s, t, c), data))
    case UserShutdown(t, c) => AfterCall(s, c, Shutdown(s.objects[c].conn, Inside(s, t, c)))
    case UserForceClose(t, c) => AfterCall(s, c, ForceClose(s.objects[c].conn))
    case UserQueue(t, l) => Queue(s, l, Other)
  }

  const IDLE_LOOP := Loop(Polling, [], None, false, [], [], Tables(map[], map[]))

  /** threadNum_ pool loops beside the accepting one. */
  function Init(threadNum: nat): Server {
    Server(seq(threadNum + 1, i => IDLE_LOOP), map[], Table(1, map[]), map[], {})
  }

  predicate IsRun(s: Server, es: seq<Event>)
    decreases |es|
  {
    es == [] || (Enabled(s, es[0]) && IsRun(Step(s, es[0]), es[1..]))
  }

  function After(s: Server, es: seq<Event>): Server
    requires IsRun(s, es)
    decreases |es|
  {
    if es == [] then s else After(Step(s, es[0]), es[1..])
  }
}
