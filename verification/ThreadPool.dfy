/** The worker pool over the task queue as a step relation (muduox/net/core/ThreadPool.cpp,
    muduox/net/core/BlockQueue.h). Producers, the stopping thread and the workers interleave at the
    mutex; notifications come after the lock is released, and workers may wake for no reason. */
module ThreadPoolModel {
  import opened Prelude
  import opened BlockQueueModel

  type Task = nat   // a task's identity

  datatype Worker =
    | Ready                     // about to call pop
    | Asleep                    // in cond_.wait
    | Woken                     // woken, not yet rechecked
    | Busy(task: Task)
    | Exited

  datatype Pool = Pool(
    queue: seq<Task>, stopped: bool,
    workers: seq<Worker>,
    owed: nat,                  // notify_one calls still to come
    owedAll: bool,              // the notify_all of stop is still to come
    pushed: seq<Task>, taken: seq<Task>)  // history

  datatype Event =
    | Push(x: Task)
    | Notify(waked: Option<nat>)
    | Spurious(w: nat)
    | TryPop(w: nat)
    | Finish(w: nat)
    | Stop
    | NotifyAll

  /** max(1, numThreads) workers. */
  function Init(numThreads: int): Pool {
    Pool([], false, seq(Max(1, numThreads), i => Ready), 0, false, [], [])
  }

  predicate IsAsleep(p: Pool, w: nat) { w < |p.workers| && p.workers[w].Asleep? }

  predicate SomeAsleep(workers: seq<Worker>) { exists w | 0 <= w < |workers| :: workers[w].Asleep? }

  predicate Enabled(p: Pool, e: Event) {
    match e
    case Push(x) => true
    case Notify(w) =>
      // notify_one wakes one sleeper if there is any.
      p.owed > 0 && (if SomeAsleep(p.workers) then w.Some? && IsAsleep(p, w.value) else w.None?)
    case Spurious(w) => IsAsleep(p, w)
    case TryPop(w) => w < |p.workers| && (p.workers[w].Ready? || p.workers[w].Woken?)
    case Finish(w) => w < |p.workers| && p.workers[w].Busy?
    case Stop => true
    case NotifyAll => p.owedAll
  }

  function WakeAll(workers: seq<Worker>): seq<Worker> {
    if workers == [] then [] else [if workers[0].Asleep? then Woken else workers[0]] + WakeAll(workers[1..])
  }

  function Step(p: Pool, e: Event): Pool
    requires Enabled(p, e)
  {
    match e
    case Push(x) => p.(queue := p.queue + [x], pushed := p.pushed + [x], owed := p.owed + 1)
    case Notify(w) =>
      p.(owed := p.owed - 1, workers := if w.Some? then p.workers[w.value := Woken] else p.workers)
    case Spurious(w) => p.(workers := p.workers[w := Woken])
    case TryPop(w) =>
      (match Pop(p.queue, p.stopped)
       case Sleeps => p.(workers := p.workers[w := Asleep])
       case Leaves => p.(workers := p.workers[w := Exited])
       case Takes(task) =>
         p.(workers := p.workers[w := Busy(task)], queue := p.queue[1..], taken := p.taken + [task]))
    case Finish(w) => p.(workers := p.workers[w := Ready])
    case Stop => p.(stopped := true, owedAll := true)
    case NotifyAll => p.(workers := WakeAll(p.workers), owedAll := false)
  }

  predicate IsRun(p: Pool, es: seq<Event>)
    decreases |es|
  {
    es == [] || (Enabled(p, es[0]) && IsRun(Step(p, es[0]), es[1..]))
  }

  function After(p: Pool, es: seq<Event>): Pool
    requires IsRun(p, es)
    decreases |es|
  {
    if es == [] then p else After(Step(p, es[0]), es[1..])
  }

  // ---- counting ----

  function Weight(w: Worker): nat {
    match w
    case Exited => 0
    case Ready => 1
    case Woken => 1
    case Asleep => 2
    case Busy(_) => 2
  }

  /** Worker steps left after stop. */
  function Work(workers: seq<Worker>): nat {
    if workers == [] then 0 else Weight(workers[0]) + Work(workers[1..])
  }

  function CountWoken(workers: seq<Worker>): nat {
    if workers == [] then 0 else (if workers[0].Woken? then 1 else 0) + CountWoken(workers[1..])
  }

  lemma {:induction false} Updated(workers: seq<Worker>, w: nat, v: Worker)
    requires w < |workers|
    ensures CountWoken(workers[w := v]) + (if workers[w].Woken? then 1 else 0)
         == CountWoken(workers) + (if v.Woken? then 1 else 0)
    ensures Work(workers[w := v]) + Weight(workers[w]) == Work(workers) + Weight(v)
  {
    if w == 0 {
      assert workers[w := v][1..] == workers[1..];
    } else {
      assert workers[w := v][1..] == workers[1..][w - 1 := v];
      Updated(workers[1..], w - 1, v);
    }
  }

  lemma {:induction false} WokenAll(workers: seq<Worker>)
    ensures |WakeAll(workers)| == |workers| && Work(WakeAll(workers)) <= Work(workers)
    ensures SomeAsleep(workers) ==> Work(WakeAll(workers)) < Work(workers)
    ensures forall w | 0 <= w < |workers| ::
      WakeAll(workers)[w] == if workers[w].Asleep? then Woken else workers[w]
  {
    if workers != [] {
      WokenAll(workers[1..]);
      if SomeAsleep(workers) && !workers[0].Asleep? {
        var w :| 0 <= w < |workers| && workers[w].Asleep?;
        assert workers[1..][w - 1].Asleep?;
      }
    }
  }

  // ---- the invariant ----

  ghost predicate Inv(p: Pool) {
    // FIFO, each push taken at most once.
    && p.pushed == p.taken + p.queue
    // While a worker sleeps, every queued task has a wakeup on its way.
    && (!p.stopped && SomeAsleep(p.workers) ==> |p.queue| <= CountWoken(p.workers) + p.owed)
    // Nobody leaves before stop; after its notify_all nobody sleeps.
    && (!p.stopped ==> !p.owedAll && forall w | 0 <= w < |p.workers| :: !p.workers[w].Exited?)
    && (p.stopped && !p.owedAll ==> !SomeAsleep(p.workers))
  }

  lemma StepKeeps(p: Pool, e: Event)
    requires Inv(p) && Enabled(p, e)
    ensures Inv(Step(p, e))
  {
    match e
    case Push(x) =>
    case Notify(w) =>
      if w.Some? {
        Updated(p.workers, w.value, Woken);
      }
    case Spurious(w) => Updated(p.workers, w, Woken);
    case TryPop(w) =>
      if Pop(p.queue, p.stopped).Takes? {
        Updated(p.workers, w, Busy(p.queue[0]));
        assert p.taken + p.queue == p.taken + [p.queue[0]] + p.queue[1..];
      }
    case Finish(w) => Updated(p.workers, w, Ready);
    case Stop =>
    case NotifyAll => WokenAll(p.workers);
  }

  lemma {:induction false} RunKeeps(p: Pool, es: seq<Event>)
    requires Inv(p) && IsRun(p, es)
    ensures Inv(After(p, es))
    decreases |es|
  {
    if es != [] {
      StepKeeps(p, es[0]);
      RunKeeps(Step(p, es[0]), es[1..]);
    }
  }

  lemma {:induction false} WorkersStay(p: Pool, es: seq<Event>)
    requires IsRun(p, es)
    ensures |After(p, es).workers| == |p.workers|
    decreases |es|
  {
    if es != [] {
      if es[0].NotifyAll? {
        WokenAll(p.workers);
      }
      WorkersStay(Step(p, es[0]), es[1..]);
    }
  }

  // ---- what whole runs give ----

  /** The pool has as many workers as asked for, and at least one, in every state of every run. */
  lemma PoolSize(numThreads: int, es: seq<Event>)
    requires IsRun(Init(numThreads), es)
    ensures |After(Init(numThreads), es).workers| == if numThreads >= 1 then numThreads else 1
    ensures forall w | 0 <= w < |Init(numThreads).workers| :: Init(numThreads).workers[w].Ready?
  {
    WorkersStay(Init(numThreads), es);
  }

  /** A worker that takes a task runs that task, the head of the queue, and no other worker changes. */
  lemma TakerRunsHead(p: Pool, w: nat)
    requires Enabled(p, TryPop(w)) && !p.stopped && p.queue != []
    ensures var q := Step(p, TryPop(w));
      && q.queue == p.queue[1..] && q.taken == p.taken + [p.queue[0]] && |q.workers| == |p.workers|
      && q.workers[w] == Busy(p.queue[0]) && forall v | 0 <= v < |p.workers| && v != w :: q.workers[v] == p.workers[v]
  {
  }

  /** Tasks are taken in the order they were pushed, each at most once. */
  lemma TakenInOrder(numThreads: int, es: seq<Event>)
    requires IsRun(Init(numThreads), es)
    ensures var p := After(Init(numThreads), es); p.taken <= p.pushed && p.pushed[|p.taken|..] == p.queue
  {
    RunKeeps(Init(numThreads), es);
  }

  /** Before stop, while any worker sleeps there is for every queued task a worker that is awake to
      recheck or a notification still to come; so a task never waits beside sleeping workers once
      all notifications are delivered and all woken workers have rechecked. */
  lemma SleepersAreCovered(numThreads: int, es: seq<Event>)
    requires IsRun(Init(numThreads), es)
    ensures var p := After(Init(numThreads), es);
      && (!p.stopped && SomeAsleep(p.workers) ==> |p.queue| <= CountWoken(p.workers) + p.owed)
      && (!p.stopped && p.queue != [] && p.owed == 0 && CountWoken(p.workers) == 0 ==>
            forall w | 0 <= w < |p.workers| :: p.workers[w].Ready? || p.workers[w].Busy?)
  {
    var p := After(Init(numThreads), es);
    RunKeeps(Init(numThreads), es);
    if CountWoken(p.workers) == 0 {
      NoneWoken(p.workers);
    }
  }

  lemma {:induction false} NoneWoken(workers: seq<Worker>)
    requires CountWoken(workers) == 0
    ensures forall w | 0 <= w < |workers| :: !workers[w].Woken?
  {
    if workers != [] {
      NoneWoken(workers[1..]);
      assert forall w | 1 <= w < |workers| :: workers[w] == workers[1..][w - 1];
    }
  }

  /** A queued task before stop never leaves the pool stuck. */
  lemma QueueMakesProgress(numThreads: int, es: seq<Event>)
    requires IsRun(Init(numThreads), es)
    requires var p := After(Init(numThreads), es); !p.stopped && p.queue != []
    ensures var p := After(Init(numThreads), es);
      exists e: Event :: Enabled(p, e) && (e.Notify? || e.TryPop? || e.Finish?)
  {
    var p := After(Init(numThreads), es);
    RunKeeps(Init(numThreads), es);
    WorkersStay(Init(numThreads), es);
    if p.owed > 0 {
      if SomeAsleep(p.workers) {
        var w: nat :| w < |p.workers| && p.workers[w].Asleep?;
        assert Enabled(p, Notify(Some(w)));
      } else {
        assert Enabled(p, Notify(None));
      }
    } else if CountWoken(p.workers) > 0 {
      var w := FindWoken(p.workers);
      assert Enabled(p, TryPop(w));
    } else {
      NoneWoken(p.workers);
      if p.workers[0].Ready? {
        assert Enabled(p, TryPop(0));
      } else {
        assert Enabled(p, Finish(0));
      }
    }
  }

  lemma {:induction false} FindWoken(workers: seq<Worker>) returns (w: nat)
    requires CountWoken(workers) > 0
    ensures w < |workers| && workers[w].Woken?
  {
    if workers[0].Woken? {
      w := 0;
    } else {
      var v := FindWoken(workers[1..]);
      w := v + 1;
    }
  }

  // ---- after stop ----

  /** A step of a worker, or the notify_all that lets sleeping ones go on. */
  predicate WorkerStep(p: Pool, e: Event) {
    e.TryPop? || e.Finish? || (e.NotifyAll? && SomeAsleep(p.workers))
  }

  function WorkerSteps(p: Pool, es: seq<Event>): nat
    requires IsRun(p, es)
    decreases |es|
  {
    if es == [] then 0
    else (if WorkerStep(p, es[0]) then 1 else 0) + WorkerSteps(Step(p, es[0]), es[1..])
  }

  lemma StoppedStep(p: Pool, e: Event)
    requires Enabled(p, e) && p.stopped
    ensures var q := Step(p, e);
      && q.stopped && q.taken == p.taken
      && Work(q.workers) + (if WorkerStep(p, e) then 1 else 0) <= Work(p.workers)
  {
    match e
    case Push(x) =>
    case Notify(w) =>
      if w.Some? {
        Updated(p.workers, w.value, Woken);
      }
    case Spurious(w) => Updated(p.workers, w, Woken);
    case TryPop(w) => Updated(p.workers, w, Exited);
    case Finish(w) => Updated(p.workers, w, Ready);
    case Stop =>
    case NotifyAll => WokenAll(p.workers);
  }

  /** After stop no task is taken, the workers take at most Work more steps in all, whatever else
      happens, and while one of them has not left such a step is possible. */
  lemma {:induction false} StoppedPoolEnds(p: Pool, es: seq<Event>)
    requires Inv(p) && IsRun(p, es) && p.stopped
    ensures var q := After(p, es);
      && q.taken == p.taken && WorkerSteps(p, es) + Work(q.workers) <= Work(p.workers)
      && ((exists w | 0 <= w < |q.workers| :: !q.workers[w].Exited?) ==>
            exists e: Event :: Enabled(q, e) && WorkerStep(q, e))
    decreases |es|
  {
    if es != [] {
      StepKeeps(p, es[0]);
      StoppedStep(p, es[0]);
      StoppedPoolEnds(Step(p, es[0]), es[1..]);
    } else if w: nat :| w < |p.workers| && !p.workers[w].Exited? {
      StoppedPoolGoesOn(p, w);
    }
  }

  lemma StoppedPoolGoesOn(p: Pool, w: nat)
    requires Inv(p) && p.stopped && w < |p.workers| && !p.workers[w].Exited?
    ensures exists e: Event :: Enabled(p, e) && WorkerStep(p, e)
  {
    match p.workers[w]
    case Ready => assert Enabled(p, TryPop(w)) && WorkerStep(p, TryPop(w));
    case Woken => assert Enabled(p, TryPop(w)) && WorkerStep(p, TryPop(w));
    case Busy(_) => assert Enabled(p, Finish(w)) && WorkerStep(p, Finish(w));
    case Asleep => assert Enabled(p, NotifyAll) && WorkerStep(p, NotifyAll);
    case Exited =>
  }
}
