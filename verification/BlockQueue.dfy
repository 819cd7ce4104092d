/** The task queue (muduox/net/core/BlockQueue.h): the parts of its operations that run under the
    mutex. */
module BlockQueueModel {

  /** What a consumer finds when it holds the lock: it goes to sleep, leaves, or has an element. */
  datatype PopOutcome<T> = Sleeps | Leaves | Takes(value: T)

  function Pop<T>(queue: seq<T>, stopped: bool): PopOutcome<T> {
    if queue == [] && !stopped then Sleeps
    else if stopped then Leaves
    else Takes(queue[0])
  }

  class BlockQueue<T> {
    var queue: seq<T>
    var stopped: bool
    // The calls on the condition variable that are made after the lock is released.
    var owed: nat               // notify_one
    var owedAll: bool           // notify_all

    constructor ()
      ensures queue == [] && !stopped && owed == 0 && !owedAll
    {
      queue, stopped, owed, owedAll := [], false, 0, false;
    }

    method Insert(x: T)
      modifies this`queue, this`owed
      ensures queue == old(queue) + [x] && owed == old(owed) + 1
    {
      queue := queue + [x];
      owed := owed + 1;
    }

    /** The wait predicate and, when it holds, the rest of pop. */
    method TryPop() returns (r: PopOutcome<T>)
      modifies this`queue
      ensures r == Pop(old(queue), stopped)
      ensures (r.Sleeps? <==> old(queue) == [] && !stopped) && (r.Leaves? <==> stopped)
      ensures r.Takes? ==> r.value == old(queue)[0]
      ensures queue == if r.Takes? then old(queue)[1..] else old(queue)
    {
      if queue == [] && !stopped {
        return Sleeps;
      }
      if queue == [] || stopped {
        return Leaves;
      }
      r := Takes(queue[0]);
      queue := queue[1..];
    }

    method Stop()
      modifies this`stopped, this`owedAll
      ensures stopped && owedAll
    {
      stopped, owedAll := true, true;
    }
  }
}
