/**
  * ResponseQueue: the FIFO through which completed responses reach the threads that wait
  * for them. Blocking is modelled by its bookkeeping: a waiter enters the wait (counted in
  * `waitingThreads`), possibly sees producers insert while it sleeps, and leaves the wait;
  * it removes an item only once the queue is not empty for it.
  */
module ResponseQueueModel {
  import opened Common
  import opened DnsTypes

  class ResponseQueue {
    var list: seq<Response>
    var waitingThreads: int

    /** The count of waiting threads never goes below zero. */
    ghost predicate Valid()
      reads this
    {
      waitingThreads >= 0
    }

    constructor ()
      ensures Valid()
      ensures list == [] && waitingThreads == 0
    {
      list := [];
      waitingThreads := 0;
    }

    /** Adds a response at the tail; waiters are untouched (notify only wakes one of them). */
    method Insert(response: Response)
      requires Valid()
      modifies this
      ensures Valid()
      ensures list == old(list) + [response]
      ensures waitingThreads == old(waitingThreads)
    {
      list := list + [response];
    }

    /**
      * Empty for the calling thread: the items do not outnumber the threads already
      * waiting for them.
      */
    function IsEmpty(): (empty: bool)
      reads this
      ensures empty <==> |list| <= waitingThreads
      ensures waitingThreads == 0 ==> (empty <==> list == [])
      ensures waitingThreads >= 0 && !empty ==> list != []
    {
      |list| - waitingThreads <= 0
    }

    /** The loop body of getItem before `wait()`: the queue was empty, so the thread counts itself. */
    method EnterWait()
      requires Valid() && IsEmpty()
      modifies this
      ensures Valid()
      ensures list == old(list)
      ensures waitingThreads == old(waitingThreads) + 1
    {
      waitingThreads := waitingThreads + 1;
    }

    /** The loop body of getItem after `wait()` returns or is interrupted. */
    method LeaveWait()
      requires Valid() && waitingThreads > 0
      modifies this
      ensures Valid()
      ensures list == old(list)
      ensures waitingThreads == old(waitingThreads) - 1
    {
      waitingThreads := waitingThreads - 1;
    }

    /**
      * One round of getItem's `while (isEmpty())` loop, during which a producer may insert
      * a response: the waiter count is back where it was and the arrival is queued.
      */
    method WaitOnce(arrival: Option<Response>)
      requires Valid() && IsEmpty()
      modifies this
      ensures Valid()
      ensures list == old(list) + (if arrival.Some? then [arrival.value] else [])
      ensures waitingThreads == old(waitingThreads)
    {
      EnterWait();
      if arrival.Some? {
        Insert(arrival.value);
      }
      LeaveWait();
    }

    /** getItem once its wait loop has exited: removes and returns the oldest response. */
    method GetItem() returns (response: Response)
      requires Valid() && !IsEmpty()
      modifies this
      ensures Valid()
      ensures old(list) != [] && response == old(list)[0]
      ensures list == old(list)[1..]
      ensures waitingThreads == old(waitingThreads)
    {
      response := list[0];
      list := list[1..];
    }
  }

  /** On an idle queue, what one producer inserts is exactly what the next consumer gets. */
  method InsertThenGet(q: ResponseQueue, r: Response) returns (got: Response)
    requires q.Valid() && q.list == [] && q.waitingThreads == 0
    modifies q
    ensures got == r
    ensures q.Valid() && q.list == [] && q.waitingThreads == 0
  {
    q.Insert(r);
    got := q.GetItem();
  }

  /** Two responses inserted in turn come out in the same order. */
  method FifoOrder(q: ResponseQueue, a: Response, b: Response) returns (first: Response, second: Response)
    requires q.Valid() && q.waitingThreads == 0
    modifies q
    ensures first == (old(q.list) + [a, b])[0]
    ensures second == (old(q.list) + [a, b])[1]
    ensures q.list == (old(q.list) + [a, b])[2..]
  {
    q.Insert(a);
    q.Insert(b);
    first := q.GetItem();
    second := q.GetItem();
  }
}
