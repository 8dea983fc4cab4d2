/**
 * The FIFO queue the server's worker threads share, without its mutex and condition variable.
 */
module Queues {
  class ThreadSafeQueue<T> {
    /** The elements waiting, front first. */
    var queue: seq<T>
    /** Every element ever pushed, in push order. */
    ghost var pushed: seq<T>
    /** How many elements were pulled so far. */
    ghost var pulled: nat

    /** The waiting elements are exactly those pushed and not yet pulled, in push order. */
    ghost predicate Valid()
      reads this
    {
      pulled <= |pushed| && queue == pushed[pulled..]
    }

    constructor ()
      ensures Valid()
      ensures queue == [] && pushed == [] && pulled == 0
    {
      queue := [];
      pushed := [];
      pulled := 0;
    }

    /** Both push overloads: the element goes to the back. */
    method Push(element: T)
      requires Valid()
      modifies this
      ensures Valid()
      ensures queue == old(queue) + [element]
      ensures pushed == old(pushed) + [element] && pulled == old(pulled)
    {
      queue := queue + [element];
      pushed := pushed + [element];
    }

    /**
     * Takes the front element. The wait on the condition variable returns only once the queue is not
     * empty, so a call that returns finds at least one element; the n-th pull returns the n-th push.
     */
    method WaitAndPull() returns (element: T)
      requires Valid() && |queue| > 0
      modifies this
      ensures Valid()
      ensures element == old(queue)[0] && queue == old(queue)[1..]
      ensures pushed == old(pushed) && pulled == old(pulled) + 1 && element == pushed[old(pulled)]
    {
      element := queue[0];
      queue := queue[1..];
      pulled := pulled + 1;
    }

    /** The number of elements pushed and not yet pulled. */
    method Size() returns (n: nat)
      requires Valid()
      ensures n == |queue| == |pushed| - pulled
    {
      n := |queue|;
    }
  }
}
