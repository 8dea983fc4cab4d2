/** The process-wide request id counter (a std::atomic<uint64_t> starting at 0). */
module RequestIds {

  const U64_LIMIT: nat := 0x1_0000_0000_0000_0000

  class RequestIdCounter {
    var next: nat
    /** Every id handed out so far, in order. */
    ghost var issued: seq<nat>

    ghost predicate Valid()
      reads this
    {
      && next == |issued| % U64_LIMIT
      && forall i :: 0 <= i < |issued| ==> issued[i] == i % U64_LIMIT
    }

    constructor ()
      ensures Valid() && issued == [] && next == 0
    {
      next := 0;
      issued := [];
    }

    /** currentRequestId++: hands out the current value and increments with 64-bit wrap-around. */
    method FetchAndIncrement() returns (id: nat)
      requires Valid()
      modifies this
      ensures Valid()
      ensures id == old(next) && id < U64_LIMIT
      ensures next == (old(next) + 1) % U64_LIMIT
      ensures issued == old(issued) + [id]
    {
      id := next;
      next := (next + 1) % U64_LIMIT;
      issued := issued + [id];
    }
  }

  /** Before the counter wraps, every id handed out is strictly greater than all earlier ones. */
  lemma IssuedIdsIncrease(issued: seq<nat>, i: nat, j: nat)
    requires forall k :: 0 <= k < |issued| ==> issued[k] == k % U64_LIMIT
    requires i < j < |issued| <= U64_LIMIT
    ensures issued[i] < issued[j]
  {
  }

  /** After 2^64 requests the counter wraps and an id is handed out again. */
  lemma IssuedIdsRepeatAfterWrap(issued: seq<nat>)
    requires forall k :: 0 <= k < |issued| ==> issued[k] == k % U64_LIMIT
    requires |issued| > U64_LIMIT
    ensures issued[U64_LIMIT] == issued[0]
  {
  }
}
