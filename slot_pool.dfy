/**
 * The correlation table: `n` slots, each empty (null) or holding a message,
 * and the FIFO queue of free slot ids. This module states, on plain values,
 * what the client's methods do to the table and queue, and when the
 * "every id is either free or owned by exactly one waiting request"
 * invariant survives.
 */
module SlotPool {

  /** A heartbeat message; the client only reads and writes its message id. */
  class HBMessage {
    var messageId: int

    constructor (id: int)
      ensures messageId == id
    {
      messageId := id;
    }
  }

  /** The free queue as the set-up loop fills it: 0, 1, ..., n-1 in that order. */
  function InitialQueue(n: nat): (q: seq<int>)
    ensures |q| == n
    ensures forall k :: 0 <= k < n ==> q[k] == k
  {
    if n == 0 then [] else InitialQueue(n - 1) + [n - 1]
  }

  /** The initial queue holds every id of [0, n) exactly once and nothing else. */
  lemma {:induction false} InitialQueueHoldsEachSlotOnce(n: nat)
    ensures forall x :: multiset(InitialQueue(n))[x] == (if 0 <= x < n then 1 else 0)
  {
    if n == 0 {
      assert InitialQueue(0) == [];
    } else {
      InitialQueueHoldsEachSlotOnce(n - 1);
      assert InitialQueue(n) == InitialQueue(n - 1) + [n - 1];
    }
  }

  /** A response for `id` is accepted when `id` names a slot that holds a message. */
  predicate Occupied(slots: seq<HBMessage?>, id: int)
  {
    0 <= id < |slots| && slots[id] != null
  }

  /** How often `id` is accounted for: its copies on the free queue, plus one if a request waits on it. */
  ghost function Tally(free: seq<int>, pending: set<int>, id: int): nat
  {
    multiset(free)[id] + (if id in pending then 1 else 0)
  }

  /**
   * Every id in [0, n) is counted exactly once across the free queue and the
   * set of ids whose parked request still waits for its response; nothing
   * outside [0, n) is in either, and a waiting id's slot is not empty.
   */
  ghost predicate Partitioned(n: nat, slots: seq<HBMessage?>, free: seq<int>, pending: set<int>)
  {
    && |slots| == n
    && (forall k :: 0 <= k < |free| ==> 0 <= free[k] < n)
    && (forall x :: x in pending ==> 0 <= x < n && slots[x] != null)
    && (forall x :: 0 <= x < n ==> Tally(free, pending, x) == 1)
  }

  /** A freshly set-up table (all slots empty, queue 0..n-1, nothing waiting) is partitioned. */
  lemma InitialTablePartitioned(n: nat, slots: seq<HBMessage?>)
    requires |slots| == n
    requires forall k :: 0 <= k < n ==> slots[k] == null
    ensures Partitioned(n, slots, InitialQueue(n), {})
  {
    InitialQueueHoldsEachSlotOnce(n);
  }

  /** Taking the queue head and parking a request in its slot keeps the partition. */
  lemma AcquireKeepsPartition(n: nat, slots: seq<HBMessage?>, free: seq<int>, pending: set<int>, m: HBMessage)
    requires Partitioned(n, slots, free, pending)
    requires free != []
    ensures Partitioned(n, slots[free[0] := m], free[1..], pending + {free[0]})
  {
    var head := free[0];
    assert free == [head] + free[1..];
    assert multiset(free) == multiset{head} + multiset(free[1..]);
    assert Tally(free, pending, head) == 1;
    forall x | 0 <= x < n ensures Tally(free[1..], pending + {head}, x) == 1 {
      assert Tally(free, pending, x) == 1;
    }
  }

  /** Storing the response for a waiting id and re-queueing the id keeps the partition. */
  lemma DeliverKeepsPartition(n: nat, slots: seq<HBMessage?>, free: seq<int>, pending: set<int>, id: int, m: HBMessage)
    requires Partitioned(n, slots, free, pending)
    requires id in pending
    ensures Partitioned(n, slots[id := m], free + [id], pending - {id})
  {
    assert multiset(free + [id]) == multiset(free) + multiset{id};
    forall x | 0 <= x < n ensures Tally(free + [id], pending - {id}, x) == 1 {
      assert Tally(free, pending, x) == 1;
    }
  }

  /**
   * A response for an id that is occupied but not waiting (its slot already
   * holds an earlier response) puts the id on the queue a second time.
   */
  lemma RedeliveryDuplicatesSlot(n: nat, slots: seq<HBMessage?>, free: seq<int>, pending: set<int>, id: int)
    requires Partitioned(n, slots, free, pending)
    requires Occupied(slots, id) && id !in pending
    ensures multiset(free + [id])[id] == 2
  {
    assert Tally(free, pending, id) == 1;
    assert multiset(free + [id]) == multiset(free) + multiset{id};
  }

  /**
   * Emptying a slot whose id is still waiting leaves that id off the free
   * queue with nothing in its slot: no response can put it back.
   */
  lemma ClearingWaitingSlotLosesIt(n: nat, slots: seq<HBMessage?>, free: seq<int>, pending: set<int>, id: int)
    requires Partitioned(n, slots, free, pending)
    requires id in pending
    ensures id !in free
    ensures !Occupied(slots[id := null], id)
  {
    assert Tally(free, pending, id) == 1;
  }
}
