/**
 * Clients of the Pacemaker client: short runs of its atomic steps from a
 * freshly constructed client, each proved from the steps' contracts alone.
 * They show the correlation working (a round trip, responses out of order)
 * and the two ways the slot bookkeeping goes wrong (a repeated response,
 * a send in flight across a reconnect).
 */
module PacemakerScenarios {
  import opened Wrappers
  import opened PacemakerAuth
  import opened SlotPool
  import opened Pacemaker

  /**
   * One request, its response, completion: the caller gets exactly that
   * response, and the slot id goes back to the tail of the free queue.
   */
  method RoundTripScenario() returns (request: HBMessage, response: HBMessage, got: HBMessage?, queue: seq<int>)
    ensures request.messageId == 0 && response.messageId == 0
    ensures got == response
    ensures |queue| == 100 && queue[99] == 0
    ensures forall k :: 0 <= k < 99 ==> queue[k] == k + 1
  {
    var c := new PacemakerClient(DefaultClientName, None, NONE);
    request := new HBMessage(-1);
    var next := c.AcquireSlot(request);
    response := new HBMessage(next);
    c.GotMessage(response);
    var again := c.SendAttempt(request, next);
    assert !again;
    got := c.CompleteSend(request, next);
    queue := c.availableMessageSlots;
  }

  /**
   * Two senders hold slots 0 and 1; the second one's response arrives
   * first. Each sender gets its own response.
   */
  method OutOfOrderScenario() returns (responseA: HBMessage, responseB: HBMessage, gotA: HBMessage?, gotB: HBMessage?)
    ensures responseA != responseB
    ensures gotA == responseA && gotB == responseB
  {
    var c := new PacemakerClient(DefaultClientName, None, NONE);
    var a := new HBMessage(-1);
    var nextA := c.AcquireSlot(a);
    var b := new HBMessage(-1);
    var nextB := c.AcquireSlot(b);
    assert nextA == 0 && nextB == 1;
    responseB := new HBMessage(nextB);
    c.GotMessage(responseB);
    responseA := new HBMessage(nextA);
    c.GotMessage(responseA);
    gotB := c.CompleteSend(b, nextB);
    gotA := c.CompleteSend(a, nextA);
  }

  /**
   * A request in slot 0 is answered twice before its sender reads the slot.
   * The second response is accepted as well, and id 0 ends up on the free
   * queue twice, so two later senders can be handed the same slot.
   */
  method DuplicateResponseScenario() returns (queue: seq<int>)
    ensures multiset(queue)[0] == 2
  {
    var c := new PacemakerClient(DefaultClientName, None, NONE);
    var request := new HBMessage(-1);
    var next := c.AcquireSlot(request);
    var first := new HBMessage(next);
    c.GotMessage(first);
    assert c.SlotsPartitioned() && 0 !in c.pending;
    RedeliveryDuplicatesSlot(c.maxPending, c.messages[..], c.availableMessageSlots, c.pending, 0);
    var second := new HBMessage(next);
    c.GotMessage(second);
    queue := c.availableMessageSlots;
  }

  /**
   * Sender A parks its request in slot 0; the connection is lost and
   * reconnect sets up a fresh table; sender B is then handed slot 0 too.
   * A's loop sees its request gone and returns B's request as its response;
   * B finds its slot emptied and returns null; and id 0 is left neither on
   * the free queue nor in an occupied slot, so it cannot be used again
   * until the next reconnect.
   */
  method ReconnectRaceScenario() returns (b: HBMessage, gotA: HBMessage?, gotB: HBMessage?, queue: seq<int>, slot: HBMessage?)
    ensures gotA == b
    ensures gotB == null
    ensures 0 !in queue && slot == null
  {
    var c := new PacemakerClient(DefaultClientName, None, NONE);
    var a := new HBMessage(-1);
    var nextA := c.AcquireSlot(a);
    c.Reconnect();
    b := new HBMessage(-1);
    var nextB := c.AcquireSlot(b);
    assert nextA == nextB == 0;
    var againA := c.SendAttempt(a, nextA);
    assert !againA;
    gotA := c.CompleteSend(a, nextA);
    var againB := c.SendAttempt(b, nextB);
    assert !againB;
    gotB := c.CompleteSend(b, nextB);
    queue := c.availableMessageSlots;
    assert forall k :: 0 <= k < |queue| ==> queue[k] == k + 1;
    slot := c.messages[0];
  }
}
