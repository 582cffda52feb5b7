# Pacemaker client: connection and correlation state machine

This project models the core of Apache Storm's `PacemakerClient`, the client
side of the Pacemaker heartbeat service. The client keeps one channel to the
server. It parks every outgoing request in one of 100 correlation slots and
stamps the slot id into the request. It matches each response to its request
by that echoed id. When the connection is lost, it reconnects.

The model is in four modules (plus `Wrappers`, which holds Option and Result):

- `PacemakerAuth` (`auth.dfy`) is the pure part of the constructor. It picks the client name and maps the configured auth scheme to an auth method or a fatal error.
- `SlotPool` (`slot_pool.dfy`) covers the message class, the initial free queue and the partition invariant. The invariant says every slot id is either on the free queue or owned by exactly one waiting request. The module also proves, on plain values, which slot-table updates keep that invariant and which break it.
- `Pacemaker` (`pacemaker_client.dfy`) holds the class `PacemakerClient` with the Java client's fields: `ready`, `shutdown`, `channelRef`, `retryTimes`, the `messages` array and the `availableMessageSlots` queue. Each callback and each step of `send` is one atomic method, and each method states the whole new state.
- `PacemakerScenarios` (`scenarios.dfy`) holds short runs of those steps from a fresh client. Each run is proved from the step contracts alone.

Behaviours of `PacemakerClient.java` worth noting:

- `reconnect` resets the slot table and free queue through `setupMessaging`, including the slots of sends still in flight.
- A slot id goes back on the free queue when its response arrives in `gotMessage`. It is not returned when `send` reads the response out.
- The free queue is FIFO, so a freed id is handed out again only after every id queued before it.
- The constructor assigns a local `authMethod` that shadows the field, so the field stays null. As a result, `channelConnected` never raises `ready`.
- `shutdown` releases the transport's resources on every call.

Some effects live outside the client and are recorded in ghost fields: connects issued, channels closed, reconnect attempts handed to the timer, requests written to a channel, and resource releases.

## Model

| member | source | states |
|---|---|---|
| `PacemakerAuth.ClientName` | storm-client/src/jvm/org/apache/storm/pacemaker/PacemakerClient.java:72-75 | a configured topology name is kept as is; without one the name is the non-empty default "pacemaker-client" |
| `PacemakerAuth.ResolveAuth` | storm-client/src/jvm/org/apache/storm/pacemaker/PacemakerClient.java:77-104 | fails exactly when the scheme is absent or is DIGEST without a digest payload; the method is DIGEST iff the scheme is "DIGEST", KERBEROS iff "KERBEROS", and NONE for every other string; a secret is kept iff the method is DIGEST, and it is the digest payload |
| `Pacemaker.NewPacemakerClient` | storm-client/src/jvm/org/apache/storm/pacemaker/PacemakerClient.java:69-109 | construction fails exactly when the auth mapping fails; otherwise a fresh client with the mapped name and secret, the auth method handed to the codec, the authMethod field left null, not ready, not shut down, no channel, maxPending 100, an empty table, the queue 0..99, no waiting request and the partition invariant, empty event logs, and one connect issued |
| `Pacemaker.PacemakerClient.constructor` | storm-client/src/jvm/org/apache/storm/pacemaker/PacemakerClient.java:106-109 | flags false, no channel, retry counter 0, authMethod null, a fresh empty table of 100 slots, the queue 0..99 with every id free exactly once |
| `SlotPool.InitialQueue` | storm-client/src/jvm/org/apache/storm/pacemaker/PacemakerClient.java:133-135 | the queue the set-up loop builds has length n and holds k at position k |
| `SlotPool.InitialQueueHoldsEachSlotOnce` | storm-client/src/jvm/org/apache/storm/pacemaker/PacemakerClient.java:133-135 | the initial queue holds each id of [0, n) exactly once and nothing else |
| `SlotPool.InitialTablePartitioned` | storm-client/src/jvm/org/apache/storm/pacemaker/PacemakerClient.java:130-136 | an all-empty table with the initial queue and no waiting requests satisfies the partition invariant |
| `Pacemaker.PacemakerClient.SetupMessaging` | storm-client/src/jvm/org/apache/storm/pacemaker/PacemakerClient.java:130-136 | afterwards the table is a fresh array of maxPending empty slots, the queue is exactly 0, 1, ..., maxPending-1 in order, no request waits, and the partition invariant holds; nothing else changes |
| `Pacemaker.PacemakerClient.ChannelConnected` | storm-client/src/jvm/org/apache/storm/pacemaker/PacemakerClient.java:139-155 | a previous channel is closed and recorded before the new one is stored, so at most one channel is held; the retry counter becomes 0; ready becomes true only if the authMethod field is NONE, and since the field is never set, ready is unchanged |
| `Pacemaker.PacemakerClient.ChannelReady` | storm-client/src/jvm/org/apache/storm/pacemaker/PacemakerClient.java:158-162 | ready becomes true and nothing else changes |
| `Pacemaker.PacemakerClient.WaitUntilReady` | storm-client/src/jvm/org/apache/storm/pacemaker/PacemakerClient.java:205-218 | never waits and never fails when ready is already true, even with no channel; when not ready it waits, and it fails iff after the wait ready is false or there is no channel |
| `Pacemaker.PacemakerClient.AcquireSlot` | storm-client/src/jvm/org/apache/storm/pacemaker/PacemakerClient.java:175-178 | with a non-empty queue: removes the head, stamps it as the request's id, parks the request in that slot, leaves every other slot unchanged, marks the id as waiting, and keeps the partition invariant |
| `SlotPool.AcquireKeepsPartition` | storm-client/src/jvm/org/apache/storm/pacemaker/PacemakerClient.java:175-178 | taking the queue head and parking a request in its slot keeps every id accounted for exactly once |
| `Pacemaker.PacemakerClient.SendAttempt` | storm-client/src/jvm/org/apache/storm/pacemaker/PacemakerClient.java:180-191 | one round of the send loop writes the request to the channel exactly when the client is ready and has a channel, and goes round again exactly when the slot still holds the request |
| `Pacemaker.PacemakerClient.CompleteSend` | storm-client/src/jvm/org/apache/storm/pacemaker/PacemakerClient.java:194-201 | allowed only once the slot no longer holds the request; returns the slot's contents, which is null if the slot was emptied, empties that slot only, leaves the queue alone, and keeps the partition invariant when the id is not waiting |
| `SlotPool.ClearingWaitingSlotLosesIt` | storm-client/src/jvm/org/apache/storm/pacemaker/PacemakerClient.java:194-199 | emptying a slot whose request still waits leaves its id off the free queue with an empty slot, so no response can return it to the pool |
| `Pacemaker.PacemakerClient.GotMessage` | storm-client/src/jvm/org/apache/storm/pacemaker/PacemakerClient.java:220-241 | an id out of [0, maxPending), or naming an empty slot, changes neither the table nor the queue; otherwise the response replaces exactly that slot and the id is appended to the queue tail; the partition invariant survives when the id was waiting |
| `SlotPool.DeliverKeepsPartition` | storm-client/src/jvm/org/apache/storm/pacemaker/PacemakerClient.java:225-235 | storing the response for a waiting id and requeueing the id keeps every id accounted for exactly once |
| `SlotPool.RedeliveryDuplicatesSlot` | storm-client/src/jvm/org/apache/storm/pacemaker/PacemakerClient.java:225-235 | a response for a slot that holds a message but has no waiting request puts the id on the queue a second time, so the partition invariant cannot hold |
| `Pacemaker.PacemakerClient.Reconnect` | storm-client/src/jvm/org/apache/storm/pacemaker/PacemakerClient.java:243-253 | hands the timer the current attempt number, increments the retry counter by exactly 1, leaves ready false, and restores the fresh empty table and initial queue with the partition invariant |
| `Pacemaker.PacemakerClient.DoReconnect` | storm-client/src/jvm/org/apache/storm/pacemaker/PacemakerClient.java:255-260 | always ends with no channel (a held one is closed) and issues one new connect exactly when not shut down |
| `Pacemaker.PacemakerClient.Shutdown` | storm-client/src/jvm/org/apache/storm/pacemaker/PacemakerClient.java:262-265 | the flag is true afterwards whatever it was before, which makes the call idempotent on the flag; the resources are released once per call |
| `Pacemaker.PacemakerClient.CloseChannel` | storm-client/src/jvm/org/apache/storm/pacemaker/PacemakerClient.java:267-273 | a held channel is closed, recorded and cleared; with no channel nothing changes |
| `Pacemaker.PacemakerClient.Close` | storm-client/src/jvm/org/apache/storm/pacemaker/PacemakerClient.java:275-277 | the same effect as closing the channel |
| `PacemakerScenarios.RoundTripScenario` | storm-client/src/jvm/org/apache/storm/pacemaker/PacemakerClient.java:172-201 | a request and a response echoing its id: the sender gets exactly that response, and id 0 is back at the tail of the queue, after 1..99 |
| `PacemakerScenarios.OutOfOrderScenario` | storm-client/src/jvm/org/apache/storm/pacemaker/PacemakerClient.java:220-235 | two senders whose responses arrive in reverse order each get their own response |
| `PacemakerScenarios.DuplicateResponseScenario` | storm-client/src/jvm/org/apache/storm/pacemaker/PacemakerClient.java:227-235 | a request answered twice before its sender reads the slot leaves its id on the queue twice |
| `PacemakerScenarios.ReconnectRaceScenario` | storm-client/src/jvm/org/apache/storm/pacemaker/PacemakerClient.java:243-253 | a send in flight across a reconnect shares slot 0 with a later sender: the first sender returns the second one's request as its response, the second returns null, and id 0 is left off the queue with an empty slot |

## Left out

- Netty bootstrap, thread pools, socket options, the pipeline and codec, `bootstrap.connect` and `releaseExternalResources` (PacemakerClient.java:111-127, 258, 264) are transport I/O. Connects and releases are ghost counters.
- The handshake itself is done by the codec, which is not part of this model. The method the codec receives is kept in `handshakeAuth`; `channelReady` is modelled as the event the codec raises.
- `java.util.Timer` scheduling and the backoff delay from `StormBoundedExponentialBackoffRetry.getSleepTimeMs` run on another thread or in code that is not part of this model. Only the attempt number handed to the timer is recorded. The timer firing is the separate step `DoReconnect`.
- `synchronized` blocks, `wait`/`notifyAll` and the blocking `take()` are concurrency. Each callback is one atomic step, and the blocking take is the precondition that the queue is non-empty.
- Pacemaker.PacemakerClient.SendAttempt: a round assumes the client state does not change during it. State changes during the bounded waits appear only as the post-wait parameters of `WaitUntilReady`.
- Pacemaker.PacemakerClient.CompleteSend: when the slot is empty, the Java client first calls `send` again (PacemakerClient.java:197) and discards that call's result. Only the outer call's null result is modelled, not the inner call's slot use. The Java client also clears `messages[next]` (PacemakerClient.java:199) only after that inner call returns; if a reconnect has meanwhile handed id `next` to another sender, that late clear wipes the other sender's request or response. The model clears the slot in the same atomic step as the read, so it does not capture the slot this late clear can wipe.
- Pacemaker.PacemakerClient.Reconnect: `retryTimes` is unbounded, so the 32-bit wrap-around after 2^31-1 reconnects without a successful connection is not modelled.
- `AuthUtils.GetConfiguration` and `makeDigestPayload` are foreign calls. The digest payload they yield is an input (`digestSecret`).
- Config map lookups, the integer casts, the port, host and thrift message size, and logging are left out. The only lookup failure modelled is an absent auth scheme.
- The no-argument constructor (PacemakerClient.java:66-68) only exists for a test, and the `name()` and `secretKey()` getters only return fields. None of them changes state.
- `HBMessage` is modelled by its message id alone. Its payload is opaque to the client.
