/**
 * The Pacemaker client's state machine: the connection flags (ready,
 * shutdown, the one channel, the retry counter) and the correlation table
 * with its free-slot queue. Every callback and every step of `send` is one
 * atomic method; the threads, locks and waits of the Java client are left out.
 */
module Pacemaker {
  import opened Wrappers
  import opened PacemakerAuth
  import opened SlotPool

  /** An opaque transport channel. */
  datatype Channel = Channel(handle: nat)

  /**
   * How a call of waitUntilReady ends: it returns without waiting, returns
   * after its bounded wait, or throws the connection exception.
   */
  datatype WaitOutcome = Immediate | AfterWait | TimedOut

  /** The configuration entries the constructor reads, and the digest payload the login configuration yields. */
  datatype ClientConfig = ClientConfig(topologyName: Option<string>, authScheme: Option<string>, digestSecret: Option<string>)

  class PacemakerClient {
    /** The capacity of the slot table, fixed at construction. */
    const maxPending: nat

    var clientName: string
    var secret: Option<string>
    var ready: bool
    var shutdown: bool
    var channelRef: Option<Channel>
    var messages: array<HBMessage?>
    var availableMessageSlots: seq<int>
    /** The field the constructor never assigns: its switch writes a local of the same name. */
    var authMethod: Option<AuthMethod>
    /** The method the constructor's local holds and hands to the codec. */
    const handshakeAuth: AuthMethod
    var retryTimes: nat

    /** Ids whose parked request still waits for its response. */
    ghost var pending: set<int>
    /** Connects issued to the transport. */
    ghost var connectsIssued: nat
    /** Channels closed by the client, in order. */
    ghost var closedChannels: seq<Channel>
    /** Attempt numbers of the reconnects handed to the timer, in order. */
    ghost var scheduledReconnects: seq<nat>
    /** Requests written to a channel, in order. */
    ghost var writes: seq<(Channel, HBMessage)>
    /** Times the transport's resources were released. */
    ghost var releases: nat

    ghost predicate Valid()
      reads this
    {
      && messages.Length == maxPending
      && (forall k :: 0 <= k < |availableMessageSlots| ==> 0 <= availableMessageSlots[k] < maxPending)
      && authMethod.None?
    }

    /** Every slot of the table is empty. */
    ghost predicate EmptyTable()
      reads this, messages
    {
      forall k :: 0 <= k < messages.Length ==> messages[k] == null
    }

    /** Every id is either on the free queue or owned by one waiting request. */
    ghost predicate SlotsPartitioned()
      reads this, messages
    {
      Partitioned(maxPending, messages[..], availableMessageSlots, pending)
    }

    /**
     * The state after the constructor's own assignments: name, secret,
     * flags, no channel, a fresh table, and the first connect issued.
     */
    constructor (name: string, secretKey: Option<string>, codecAuth: AuthMethod)
      ensures Valid() && fresh(messages) && maxPending == 100
      ensures clientName == name && secret == secretKey && handshakeAuth == codecAuth
      ensures !ready && !shutdown && channelRef.None? && authMethod.None? && retryTimes == 0
      ensures EmptyTable() && availableMessageSlots == InitialQueue(maxPending) && pending == {}
      ensures SlotsPartitioned()
      ensures connectsIssued == 1 && closedChannels == [] && scheduledReconnects == [] && writes == [] && releases == 0
    {
      maxPending := 100;
      clientName := name;
      secret := secretKey;
      handshakeAuth := codecAuth;
      authMethod := None;
      ready := false;
      shutdown := false;
      channelRef := None;
      retryTimes := 0;
      // replaced by SetupMessaging below; in the Java client the field is null until setupMessaging runs
      messages := new HBMessage?[0];
      availableMessageSlots := [];
      pending := {};
      connectsIssued := 1;
      closedChannels := [];
      scheduledReconnects := [];
      writes := [];
      releases := 0;
      new;
      SetupMessaging();
    }

    /** A fresh, empty table of maxPending slots and the queue 0, 1, ..., maxPending-1. */
    method SetupMessaging()
      modifies this`messages, this`availableMessageSlots, this`pending
      ensures fresh(messages) && messages.Length == maxPending && EmptyTable()
      ensures availableMessageSlots == InitialQueue(maxPending) && pending == {}
      ensures SlotsPartitioned()
      ensures authMethod.None? ==> Valid()
    {
      messages := new HBMessage?[maxPending](_ => null);
      availableMessageSlots := [];
      for i := 0 to maxPending
        invariant availableMessageSlots == InitialQueue(i)
        modifies this`availableMessageSlots
      {
        availableMessageSlots := availableMessageSlots + [i];
      }
      pending := {};
      InitialTablePartitioned(maxPending, messages[..]);
    }

    /**
     * The transport connected `channel`: any previous channel is closed first,
     * the new one stored, the retry counter reset. Ready is raised only when
     * the authMethod field is NONE, which it never is.
     */
    method ChannelConnected(channel: Channel)
      requires Valid()
      modifies this`channelRef, this`closedChannels, this`ready, this`retryTimes
      ensures Valid()
      ensures channelRef == Some(channel)
      ensures closedChannels == old(closedChannels) + (if old(channelRef).Some? then [old(channelRef).value] else [])
      ensures retryTimes == 0
      ensures ready == (old(ready) || authMethod == Some(NONE))
      ensures ready == old(ready)
    {
      var oldChannel := channelRef;
      if oldChannel.Some? {
        CloseChannel();
      }
      channelRef := Some(channel);
      // only a NONE auth method raises ready; any other leaves it as it was
      ready := ready || authMethod == Some(NONE);
      retryTimes := 0;
    }

    /** The handshake finished: the client may send. */
    method ChannelReady()
      modifies this`ready
      ensures ready
    {
      ready := true;
    }

    /**
     * One call of waitUntilReady. The object's current state is the state at
     * the call; the parameters are the state after the bounded wait, during
     * which other threads may have connected or closed the channel.
     */
    function WaitUntilReady(readyAfterWait: bool, channelAfterWait: Option<Channel>): (r: WaitOutcome)
      reads this
      ensures ready ==> r == Immediate
      ensures !ready ==> r != Immediate
      ensures r == TimedOut <==> !ready && (!readyAfterWait || channelAfterWait.None?)
    {
      if !ready || channelRef.None? then
        if !ready then
          (if !readyAfterWait || channelAfterWait.None? then TimedOut else AfterWait)
        else
          Immediate
      else
        Immediate
    }

    /**
     * The first step of send: take the head of the free queue (the Java
     * client blocks while it is empty), stamp it into the request and park the
     * request in that slot.
     */
    method AcquireSlot(m: HBMessage) returns (next: int)
      requires Valid()
      requires availableMessageSlots != []
      modifies m, messages, this`availableMessageSlots, this`pending
      ensures Valid()
      ensures next == old(availableMessageSlots[0]) && availableMessageSlots == old(availableMessageSlots[1..])
      ensures 0 <= next < maxPending
      ensures m.messageId == next
      ensures messages[..] == old(messages[..])[next := m]
      ensures pending == old(pending) + {next}
      ensures old(SlotsPartitioned()) ==> SlotsPartitioned()
    {
      ghost var slots, free := messages[..], availableMessageSlots;
      next := availableMessageSlots[0];
      availableMessageSlots := availableMessageSlots[1..];
      m.messageId := next;
      messages[next] := m;
      pending := pending + {next};
      if Partitioned(maxPending, slots, free, old(pending)) {
        AcquireKeepsPartition(maxPending, slots, free, old(pending), m);
      }
    }

    /**
     * One round of send's loop, in a state that does not change during the
     * round: wait for readiness, write the request if a channel is present
     * (a timed-out wait skips the write), and report whether the slot still
     * holds the request, i.e. whether the loop goes round again.
     */
    method SendAttempt(m: HBMessage, next: int) returns (again: bool)
      requires Valid()
      requires 0 <= next < maxPending
      modifies this`writes
      ensures writes == old(writes) + (if ready && channelRef.Some? then [(channelRef.value, m)] else [])
      ensures again == (messages[next] == m)
    {
      var outcome := WaitUntilReady(ready, channelRef);
      if outcome != TimedOut && channelRef.Some? {
        writes := writes + [(channelRef.value, m)];
      }
      again := messages[next] == m;
    }

    /**
     * The last step of send, once the slot no longer holds the request: read
     * the slot out and empty it. An empty slot makes the Java client resend and
     * discard the resend's result, so the caller gets null.
     */
    method CompleteSend(m: HBMessage, next: int) returns (response: HBMessage?)
      requires Valid()
      requires 0 <= next < maxPending
      requires messages[next] != m
      modifies messages
      ensures Valid()
      ensures response == old(messages[next])
      ensures messages[..] == old(messages[..])[next := null]
      ensures old(SlotsPartitioned()) && next !in pending ==> SlotsPartitioned()
    {
      response := messages[next];
      messages[next] := null;
    }

    /**
     * A response arrived. An id out of range, or naming an empty slot, is
     * dropped. Otherwise the response overwrites the slot and the id goes to
     * the tail of the free queue.
     */
    method GotMessage(m: HBMessage)
      requires Valid()
      modifies messages, this`availableMessageSlots, this`pending
      ensures Valid()
      ensures Occupied(old(messages[..]), m.messageId) ==>
                messages[..] == old(messages[..])[m.messageId := m] &&
                availableMessageSlots == old(availableMessageSlots) + [m.messageId]
      ensures !Occupied(old(messages[..]), m.messageId) ==>
                messages[..] == old(messages[..]) && availableMessageSlots == old(availableMessageSlots)
      ensures pending == if Occupied(old(messages[..]), m.messageId) then old(pending) - {m.messageId} else old(pending)
      ensures old(SlotsPartitioned()) && m.messageId in old(pending) ==> SlotsPartitioned()
    {
      var id := m.messageId;
      if 0 <= id < maxPending {
        var request := messages[id];
        if request != null {
          messages[id] := m;
          availableMessageSlots := availableMessageSlots + [id];
          if Partitioned(maxPending, old(messages[..]), old(availableMessageSlots), pending) && id in pending {
            DeliverKeepsPartition(maxPending, old(messages[..]), old(availableMessageSlots), pending, id, m);
          }
          pending := pending - {id};
        }
      }
    }

    /**
     * Connection lost: schedule doReconnect with the current attempt number,
     * count the attempt, drop readiness and set up a fresh table and queue.
     */
    method Reconnect()
      requires Valid()
      modifies this`scheduledReconnects, this`retryTimes, this`ready
      modifies this`messages, this`availableMessageSlots, this`pending
      ensures Valid()
      ensures scheduledReconnects == old(scheduledReconnects) + [old(retryTimes)]
      ensures retryTimes == old(retryTimes) + 1
      ensures !ready
      ensures fresh(messages) && EmptyTable()
      ensures availableMessageSlots == InitialQueue(maxPending) && pending == {}
      ensures SlotsPartitioned()
    {
      scheduledReconnects := scheduledReconnects + [retryTimes];
      retryTimes := retryTimes + 1;
      ready := false;
      SetupMessaging();
    }

    /** The timer fired: close the channel, then connect again unless shut down. */
    method DoReconnect()
      modifies this`channelRef, this`closedChannels, this`connectsIssued
      ensures channelRef.None?
      ensures closedChannels == old(closedChannels) + (if old(channelRef).Some? then [old(channelRef).value] else [])
      ensures connectsIssued == old(connectsIssued) + (if shutdown then 0 else 1)
    {
      CloseChannel();
      if !shutdown {
        connectsIssued := connectsIssued + 1;
      }
    }

    /** Raise the shutdown flag (whatever it was) and release the transport's resources. */
    method Shutdown()
      modifies this`shutdown, this`releases
      ensures shutdown
      ensures releases == old(releases) + 1
    {
      shutdown := true;
      releases := releases + 1;
    }

    /** Close and forget the channel if there is one; with none, nothing changes. */
    method CloseChannel()
      modifies this`channelRef, this`closedChannels
      ensures channelRef.None?
      ensures closedChannels == old(closedChannels) + (if old(channelRef).Some? then [old(channelRef).value] else [])
    {
      if channelRef.Some? {
        closedChannels := closedChannels + [channelRef.value];
        channelRef := None;
      }
    }

    /** The public close: the same as closing the channel. */
    method Close()
      modifies this`channelRef, this`closedChannels
      ensures channelRef.None?
      ensures closedChannels == old(closedChannels) + (if old(channelRef).Some? then [old(channelRef).value] else [])
    {
      CloseChannel();
    }
  }

  /**
   * The configuring constructor: the name and auth mapping, then the flags,
   * the table and the first connect. A missing auth entry or a DIGEST
   * setup without a digest payload is fatal.
   */
  method NewPacemakerClient(config: ClientConfig) returns (r: Result<PacemakerClient, ConfigError>)
    ensures r.Failure? <==> ResolveAuth(config.authScheme, config.digestSecret).Failure?
    ensures r.Failure? ==> r.error == ResolveAuth(config.authScheme, config.digestSecret).error
    ensures r.Success? ==>
              && fresh(r.value) && fresh(r.value.messages) && r.value.Valid()
              && r.value.clientName == ClientName(config.topologyName)
              && r.value.handshakeAuth == ResolveAuth(config.authScheme, config.digestSecret).value.authMethod
              && r.value.secret == ResolveAuth(config.authScheme, config.digestSecret).value.secret
              && r.value.authMethod.None?
              && !r.value.ready && !r.value.shutdown && r.value.channelRef.None? && r.value.retryTimes == 0
              && r.value.maxPending == 100 && r.value.EmptyTable()
              && r.value.availableMessageSlots == InitialQueue(r.value.maxPending)
              && r.value.pending == {} && r.value.SlotsPartitioned()
              && r.value.connectsIssued == 1 && r.value.closedChannels == [] && r.value.scheduledReconnects == []
              && r.value.writes == [] && r.value.releases == 0
  {
    var name := ClientName(config.topologyName);
    var auth := ResolveAuth(config.authScheme, config.digestSecret);
    if auth.Failure? {
      return Failure(auth.error);
    }
    var client := new PacemakerClient(name, auth.value.secret, auth.value.authMethod);
    return Success(client);
  }
}
