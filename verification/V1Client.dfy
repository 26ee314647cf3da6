/** One participant of a V1 room, and its queues. */
module V1Client {
  import opened Wrappers
  import opened V1State

  datatype ClientEvent = Expired

  lemma AddressedSnoc(room: RoomId, client: ClientId, msgs: seq<string>, msg: string)
    ensures Addressed(room, client, msgs + [msg]) == Addressed(room, client, msgs) + [Message(room, client, msg)]
  {
  }

  class Client {
    const id: ClientId
    const room: RoomId
    var registered: bool
    var msgs: seq<string>
    var inbox: seq<Message>
    var writes: seq<Message>
    var events: seq<ClientEvent>
    var timeout: Option<Instant>
    var isInitiator: bool
    /** What was sent since the client came, what of it was handed on, and what left `writes` for the socket. */
    ghost var sent: seq<string>
    ghost var handed: seq<string>
    ghost var polled: seq<Message>

    ghost function State(): Peer
      reads this
    {
      Peer(registered, timeout, isInitiator, msgs, polled + writes, sent, handed)
    }

    constructor (id: ClientId, room: RoomId, timeout: Option<Instant>)
      ensures this.id == id && this.room == room && this.timeout == timeout
      ensures State() == Peer(false, timeout, false, [], [], [], []) && inbox == [] && events == []
    {
      this.id, this.room, this.timeout := id, room, timeout;
      registered, isInitiator := false, false;
      msgs, inbox, writes, events := [], [], [], [];
      sent, handed, polled := [], [], [];
    }

    method SetInitiator(isInitiator: bool)
      modifies this`isInitiator
      ensures State() == old(State()).(isInitiator := isInitiator)
    {
      this.isInitiator := isInitiator;
    }

    method SetTimer(timeout: Option<Instant>)
      modifies this`timeout
      ensures State() == old(State()).(timeout := timeout)
    {
      this.timeout := timeout;
    }

    method Register() returns (result: Result<(), string>)
      modifies this`registered, this`timeout
      ensures result.Ok? == !old(registered)
      ensures State() == if old(registered) then old(State()) else old(State()).(registered := true, timeout := None)
    {
      if registered { return Err("Duplicated registration"); }
      SetTimer(None);
      registered := true;
      result := Ok(());
    }

    method Deregister()
      modifies this`registered
      ensures State() == old(State()).(registered := false)
    {
      registered := false;
    }

    method Enqueue(msg: string) returns (result: Result<(), string>)
      modifies this`msgs, this`sent
      ensures result.Ok? == (|old(msgs)| < MAX_QUEUED_MSG_COUNT)
      ensures State() == if result.Ok? then Spoke(old(State()), false, msg) else old(State())
    {
      if |msgs| >= MAX_QUEUED_MSG_COUNT { return Err("Too many messages queued for the client"); }
      msgs, sent := msgs + [msg], sent + [msg];
      result := Ok(());
    }

    method DrainMsgs() returns (drained: seq<string>)
      modifies this`msgs, this`handed
      ensures drained == old(msgs) && State() == Flushed(old(State()))
    {
      drained := msgs;
      msgs, handed := [], handed + msgs;
    }

    method HandleRead(message: Message)
      modifies this`inbox
      ensures inbox == old(inbox) + [message]
    {
      inbox := inbox + [message];
    }

    method PollRead() returns (message: Option<Message>)
      modifies this`inbox
      ensures if old(inbox) == [] then message.None? && inbox == []
              else message == Some(old(inbox)[0]) && inbox == old(inbox)[1..]
    {
      message := None;
      if inbox != [] { message, inbox := Some(inbox[0]), inbox[1..]; }
    }

    method HandleWrite(message: Message)
      modifies this`writes
      ensures State() == old(State()).(writes := old(State()).writes + [message])
    {
      writes := writes + [message];
      assert polled + old(writes) + [message] == polled + writes;
    }

    /** The next message for the socket: each message written leaves once, in the order written. */
    method PollWrite() returns (message: Option<Message>)
      modifies this`writes, this`polled
      ensures State() == old(State())
      ensures |old(polled)| == |State().writes| ==> message.None? && polled == old(polled)
      ensures |old(polled)| < |State().writes| ==>
                message == Some(State().writes[|old(polled)|]) && polled == old(polled) + [message.value]
    {
      message := None;
      if writes != [] {
        message := Some(writes[0]);
        assert polled + writes == polled + [writes[0]] + writes[1..];
        polled, writes := polled + [writes[0]], writes[1..];
      }
    }

    /** Hand everything queued here to a registered peer, in order. */
    method SendQueued(other: Client) returns (result: Result<(), string>)
      requires other != this
      modifies this`msgs, this`handed, other`writes
      ensures result.Ok? == (id != other.id && other.registered)
      ensures State() == if result.Ok? then Flushed(old(State())) else old(State())
      ensures other.State() == old(other.State()).(writes := old(other.State()).writes
                                 + if result.Ok? then Addressed(room, other.id, old(msgs)) else [])
    {
      if id == other.id || !other.registered { return Err("Invalid client"); }
      ghost var passed: seq<string> := [];
      while msgs != []
        invariant passed + msgs == old(msgs)
        invariant State() == old(State()).(msgs := msgs)
        invariant other.State() == old(other.State()).(writes := old(other.State()).writes + Addressed(room, other.id, passed))
        decreases |msgs|
      {
        var msg := msgs[0];
        AddressedSnoc(room, other.id, passed, msg);
        assert passed + msgs == passed + [msg] + msgs[1..];
        msgs := msgs[1..];
        other.HandleWrite(Message(room, other.id, msg));
        passed := passed + [msg];
      }
      assert passed + [] == passed;
      handed := handed + passed;
      result := Ok(());
    }

    /** Hand a message to the peer if it is registered, or queue it here until it is. */
    method Send(other: Client, msg: string) returns (result: Result<(), string>)
      requires other != this
      modifies this`msgs, this`sent, this`handed, other`writes
      ensures result.Ok? == (id != other.id && (other.registered || |old(msgs)| < MAX_QUEUED_MSG_COUNT))
      ensures State() == if result.Ok? then Spoke(old(State()), other.registered, msg) else old(State())
      ensures other.State() == if result.Ok? && other.registered
                               then old(other.State()).(writes := old(other.State()).writes + [Message(room, other.id, msg)])
                               else old(other.State())
    {
      if id == other.id { return Err("Invalid client"); }
      if other.registered {
        other.HandleWrite(Message(room, other.id, msg));
        sent, handed := sent + [msg], handed + [msg];
        result := Ok(());
      } else {
        result := Enqueue(msg);
      }
    }

    /** Report an expired registration deadline, once. */
    method HandleTimeout(now: Instant)
      modifies this`events, this`timeout
      ensures events == if Due(old(State()), now) then old(events) + [Expired] else old(events)
      ensures State() == if Due(old(State()), now) then old(State()).(timeout := None) else old(State())
    {
      if timeout.Some? && now >= timeout.value && !registered {
        events := events + [Expired];
        timeout := None;
      }
    }

    method PollEvent() returns (event: Option<ClientEvent>)
      modifies this`events
      ensures if old(events) == [] then event.None? && events == []
              else event == Some(old(events)[0]) && events == old(events)[1..]
    {
      event := None;
      if events != [] { event, events := Some(events[0]), events[1..]; }
    }
  }
}
