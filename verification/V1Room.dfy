/** A V1 room of at most two clients, changed in place as `V1State` says. */
module V1Room {
  import opened Wrappers
  import opened V1State
  import opened V1Client

  lemma SameCount(clients: map<ClientId, Client>, peers: Peers)
    requires clients.Keys == peers.Keys
    ensures |clients| == |peers|
  {
    assert |clients| == |clients.Keys| && |peers| == |peers.Keys|;
  }

  lemma NobodyWaits(p: Peers, k: ClientId)
    ensures p == map[] ==> Drained(p) == p && Waiting(p, k) == []
  {
  }

  lemma OneWaits(p: Peers, k: ClientId) returns (only: ClientId)
    requires p != map[] && |p| < MAX_ROOM_CAPACITY && k !in p
    ensures p.Keys == {only} && Waiting(p, k) == p[only].msgs && p[only := Flushed(p[only])] == Drained(p)
  {
    only :| only in p;
    OnlyOne(p, only);
  }

  class Room {
    const id: RoomId
    const registerTimeout: nat
    var clients: map<ClientId, Client>

    ghost function View(): Peers
      reads this, clients.Values
    {
      map k | k in clients :: clients[k].State()
    }

    /** Every client knows its name and its room, so no two are the same object. */
    ghost predicate Wired()
      reads this, clients.Values
    {
      forall k :: k in clients ==> clients[k].id == k && clients[k].room == id && clients[k].events == []
    }

    ghost predicate Valid()
      reads this, clients.Values
    {
      Wired() && Sound(View())
    }

    lemma Intact(p: Peers)
      requires Wired() && View() == p && Sound(p)
      ensures Valid()
    {
    }

    constructor (id: RoomId, registerTimeout: nat)
      ensures Valid() && View() == map[] && this.id == id && this.registerTimeout == registerTimeout
      ensures clients == map[]
    {
      this.id, this.registerTimeout, clients := id, registerTimeout, map[];
    }

    lemma SameSize()
      ensures |clients| == |View()| && clients.Keys == View().Keys
    {
      assert clients.Keys == View().Keys;
      SameCount(clients, View());
    }

    /** What the room shows, client by client. */
    lemma Shows(p: Peers)
      requires clients.Keys == p.Keys && forall k :: k in clients ==> clients[k].State() == p[k]
      ensures View() == p
    {
    }

    /** A new client, with a fresh registration deadline. */
    method Create(now: Instant, k: ClientId) returns (client: Client)
      requires Wired() && k !in clients
      modifies this`clients
      ensures Wired() && View() == old(View())[k := New(now + registerTimeout)]
      ensures fresh(client) && clients == old(clients)[k := client]
    {
      client := new Client(k, id, Some(now + registerTimeout));
      clients := clients[k := client];
    }

    /** The client, created if it is new and there is room for it. */
    method ClientFor(now: Instant, k: ClientId) returns (result: Result<Client, string>)
      requires Wired()
      modifies this`clients
      ensures Wired() && View() == Ensured(old(View()), k, now + registerTimeout)
      ensures fresh(clients.Values - old(clients.Values))
      ensures result.Ok? == Fits(old(View()), k)
      ensures result.Ok? ==> k in clients && result.value == clients[k]
    {
      SameSize();
      if k in clients { return Ok(clients[k]); }
      if |clients| >= MAX_ROOM_CAPACITY { return Err("Max room capacity reached"); }
      var client := Create(now, k);
      result := Ok(client);
    }

    /** Bind a socket to a client that is there. */
    method SignIn(k: ClientId) returns (result: Result<(), string>)
      requires Wired() && k in clients
      modifies clients[k]
      ensures Wired() && result.Ok? == !old(View())[k].registered
      ensures View() == if result.Err? then old(View())
                        else old(View())[k := old(View())[k].(registered := true, timeout := None)]
    {
      ghost var p := View();
      result := clients[k].Register();
      Shows(if result.Err? then p else p[k := p[k].(registered := true, timeout := None)]);
    }

    /** Hand a registered client what its peer has queued. */
    method FlushFrom(k: ClientId, j: ClientId)
      requires Wired() && k in clients && j in clients && j != k && clients[k].registered
      modifies clients[j], clients[k]
      ensures Wired()
      ensures View() == var p := old(View());
                        p[j := Flushed(p[j])][k := p[k].(writes := p[k].writes + Addressed(id, k, p[j].msgs))]
    {
      ghost var p := View();
      var flushed := clients[j].SendQueued(clients[k]);
      Shows(p[j := Flushed(p[j])][k := p[k].(writes := p[k].writes + Addressed(id, k, p[j].msgs))]);
    }

    /** Hand a registered client whatever is queued for it. */
    method Flush(k: ClientId)
      requires Wired() && |View()| <= MAX_ROOM_CAPACITY && k in View() && View()[k].registered
      modifies clients.Values
      ensures Wired() && View() == Handed(old(View()), id, k)
    {
      SameSize();
      assert clients[k].registered && clients.Keys == View().Keys;
      hide View, Wired, Handed, Waiting, Flushed, Addressed;
      ghost var p := View();
      if j :| j in clients && j != k {
        HandedTwo(p, id, k, j);
        FlushFrom(k, j);
      } else {
        HandedAlone(p, id, k);
      }
    }

    method TryRegister(now: Instant, k: ClientId) returns (result: Result<(), string>)
      requires Wired() && |View()| <= MAX_ROOM_CAPACITY
      modifies this`clients, clients.Values
      ensures Wired() && View() == Registered(old(View()), id, k, now + registerTimeout)
      ensures fresh(clients.Values - old(clients.Values))
      ensures result.Ok? == Registers(old(View()), k)
    {
      hide View, Wired, Handed, Ensured, Registered, Registers, Fits;
      RegisteredIs(View(), id, k, now + registerTimeout);
      var found := ClientFor(now, k);
      if found.Err? { return Err(found.error); }
      ghost var q := View();
      Sizes(q, k, q[k].(registered := true, timeout := None));
      result := SignIn(k);
      if result.Err? { return; }
      Flush(k);
    }

    /** A client's socket registers, and receives what its peer has queued for it. */
    method Register(now: Instant, k: ClientId) returns (result: Result<(), string>)
      requires Valid()
      modifies this`clients, clients.Values
      ensures Valid() && View() == Registered(old(View()), id, k, now + registerTimeout)
      ensures fresh(clients.Values - old(clients.Values))
      ensures result.Ok? == Registers(old(View()), k)
    {
      ghost var q := Registered(View(), id, k, now + registerTimeout);
      RegisteredKeeps(View(), id, k, now + registerTimeout);
      assert Sound(q) && |View()| <= MAX_ROOM_CAPACITY;
      hide Registered, Registers, Sound, Extends, Wired, View;
      result := TryRegister(now, k);
      Intact(q);
    }
  
    /** A client that is alone queues what it sends. */
    method Queue(k: ClientId, msg: string) returns (result: Result<(), string>)
      requires Wired() && k in clients
      modifies clients[k]
      ensures Wired() && result.Ok? == (|old(View())[k].msgs| < MAX_QUEUED_MSG_COUNT)
      ensures View() == if result.Ok? then old(View())[k := Spoke(old(View())[k], false, msg)] else old(View())
    {
      ghost var p := View();
      result := clients[k].Enqueue(msg);
      Shows(if result.Ok? then p[k := Spoke(p[k], false, msg)] else p);
    }

    /** A client sends to its peer. */
    method SendTo(k: ClientId, j: ClientId, msg: string) returns (result: Result<(), string>)
      requires Wired() && k in clients && j in clients && j != k
      modifies clients[k], clients[j]
      ensures Wired() && View() == Exchanged(old(View()), id, k, j, msg)
      ensures result.Ok? == (old(View())[j].registered || |old(View())[k].msgs| < MAX_QUEUED_MSG_COUNT)
    {
      ghost var p := View();
      result := clients[k].Send(clients[j], msg);
      Shows(Exchanged(p, id, k, j, msg));
    }

    /** A client that is there sends. */
    method Relay(k: ClientId, msg: string) returns (result: Result<(), string>)
      requires Wired() && |View()| <= MAX_ROOM_CAPACITY && k in View()
      modifies clients.Values
      ensures Wired() && result.Ok? == Speaks(old(View()), k)
      ensures View() == if result.Ok? then Relayed(old(View()), id, k, msg) else old(View())
    {
      hide View, Wired, Exchanged, Relayed, Speaks, Spoke;
      SameSize();
      ghost var p := View();
      if j :| j in clients && j != k {
        RelayedPair(p, id, k, msg, j);
        result := SendTo(k, j, msg);
      } else {
        RelayedAlone(p, id, k, msg);
        result := Queue(k, msg);
      }
    }

    method TrySend(now: Instant, k: ClientId, msg: string) returns (result: Result<(), string>)
      requires Wired() && |View()| <= MAX_ROOM_CAPACITY
      modifies this`clients, clients.Values
      ensures Wired() && View() == Sent(old(View()), id, k, now + registerTimeout, msg)
      ensures fresh(clients.Values - old(clients.Values))
      ensures result.Ok? == Sends(old(View()), k)
    {
      hide Sent, Sends, Ensured, Fits, Speaks, Relayed, View, Wired;
      SentIs(View(), id, k, now + registerTimeout, msg);
      var found := ClientFor(now, k);
      if found.Err? { return Err(found.error); }
      result := Relay(k, msg);
    }

    /** A client sends: to its peer if that is registered, into its own queue otherwise. */
    method Send(now: Instant, k: ClientId, msg: string) returns (result: Result<(), string>)
      requires Valid()
      modifies this`clients, clients.Values
      ensures Valid() && View() == Sent(old(View()), id, k, now + registerTimeout, msg)
      ensures fresh(clients.Values - old(clients.Values))
      ensures result.Ok? == Sends(old(View()), k)
    {
      ghost var q := Sent(View(), id, k, now + registerTimeout, msg);
      SentKeeps(View(), id, k, now + registerTimeout, msg);
      assert Sound(q) && |View()| <= MAX_ROOM_CAPACITY;
      hide Sent, Sends, Sound, Extends, Wired, View;
      result := TrySend(now, k, msg);
      Intact(q);
    }

    lemma Sees(k: ClientId)
      ensures k in clients <==> k in View()
      ensures k in clients ==> View()[k] == clients[k].State()
    {
    }

    method TryDeregister(now: Instant, k: ClientId) returns (was: bool)
      requires Wired()
      modifies clients.Values
      ensures Wired() && View() == Deregistered(old(View()), k, now + registerTimeout)
      ensures was == Leaves(old(View()), k)
    {
      hide View, Wired;
      Sees(k);
      was := k in clients && clients[k].registered;
      if was { SignOut(now, k); }
    }

    /** A client's socket is gone: it may come back until its deadline. */
    method Deregister(now: Instant, k: ClientId) returns (was: bool)
      requires Valid()
      modifies clients.Values
      ensures Valid() && View() == Deregistered(old(View()), k, now + registerTimeout)
      ensures was == Leaves(old(View()), k)
    {
      hide Deregistered, Leaves, Sound, Extends, Wired, View;
      ghost var q := Deregistered(View(), k, now + registerTimeout);
      DeregisteredKeeps(View(), k, now + registerTimeout);
      was := TryDeregister(now, k);
      Intact(q);
    }

    method SignOut(now: Instant, k: ClientId)
      requires Wired() && k in clients
      modifies clients[k]
      ensures Wired()
      ensures View() == old(View())[k := old(View())[k].(registered := false, timeout := Some(now + registerTimeout))]
    {
      ghost var p := View();
      clients[k].Deregister();
      clients[k].SetTimer(Some(now + registerTimeout));
      Shows(p[k := p[k].(registered := false, timeout := Some(now + registerTimeout))]);
    }

    method SetLeader(k: ClientId, isInitiator: bool)
      requires Wired() && k in View()
      modifies clients.Values
      ensures Wired() && View() == old(View())[k := old(View())[k].(isInitiator := isInitiator)]
    {
      ghost var p := View();
      clients[k].SetInitiator(isInitiator);
      Shows(p[k := p[k].(isInitiator := isInitiator)]);
    }

    /** Whoever is left becomes the initiator. */
    method PromoteAll()
      requires Wired()
      modifies clients.Values
      ensures Wired() && View() == Promoted(old(View()))
    {
      hide View, Wired;
      SameSize();
      ghost var p := View();
      var todo := clients.Keys;
      assert PartPromoted(p, todo) == p;
      while todo != {}
        invariant todo <= clients.Keys && Wired() && View() == PartPromoted(p, todo)
        decreases |todo|
      {
        var j :| j in todo;
        PartPromotedNext(p, todo, j);
        SetLeader(j, true);
        todo := todo - {j};
      }
      assert PartPromoted(p, {}) == Promoted(p);
    }

    method Drop(k: ClientId)
      requires Wired() && k in clients
      modifies this`clients, clients[k]
      ensures Wired() && View() == old(View()) - {k} && clients == old(clients) - {k}
    {
      ghost var p := View();
      clients[k].Deregister();
      clients := clients - {k};
      Shows(p - {k});
    }

    method TryRemove(k: ClientId)
      requires Wired()
      modifies this`clients, clients.Values
      ensures Wired() && View() == Without(old(View()), {k}) && clients == old(clients) - {k}
    {
      ghost var p := View();
      WithoutIs(p, k);
      if k in clients {
        hide Without, Promoted, View, Wired;
        Drop(k);
        PromoteAll();
      } else {
        assert clients - {k} == clients;
      }
    }

    /** A client leaves for good; whoever stays becomes the initiator. */
    method Remove(k: ClientId)
      requires Valid()
      modifies this`clients, clients.Values
      ensures Valid() && View() == Without(old(View()), {k}) && clients == old(clients) - {k}
    {
      hide Without, Sound, Extends, Wired, View;
      ghost var q := Without(View(), {k});
      WithoutKeeps(View(), {k});
      assert Sound(q);
      TryRemove(k);
      Intact(q);
    }

    /** A client leaves for good unless its socket is there. */
    method RemoveIfUnregistered(k: ClientId) returns (removed: bool)
      requires Valid()
      modifies this`clients, clients.Values
      ensures Valid() && removed == Absent(old(View()), k)
      ensures View() == if removed then Without(old(View()), {k}) else old(View())
      ensures clients == if removed then old(clients) - {k} else old(clients)
    {
      removed := k in clients && !clients[k].registered;
      if removed { Remove(k); }
    }
  
    /** Take whatever one client has queued. */
    method DrainOne(k: ClientId) returns (drained: seq<string>)
      requires Wired() && k in clients
      modifies clients.Values
      ensures Wired() && View() == old(View())[k := Flushed(old(View())[k])] && drained == old(View())[k].msgs
    {
      ghost var p := View();
      drained := clients[k].DrainMsgs();
      Shows(p[k := Flushed(p[k])]);
    }

    /** Take whatever the clients have queued. */
    method DrainAll(k: ClientId) returns (messages: seq<string>)
      requires Wired() && |View()| < MAX_ROOM_CAPACITY && k !in View()
      modifies clients.Values
      ensures Wired() && View() == Drained(old(View())) && messages == Waiting(old(View()), k)
    {
      hide View, Wired, Drained, Flushed, Waiting;
      SameSize();
      ghost var p := View();
      var todo := clients.Keys;
      messages := [];
      NobodyWaits(p, k);
      if todo == {} { return; }
      ghost var only := OneWaits(p, k);
      while todo != {}
        invariant todo == {} || todo == {only}
        invariant Wired()
        invariant View() == if todo == {} then p[only := Flushed(p[only])] else p
        invariant messages == if todo == {} then p[only].msgs else []
        decreases |todo|
      {
        var j :| j in todo;
        var drained := DrainOne(j);
        messages := messages + drained;
        todo := todo - {j};
      }
    }

    /** The loopback peer, if there is room for it. */
    method AddLoopback(now: Instant)
      requires Wired() && |View()| <= MAX_ROOM_CAPACITY
      modifies this`clients, clients.Values
      ensures Wired() && View() == LoopedBack(old(View()), now + registerTimeout)
      ensures fresh(clients.Values - old(clients.Values))
    {
      SentIs(View(), id, LOOPBACK_CLIENT_ID, now + registerTimeout, "");
      assert LoopedBack(View(), now + registerTimeout) == View() || Fits(View(), LOOPBACK_CLIENT_ID);
      assert Fits(View(), LOOPBACK_CLIENT_ID) || Ensured(View(), LOOPBACK_CLIENT_ID, now + registerTimeout) == View();
      hide View, Wired, Ensured, Sent, Sends, Relayed, Fits;
      var loopback := ClientFor(now, LOOPBACK_CLIENT_ID);
      if loopback.Ok? { SetLeader(LOOPBACK_CLIENT_ID, false); }
    }

    method Enter(now: Instant, k: ClientId, isInitiator: bool)
      requires Wired() && Admits(View(), k)
      modifies this`clients, clients.Values
      ensures Wired() && View() == old(View())[k := New(now + registerTimeout).(isInitiator := isInitiator)]
      ensures fresh(clients.Values - old(clients.Values))
    {
      hide View, Wired, Ensured, Admits, Fits, New;
      EnsuredNew(View(), k, now + registerTimeout);
      var added := ClientFor(now, k);
      SetLeader(k, isInitiator);
    }

    /** A new client, and its loopback peer if it asks for one. */
    method EnterWith(now: Instant, k: ClientId, isInitiator: bool, isLoopback: bool)
      requires Wired() && Admits(View(), k)
      modifies this`clients, clients.Values
      ensures Wired() && fresh(clients.Values - old(clients.Values))
      ensures var entered := old(View())[k := New(now + registerTimeout).(isInitiator := isInitiator)];
              View() == if isLoopback then LoopedBack(entered, now + registerTimeout) else entered
    {
      Sizes(View(), k, New(now + registerTimeout).(isInitiator := isInitiator));
      hide View, Wired, LoopedBack, Admits, New;
      Enter(now, k, isInitiator);
      if isLoopback { AddLoopback(now); }
    }

    method Admit(now: Instant, k: ClientId, isLoopback: bool) returns (isInitiator: bool, messages: seq<string>)
      requires Wired() && Admits(View(), k)
      modifies this`clients, clients.Values
      ensures Wired() && View() == Added(old(View()), k, now + registerTimeout, isLoopback)
      ensures fresh(clients.Values - old(clients.Values))
      ensures isInitiator == (old(View()) == map[]) && messages == Waiting(old(View()), k)
    {
      hide View, Wired, Drained, Added, LoopedBack, Admits, Waiting, New;
      SameSize();
      AddedIs(View(), k, now + registerTimeout, isLoopback);
      isInitiator := |clients| == 0;
      messages := DrainAll(k);
      EnterWith(now, k, isInitiator, isLoopback);
    }

    method TryAdd(now: Instant, k: ClientId, isLoopback: bool) returns (result: Result<(bool, seq<string>), string>)
      requires Wired() && |View()| <= MAX_ROOM_CAPACITY
      modifies this`clients, clients.Values
      ensures Wired() && View() == Added(old(View()), k, now + registerTimeout, isLoopback)
      ensures fresh(clients.Values - old(clients.Values))
      ensures result.Ok? == Admits(old(View()), k)
      ensures result.Ok? ==> result.value == (old(View()) == map[], Waiting(old(View()), k))
    {
      hide View, Wired, Added, Admits, Waiting;
      SameSize();
      AddedIs(View(), k, now + registerTimeout, isLoopback);
      if k in clients { return Err("DUPLICATE_CLIENT"); }
      if |clients| >= MAX_ROOM_CAPACITY { return Err("FULL"); }
      var isInitiator, messages := Admit(now, k, isLoopback);
      result := Ok((isInitiator, messages));
    }

    /** A new client joins: the first is the initiator, the second is handed what the first has queued. */
    method AddClient(now: Instant, k: ClientId, isLoopback: bool) returns (result: Result<(bool, seq<string>), string>)
      requires Valid()
      modifies this`clients, clients.Values
      ensures Valid() && View() == Added(old(View()), k, now + registerTimeout, isLoopback)
      ensures fresh(clients.Values - old(clients.Values))
      ensures result.Ok? == Admits(old(View()), k)
      ensures result.Ok? ==> result.value == (old(View()) == map[], Waiting(old(View()), k))
    {
      assert |View()| <= MAX_ROOM_CAPACITY;
      hide Added, Admits, Sound, Extends, Wired, View, Waiting;
      ghost var q := Added(View(), k, now + registerTimeout, isLoopback);
      AddedKeeps(View(), k, now + registerTimeout, isLoopback);
      result := TryAdd(now, k, isLoopback);
      Intact(q);
    }

    /** Tick one client, and say if its deadline has passed. */
    method Tick(now: Instant, k: ClientId) returns (expired: bool)
      requires Wired() && k in clients
      modifies clients[k]
      ensures Wired() && View() == old(View())[k := TickedPeer(old(View())[k], now)]
      ensures expired == Due(old(View())[k], now)
    {
      ghost var p := View();
      expired := false;
      clients[k].HandleTimeout(now);
      var event := clients[k].PollEvent();
      while event.Some?
        invariant clients[k].State() == TickedPeer(p[k], now)
        invariant clients[k].events == []
        invariant (expired || event.Some?) == Due(p[k], now)
        decreases event.Some?
      {
        expired := true;
        event := clients[k].PollEvent();
      }
      Shows(p[k := TickedPeer(p[k], now)]);
    }

    method TickAll(now: Instant) returns (expired: set<ClientId>)
      requires Wired()
      modifies clients.Values
      ensures Wired() && View() == Ticked(old(View()), now) && expired == DueClients(old(View()), now)
    {
      hide View, Wired, TickedPeer, Due;
      SameSize();
      ghost var p := View();
      expired := {};
      var todo := clients.Keys;
      assert PartTicked(p, todo, now) == p;
      while todo != {}
        invariant todo <= clients.Keys
        invariant Wired() && View() == PartTicked(p, todo, now)
        invariant expired == DueClients(p, now) - todo
        decreases |todo|
      {
        var j :| j in todo;
        PartTickedNext(p, todo, j, now);
        var isDue := Tick(now, j);
        if isDue { expired := expired + {j}; }
        todo := todo - {j};
      }
      assert PartTicked(p, {}, now) == Ticked(p, now);
    }

    method TryHandleTimeout(now: Instant)
      requires Wired()
      modifies this`clients, clients.Values
      ensures Wired() && View() == Swept(old(View()), now) && clients.Values <= old(clients.Values)
    {
      hide View, Wired, Ticked, DueClients, Without, Swept;
      ghost var p := View();
      TickedSwept(p, now);
      var expired := TickAll(now);
      ghost var due := expired;
      WithoutNone(Ticked(p, now));
      assert due - expired == {};
      while expired != {}
        invariant Wired() && expired <= due && View() == Without(Ticked(p, now), due - expired)
        invariant clients.Values <= old(clients.Values)
        decreases |expired|
      {
        var k :| k in expired;
        WithoutTwice(Ticked(p, now), due - expired, k);
        TryRemove(k);
        assert due - expired + {k} == due - (expired - {k});
        expired := expired - {k};
      }
      assert due - {} == due;
    }

    /** Remove exactly the clients whose deadline has passed, and promote whoever stays. */
    method HandleTimeout(now: Instant)
      requires Valid()
      modifies this`clients, clients.Values
      ensures Valid() && View() == Swept(old(View()), now) && clients.Values <= old(clients.Values)
    {
      ghost var q := Swept(View(), now);
      WithoutKeeps(View(), DueClients(View(), now));
      assert Sound(q);
      hide Swept, Without, Sound, Extends, Wired, View;
      TryHandleTimeout(now);
      Intact(q);
    }

    /** The earliest registration deadline. */
    method PollTimeout() returns (earliest: Option<Instant>)
      ensures forall k :: k in View() && View()[k].timeout.Some? ==>
                earliest.Some? && earliest.value <= View()[k].timeout.value
      ensures earliest.Some? ==> exists k :: k in View() && View()[k].timeout == earliest
    {
      earliest := None;
      var todo := clients.Keys;
      while todo != {}
        invariant todo <= clients.Keys
        invariant forall k :: k in clients && k !in todo && clients[k].timeout.Some? ==>
                    earliest.Some? && earliest.value <= clients[k].timeout.value
        invariant earliest.Some? ==> exists k :: k in clients && clients[k].timeout == earliest
        decreases |todo|
      {
        var j :| j in todo;
        var next := clients[j].timeout;
        if next.Some? && (earliest.None? || next.value < earliest.value) { earliest := next; }
        todo := todo - {j};
      }
      assert forall k :: k in clients ==> View()[k].timeout == clients[k].timeout;
      assert View().Keys == clients.Keys;
    }
  }
}
