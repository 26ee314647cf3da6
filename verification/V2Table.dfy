/** The authority as the source has it: one object whose operations change its maps in place.
    Each operation is proved to do what the function of the same name in `V2Steps` says. */
module V2Table {
  import opened Wrappers
  import opened Collections
  import opened Sfu
  import opened V2State
  import opened V2Steps
  import opened V2Rooms
  import opened V2Moves
  import opened V2RoomSteps
  import opened V2SlotTimers
  import opened V2Sessions
  import opened V2Fresh
  import opened V2Runs
  import opened V2Loops

  class RoomTable {
    var rooms: map<RoomId, Room>
    var workers: map<InstanceId, Worker>
    var lifecycles: map<(RoomId, ClientId), nat>
    var pending: map<RequestId, PendingCommand>
    var unacked: map<RequestId, Command>
    var owners: map<RequestId, InstanceId>
    var nextRequest: RequestId
    const grace: nat
    const dwell: nat
    var actions: seq<Action>
    ghost var issued: map<RequestId, Command>

    ghost function State(): Table
      reads this
    {
      Table(rooms, workers, lifecycles, pending, unacked, owners, issued, nextRequest, grace, dwell, actions)
    }

    /** What every run keeps. */
    ghost predicate Valid()
      reads this
    {
      Base(State())
    }

    constructor (grace: nat, dwell: nat)
      ensures Valid() && State() == EmptyTable(grace, dwell)
    {
      rooms, workers, lifecycles := map[], map[], map[];
      pending, unacked, owners, issued := map[], map[], map[], map[];
      nextRequest, actions := 1, [];
      this.grace, this.dwell := grace, dwell;
      new;
      EmptyBase(grace, dwell);
    }

    // ---- counters and the command queue ----

    method NextLifecycle(r: RoomId, c: ClientId) returns (value: nat)
      modifies this`lifecycles
      ensures State() == DrawLifecycle(old(State()), r, c)
      ensures value == V2Steps.NextLifecycle(old(State()), r, c)
    {
      value := (if (r, c) in lifecycles then lifecycles[(r, c)] else 0) + 1;
      lifecycles := lifecycles[(r, c) := value];
    }

    method NextCommandId() returns (id: RequestId)
      modifies this`nextRequest
      ensures id == old(nextRequest) && nextRequest == id + 1
    {
      id := nextRequest;
      nextRequest := nextRequest + 1;
    }

    method QueueCommand(i: InstanceId, connection: ConnectionId, command: Command, p: PendingCommand)
      modifies this`pending, this`owners, this`unacked, this`issued, this`actions
      ensures pending == old(pending)[command.id := p] && owners == old(owners)[command.id := i]
      ensures unacked == old(unacked)[command.id := command] && issued == old(issued)[command.id := command]
      ensures actions == old(actions) + [SfuOut(CommandOut(connection, command))]
    {
      pending := pending[command.id := p];
      owners := owners[command.id := i];
      unacked := unacked[command.id := command];
      issued := issued[command.id := command];
      actions := actions + [SfuOut(CommandOut(connection, command))];
    }

    method SendCommand(i: InstanceId, connection: ConnectionId, kind: CommandKind, p: PendingCommand)
      modifies this`nextRequest, this`pending, this`owners, this`unacked, this`issued, this`actions
      ensures State() == IssueCommand(old(State()), i, connection, kind, p)
    {
      var id := NextCommandId();
      QueueCommand(i, connection, Command(id, kind), p);
    }

    function ConnectionOf(i: InstanceId): (connection: Option<ConnectionId>)
      reads this
      ensures connection == Connection(State(), i)
    {
      if i in workers then workers[i].connection else None
    }

    function RoomConnectionOf(room: Room): (connection: Option<ConnectionId>)
      reads this
      ensures connection == RoomConnection(State(), room)
    {
      match room.instance
      case Some(i) => ConnectionOf(i)
      case None => None
    }

    // ---- admission ----

    /** The eligible worker that carries least, by clients, then rooms, then name. */
    method SelectWorker(additional: nat) returns (selected: Option<InstanceId>)
      ensures selected == V2Steps.SelectWorker(State(), additional)
      ensures selected.Some? ==> IsLeastLoaded(State(), additional, selected.value)
      ensures selected.None? ==> forall i :: i in workers ==> !Selectable(workers[i], additional)
    {
      selected := None;
      var todo := workers.Keys;
      while todo != {}
        invariant todo <= workers.Keys
        invariant selected.None? ==> forall j :: j in workers && j !in todo ==> !Selectable(workers[j], additional)
        invariant selected.Some? ==>
                    && selected.value in workers && selected.value !in todo
                    && Selectable(workers[selected.value], additional)
                    && forall j :: j in workers && j !in todo && Selectable(workers[j], additional) && j != selected.value ==>
                         LessLoaded(selected.value, workers[selected.value], j, workers[j])
        decreases |todo|
      {
        var i :| i in todo;
        todo := todo - {i};
        if Selectable(workers[i], additional) {
          if selected.None? {
            selected := Some(i);
          } else {
            var best := selected.value;
            LessLoadedTotal(i, workers[i], best, workers[best]);
            if LessLoaded(i, workers[i], best, workers[best]) {
              forall j | j in workers && j !in todo && Selectable(workers[j], additional) && j != i
                ensures LessLoaded(i, workers[i], j, workers[j])
              {
                if j != best { LessLoadedTransitive(i, workers[i], best, workers[best], j, workers[j]); }
              }
              selected := Some(i);
            }
          }
        }
        hide Selectable, LessLoaded;
      }
      if selected.Some? {
        assert IsLeastLoaded(State(), additional, selected.value);
        var chosen := V2Steps.SelectWorker(State(), additional);
        LeastLoadedUnique(State(), additional, selected.value, chosen.value);
      } else {
        assert forall i :: !IsLeastLoaded(State(), additional, i);
      }
    }

    /** Send the Join that the barrier of an upgrade waits for. */
    method IssueNextUpgradeJoin(r: RoomId) returns (result: Result<(), string>)
      requires r in rooms && rooms[r].upgrade.Some? ==> rooms[r].upgrade.value.next < |rooms[r].upgrade.value.ordered|
      modifies this`nextRequest, this`pending, this`owners, this`unacked, this`issued, this`actions
      ensures var issue := V2Steps.IssueNextUpgradeJoin(old(State()), r);
              if issue.Ok? then State() == issue.value && result.Ok?
              else State() == old(State()) && result == Err(issue.error)
    {
      if r !in rooms { return Err("ROOM_NOT_FOUND"); }
      var room := rooms[r];
      if room.upgrade.None? { return Err("ROOM_TRANSITION"); }
      var c := room.upgrade.value.ordered[room.upgrade.value.next];
      if c !in room.members { return Err("CLIENT_NOT_FOUND"); }
      if room.instance.None? { return Err("WORKER_UNAVAILABLE"); }
      var i := room.instance.value;
      var connection := ConnectionOf(i);
      if connection.None? { return Err("WORKER_UNAVAILABLE"); }
      var join := JoinMember(r, c, room.members[c].lifecycle, room.assignmentEpoch);
      SendCommand(i, connection.value, JoinCommand(join), UpgradeJoin(i, join));
      result := Ok(());
    }

    /** Fresh lifecycle ids for the members that an upgrade finds in the room. */
    method DrawForMembers(r: RoomId, c: ClientId, member: Member, existing: seq<ClientId>, ghost before: Table)
      requires r in before.rooms && c !in before.rooms[r].members && Lists(existing, before.rooms[r].members.Keys)
      requires r in rooms && Drawn(lifecycles, rooms[r].members, before, r, c, member, {})
      modifies this`rooms, this`lifecycles
      ensures r in rooms && Drawn(lifecycles, rooms[r].members, before, r, c, member, before.rooms[r].members.Keys)
      ensures rooms == old(rooms)[r := old(rooms)[r].(members := rooms[r].members)]
    {
      hide Drawn;
      var k := 0;
      ghost var done: set<ClientId> := {};
      while k < |existing|
        invariant 0 <= k <= |existing| && (forall d :: d in done <==> d in existing[..k])
        invariant r in rooms && Drawn(lifecycles, rooms[r].members, before, r, c, member, done)
        invariant rooms == old(rooms)[r := old(rooms)[r].(members := rooms[r].members)]
      {
        var d := existing[k];
        assert d in existing && d !in existing[..k];
        DrawnMore(lifecycles, rooms[r].members, before, r, c, member, done, d);
        var lifecycle := NextLifecycle(r, d);
        rooms := rooms[r := rooms[r].(members := rooms[r].members[d := rooms[r].members[d].(lifecycle := lifecycle)])];
        assert existing[..k + 1] == existing[..k] + [d];
        done := done + {d};
        k := k + 1;
      }
      assert existing[..k] == existing;
      assert done == before.rooms[r].members.Keys;
    }

    /** The part of an upgrade's start that changes members, ids and the assignment. */
    method BeginUpgrade(ticket: Ticket, now: Instant, r: RoomId, c: ClientId, token: string, i: InstanceId)
      requires r in rooms && c !in rooms[r].members && i in workers
      modifies this`rooms, this`lifecycles, this`workers
      ensures State() == V2Steps.BeginUpgrade(old(State()), ticket, now, r, c, token, i)
    {
      hide Drawn, Ascending, V2Steps.BeginUpgrade, Lists, SortedSeq, V2Steps.NextLifecycle;
      ghost var before := State();
      var room := rooms[r];
      var existing := Sorted(room.members.Keys);
      SortedSeqLists(room.members.Keys);
      var lifecycle := NextLifecycle(r, c);
      var member := NewMember(now, grace, token, false, lifecycle);
      rooms := rooms[r := room.(members := room.members[c := member], mode := Upgrading,
                                assignmentEpoch := room.assignmentEpoch + 1, instance := Some(i))];
      DrawnFirst(before, r, c, member);
      DrawForMembers(r, c, member, existing, before);
      rooms := rooms[r := rooms[r].(upgrade := Some(Upgrade(ticket, c, existing + [c], [], 0)))];
      workers := workers[i := workers[i].(rooms := workers[i].rooms + {r}, clients := workers[i].clients + 3)];
      DrawnAll(lifecycles, rooms[r].members, before, now, r, c, token, ticket, i);
    }

    method StartUpgrade(ticket: Ticket, now: Instant, r: RoomId, c: ClientId, token: string, i: InstanceId)
      returns (result: Result<AdmissionResult, string>)
      requires r in rooms && c !in rooms[r].members && i in workers
      modifies this
      ensures (State(), result) == V2Steps.StartUpgrade(old(State()), ticket, now, r, c, token, i)
    {
      hide V2Steps.BeginUpgrade, V2Steps.IssueNextUpgradeJoin, UpgradingRoom, FreshLifecycles;
      BeginFields(State(), ticket, now, r, c, token, i);
      BarrierLabels(State(), ticket, now, r, c, token, i);
      BeginUpgrade(ticket, now, r, c, token, i);
      var issue := IssueNextUpgradeJoin(r);
      result := if issue.Ok? then Ok(AdmissionPending) else Err(issue.error);
    }

    method AdmitToSfu(ticket: Ticket, now: Instant, r: RoomId, c: ClientId, token: string)
      returns (result: Result<AdmissionResult, string>)
      requires r in rooms
      modifies this
      ensures (State(), result) == V2Steps.AdmitToSfu(old(State()), ticket, now, r, c, token)
    {
      var room := rooms[r];
      if room.instance.None? { return Err("WORKER_UNAVAILABLE"); }
      var i := room.instance.value;
      var connection := ConnectionOf(i);
      if connection.None? { return Err("WORKER_UNAVAILABLE"); }
      var lifecycle := NextLifecycle(r, c);
      rooms := rooms[r := room.(members := room.members[c := NewMember(now, grace, token, false, lifecycle)],
                                pendingJoin := Some(PendingJoin(ticket, c)), downgradeDeadline := None)];
      var join := JoinMember(r, c, lifecycle, room.assignmentEpoch);
      SendCommand(i, connection.value, JoinCommand(join), SfuJoin(i, join));
      result := Ok(AdmissionPending);
    }

    /** The first client, which leads. */
    method CreateRoom(now: Instant, r: RoomId, c: ClientId, token: string) returns (result: Result<AdmissionResult, string>)
      requires r !in rooms
      modifies this
      ensures (State(), result) == V2Steps.CreateRoom(old(State()), now, r, c, token)
    {
      var lifecycle := NextLifecycle(r, c);
      var member := NewMember(now, grace, token, true, lifecycle);
      rooms := rooms[r := Room(map[c := member], P2p, 0, 0, None, None, None, None, None)];
      result := Ok(Complete(Admission(P2p, 0, token, Some(true))));
    }

    /** The second client. */
    method AdmitToP2p(now: Instant, r: RoomId, c: ClientId, token: string) returns (result: Result<AdmissionResult, string>)
      requires r in rooms
      modifies this
      ensures (State(), result) == V2Steps.AdmitToP2p(old(State()), now, r, c, token)
    {
      var room := rooms[r];
      var lifecycle := NextLifecycle(r, c);
      var member := NewMember(now, grace, token, false, lifecycle);
      rooms := rooms[r := room.(members := room.members[c := member])];
      result := Ok(Complete(Admission(P2p, room.signalEpoch, token, Some(false))));
    }

    method Admit(ticket: Ticket, now: Instant, r: RoomId, c: ClientId, token: string)
      returns (result: Result<AdmissionResult, string>)
      requires Valid()
      modifies this
      ensures (State(), result) == V2Steps.Admit(old(State()), ticket, now, r, c, token)
      ensures Valid()
    {
      hide V2Steps.StartUpgrade, V2Steps.AdmitToSfu, V2Steps.SelectWorker, V2Steps.CreateRoom, V2Steps.AdmitToP2p, Base,
           LessLoaded, Selectable;
      AdmitValid(State(), ticket, now, r, c, token);
      if r in rooms && c in rooms[r].members {
        result := Err("DUPLICATE_CLIENT");
      } else if r !in rooms {
        result := CreateRoom(now, r, c, token);
      } else {
        var room := rooms[r];
        match room.mode {
          case Upgrading => result := Err("ROOM_TRANSITION");
          case Failed => result := Err("WORKER_UNAVAILABLE");
          case Sfu =>
            if room.pendingJoin.Some? || room.pendingLeave.Some? {
              result := Err("ROOM_TRANSITION");
            } else {
              result := AdmitToSfu(ticket, now, r, c, token);
            }
          case P2p =>
            if |room.members| < MAX_P2P_MEMBERS {
              result := AdmitToP2p(now, r, c, token);
            } else {
              var selected := SelectWorker(3);
              if selected.None? {
                result := Err("NO_SFU_AVAILABLE");
              } else {
                result := StartUpgrade(ticket, now, r, c, token, selected.value);
              }
            }
        }
      }
    }

    // ---- browsers ----

    /** Admit a registered browser, and hand it what its peers have queued for it. */
    method Register(r: RoomId, c: ClientId, token: string)
      returns (result: Result<Registration, string>, ghost order: seq<ClientId>)
      requires Valid()
      modifies this`rooms
      ensures ListsMembers(old(State()), r, order)
      ensures (State(), result) == V2Steps.Register(old(State()), r, c, token, order)
      ensures Valid()
    {
      hide Base, QueuedFor, RegisteredMembers, Lists, DrainedOf;
      ghost var before := State();
      order := if r in rooms then AnyListing(rooms[r].members.Keys) else [];
      if r !in rooms {
        result := Err("UNAUTHORIZED");
      } else {
        var room := rooms[r];
        if room.mode == Upgrading {
          result := Err("ROOM_TRANSITION");
        } else if c !in room.members || room.members[c].token != token {
          result := Err("UNAUTHORIZED");
        } else if room.members[c].registered {
          result := Err("Duplicated registration");
        } else {
          var queued;
          queued, order := MarkRegistered(r, c);
          result := Ok(Registration(room.mode, room.signalEpoch,
                                    if room.mode == P2p then Some(room.members[c].isInitiator) else None, queued));
        }
      }
      RegisterValid(before, r, c, token, order);
    }

    /** The member is connected; in a direct room, what the others have queued is taken out. */
    method MarkRegistered(r: RoomId, c: ClientId) returns (queued: seq<string>, ghost order: seq<ClientId>)
      requires r in rooms && c in rooms[r].members
      modifies this`rooms
      ensures Lists(order, old(rooms)[r].members.Keys)
      ensures queued == if old(rooms)[r].mode == P2p then QueuedFor(old(rooms)[r].members, c, order) else []
      ensures var room := old(rooms)[r];
              State() == PutRoom(old(State()), r, room.(members := RegisteredMembers(room.members, c, room.mode == P2p)))
    {
      hide QueuedFor, RegisteredMembers, Lists, DrainedOf;
      var room := rooms[r];
      queued, order := [], AnyListing(room.members.Keys);
      if room.mode == P2p { queued, order := DrainOthers(r, c); }
      var members := rooms[r].members;
      rooms := rooms[r := rooms[r].(members := members[c := members[c].(registered := true, deadline := None)])];
      assert rooms == old(rooms)[r := room.(members := rooms[r].members)];
      RegisteredIs(room.members, c, room.mode == P2p, rooms[r].members);
    }

    /** Empty the queues of everyone but `c`, in iteration order. */
    method DrainOthers(r: RoomId, c: ClientId) returns (queued: seq<string>, ghost order: seq<ClientId>)
      requires r in rooms
      modifies this`rooms
      ensures Lists(order, old(rooms)[r].members.Keys) && queued == QueuedFor(old(rooms)[r].members, c, order)
      ensures r in rooms && rooms == old(rooms)[r := old(rooms)[r].(members := rooms[r].members)]
      ensures rooms[r].members == Drained(old(rooms)[r].members, c)
      ensures rooms[r].members.Keys == old(rooms)[r].members.Keys
    {
      hide DrainedOf, QueuedFor;
      ghost var before := rooms[r].members;
      DrainedNone(before, c);
      var clients := Collect(rooms[r].members.Keys);
      order := clients;
      queued := [];
      var k := 0;
      ghost var done: set<ClientId> := {};
      assert QueuedFor(before, c, []) == [] by { NothingQueued(before, c); }
      while k < |clients|
        invariant 0 <= k <= |clients| && (forall d :: d in done <==> d in clients[..k])
        invariant queued == QueuedFor(before, c, clients[..k])
        invariant r in rooms && rooms == old(rooms)[r := old(rooms)[r].(members := rooms[r].members)]
        invariant rooms[r].members == DrainedOf(before, c, done)
      {
        var d := clients[k];
        assert d in clients && d !in clients[..k];
        assert clients[..k + 1] == clients[..k] + [d];
        QueuedForSnoc(before, c, clients[..k], d);
        DrainedMore(before, c, done, d);
        if d != c {
          queued := queued + rooms[r].members[d].queue;
          rooms := rooms[r := rooms[r].(members := rooms[r].members[d := rooms[r].members[d].(queue := [])])];
        } else {
          assert queued + [] == queued;
        }
        done := done + {d};
        k := k + 1;
      }
      assert clients[..k] == clients;
      assert done == before.Keys;
      DrainedKeys(before, c);
    }

    /** Put an SFU Leave for a member in flight, if one can be sent now. */
    method IssueSfuLeave(r: RoomId, c: ClientId, reason: LeaveReason, removal: Option<Ticket>) returns (issued: bool)
      modifies this
      ensures var left := V2Steps.IssueSfuLeave(old(State()), r, c, removal, reason);
              issued == left.Some? && State() == if left.Some? then left.value else old(State())
    {
      if r !in rooms { return false; }
      var room := rooms[r];
      if room.mode != Sfu || room.pendingLeave.Some? || c !in room.members || room.instance.None? { return false; }
      var i := room.instance.value;
      var connection := ConnectionOf(i);
      if connection.None? { return false; }
      var lifecycle := room.members[c].lifecycle;
      rooms := rooms[r := room.(pendingLeave := Some(PendingLeave(removal, c)))];
      SendCommand(i, connection.value, LeaveCommand(LeaveMember(r, c, lifecycle, room.assignmentEpoch, reason)),
                  SfuLeave(i, r, c, lifecycle, room.assignmentEpoch));
      issued := true;
    }

    method SetReconnectDeadline(r: RoomId, c: ClientId, deadline: Instant)
      modifies this`rooms
      ensures State() == SetDeadline(old(State()), r, c, deadline)
    {
      if r in rooms && c in rooms[r].members {
        var member := rooms[r].members[c].(deadline := Some(deadline));
        rooms := rooms[r := rooms[r].(members := rooms[r].members[c := member])];
      }
    }

    /** A browser has gone: in an SFU room its Leave goes out at once, if it can; otherwise it has
        until the end of its grace to come back. */
    method Deregister(now: Instant, r: RoomId, c: ClientId)
      requires Valid()
      modifies this
      ensures State() == V2Steps.Deregister(old(State()), now, r, c)
      ensures Valid()
    {
      hide Base, V2Steps.IssueSfuLeave, SetDeadline, WithMember;
      DeregisterValid(State(), now, r, c);
      if r in rooms && c in rooms[r].members && rooms[r].members[c].registered {
        var room := rooms[r];
        MarkOffline(r, c);
        var left := false;
        if room.mode == Sfu { left := IssueSfuLeave(r, c, LeaveReason.Disconnected, None); }
        if !left { SetReconnectDeadline(r, c, now + grace); }
      }
    }

    method MarkOffline(r: RoomId, c: ClientId)
      requires r in rooms && c in rooms[r].members
      modifies this`rooms
      ensures State() == PutRoom(old(State()), r, WithMember(old(rooms)[r], c, old(rooms)[r].members[c].(registered := false)))
    {
      var room := rooms[r];
      rooms := rooms[r := room.(members := room.members[c := room.members[c].(registered := false)])];
    }

    /** Queue a message for a peer that is not there yet. */
    method PushQueued(r: RoomId, c: ClientId, message: string) returns (result: Result<SendResult, string>)
      requires r in rooms && c in rooms[r].members
      modifies this`rooms
      ensures (State(), result) == Enqueue(old(State()), r, c, message)
    {
      var member := rooms[r].members[c];
      if |member.queue| >= MAX_QUEUED_MESSAGES { return Err("RESOURCE_EXHAUSTED"); }
      rooms := rooms[r := rooms[r].(members := rooms[r].members[c := member.(queue := member.queue + [message])])];
      result := Ok(ToPeer(None));
    }

    /** Carry a browser's frame: to the worker, to the peer, into the queue, or nowhere. */
    method Send(r: RoomId, c: ClientId, epoch: nat, message: string)
      returns (result: Result<SendResult, string>, ghost order: seq<ClientId>)
      requires Valid()
      modifies this
      ensures ListsMembers(old(State()), r, order)
      ensures (State(), result) == V2Steps.Send(old(State()), r, c, epoch, message, order)
      ensures Valid()
    {
      hide Base, Enqueue, Lists;
      ghost var before := State();
      order := if r in rooms then AnyListing(rooms[r].members.Keys) else [];
      if r !in rooms {
        result := Err("CLIENT_NOT_FOUND");
      } else {
        var room := rooms[r];
        if room.signalEpoch != epoch || room.mode == Upgrading {
          result := Ok(Dropped);
        } else if c !in room.members {
          result := Err("CLIENT_NOT_FOUND");
        } else if room.mode == Sfu {
          var connection := RoomConnectionOf(room);
          if connection.None? {
            result := Err("WORKER_UNAVAILABLE");
          } else {
            var signal := Signal(r, c, room.members[c].lifecycle, room.assignmentEpoch, message, None);
            SendCommand(room.instance.value, connection.value, SignalCommand(signal), SignalPending);
            result := Ok(ToSfu);
          }
        } else {
          var clients := Collect(room.members.Keys);
          order := clients;
          var peer := FindOther(clients, c);
          if peer.Some? && peer.value in room.members && room.members[peer.value].registered {
            result := Ok(ToPeer(Some(Delivery(r, peer.value, message))));
          } else {
            result := PushQueued(r, c, message);
          }
        }
      }
      SendValid(before, r, c, epoch, message, order);
    }

    method FindOther(clients: seq<ClientId>, c: ClientId) returns (peer: Option<ClientId>)
      ensures peer == FirstOther(clients, c)
    {
      var k := 0;
      while k < |clients|
        invariant 0 <= k <= |clients| && FirstOther(clients, c) == FirstOther(clients[k..], c)
      {
        if clients[k] != c { return Some(clients[k]); }
        k := k + 1;
      }
      peer := None;
    }

    /** Take a member out of its room, at once or through its worker. */
    method Remove(ticket: Ticket, r: RoomId, c: ClientId, token: string) returns (result: Result<RemovalResult, string>)
      requires Valid()
      modifies this
      ensures (State(), result) == V2Steps.Remove(old(State()), ticket, r, c, token)
      ensures Valid()
    {
      hide Base, V2Steps.IssueSfuLeave, Survivors, PromotionOf;
      RemoveValid(State(), ticket, r, c, token);
      if r !in rooms {
        result := Err("ROOM_NOT_FOUND");
      } else {
        var room := rooms[r];
        if c !in room.members {
          result := Err("CLIENT_NOT_FOUND");
        } else if room.members[c].token != token {
          result := Err("UNAUTHORIZED");
        } else if room.mode == Upgrading || room.pendingJoin.Some? || room.pendingLeave.Some? {
          result := Err("ROOM_TRANSITION");
        } else if room.mode == Sfu {
          var left := IssueSfuLeave(r, c, User, Some(ticket));
          result := if left then Ok(RemovalPending) else Err("WORKER_UNAVAILABLE");
        } else {
          var promotion := None;
          var rest := room.(members := room.members - {c});
          if room.mode == P2p { rest, promotion := PromoteSurvivor(r, rest); }
          StoreOrReap(r, rest);
          result := Ok(Removed(promotion));
        }
      }
    }

    method StoreOrReap(r: RoomId, room: Room)
      modifies this`rooms
      ensures State() == PutOrReap(old(State()), r, room)
    {
      if room.members == map[] { rooms := rooms - {r}; } else { rooms := rooms[r := room]; }
    }

    /** A lone P2P member starts over as the initiator, and is told if it is connected. */
    static method PromoteSurvivor(r: RoomId, room: Room) returns (left: Room, promotion: Option<Promotion>)
      ensures left == Survivors(room) && promotion == PromotionOf(r, room)
    {
      left, promotion := room, None;
      if |room.members| == 1 && room.mode == P2p {
        var c :| c in room.members;
        Alone(room.members, c);
        left := room.(members := room.members[c := room.members[c].(isInitiator := true, queue := [])]);
        if room.members[c].registered { promotion := Some(Promotion(r, c, room.signalEpoch)); }
      }
    }

    method PollAction() returns (action: Option<Action>)
      requires Valid()
      modifies this`actions
      ensures State() == V2Steps.PollAction(old(State())) && Valid()
      ensures action == if old(actions) == [] then None else Some(old(actions)[0])
    {
      hide Base;
      PollValid(State());
      action := None;
      if actions != [] {
        action := Some(actions[0]);
        actions := actions[1..];
      }
    }

    // ---- upgrades ----

    /** Everyone starts over with an empty queue, and `initiator`, if there is one, as initiator. */
    method ResetMembers(r: RoomId, initiator: Option<ClientId>)
      requires r in rooms
      modifies this`rooms
      ensures r in rooms && rooms == old(rooms)[r := old(rooms)[r].(members := rooms[r].members)]
      ensures rooms[r].members == ResetOf(old(rooms)[r].members, initiator, old(rooms)[r].members.Keys)
    {
      hide ResetOf;
      ghost var before := rooms[r].members;
      ResetNone(before, initiator);
      var todo := rooms[r].members.Keys;
      while todo != {}
        invariant todo <= before.Keys
        invariant r in rooms && rooms == old(rooms)[r := old(rooms)[r].(members := rooms[r].members)]
        invariant rooms[r].members == ResetOf(before, initiator, before.Keys - todo)
        decreases |todo|
      {
        var c :| c in todo;
        ResetMore(before, initiator, before.Keys - todo, c);
        assert before.Keys - todo + {c} == before.Keys - (todo - {c});
        var member := rooms[r].members[c].(queue := [], isInitiator := initiator == Some(c));
        rooms := rooms[r := rooms[r].(members := rooms[r].members[c := member])];
        todo := todo - {c};
      }
      assert before.Keys - {} == before.Keys;
    }

    method CommitUpgrade(r: RoomId) returns (result: Result<(), string>)
      modifies this`rooms, this`actions
      ensures State() == V2Steps.CommitUpgrade(old(State()), r).0
      ensures result.Ok? == V2Steps.CommitUpgrade(old(State()), r).1.Ok?
      ensures result.Err? ==> result == V2Steps.CommitUpgrade(old(State()), r).1
    {
      hide CommittedRoom, ResetOf;
      if r !in rooms { return Err("ROOM_NOT_FOUND"); }
      var room := rooms[r];
      if room.upgrade.None? { return Err("ROOM_TRANSITION"); }
      var upgrade := room.upgrade.value;
      ResetMembers(r, None);
      rooms := rooms[r := rooms[r].(upgrade := None, mode := Sfu, signalEpoch := room.signalEpoch + 1)];
      CommittedIs(room, rooms[r]);
      assert State() == PutRoom(old(State()), r, CommittedRoom(room));
      if upgrade.joining !in room.members { return Err("CLIENT_NOT_FOUND"); }
      var admission := Admission(Sfu, rooms[r].signalEpoch, room.members[upgrade.joining].token, None);
      actions := actions + [Upgraded(r, rooms[r].signalEpoch, room.members.Keys - {upgrade.joining})];
      actions := actions + [AdmissionCompleted(upgrade.ticket, Ok(admission))];
      result := Ok(());
    }

    /** One Leave for each of `clients`, so that a worker drops what it was asked to take. */
    method SendCleanup(r: RoomId, i: InstanceId, connection: ConnectionId, clients: seq<ClientId>, epoch: nat)
      returns (result: Result<(), string>)
      modifies this`nextRequest, this`pending, this`owners, this`unacked, this`issued, this`actions
      ensures State() == CleanupLeaves(old(State()), r, i, connection, clients, epoch).0
      ensures result.Ok? == CleanupLeaves(old(State()), r, i, connection, clients, epoch).1.Ok?
      ensures result.Err? ==> result == CleanupLeaves(old(State()), r, i, connection, clients, epoch).1
    {
      var k := 0;
      while k < |clients|
        invariant 0 <= k <= |clients|
        invariant CleanupLeaves(State(), r, i, connection, clients[k..], epoch)
                  == CleanupLeaves(old(State()), r, i, connection, clients, epoch)
      {
        var c := clients[k];
        assert clients[k..][1..] == clients[k + 1..];
        if r !in rooms || c !in rooms[r].members { return Err("CLIENT_NOT_FOUND"); }
        SendCommand(i, connection, LeaveCommand(LeaveMember(r, c, rooms[r].members[c].lifecycle, epoch, RoomClosed)),
                    CleanupPending);
        k := k + 1;
      }
      result := Ok(());
    }

    /** Take a room off a worker's books. */
    method Release(r: RoomId, i: InstanceId, clients: nat)
      modifies this`workers
      ensures State() == Unassign(old(State()), r, i, clients)
    {
      if i in workers {
        var worker := workers[i];
        workers := workers[i := worker.(rooms := worker.rooms - {r}, clients := SaturatingSub(worker.clients, clients))];
      }
    }

    method AbortUpgrade(r: RoomId, reason: string) returns (result: Result<(), string>)
      modifies this
      ensures State() == V2Steps.AbortUpgrade(old(State()), r, reason).0
      ensures result.Ok? == V2Steps.AbortUpgrade(old(State()), r, reason).1.Ok?
      ensures result.Err? ==> result == V2Steps.AbortUpgrade(old(State()), r, reason).1
    {
      hide CleanupLeaves, Unassign;
      if r !in rooms { return Err("ROOM_NOT_FOUND"); }
      var room := rooms[r];
      if room.upgrade.None? { return Err("ROOM_TRANSITION"); }
      var upgrade := room.upgrade.value;
      rooms := rooms[r := room.(members := room.members - {upgrade.joining}, upgrade := None, mode := P2p,
                                instance := None)];
      if room.instance.None? { return Err("WORKER_UNAVAILABLE"); }
      var i := room.instance.value;
      Release(r, i, 3);
      var connection := ConnectionOf(i);
      if connection.Some? {
        result := SendCleanup(r, i, connection.value, upgrade.joined, room.assignmentEpoch);
        if result.Err? { return; }
      }
      actions := actions
        + [AdmissionCompleted(upgrade.ticket, Err(if reason == "" then "WORKER_UNAVAILABLE" else reason))];
      result := Ok(());
    }

    // ---- downgrades ----

    method CommitDowngrade(r: RoomId) returns (ghost order: seq<ClientId>)
      requires r in rooms && rooms[r].members != map[]
      modifies this
      ensures Lists(order, old(rooms)[r].members.Keys)
      ensures State() == V2Steps.CommitDowngrade(old(State()), r, order)
    {
      hide CleanupLeaves, Unassign, DowngradedRoom, ResetOf, Lists, SortedSeq;
      var room := rooms[r];
      var clients := Sorted(room.members.Keys);
      var leaving := Collect(room.members.Keys);
      order := leaving;
      LeastFirst(room.members.Keys);
      var initiator := clients[0];
      ResetMembers(r, Some(initiator));
      rooms := rooms[r := rooms[r].(mode := P2p, signalEpoch := room.signalEpoch + 1, instance := None,
                                    downgradeDeadline := None)];
      DowngradedIs(room, rooms[r]);
      assert State() == PutRoom(old(State()), r, DowngradedRoom(room));
      if room.instance.Some? {
        var i := room.instance.value;
        Release(r, i, |room.members|);
        var connection := ConnectionOf(i);
        if connection.Some? {
          var sent := SendCleanup(r, i, connection.value, leaving, room.assignmentEpoch);
        }
      }
      assert State() == ReleaseWorker(PutRoom(old(State()), r, DowngradedRoom(room)), r, room, order);
      actions := actions + [Downgraded(r, room.signalEpoch + 1, initiator, clients)];
      assert DowngradedRoom(room).signalEpoch == room.signalEpoch + 1 by { DowngradedEpoch(room); }
    }

    /** Start the dwell before a downgrade, or keep it running, or call it off. */
    method ArmDowngrade(r: RoomId, now: Instant)
      requires r in rooms
      modifies this`rooms
      ensures State() == PutRoom(old(State()), r, Armed(dwell, old(rooms)[r], now))
    {
      var room := rooms[r];
      if DowngradeEligible(room) {
        if room.downgradeDeadline.None? { rooms := rooms[r := room.(downgradeDeadline := Some(now + dwell))]; }
      } else {
        rooms := rooms[r := room.(downgradeDeadline := None)];
      }
      assert rooms == old(rooms)[r := Armed(dwell, old(rooms)[r], now)];
    }

    method FailRoom(r: RoomId, reason: string)
      modifies this`rooms, this`actions
      ensures State() == V2Steps.FailRoom(old(State()), r, reason)
    {
      if r in rooms {
        actions := actions + [RoomFailed(r, rooms[r].members.Keys, reason)];
        rooms := rooms[r := rooms[r].(mode := Failed)];
      }
    }

    // ---- workers ----

    method ForgetCommands(qs: set<RequestId>)
      modifies this`pending, this`unacked, this`owners
      ensures State() == Forget(old(State()), qs)
    {
      var ids := Collect(qs);
      var k := 0;
      ghost var done: set<RequestId> := {};
      while k < |ids|
        invariant 0 <= k <= |ids| && (forall q :: q in done <==> q in ids[..k])
        invariant pending == old(pending) - done && unacked == old(unacked) - done && owners == old(owners) - done
      {
        assert ids[..k + 1] == ids[..k] + [ids[k]];
        pending, unacked, owners := pending - {ids[k]}, unacked - {ids[k]}, owners - {ids[k]};
        done := done + {ids[k]};
        k := k + 1;
      }
      assert ids[..k] == ids;
      assert done == qs;
    }

    /** What worker `i` has not answered for room `r`, other than SyncRooms. */
    method CollectReplay(i: InstanceId, r: RoomId, commands: seq<RequestId>) returns (replay: seq<Command>)
      ensures replay == Replay(State(), i, r, commands)
    {
      replay := [];
      var k := 0;
      while k < |commands|
        invariant 0 <= k <= |commands| && replay == Replay(State(), i, r, commands[..k])
      {
        var q := commands[k];
        assert commands[..k + 1] == commands[..k] + [q];
        ReplaySnoc(State(), i, r, commands[..k], q);
        if q in owners && owners[q] == i && !(q in pending && pending[q].SyncPending?)
           && q in unacked && CommandRoom(unacked[q]) == r
        {
          replay := replay + [unacked[q]];
        } else {
          assert replay + [] == replay;
        }
        k := k + 1;
      }
      assert commands[..k] == commands;
    }

    method Resync(i: InstanceId, connection: ConnectionId, r: RoomId, commands: seq<RequestId>)
      modifies this`nextRequest, this`pending, this`owners, this`unacked, this`issued, this`actions
      ensures State() == ResyncRoom(old(State()), i, connection, r, commands)
    {
      if r !in rooms { return; }
      var room := rooms[r];
      var replay := CollectReplay(i, r, commands);
      var members := map c | c in room.members :: room.members[c].lifecycle;
      assert members == Projection(room);
      hide Replay, Projection;
      SendCommand(i, connection, SyncCommand(SyncRoom(r, room.assignmentEpoch, members)),
                  SyncPending(i, r, room.assignmentEpoch, replay));
    }

    method Connect(connection: ConnectionId, i: InstanceId, request: RequestId, capacity: Capacity)
      modifies this`workers, this`actions, this`pending, this`unacked, this`owners
      ensures State() == OpenSession(old(State()), connection, i, request, capacity)
    {
      var resumed := i in workers;
      var previous := ConnectionOf(i);
      var worker := if resumed then workers[i] else Worker(None, capacity, None, {}, 0, {}, [], None);
      workers := workers[i := worker.(connection := Some(connection), capacity := capacity, health := None, deadline := None)];
      if previous.Some? && previous.value != connection {
        actions := actions + [SfuOut(CloseWorker(previous.value))];
      }
      actions := actions + [SfuOut(Registered(connection, request, HEALTH_INTERVAL_MS, resumed))];
      ghost var before := State();
      assert before.pending == old(pending);
      ForgetCommands(set q | q in pending && pending[q].SyncPending? && pending[q].instance == i);
      assert (set q | q in before.pending && before.pending[q].SyncPending? && before.pending[q].instance == i)
          == Superseded(old(State()), i);
      hide Superseded;
    }

    /** A worker starts or resumes its session: every room assigned to it is synchronised. */
    method RegisterWorker(connection: ConnectionId, i: InstanceId, request: RequestId, capacity: Capacity)
      returns (ghost hosted: seq<RoomId>, ghost commands: seq<RequestId>)
      requires Valid()
      modifies this
      ensures ProperOrders(old(State()), WorkerStep(connection, i, request, capacity, hosted, commands))
      ensures State() == V2Steps.RegisterWorker(old(State()), connection, i, request, capacity, hosted, commands)
      ensures Valid()
    {
      hide Base, OpenSession, ResyncRoom;
      ghost var before := State();
      ghost var session := OpenSession(before, connection, i, request, capacity);
      SessionHas(before, connection, i, request, capacity);
      if InvalidRegistration(i, request, capacity) {
        hosted, commands := AnyListing(session.workers[i].rooms), AnyListing(session.owners.Keys);
        actions := actions
          + [SfuOut(RegistrationError(connection, request, WorkerError("INVALID_REQUEST", false)))];
      } else {
        Connect(connection, i, request, capacity);
        var rs := Collect(workers[i].rooms);
        var qs := Collect(owners.Keys);
        hosted, commands := rs, qs;
        hide Lists;
        var k := 0;
        while k < |rs|
          invariant 0 <= k <= |rs|
          invariant ResyncRooms(State(), i, connection, rs[k..], qs) == ResyncRooms(session, i, connection, rs, qs)
        {
          assert rs[k..][1..] == rs[k + 1..];
          Resync(i, connection, rs[k], qs);
          k := k + 1;
        }
      }
      WorkerValid(before, connection, i, request, capacity, hosted, commands);
    }

    /** A worker's connection is lost: it has until the end of its grace to come back. */
    method Disconnected(connection: ConnectionId, i: InstanceId, now: Instant)
      requires Valid()
      modifies this`workers
      ensures State() == LoseWorker(old(State()), connection, i, now)
      ensures Valid()
    {
      hide Base;
      LostValid(State(), connection, i, now);
      if i in workers && workers[i].connection == Some(connection) {
        workers := workers[i := workers[i].(connection := None, health := None, deadline := Some(now + grace))];
      }
    }

    /** Note an event id in the worker's window, dropping the oldest when the window is full. */
    method RememberEvent(i: InstanceId, id: nat)
      requires i in workers
      modifies this`workers
      ensures State() == PutWorker(old(State()), i, Remember(old(workers)[i], id))
    {
      var worker := workers[i];
      worker := worker.(seen := worker.seen + {id}, seenOrder := worker.seenOrder + [id]);
      if |worker.seenOrder| > EVENT_DEDUP_CAPACITY {
        worker := worker.(seen := worker.seen - {worker.seenOrder[0]}, seenOrder := worker.seenOrder[1..]);
      }
      workers := workers[i := worker];
    }

    /** Pass a worker's signal on to its member, if room, assignment and lifecycle are current. */
    method RelayWorkerSignal(connection: ConnectionId, i: InstanceId, id: nat, signal: Signal)
      returns (result: Result<(), string>)
      modifies this`actions
      ensures State() == RelaySignal(old(State()), connection, i, id, signal).0
      ensures result.Ok? == RelaySignal(old(State()), connection, i, id, signal).1.Ok?
      ensures result.Err? ==> result == RelaySignal(old(State()), connection, i, id, signal).1
    {
      if signal.room !in rooms { return Err("ROOM_NOT_FOUND"); }
      var room := rooms[signal.room];
      if signal.client !in room.members { return Err("CLIENT_NOT_FOUND"); }
      if room.mode != Sfu || room.instance != Some(i) || room.assignmentEpoch != signal.assignmentEpoch
         || room.members[signal.client].lifecycle != signal.lifecycle
      {
        return Err("STALE_ASSIGNMENT");
      }
      actions := actions + [Deliver(Delivery(signal.room, signal.client, signal.message)), SfuOut(EventAck(connection, id))];
      result := Ok(());
    }

    method HandleWorkerEvent(connection: ConnectionId, i: InstanceId, event: Event) returns (result: Result<(), string>)
      requires Valid()
      modifies this
      ensures State() == HandleEvent(old(State()), connection, i, event).0
      ensures result.Ok? == HandleEvent(old(State()), connection, i, event).1.Ok?
      ensures result.Err? ==> result == HandleEvent(old(State()), connection, i, event).1
      ensures Valid()
    {
      hide Base, Remember, FreshEvent;
      EventValid(State(), connection, i, event);
      if i !in workers {
        result := Err("UNKNOWN_SFU");
      } else if workers[i].connection != Some(connection) || event.id == 0 {
        result := Err("STALE_SFU_SESSION");
      } else if event.id in workers[i].seen {
        actions := actions + [SfuOut(EventAck(connection, event.id))];
        result := Ok(());
      } else {
        RememberEvent(i, event.id);
        result := ActOnEvent(connection, i, event);
      }
    }

    /** An event seen for the first time. */
    method ActOnEvent(connection: ConnectionId, i: InstanceId, event: Event) returns (result: Result<(), string>)
      requires i in workers
      modifies this
      ensures State() == FreshEvent(old(State()), connection, i, event).0
      ensures result.Ok? == FreshEvent(old(State()), connection, i, event).1.Ok?
      ensures result.Err? ==> result == FreshEvent(old(State()), connection, i, event).1
    {
      hide RelaySignal, V2Steps.FailRoom;
      match event.kind {
        case HealthEvent(health) =>
          workers := workers[i := workers[i].(capacity := health.capacity, health := Some(health))];
          actions := actions + [SfuOut(EventAck(connection, event.id))];
          result := Ok(());
        case SignalEvent(signal) =>
          result := RelayWorkerSignal(connection, i, event.id, signal);
        case FailureEvent(error, failed) =>
          if failed.Some? { FailRoom(failed.value, error.reason); }
          actions := actions + [SfuOut(EventAck(connection, event.id))];
          result := Ok(());
      }
    }

    // ---- command results ----

    /** A SyncRoom is answered: replay what was waiting for it, or fail the room. */
    method SyncAnswered(connection: ConnectionId, i: InstanceId, p: PendingCommand, result: CommandResult)
      requires p.SyncPending?
      modifies this
      ensures State() == SyncResult(old(State()), connection, i, p, result).0
    {
      if p.instance != i || !Synced(result, p.room, p.assignmentEpoch) {
        FailRoom(p.room, "WORKER_UNAVAILABLE");
      } else {
        var k := 0;
        while k < |p.replay|
          invariant 0 <= k <= |p.replay|
          invariant PushCommands(State(), connection, p.replay[k..]) == PushCommands(old(State()), connection, p.replay)
        {
          assert p.replay[k..][1..] == p.replay[k + 1..];
          actions := actions + [SfuOut(CommandOut(connection, p.replay[k]))];
          k := k + 1;
        }
      }
    }

    /** An UpgradeJoin is answered: give the upgrade up, move its barrier on, or commit it. */
    method UpgradeJoinAnswered(i: InstanceId, p: PendingCommand, result: CommandResult)
      returns (outcome: Result<(), string>)
      requires p.UpgradeJoin?
      requires p.join.room in rooms && rooms[p.join.room].upgrade.Some? ==>
                 rooms[p.join.room].upgrade.value.next < |rooms[p.join.room].upgrade.value.ordered|
      modifies this
      ensures State() == UpgradeJoinResult(old(State()), i, p, result).0
      ensures outcome.Ok? == UpgradeJoinResult(old(State()), i, p, result).1.Ok?
      ensures outcome.Err? ==> outcome == UpgradeJoinResult(old(State()), i, p, result).1
    {
      hide V2Steps.AbortUpgrade, V2Steps.CommitUpgrade, V2Steps.IssueNextUpgradeJoin;
      var r := p.join.room;
      if p.instance != i || !Joined(result, p.join) {
        outcome := AbortUpgrade(r, ErrorReason(result));
        return;
      }
      if r !in rooms { return Err("ROOM_NOT_FOUND"); }
      var room := rooms[r];
      if room.upgrade.None? { return Err("ROOM_TRANSITION"); }
      var upgrade := room.upgrade.value;
      rooms := rooms[r := room.(upgrade := Some(upgrade.(joined := upgrade.joined + [p.join.client],
                                                         next := upgrade.next + 1)))];
      if upgrade.next + 1 == |upgrade.ordered| {
        outcome := CommitUpgrade(r);
      } else {
        outcome := IssueNextUpgradeJoin(r);
      }
    }

    /** An SFU Join is answered: the newcomer is in, or out again. */
    method SfuJoinAnswered(i: InstanceId, p: PendingCommand, result: CommandResult) returns (outcome: Result<(), string>)
      requires p.SfuJoin?
      modifies this
      ensures State() == SfuJoinResult(old(State()), i, p, result).0
      ensures outcome.Ok? == SfuJoinResult(old(State()), i, p, result).1.Ok?
      ensures outcome.Err? ==> outcome == SfuJoinResult(old(State()), i, p, result).1
    {
      var r := p.join.room;
      if r !in rooms { return Err("ROOM_NOT_FOUND"); }
      var room := rooms[r];
      if room.pendingJoin.None? { return Err("ROOM_TRANSITION"); }
      var awaited := room.pendingJoin.value;
      rooms := rooms[r := room.(pendingJoin := None)];
      if p.instance == i && Joined(result, p.join) {
        if i in workers { workers := workers[i := workers[i].(clients := workers[i].clients + 1)]; }
        assert State() == CreditWorker(PutRoom(old(State()), r, room.(pendingJoin := None)), i);
        hide CreditWorker;
        if p.join.client !in room.members { return Err("CLIENT_NOT_FOUND"); }
        var admission := Admission(Sfu, room.signalEpoch, room.members[p.join.client].token, None);
        actions := actions + [AdmissionCompleted(awaited.ticket, Ok(admission))];
      } else {
        rooms := rooms[r := rooms[r].(members := room.members - {awaited.client})];
        assert State() == PutRoom(old(State()), r, WithoutMember(room.(pendingJoin := None), awaited.client));
        actions := actions + [AdmissionCompleted(awaited.ticket, Err(ErrorReason(result)))];
      }
      outcome := Ok(());
    }

    /** Answer the removal request behind a Leave, if there was one. */
    method AnswerRemoval(leave: PendingLeave, r: RoomId, c: ClientId, verdict: Result<(), string>)
      modifies this`actions
      ensures State() == PushAll(old(State()), RemovalNotice(leave, r, c, verdict))
    {
      if leave.ticket.Some? {
        actions := actions + [RemovalCompleted(leave.ticket.value, r, c, verdict)];
      } else {
        assert actions + [] == actions;
      }
    }

    /** Take a departed client, and a room that has emptied, off the worker's books. */
    method Debit(i: InstanceId, r: RoomId, empty: bool)
      modifies this`workers
      ensures State() == DebitWorker(old(State()), i, r, empty)
    {
      if i in workers {
        workers := workers[i := workers[i].(clients := SaturatingSub(workers[i].clients, 1))];
        if empty { workers := workers[i := workers[i].(rooms := workers[i].rooms - {r})]; }
      }
    }

    /** An SFU Leave is answered: the member is gone, or stays after all. */
    method SfuLeaveAnswered(i: InstanceId, p: PendingCommand, result: CommandResult, now: Instant)
      returns (outcome: Result<(), string>)
      requires p.SfuLeave?
      modifies this
      ensures State() == SfuLeaveResult(old(State()), i, p, result, now).0
      ensures outcome.Ok? == SfuLeaveResult(old(State()), i, p, result, now).1.Ok?
      ensures outcome.Err? ==> outcome == SfuLeaveResult(old(State()), i, p, result, now).1
    {
      hide RemovalNotice, DebitWorker;
      var r, c := p.room, p.client;
      if r !in rooms { return Err("ROOM_NOT_FOUND"); }
      var room := rooms[r];
      if room.pendingLeave.None? { return Err("ROOM_TRANSITION"); }
      var leave := room.pendingLeave.value;
      if p.instance == i && Left(result, p) {
        var rest := room.(pendingLeave := None, members := room.members - {c});
        ArmedMembers(dwell, rest, now);
        DebitKeeps(State(), i, r, rest.members == map[]);
        Debit(i, r, rest.members == map[]);
        AnswerRemoval(leave, r, c, Ok(()));
        ghost var paid := State();
        if rest.members == map[] {
          rooms := rooms - {r};
        } else {
          rooms := rooms[r := rest];
          ArmDowngrade(r, now);
          assert rooms == paid.rooms[r := Armed(dwell, rest, now)];
        }
        assert State() == PutOrReap(paid, r, Armed(dwell, rest, now)) by { hide Armed; }
        assert rest == WithoutMember(room.(pendingLeave := None), c);
        hide Left, Armed, PutOrReap;
      } else {
        rooms := rooms[r := room.(pendingLeave := None)];
        AnswerRemoval(leave, r, c, Err(ErrorReason(result)));
        hide Left, Armed, PutOrReap, WithoutMember;
      }
      outcome := Ok(());
    }

    method HandleCommandResult(connection: ConnectionId, i: InstanceId, result: CommandResult, now: Instant)
      returns (outcome: Result<(), string>)
      requires Valid()
      modifies this
      ensures State() == HandleResult(old(State()), connection, i, result, now).0
      ensures outcome.Ok? == HandleResult(old(State()), connection, i, result, now).1.Ok?
      ensures outcome.Err? ==> outcome == HandleResult(old(State()), connection, i, result, now).1
      ensures Valid()
    {
      hide Base, SyncResult, UpgradeJoinResult, SfuJoinResult, SfuLeaveResult;
      ResultValid(State(), connection, i, result, now);
      BarriersInRange(State());
      if i !in workers {
        outcome := Err("UNKNOWN_SFU");
      } else if workers[i].connection != Some(connection) {
        outcome := Err("STALE_SFU_SESSION");
      } else if result.id !in pending {
        outcome := Ok(());
      } else {
        var p := pending[result.id];
        ForgetCommands({result.id});
        outcome := Ok(());
        match p {
          case SyncPending(_, _, _, _) => SyncIsOk(State(), connection, i, p, result); SyncAnswered(connection, i, p, result);
          case UpgradeJoin(_, _) => outcome := UpgradeJoinAnswered(i, p, result);
          case SfuJoin(_, _) => outcome := SfuJoinAnswered(i, p, result);
          case SfuLeave(_, _, _, _, _) => outcome := SfuLeaveAnswered(i, p, result, now);
          case SignalPending =>
          case CleanupPending =>
        }
      }
    }

    // ---- timeouts ----

    /** A worker that did not come back: its rooms go back to P2P or fail, and its commands are dropped. */
    method ExpireWorker(i: InstanceId) returns (ghost hosted: seq<RoomId>)
      requires i in workers && UpgradesPresent(State())
      modifies this
      ensures Lists(hosted, old(workers)[i].rooms) && UpgradesPresent(State())
      ensures State() == V2Steps.ExpireWorker(old(State()), i, hosted)
    {
      var rs := Collect(workers[i].rooms);
      hosted := rs;
      hide Lists, V2Steps.ExpireRoom, UpgradesPresent;
      var k := 0;
      while k < |rs|
        invariant 0 <= k <= |rs| && UpgradesPresent(State())
        invariant ExpireRooms(State(), rs[k..]) == ExpireRooms(old(State()), rs)
      {
        assert rs[k..][1..] == rs[k + 1..];
        ghost var trail := ExpireRoomTrail(State(), rs[k], rs[k]);
        ExpireRoom(rs[k]);
        k := k + 1;
      }
      assert rs[k..] == [];
      ghost var expired := State();
      ForgetCommands(set q | q in owners && owners[q] == i);
      assert (set q | q in expired.owners && expired.owners[q] == i) == CommandsOf(expired, i);
      if i in workers {
        workers := workers[i := workers[i].(deadline := None, rooms := {}, clients := 0)];
      }
      SameUpgrades(expired, State());
    }

    method ExpireRoom(r: RoomId)
      requires r in rooms && rooms[r].mode == Upgrading ==> rooms[r].upgrade.Some?
      modifies this
      ensures State() == V2Steps.ExpireRoom(old(State()), r)
    {
      hide V2Steps.AbortUpgrade;
      if r !in rooms { return; }
      var room := rooms[r];
      if room.mode == Upgrading {
        var aborted := AbortUpgrade(r, "WORKER_UNAVAILABLE");
        return;
      }
      ghost var before := State();
      var kept := room;
      if room.pendingJoin.Some? {
        kept := kept.(members := kept.members - {room.pendingJoin.value.client});
        actions := actions + [AdmissionCompleted(room.pendingJoin.value.ticket, Err("WORKER_UNAVAILABLE"))];
      }
      if room.pendingLeave.Some? && room.pendingLeave.value.ticket.Some? {
        actions := actions + [RemovalCompleted(room.pendingLeave.value.ticket.value, r, room.pendingLeave.value.client,
                                               Err("WORKER_UNAVAILABLE"))];
      }
      rooms := rooms[r := kept.(pendingJoin := None, pendingLeave := None, mode := Failed)];
      actions := actions + [RoomFailed(r, kept.members.Keys, "WORKER_UNAVAILABLE")];
      assert rooms[r] == ExpiredRoom(room);
      assert actions == before.actions + ExpiryNotices(r, room);
    }

    method FindDue(r: RoomId, clients: seq<ClientId>, now: Instant) returns (due: Option<ClientId>)
      requires r in rooms
      ensures due == FirstDue(rooms[r].members, clients, now)
    {
      var k := 0;
      while k < |clients|
        invariant 0 <= k <= |clients|
        invariant FirstDue(rooms[r].members, clients, now) == FirstDue(rooms[r].members, clients[k..], now)
      {
        if clients[k] in rooms[r].members && Due(rooms[r].members[clients[k]].deadline, now) { return Some(clients[k]); }
        k := k + 1;
      }
      due := None;
    }

    /** What a timeout does about one room. */
    method SweepOne(now: Instant, r: RoomId) returns (promotion: Option<Promotion>, ghost order: seq<ClientId>)
      modifies this
      ensures ListsMembers(old(State()), r, order)
      ensures (State(), promotion) == SweepRoom(old(State()), now, r, order)
    {
      hide V2Steps.CommitDowngrade, V2Steps.IssueSfuLeave, SetDeadline, Survivors, PromotionOf, Lists, DowngradeEligible;
      promotion := None;
      order := if r in rooms then AnyListing(rooms[r].members.Keys) else [];
      if r !in rooms { return; }
      var room := rooms[r];
      if Due(room.downgradeDeadline, now) {
        if DowngradeEligible(room) {
          EligibleNonempty(room);
          order := CommitDowngrade(r);
        } else {
          rooms := rooms[r := room.(downgradeDeadline := None)];
        }
      } else if room.mode == Sfu {
        var clients := Collect(room.members.Keys);
        order := clients;
        var due := FindDue(r, clients, now);
        if room.pendingLeave.None? && due.Some? {
          var left := IssueSfuLeave(r, due.value, LeaveReason.Disconnected, None);
          if !left { SetReconnectDeadline(r, due.value, now + grace); }
        }
      } else if room.mode == P2p {
        promotion := SweepDirect(now, r);
      }
    }

    /** Members of a P2P room whose grace is over are gone; only then can someone be promoted. */
    method SweepDirect(now: Instant, r: RoomId) returns (promotion: Option<Promotion>)
      requires r in rooms
      modifies this`rooms
      ensures (State(), promotion) == SweepP2p(old(State()), now, r)
    {
      hide Survivors, PromotionOf;
      promotion := None;
      var room := rooms[r];
      var due := set c | c in room.members && Due(room.members[c].deadline, now);
      assert due == DueMembers(room, now);
      var rest := room.(members := room.members - due);
      if due != {} { rest, promotion := PromoteSurvivor(r, rest); }
      StoreOrReap(r, rest);
    }

    /** Expire the workers whose grace is over, then look at every room once. */
    method HandleTimeout(now: Instant) returns (promotions: seq<Promotion>, ghost s: Schedule)
      requires Valid()
      modifies this
      ensures TimeoutOrders(old(State()), now, s)
      ensures (State(), promotions) == V2Steps.HandleTimeout(old(State()), now, s)
      ensures Valid()
    {
      hide Base, ExpireWorkers, SweepRooms, Lists, ExpiryOrders, DueWorkers;
      ghost var before := State();
      ghost var ws, hosted := ExpireDue(now);
      ghost var mid := State();
      var rs;
      ghost var members;
      promotions, rs, members := SweepAll(now);
      s := Schedule(ws, hosted, rs, members);
      assert TimeoutOrders(before, now, s);
      TimeoutValid(before, now, s);
    }

    method ExpireDue(now: Instant) returns (ghost ws: seq<InstanceId>, ghost hosted: map<InstanceId, seq<RoomId>>)
      requires Valid()
      modifies this
      ensures Lists(ws, DueWorkers(old(State()), now)) && ExpiryOrders(old(State()), ws, hosted)
      ensures State() == ExpireWorkers(old(State()), ws, hosted)
    {
      hide Base, V2Steps.ExpireWorker, Lists, ExpiryOrders, UpgradesPresent, ExpireWorkers, DueWorkers;
      ghost var before := State();
      BarriersPresent(before);
      var expired := CollectDue(now);
      ws, hosted := [], map[];
      NothingExpired(before, map[]);
      var k := 0;
      while k < |expired|
        invariant 0 <= k <= |expired| && ws == expired[..k]
        invariant State() == ExpireWorkers(before, ws, hosted) && ExpiryOrders(before, ws, hosted)
        invariant UpgradesPresent(State()) && workers.Keys == before.workers.Keys
      {
        var i := expired[k];
        ListedOnce(expired, DueWorkers(before, now), k);
        hosted := ExpireNext(before, ws, hosted, i);
        assert expired[..k + 1] == expired[..k] + [i];
        ws := ws + [i];
        k := k + 1;
      }
      assert expired[..k] == expired;
    }

    method CollectDue(now: Instant) returns (expired: seq<InstanceId>)
      ensures Lists(expired, DueWorkers(State(), now)) && DueWorkers(State(), now) <= workers.Keys
    {
      hide Lists;
      expired := Collect(set i | i in workers && Due(workers[i].deadline, now));
      assert (set i | i in workers && Due(workers[i].deadline, now)) == DueWorkers(State(), now);
    }

    /** One more worker expires, after those of `ws`. */
    method ExpireNext(ghost before: Table, ghost ws: seq<InstanceId>, ghost hosted: map<InstanceId, seq<RoomId>>, i: InstanceId)
      returns (ghost more: map<InstanceId, seq<RoomId>>)
      requires State() == ExpireWorkers(before, ws, hosted) && ExpiryOrders(before, ws, hosted) && UpgradesPresent(State())
      requires i in workers && i !in ws
      modifies this
      ensures State() == ExpireWorkers(before, ws + [i], more) && ExpiryOrders(before, ws + [i], more)
      ensures UpgradesPresent(State()) && workers.Keys == old(workers.Keys)
    {
      hide V2Steps.ExpireWorker, Lists, ExpiryOrders, UpgradesPresent, ExpireWorkers, SameSession;
      ghost var t := State();
      ghost var rooms := ExpireWorker(i);
      ExpireWorkerSessions(t, i, rooms);
      ExpirySnoc(before, ws, hosted, i, rooms);
      more := hosted[i := rooms];
    }

    method SweepAll(now: Instant)
      returns (promotions: seq<Promotion>, rs: seq<RoomId>, ghost members: map<RoomId, seq<ClientId>>)
      modifies this
      ensures Lists(rs, old(rooms).Keys)
      ensures forall r :: r in old(rooms) ==> Lists(Listing(members, r), old(rooms)[r].members.Keys)
      ensures (State(), promotions) == SweepRooms(old(State()), now, rs, members)
    {
      hide SweepRoom, Lists, SweepRooms;
      ghost var before := State();
      rs := Collect(rooms.Keys);
      promotions, members := [], map[];
      NothingSwept(before, now, map[]);
      var k := 0;
      while k < |rs|
        invariant 0 <= k <= |rs| && (forall r :: r in members <==> r in rs[..k])
        invariant (State(), promotions) == SweepRooms(before, now, rs[..k], members)
        invariant forall r :: r in rs[..k] && r in before.rooms ==> Lists(members[r], before.rooms[r].members.Keys)
        invariant forall r: RoomId :: r !in rs[..k] ==> RoomAt(State(), r) == RoomAt(before, r)
      {
        var r := rs[k];
        ListedOnce(rs, before.rooms.Keys, k);
        ghost var t := State();
        assert RoomAt(t, r) == RoomAt(before, r);
        var promotion;
        ghost var order;
        promotion, order := SweepOne(now, r);
        forall s: RoomId | s !in rs[..k + 1] ensures RoomAt(State(), s) == RoomAt(before, s) {
          assert rs[..k + 1] == rs[..k] + [r];
          SweepRoomElsewhere(t, now, r, order, s);
        }
        SweepSnoc(before, now, rs[..k], members, r, order);
        assert rs[..k + 1] == rs[..k] + [r];
        members := members[r := order];
        promotions := promotions + if promotion.Some? then [promotion.value] else [];
        k := k + 1;
      }
      assert rs[..k] == rs;
      ListedAll(rs, before.rooms.Keys);
    }

    // ---- the next deadline ----

    /** The earliest deadline that a timeout would act on. */
    method PollTimeout() returns (next: Option<Instant>)
      ensures IsNextTimeout(State(), next)
    {
      next := None;
      ghost var seen: set<Instant> := {};
      var todo := rooms.Keys;
      while todo != {}
        invariant todo <= rooms.Keys && Earliest(next, seen)
        invariant forall d :: d in seen <==> InRooms(State(), rooms.Keys - todo, d)
        decreases |todo|
      {
        var r :| r in todo;
        var deadlines := RoomDeadlines(rooms[r]);
        next := EarliestOf(next, deadlines, seen);
        seen := seen + deadlines;
        InRoomsMore(State(), rooms.Keys - todo, r);
        assert rooms.Keys - todo + {r} == rooms.Keys - (todo - {r});
        todo := todo - {r};
      }
      assert rooms.Keys - {} == rooms.Keys;
      var deadlines := set i | i in workers && workers[i].deadline.Some? :: workers[i].deadline.value;
      next := EarliestOf(next, deadlines, seen);
      seen := seen + deadlines;
      forall d: Instant ensures d in seen <==> HasDeadline(State(), d) {
        DeadlinesAre(State(), d);
        assert d in deadlines <==> exists i :: i in workers && workers[i].deadline == Some(d) by {
          if i :| i in workers && workers[i].deadline == Some(d) { assert workers[i].deadline.value in deadlines; }
        }
      }
      NextIs(State(), next, seen);
    }

    static method EarliestOf(next: Option<Instant>, more: set<Instant>, ghost seen: set<Instant>)
      returns (least: Option<Instant>)
      requires Earliest(next, seen)
      ensures Earliest(least, seen + more)
    {
      least := next;
      var todo := more;
      ghost var reached: set<Instant> := seen;
      while todo != {}
        invariant Earliest(least, reached) && reached + todo == seen + more
        decreases |todo|
      {
        var d :| d in todo;
        EarliestMore(least, reached, d);
        hide Earliest;
        if least.None? || d < least.value { least := Some(d); }
        reached, todo := reached + {d}, todo - {d};
      }
    }
  }
}
