/** Every step of the table moves each room along a trail of `V2Moves`, and so keeps every room
    invariant of `V2Rooms`. */
module V2RoomSteps {
  import opened Wrappers
  import opened Collections
  import opened Sfu
  import opened V2State
  import opened V2Steps
  import opened V2Rooms
  import opened V2Moves

  // ---- operations that only queue commands leave the rooms alone ----

  /** What sending one cleanup Leave keeps, the cleanup of a room keeps. */
  lemma {:induction false} CleanupLeavesKeep(inv: Table -> bool, t: Table, r: RoomId, i: InstanceId,
                                             connection: ConnectionId, clients: seq<ClientId>, epoch: nat)
    requires inv(t)
    requires forall t0: Table, leave: LeaveMember ::
               inv(t0) ==> inv(IssueCommand(t0, i, connection, LeaveCommand(leave), CleanupPending))
    ensures inv(CleanupLeaves(t, r, i, connection, clients, epoch).0)
    decreases |clients|
  {
    hide IssueCommand;
    if clients != [] && r in t.rooms && clients[0] in t.rooms[r].members {
      var leave := LeaveMember(r, clients[0], t.rooms[r].members[clients[0]].lifecycle, epoch, RoomClosed);
      CleanupLeavesKeep(inv, IssueCommand(t, i, connection, LeaveCommand(leave), CleanupPending), r, i, connection,
                        clients[1..], epoch);
    }
  }

  lemma CleanupKeeps(inv: Table -> bool, t: Table, r: RoomId, i: InstanceId, clients: seq<ClientId>, epoch: nat)
    requires inv(t)
    requires forall t0: Table, connection, leave: LeaveMember ::
               inv(t0) ==> inv(IssueCommand(t0, i, connection, LeaveCommand(leave), CleanupPending))
    ensures inv(Cleanup(t, r, i, clients, epoch).0)
  {
    hide IssueCommand, CleanupLeaves;
    if Connection(t, i).Some? { CleanupLeavesKeep(inv, t, r, i, Connection(t, i).value, clients, epoch); }
  }

  /** Rooms, workers and the settings are not what a cleanup changes. */
  lemma CleanupFrame(t: Table, r: RoomId, i: InstanceId, clients: seq<ClientId>, epoch: nat)
    ensures var t' := Cleanup(t, r, i, clients, epoch).0;
            t'.rooms == t.rooms && t'.workers == t.workers && t'.grace == t.grace
  {
    hide Cleanup;
    CleanupKeeps((t0: Table) => t0.rooms == t.rooms && t0.workers == t.workers && t0.grace == t.grace, t, r, i, clients, epoch);
  }

  /** What synchronising one room keeps, synchronising them all keeps. */
  lemma {:induction false} ResyncKeeps(inv: Table -> bool, t: Table, i: InstanceId, connection: ConnectionId,
                                       rooms: seq<RoomId>, commands: seq<RequestId>)
    requires inv(t)
    requires forall t0: Table, r: RoomId :: inv(t0) ==> inv(ResyncRoom(t0, i, connection, r, commands))
    ensures inv(ResyncRooms(t, i, connection, rooms, commands))
    decreases |rooms|
  {
    hide ResyncRoom;
    if rooms != [] {
      ResyncKeeps(inv, ResyncRoom(t, i, connection, rooms[0], commands), i, connection, rooms[1..], commands);
    }
  }

  lemma ResyncFrame(t: Table, i: InstanceId, connection: ConnectionId, rooms: seq<RoomId>, commands: seq<RequestId>)
    ensures ResyncRooms(t, i, connection, rooms, commands).rooms == t.rooms
    ensures ResyncRooms(t, i, connection, rooms, commands).workers == t.workers
  {
    hide ResyncRooms, Replay, Projection;
    ResyncKeeps((t0: Table) => t0.rooms == t.rooms && t0.workers == t.workers, t, i, connection, rooms, commands);
  }

  lemma {:induction false} PushCommandsKeeps(t: Table, connection: ConnectionId, commands: seq<Command>)
    ensures PushCommands(t, connection, commands) == t.(actions := PushCommands(t, connection, commands).actions)
    decreases |commands|
  {
    if commands != [] {
      PushCommandsKeeps(Push(t, SfuOut(CommandOut(connection, commands[0]))), connection, commands[1..]);
    }
  }

  // ---- what each operation does to the room it touches ----

  lemma StartUpgradeRooms(t: Table, ticket: Ticket, now: Instant, r: RoomId, c: ClientId, token: string,
                          i: InstanceId)
    requires r in t.rooms && i in t.workers
    ensures StartUpgrade(t, ticket, now, r, c, token, i).0.rooms
            == t.rooms[r := UpgradingRoom(t, ticket, now, r, c, token, i)]
  {
    hide UpgradingRoom;
  }

  lemma IssueNextRooms(t: Table, r: RoomId)
    ensures IssueNextUpgradeJoin(t, r).Ok? ==> IssueNextUpgradeJoin(t, r).value.rooms == t.rooms
  {
  }

  lemma CommitRooms(t: Table, r: RoomId)
    requires r in t.rooms && t.rooms[r].upgrade.Some?
    ensures CommitUpgrade(t, r).0.rooms == t.rooms[r := CommittedRoom(t.rooms[r])]
  {
    hide CommittedRoom;
  }

  lemma AbortRooms(t: Table, r: RoomId, reason: string)
    ensures AbortUpgrade(t, r, reason).0.rooms
            == if r in t.rooms && t.rooms[r].upgrade.Some? then t.rooms[r := AbortedRoom(t.rooms[r])] else t.rooms
  {
    if r in t.rooms && t.rooms[r].upgrade.Some? && t.rooms[r].instance.Some? {
      var room := t.rooms[r];
      CleanupFrame(Unassign(PutRoom(t, r, AbortedRoom(room)), r, room.instance.value, 3), r, room.instance.value,
                   room.upgrade.value.joined, room.assignmentEpoch);
    }
  }

  /** What worker expiry does to one room. */
  ghost function AfterExpiry(room: Room): Room
    requires room.mode == Upgrading ==> room.upgrade.Some?
  {
    if room.mode == Upgrading then AbortedRoom(room) else ExpiredRoom(room)
  }

  lemma ExpireRoomRooms(t: Table, r: RoomId)
    requires r in t.rooms && t.rooms[r].mode == Upgrading ==> t.rooms[r].upgrade.Some?
    ensures ExpireRoom(t, r).rooms == if r in t.rooms then t.rooms[r := AfterExpiry(t.rooms[r])] else t.rooms
  {
    hide AbortUpgrade, AbortedRoom, ExpiredRoom, ExpiryNotices;
    AbortRooms(t, r, "WORKER_UNAVAILABLE");
  }

  lemma DowngradeRooms(t: Table, r: RoomId, order: seq<ClientId>)
    requires r in t.rooms && t.rooms[r].members != map[]
    ensures CommitDowngrade(t, r, order).rooms == t.rooms[r := DowngradedRoom(t.rooms[r])]
  {
    hide DowngradedRoom, Cleanup;
    var room := t.rooms[r];
    if room.instance.Some? {
      CleanupFrame(Unassign(PutRoom(t, r, DowngradedRoom(room)), r, room.instance.value, |room.members|), r,
                   room.instance.value, order, room.assignmentEpoch);
    }
  }

  // ---- admission and removal ----

  lemma AdmitToSfuTrail(t: Table, ticket: Ticket, now: Instant, r: RoomId, c: ClientId, token: string)
    returns (trail: seq<Move>)
    requires r in t.rooms && t.rooms[r].mode == Sfu && c !in t.rooms[r].members
    requires t.rooms[r].pendingJoin.None? && t.rooms[r].pendingLeave.None?
    ensures Follows(RoomAt(t, r), trail, RoomAt(AdmitToSfu(t, ticket, now, r, c, token).0, r))
    ensures AllMade(AdmitStep(ticket, now, r, c, token), trail) && |trail| <= 1
  {
    var m := JoinBegun(ticket, c, NewMember(now, t.grace, token, false, NextLifecycle(t, r, c)));
    OneMove(RoomAt(t, r), m);
    trail := if RoomConnection(t, t.rooms[r]).Some? then [m] else [];
  }

  lemma StartUpgradeTrail(t: Table, ticket: Ticket, now: Instant, r: RoomId, c: ClientId, token: string, i: InstanceId)
    returns (trail: seq<Move>)
    requires r in t.rooms && c !in t.rooms[r].members && i in t.workers
    requires t.rooms[r].mode == P2p && |t.rooms[r].members| >= MAX_P2P_MEMBERS
    ensures Follows(RoomAt(t, r), trail, RoomAt(StartUpgrade(t, ticket, now, r, c, token, i).0, r))
    ensures AllMade(AdmitStep(ticket, now, r, c, token), trail) && |trail| <= 1
  {
    hide BarrierRoom, Draws, StartUpgrade;
    var room := t.rooms[r];
    StartUpgradeRooms(t, ticket, now, r, c, token, i);
    var m := UpgradeBegun(ticket, c, NewMember(now, t.grace, token, false, NextLifecycle(t, r, c)), i,
                          Draws(t, r, room.members.Keys));
    DrawnKeys(t, r, room.members.Keys);
    OneMove(Some(room), m);
    trail := [m];
  }

  lemma CreateTrail(t: Table, ticket: Ticket, now: Instant, r: RoomId, c: ClientId, token: string, s: RoomId)
    returns (trail: seq<Move>)
    requires r !in t.rooms
    ensures Follows(RoomAt(t, s), trail, RoomAt(CreateRoom(t, now, r, c, token).0, s))
    ensures AllMade(AdmitStep(ticket, now, r, c, token), trail) && |trail| <= 1
  {
    trail := [];
    if s == r {
      var m := Created(c, NewMember(now, t.grace, token, true, NextLifecycle(t, r, c)));
      OneMove(None, m);
      trail := [m];
    }
  }

  lemma PairTrail(t: Table, ticket: Ticket, now: Instant, r: RoomId, c: ClientId, token: string, s: RoomId)
    returns (trail: seq<Move>)
    requires r in t.rooms && c !in t.rooms[r].members && OkAt(t, s, false)
    requires t.rooms[r].mode == P2p && |t.rooms[r].members| < MAX_P2P_MEMBERS
    ensures Follows(RoomAt(t, s), trail, RoomAt(AdmitToP2p(t, now, r, c, token).0, s))
    ensures AllMade(AdmitStep(ticket, now, r, c, token), trail) && |trail| <= 1
  {
    hide RoomOk;
    trail := [];
    if s == r {
      var m := Paired(c, NewMember(now, t.grace, token, false, NextLifecycle(t, r, c)));
      OneMove(Some(t.rooms[r]), m);
      trail := [m];
    }
  }

  lemma AdmitTrail(t: Table, ticket: Ticket, now: Instant, r: RoomId, c: ClientId, token: string, s: RoomId)
    returns (trail: seq<Move>)
    requires OkAt(t, s, false)
    ensures Follows(RoomAt(t, s), trail, RoomAt(Admit(t, ticket, now, r, c, token).0, s))
    ensures AllMade(AdmitStep(ticket, now, r, c, token), trail)
    ensures |trail| <= 1
  {
    hide RoomOk, BarrierRoom, Selectable, LessLoaded, Draws, AdmitToSfu, StartUpgrade, CreateRoom, AdmitToP2p,
         UpgradingRoom;
    trail := [];
    if r !in t.rooms {
      trail := CreateTrail(t, ticket, now, r, c, token, s);
    } else if c !in t.rooms[r].members {
      var room := t.rooms[r];
      if room.mode == Sfu && room.pendingJoin.None? && room.pendingLeave.None? {
        AdmitToSfuElsewhere(t, ticket, now, r, c, token, s);
        if s == r { trail := AdmitToSfuTrail(t, ticket, now, r, c, token); }
      } else if room.mode == P2p && |room.members| < MAX_P2P_MEMBERS {
        trail := PairTrail(t, ticket, now, r, c, token, s);
      } else if room.mode == P2p && SelectWorker(t, 3).Some? {
        var i := SelectWorker(t, 3).value;
        StartUpgradeRooms(t, ticket, now, r, c, token, i);
        if s == r { trail := StartUpgradeTrail(t, ticket, now, r, c, token, i); }
      }
    }
  }

  lemma DrawnKeys(t: Table, r: RoomId, cs: set<ClientId>)
    ensures Draws(t, r, cs).Keys == cs
  {
  }

  lemma AdmitToSfuElsewhere(t: Table, ticket: Ticket, now: Instant, r: RoomId, c: ClientId, token: string, s: RoomId)
    requires r in t.rooms
    ensures s != r ==> RoomAt(AdmitToSfu(t, ticket, now, r, c, token).0, s) == RoomAt(t, s)
  {
  }

  lemma IssueSfuLeaveTrail(t: Table, r: RoomId, c: ClientId, ticket: Option<Ticket>, reason: LeaveReason, s: RoomId)
    returns (trail: seq<Move>)
    ensures var left := IssueSfuLeave(t, r, c, ticket, reason);
            left.Some? ==> Follows(RoomAt(t, s), trail, RoomAt(left.value, s))
    ensures forall m :: m in trail ==> m == LeaveBegun(ticket, c)
  {
    trail := [];
    if s == r && IssueSfuLeave(t, r, c, ticket, reason).Some? {
      OneMove(RoomAt(t, r), LeaveBegun(ticket, c));
      trail := [LeaveBegun(ticket, c)];
    }
  }

  lemma PutOrReapElsewhere(t: Table, r: RoomId, room: Room, s: RoomId)
    requires r != s
    ensures s in PutOrReap(t, r, room).rooms <==> s in t.rooms
    ensures s in t.rooms ==> PutOrReap(t, r, room).rooms[s] == t.rooms[s]
  {
  }

  lemma PutOrReapAt(t: Table, r: RoomId, room: Room)
    ensures RoomAt(PutOrReap(t, r, room), r) == Remaining(room)
  {
  }

  lemma FailedSurvivors(room: Room)
    requires room.mode != P2p
    ensures Survivors(room) == room
  {
  }

  lemma RemoveTrail(t: Table, ticket: Ticket, r: RoomId, c: ClientId, token: string, s: RoomId)
    returns (trail: seq<Move>)
    ensures Follows(RoomAt(t, s), trail, RoomAt(Remove(t, ticket, r, c, token).0, s))
    ensures AllMade(RemoveStep(ticket, r, c, token), trail)
  {
    hide IssueSfuLeave, Survivors, PutOrReap;
    var left := IssueSfuLeaveTrail(t, r, c, Some(ticket), User, s);
    trail := [];
    if r in t.rooms && c in t.rooms[r].members && t.rooms[r].members[c].token == token
       && t.rooms[r].pendingJoin.None? && t.rooms[r].pendingLeave.None? {
      var room := t.rooms[r];
      var rest := WithoutMember(room, c);
      if room.mode == Sfu {
        trail := if IssueSfuLeave(t, r, c, Some(ticket), User).Some? then left else [];
      } else if room.mode != Upgrading {
        if s != r {
          PutOrReapElsewhere(t, r, rest, s);
          PutOrReapElsewhere(t, r, Survivors(rest), s);
        } else {
          PutOrReapAt(t, r, rest);
          PutOrReapAt(t, r, Survivors(rest));
          if room.mode == Failed { FailedSurvivors(rest); }
          assert rest == room.(members := room.members - {c});
          OneMove(Some(room), Departed({c}));
          trail := [Departed({c})];
        }
      }
    }
  }

  // ---- browsers ----

  lemma LeaveOrWaitTrail(t: Table, now: Instant, r: RoomId, c: ClientId, s: RoomId) returns (trail: seq<Move>)
    requires r in t.rooms && c in t.rooms[r].members ==> !t.rooms[r].members[c].registered
    ensures Follows(RoomAt(t, s), trail, RoomAt(LeaveOrWait(t, now, r, c), s))
    ensures forall m :: m in trail ==> m == LeaveBegun(None, c) || m == GraceSet(c, now + t.grace)
  {
    hide IssueSfuLeave;
    trail := IssueSfuLeaveTrail(t, r, c, None, Disconnected, s);
    if IssueSfuLeave(t, r, c, None, Disconnected).None? {
      trail := SetDeadlineTrail(t, r, c, now + t.grace, s);
    }
  }

  lemma SetDeadlineTrail(t: Table, r: RoomId, c: ClientId, d: Instant, s: RoomId) returns (trail: seq<Move>)
    requires r in t.rooms && c in t.rooms[r].members ==> !t.rooms[r].members[c].registered
    ensures Follows(RoomAt(t, s), trail, RoomAt(SetDeadline(t, r, c, d), s))
    ensures forall m :: m in trail ==> m == GraceSet(c, d)
  {
    trail := [];
    if s == r && r in t.rooms && c in t.rooms[r].members {
      OneMove(RoomAt(t, r), GraceSet(c, d));
      trail := [GraceSet(c, d)];
    }
  }

  lemma DeregisterTrail(t: Table, now: Instant, r: RoomId, c: ClientId, s: RoomId) returns (trail: seq<Move>)
    ensures Follows(RoomAt(t, s), trail, RoomAt(Deregister(t, now, r, c), s))
    ensures AllMade(DeregisterStep(now, r, c), trail)
  {
    hide LeaveOrWait, SetDeadline;
    trail := [];
    if r in t.rooms && c in t.rooms[r].members && t.rooms[r].members[c].registered {
      var room := t.rooms[r];
      var t1 := PutRoom(t, r, WithMember(room, c, room.members[c].(registered := false)));
      if s == r {
        OneMove(Some(room), MemberDeregistered(c));
        trail := [MemberDeregistered(c)];
      }
      var rest;
      if room.mode == Sfu { rest := LeaveOrWaitTrail(t1, now, r, c, s); }
      else { rest := SetDeadlineTrail(t1, r, c, now + t.grace, s); }
      FollowsBoth(RoomAt(t, s), trail, RoomAt(t1, s), rest, RoomAt(Deregister(t, now, r, c), s));
      trail := trail + rest;
    }
  }

  lemma RegisterTrail(t: Table, r: RoomId, c: ClientId, token: string, order: seq<ClientId>, s: RoomId)
    returns (trail: seq<Move>)
    ensures Follows(RoomAt(t, s), trail, RoomAt(Register(t, r, c, token, order).0, s))
    ensures AllMade(RegisterStep(r, c, token, order), trail)
    ensures trail == if s == r && Register(t, r, c, token, order).1.Ok? then [MemberRegistered(c)] else []
  {
    hide RegisteredMembers;
    trail := [];
    if s == r && Register(t, r, c, token, order).1.Ok? {
      OneMove(RoomAt(t, r), MemberRegistered(c));
      trail := [MemberRegistered(c)];
    }
  }

  lemma {:induction false} FirstOtherFacts(order: seq<ClientId>, c: ClientId)
    ensures FirstOther(order, c).Some? ==> FirstOther(order, c).value in order && FirstOther(order, c).value != c
    ensures FirstOther(order, c).None? ==> forall d :: d in order ==> d == c
  {
    if order != [] {
      FirstOtherFacts(order[1..], c);
      assert order == [order[0]] + order[1..];
    }
  }

  /** Two members are all there is in a room of capacity two. */
  lemma OnlyPeer(members: map<ClientId, Member>, c: ClientId, peer: ClientId)
    requires |members| <= 2 && c in members && peer in members && c != peer
    ensures members.Keys == {c, peer}
  {
    assert |members.Keys - {c, peer}| == |members.Keys| - 2;
    assert members.Keys - {c, peer} == {};
  }

  /** A sender that queues in P2P mode has no connected peer. */
  lemma QueuesAlone(room: Room, c: ClientId, order: seq<ClientId>)
    requires RoomShape(room) && room.mode == P2p && c in room.members && Lists(order, room.members.Keys)
    requires var peer := FirstOther(order, c);
             !(peer.Some? && peer.value in room.members && room.members[peer.value].registered)
    ensures forall d :: d in room.members && d != c ==> !room.members[d].registered
  {
    FirstOtherFacts(order, c);
    var peer := FirstOther(order, c);
    if peer.Some? { OnlyPeer(room.members, c, peer.value); }
  }

  lemma SendTrail(t: Table, r: RoomId, c: ClientId, epoch: nat, message: string, order: seq<ClientId>, s: RoomId)
    returns (trail: seq<Move>)
    requires OkAt(t, s, false) && ListsMembers(t, r, order)
    ensures Follows(RoomAt(t, s), trail, RoomAt(Send(t, r, c, epoch, message, order).0, s))
    ensures AllMade(SendStep(r, c, epoch, message, order), trail)
    ensures trail == if s == r && Send(t, r, c, epoch, message, order).1 == Ok(ToPeer(None))
                     then [MessageQueued(c, message)] else []
  {
    hide RoomOk, Lists, RoomShape;
    trail := [];
    if s == r && Send(t, r, c, epoch, message, order).1 == Ok(ToPeer(None)) {
      var room := t.rooms[r];
      assert RoomShape(room) by { ShapeOf(room); }
      if room.mode == P2p { QueuesAlone(room, c, order); }
      OneMove(Some(room), MessageQueued(c, message));
      trail := [MessageQueued(c, message)];
    }
  }

  lemma ShapeOf(room: Room)
    requires RoomOk(room, false)
    ensures RoomShape(room)
  {
  }

  // ---- workers ----

  lemma FailTrail(t: Table, r: RoomId, reason: string, s: RoomId) returns (trail: seq<Move>)
    ensures Follows(RoomAt(t, s), trail, RoomAt(FailRoom(t, r, reason), s))
    ensures |trail| <= 1 && forall m :: m in trail ==> m.ForceFailed?
  {
    trail := [];
    if s == r && r in t.rooms {
      OneMove(RoomAt(t, r), ForceFailed);
      trail := [ForceFailed];
    }
  }

  lemma SignalRooms(t: Table, connection: ConnectionId, i: InstanceId, id: nat, signal: Signal)
    ensures RelaySignal(t, connection, i, id, signal).0.rooms == t.rooms
  {
  }

  lemma FreshEventTrail(t: Table, connection: ConnectionId, i: InstanceId, event: Event, s: RoomId)
    returns (trail: seq<Move>)
    requires i in t.workers
    ensures Follows(RoomAt(t, s), trail, RoomAt(FreshEvent(t, connection, i, event).0, s))
    ensures |trail| <= 1 && forall m :: m in trail ==> m.ForceFailed?
    ensures !(event.kind.FailureEvent? && event.kind.room.Some?) ==> trail == []
  {
    hide FailRoom, RelaySignal;
    trail := [];
    match event.kind {
      case HealthEvent(_) =>
      case SignalEvent(signal) => SignalRooms(t, connection, i, event.id, signal);
      case FailureEvent(error, failed) =>
        if failed.Some? { trail := FailTrail(t, failed.value, error.reason, s); }
    }
  }

  lemma EventTrail(t: Table, connection: ConnectionId, i: InstanceId, event: Event, s: RoomId)
    returns (trail: seq<Move>)
    ensures Follows(RoomAt(t, s), trail, RoomAt(HandleEvent(t, connection, i, event).0, s))
    ensures AllMade(EventStep(connection, i, event), trail)
    ensures !ReachesFailRoom(t, EventStep(connection, i, event)) ==> Unforced(trail)
  {
    hide Remember, FreshEvent;
    trail := [];
    if i in t.workers && t.workers[i].connection == Some(connection) && event.id != 0
       && event.id !in t.workers[i].seen {
      trail := FreshEventTrail(PutWorker(t, i, Remember(t.workers[i], event.id)), connection, i, event, s);
    }
  }

  lemma UpgradeJoinTrail(t: Table, i: InstanceId, p: PendingCommand, result: CommandResult, s: RoomId)
    returns (trail: seq<Move>)
    requires OkAt(t, s, false) && p.UpgradeJoin?
    ensures Follows(RoomAt(t, s), trail, RoomAt(UpgradeJoinResult(t, i, p, result).0, s))
    ensures forall m :: m in trail ==>
              m == UpgradeAborted || m == BarrierAdvanced(p.join.client) || m == UpgradeCommitted(p.join.client)
    ensures |trail| <= 1
  {
    hide AbortUpgrade, AbortedRoom, CommittedRoom, CommitUpgrade, IssueNextUpgradeJoin;
    var r := p.join.room;
    AbortRooms(t, r, ErrorReason(result));
    trail := [];
    if r in t.rooms && t.rooms[r].upgrade.Some? {
      var room := t.rooms[r];
      var t1 := PutRoom(t, r, AdvancedRoom(room, p.join.client));
      CommitRooms(t1, r);
      IssueNextRooms(t1, r);
      if s == r {
        var m := if p.instance != i || !Joined(result, p.join) then UpgradeAborted
                 else if room.upgrade.value.next + 1 == |room.upgrade.value.ordered| then UpgradeCommitted(p.join.client)
                 else BarrierAdvanced(p.join.client);
        assert RoomShape(room);
        OneMove(Some(room), m);
        trail := [m];
      }
    }
    hide RoomOk, RoomShape, Joined, ErrorReason;
  }

  /** What the result of an SFU Join does to rooms and workers. */
  lemma JoinResultRooms(t: Table, i: InstanceId, p: PendingCommand, result: CommandResult)
    requires p.SfuJoin? && p.join.room in t.rooms && t.rooms[p.join.room].pendingJoin.Some?
    ensures var r := p.join.room;
            var room := t.rooms[r];
            var done := room.(pendingJoin := None);
            var accepted := p.instance == i && Joined(result, p.join);
            var t' := SfuJoinResult(t, i, p, result);
            && (p.join.client in room.members ==> t'.1.Ok?) && t'.0.pending == t.pending
            && t'.0.rooms == t.rooms[r := if accepted then done else WithoutMember(done, room.pendingJoin.value.client)]
            && t'.0.workers == (if accepted then CreditWorker(t, i).workers else t.workers)
  {
    hide Joined, WithoutMember, CreditWorker;
    CreditKeeps(PutRoom(t, p.join.room, t.rooms[p.join.room].(pendingJoin := None)), i);
    CreditSame(t, PutRoom(t, p.join.room, t.rooms[p.join.room].(pendingJoin := None)), i);
  }

  lemma CreditKeeps(t: Table, i: InstanceId)
    ensures CreditWorker(t, i) == t.(workers := CreditWorker(t, i).workers)
  {
  }

  lemma CreditSame(t: Table, t': Table, i: InstanceId)
    requires t'.workers == t.workers
    ensures CreditWorker(t', i).workers == CreditWorker(t, i).workers
  {
  }

  lemma SfuJoinTrail(t: Table, i: InstanceId, p: PendingCommand, result: CommandResult, s: RoomId)
    returns (trail: seq<Move>)
    requires p.SfuJoin?
    ensures Follows(RoomAt(t, s), trail, RoomAt(SfuJoinResult(t, i, p, result).0, s))
    ensures |trail| <= 1 && forall m :: m in trail ==> m.JoinEnded?
  {
    trail := [];
    var r := p.join.room;
    if r in t.rooms && t.rooms[r].pendingJoin.Some? {
      JoinResultRooms(t, i, p, result);
      hide SfuJoinResult, Joined;
      if s == r {
        var m := JoinEnded(p.instance == i && Joined(result, p.join));
        OneMove(RoomAt(t, r), m);
        trail := [m];
      }
    }
  }

  lemma ArmedMembers(dwell: nat, room: Room, now: Instant)
    ensures Armed(dwell, room, now).members == room.members
  {
  }

  lemma DebitKeeps(t: Table, i: InstanceId, r: RoomId, empty: bool)
    ensures DebitWorker(t, i, r, empty) == t.(workers := DebitWorker(t, i, r, empty).workers)
  {
  }

  /** What the result of an SFU Leave does to rooms and workers. */
  lemma LeaveResultRooms(t: Table, i: InstanceId, p: PendingCommand, result: CommandResult, now: Instant)
    requires p.SfuLeave? && p.room in t.rooms && t.rooms[p.room].pendingLeave.Some?
    ensures var left := p.instance == i && Left(result, p);
            var rest := WithoutMember(t.rooms[p.room].(pendingLeave := None), p.client);
            var done := SfuLeaveResult(t, i, p, result, now);
            && done.1.Ok? && done.0.pending == t.pending
            && done.0.rooms == (if !left then t.rooms[p.room := t.rooms[p.room].(pendingLeave := None)]
                                else if rest.members == map[] then t.rooms - {p.room}
                                else t.rooms[p.room := Armed(t.dwell, rest, now)])
            && done.0.workers == if left then DebitWorker(t, i, p.room, rest.members == map[]).workers else t.workers
  {
    hide Left, DebitWorker, Armed, WithoutMember, RemovalNotice;
    var rest := WithoutMember(t.rooms[p.room].(pendingLeave := None), p.client);
    DebitKeeps(t, i, p.room, rest.members == map[]);
    ArmedMembers(t.dwell, rest, now);
  }

  lemma SfuLeaveTrail(t: Table, i: InstanceId, p: PendingCommand, result: CommandResult, now: Instant, s: RoomId)
    returns (trail: seq<Move>)
    requires p.SfuLeave?
    ensures Follows(RoomAt(t, s), trail, RoomAt(SfuLeaveResult(t, i, p, result, now).0, s))
    ensures |trail| <= 1 && forall m :: m in trail ==> m.LeaveEnded? && m.now == now
  {
    trail := [];
    var r := p.room;
    if r in t.rooms && t.rooms[r].pendingLeave.Some? {
      if s == r {
        var m := LeaveEnded(p.instance == i && Left(result, p), p.client, now, t.dwell);
        LeaveEndMoves(t, i, p, result, now);
        hide SfuLeaveResult, Left, Moved, Enabled;
        OneMove(RoomAt(t, r), m);
        trail := [m];
      } else {
        LeaveResultRooms(t, i, p, result, now);
        hide SfuLeaveResult, Left, Armed, WithoutMember;
      }
    }
  }

  lemma LeaveEndMoves(t: Table, i: InstanceId, p: PendingCommand, result: CommandResult, now: Instant)
    requires p.SfuLeave? && p.room in t.rooms && t.rooms[p.room].pendingLeave.Some?
    ensures var m := LeaveEnded(p.instance == i && Left(result, p), p.client, now, t.dwell);
            && Enabled(RoomAt(t, p.room), m)
            && RoomAt(SfuLeaveResult(t, i, p, result, now).0, p.room) == Moved(RoomAt(t, p.room), m)
  {
    hide SfuLeaveResult, Left, Armed;
    LeaveResultRooms(t, i, p, result, now);
    ArmedMembers(t.dwell, WithoutMember(t.rooms[p.room].(pendingLeave := None), p.client), now);
  }

  lemma SyncTrail(t: Table, connection: ConnectionId, i: InstanceId, p: PendingCommand, result: CommandResult, s: RoomId)
    returns (trail: seq<Move>)
    requires p.SyncPending?
    ensures Follows(RoomAt(t, s), trail, RoomAt(SyncResult(t, connection, i, p, result).0, s))
    ensures |trail| <= 1 && forall m :: m in trail ==> m.ForceFailed?
    ensures p.instance == i && Synced(result, p.room, p.assignmentEpoch) ==> trail == []
  {
    hide FailRoom, PushCommands;
    PushCommandsKeeps(t, connection, p.replay);
    trail := [];
    if p.instance != i || !Synced(result, p.room, p.assignmentEpoch) {
      trail := FailTrail(t, p.room, "WORKER_UNAVAILABLE", s);
    }
  }

  lemma Still(a: Option<Room>)
    ensures Follows(a, [], a)
  {
  }

  lemma ResultTrail(t: Table, connection: ConnectionId, i: InstanceId, result: CommandResult, now: Instant, s: RoomId)
    returns (trail: seq<Move>)
    requires OkAt(t, s, false)
    ensures Follows(RoomAt(t, s), trail, RoomAt(HandleResult(t, connection, i, result, now).0, s))
    ensures AllMade(ResultStep(connection, i, result, now), trail) && |trail| <= 1
    ensures !ReachesFailRoom(t, ResultStep(connection, i, result, now)) ==> Unforced(trail)
  {
    hide RoomOk, SyncResult, UpgradeJoinResult, SfuJoinResult, SfuLeaveResult, Follows;
    trail := [];
    Still(RoomAt(t, s));
    if i in t.workers && t.workers[i].connection == Some(connection) && result.id in t.pending {
      var p := t.pending[result.id];
      var t1 := Forget(t, {result.id});
      match p {
        case SyncPending(_, _, _, _) => trail := SyncTrail(t1, connection, i, p, result, s);
        case UpgradeJoin(_, _) => trail := UpgradeJoinTrail(t1, i, p, result, s);
        case SfuJoin(_, _) => trail := SfuJoinTrail(t1, i, p, result, s);
        case SfuLeave(_, _, _, _, _) => trail := SfuLeaveTrail(t1, i, p, result, now, s);
        case SignalPending =>
        case CleanupPending =>
      }
    }
  }

  // ---- timeouts ----

  ghost predicate UpgradesPresent(t: Table) {
    forall r :: r in t.rooms && t.rooms[r].mode == Upgrading ==> t.rooms[r].upgrade.Some?
  }

  ghost predicate ExpiryMove(m: Move) {
    m == UpgradeAborted || m == Expired
  }

  lemma ExpireRoomTrail(t: Table, r: RoomId, s: RoomId) returns (trail: seq<Move>)
    requires UpgradesPresent(t)
    ensures Follows(RoomAt(t, s), trail, RoomAt(ExpireRoom(t, r), s))
    ensures forall m :: m in trail ==> ExpiryMove(m)
    ensures UpgradesPresent(ExpireRoom(t, r))
  {
    hide ExpireRoom, AbortedRoom, ExpiredRoom;
    ExpireRoomRooms(t, r);
    trail := [];
    if r in t.rooms {
      AfterExpiryMode(t.rooms[r]);
      if s == r {
        var m := if t.rooms[r].mode == Upgrading then UpgradeAborted else Expired;
        OneMove(RoomAt(t, r), m);
        trail := [m];
      }
    }
  }

  lemma AfterExpiryMode(room: Room)
    requires room.mode == Upgrading ==> room.upgrade.Some?
    ensures AfterExpiry(room).mode == if room.mode == Upgrading then P2p else Failed
  {
  }

  lemma {:induction false} ExpireRoomsTrail(t: Table, rooms: seq<RoomId>, s: RoomId) returns (trail: seq<Move>)
    requires UpgradesPresent(t)
    ensures Follows(RoomAt(t, s), trail, RoomAt(ExpireRooms(t, rooms), s))
    ensures forall m :: m in trail ==> ExpiryMove(m)
    ensures UpgradesPresent(ExpireRooms(t, rooms))
    decreases |rooms|
  {
    hide ExpireRoom, Enabled, Moved, UpgradesPresent;
    trail := [];
    if rooms != [] {
      var t1 := ExpireRoom(t, rooms[0]);
      trail := ExpireRoomTrail(t, rooms[0], s);
      var rest := ExpireRoomsTrail(t1, rooms[1..], s);
      FollowsBoth(RoomAt(t, s), trail, RoomAt(t1, s), rest, RoomAt(ExpireRooms(t, rooms), s));
      trail := trail + rest;
    }
  }

  lemma {:induction false} ExpireWorkersTrail(t: Table, workers: seq<InstanceId>, hosted: map<InstanceId, seq<RoomId>>,
                                              s: RoomId) returns (trail: seq<Move>)
    requires UpgradesPresent(t)
    ensures Follows(RoomAt(t, s), trail, RoomAt(ExpireWorkers(t, workers, hosted), s))
    ensures forall m :: m in trail ==> ExpiryMove(m)
    decreases |workers|
  {
    hide Enabled, Moved, UpgradesPresent, ExpireRooms;
    trail := [];
    if workers != [] {
      var rooms := Listing(hosted, workers[0]);
      var t1 := ExpireWorker(t, workers[0], rooms);
      trail := ExpireRoomsTrail(t, rooms, s);
      UpgradesStay(t, workers[0], rooms);
      var rest := ExpireWorkersTrail(t1, workers[1..], hosted, s);
      FollowsBoth(RoomAt(t, s), trail, RoomAt(t1, s), rest, RoomAt(ExpireWorkers(t, workers, hosted), s));
      trail := trail + rest;
    }
  }

  lemma UpgradesStay(t: Table, i: InstanceId, rooms: seq<RoomId>)
    requires UpgradesPresent(ExpireRooms(t, rooms))
    ensures UpgradesPresent(ExpireWorker(t, i, rooms))
  {
  }

  lemma {:induction false} FirstDueFacts(members: map<ClientId, Member>, order: seq<ClientId>, now: Instant)
    ensures var c := FirstDue(members, order, now);
            c.Some? ==> c.value in order && c.value in members && Due(members[c.value].deadline, now)
    ensures FirstDue(members, order, now).None? ==>
              forall c :: c in order && c in members ==> !Due(members[c].deadline, now)
  {
    if order != [] {
      FirstDueFacts(members, order[1..], now);
    }
  }

  lemma LeaveOrWaitElsewhere(t: Table, now: Instant, r: RoomId, c: ClientId, s: RoomId)
    requires r != s
    ensures s in LeaveOrWait(t, now, r, c).rooms <==> s in t.rooms
    ensures s in t.rooms ==> LeaveOrWait(t, now, r, c).rooms[s] == t.rooms[s]
  {
  }

  ghost predicate SweepMove(m: Move, now: Instant) {
    || (m.Departed? || m.Reaped? || m.Disarmed? || m.RoomDowngraded?)
    || (m.LeaveBegun? && m.removal.None?) || m.GraceSet?
  }

  lemma SweepP2pTrail(t: Table, now: Instant, r: RoomId, s: RoomId) returns (trail: seq<Move>)
    requires r in t.rooms && t.rooms[r].mode == P2p
    ensures Follows(RoomAt(t, s), trail, RoomAt(SweepP2p(t, now, r).0, s))
    ensures forall m :: m in trail ==> SweepMove(m, now) && !m.RoomDowngraded? && !m.GraceSet?
  {
    hide PutOrReap, Survivors;
    var room := t.rooms[r];
    var due := DueMembers(room, now);
    var kept := room.(members := room.members - due);
    trail := [];
    if s != r {
      PutOrReapElsewhere(t, r, kept, s);
      PutOrReapElsewhere(t, r, Survivors(kept), s);
    } else {
      PutOrReapAt(t, r, kept);
      PutOrReapAt(t, r, Survivors(kept));
      if due != {} {
        OneMove(Some(room), Departed(due));
        trail := [Departed(due)];
      } else {
        assert room.members - due == room.members && kept == room;
        if room.members == map[] {
          OneMove(Some(room), Reaped);
          trail := [Reaped];
        }
      }
    }
  }

  lemma SweepSfuTrail(t: Table, now: Instant, r: RoomId, order: seq<ClientId>, s: RoomId) returns (trail: seq<Move>)
    requires r in t.rooms && Timers(t.rooms[r].members)
    ensures Follows(RoomAt(t, s), trail, RoomAt(SweepSfu(t, now, r, order), s))
    ensures forall m :: m in trail ==> SweepMove(m, now) && !m.RoomDowngraded?
  {
    hide LeaveOrWait;
    FirstDueFacts(t.rooms[r].members, order, now);
    trail := [];
    var c := FirstDue(t.rooms[r].members, order, now);
    if t.rooms[r].pendingLeave.None? && c.Some? {
      trail := LeaveOrWaitTrail(t, now, r, c.value, s);
    }
  }

  lemma SweepDowngradeTrail(t: Table, now: Instant, r: RoomId, order: seq<ClientId>, s: RoomId)
    returns (trail: seq<Move>)
    requires r in t.rooms
    ensures Follows(RoomAt(t, s), trail, RoomAt(SweepDowngrade(t, r, order), s))
    ensures forall m :: m in trail ==> SweepMove(m, now)
  {
    hide CommitDowngrade, DowngradedRoom;
    var room := t.rooms[r];
    trail := [];
    if DowngradeEligible(room) {
      DowngradeRooms(t, r, order);
      if s == r {
        OneMove(Some(room), RoomDowngraded);
        trail := [RoomDowngraded];
      }
    } else if s == r {
      OneMove(Some(room), Disarmed);
      trail := [Disarmed];
    }
  }

  lemma SweepRoomTrail(t: Table, now: Instant, r: RoomId, order: seq<ClientId>, s: RoomId) returns (trail: seq<Move>)
    requires r in t.rooms ==> Timers(t.rooms[r].members)
    ensures Follows(RoomAt(t, s), trail, RoomAt(SweepRoom(t, now, r, order).0, s))
    ensures forall m :: m in trail ==> SweepMove(m, now)
  {
    hide SweepDowngrade, SweepSfu, SweepP2p;
    trail := [];
    if r in t.rooms {
      if Due(t.rooms[r].downgradeDeadline, now) { trail := SweepDowngradeTrail(t, now, r, order, s); }
      else if t.rooms[r].mode == Sfu { trail := SweepSfuTrail(t, now, r, order, s); }
      else if t.rooms[r].mode == P2p { trail := SweepP2pTrail(t, now, r, s); }
    }
  }

  ghost predicate RoomsOk(t: Table, e1: bool) {
    forall r :: r in t.rooms ==> RoomOk(t.rooms[r], e1)
  }

  lemma TimersAt(t: Table, r: RoomId)
    requires RoomsOk(t, false)
    ensures r in t.rooms ==> Timers(t.rooms[r].members)
  {
  }

  lemma SweepRoomShapes(t: Table, now: Instant, r: RoomId, order: seq<ClientId>, e1: bool)
    requires RoomsOk(t, e1)
    ensures RoomsOk(SweepRoom(t, now, r, order).0, e1)
  {
    hide RoomOk, SweepRoom;
    TimersAt(t, r) by { assert RoomsOk(t, false) by { Weaken(t, e1); } }
    forall s | s in SweepRoom(t, now, r, order).0.rooms ensures RoomOk(SweepRoom(t, now, r, order).0.rooms[s], e1) {
      var trail := SweepRoomTrail(t, now, r, order, s);
      TrailKeepsRoom(RoomAt(t, s), trail, RoomAt(SweepRoom(t, now, r, order).0, s), e1);
    }
  }

  lemma Weaken(t: Table, e1: bool)
    requires RoomsOk(t, e1)
    ensures RoomsOk(t, false)
  {
  }

  lemma {:induction false} SweepRoomsTrail(t: Table, now: Instant, rooms: seq<RoomId>,
                                           members: map<RoomId, seq<ClientId>>, s: RoomId) returns (trail: seq<Move>)
    requires RoomsOk(t, false)
    ensures Follows(RoomAt(t, s), trail, RoomAt(SweepRooms(t, now, rooms, members).0, s))
    ensures forall m :: m in trail ==> SweepMove(m, now)
    decreases |rooms|
  {
    hide RoomsOk, SweepRoom, Enabled, Moved;
    trail := [];
    if rooms != [] {
      var order := Listing(members, rooms[0]);
      var t1 := SweepRoom(t, now, rooms[0], order).0;
      TimersAt(t, rooms[0]);
      trail := SweepRoomTrail(t, now, rooms[0], order, s);
      SweepRoomShapes(t, now, rooms[0], order, false);
      var rest := SweepRoomsTrail(t1, now, rooms[1..], members, s);
      FollowsBoth(RoomAt(t, s), trail, RoomAt(t1, s), rest, RoomAt(SweepRooms(t, now, rooms, members).0, s));
      trail := trail + rest;
    }
  }

  lemma ExpiryShapes(t: Table, workers: seq<InstanceId>, hosted: map<InstanceId, seq<RoomId>>, e1: bool)
    requires RoomsOk(t, e1)
    ensures RoomsOk(ExpireWorkers(t, workers, hosted), e1)
  {
    assert UpgradesPresent(t);
    hide RoomOk, ExpireWorkers, UpgradesPresent;
    forall s | s in ExpireWorkers(t, workers, hosted).rooms
      ensures RoomOk(ExpireWorkers(t, workers, hosted).rooms[s], e1)
    {
      var trail := ExpireWorkersTrail(t, workers, hosted, s);
      TrailKeepsRoom(RoomAt(t, s), trail, RoomAt(ExpireWorkers(t, workers, hosted), s), e1);
    }
  }

  lemma TimeoutTrail(t: Table, now: Instant, schedule: Schedule, s: RoomId) returns (trail: seq<Move>)
    requires RoomsOk(t, false)
    ensures Follows(RoomAt(t, s), trail, RoomAt(HandleTimeout(t, now, schedule).0, s))
    ensures AllMade(TimeoutStep(now, schedule), trail) && Unforced(trail)
  {
    assert UpgradesPresent(t);
    hide RoomsOk, ExpireWorkers, SweepRooms, UpgradesPresent, Enabled, Moved, AllMade, Unforced, ExpiryMove, SweepMove;
    var mid := ExpireWorkers(t, schedule.workers, schedule.hosted);
    var first := ExpireWorkersTrail(t, schedule.workers, schedule.hosted, s);
    ExpiryShapes(t, schedule.workers, schedule.hosted, false);
    var second := SweepRoomsTrail(mid, now, schedule.rooms, schedule.members, s);
    FollowsBoth(RoomAt(t, s), first, RoomAt(mid, s), second, RoomAt(HandleTimeout(t, now, schedule).0, s));
    trail := first + second;
    TimeoutMakes(now, schedule, first, second);
    hide RoomAt, Follows;
  }

  lemma TimeoutMakes(now: Instant, schedule: Schedule, first: seq<Move>, second: seq<Move>)
    requires (forall m :: m in first ==> ExpiryMove(m)) && (forall m :: m in second ==> SweepMove(m, now))
    ensures AllMade(TimeoutStep(now, schedule), first + second) && Unforced(first + second)
  {
    forall m | m in first + second ensures Makes(TimeoutStep(now, schedule), m) && !m.ForceFailed? {
      assert m in first || m in second;
    }
  }

  // ---- all steps ----

  /** Every step moves each room along a trail of moves that step can make. */
  lemma StepTrail(t: Table, step: Step, s: RoomId) returns (trail: seq<Move>)
    requires RoomsOk(t, false) && ProperOrders(t, step)
    ensures Follows(RoomAt(t, s), trail, RoomAt(Apply(t, step), s))
    ensures AllMade(step, trail)
    ensures !ReachesFailRoom(t, step) ==> Unforced(trail)
    ensures RoomAt(t, s).Some? ==> forall m :: m in trail ==> !m.Created?
    ensures step.AdmitStep? || step.ResultStep? ==> |trail| <= 1
  {
    hide RoomOk, Admit, Register, Deregister, Send, Remove, HandleResult, HandleEvent, RegisterWorker, HandleTimeout,
         Follows, AllMade, Unforced, ReachesFailRoom, RoomAt, TimeoutOrders;
    assert OkAt(t, s, false);
    trail := [];
    NothingMade(step);
    match step {
      case AdmitStep(ticket, now, r, c, token) => trail := AdmitTrail(t, ticket, now, r, c, token, s);
      case RegisterStep(r, c, token, order) => trail := RegisterTrail(t, r, c, token, order, s);
      case DeregisterStep(now, r, c) => trail := DeregisterTrail(t, now, r, c, s);
      case SendStep(r, c, epoch, message, order) => trail := SendTrail(t, r, c, epoch, message, order, s);
      case RemoveStep(ticket, r, c, token) => trail := RemoveTrail(t, ticket, r, c, token, s);
      case WorkerStep(connection, i, request, capacity, rooms, commands) =>
        RegisterWorkerRooms(t, connection, i, request, capacity, rooms, commands);
        NoMove(t, RegisterWorker(t, connection, i, request, capacity, rooms, commands), s);
      case ResultStep(connection, i, result, now) => trail := ResultTrail(t, connection, i, result, now, s);
      case EventStep(connection, i, event) => trail := EventTrail(t, connection, i, event, s);
      case LostStep(connection, i, now) => NoMove(t, LoseWorker(t, connection, i, now), s);
      case TimeoutStep(now, schedule) => trail := TimeoutTrail(t, now, schedule, s);
      case PollStep => NoMove(t, PollAction(t), s);
    }
    NeverRecreated(t, step, s, trail);
    if !step.ResultStep? && !step.EventStep? { OtherwiseUnforced(step, trail); }
  }

  lemma NothingMade(step: Step)
    ensures AllMade(step, []) && Unforced([])
  {
  }

  lemma OtherwiseUnforced(step: Step, trail: seq<Move>)
    requires AllMade(step, trail) && !step.ResultStep? && !step.EventStep?
    ensures Unforced(trail)
  {
  }

  lemma NeverRecreated(t: Table, step: Step, s: RoomId, trail: seq<Move>)
    requires Follows(RoomAt(t, s), trail, RoomAt(Apply(t, step), s))
    requires AllMade(step, trail) && (step.AdmitStep? ==> |trail| <= 1)
    ensures RoomAt(t, s).Some? ==> forall m :: m in trail ==> !m.Created?
  {
    hide Apply;
  }

  lemma RegisterWorkerRooms(t: Table, connection: ConnectionId, i: InstanceId, request: RequestId, capacity: Capacity,
                            rooms: seq<RoomId>, commands: seq<RequestId>)
    ensures RegisterWorker(t, connection, i, request, capacity, rooms, commands).rooms == t.rooms
  {
    hide ResyncRooms;
    ResyncFrame(OpenSession(t, connection, i, request, capacity), i, connection, rooms, commands);
  }

  lemma NoMove(t: Table, t': Table, s: RoomId)
    requires t'.rooms == t.rooms
    ensures Follows(RoomAt(t, s), [], RoomAt(t', s))
  {
  }

  /** Every step keeps every room in shape; unless it fails a room by force, it keeps the roles too. */
  lemma StepKeepsRooms(t: Table, step: Step, e1: bool)
    requires RoomsOk(t, e1) && ProperOrders(t, step)
    requires e1 ==> !ReachesFailRoom(t, step)
    ensures RoomsOk(Apply(t, step), e1)
  {
    hide RoomOk, Apply, ProperOrders, ReachesFailRoom;
    Weaken(t, e1);
    forall s | s in Apply(t, step).rooms ensures RoomOk(Apply(t, step).rooms[s], e1) {
      var trail := StepTrail(t, step, s);
      TrailKeepsRoom(RoomAt(t, s), trail, RoomAt(Apply(t, step), s), e1);
    }
  }
}
